/** `exploreParameters` (explorer/parameters.ts): the parameter metadata
    stored by the parameter decorators, with each `type` turned into a
    `schema`. The source rewrites the stored metadata objects in place;
    here the stored list is an array whose cells are replaced.
 */
module Parameters {
  import opened JsValues
  import opened SchemaObject

  /** The schema the source stores for a parameter type. */
  function ParameterSchema(t: Value): Value {
    Obj(map["type" := Str(PropertyType(t))])
  }

  /** The rewrite of one metadata item: an item with a `type` gets a
      `schema` of that type and loses the `type`; any other item is kept. */
  function ConvertParameter(item: Object): (r: Object)
    ensures "type" !in r
    ensures "type" in item ==> "schema" in r && r["schema"] == ParameterSchema(item["type"])
    ensures "type" in item ==>
              forall k | k != "type" && k != "schema" :: (k in r <==> k in item) && (k in r ==> r[k] == item[k])
    ensures "type" !in item ==> r == item
  {
    if "type" in item then
      (item - {"type"})["schema" := ParameterSchema(item["type"])]
    else
      item
  }

  /** Rewriting twice is rewriting once. */
  lemma ConvertParameterIdempotent(item: Object)
    ensures ConvertParameter(ConvertParameter(item)) == ConvertParameter(item)
  {
  }

  /** The list the `map` call returns: every item rewritten, in order. */
  function ConvertAll(items: seq<Object>): (r: seq<Object>)
    ensures |r| == |items|
    ensures forall i :: 0 <= i < |items| ==> r[i] == ConvertParameter(items[i])
  {
    seq(|items|, i requires 0 <= i < |items| => ConvertParameter(items[i]))
  }

  /** After the rewrite no item has a `type` key, and a second rewrite
      changes nothing. */
  lemma ConvertAllIdempotent(items: seq<Object>)
    ensures forall i :: 0 <= i < |items| ==> "type" !in ConvertAll(items)[i]
    ensures ConvertAll(ConvertAll(items)) == ConvertAll(items)
  {
    var once := ConvertAll(items);
    forall i | 0 <= i < |items|
      ensures ConvertAll(once)[i] == once[i]
    {
      ConvertParameterIdempotent(items[i]);
    }
  }

  /** `exploreParameters(route)`. `hasDescriptor` says whether the action has
      a property descriptor; `metadata` is the stored list, `null` when the
      action has no parameter metadata. */
  method ExploreParameters(hasDescriptor: bool, metadata: array?<Object>) returns (r: seq<Object>)
    modifies metadata
    ensures !hasDescriptor || metadata == null ==> r == []
    ensures !hasDescriptor && metadata != null ==> metadata[..] == old(metadata[..])
    ensures hasDescriptor && metadata != null ==>
              metadata[..] == ConvertAll(old(metadata[..])) && r == metadata[..]
  {
    if !hasDescriptor || metadata == null {
      return [];
    }
    var i := 0;
    while i < metadata.Length
      invariant 0 <= i <= metadata.Length
      invariant metadata[..i] == ConvertAll(old(metadata[..]))[..i]
      invariant metadata[i..] == old(metadata[..])[i..]
    {
      metadata[i] := ConvertParameter(metadata[i]);
      i := i + 1;
    }
    r := metadata[..];
  }
}
