/** `exploreResponses` (explorer/responses.ts): the response metadata of a
    controller and of an action, merged and turned into Response Objects
    keyed by status code.

    The merge comes from a library whose precedence rules are not part of
    this model: it is a parameter.
 */
module Responses {
  import opened JsValues
  import opened SchemaObject

  /** Reading `v.k` on any value: only objects have properties here. */
  function Field(v: Value, k: string): Value {
    if v.Obj? then Get(v.fields, k) else Undefined
  }

  /** `new entry.type()` succeeds only when `type` is a function; on any
      other value (also on a missing entry) the source throws. */
  predicate Constructible(entry: Value) {
    Field(entry, "type").Fn?
  }

  const TypeErrorMessage := "TypeError: type is not a constructor"

  function JsonContent(schema: Value): Value {
    Obj(map["application/json" := Obj(map["schema" := schema])])
  }

  /** The Response Object for one metadata entry. */
  function ResponseFor(reg: Registry, ghost rank: map<string, nat>, entry: Value): (r: Value)
    requires WellRanked(reg, rank) && Constructible(entry)
    ensures r.Obj? && r.fields.Keys == {"description", "content"}
    ensures r.fields["description"] == Field(entry, "description")
    ensures var content := r.fields["content"];
            && content.Obj? && content.fields.Keys == {"application/json"}
            && content.fields["application/json"] == Obj(map["schema" := BuildSchemaObject(reg, rank, Field(entry, "type").ctor)])
  {
    Obj(map["description" := Field(entry, "description"),
            "content" := JsonContent(BuildSchemaObject(reg, rank, Field(entry, "type").ctor))])
  }

  /** What `exploreResponses` computes from the merged metadata: a Response
      Object per status code, or the error thrown by the `forEach` when some
      entry has no constructor for its type. */
  function ResponsesOf(reg: Registry, ghost rank: map<string, nat>, metadata: map<string, Value>)
    : (r: Result<map<string, Value>, string>)
    requires WellRanked(reg, rank)
    ensures r.Failure? <==> exists code | code in metadata :: !Constructible(metadata[code])
    ensures r.Failure? ==> r.error == TypeErrorMessage
    ensures r.Success? ==> r.value.Keys == metadata.Keys
    ensures r.Success? ==> forall code | code in r.value :: r.value[code] == ResponseFor(reg, rank, metadata[code])
  {
    if exists code | code in metadata :: !Constructible(metadata[code]) then
      Failure(TypeErrorMessage)
    else
      Success(map code | code in metadata :: ResponseFor(reg, rank, metadata[code]))
  }

  /** The metadata record the source merges: the controller's and the
      action's response metadata, `{}` where there is none, and the action's
      only when the action has a property descriptor. */
  function MergedMetadata(classResponses: Option<map<string, Value>>, hasDescriptor: bool,
                          actionResponses: Option<map<string, Value>>,
                          merge: (map<string, Value>, map<string, Value>) -> map<string, Value>)
    : map<string, Value>
  {
    merge(classResponses.GetOr(map[]), if hasDescriptor then actionResponses.GetOr(map[]) else map[])
  }

  /** `exploreResponses(route)`: fills the result one status code at a time. */
  method ExploreResponses(reg: Registry, ghost rank: map<string, nat>,
                          classResponses: Option<map<string, Value>>, hasDescriptor: bool,
                          actionResponses: Option<map<string, Value>>,
                          merge: (map<string, Value>, map<string, Value>) -> map<string, Value>)
    returns (r: Result<map<string, Value>, string>)
    requires WellRanked(reg, rank)
    ensures r == ResponsesOf(reg, rank, MergedMetadata(classResponses, hasDescriptor, actionResponses, merge))
  {
    var metadata := MergedMetadata(classResponses, hasDescriptor, actionResponses, merge);
    var responses: map<string, Value> := map[];
    var remaining := metadata.Keys;
    while remaining != {}
      invariant remaining <= metadata.Keys
      invariant responses.Keys == metadata.Keys - remaining
      invariant forall code | code in responses :: Constructible(metadata[code])
      invariant forall code | code in responses :: responses[code] == ResponseFor(reg, rank, metadata[code])
      decreases remaining
    {
      var code :| code in remaining;
      if !Constructible(metadata[code]) {
        return Failure(TypeErrorMessage);
      }
      responses := responses[code := ResponseFor(reg, rank, metadata[code])];
      remaining := remaining - {code};
    }
    SuccessfulResponses(reg, rank, metadata, responses);
    r := Success(responses);
  }

  /** A record with a Response Object for every status code is the result. */
  lemma SuccessfulResponses(reg: Registry, rank: map<string, nat>, metadata: map<string, Value>,
                            responses: map<string, Value>)
    requires WellRanked(reg, rank)
    requires responses.Keys == metadata.Keys
    requires forall code | code in responses :: Constructible(metadata[code])
    requires forall code | code in responses :: responses[code] == ResponseFor(reg, rank, metadata[code])
    ensures ResponsesOf(reg, rank, metadata) == Success(responses)
  {
    assert ResponsesOf(reg, rank, metadata).Success? by {
      forall code | code in metadata
        ensures Constructible(metadata[code])
      {
        assert code in responses;
      }
    }
    var other := ResponsesOf(reg, rank, metadata).value;
    forall code | code in other
      ensures other[code] == responses[code]
    {
      assert code in responses;
    }
    MapsEqual(other, responses);
  }

  /** With no metadata on the controller or the action, the result is
      empty (given that merging two empty records gives an empty record). */
  lemma NoMetadataNoResponses(reg: Registry, rank: map<string, nat>, hasDescriptor: bool,
                              merge: (map<string, Value>, map<string, Value>) -> map<string, Value>)
    requires WellRanked(reg, rank)
    requires merge(map[], map[]) == map[]
    ensures ResponsesOf(reg, rank, MergedMetadata(None, hasDescriptor, None, merge)) == Success(map[])
  {
  }

  /** A response whose type is a class without recorded properties gets the
      empty object schema. */
  lemma UnrecordedTypeHasEmptySchema(reg: Registry, rank: map<string, nat>, metadata: map<string, Value>, code: string)
    requires WellRanked(reg, rank) && code in metadata && Constructible(metadata[code])
    requires ResponsesOf(reg, rank, metadata).Success?
    requires var c := Field(metadata[code], "type").ctor; !(c.ClassCtor? && c.className in reg && |reg[c.className].recorded| > 0)
    ensures ResponsesOf(reg, rank, metadata).value[code].fields["content"] == JsonContent(EmptyObjectSchema())
  {
  }
}
