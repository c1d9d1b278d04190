/** The option normalisation of the `ApiOperation` and `ApiExtension`
    decorators (nestjs/decorators/). Storing the result as method or class
    metadata is not part of this model.
 */
module Decorators {
  import opened JsValues

  /** The default options of `ApiOperation`. */
  function DefaultOperationOptions(): Object {
    map["summary" := Str("")]
  }

  /** `pickBy(o, v => v !== undefined)`. */
  function DefinedOnly(o: Object): (r: Object)
    ensures r.Keys == set k | k in o && o[k] != Undefined
    ensures forall k | k in r :: r[k] == o[k]
  {
    map k | k in o && o[k] != Undefined :: o[k]
  }

  /** The metadata `ApiOperation(options)` stores: the defaults overridden
      by the options, with every `undefined` value dropped. */
  function ApiOperationMetadata(options: Object): (r: Object)
    ensures forall k :: k in r <==> (k in options && options[k] != Undefined) || (k == "summary" && "summary" !in options)
    ensures "summary" !in options ==> r["summary"] == Str("")
    ensures forall k | k in r && k in options :: r[k] == options[k]
    ensures forall k | k in r :: r[k] != Undefined
  {
    DefinedOnly(DefaultOperationOptions() + options)
  }

  /** Normalising stored metadata again changes nothing, unless the summary
      was dropped for being `undefined`: then the default comes back. */
  lemma ApiOperationIdempotent(options: Object)
    requires "summary" in options ==> options["summary"] != Undefined
    ensures ApiOperationMetadata(ApiOperationMetadata(options)) == ApiOperationMetadata(options)
  {
    var once := ApiOperationMetadata(options);
    var twice := ApiOperationMetadata(once);
    assert "summary" in once;
    assert twice.Keys == once.Keys;
    MapsEqual(twice, once);
  }

  /** An explicit `summary: undefined` removes the default summary. */
  lemma ExplicitUndefinedSummaryDropped(options: Object)
    requires "summary" in options && options["summary"] == Undefined
    ensures "summary" !in ApiOperationMetadata(options)
  {
  }

  const ExtensionKeyError := "Extension key is not prefixed. Please ensure you prefix it with `x-`."

  /** `clone(v)`: a deep copy, equal as a value to the original. */
  function Clone(v: Value): (r: Value)
    ensures r == v
  {
    match v
    case Arr(items) =>
      var copy := seq(|items|, i requires 0 <= i < |items| => Clone(items[i]));
      assert copy == items;
      Arr(copy)
    case Obj(fields) =>
      var copy := map k | k in fields :: Clone(fields[k]);
      MapsEqual(copy, fields);
      Obj(copy)
    case _ => v
  }

  /** The extension object of `ApiExtension(key, props)`, or the error it
      throws, before any object is built, when the key lacks the `x-`
      prefix. */
  function ApiExtension(key: string, props: Value): (r: Result<Object, string>)
    ensures r.Success? <==> StartsWith(key, "x-")
    ensures r.Failure? ==> r.error == ExtensionKeyError
    ensures r.Success? ==> r.value.Keys == {key} && r.value[key] == props
  {
    if !StartsWith(key, "x-") then Failure(ExtensionKeyError)
    else Success(map[key := Clone(props)])
  }

  /** Every key written with the prefix is accepted. */
  lemma PrefixedExtensionAccepted(name: string, props: Value)
    ensures ApiExtension("x-" + name, props) == Success(map["x-" + name := props])
  {
    assert ("x-" + name)[..2] == "x-";
  }
}
