/** What `getPathItem` (builder.ts) makes of one route: the Operation Object
    assembled from the route and from what the explorers found for it, the
    schemas it adds to the document and the class names it marks as used.

    This module is the specification: pure functions, each a fold in the
    order the source's `forEach` loops run. The builder's `GetPathItem`
    method does the same work step by step and is proved equal to
    `PathItemOf`.
 */
module PathItem {
  import opened JsValues
  import opened SchemaObject

  /** The kinds of route parameters the framework records. The source's
      other kinds (request, response, context, ...) are `OtherParam`. */
  datatype ParamType = Query | RouteParam | Cookie | Body | OtherParam

  /** One parameter of a route action, as the framework recorded it. */
  datatype RouteParamMetadata = RouteParamMetadata(kind: ParamType, name: Value, transform: Option<Ctor>)

  /** The framework's metadata of one route. */
  datatype RouteMetadata = RouteMetadata(
    httpMethod: string,
    route: string,
    params: seq<RouteParamMetadata>,
    controllerName: string)

  /** What the explorers read from the reflected metadata of one route:
      the operation metadata (`{}` when there is none), the controller's
      and the action's tags, the responses, the security requirements
      (`{}` when there are none), the media types of `ApiConsumes` and the
      decorator parameters after `exploreParameters`. */
  datatype Explored = Explored(
    operation: Object,
    classTags: seq<string>,
    propertyTags: seq<string>,
    responses: map<string, Value>,
    security: Value,
    consumes: seq<string>,
    parameters: seq<Object>)

  /** The types the explorers guarantee: stored operation tags are an array,
      and the security metadata falls back to `{}`, so it is never
      `undefined` or `null` (reading its `length` would throw). */
  predicate ExploredShape(ex: Explored) {
    && (Truthy(Get(ex.operation, "tags")) ==> Get(ex.operation, "tags").Arr?)
    && ex.security != Undefined && ex.security != Null
  }

  // ----- tags, security, responses

  /** `operation.tags || []`. */
  function OperationTagList(operation: Object): seq<Value> {
    var t := Get(operation, "tags");
    if t.Arr? then t.items else []
  }

  /** The operation's tags, then the controller's, then the action's. */
  function JoinedTags(ex: Explored): seq<Value> {
    OperationTagList(ex.operation) + Strs(ex.classTags) + Strs(ex.propertyTags)
  }

  /** The tags stored on the operation: the joined tags, or the controller
      class name when there are none. */
  function TagsOf(ex: Explored, controllerName: string): seq<Value> {
    var tags := JoinedTags(ex);
    if |tags| > 0 then tags else [Str(controllerName)]
  }

  /** The `length` property of a value. Arrays and strings have one, an
      object may have a `length` key; on the other values it reads as
      `undefined`. */
  function LengthProperty(v: Value): Value {
    match v
    case Arr(items) => Num(|items|)
    case Str(s) => Num(|s|)
    case Obj(fields) => Get(fields, "length")
    case _ => Undefined
  }

  function DefaultResponses(): Value {
    Obj(map["200" := Obj(map["description" := Str("")])])
  }

  /** The explored responses when there is at least one, else the default. */
  function ResponsesOrDefault(responses: map<string, Value>): Value {
    if |responses| > 0 then Obj(responses) else DefaultResponses()
  }

  // ----- parameters from the route

  function StringSchema(): Value {
    Obj(map["type" := Str("string")])
  }

  /** The Parameter Object the source pushes for a query, path or cookie
      parameter; the other kinds push none. */
  function ParameterFor(p: RouteParamMetadata): (r: Option<Object>)
    ensures r.Some? <==> p.kind == Query || p.kind == RouteParam || p.kind == Cookie
    ensures r.Some? ==> "name" in r.value && r.value["name"] == p.name
    ensures r.Some? ==> "schema" in r.value && r.value["schema"] == StringSchema()
    ensures r.Some? ==> "in" in r.value
    ensures p.kind == Query ==> r.value["in"] == Str("query")
    ensures p.kind == RouteParam ==> r.value["in"] == Str("path")
    ensures p.kind == Cookie ==> r.value["in"] == Str("cookie")
    ensures r.Some? ==> ("required" in r.value <==> p.kind == RouteParam)
    ensures p.kind == RouteParam ==> r.value["required"] == Bool(true)
    ensures r.Some? ==> r.value.Keys <= {"name", "in", "required", "schema"}
  {
    match p.kind
    case Query => Some(map["name" := p.name, "in" := Str("query"), "schema" := StringSchema()])
    case RouteParam => Some(map["name" := p.name, "required" := Bool(true), "in" := Str("path"), "schema" := StringSchema()])
    case Cookie => Some(map["name" := p.name, "in" := Str("cookie"), "schema" := StringSchema()])
    case _ => None
  }

  function OptionSeq<T>(o: Option<T>): seq<T> {
    match o
    case Some(v) => [v]
    case None => []
  }

  /** The Parameter Objects of the route's parameters, in route order. */
  function RouteParameters(ps: seq<RouteParamMetadata>): seq<Object>
    decreases |ps|
  {
    if |ps| == 0 then []
    else RouteParameters(ps[..|ps| - 1]) + OptionSeq(ParameterFor(ps[|ps| - 1]))
  }

  /** One Parameter Object per query, path or cookie parameter, in route
      order: the list for a concatenation is the concatenation of the lists. */
  lemma {:induction false} RouteParametersAppend(a: seq<RouteParamMetadata>, b: seq<RouteParamMetadata>)
    ensures RouteParameters(a + b) == RouteParameters(a) + RouteParameters(b)
    decreases |b|
  {
    if |b| == 0 {
      assert a + b == a;
    } else {
      var b' := b[..|b| - 1];
      assert (a + b)[..|a + b| - 1] == a + b';
      assert (a + b)[|a + b| - 1] == b[|b| - 1];
      RouteParametersAppend(a, b');
    }
  }

  /** A single route parameter yields its own Parameter Object, if any. */
  lemma RouteParametersSingle(p: RouteParamMetadata)
    ensures RouteParameters([p]) == OptionSeq(ParameterFor(p))
  {
    assert [p][..0] == [];
  }

  // ----- the request body

  function SchemaWrap(schema: Value): Value {
    Obj(map["schema" := schema])
  }

  /** The `reduce` over the consumed media types: each maps to `{schema}`. */
  function ContentFor(consumes: seq<string>, schema: Value): (r: map<string, Value>)
    ensures r.Keys == set c | c in consumes
    ensures forall c | c in r :: r[c] == SchemaWrap(schema)
    decreases |consumes|
  {
    if |consumes| == 0 then map[]
    else
      var init := consumes[..|consumes| - 1];
      assert consumes == init + [consumes[|consumes| - 1]];
      ContentFor(init, schema)[consumes[|consumes| - 1] := SchemaWrap(schema)]
  }

  const SchemasPrefix := "#/components/schemas/"

  /** `GetShemeLinkAndRegister`'s link to a component schema. */
  function SchemeLink(name: string): (r: string)
    ensures StartsWith(r, SchemasPrefix) && r[|SchemasPrefix|..] == name
  {
    SchemasPrefix + name
  }

  /** The content of a body without `ApiConsumes`: JSON referring to the
      component schema of the class. */
  function RefContent(name: string): map<string, Value> {
    map["application/json" := SchemaWrap(Obj(map["$ref" := Str(SchemeLink(name))]))]
  }

  /** A Request Body Object with `required: true` and some content. */
  predicate IsRequiredBody(v: Value) {
    && v.Obj? && v.fields.Keys == {"required", "content"}
    && v.fields["required"] == Bool(true) && v.fields["content"].Obj?
  }

  function RequestBody(content: map<string, Value>): (r: Value)
    ensures IsRequiredBody(r) && r.fields["content"].fields == content
  {
    Obj(map["required" := Bool(true), "content" := Obj(content)])
  }

  // ----- the pass over the route parameters

  /** What the pass over the route parameters has built so far: the
      parameter list, the request body, the document's component schemas
      and the used class names. */
  datatype PassState = PassState(
    parameters: seq<Object>,
    requestBody: Option<Value>,
    schemas: map<string, Value>,
    usable: set<string>)

  /** One iteration of `route.params.forEach`. */
  function RouteParamStep(reg: Registry, ghost rank: map<string, nat>, consumes: seq<string>,
                          decorated: seq<Object>, st: PassState, p: RouteParamMetadata): PassState
    requires WellRanked(reg, rank)
  {
    match p.kind
    case Body =>
      if p.transform.Some? then
        var schema := BuildSchemaObject(reg, rank, p.transform.value);
        var name := CtorName(p.transform.value);
        if |consumes| > 0 then
          st.(requestBody := Some(RequestBody(ContentFor(consumes, schema))), schemas := st.schemas[name := schema])
        else
          st.(requestBody := Some(RequestBody(RefContent(name))), schemas := st.schemas[name := schema],
              usable := st.usable + {name})
      else if |consumes| > 0 && |decorated| > 0 then
        st.(requestBody := Some(RequestBody(ContentFor(consumes, Get(decorated[0], "schema")))))
      else
        st
    case _ => st.(parameters := st.parameters + OptionSeq(ParameterFor(p)))
  }

  /** `route.params.forEach(...)` from the state `st`. */
  function ParamPass(reg: Registry, ghost rank: map<string, nat>, consumes: seq<string>,
                     decorated: seq<Object>, ps: seq<RouteParamMetadata>, st: PassState): PassState
    requires WellRanked(reg, rank)
    decreases |ps|
  {
    if |ps| == 0 then st
    else RouteParamStep(reg, rank, consumes, decorated, ParamPass(reg, rank, consumes, decorated, ps[..|ps| - 1], st), ps[|ps| - 1])
  }

  /** A body parameter whose class is given, with `ApiConsumes`: its schema
      is added under the class name and the required body has `{schema}`
      for each consumed media type. */
  lemma TransformedBodyConsumed(reg: Registry, rank: map<string, nat>, consumes: seq<string>,
                                decorated: seq<Object>, st: PassState, p: RouteParamMetadata)
    requires WellRanked(reg, rank) && p.kind == Body && p.transform.Some? && |consumes| > 0
    ensures var r := RouteParamStep(reg, rank, consumes, decorated, st, p);
            var schema := BuildSchemaObject(reg, rank, p.transform.value);
            && r.parameters == st.parameters && r.usable == st.usable
            && r.schemas == st.schemas[CtorName(p.transform.value) := schema]
            && r.requestBody.Some? && IsRequiredBody(r.requestBody.value)
            && var content := r.requestBody.value.fields["content"].fields;
               && content.Keys == (set c | c in consumes)
               && (forall c | c in content :: content[c] == SchemaWrap(schema))
  {
    var schema := BuildSchemaObject(reg, rank, p.transform.value);
    assert RouteParamStep(reg, rank, consumes, decorated, st, p)
        == st.(requestBody := Some(RequestBody(ContentFor(consumes, schema))),
               schemas := st.schemas[CtorName(p.transform.value) := schema]);
  }

  /** A body parameter whose class is given, without `ApiConsumes`: its
      schema is added under the class name, the required body is JSON
      referring to that component schema, and the name is marked as used. */
  lemma TransformedBodyReferenced(reg: Registry, rank: map<string, nat>, consumes: seq<string>,
                                  decorated: seq<Object>, st: PassState, p: RouteParamMetadata)
    requires WellRanked(reg, rank) && p.kind == Body && p.transform.Some? && |consumes| == 0
    ensures var r := RouteParamStep(reg, rank, consumes, decorated, st, p);
            var name := CtorName(p.transform.value);
            && r.parameters == st.parameters && r.usable == st.usable + {name}
            && r.schemas == st.schemas[name := BuildSchemaObject(reg, rank, p.transform.value)]
            && r.requestBody.Some? && IsRequiredBody(r.requestBody.value)
            && r.requestBody.value.fields["content"].fields
               == map["application/json" := SchemaWrap(Obj(map["$ref" := Str(SchemasPrefix + name)]))]
  {
    var name := CtorName(p.transform.value);
    assert RouteParamStep(reg, rank, consumes, decorated, st, p)
        == st.(requestBody := Some(RequestBody(RefContent(name))),
               schemas := st.schemas[name := BuildSchemaObject(reg, rank, p.transform.value)],
               usable := st.usable + {name});
  }

  /** The class name a route parameter adds a component schema for. */
  function StepNames(p: RouteParamMetadata): set<string> {
    if p.kind == Body && p.transform.Some? then {CtorName(p.transform.value)} else {}
  }

  /** What one step does to the parameter list, the schemas and the used
      names. */
  lemma StepFacts(reg: Registry, rank: map<string, nat>, consumes: seq<string>,
                  decorated: seq<Object>, st: PassState, p: RouteParamMetadata)
    requires WellRanked(reg, rank)
    ensures var r := RouteParamStep(reg, rank, consumes, decorated, st, p);
            && r.parameters == st.parameters + OptionSeq(ParameterFor(p))
            && r.schemas.Keys == st.schemas.Keys + StepNames(p)
            && (forall n | n in st.schemas && n !in StepNames(p) :: r.schemas[n] == st.schemas[n])
            && r.usable == (if |consumes| > 0 then st.usable else st.usable + StepNames(p))
  {
  }

  /** The pass pushes exactly the route's Parameter Objects, in order. */
  lemma {:induction false} PassParameters(reg: Registry, rank: map<string, nat>, consumes: seq<string>,
                                          decorated: seq<Object>, ps: seq<RouteParamMetadata>, st: PassState)
    requires WellRanked(reg, rank)
    ensures ParamPass(reg, rank, consumes, decorated, ps, st).parameters == st.parameters + RouteParameters(ps)
    decreases |ps|
  {
    if |ps| > 0 {
      var init := ps[..|ps| - 1];
      PassParameters(reg, rank, consumes, decorated, init, st);
      StepFacts(reg, rank, consumes, decorated, ParamPass(reg, rank, consumes, decorated, init, st), ps[|ps| - 1]);
    }
  }

  /** The class names of the body parameters that carry a class. */
  function TransformNames(ps: seq<RouteParamMetadata>): set<string>
    decreases |ps|
  {
    if |ps| == 0 then {} else TransformNames(ps[..|ps| - 1]) + StepNames(ps[|ps| - 1])
  }

  /** The pass adds a component schema for every body class and for nothing
      else, and keeps the schemas already there under other names; it marks
      those classes as used exactly when nothing is consumed. */
  lemma {:induction false} PassSchemasAndNames(reg: Registry, rank: map<string, nat>, consumes: seq<string>,
                                               decorated: seq<Object>, ps: seq<RouteParamMetadata>, st: PassState)
    requires WellRanked(reg, rank)
    ensures var r := ParamPass(reg, rank, consumes, decorated, ps, st);
            && r.schemas.Keys == st.schemas.Keys + TransformNames(ps)
            && (forall n | n in st.schemas && n !in TransformNames(ps) :: r.schemas[n] == st.schemas[n])
            && r.usable == (if |consumes| > 0 then st.usable else st.usable + TransformNames(ps))
    decreases |ps|
  {
    if |ps| > 0 {
      var init := ps[..|ps| - 1];
      PassSchemasAndNames(reg, rank, consumes, decorated, init, st);
      StepFacts(reg, rank, consumes, decorated, ParamPass(reg, rank, consumes, decorated, init, st), ps[|ps| - 1]);
    }
  }

  // ----- the merge of the decorator parameters

  /** `p.name === param.name && p.in === param.in`. */
  predicate SameKey(a: Object, b: Object) {
    StrictEquals(Get(a, "name"), Get(b, "name")) && StrictEquals(Get(a, "in"), Get(b, "in"))
  }

  /** `findIndex`: the first entry with the same key, or -1. */
  function FindIndex(list: seq<Object>, p: Object): (i: int)
    ensures -1 <= i < |list|
    ensures 0 <= i ==> SameKey(list[i], p) && forall j :: 0 <= j < i ==> !SameKey(list[j], p)
    ensures i == -1 ==> forall j :: 0 <= j < |list| ==> !SameKey(list[j], p)
    decreases |list|
  {
    if |list| == 0 then -1
    else if SameKey(list[0], p) then 0
    else
      var k := FindIndex(list[1..], p);
      if k == -1 then -1 else k + 1
  }

  /** Overwrite the first entry with the same key, or append. */
  function Upsert(list: seq<Object>, p: Object): (r: seq<Object>)
    ensures FindIndex(list, p) == -1 ==> r == list + [p]
    ensures FindIndex(list, p) != -1 ==>
              && |r| == |list| && r[FindIndex(list, p)] == p
              && forall j :: 0 <= j < |list| && j != FindIndex(list, p) ==> r[j] == list[j]
    ensures forall j :: 0 <= j < |list| && !SameKey(list[j], p) ==> r[j] == list[j]
  {
    var i := FindIndex(list, p);
    if i == -1 then list + [p] else list[i := p]
  }

  /** `param.in === 'body'`: handled with the route's body parameter. */
  predicate IsBodyParam(p: Object) {
    StrictEquals(Get(p, "in"), Str("body"))
  }

  /** `parameters.forEach(...)`: every decorator parameter that is not a
      body is upserted into the list. */
  function MergeDecorated(list: seq<Object>, decorated: seq<Object>): seq<Object>
    decreases |decorated|
  {
    if |decorated| == 0 then list
    else
      var acc := MergeDecorated(list, decorated[..|decorated| - 1]);
      var p := decorated[|decorated| - 1];
      if IsBodyParam(p) then acc else Upsert(acc, p)
  }

  function NonBody(ps: seq<Object>): (r: seq<Object>)
    ensures forall i :: 0 <= i < |r| ==> !IsBodyParam(r[i])
    decreases |ps|
  {
    if |ps| == 0 then []
    else if IsBodyParam(ps[|ps| - 1]) then NonBody(ps[..|ps| - 1])
    else NonBody(ps[..|ps| - 1]) + [ps[|ps| - 1]]
  }

  /** Body parameters are skipped: merging is merging the others. */
  lemma {:induction false} MergeSkipsBody(list: seq<Object>, decorated: seq<Object>)
    ensures MergeDecorated(list, decorated) == MergeDecorated(list, NonBody(decorated))
    decreases |decorated|
  {
    if |decorated| > 0 {
      var init := decorated[..|decorated| - 1];
      var p := decorated[|decorated| - 1];
      MergeSkipsBody(list, init);
      if !IsBodyParam(p) {
        var n := NonBody(init) + [p];
        assert n[..|n| - 1] == NonBody(init);
      }
    }
  }

  /** Decorator parameters only overwrite or append: the list never gets
      shorter, and an entry whose key no decorator parameter shares keeps
      its value and its place. */
  lemma {:induction false} MergeKeepsUnmatched(list: seq<Object>, decorated: seq<Object>)
    ensures |MergeDecorated(list, decorated)| >= |list|
    ensures forall j :: 0 <= j < |list| && (forall q | q in decorated :: !SameKey(list[j], q)) ==>
              MergeDecorated(list, decorated)[j] == list[j]
    decreases |decorated|
  {
    if |decorated| > 0 {
      var init := decorated[..|decorated| - 1];
      var p := decorated[|decorated| - 1];
      MergeKeepsUnmatched(list, init);
      var acc := MergeDecorated(list, init);
      forall j | 0 <= j < |list| && (forall q | q in decorated :: !SameKey(list[j], q))
        ensures MergeDecorated(list, decorated)[j] == list[j]
      {
        assert forall q | q in init :: q in decorated;
        assert acc[j] == list[j];
        assert !SameKey(acc[j], p);
      }
    }
  }

  /** When every decorator parameter is a new key, they are appended in
      order after the route's parameters, body parameters left out. */
  lemma {:induction false} MergeAppendsNewKeys(list: seq<Object>, decorated: seq<Object>)
    requires forall j, q | 0 <= j < |list| && q in decorated :: !SameKey(list[j], q)
    requires forall a, b | 0 <= a < b < |decorated| :: !SameKey(decorated[a], decorated[b])
    ensures MergeDecorated(list, decorated) == list + NonBody(decorated)
    decreases |decorated|
  {
    if |decorated| > 0 {
      var init := decorated[..|decorated| - 1];
      var p := decorated[|decorated| - 1];
      assert forall q | q in init :: q in decorated;
      assert forall a, b | 0 <= a < b < |init| :: init[a] == decorated[a] && init[b] == decorated[b];
      MergeAppendsNewKeys(list, init);
      NonBodyFrom(init);
      if !IsBodyParam(p) {
        var acc := list + NonBody(init);
        forall j | 0 <= j < |acc|
          ensures !SameKey(acc[j], p)
        {
          if j >= |list| {
            assert acc[j] == NonBody(init)[j - |list|];
            assert acc[j] in init;
            var a :| 0 <= a < |init| && init[a] == acc[j];
            assert decorated[a] == init[a];
          } else {
            assert p in decorated;
          }
        }
        assert FindIndex(acc, p) == -1;
        var n := NonBody(init) + [p];
        assert acc + [p] == list + n;
      }
    }
  }

  /** Every entry of `NonBody(ps)` is an entry of `ps`. */
  lemma {:induction false} NonBodyFrom(ps: seq<Object>)
    ensures forall q | q in NonBody(ps) :: q in ps
    decreases |ps|
  {
    if |ps| > 0 {
      var init := ps[..|ps| - 1];
      NonBodyFrom(init);
      assert forall q | q in init :: q in ps;
    }
  }

  // ----- the operation and the path item

  function ObjValues(list: seq<Object>): (r: seq<Value>)
    ensures |r| == |list| && forall i :: 0 <= i < |list| ==> r[i] == Obj(list[i])
  {
    seq(|list|, i requires 0 <= i < |list| => Obj(list[i]))
  }

  /** `if (security.length) operation.security = security`. */
  function SecurityApplied(op: Object, security: Value): Object {
    if Truthy(LengthProperty(security)) then op["security" := security] else op
  }

  function BodyApplied(op: Object, body: Option<Value>): Object {
    if body.Some? then op["requestBody" := body.value] else op
  }

  /** Setting the request body again replaces the earlier one. */
  lemma BodyReplaced(head: Object, before: Option<Value>, body: Value)
    ensures BodyApplied(head, before)["requestBody" := body] == BodyApplied(head, Some(body))
  {
    MapsEqual(BodyApplied(head, before)["requestBody" := body], BodyApplied(head, Some(body)));
  }

  /** The pass over the route parameters, from an empty parameter list and
      the document's schemas and used names. */
  function PassOf(reg: Registry, ghost rank: map<string, nat>, route: RouteMetadata, ex: Explored,
                  schemas: map<string, Value>, usable: set<string>): PassState
    requires WellRanked(reg, rank)
  {
    ParamPass(reg, rank, ex.consumes, ex.parameters, route.params, PassState([], None, schemas, usable))
  }

  /** The operation before the pass over the route parameters: tags,
      security and responses set. */
  function OperationHead(route: RouteMetadata, ex: Explored): Object {
    var withTags := ex.operation["tags" := Arr(JoinedTags(ex))];
    var withSecurity := SecurityApplied(withTags, ex.security);
    withSecurity["tags" := Arr(TagsOf(ex, route.controllerName))]["responses" := ResponsesOrDefault(ex.responses)]
  }

  /** The Operation Object `getPathItem` builds. */
  function OperationOf(reg: Registry, ghost rank: map<string, nat>, route: RouteMetadata, ex: Explored,
                       schemas: map<string, Value>, usable: set<string>): Object
    requires WellRanked(reg, rank)
  {
    var pass := PassOf(reg, rank, route, ex, schemas, usable);
    var op := BodyApplied(OperationHead(route, ex), pass.requestBody);
    op["parameters" := Arr(ObjValues(MergeDecorated(pass.parameters, ex.parameters)))]
  }

  /** The path item, the document's schemas and the used names after
      `getPathItem`. */
  datatype PathItemResult = PathItemResult(item: Value, schemas: map<string, Value>, usable: set<string>)

  function PathItemOf(reg: Registry, ghost rank: map<string, nat>, route: RouteMetadata, ex: Explored,
                      schemas: map<string, Value>, usable: set<string>): (r: PathItemResult)
    requires WellRanked(reg, rank)
    ensures r.item.Obj? && r.item.fields.Keys == {ToLower(route.httpMethod)}
    ensures r.item.fields[ToLower(route.httpMethod)] == Obj(OperationOf(reg, rank, route, ex, schemas, usable))
  {
    var pass := PassOf(reg, rank, route, ex, schemas, usable);
    PathItemResult(Obj(map[ToLower(route.httpMethod) := Obj(OperationOf(reg, rank, route, ex, schemas, usable))]),
                   pass.schemas, pass.usable)
  }

  /** Tags are never empty: the joined tags in order, or exactly the
      controller class name. */
  lemma OperationTags(reg: Registry, rank: map<string, nat>, route: RouteMetadata, ex: Explored,
                      schemas: map<string, Value>, usable: set<string>)
    requires WellRanked(reg, rank)
    ensures var op := OperationOf(reg, rank, route, ex, schemas, usable);
            "tags" in op && op["tags"].Arr? && |op["tags"].items| > 0
    ensures var op := OperationOf(reg, rank, route, ex, schemas, usable);
            |JoinedTags(ex)| > 0 ==> op["tags"].items == JoinedTags(ex)
    ensures var tags := JoinedTags(ex);
            var n := |OperationTagList(ex.operation)|;
            && tags[..n] == OperationTagList(ex.operation)
            && tags[n..n + |ex.classTags|] == Strs(ex.classTags)
            && tags[n + |ex.classTags|..] == Strs(ex.propertyTags)
    ensures var op := OperationOf(reg, rank, route, ex, schemas, usable);
            |JoinedTags(ex)| == 0 ==> op["tags"].items == [Str(route.controllerName)]
  {
    var tags := JoinedTags(ex);
    var n := |OperationTagList(ex.operation)|;
    assert tags[..n] == OperationTagList(ex.operation);
    assert tags[n..n + |ex.classTags|] == Strs(ex.classTags);
    assert tags[n + |ex.classTags|..] == Strs(ex.propertyTags);
  }

  /** Responses are the explored ones when there is at least one, else
      exactly the default `200` response with an empty description. */
  lemma OperationResponses(reg: Registry, rank: map<string, nat>, route: RouteMetadata, ex: Explored,
                           schemas: map<string, Value>, usable: set<string>)
    requires WellRanked(reg, rank)
    ensures var op := OperationOf(reg, rank, route, ex, schemas, usable);
            && "responses" in op
            && (|ex.responses| > 0 ==> op["responses"] == Obj(ex.responses))
            && (|ex.responses| == 0 ==> op["responses"] == Obj(map["200" := Obj(map["description" := Str("")])]))
  {
  }

  /** `security` is set from the explored value exactly when its `length`
      is truthy; otherwise the operation keeps what its metadata had. The
      `{}` fallback has no `length` and so leaves it unset. */
  lemma OperationSecurity(reg: Registry, rank: map<string, nat>, route: RouteMetadata, ex: Explored,
                          schemas: map<string, Value>, usable: set<string>)
    requires WellRanked(reg, rank)
    ensures var op := OperationOf(reg, rank, route, ex, schemas, usable);
            && (Truthy(LengthProperty(ex.security)) ==> "security" in op && op["security"] == ex.security)
            && (!Truthy(LengthProperty(ex.security)) ==> Get(op, "security") == Get(ex.operation, "security"))
    ensures ex.security == Obj(map[]) ==>
              Get(OperationOf(reg, rank, route, ex, schemas, usable), "security") == Get(ex.operation, "security")
  {
    if ex.security == Obj(map[]) {
      assert LengthProperty(ex.security) == Undefined;
    }
  }

  /** The parameter list is the route's Parameter Objects, in route order,
      with the decorator parameters merged in. */
  lemma OperationParameters(reg: Registry, rank: map<string, nat>, route: RouteMetadata, ex: Explored,
                            schemas: map<string, Value>, usable: set<string>)
    requires WellRanked(reg, rank)
    ensures var op := OperationOf(reg, rank, route, ex, schemas, usable);
            "parameters" in op && op["parameters"] == Arr(ObjValues(MergeDecorated(RouteParameters(route.params), ex.parameters)))
  {
    PassParameters(reg, rank, ex.consumes, ex.parameters, route.params, PassState([], None, schemas, usable));
    assert [] + RouteParameters(route.params) == RouteParameters(route.params);
  }

  /** Every other field of the operation metadata is kept. */
  lemma OperationKeepsOtherFields(reg: Registry, rank: map<string, nat>, route: RouteMetadata, ex: Explored,
                                  schemas: map<string, Value>, usable: set<string>, k: string)
    requires WellRanked(reg, rank)
    requires k !in {"tags", "security", "responses", "parameters", "requestBody"}
    ensures Get(OperationOf(reg, rank, route, ex, schemas, usable), k) == Get(ex.operation, k)
  {
  }
}
