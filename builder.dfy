/** `AlosaurOpenApiBuilder` (builder.ts): collects the routes of the
    application into an OpenAPI document.

    The document under construction belongs to a library builder whose
    `addPath`, `addSchema`, `addServer`, `addSecurityScheme` and setters are
    insertions into maps and lists of `Document`. The framework's route
    metadata, the reflected decorator metadata and the global set of used
    class names are inputs: the routes with what the explorers found for
    them, the `Registry` of model classes and an `OpenApiStorage` object.
 */
module Builder {
  import opened JsValues
  import opened SchemaObject
  import opened PathTemplate
  import opened PathItem

  datatype AppSettings = AppSettings(areas: seq<string>)

  /** A route of the application and what the explorers found for it. */
  datatype Route = Route(metadata: RouteMetadata, explored: Explored)

  /** A class, interface or enum of the parsed documentation, with the
      schema the documentation library derives for it. */
  datatype DocDef = DocDef(name: string, schema: Value)

  /** `getParsedNames(docs)`: the documented classes, interfaces and enums. */
  datatype ParsedNames = ParsedNames(classes: seq<DocDef>, interfaces: seq<DocDef>, enums: seq<DocDef>)

  /** The parts of the OpenAPI document the builder writes. */
  datatype Document = Document(
    info: Object,
    servers: seq<Value>,
    paths: map<string, Value>,
    schemas: map<string, Value>,
    securitySchemes: map<string, Value>)

  function EmptyDocument(): Document {
    Document(map[], [], map[], map[], map[])
  }

  /** The global OpenAPI metadata storage: the class names whose component
      schemas are referred to from the document. */
  class OpenApiStorage {
    var usableClassNames: set<string>

    constructor ()
      ensures usableClassNames == {}
    {
      usableClassNames := {};
    }
  }

  /** `GetShemeLinkAndRegister(name)`: marks the class name as used and
      returns the link to its component schema. */
  method SchemeLinkAndRegister(storage: OpenApiStorage, name: string) returns (link: string)
    modifies storage
    ensures storage.usableClassNames == old(storage.usableClassNames) + {name}
    ensures StartsWith(link, SchemasPrefix) && link[|SchemasPrefix|..] == name
  {
    storage.usableClassNames := storage.usableClassNames + {name};
    link := SchemasPrefix + name;
  }

  /** The `reduce` that fills a content map, one media type at a time. */
  method ReduceContent(consumes: seq<string>, schema: Value) returns (content: map<string, Value>)
    ensures content == ContentFor(consumes, schema)
  {
    content := map[];
    var i := 0;
    while i < |consumes|
      invariant 0 <= i <= |consumes|
      invariant content == ContentFor(consumes[..i], schema)
    {
      assert consumes[..i + 1][..i] == consumes[..i];
      content := content[consumes[i] := SchemaWrap(schema)];
      i := i + 1;
    }
    assert consumes[..|consumes|] == consumes;
  }

  /** The document and the used names after routes were registered. */
  datatype BuildState = BuildState(doc: Document, usable: set<string>)

  /** `addPath(path, item)` after `getPathItem`: the schemas and used names
      the path item produced, and the item under the path. */
  function AddPathItem(st: BuildState, path: string, res: PathItemResult): (r: BuildState)
    ensures r.doc.paths.Keys == st.doc.paths.Keys + {path} && r.doc.paths[path] == res.item
    ensures forall p | p in st.doc.paths && p != path :: r.doc.paths[p] == st.doc.paths[p]
    ensures r.doc.info == st.doc.info && r.doc.servers == st.doc.servers
    ensures r.doc.securitySchemes == st.doc.securitySchemes
    ensures r.doc.schemas == res.schemas && r.usable == res.usable
  {
    BuildState(st.doc.(paths := st.doc.paths[path := res.item], schemas := res.schemas), res.usable)
  }

  /** One call of the route callback of `registerControllers`. */
  function RegisterRoute(reg: Registry, ghost rank: map<string, nat>, st: BuildState, r: Route): BuildState
    requires WellRanked(reg, rank)
  {
    AddPathItem(st, ToOpenApiPath(r.metadata.route),
                PathItemOf(reg, rank, r.metadata, r.explored, st.doc.schemas, st.usable))
  }

  /** `registerControllers`: for each route in order, the path item is built
      and added under the rewritten route. */
  function RegisterRoutes(reg: Registry, ghost rank: map<string, nat>, routes: seq<Route>, st: BuildState): BuildState
    requires WellRanked(reg, rank)
    decreases |routes|
  {
    if |routes| == 0 then st
    else RegisterRoute(reg, rank, RegisterRoutes(reg, rank, routes[..|routes| - 1], st), routes[|routes| - 1])
  }

  /** The rewritten routes. */
  function RoutePaths(routes: seq<Route>): set<string>
    decreases |routes|
  {
    if |routes| == 0 then {}
    else RoutePaths(routes[..|routes| - 1]) + {ToOpenApiPath(routes[|routes| - 1].metadata.route)}
  }

  /** The paths of the document are the ones it had and the rewritten
      routes; the other parts of the document are untouched. */
  lemma {:induction false} RegisterRoutesPaths(reg: Registry, rank: map<string, nat>, routes: seq<Route>, st: BuildState)
    requires WellRanked(reg, rank)
    ensures var r := RegisterRoutes(reg, rank, routes, st);
            && r.doc.paths.Keys == st.doc.paths.Keys + RoutePaths(routes)
            && r.doc.info == st.doc.info && r.doc.servers == st.doc.servers
            && r.doc.securitySchemes == st.doc.securitySchemes
    decreases |routes|
  {
    if |routes| > 0 {
      RegisterRoutesPaths(reg, rank, routes[..|routes| - 1], st);
    }
  }

  /** The body classes of all the routes. */
  function RouteBodyNames(routes: seq<Route>): set<string>
    decreases |routes|
  {
    if |routes| == 0 then {}
    else RouteBodyNames(routes[..|routes| - 1]) + TransformNames(routes[|routes| - 1].metadata.params)
  }

  /** One route: the schemas and used names are those the pass over its
      parameters leaves. */
  lemma RegisterRouteSchemas(reg: Registry, rank: map<string, nat>, st: BuildState, route: Route)
    requires WellRanked(reg, rank)
    ensures var r := RegisterRoute(reg, rank, st, route);
            && r.doc.schemas.Keys == st.doc.schemas.Keys + TransformNames(route.metadata.params)
            && (forall n | n in st.doc.schemas && n !in TransformNames(route.metadata.params) :: r.doc.schemas[n] == st.doc.schemas[n])
            && st.usable <= r.usable <= st.usable + TransformNames(route.metadata.params)
  {
    PassSchemasAndNames(reg, rank, route.explored.consumes, route.explored.parameters, route.metadata.params,
                        PassState([], None, st.doc.schemas, st.usable));
  }

  /** Registering the routes adds a component schema for every body class
      and for nothing else, keeps the schemas of other names, and only adds
      used names, each of them a body class. */
  lemma {:induction false} RegisterRoutesSchemas(reg: Registry, rank: map<string, nat>, routes: seq<Route>, st: BuildState)
    requires WellRanked(reg, rank)
    ensures var r := RegisterRoutes(reg, rank, routes, st);
            && r.doc.schemas.Keys == st.doc.schemas.Keys + RouteBodyNames(routes)
            && (forall n | n in st.doc.schemas && n !in RouteBodyNames(routes) :: r.doc.schemas[n] == st.doc.schemas[n])
            && st.usable <= r.usable <= st.usable + RouteBodyNames(routes)
    decreases |routes|
  {
    if |routes| > 0 {
      var init := routes[..|routes| - 1];
      var last := routes[|routes| - 1];
      RegisterRoutesSchemas(reg, rank, init, st);
      RegisterRouteSchemas(reg, rank, RegisterRoutes(reg, rank, init, st), last);
      assert RouteBodyNames(routes) == RouteBodyNames(init) + TransformNames(last.metadata.params);
    }
  }

  /** Every route of the application is registered under its rewritten
      route, which is an OpenAPI template with no `:name` left. */
  lemma {:induction false} RoutePathsAreTemplates(routes: seq<Route>)
    ensures forall i | 0 <= i < |routes| :: ToOpenApiPath(routes[i].metadata.route) in RoutePaths(routes)
    ensures forall p | p in RoutePaths(routes) :: NoColonParams(p)
    decreases |routes|
  {
    if |routes| > 0 {
      var init := routes[..|routes| - 1];
      RoutePathsAreTemplates(init);
      assert forall i | 0 <= i < |init| :: init[i] == routes[i];
      RewriteLeavesNoColonParams(routes[|routes| - 1].metadata.route);
    }
  }

  /** The path item registered last under a path is the one of the last
      route: it has one operation, under the route's lower-cased HTTP
      method. This rests on `addPath` replacing the item under a path, as
      it is modelled here; the library's `addPath` may instead merge the
      operations of several routes under one path. */
  lemma LastRouteWins(reg: Registry, rank: map<string, nat>, routes: seq<Route>, st: BuildState)
    requires WellRanked(reg, rank) && |routes| > 0
    ensures var r := RegisterRoutes(reg, rank, routes, st);
            var m := routes[|routes| - 1].metadata;
            var item := r.doc.paths[ToOpenApiPath(m.route)];
            item.Obj? && item.fields.Keys == {ToLower(m.httpMethod)}
  {
  }

  function SecurityScheme(fields: Object): Value {
    Obj(fields)
  }

  function BearerScheme(): Value {
    SecurityScheme(map["type" := Str("http"), "scheme" := Str("bearer"), "bearerFormat" := Str("JWT")])
  }

  function BasicScheme(): Value {
    SecurityScheme(map["type" := Str("http"), "scheme" := Str("basic")])
  }

  /** `addOAuth2(option)`'s scheme: `flows: {}` unless the option has flows,
      the option's fields, and its `type` or `oauth2` when that is falsy. */
  function OAuth2Scheme(option: Option<Object>): (r: Object)
    ensures option.None? ==> r == map["flows" := Obj(map[]), "type" := Str("oauth2")]
    ensures option.Some? ==> r.Keys == option.value.Keys + {"flows", "type"}
    ensures option.Some? ==> r["type"] == if Truthy(Get(option.value, "type")) then option.value["type"] else Str("oauth2")
    ensures option.Some? && "flows" !in option.value ==> r["flows"] == Obj(map[])
    ensures option.Some? ==> forall k | k in option.value && k != "type" :: r[k] == option.value[k]
  {
    var o := option.GetOr(map["type" := Str("oauth2")]);
    var t := Get(o, "type");
    (map["flows" := Obj(map[])] + o)["type" := if Truthy(t) then t else Str("oauth2")]
  }

  const DefaultCookieName := "connect.sid"

  function CookieScheme(name: Option<string>): Value {
    SecurityScheme(map["type" := Str("apiKey"), "in" := Str("cookie"), "name" := Str(name.GetOr(DefaultCookieName))])
  }

  /** `addSchema` for the documented definitions whose names are used. */
  function AddUsableSchemas(schemas: map<string, Value>, defs: seq<DocDef>, usable: set<string>): map<string, Value>
    decreases |defs|
  {
    if |defs| == 0 then schemas
    else
      var acc := AddUsableSchemas(schemas, defs[..|defs| - 1], usable);
      var d := defs[|defs| - 1];
      if d.name in usable then acc[d.name := d.schema] else acc
  }

  /** Only used names get a schema: the new names are exactly the used
      documented ones, a used name gets the schema of its last definition,
      and every schema no used definition names is kept. */
  lemma {:induction false} AddUsableSchemasSpec(schemas: map<string, Value>, defs: seq<DocDef>, usable: set<string>)
    ensures var r := AddUsableSchemas(schemas, defs, usable);
            && r.Keys == schemas.Keys + (set i | 0 <= i < |defs| && defs[i].name in usable :: defs[i].name)
            && forall k | k in schemas && (forall i | 0 <= i < |defs| :: defs[i].name != k || defs[i].name !in usable) ::
                 r[k] == schemas[k]
    decreases |defs|
  {
    if |defs| > 0 {
      var init := defs[..|defs| - 1];
      AddUsableSchemasSpec(schemas, init, usable);
      assert forall i | 0 <= i < |init| :: init[i] == defs[i];
      var d := defs[|defs| - 1];
      if d.name in usable {
        assert (set i | 0 <= i < |defs| && defs[i].name in usable :: defs[i].name)
            == (set i | 0 <= i < |init| && init[i].name in usable :: init[i].name) + {d.name};
      } else {
        assert (set i | 0 <= i < |defs| && defs[i].name in usable :: defs[i].name)
            == (set i | 0 <= i < |init| && init[i].name in usable :: init[i].name);
      }
    }
  }

  /** A used name holds the schema of its last definition. */
  lemma {:induction false} AddUsableSchemasLastDefinition(schemas: map<string, Value>, defs: seq<DocDef>,
                                                          usable: set<string>)
    ensures var r := AddUsableSchemas(schemas, defs, usable);
            forall i | 0 <= i < |defs| && defs[i].name in usable && (forall j | i < j < |defs| :: defs[j].name != defs[i].name) ::
              defs[i].name in r && r[defs[i].name] == defs[i].schema
    decreases |defs|
  {
    if |defs| > 0 {
      var init := defs[..|defs| - 1];
      AddUsableSchemasLastDefinition(schemas, init, usable);
      assert forall i | 0 <= i < |init| :: init[i] == defs[i];
    }
  }

  /** The start of `getPathItem`: tags joined, security copied when it has
      a truthy `length`, tags falling back to the controller name, and the
      responses or the default response. */
  method OperationHeadOf(route: RouteMetadata, ex: Explored) returns (op: Object)
    ensures op == OperationHead(route, ex)
  {
    op := ex.operation;
    op := op["tags" := Arr(OperationTagList(op) + Strs(ex.classTags) + Strs(ex.propertyTags))];
    if Truthy(LengthProperty(ex.security)) {
      op := op["security" := ex.security];
    }
    var tags := op["tags"].items;
    op := op["tags" := Arr(if |tags| > 0 then tags else [Str(route.controllerName)])];
    op := op["responses" := if |ex.responses| > 0 then Obj(ex.responses) else DefaultResponses()];
  }

  /** `parameters.forEach(...)` of `getPathItem`: each decorator parameter
      that is not a body overwrites the first entry with its name and
      location, or is appended. */
  method MergeParameters(list: seq<Object>, decorated: seq<Object>) returns (r: seq<Object>)
    ensures r == MergeDecorated(list, decorated)
  {
    r := list;
    var j := 0;
    while j < |decorated|
      invariant 0 <= j <= |decorated|
      invariant r == MergeDecorated(list, decorated[..j])
    {
      assert decorated[..j + 1][..j] == decorated[..j];
      var param := decorated[j];
      if Get(param, "in") != Str("body") {
        var index := FindIndex(r, param);
        if index != -1 {
          r := r[index := param];
        } else {
          r := r + [param];
        }
      }
      j := j + 1;
    }
    assert decorated[..|decorated|] == decorated;
  }

  const MissingDocsError := "Run addDenoDocs before start scheme components!"

  class AlosaurOpenApiBuilder {
    const settings: AppSettings
    /** The application's routes, in the order the framework registers them. */
    const routes: seq<Route>
    const registry: Registry
    ghost const rank: map<string, nat>
    const storage: OpenApiStorage
    var doc: Document
    var denoDocs: Option<Value>
    var namesDocMap: Option<ParsedNames>

    /** The reflected metadata has an acyclic model-class graph and the
        shapes the explorers guarantee. */
    ghost predicate Valid() {
      && WellRanked(registry, rank)
      && forall r | r in routes :: ExploredShape(r.explored)
    }

    constructor (settings: AppSettings, routes: seq<Route>, registry: Registry, ghost rank: map<string, nat>,
                 storage: OpenApiStorage)
      requires WellRanked(registry, rank) && forall r | r in routes :: ExploredShape(r.explored)
      ensures Valid()
      ensures this.settings == settings && this.routes == routes && this.registry == registry
      ensures this.storage == storage
      ensures doc == EmptyDocument() && denoDocs.None? && namesDocMap.None?
    {
      this.settings := settings;
      this.routes := routes;
      this.registry := registry;
      this.rank := rank;
      this.storage := storage;
      doc := EmptyDocument();
      denoDocs := None;
      namesDocMap := None;
    }

    /** `AlosaurOpenApiBuilder.create(settings)`. */
    static method Create(settings: AppSettings, routes: seq<Route>, registry: Registry, ghost rank: map<string, nat>,
                         storage: OpenApiStorage) returns (b: AlosaurOpenApiBuilder)
      requires WellRanked(registry, rank) && forall r | r in routes :: ExploredShape(r.explored)
      ensures fresh(b) && b.Valid()
      ensures b.settings == settings && b.routes == routes && b.registry == registry && b.storage == storage
      ensures b.doc == EmptyDocument() && b.denoDocs.None? && b.namesDocMap.None?
    {
      b := new AlosaurOpenApiBuilder(settings, routes, registry, rank, storage);
    }

    /** One iteration of `route.params.forEach` in `getPathItem`: the
        state before it is `before`, the operation is `head` with the
        request body of `before`. */
    method ApplyRouteParam(ghost head: Object, ghost before: PassState, param: RouteParamMetadata,
                           consumes: seq<string>, decorated: seq<Object>, op: Object, parameters: seq<Object>)
      returns (op': Object, parameters': seq<Object>)
      requires Valid()
      requires parameters == before.parameters && doc.schemas == before.schemas
      requires storage.usableClassNames == before.usable && op == BodyApplied(head, before.requestBody)
      modifies this, storage
      ensures var after := RouteParamStep(registry, rank, consumes, decorated, before, param);
              && parameters' == after.parameters
              && doc == old(doc).(schemas := after.schemas)
              && storage.usableClassNames == after.usable
              && op' == BodyApplied(head, after.requestBody)
      ensures denoDocs == old(denoDocs) && namesDocMap == old(namesDocMap)
    {
      op', parameters' := op, parameters;
      match param.kind {
        case Query =>
          parameters' := parameters + [map["name" := param.name, "in" := Str("query"), "schema" := StringSchema()]];
        case RouteParam =>
          parameters' := parameters + [map["name" := param.name, "required" := Bool(true), "in" := Str("path"),
                                           "schema" := StringSchema()]];
        case Cookie =>
          parameters' := parameters + [map["name" := param.name, "in" := Str("cookie"), "schema" := StringSchema()]];
        case Body =>
          if param.transform.Some? {
            var schema := BuildSchemaObject(registry, rank, param.transform.value);
            var name := CtorName(param.transform.value);
            doc := doc.(schemas := doc.schemas[name := schema]);
            if |consumes| > 0 {
              var content := ReduceContent(consumes, schema);
              BodyReplaced(head, before.requestBody, RequestBody(content));
              op' := op["requestBody" := RequestBody(content)];
            } else {
              var link := SchemeLinkAndRegister(storage, name);
              assert link == SchemeLink(name);
              BodyReplaced(head, before.requestBody, RequestBody(RefContent(name)));
              op' := op["requestBody" := RequestBody(map["application/json" := SchemaWrap(Obj(map["$ref" := Str(link)]))])];
            }
          } else if |consumes| > 0 && |decorated| > 0 {
            var content := ReduceContent(consumes, Get(decorated[0], "schema"));
            BodyReplaced(head, before.requestBody, RequestBody(content));
            op' := op["requestBody" := RequestBody(content)];
          }
        case OtherParam =>
      }
    }

    /** `getPathItem(route)`. */
    method GetPathItem(route: RouteMetadata, ex: Explored) returns (item: Value)
      requires Valid() && ExploredShape(ex)
      modifies this, storage
      ensures var res := PathItemOf(registry, rank, route, ex, old(doc.schemas), old(storage.usableClassNames));
              && item == res.item
              && doc == old(doc).(schemas := res.schemas)
              && storage.usableClassNames == res.usable
      ensures denoDocs == old(denoDocs) && namesDocMap == old(namesDocMap)
    {
      var op := OperationHeadOf(route, ex);
      ghost var head := op;
      ghost var start := PassState([], None, doc.schemas, storage.usableClassNames);
      var parameters: seq<Object> := [];
      var i := 0;
      while i < |route.params|
        invariant 0 <= i <= |route.params|
        invariant var pass := ParamPass(registry, rank, ex.consumes, ex.parameters, route.params[..i], start);
                  && parameters == pass.parameters
                  && doc == old(doc).(schemas := pass.schemas)
                  && storage.usableClassNames == pass.usable
                  && op == BodyApplied(head, pass.requestBody)
        invariant denoDocs == old(denoDocs) && namesDocMap == old(namesDocMap)
      {
        ghost var before := ParamPass(registry, rank, ex.consumes, ex.parameters, route.params[..i], start);
        assert route.params[..i + 1][..i] == route.params[..i];
        op, parameters := ApplyRouteParam(head, before, route.params[i], ex.consumes, ex.parameters, op, parameters);
        i := i + 1;
      }
      assert route.params[..|route.params|] == route.params;
      parameters := MergeParameters(parameters, ex.parameters);
      op := op["parameters" := Arr(ObjValues(parameters))];
      item := Obj(map[ToLower(route.httpMethod) := Obj(op)]);
    }

    /** `registerControllers()`: every route's path item under its
        rewritten route. */
    method RegisterControllers()
      requires Valid()
      modifies this, storage
      ensures var r := RegisterRoutes(registry, rank, routes, BuildState(old(doc), old(storage.usableClassNames)));
              doc == r.doc && storage.usableClassNames == r.usable
      ensures denoDocs == old(denoDocs) && namesDocMap == old(namesDocMap)
    {
      ghost var start := BuildState(doc, storage.usableClassNames);
      var i := 0;
      while i < |routes|
        invariant 0 <= i <= |routes|
        invariant var r := RegisterRoutes(registry, rank, routes[..i], start);
                  doc == r.doc && storage.usableClassNames == r.usable
        invariant denoDocs == old(denoDocs) && namesDocMap == old(namesDocMap)
      {
        assert routes[..i + 1][..i] == routes[..i];
        var route := routes[i];
        assert route in routes;
        var openApiRoute := ToOpenApiPath(route.metadata.route);
        var item := GetPathItem(route.metadata, route.explored);
        doc := doc.(paths := doc.paths[openApiRoute := item]);
        i := i + 1;
      }
      assert routes[..|routes|] == routes;
    }

    method AddTitle(title: string)
      modifies this
      ensures doc == old(doc).(info := old(doc.info)["title" := Str(title)])
      ensures denoDocs == old(denoDocs) && namesDocMap == old(namesDocMap)
    {
      doc := doc.(info := doc.info["title" := Str(title)]);
    }

    method AddVersion(version: string)
      modifies this
      ensures doc == old(doc).(info := old(doc.info)["version" := Str(version)])
      ensures denoDocs == old(denoDocs) && namesDocMap == old(namesDocMap)
    {
      doc := doc.(info := doc.info["version" := Str(version)]);
    }

    method AddDescription(description: string)
      modifies this
      ensures doc == old(doc).(info := old(doc.info)["description" := Str(description)])
      ensures denoDocs == old(denoDocs) && namesDocMap == old(namesDocMap)
    {
      doc := doc.(info := doc.info["description" := Str(description)]);
    }

    method AddServer(server: Value)
      modifies this
      ensures doc == old(doc).(servers := old(doc.servers) + [server])
      ensures denoDocs == old(denoDocs) && namesDocMap == old(namesDocMap)
    {
      doc := doc.(servers := doc.servers + [server]);
    }

    method AddSecurityScheme(id: string, scheme: Value)
      modifies this
      ensures doc == old(doc).(securitySchemes := old(doc.securitySchemes)[id := scheme])
      ensures denoDocs == old(denoDocs) && namesDocMap == old(namesDocMap)
    {
      doc := doc.(securitySchemes := doc.securitySchemes[id := scheme]);
    }

    method AddBearerAuth()
      modifies this
      ensures doc == old(doc).(securitySchemes := old(doc.securitySchemes)["bearer" := BearerScheme()])
      ensures denoDocs == old(denoDocs) && namesDocMap == old(namesDocMap)
    {
      AddSecurityScheme("bearer", BearerScheme());
    }

    method AddBasicAuth()
      modifies this
      ensures doc == old(doc).(securitySchemes := old(doc.securitySchemes)["basic" := BasicScheme()])
      ensures denoDocs == old(denoDocs) && namesDocMap == old(namesDocMap)
    {
      AddSecurityScheme("basic", BasicScheme());
    }

    /** `addOAuth2(option)`; `None` is the call without an argument. */
    method AddOAuth2(option: Option<Object>)
      modifies this
      ensures doc == old(doc).(securitySchemes := old(doc.securitySchemes)["oauth2" := Obj(OAuth2Scheme(option))])
      ensures denoDocs == old(denoDocs) && namesDocMap == old(namesDocMap)
    {
      AddSecurityScheme("oauth2", Obj(OAuth2Scheme(option)));
    }

    /** `addCookieAuth(name)`; `None` is the call without an argument. */
    method AddCookieAuth(name: Option<string>)
      modifies this
      ensures doc == old(doc).(securitySchemes := old(doc.securitySchemes)["cookie" := CookieScheme(name)])
      ensures denoDocs == old(denoDocs) && namesDocMap == old(namesDocMap)
    {
      AddSecurityScheme("cookie", CookieScheme(name));
    }

    /** `addDenoDocs(docs)`; `parsed` is what `getParsedNames(docs)` gives. */
    method AddDenoDocs(docs: Value, parsed: ParsedNames)
      modifies this
      ensures doc == old(doc) && denoDocs == Some(docs) && namesDocMap == Some(parsed)
    {
      denoDocs := Some(docs);
      namesDocMap := Some(parsed);
    }

    /** One of the `forEach` loops of `addSchemeComponents`. */
    method AddUsableDefs(defs: seq<DocDef>, usable: set<string>)
      modifies this
      ensures doc == old(doc).(schemas := AddUsableSchemas(old(doc.schemas), defs, usable))
      ensures denoDocs == old(denoDocs) && namesDocMap == old(namesDocMap)
    {
      var i := 0;
      while i < |defs|
        invariant 0 <= i <= |defs|
        invariant doc == old(doc).(schemas := AddUsableSchemas(old(doc.schemas), defs[..i], usable))
        invariant denoDocs == old(denoDocs) && namesDocMap == old(namesDocMap)
      {
        assert defs[..i + 1][..i] == defs[..i];
        if defs[i].name in usable {
          doc := doc.(schemas := doc.schemas[defs[i].name := defs[i].schema]);
        }
        i := i + 1;
      }
      assert defs[..|defs|] == defs;
    }

    /** `addSchemeComponents()`: fails when `addDenoDocs` has not run;
        otherwise adds the schemas of the used classes, interfaces and
        enums, in that order. */
    method AddSchemeComponents() returns (r: Result<(), string>)
      modifies this
      ensures old(namesDocMap).None? ==> r == Failure(MissingDocsError) && doc == old(doc)
      ensures old(namesDocMap).Some? ==>
                var n := old(namesDocMap).value;
                var usable := storage.usableClassNames;
                && r.Success?
                && doc == old(doc).(schemas := AddUsableSchemas(AddUsableSchemas(AddUsableSchemas(
                     old(doc.schemas), n.classes, usable), n.interfaces, usable), n.enums, usable))
      ensures denoDocs == old(denoDocs) && namesDocMap == old(namesDocMap)
    {
      var usable := storage.usableClassNames;
      if namesDocMap.None? {
        return Failure(MissingDocsError);
      }
      var names := namesDocMap.value;
      AddUsableDefs(names.classes, usable);
      AddUsableDefs(names.interfaces, usable);
      AddUsableDefs(names.enums, usable);
      r := Success(());
    }
  }
}
