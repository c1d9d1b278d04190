/** `OpenApiMiddleware` (middleware.ts): serves the OpenAPI document, the
    Swagger UI start-up script and the Swagger UI page.

    The request's `URL` and `Headers` objects are given parsed: the URL's
    protocol and host, and the headers under lower-case names. The rendered
    HTML and the script text are foreign and appear as tags of `Body`.
 */
module Middleware {
  import opened JsValues
  import opened SchemaObject
  import opened PathItem
  import opened Builder

  datatype Request = Request(url: string, headers: map<string, string>, urlProtocol: string, urlHost: string)

  /** The four branches of `onPreRequest`. */
  datatype Branch = ServeDocument | ServeInitScript | RedirectToSlash | ServeHtml

  const DocumentSuffix := "/swagger.json"
  const InitScriptSuffix := "/swagger-ui-init.js"
  const OkStatus := 200

  /** A string ending in a non-empty suffix ends in its last character. */
  lemma EndsWithLast(s: string, suffix: string)
    requires |suffix| > 0
    ensures EndsWith(s, suffix) ==> |s| > 0 && s[|s| - 1] == suffix[|suffix| - 1]
  {
    if EndsWith(s, suffix) {
      assert s[|s| - |suffix|..][|suffix| - 1] == s[|s| - 1];
    }
  }

  /** The branch `onPreRequest` takes for a request URL. The suffixes are
      tried in order, but they end in different characters, so at most one
      of them matches. */
  function Dispatch(url: string): (b: Branch)
    ensures b == ServeDocument <==> EndsWith(url, DocumentSuffix)
    ensures b == ServeInitScript <==> EndsWith(url, InitScriptSuffix)
    ensures b == ServeHtml <==> EndsWith(url, "/")
  {
    EndsWithLast(url, DocumentSuffix);
    EndsWithLast(url, InitScriptSuffix);
    EndsWithLast(url, "/");
    if EndsWith(url, DocumentSuffix) then ServeDocument
    else if EndsWith(url, InitScriptSuffix) then ServeInitScript
    else if !EndsWith(url, "/") then RedirectToSlash
    else ServeHtml
  }

  /** Following the redirect leads to the Swagger UI page: a URL ending in
      `/` is never redirected again. */
  lemma RedirectTargetServesHtml(url: string)
    requires Dispatch(url) == RedirectToSlash
    ensures Dispatch(url + "/") == ServeHtml
  {
    var target := url + "/";
    assert target[|url|..] == "/";
  }

  /** Requests for the document and for the page need the document;
      the script and the redirect do not. */
  predicate NeedsDocument(b: Branch) {
    b == ServeDocument || b == ServeHtml
  }

  /** The scheme part of the server URL: the lower-cased `X-Forwarded-Proto`
      header and a colon when the request has one, else the URL's protocol. */
  function ServerProto(req: Request): string {
    if "x-forwarded-proto" in req.headers then ToLower(req.headers["x-forwarded-proto"]) + ":"
    else req.urlProtocol
  }

  /** `getServerUrl(req)`. */
  function ServerUrl(req: Request): (r: string)
    ensures StartsWith(r, ServerProto(req)) && EndsWith(r, "//" + req.urlHost)
    ensures |r| == |ServerProto(req)| + 2 + |req.urlHost|
    ensures "x-forwarded-proto" in req.headers ==>
              r[|req.headers["x-forwarded-proto"]|] == ':'
              && forall i | 0 <= i < |req.headers["x-forwarded-proto"]| :: !IsUpper(r[i])
  {
    ServerProto(req) + "//" + req.urlHost
  }

  /** The forwarded scheme is read without regard to case. */
  lemma ServerUrlIgnoresProtoCase(req: Request)
    requires "x-forwarded-proto" in req.headers
    ensures var lowered := req.(headers := req.headers["x-forwarded-proto" := ToLower(req.headers["x-forwarded-proto"])]);
            ServerUrl(lowered) == ServerUrl(req)
  {
    ToLowerIdempotent(req.headers["x-forwarded-proto"]);
  }

  /** Without a forwarded scheme the URL's own protocol is kept. */
  lemma ServerUrlWithoutForwarding(req: Request)
    requires "x-forwarded-proto" !in req.headers
    ensures ServerUrl(req)[..|req.urlProtocol|] == req.urlProtocol
    ensures ServerUrl(req)[|req.urlProtocol|..] == "//" + req.urlHost
  {
  }

  /** The server object `{url}` that `getSwaggerDoc` adds. */
  function ServerObject(req: Request): Value {
    Obj(map["url" := Str(ServerUrl(req))])
  }

  /** `getSwaggerDoc(req)` on a builder whose document and used names are
      `st`: the routes registered, then the request's server added. */
  function SwaggerDocOf(reg: Registry, ghost rank: map<string, nat>, routes: seq<Route>, st: BuildState, req: Request)
    : Document
    requires WellRanked(reg, rank)
  {
    var r := RegisterRoutes(reg, rank, routes, st);
    r.doc.(servers := r.doc.servers + [ServerObject(req)])
  }

  /** The served document has a path per rewritten route on top of the
      builder's, its last server is the request's, and its info and
      security schemes are the builder's. */
  lemma SwaggerDocContents(reg: Registry, rank: map<string, nat>, routes: seq<Route>, st: BuildState, req: Request)
    requires WellRanked(reg, rank)
    ensures var d := SwaggerDocOf(reg, rank, routes, st, req);
            && d.paths.Keys == st.doc.paths.Keys + RoutePaths(routes)
            && d.servers == st.doc.servers + [ServerObject(req)]
            && d.info == st.doc.info && d.securitySchemes == st.doc.securitySchemes
  {
    RegisterRoutesPaths(reg, rank, routes, st);
  }

  /** What the response body is: the document as JSON, the start-up script,
      or the page generated from the document. */
  datatype Body = DocumentJson(doc: Document) | InitScript | Html(doc: Document)

  datatype ActionResult = Content(body: Body, status: int, headers: map<string, string>) | Redirect(location: string)

  /** The result `onPreRequest` sets for a branch, given the document. */
  function ResultFor(b: Branch, url: string, doc: Document): (r: ActionResult)
    ensures b == RedirectToSlash <==> r.Redirect?
    ensures r.Redirect? ==> r.location == url + "/"
    ensures r.Content? ==> r.status == OkStatus
    ensures NeedsDocument(b) <==> r.Content? && !r.body.InitScript? && r.body.doc == doc
    ensures b == ServeDocument ==> r.Content? && r.body == DocumentJson(doc) && r.headers == map[]
    ensures b == ServeHtml ==> r.Content? && r.body == Html(doc) && r.headers == map[]
    ensures b == ServeInitScript ==>
              r.Content? && r.body == InitScript && r.headers == map["Content-Type" := "text/javascript"]
  {
    match b
    case ServeDocument => Content(DocumentJson(doc), OkStatus, map[])
    case ServeInitScript => Content(InitScript, OkStatus, map["Content-Type" := "text/javascript"])
    case RedirectToSlash => Redirect(url + "/")
    case ServeHtml => Content(Html(doc), OkStatus, map[])
  }

  /** The request and the response being prepared. */
  class HttpContext {
    const request: Request
    var result: Option<ActionResult>
    var sentImmediately: bool

    constructor (request: Request)
      ensures this.request == request && result.None? && !sentImmediately
    {
      this.request := request;
      result := None;
      sentImmediately := false;
    }
  }

  class OpenApiMiddleware {
    const builder: AlosaurOpenApiBuilder
    /** The document, once it has been built. */
    var swaggerDoc: Option<Document>
    /** How many times the document has been built. */
    ghost var builds: nat

    /** The document is built at most once, and is present exactly when it
        has been built. */
    ghost predicate Valid()
      reads this
    {
      && builder.Valid()
      && builds <= 1
      && (swaggerDoc.Some? <==> builds == 1)
    }

    /** `new OpenApiMiddleware(builder?)`: without a builder, one created
        with no areas over the application's routes. */
    constructor (builder: Option<AlosaurOpenApiBuilder>, routes: seq<Route>, registry: Registry,
                 ghost rank: map<string, nat>, storage: OpenApiStorage)
      requires builder.Some? ==> builder.value.Valid()
      requires builder.None? ==> WellRanked(registry, rank) && forall r | r in routes :: ExploredShape(r.explored)
      ensures Valid() && swaggerDoc.None? && builds == 0
      ensures builder.Some? ==> this.builder == builder.value
      ensures builder.None? ==>
                && fresh(this.builder)
                && this.builder.settings == AppSettings([]) && this.builder.routes == routes
                && this.builder.registry == registry && this.builder.storage == storage
                && this.builder.doc == EmptyDocument()
    {
      var b: AlosaurOpenApiBuilder;
      if builder.Some? {
        b := builder.value;
      } else {
        b := AlosaurOpenApiBuilder.Create(AppSettings([]), routes, registry, rank, storage);
      }
      this.builder := b;
      swaggerDoc := None;
      builds := 0;
    }

    /** `getSwaggerDoc(req)`: registers the routes, adds the request's
        server and returns the document. */
    method GetSwaggerDoc(req: Request) returns (d: Document)
      requires builder.Valid()
      modifies builder, builder.storage
      ensures d == builder.doc
      ensures d == SwaggerDocOf(builder.registry, builder.rank, builder.routes,
                                BuildState(old(builder.doc), old(builder.storage.usableClassNames)), req)
      ensures builder.storage.usableClassNames
           == RegisterRoutes(builder.registry, builder.rank, builder.routes,
                             BuildState(old(builder.doc), old(builder.storage.usableClassNames))).usable
      ensures builder.denoDocs == old(builder.denoDocs) && builder.namesDocMap == old(builder.namesDocMap)
    {
      builder.RegisterControllers();
      builder.AddServer(ServerObject(req));
      d := builder.doc;
    }

    /** `onPreRequest(context)`. */
    method OnPreRequest(ctx: HttpContext)
      requires Valid()
      modifies this, builder, builder.storage, ctx
      ensures Valid()
      ensures ctx.sentImmediately
      ensures var b := Dispatch(ctx.request.url);
              && swaggerDoc.Some? == (old(swaggerDoc).Some? || NeedsDocument(b))
              && ctx.result == Some(ResultFor(b, ctx.request.url, swaggerDoc.GetOr(EmptyDocument())))
      ensures old(swaggerDoc).Some? || !NeedsDocument(Dispatch(ctx.request.url)) ==>
                && swaggerDoc == old(swaggerDoc) && builds == old(builds)
                && builder.doc == old(builder.doc)
                && builder.storage.usableClassNames == old(builder.storage.usableClassNames)
      ensures old(swaggerDoc).None? && NeedsDocument(Dispatch(ctx.request.url)) ==>
                && builds == 1
                && swaggerDoc == Some(SwaggerDocOf(builder.registry, builder.rank, builder.routes,
                                                   BuildState(old(builder.doc), old(builder.storage.usableClassNames)),
                                                   ctx.request))
    {
      var url := ctx.request.url;
      if EndsWith(url, DocumentSuffix) {
        if swaggerDoc.None? {
          var d := GetSwaggerDoc(ctx.request);
          swaggerDoc := Some(d);
          builds := builds + 1;
        }
        ctx.result := Some(Content(DocumentJson(swaggerDoc.value), OkStatus, map[]));
      } else if EndsWith(url, InitScriptSuffix) {
        ctx.result := Some(Content(InitScript, OkStatus, map["Content-Type" := "text/javascript"]));
      } else if !EndsWith(url, "/") {
        ctx.result := Some(Redirect(url + "/"));
      } else {
        if swaggerDoc.None? {
          var d := GetSwaggerDoc(ctx.request);
          swaggerDoc := Some(d);
          builds := builds + 1;
        }
        ctx.result := Some(Content(Html(swaggerDoc.value), OkStatus, map[]));
      }
      ctx.sentImmediately := true;
    }
  }
}
