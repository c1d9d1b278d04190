# alosaur-openapi in Dafny

A model of the OpenAPI 3.0 generator of `alosaur-openapi`, with proofs about it.
The generator collects the routes of an Alosaur application and the metadata
that its decorators record, and builds an OpenAPI document from them. The
model covers these parts:

- **`js_values.dfy`**: the JavaScript values the generator passes around.
  - Objects are finite maps.
  - Numbers are integers.
  - The constructors `String`, `Number`, `Boolean`, `Array` and user classes are tags.
  - Also: truthiness, `===`, `startsWith`/`endsWith` and ASCII `toLowerCase`.
- **`path_template.dfy`**: the rewrite `route.replace(/:[A-Za-z1-9]+/g, ...)`.
  It turns Express-style `:name` segments into `{name}` path templates, as in
  the "Path Templating" section of the OpenAPI Specification 3.0.
- **`schema_object.dfy`**: `buildSchemaObject`, `buildSchemaProperty`,
  `isPrimitiveType` and `getPropertyType`.
  - The reflected metadata of the model classes is an input `Registry`: for
    each class, its recorded property names and each property's metadata.
  - A ghost rank witnesses that the class graph is acyclic.
- **`parameters.dfy`**: `exploreParameters`. It rewrites `type` into `schema`
  in place, on an array of metadata objects.
- **`responses.dfy`**: `exploreResponses`. It fills the Responses Object key by
  key. `new type()` on a response entry whose `type` is not a constructor is
  the TypeError path.
- **`decorators.dfy`**:
  - `ApiOperation`: defaults merged, then `pickBy` keeps the defined values.
  - `ApiExtension`: the `x-` guard and a cloned value under one key.
- **`path_item.dfy`**: `getPathItem` as a function on values, the reference
  definition the imperative builder is proved against. It covers:
  - tags, security and responses;
  - the Parameter Objects of the route parameters;
  - the request body;
  - the merge of the decorator parameters by `(name, in)`.
- **`builder.dfy`**: the class `AlosaurOpenApiBuilder`.
  - `getPathItem` with its two loops, and `registerControllers`.
  - The setters and the security schemes.
  - `addDenoDocs` and `addSchemeComponents`.
  - `GetShemeLinkAndRegister` on the global `OpenApiStorage`.
  - The third-party `OpenApiBuilder` document is modelled by the map insertions
    its `addPath`, `addSchema`, `addServer` and `addSecurityScheme` perform.
- **`middleware.dfy`**: the class `OpenApiMiddleware`.
  - The URL-suffix dispatch of `onPreRequest`.
  - The document, built lazily and at most once (a ghost counter records the builds).
  - The server URL derived from `X-Forwarded-Proto`.

## Model

| member | source | states |
|---|---|---|
| `PathTemplate.NameRun` | builder.ts:67 | the length of the parameter name at the start of a string is at most the string's length |
| `PathTemplate.NameRunMaximal` | builder.ts:67 | the run is maximal: every character in it is in `[A-Za-z1-9]` and the next one is not |
| `PathTemplate.ToOpenApiPath` | builder.ts:66-69 | the reference definition of the global replace: a maximal `:` + `[A-Za-z1-9]+` run becomes `{run}`, every other character is copied; its properties are the `Rewrite` lemmas below |
| `PathTemplate.RewritePlain` | builder.ts:66-69 | text with no colon is copied unchanged in front of the rewrite of the rest |
| `PathTemplate.RewriteParam` | builder.ts:66-69 | `:name` followed by a non-name character becomes `{name}` |
| `PathTemplate.RewriteTwoParams` | builder.ts:66-69 | two `:name` segments between colon-free literals both become `{name}` |
| `PathTemplate.RewriteExample` | builder.ts:65-69 | `/app/home/test/:id/:name/detail` becomes `/app/home/test/{id}/{name}/detail` |
| `PathTemplate.RewriteEndsNameAtNonNameChars` | builder.ts:67 | `0`, `_` and `-` are outside the class and end a name: `:id0` becomes `{id}0`, `:user_id` becomes `{user}_id`, `:a-b` becomes `{a}-b` |
| `PathTemplate.RewriteKeepsBareColon` | builder.ts:67 | for every route, a colon not followed by a name character is copied unchanged and the rewrite continues with the rest |
| `PathTemplate.RewriteKeepsDoubleColon` | builder.ts:67 | example: `"::"` is left unchanged |
| `PathTemplate.RewriteLeavesNoColonParams` | builder.ts:66-69 | no `:` followed by a name character is left after the rewrite |
| `PathTemplate.RewriteOfRewritten` | builder.ts:66-69 | a route with no `:name` left is its own rewrite |
| `PathTemplate.RewriteIdempotent` | builder.ts:66-69 | rewriting twice is rewriting once |
| `PathTemplate.RewriteKeepsLiterals` | builder.ts:66-69 | with `:`, `{` and `}` removed, the route and its rewrite are the same string: only the markers change |
| `PathTemplate.RewriteRoundTrip` | builder.ts:66-69 | for a route without braces, reading `{name}` back as `:name` gives the route again |
| `SchemaObject.PropertyType` | explorer/utils/schema_object.ts:103-118 | the result is `number` exactly for `Number` and `'number'`, `boolean` exactly for `Boolean` and `'boolean'`, and always one of `string`, `number`, `boolean` |
| `SchemaObject.PrimitiveTypeIsLowerCtorName` | explorer/utils/schema_object.ts:99-118 | for `String`, `Number` and `Boolean` the type name is the lower-cased constructor name |
| `SchemaObject.PropertyTypeIdempotent` | explorer/utils/schema_object.ts:103-118 | a normalised type name normalises to itself |
| `SchemaObject.IsPrimitiveType` | explorer/utils/schema_object.ts:99-101 | holds exactly for the `String`, `Number` and `Boolean` constructors |
| `SchemaObject.BuildSchemaObject` | explorer/utils/schema_object.ts:15-38 | always `{type: 'object', properties}`; a class with recorded names has as keys the names without their first character whose metadata exists, and its properties are those of `SchemaProperties` over the recorded names (each value the property's `BuildSchemaProperty`); otherwise the properties are empty |
| `SchemaObject.SchemaProperties` | explorer/utils/schema_object.ts:26-35 | the reduce has those keys, and each value is the property's schema |
| `SchemaObject.BuildSchemaProperty` | explorer/utils/schema_object.ts:40-97 | none without metadata; `{type:'array', items:{}}` for a plain `Array`; for a non-array class type exactly `buildSchemaObject` of that class; for `isArray` the array schema whose `items` is `buildSchemaObject` of a class type or `{type}` of a primitive one; for a primitive the normalised type, `required` only when truthy, no `isArray` |
| `SchemaObject.ArraySchema` | explorer/utils/schema_object.ts:67-87 | the metadata less `isArray`, with the given `items` and type `array`, other keys kept |
| `SchemaObject.PrimitiveSchema` | explorer/utils/schema_object.ts:88-96 | the normalised type, `required` present exactly when truthy, no `isArray`, the other keys of the metadata kept |
| `SchemaObject.NormalisationIsHarmless` | explorer/utils/schema_object.ts:89 | storing the normalised `type` back into the metadata leaves the schema built from it unchanged |
| `Parameters.ConvertParameter` | explorer/parameters.ts:25-34 | an item with `type` loses it and gets `schema: {type: getPropertyType(type)}`, other keys kept; an item without `type` is unchanged |
| `Parameters.ConvertParameterIdempotent` | explorer/parameters.ts:25-34 | converting a converted item changes nothing |
| `Parameters.ConvertAll` | explorer/parameters.ts:25-34 | same length and order, each item converted |
| `Parameters.ConvertAllIdempotent` | explorer/parameters.ts:25-34 | no converted item has `type`, and converting again changes nothing |
| `Parameters.ExploreParameters` | explorer/parameters.ts:7-35 | `[]` without a descriptor or without metadata; otherwise the stored metadata is converted in place and returned |
| `Responses.ResponseFor` | explorer/responses.ts:22-29 | a Response Object with the entry's `description` and one `application/json` content whose schema is `buildSchemaObject(type)` |
| `Responses.ResponsesOf` | explorer/responses.ts:19-31 | fails with a TypeError exactly when an entry's `type` is not a constructor; otherwise the keys are those of the metadata and each value is that entry's Response Object |
| `Responses.MergedMetadata` | explorer/responses.ts:8-19 | the reference for the record `exploreResponses` iterates: the foreign `merge` of the controller's metadata (or `{}`) and the action's (or `{}`, also without a descriptor) |
| `Responses.ExploreResponses` | explorer/responses.ts:6-32 | the loop's result is the Responses Object of the merged class and action metadata |
| `Responses.NoMetadataNoResponses` | explorer/responses.ts:8-18 | with no class and no action metadata the result is `{}` |
| `Responses.UnrecordedTypeHasEmptySchema` | explorer/responses.ts:26 | an entry whose class has no recorded properties gets the empty object schema |
| `Decorators.DefinedOnly` | nestjs/decorators/api-operation.decorator.ts:15-21 | exactly the keys with a defined value, with their values |
| `Decorators.ApiOperationMetadata` | nestjs/decorators/api-operation.decorator.ts:8-23 | a key is present exactly when supplied with a defined value, or when it is `summary` and not supplied; a missing summary is `''`; supplied values override; no value is undefined |
| `Decorators.ApiOperationIdempotent` | nestjs/decorators/api-operation.decorator.ts:12-23 | for options whose `summary` is absent or defined, normalising the normalised options changes nothing; `ExplicitUndefinedSummaryDropped` covers the rest |
| `Decorators.ExplicitUndefinedSummaryDropped` | nestjs/decorators/api-operation.decorator.ts:15-21 | a `summary` passed as undefined is absent, not defaulted |
| `Decorators.Clone` | nestjs/decorators/api-extension.decorator.ts:14 | a copy equals the value copied |
| `Decorators.ApiExtension` | nestjs/decorators/api-extension.decorator.ts:6-18 | succeeds exactly when the key starts with `x-`, otherwise fails with the source's message; the object has exactly that key, holding the properties |
| `Decorators.PrefixedExtensionAccepted` | nestjs/decorators/api-extension.decorator.ts:7-15 | every `x-` key is accepted with its properties |
| `PathItem.ParameterFor` | builder.ts:139-170 | Query, RouteParam and Cookie params give one Parameter Object with the param's name, `in` of `query`/`path`/`cookie` and a string schema; only `path` has `required: true`; other kinds give none |
| `PathItem.RouteParametersAppend` | builder.ts:139-222 | the Parameter Objects of two lists of route params are those of the first, then those of the second |
| `PathItem.RouteParametersSingle` | builder.ts:139-170 | one route param contributes its Parameter Object, if any |
| `PathItem.RouteParamStep` | builder.ts:139-222 | the reference for one iteration of `route.params.forEach`: Query, RouteParam and Cookie params push their Parameter Object; a Body param with a class adds the class schema and sets the required body, one `{schema}` per consumed media type or else a `$ref` that marks the name as used; a Body param without a class, with consumes and decorator parameters, sets the body from the first decorator parameter's schema; anything else changes nothing |
| `PathItem.ParamPass` | builder.ts:139-222 | the reference for the whole `forEach`, a left fold of `RouteParamStep` in route order; its properties are `PassParameters` and `PassSchemasAndNames` |
| `PathItem.ContentFor` | builder.ts:180-186 | one key per consumed media type, each `{schema}` |
| `PathItem.SchemeLink` | builder.ts:401-404 | the link is `#/components/schemas/` followed by the name |
| `PathItem.RequestBody` | builder.ts:178-199 | `required: true` with the given content |
| `PathItem.TransformedBodyConsumed` | builder.ts:171-187 | a body param with a class and consumes: the class schema is added, the body is required with one `{schema}` per media type, nothing else changes |
| `PathItem.TransformedBodyReferenced` | builder.ts:188-200 | a body param with a class and no consumes: the class schema is added, the body is required JSON referring to `#/components/schemas/<name>`, the name becomes used |
| `PathItem.StepFacts` | builder.ts:139-222 | one route param pushes its Parameter Object, adds a schema only for a body class, and marks that name as used only when nothing is consumed |
| `PathItem.PassParameters` | builder.ts:136-222 | the pass pushes exactly the route's Parameter Objects, in route order |
| `PathItem.PassSchemasAndNames` | builder.ts:171-218 | the schemas gained are exactly the body classes, other schemas kept; names become used exactly when nothing is consumed |
| `PathItem.FindIndex` | builder.ts:231-233 | the first index with equal `name` and `in` (`===`), or -1 when there is none |
| `PathItem.Upsert` | builder.ts:235-241 | append when there is no entry with that key, otherwise overwrite the first such entry; entries with other keys keep their place and value |
| `PathItem.MergeDecorated` | builder.ts:225-242 | the reference for the decorator-parameter `forEach`: a left fold that skips body parameters and upserts the others; its properties are the `Merge` lemmas below |
| `PathItem.NonBody` | builder.ts:227-229 | no remaining parameter is in `body` |
| `PathItem.MergeSkipsBody` | builder.ts:225-229 | body parameters do not affect the merge |
| `PathItem.MergeKeepsUnmatched` | builder.ts:225-242 | the list never shrinks, and an entry whose key no decorator parameter has keeps its place and value |
| `PathItem.MergeAppendsNewKeys` | builder.ts:225-242 | decorator parameters with new, distinct keys are appended in order |
| `PathItem.NonBodyFrom` | builder.ts:225-229 | the non-body parameters come from the decorator list |
| `PathItem.BodyReplaced` | builder.ts:178-216 | a later body assignment replaces the earlier one |
| `PathItem.OperationHead` | builder.ts:104-133 | the reference for the start of `getPathItem`: joined tags, security when its `length` is truthy, the controller-name fallback and the responses or default |
| `PathItem.OperationOf` | builder.ts:104-247 | the reference Operation Object: the head, the request body of the pass and the merged parameter list; its properties are the `Operation` lemmas below |
| `PathItem.PathItemOf` | builder.ts:244-246 | the path item has exactly one key, the lower-cased HTTP method, holding the operation |
| `PathItem.OperationTags` | builder.ts:114-129 | tags are never empty: the operation tags, then class tags, then property tags, or exactly the controller name when there are none |
| `PathItem.OperationResponses` | builder.ts:120-133 | the explored responses when there is one, else exactly `{'200': {description: ''}}` |
| `PathItem.OperationSecurity` | builder.ts:116-118 | `security` is set exactly when the explored value's `length` is truthy; the `{}` fallback leaves it as it was |
| `PathItem.OperationParameters` | builder.ts:136-242 | the parameters are the route's Parameter Objects in order, with the decorator parameters merged in |
| `PathItem.OperationKeepsOtherFields` | builder.ts:106-247 | every other field of the operation metadata is kept |
| `Builder.SchemeLinkAndRegister` | builder.ts:401-404 | the name is added to the used names and the link to its component schema is returned |
| `Builder.ReduceContent` | builder.ts:180-186 | the `reduce` over consumes builds the content of `ContentFor` |
| `Builder.AddPathItem` | builder.ts:71 | `addPath` adds the path, keeps the other paths, leaves info, servers and security schemes alone, and takes the schemas and used names that exploring the route left behind |
| `Builder.RegisterRoute` | builder.ts:64-72 | the reference for one route callback: the path item of `PathItemOf` added under the rewritten route |
| `Builder.RegisterRoutes` | builder.ts:59-77 | the reference for `registerControllers`, a left fold of `RegisterRoute` over the routes in order; its properties are `RegisterRoutesPaths`, `RegisterRoutesSchemas`, `RoutePathsAreTemplates` and `LastRouteWins` |
| `Builder.RegisterRoutesPaths` | builder.ts:59-77 | after registration the paths are the old ones plus the rewritten routes; info, servers and security schemes are unchanged |
| `Builder.RegisterRouteSchemas` | builder.ts:64-72 | one route adds a component schema for each of its body classes and nothing else, keeps the other schemas, and only adds used names among those classes |
| `Builder.RegisterRoutesSchemas` | builder.ts:59-77 | after registration the schema names are the old ones plus every route's body classes, schemas of other names are kept, and the used names only grow, by body classes |
| `Builder.RoutePathsAreTemplates` | builder.ts:64-71 | every route is registered under its rewritten route, and no registered path has a `:name` left |
| `Builder.LastRouteWins` | builder.ts:64-71 | the item under the last route's path has one key, that route's lower-cased method |
| `Builder.OAuth2Scheme` | builder.ts:339-346 | `flows: {}` unless the option has flows, the option's fields, and the option's `type` or `oauth2` when it is falsy; without an option `{flows: {}, type: 'oauth2'}` |
| `Builder.AddUsableSchemasSpec` | builder.ts:371-387 | the schemas gained are exactly the used documented names; a schema no used definition names is kept |
| `Builder.AddUsableSchemasLastDefinition` | builder.ts:371-387 | a used name holds the schema of its last definition |
| `Builder.AddUsableSchemas` | builder.ts:371-387 | the reference for one of the `forEach` loops of `addSchemeComponents`: `addSchema` for each definition whose name is used, in order |
| `Builder.BearerScheme` | builder.ts:313-317 | the `{type: 'http', scheme: 'bearer', bearerFormat: 'JWT'}` literal |
| `Builder.BasicScheme` | builder.ts:332-335 | the `{type: 'http', scheme: 'basic'}` literal |
| `Builder.CookieScheme` | builder.ts:348-354 | `{type: 'apiKey', in: 'cookie', name}` with `connect.sid` as the default name |
| `Builder.OperationHeadOf` | builder.ts:104-133 | the step-by-step head of `getPathItem` equals the reference `OperationHead` |
| `Builder.MergeParameters` | builder.ts:225-242 | the `forEach` merge equals `MergeDecorated` |
| `Builder.OpenApiStorage.constructor` | builder.ts:402 | the used-name set starts empty |
| `Builder.AlosaurOpenApiBuilder.constructor` | builder.ts:41-57 | keeps the settings and the metadata; the document starts empty and no documentation is loaded |
| `Builder.AlosaurOpenApiBuilder.Create` | builder.ts:50-52 | a fresh builder, as the constructor |
| `Builder.AlosaurOpenApiBuilder.ApplyRouteParam` | builder.ts:139-222 | one iteration of `route.params.forEach` moves the state as `RouteParamStep` does |
| `Builder.AlosaurOpenApiBuilder.GetPathItem` | builder.ts:100-247 | the returned item, the new schemas and the new used names are those of `PathItemOf` |
| `Builder.AlosaurOpenApiBuilder.RegisterControllers` | builder.ts:59-77 | the document and the used names afterwards are those of `RegisterRoutes` over all routes |
| `Builder.AlosaurOpenApiBuilder.AddTitle` | builder.ts:249-252 | sets `info.title`, nothing else |
| `Builder.AlosaurOpenApiBuilder.AddVersion` | builder.ts:254-257 | sets `info.version`, nothing else |
| `Builder.AlosaurOpenApiBuilder.AddDescription` | builder.ts:259-262 | sets `info.description`, nothing else |
| `Builder.AlosaurOpenApiBuilder.AddServer` | builder.ts:264-267 | appends the server, nothing else |
| `Builder.AlosaurOpenApiBuilder.AddSecurityScheme` | builder.ts:297-300 | sets the scheme under the id, nothing else |
| `Builder.AlosaurOpenApiBuilder.AddBearerAuth` | builder.ts:312-319 | the `bearer` scheme is `{type: 'http', scheme: 'bearer', bearerFormat: 'JWT'}` |
| `Builder.AlosaurOpenApiBuilder.AddBasicAuth` | builder.ts:331-337 | the `basic` scheme is `{type: 'http', scheme: 'basic'}` |
| `Builder.AlosaurOpenApiBuilder.AddOAuth2` | builder.ts:339-346 | the `oauth2` scheme is `OAuth2Scheme` of the option |
| `Builder.AlosaurOpenApiBuilder.AddCookieAuth` | builder.ts:348-355 | the `cookie` scheme is an `apiKey` in `cookie` named by the argument, `connect.sid` by default |
| `Builder.AlosaurOpenApiBuilder.AddDenoDocs` | builder.ts:357-362 | stores the documentation and its parsed names; the document is unchanged |
| `Builder.AlosaurOpenApiBuilder.AddUsableDefs` | builder.ts:371-387 | one `forEach` adds the schema of each used definition |
| `Builder.AlosaurOpenApiBuilder.AddSchemeComponents` | builder.ts:364-390 | fails with the source's message, changing nothing, before `addDenoDocs`; otherwise adds the used classes, interfaces and enums in that order |
| `Middleware.Dispatch` | middleware.ts:23-42 | the document exactly for `/swagger.json`, the script exactly for `/swagger-ui-init.js`, the page exactly for a trailing `/`, else a redirect |
| `Middleware.RedirectTargetServesHtml` | middleware.ts:34-42 | the redirect target is served the page and is not redirected again |
| `Middleware.ServerUrl` | middleware.ts:64-70 | the scheme part, then `//` and the host; a forwarded scheme is lower-cased and followed by `:` |
| `Middleware.ServerUrlIgnoresProtoCase` | middleware.ts:66-67 | the forwarded scheme's case does not matter |
| `Middleware.ServerUrlWithoutForwarding` | middleware.ts:66-69 | without the header the URL's protocol is used |
| `Middleware.ServerProto` | middleware.ts:66-68 | the reference for `proto`: the lower-cased `x-forwarded-proto` header and `:` when it is present, else the URL's protocol |
| `Middleware.SwaggerDocOf` | middleware.ts:55-62 | the reference for `getSwaggerDoc`: the document after `RegisterRoutes` with the request's server appended; its properties are `SwaggerDocContents` |
| `Middleware.SwaggerDocContents` | middleware.ts:55-62 | the served document has a path per rewritten route on top of the builder's, the request's server last, and the builder's info and security schemes |
| `Middleware.ResultFor` | middleware.ts:23-42 | `/swagger.json` gets the document as JSON and a trailing `/` the page generated from it, both with status 200 and no headers; the script gets status 200 and `Content-Type: text/javascript`; the redirect goes to the URL with `/` appended |
| `Middleware.HttpContext.constructor` | middleware.ts:22 | no result yet and not sent |
| `Middleware.OpenApiMiddleware.constructor` | middleware.ts:16-20 | the given builder, or a fresh one created with no areas |
| `Middleware.OpenApiMiddleware.GetSwaggerDoc` | middleware.ts:55-62 | registers the routes, adds the request's server and returns the builder's document |
| `Middleware.OpenApiMiddleware.OnPreRequest` | middleware.ts:22-45 | sets the result of the request's branch and always marks the response sent; the document is built only on the first request that needs it and reused after |

## Left out

- Reflection: `Reflect.getMetadata`, `Object.getOwnPropertyDescriptor` and the explorers built on them (tags, operation, security, consumes) are inputs. `Explored` holds what they return for one route; `Registry` holds what the property decorators record.
- `registerAreas` and the framework's `registerControllers`: the routes they produce are the input list `routes`. Their order is taken as given.
- The third-party `OpenApiBuilder`: its initial document (`openapi` version, default `info`) and `getSpec` are not modelled. `addPath` is a plain map insertion here, so a second route under the same path replaces the first instead of merging into it.
- `merge` of midash in `exploreResponses`: its deep-merge precedence is an uninterpreted function parameter.
- `generateHTML` and `swaggerInit` (swagger_ui.ts is not part of this model): they appear as the `Html` and `InitScript` tags.
- `URL`, `Headers`, `Content` and `Redirect`: the host, the protocol and lower-case header names are given. `Content-Type` is kept as written.
- I/O and async: `saveToFile`, `saveDenoDocs`, `print`, `parseDenoDoc`. `getSchemeByDef`, `getShemeByEnumDef` and `getParsedNames` are foreign, so their results are inputs (`DocDef.schema` and `ParsedNames`).
- `onPostRequest` (returns null) and `getBuilder` (returns the field): omitted.
- The fluent `return this` of the setters: omitted.
- Key order of objects, floating-point numbers and non-ASCII case mapping: not modelled. `toLowerCase` maps `A`–`Z` only.
- The `length` of a function value: read as undefined.
- `exploreResponses` throwing inside `getPathItem`: the path item keeps only the responses explored for the route (`Explored.responses`), and the TypeError path lives in `Responses.ResponsesOf`.
- The `classes` list passed to the framework: not modelled.
- Aliasing of the reflected operation object. The source mutates the object returned by `exploreOperation` in place, so a second `getPathItem` of the same route would see the fields added by the first; the model starts from `Explored.operation` each time.
- The sharing of the returned document between the middleware and its builder is also not modelled.
- The example applications and `ApiConsumes` (a one-line store of its arguments): not modelled.
- Cyclic class graphs, on which `buildSchemaObject` does not terminate: excluded by the `WellRanked` precondition.
- `PathItem.OperationTagList`: a truthy `tags` that is not an array reads as no tags. JavaScript's spread would iterate a string into its characters and throw on anything else that is not iterable. The builder's `Valid` rules these values out through `ExploredShape`, but the reference `OperationOf` does not.
- User classes are identified by name (`ClassCtor(className)`): two distinct classes with the same name share one tag, one registry entry and one `===` identity, where JavaScript would keep them apart.
- `Responses.ResponsesOf`: the error text `TypeErrorMessage` only tags the TypeError path; the runtime's own message is not modelled. A null or undefined entry fails one step earlier, on `.description`, and that is modelled as the same failure.
