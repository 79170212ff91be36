# Viron page metadata for an Effect HTTP API, in Dafny

This project models the part of the Viron server package that turns a page
tree into admin-dashboard metadata and attaches it to the OpenAPI document
of an Effect `HttpApi`:

- the endpoint catalog lookup: a `"Group.Endpoint"` string or a
  `[group, endpoint]` pair, resolved by exact key match against the API's
  groups and then the group's endpoints (`getEndpointByIdentifier`);
- the operation id of an endpoint: an explicit override annotation,
  otherwise the bare name for a top-level group and `identifier.name` for
  any other group (`getEndpointOperationId`);
- the page tree (`Item` / `Group`) and its pre-order walk, each group
  appending its name to the path given to its children (`walkPages`);
- `buildVironConfig`, which turns every walked item into a descriptor whose
  `group` is the path joined with `"/"` and whose bindings carry resolved
  operation ids, failing as a whole if any binding does not resolve;
- the `OpenApi.Transform` that `make` registers: it applies any earlier
  transform, sets `openapi` to `"3.0.2"` and adds `x-pages` and `x-table`
  under `info`, leaving every other key as it was.

Everything in this core is pure, so the model is written as datatypes,
functions and lemmas. Modules follow the source files: `Endpoints`
(`endpoint.ts`), `OperationIds` (`helper/endpointOperationId.ts`),
`Contents` (`content.ts`), `Pages` (`page.ts`) and `VironServer`
(`viron-server.ts`). The supporting modules are `Wrappers` (Effect's
`Option` and `Record.get`), `Strings` (JavaScript's `split` and `join` with
a one-character separator) and `Json` (the document). `SampleConfig` holds
the sample API and page configuration from `examples/basic` as data.

An exception thrown by `Option.getOrThrow` is modelled as `None`. The base
OpenAPI document that the framework generates is a parameter.

Facts about the source that shape the model:
- No runtime check compares a binding's `type` with the endpoint's
  response shape. The only failure in the build is a lookup miss turned
  into an exception by `Option.getOrThrow`
  (packages/server/src/viron-server.ts:186-198).
- The transform adds `x-pages` and `x-table` under `info` and no other key
  (packages/server/src/viron-server.ts:121-127).
- A descriptor's `group` is a single string, the path joined with `"/"`
  (packages/server/src/viron-server.ts:185).
- A string identifier is split on every dot. Piece 0 names the group and
  piece 1 the endpoint, and further pieces are ignored
  (packages/server/src/endpoint.ts:168-170).
- `viron-server.ts` imports `getEndpointByEndpointIdentifier`
  (packages/server/src/viron-server.ts:12), but `endpoint.ts` exports
  `getEndpointByIdentifier` (packages/server/src/endpoint.ts:157). Both
  names are taken to mean the same function, `Endpoints.Lookup`.

## Model

| member | source | states |
|---|---|---|
| `Wrappers.Get` | packages/server/src/endpoint.ts:172-174 | `Record.get` finds a value exactly when the key is present, and that value is the one stored under the key |
| `Strings.Split` | packages/server/src/endpoint.ts:170 | `split(".")` always gives at least one piece, and no piece contains the separator |
| `Strings.Join` | packages/server/src/viron-server.ts:185 | `join("/")` of a non-empty list starts with its first part |
| `Strings.JoinSplit` | packages/server/src/endpoint.ts:170 | joining the pieces of a split with the same separator gives back the original string, so no character is lost or invented |
| `Strings.SplitFree` | packages/server/src/endpoint.ts:170 | a string without the separator splits into itself alone |
| `Strings.SplitAfter` | packages/server/src/endpoint.ts:170 | a separator-free head followed by the separator is cut off as the first piece, and the rest splits on its own |
| `Strings.SplitJoin` | packages/server/src/viron-server.ts:185 | splitting the join of a non-empty list of separator-free parts gives back the parts |
| `Endpoints.Segments` | packages/server/src/endpoint.ts:168-170 | a pair is used as it is. For a string, neither name contains a dot, and there is an endpoint name exactly when the string contains a dot |
| `Endpoints.DottedSegments` | packages/server/src/endpoint.ts:170 | a string with no endpoint piece is the group name. Otherwise it starts with `group + "." + endpoint` and either ends there or continues with a dot, so pieces after the second are ignored |
| `Endpoints.SegmentsOfDotted` | packages/server/src/endpoint.ts:170 | `g + "." + e`, followed by nothing or by a dot and anything, names exactly group `g` and endpoint `e` when neither holds a dot |
| `Endpoints.Lookup` | packages/server/src/endpoint.ts:157-179 | succeeds if and only if the group name is a key of the groups and the endpoint name is a key of that group's endpoints, and then returns exactly that group and endpoint. A missing group fails whatever the endpoint part is |
| `Endpoints.LookupExact` | packages/server/src/endpoint.ts:172-178 | in a catalog where groups are keyed by identifier and endpoints by name, a found group and endpoint carry exactly the requested names (exact, case-sensitive match) |
| `Endpoints.DottedAgreesWithPair` | packages/server/src/endpoint.ts:13 | `"G.E"` and `["G", "E"]` look up the same thing when neither name holds a dot |
| `OperationIds.OperationId` | packages/server/src/helper/endpointOperationId.ts:11-18 | an override is returned verbatim whatever the group. Without one, the id always ends with the endpoint name: for a top-level group it is exactly that name, otherwise exactly `identifier + "." + name` |
| `OperationIds.OperationIdInputs` | packages/server/src/helper/endpointOperationId.ts:11-18 | the id depends only on the override, `topLevel`, the group identifier and the endpoint name |
| `OperationIds.OperationIdResolves` | packages/server/src/helper/endpointOperationId.ts:16 | round trip: without an override and outside a top-level group, the default id of the endpoint found for `[g, e]` is `g + "." + e`, and that string looks up the same group and endpoint again |
| `Pages.Walk` | packages/server/src/page.ts:36-53 | every entry's path starts with the incoming path. Entries are `Item` pages by type, so groups never appear |
| `Pages.WalkAll` | packages/server/src/page.ts:45-49 | the children's walks, concatenated in listed order, all carry the extended path as a prefix |
| `Pages.WalkCount` | packages/server/src/page.ts:36-53 | the walk yields exactly as many entries as the tree has `Item` nodes, so an item yields exactly one entry |
| `Pages.WalkAllCount` | packages/server/src/page.ts:45-49 | the children's walks together yield as many entries as the children have items |
| `Pages.WalkAllAppend` | packages/server/src/page.ts:46-48 | walking `a + b` gives the walk of `a` followed by the walk of `b`, so items of earlier children come first |
| `Pages.WalkSound` | packages/server/src/page.ts:40-49 | every entry is the initial path followed by exactly the names of the groups enclosing its item, outermost first, one per level |
| `Pages.WalkAllSound` | packages/server/src/page.ts:45-49 | every entry of a children walk lies in one of the children, under the extended path |
| `Pages.WalkComplete` | packages/server/src/page.ts:40-49 | every item in the tree is yielded, with the initial path followed by its enclosing group names |
| `Pages.WalkAllContains` | packages/server/src/page.ts:46-48 | every entry of one child's walk appears in the group's walk |
| `VironServer.ResolveContent` | packages/server/src/viron-server.ts:186-198 | a binding resolves exactly when its identifier is found. It keeps type, title and resourceId, and its operation id is the one computed for the found group and endpoint |
| `VironServer.ResolveContents` | packages/server/src/viron-server.ts:186-199 | all bindings resolve, in the same number and order, or the whole list fails if any one of them fails |
| `VironServer.Describe` | packages/server/src/viron-server.ts:181-200 | a descriptor copies id, title and description, and sets `group` to the path joined with `"/"`. It exists exactly when every binding of the item resolves |
| `VironServer.DescribeAll` | packages/server/src/viron-server.ts:180-201 | one descriptor per entry, in order, or failure if any entry has an unresolvable binding |
| `VironServer.BuildVironConfig` | packages/server/src/viron-server.ts:176-204 | succeeds exactly when every walked item's bindings resolve. It then gives one descriptor per item (as many as the tree has items), in walk order |
| `VironServer.BuildSucceedsIff` | packages/server/src/viron-server.ts:187-190 | the build succeeds if and only if every item anywhere in the tree has only resolvable bindings |
| `VironServer.UnresolvedAborts` | packages/server/src/viron-server.ts:187-190 | one unresolvable binding in any item makes the build fail, so no partial result is produced |
| `Pages.ReachesPlain` | packages/server/src/page.ts:47 | if every group name in the tree is non-empty and free of `/`, then so is every name on the path to an item |
| `VironServer.GroupRecoversPath` | packages/server/src/viron-server.ts:185 | if group names are non-empty and contain no `/`, then `group` is `""` exactly for a root item. Otherwise it splits back into the ancestor names |
| `VironServer.Overlay` | packages/server/src/viron-server.ts:118-128 | `openapi` becomes `"3.0.2"`, and every other top-level key keeps its value. Under `info`, `x-pages` holds the descriptors and `x-table` holds `{responseListKey: "list"}`; every other `info` key keeps its value |
| `VironServer.OverlayIdempotent` | packages/server/src/viron-server.ts:118-128 | overlaying the same pages twice equals overlaying them once |
| `VironServer.KindName` | packages/server/src/viron-server.ts:194 | a binding's `type` is written as `"number"` exactly for a number widget and `"table"` exactly for a table widget |
| `VironServer.ContentJson` | packages/server/src/viron-server.ts:193-198 | a resolved binding becomes an object whose keys are exactly `type`, `title`, `resourceId` and `operationId`, each holding the binding's value |
| `VironServer.ContentsJson` | packages/server/src/viron-server.ts:186-199 | the `contents` array has one object per binding, in the same order |
| `VironServer.DescriptorJson` | packages/server/src/viron-server.ts:181-200 | a descriptor becomes an object with `id`, `title`, `group` and `contents` holding its values. `description` is a key exactly when the page has a description, and then holds it |
| `VironServer.PagesJson` | packages/server/src/viron-server.ts:123 | `x-pages` has one object per descriptor, in the same order |
| `VironServer.ContentRoundTrip` | packages/server/src/viron-server.ts:193-198 | a binding's object reads back as the same binding, so type, title, resourceId and operationId are all kept |
| `VironServer.ContentsRoundTrip` | packages/server/src/viron-server.ts:186-199 | a `contents` array reads back as the same bindings, in order |
| `VironServer.DescriptorRoundTrip` | packages/server/src/viron-server.ts:181-200 | a descriptor's object reads back as the same descriptor, so no field is lost and distinct descriptors are written differently |
| `VironServer.PagesRoundTrip` | packages/server/src/viron-server.ts:123 | an `x-pages` array reads back as the same descriptors, in order |
| `VironServer.InfoFields` | packages/server/src/viron-server.ts:122 | spreading `spec.info` contributes the fields of an `info` object, and nothing when `info` is missing or not an object |
| `VironServer.BaseSpec` | packages/server/src/viron-server.ts:108-111 | with an earlier Transform annotation the base is that transform applied to the original document; without one it is the original document |
| `VironServer.VironTransform` | packages/server/src/viron-server.ts:107-129 | any earlier transform is applied to the original document first, and without one the original is the base. The result exists exactly when that base exists and the build succeeds. It is then the overlay of that base with the built descriptors: `openapi` is `"3.0.2"`, every other top-level key and every other `info` key is kept, `x-pages` holds the descriptors and `x-table` is `{responseListKey: "list"}` |
| `VironServer.TransformPagesReadBack` | packages/server/src/viron-server.ts:113-123 | the `x-pages` the transform writes read back as exactly the descriptors the build produced, in walk order |
| `VironServer.Make` | packages/server/src/viron-server.ts:106-130 | the API gains the `Viron` group, keeps every other group, and its Transform annotation becomes the Viron transform |
| `VironServer.VironEndpointsNotBindable` | packages/server/src/viron-server.ts:106-116 | bindings are resolved against the API before the Viron group is added. `Viron.getOpenApi` resolves in the returned API, yet a page that binds it makes the transform fail |
| `SampleConfig.SampleGroupsIsSampleCatalog` | packages/server/examples/basic/api.ts:23-58 | the sample API has `User.listUsers` and `Metrics.getActiveUserCount`, in groups that are not top-level and without overrides |
| `SampleConfig.ResolvesByDefaultId` | packages/server/src/viron-server.ts:187-197 | in such a catalog, a binding to `"G.E"` resolves to operation id `"G.E"` |
| `SampleConfig.SampleContentsResolve` | packages/server/examples/basic/viron.ts:17-30 | the two sample bindings resolve to `Metrics.getActiveUserCount` and `User.listUsers` |
| `SampleConfig.SampleWalk` | packages/server/examples/basic/viron.ts:10-33 | the sample tree yields one entry, the dashboard item, with path `["Samples"]` |
| `SampleConfig.SampleBuild` | packages/server/examples/basic/viron.ts:9-33 | the sample configuration builds exactly one descriptor, with group `"Samples"` and both resolved bindings |
| `SampleConfig.SampleMissingEndpointAborts` | packages/server/src/viron-server.ts:187-190 | adding a binding to `User.doesNotExist` makes the sample build fail |

## Left out

- The route handlers `getOpenApi` and `authentication` are not modelled. Neither are their response headers, the static authentication stub, `HttpApiBuilder.group` / `HttpApiBuilder.api`, `Layer` wiring or `OpenApi.fromApi`. These are HTTP transport and framework plumbing, and the generated base document is a parameter.
- The `dual` two-signature wrapper around `make` is left out. `Make` is a plain two-argument function.
- Type-level filtering (`EndpointFor`, `MatchesSuccessType` and the rest) has no runtime behaviour and is not modelled. The same holds for the `ApiGroups` helper and the generics of `content.ts`. Only the content record's shape is kept.
- Pages.Page: the type-level rule that a group's children are all items or all groups is not enforced. Mixed children are allowed, and the walk treats them the same way.
- The thin schema wrapper over `Schema.Struct` is not part of this model.
- Endpoint success schemas and annotations other than the operation-id override are not modelled, because nothing in the core reads them.
- Generator and iterator laziness is not modelled. The walk and the descriptor list are finite sequences. In the source the lookup runs when `toArray` forces the list inside the transform. It fails at the same point either way: the transform as a whole fails.
- Endpoints.Segments: for a string with no dot, JavaScript binds the endpoint name to `undefined`, and a key lookup would turn that into the key `"undefined"`. The model treats this case as a lookup miss. It does not model an endpoint literally named `undefined`.
- VironServer.ResolveContents: the error thrown by `Option.getOrThrow` carries no identifier, and the model's failure carries none either. Which binding failed first is not recorded.
- VironServer.Overlay: if `info` is missing, null or a scalar, spreading it contributes no keys, and the model does the same. A string or array `info` spreads into index keys, which the model does not capture (it contributes nothing there). JSON key order and non-integer numbers are not modelled.
- VironServer.DescriptorJson: a page without a description is written without the `description` key. In the source the object carries `description: undefined`, which JSON serialization drops, so the served document is the same.
- VironServer.HttpApi: an earlier transform that throws is modelled as one that returns no document.
