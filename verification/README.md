# Custom-operation dispatch and item-route binding (apio architect)

A Dafny model of two pieces of apio architect's request path.

- **`CustomOperationsEndpoint`** dispatches a named custom operation on a resource's collection (`/{operation}/`) or on one of its items (`/{id}/{operation}/`), for GET, POST, PUT and DELETE. Each dispatch is a short-circuiting `Try` chain with these stages:
  1. fetch the routes;
  2. find the custom handler for the operation;
  3. hand it the request;
  4. for an item, resolve the identifier from `Path(name, id)`;
  5. hand it the body.

  Each missing piece becomes a specific failure.
- **`ItemRouterManagerImpl`** finds the item routes of a resource and builds the item routes of a router:
  - It looks up routes through the identifier class of the resource name and that class's name.
  - It lists a resource's operations, and lists none when routes are missing.
  - It binds a router's builder to its model class, its resource name and a path-to-identifier function.

Files:

- `core.dfy` (module `Core`): methods, classes, paths, operations, exceptions, `Option` for `java.util.Optional` (and for null), and `Try`.
- `routes.dfy` (module `Routes`): collection and item route tables holding curried handlers.
- `custom_operations_endpoint.dfy` (module `CustomOperationsEndpoint`): the two dispatch chains and the verb entry points.
- `item_router_manager.dfy` (module `ItemRouterManager`): lookups, route construction, and routers tracked as they come and go.

Handlers are user code that may have effects. Each dispatch therefore returns a `Traced` value: the `Try` outcome plus the list of chain stages it entered. "A later stage does not run once an earlier one failed" and "no handler is invoked" are statements about that list.

Three behaviours of the code are kept as written, though a reader might expect otherwise:

- On the item path, an operation missing from an existing custom-route table is not reported as "not allowed". `Map.get` yields null, that null is applied to the request, and the dispatch fails with a null-pointer exception.
- On the item path, item routes without a custom-route table fail with the exception of an empty `Optional` (`NoSuchElement`). They also do not fail with "not allowed".
- The HTTP method never selects a handler. It only tags the "not allowed" failures.

## Model

| member | source | states |
|---|---|---|
| `CustomOperationsEndpoint.DispatchCollection` | apio-architect-api/src/main/java/com/liferay/apio/architect/endpoint/CustomOperationsEndpoint.java:149-164 | the stages entered are always a prefix of fetch, lookup, request, body; a success entered them all, and a dispatch that stopped early is a failure |
| `CustomOperationsEndpoint.DispatchItem` | apio-architect-api/src/main/java/com/liferay/apio/architect/endpoint/CustomOperationsEndpoint.java:166-184 | the same short-circuit shape over the six item stages: a prefix is entered, and only a dispatch that entered all six can succeed |
| `CustomOperationsEndpoint.CollectionWithoutRoutesIsNotFound` | apio-architect-api/src/main/java/com/liferay/apio/architect/endpoint/CustomOperationsEndpoint.java:150-151 | with no collection routes the result is `NotFound(name)` and only the routes fetch ran, so no handler is invoked |
| `CustomOperationsEndpoint.CollectionWithoutHandlerIsNotAllowed` | apio-architect-api/src/main/java/com/liferay/apio/architect/endpoint/CustomOperationsEndpoint.java:152-157 | routes with no custom-route table, or a table without the operation, give `NotAllowed(method, name)` and stop before the handler |
| `CustomOperationsEndpoint.CollectionHandlerResultUnchanged` | apio-architect-api/src/main/java/com/liferay/apio/architect/endpoint/CustomOperationsEndpoint.java:158-163 | with a handler, the result is exactly `handler(request)(body)`, success or failure, after all four stages |
| `CustomOperationsEndpoint.CollectionHandlerRunsIff` | apio-architect-api/src/main/java/com/liferay/apio/architect/endpoint/CustomOperationsEndpoint.java:150-160 | the collection handler is handed the request if and only if a handler is registered for the operation |
| `CustomOperationsEndpoint.ItemWithoutRoutesIsNotAllowed` | apio-architect-api/src/main/java/com/liferay/apio/architect/endpoint/CustomOperationsEndpoint.java:169-170 | with no item routes the result is `NotAllowed(method, name)`, never `NotFound`, and nothing after the fetch ran |
| `CustomOperationsEndpoint.MissingRoutesAsymmetry` | apio-architect-api/src/main/java/com/liferay/apio/architect/endpoint/CustomOperationsEndpoint.java:149-170 | for a resource with neither kind of route, the collection path says `NotFound(name)` while the item path says `NotAllowed(method, name)` |
| `CustomOperationsEndpoint.ItemWithoutRouteMapIsNoSuchElement` | apio-architect-api/src/main/java/com/liferay/apio/architect/endpoint/CustomOperationsEndpoint.java:171-172 | item routes without a custom-route table fail with the empty-optional exception, and no handler lookup or later stage runs |
| `CustomOperationsEndpoint.ItemUnknownOperationIsNullPointer` | apio-architect-api/src/main/java/com/liferay/apio/architect/endpoint/CustomOperationsEndpoint.java:173-177 | an operation missing from an existing item table is not reported as `NotAllowed`: the null handler is applied to the request and the dispatch fails with a null-pointer exception, before identifier resolution |
| `CustomOperationsEndpoint.ItemIdentifierFailurePropagates` | apio-architect-api/src/main/java/com/liferay/apio/architect/endpoint/CustomOperationsEndpoint.java:178-180 | when `identifierFunction(Path(name, id))` fails, its exception is the result and the body is never handed over |
| `CustomOperationsEndpoint.ItemHandlerResultUnchanged` | apio-architect-api/src/main/java/com/liferay/apio/architect/endpoint/CustomOperationsEndpoint.java:175-183 | with a handler and a resolved identifier, the result is exactly `handler(request)(identifierFunction(Path(name, id)))(body)`, after all six stages |
| `CustomOperationsEndpoint.MethodOnlyTagsNotAllowed` | apio-architect-api/src/main/java/com/liferay/apio/architect/endpoint/CustomOperationsEndpoint.java:149-184 | for any two methods, both dispatches of an operation enter the same stages; their results are equal unless both are the dispatcher's own `NotAllowed`, each tagged with its own method |
| `CustomOperationsEndpoint.Handle` | apio-architect-api/src/main/java/com/liferay/apio/architect/endpoint/CustomOperationsEndpoint.java:77-147 | every entry point, DELETE included, runs the collection or item dispatch for its verb and enters exactly that dispatch's stages; the DELETE entry points, and only they, return no result |
| `CustomOperationsEndpoint.EntryPointsDelegate` | apio-architect-api/src/main/java/com/liferay/apio/architect/endpoint/CustomOperationsEndpoint.java:77-147 | DELETE runs the dispatch pipeline, and every verb enters the same stages as DELETE for the same request; GET, POST and PUT return the collection or item dispatch's result |
| `ItemRouterManager.GetItemRoutesOptional` | apio-architect-wiring-osgi-impl/src/main/java/com/liferay/apio/architect/wiring/osgi/internal/manager/router/ItemRouterManagerImpl.java:57-70 | empty when the resource name has no identifier class; otherwise it is the routes tracked under that class's name, or empty when none are tracked |
| `ItemRouterManager.LookupIsByClassName` | apio-architect-wiring-osgi-impl/src/main/java/com/liferay/apio/architect/wiring/osgi/internal/manager/router/ItemRouterManagerImpl.java:60-69 | two resource names whose identifier classes share a name see the same routes and operations |
| `ItemRouterManager.GetOperations` | apio-architect-wiring-osgi-impl/src/main/java/com/liferay/apio/architect/wiring/osgi/internal/manager/router/ItemRouterManagerImpl.java:72-81 | the tracked routes' operations when the identifier class and its routes exist, the empty list otherwise; it never fails |
| `ItemRouterManager.ModelClassPropertyWins` | apio-architect-wiring-osgi-impl/src/main/java/com/liferay/apio/architect/wiring/osgi/internal/manager/router/ItemRouterManagerImpl.java:85-94 | with a `MODEL_CLASS` property, the introspected type parameter, even a failing one, cannot change the routes `map` builds; without the property, a failing introspection is the mapping's failure |
| `ItemRouterManager.IdentifierFunction` | apio-architect-wiring-osgi-impl/src/main/java/com/liferay/apio/architect/wiring/osgi/internal/manager/router/ItemRouterManagerImpl.java:108-115 | on every path it gives the identifier class's path mapper's result, or `MustHavePathIdentifierMapper(identifierClass)` when no mapper exists |
| `ItemRouterManager.NewBuilder` | apio-architect-wiring-osgi-impl/src/main/java/com/liferay/apio/architect/wiring/osgi/internal/manager/router/ItemRouterManagerImpl.java:100-115 | it succeeds exactly when the name manager knows the identifier class's name, and otherwise fails with `MustHaveValidGenericType(identifierClass)`; it binds the model class, exactly that name, and the class's identifier function |
| `ItemRouterManager.MapRouter` | apio-architect-wiring-osgi-impl/src/main/java/com/liferay/apio/architect/wiring/osgi/internal/manager/router/ItemRouterManagerImpl.java:85-118 | a model-class failure comes first; then a missing resource name gives `MustHaveValidGenericType(identifierClass)`; otherwise the result is the router's routes for the bound builder |
| `ItemRouterManager.TrackIsLatest` | apio-architect-wiring-osgi-impl/src/main/java/com/liferay/apio/architect/wiring/osgi/internal/manager/router/ItemRouterManagerImpl.java:85-118 | after any sequence of arrivals and removals, the routes under a class name come from the last event that decides that name; a failed mapping and events about other classes do not disturb it |
| `ItemRouterManager.FailedRegistrationChangesNothing` | apio-architect-wiring-osgi-impl/src/main/java/com/liferay/apio/architect/wiring/osgi/internal/manager/router/ItemRouterManagerImpl.java:100-104 | a router whose mapping fails (for example, for lack of a resource name) leaves every tracked route as it was |
| `ItemRouterManager.RegistrationIsIdempotent` | apio-architect-wiring-osgi-impl/src/main/java/com/liferay/apio/architect/wiring/osgi/internal/manager/router/ItemRouterManagerImpl.java:85-94 | registering the same router twice in a row leaves the same routes as registering it once |
| `ItemRouterManager.RegistrationVisibleByClassName` | apio-architect-wiring-osgi-impl/src/main/java/com/liferay/apio/architect/wiring/osgi/internal/manager/router/ItemRouterManagerImpl.java:63-69 | after a successful registration, every resource whose identifier class has that class name finds the new routes; every other resource finds what it found before |

## Left out

- JAX-RS annotations, `@Consumes` media types and `HttpServletRequest`: the request is an opaque type parameter handed to handlers, and the body and the single model are opaque too.
- Endpoint fields the dispatch never reads are left out: `_identifierClassFunction`, `_singleModelFunction`, `_representorSupplier` and `_nestedCollectionRoutesFunction`.
- `Try` and `ExceptionSupplierUtil` are not part of this model. `Try` is modelled with the `map`/`flatMap`/`mapOptional`/`fromOptional` behaviour of apio's `Try` and of `java.util.Optional`.
- The item path's one-argument `mapOptional`, when its optional is empty, is taken to fail with the exception of an empty `Optional` (`NoSuchElement`).
- CustomOperationsEndpoint.DispatchItem: handlers are total functions. Only their last stage returns a `Try`, so an exception thrown while a handler takes the request or the identifier is not modelled. The same holds for `CustomOperationsEndpoint.DispatchCollection`.
- The route suppliers are read once per dispatch, as values of the endpoint.
- `Method` has only the four methods these entry points use.
- OSGi wiring is not part of this model: `@Component`, `@Reference` and `ServiceReference`. Their results are inputs instead: the `MODEL_CLASS` property, the identifier class, and snapshot maps for the identifier-class, name and path-mapper managers.
- `BaseManager` is not part of this model. `ItemRouterManager.Track` assumes it keeps the routes that `map` returns under the identifier class's name, with the later registration winning. It also assumes a router whose `map` fails is not tracked, and that a removal drops the entry. Concurrency and atomic publication are left out.
- The reflection in `getTypeParamOrFail` and `getGenericClassFromPropertyOrElse` is reduced to its outcome: the introspected type parameter is an input `Try<Class>`.
- `ProvideFunction.curry` and `ProviderManager` are left out, so the builder carries no provider function.
- Representors and serialization are left out.
