/**
  The route tables a router contributes for one resource. Handlers are
  curried the way apio stages them: first the request, then (for an item)
  the resolved identifier, then the body, which finally yields a `Try`.
  Request, body, identifier and model are opaque type parameters.
 */
module Routes {
  import opened Core

  /** A collection-scoped custom handler: request, then body. */
  type CollectionHandler<!Req, !Body, Model> = Req -> Body -> Try<Model>

  /** An item-scoped custom handler: request, then identifier, then body. */
  type ItemHandler<!Req, !Id, !Body, Model> = Req -> Id -> Body -> Try<Model>

  /** `CollectionRoutes`: only its optional table of custom routes matters here. */
  datatype CollectionRoutes<!Req, !Body, Model> =
    CollectionRoutes(customRoutes: Option<map<string, CollectionHandler<Req, Body, Model>>>)

  /** `ItemRoutes`: its optional table of custom routes and the operations it lists. */
  datatype ItemRoutes<!Req, !Id, !Body, Model> =
    ItemRoutes(
      customRoutes: Option<map<string, ItemHandler<Req, Id, Body, Model>>>,
      operations: seq<Operation>)
}
