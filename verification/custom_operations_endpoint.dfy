/**
  `CustomOperationsEndpoint`: dispatch of a named custom operation on a
  resource's collection or on one of its items.

  Both pipelines are chains of `Try` stages. A handler is user code that may
  have effects, so besides the outcome each pipeline reports the stages it
  entered (`Traced`): that is what "a later stage does not run once an
  earlier one has failed" means in a pure model.
 */
module CustomOperationsEndpoint {
  import opened Core
  import opened Routes

  /** The stages of the two chains, in the order they are written. */
  datatype Stage =
    | FetchRoutes        // ask the routes supplier
    | LookupRouteMap     // item only: take the custom-route table out of the routes
    | LookupHandler      // look the operation up in the custom-route table
    | ApplyRequest       // hand the request to the handler
    | ResolveIdentifier  // item only: map the path to an identifier and hand it over
    | ApplyBody          // hand the body over, obtaining the handler's own Try

  const CollectionStages: seq<Stage> := [FetchRoutes, LookupHandler, ApplyRequest, ApplyBody]

  const ItemStages: seq<Stage> :=
    [FetchRoutes, LookupRouteMap, LookupHandler, ApplyRequest, ResolveIdentifier, ApplyBody]

  /** A `Try` together with the stages that were entered to produce it. */
  datatype Traced<+T> = Traced(outcome: Try<T>, trace: seq<Stage>) {

    /** Runs one more stage, but only on a success; its outcome is `Try.flatMap`'s. */
    function Then<U>(stage: Stage, f: T -> Try<U>): (r: Traced<U>)
      ensures r.outcome == outcome.FlatMap(f)
      ensures r.trace == if outcome.Success? then trace + [stage] else trace
    {
      match outcome
      case Failure(e) => Traced(Failure(e), trace)
      case Success(v) => Traced(f(v), trace + [stage])
    }
  }

  /** The first stage of a chain, which always runs. */
  function Begin<T>(stage: Stage, t: Try<T>): Traced<T>
  {
    Traced(t, [stage])
  }

  /**
    The endpoint for one resource: its name, the current request, what the
    route suppliers return for this request, and the function that turns a
    path into an identifier.
   */
  datatype Endpoint<!Req, !Body, !Id, Model> = Endpoint(
    name: string,
    request: Req,
    collectionRoutes: Option<CollectionRoutes<Req, Body, Model>>,
    itemRoutes: Option<ItemRoutes<Req, Id, Body, Model>>,
    identifierFunction: Path -> Try<Id>)

  /** The collection handler registered for `operation`, read straight off the tables. */
  function CollectionHandlerFor<Req, Body, Id, Model>(
    e: Endpoint<Req, Body, Id, Model>, operation: string): Option<CollectionHandler<Req, Body, Model>>
  {
    if e.collectionRoutes.Some? && e.collectionRoutes.value.customRoutes.Some?
       && operation in e.collectionRoutes.value.customRoutes.value
    then Some(e.collectionRoutes.value.customRoutes.value[operation])
    else None
  }

  /** The item handler registered for `operation`, read straight off the tables. */
  function ItemHandlerFor<Req, Body, Id, Model>(
    e: Endpoint<Req, Body, Id, Model>, operation: string): Option<ItemHandler<Req, Id, Body, Model>>
  {
    if e.itemRoutes.Some? && e.itemRoutes.value.customRoutes.Some?
       && operation in e.itemRoutes.value.customRoutes.value
    then Some(e.itemRoutes.value.customRoutes.value[operation])
    else None
  }

  /**
    The collection overload of `_getSingleModelTry`. A missing collection
    routes object is "not found"; a missing custom-route table or a missing
    entry (the null from `Map.get`, which `Optional.map` turns into empty) is
    "not allowed", tagged with `method`.
   */
  function DispatchCollection<Req, Body, Id, Model>(
    e: Endpoint<Req, Body, Id, Model>, operation: string, body: Body, verb: Method): (r: Traced<Model>)
    ensures r.trace <= CollectionStages
    ensures r.outcome.Success? ==> r.trace == CollectionStages
    ensures |r.trace| < |CollectionStages| ==> r.outcome.Failure?
  {
    Begin(FetchRoutes, FromOptional(e.collectionRoutes, NotFound(e.name)))
      .Then(LookupHandler,
            (routes: CollectionRoutes<Req, Body, Model>) =>
              FromOptional(routes.customRoutes.FlatMap(table => Get(table, operation)),
                           NotAllowed(verb, e.name)))
      .Then(ApplyRequest, (handler: CollectionHandler<Req, Body, Model>) => Success(handler(e.request)))
      .Then(ApplyBody, (f: Body -> Try<Model>) => f(body))
  }

  /**
    The item overload of `_getSingleModelTry`. A missing item routes object
    is "not allowed" (not "not found"). The custom-route table is taken out
    with no exception of its own, so its absence is a `NoSuchElement`. An
    unknown operation is NOT turned into "not allowed": the null from
    `Map.get` is passed on, and applying it to the request fails with a
    `NullPointer`.
   */
  function DispatchItem<Req, Body, Id, Model>(
    e: Endpoint<Req, Body, Id, Model>, operation: string, id: string, body: Body, verb: Method): (r: Traced<Model>)
    ensures r.trace <= ItemStages
    ensures r.outcome.Success? ==> r.trace == ItemStages
    ensures |r.trace| < |ItemStages| ==> r.outcome.Failure?
  {
    Begin(FetchRoutes, FromOptional(e.itemRoutes, NotAllowed(verb, e.name)))
      .Then(LookupRouteMap,
            (routes: ItemRoutes<Req, Id, Body, Model>) => FromOptional(routes.customRoutes, NoSuchElement))
      .Then(LookupHandler,
            (table: map<string, ItemHandler<Req, Id, Body, Model>>) => Success(Get(table, operation)))
      .Then(ApplyRequest,
            (handler: Option<ItemHandler<Req, Id, Body, Model>>) =>
              match handler
              case None => Failure(NullPointer)
              case Some(h) => Success(h(e.request)))
      .Then(ResolveIdentifier,
            (f: Id -> Body -> Try<Model>) => e.identifierFunction(Path(e.name, id)).Map(f))
      .Then(ApplyBody, (f: Body -> Try<Model>) => f(body))
  }

  /** What the transport layer gets back: DELETE discards the `Try`. */
  datatype Exchange<Model> = Exchange(response: Option<Try<Model>>, trace: seq<Stage>)

  /**
    The eight verb entry points: `id` is `None` for the collection forms
    (`/{operation}/`) and `Some` for the item forms (`/{id}/{operation}/`).
   */
  function Handle<Req, Body, Id, Model>(
    e: Endpoint<Req, Body, Id, Model>, verb: Method, operation: string, id: Option<string>, body: Body)
    : (x: Exchange<Model>)
    ensures x.response.None? <==> verb == DELETE
    ensures x.trace == if id.None? then DispatchCollection(e, operation, body, verb).trace
                       else DispatchItem(e, operation, id.value, body, verb).trace
  {
    var r := match id
      case None => DispatchCollection(e, operation, body, verb)
      case Some(i) => DispatchItem(e, operation, i, body, verb);
    Exchange(if verb == DELETE then None else Some(r.outcome), r.trace)
  }

  // ---------------------------------------------------------------------
  // Collection dispatch

  /** No collection routes: "not found" for the resource, and no handler runs. */
  lemma CollectionWithoutRoutesIsNotFound<Req, Body, Id, Model>(
    e: Endpoint<Req, Body, Id, Model>, operation: string, body: Body, verb: Method)
    requires e.collectionRoutes.None?
    ensures DispatchCollection(e, operation, body, verb) == Traced(Failure(NotFound(e.name)), [FetchRoutes])
  {
  }

  /** Routes without a handler for `operation`: "not allowed", tagged with the method, and no handler runs. */
  lemma CollectionWithoutHandlerIsNotAllowed<Req, Body, Id, Model>(
    e: Endpoint<Req, Body, Id, Model>, operation: string, body: Body, verb: Method)
    requires e.collectionRoutes.Some?
    requires CollectionHandlerFor(e, operation).None?
    ensures DispatchCollection(e, operation, body, verb)
         == Traced(Failure(NotAllowed(verb, e.name)), [FetchRoutes, LookupHandler])
  {
  }

  /** With a handler, the result is exactly what the handler returns for the request and the body. */
  lemma CollectionHandlerResultUnchanged<Req, Body, Id, Model>(
    e: Endpoint<Req, Body, Id, Model>, operation: string, body: Body, verb: Method)
    requires CollectionHandlerFor(e, operation).Some?
    ensures DispatchCollection(e, operation, body, verb)
         == Traced(CollectionHandlerFor(e, operation).value(e.request)(body), CollectionStages)
  {
  }

  /** The handler runs if and only if one is registered for `operation`. */
  lemma CollectionHandlerRunsIff<Req, Body, Id, Model>(
    e: Endpoint<Req, Body, Id, Model>, operation: string, body: Body, verb: Method)
    ensures ApplyRequest in DispatchCollection(e, operation, body, verb).trace
        <==> CollectionHandlerFor(e, operation).Some?
  {
  }

  // ---------------------------------------------------------------------
  // Item dispatch

  /** No item routes: "not allowed", never "not found", and no handler runs. */
  lemma ItemWithoutRoutesIsNotAllowed<Req, Body, Id, Model>(
    e: Endpoint<Req, Body, Id, Model>, operation: string, id: string, body: Body, verb: Method)
    requires e.itemRoutes.None?
    ensures DispatchItem(e, operation, id, body, verb) == Traced(Failure(NotAllowed(verb, e.name)), [FetchRoutes])
  {
  }

  /** The same missing resource is "not found" on the collection path and "not allowed" on the item path. */
  lemma MissingRoutesAsymmetry<Req, Body, Id, Model>(
    e: Endpoint<Req, Body, Id, Model>, operation: string, id: string, body: Body, verb: Method)
    requires e.collectionRoutes.None? && e.itemRoutes.None?
    ensures DispatchCollection(e, operation, body, verb).outcome == Failure(NotFound(e.name))
    ensures DispatchItem(e, operation, id, body, verb).outcome == Failure(NotAllowed(verb, e.name))
  {
  }

  /** Item routes without a custom-route table: the empty optional fails with `NoSuchElement`. */
  lemma ItemWithoutRouteMapIsNoSuchElement<Req, Body, Id, Model>(
    e: Endpoint<Req, Body, Id, Model>, operation: string, id: string, body: Body, verb: Method)
    requires e.itemRoutes.Some? && e.itemRoutes.value.customRoutes.None?
    ensures DispatchItem(e, operation, id, body, verb)
         == Traced(Failure(NoSuchElement), [FetchRoutes, LookupRouteMap])
  {
  }

  /**
    An operation missing from an existing item table is not reported as
    "not allowed": the null handler is applied to the request and the
    dispatch fails with a `NullPointer`, before any identifier is resolved.
   */
  lemma ItemUnknownOperationIsNullPointer<Req, Body, Id, Model>(
    e: Endpoint<Req, Body, Id, Model>, operation: string, id: string, body: Body, verb: Method)
    requires e.itemRoutes.Some? && e.itemRoutes.value.customRoutes.Some?
    requires operation !in e.itemRoutes.value.customRoutes.value
    ensures DispatchItem(e, operation, id, body, verb)
         == Traced(Failure(NullPointer), [FetchRoutes, LookupRouteMap, LookupHandler, ApplyRequest])
  {
  }

  /** An identifier that cannot be resolved fails the dispatch with that exception, before the body is handed over. */
  lemma ItemIdentifierFailurePropagates<Req, Body, Id, Model>(
    e: Endpoint<Req, Body, Id, Model>, operation: string, id: string, body: Body, verb: Method)
    requires ItemHandlerFor(e, operation).Some?
    requires e.identifierFunction(Path(e.name, id)).Failure?
    ensures DispatchItem(e, operation, id, body, verb)
         == Traced(Failure(e.identifierFunction(Path(e.name, id)).exception), ItemStages[..5])
  {
  }

  /**
    With a handler and a resolvable identifier, the result is exactly the
    handler's for the request, the identifier the endpoint's identifier
    function gives for `Path(name, id)`, and the body.
   */
  lemma ItemHandlerResultUnchanged<Req, Body, Id, Model>(
    e: Endpoint<Req, Body, Id, Model>, operation: string, id: string, body: Body, verb: Method)
    requires ItemHandlerFor(e, operation).Some?
    requires e.identifierFunction(Path(e.name, id)).Success?
    ensures DispatchItem(e, operation, id, body, verb)
         == Traced(ItemHandlerFor(e, operation).value(e.request)(e.identifierFunction(Path(e.name, id)).value)(body),
                   ItemStages)
  {
  }

  // ---------------------------------------------------------------------
  // The method only tags failures

  /**
    The HTTP method never selects a handler: for any two methods both
    dispatches enter the same stages, and their outcomes are equal unless
    both are the dispatcher's own "not allowed", each tagged with its method.
   */
  lemma MethodOnlyTagsNotAllowed<Req, Body, Id, Model>(
    e: Endpoint<Req, Body, Id, Model>, operation: string, id: string, body: Body, m1: Method, m2: Method)
    ensures var c1, c2 := DispatchCollection(e, operation, body, m1), DispatchCollection(e, operation, body, m2);
      && c1.trace == c2.trace
      && (c1.outcome == c2.outcome
          || (c1.outcome == Failure(NotAllowed(m1, e.name)) && c2.outcome == Failure(NotAllowed(m2, e.name))))
    ensures var i1, i2 := DispatchItem(e, operation, id, body, m1), DispatchItem(e, operation, id, body, m2);
      && i1.trace == i2.trace
      && (i1.outcome == i2.outcome
          || (i1.outcome == Failure(NotAllowed(m1, e.name)) && i2.outcome == Failure(NotAllowed(m2, e.name))))
  {
  }

  /**
    The verb entry points: every verb, DELETE included, runs the dispatch
    pipeline and enters the same stages for the same request, and every
    verb but DELETE returns the dispatch's outcome.
   */
  lemma EntryPointsDelegate<Req, Body, Id, Model>(
    e: Endpoint<Req, Body, Id, Model>, operation: string, id: Option<string>, body: Body, verb: Method)
    ensures Handle(e, verb, operation, id, body).trace == Handle(e, DELETE, operation, id, body).trace
    ensures id.None? ==> Handle(e, DELETE, operation, id, body).trace == DispatchCollection(e, operation, body, DELETE).trace
    ensures id.Some? ==> Handle(e, DELETE, operation, id, body).trace == DispatchItem(e, operation, id.value, body, DELETE).trace
    ensures verb != DELETE && id.None? ==>
      Handle(e, verb, operation, id, body).response == Some(DispatchCollection(e, operation, body, verb).outcome)
    ensures verb != DELETE && id.Some? ==>
      Handle(e, verb, operation, id, body).response == Some(DispatchItem(e, operation, id.value, body, verb).outcome)
  {
  }
}
