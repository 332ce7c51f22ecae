/**
  `ItemRouterManagerImpl`: finding the item routes of a resource, and
  building the item routes of a router from the generic types it declares.

  The collaborating managers are snapshots of partial maps:
  the identifier class of each resource name (`IdentifierClassManager`),
  the resource name of each identifier class name (`NameManager`) and the
  path mapper of each identifier class (`PathIdentifierMapperManager`).
  The routes the manager tracks are a map from identifier class name to
  item routes.
 */
module ItemRouterManager {
  import opened Core
  import opened Routes

  /** The builder handed to a router: bound model class, resource name and identifier function. */
  datatype Builder<Id> = Builder(modelClass: Class, name: string, identifierFunction: Path -> Try<Id>)

  /** A router: turns a builder into the item routes it declares. */
  type ItemRouter<!Req, !Id, !Body, Model> = Builder<Id> -> ItemRoutes<Req, Id, Body, Model>

  /** The collaborating managers, as partial maps. */
  datatype Managers<!Id> = Managers(
    identifierClasses: map<string, Class>,     // resource name -> identifier class
    names: map<string, string>,                // identifier class name -> resource name
    pathMappers: map<Class, Path -> Try<Id>>)  // identifier class -> path mapper

  /** The tracked item routes, keyed by identifier class name. */
  type Services<!Req, !Id, !Body, Model> = map<string, ItemRoutes<Req, Id, Body, Model>>

  // ---------------------------------------------------------------------
  // Lookups

  /**
    `getItemRoutesOptional`: the resource name gives the identifier class,
    whose NAME is the key of the tracked routes.
   */
  function GetItemRoutesOptional<Req, Id, Body, Model>(
    m: Managers<Id>, services: Services<Req, Id, Body, Model>, name: string)
    : (r: Option<ItemRoutes<Req, Id, Body, Model>>)
    ensures name !in m.identifierClasses ==> r.None?
    ensures name in m.identifierClasses ==>
      (r.Some? <==> m.identifierClasses[name].name in services)
    ensures r.Some? ==> r.value == services[m.identifierClasses[name].name]
  {
    Get(m.identifierClasses, name)
      .Map((c: Class) => c.name)
      .FlatMap((key: string) => Get(services, key))
  }

  /** `getOperations`: the operations of the resource's item routes, or none at all; it never fails. */
  function GetOperations<Req, Id, Body, Model>(
    m: Managers<Id>, services: Services<Req, Id, Body, Model>, name: string): (ops: seq<Operation>)
    ensures name in m.identifierClasses && m.identifierClasses[name].name in services ==>
      ops == services[m.identifierClasses[name].name].operations
    ensures !(name in m.identifierClasses && m.identifierClasses[name].name in services) ==> ops == []
  {
    GetItemRoutesOptional(m, services, name)
      .Map((routes: ItemRoutes<Req, Id, Body, Model>) => routes.operations)
      .OrElse([])
  }

  /** Two resource names bound to classes of the same name see the same item routes. */
  lemma LookupIsByClassName<Req, Id, Body, Model>(
    m: Managers<Id>, services: Services<Req, Id, Body, Model>, n1: string, n2: string)
    requires n1 in m.identifierClasses && n2 in m.identifierClasses
    requires m.identifierClasses[n1].name == m.identifierClasses[n2].name
    ensures GetItemRoutesOptional(m, services, n1) == GetItemRoutesOptional(m, services, n2)
    ensures GetOperations(m, services, n1) == GetOperations(m, services, n2)
  {
  }

  // ---------------------------------------------------------------------
  // Building the routes of one router

  /**
    `getGenericClassFromPropertyOrElse(…, MODEL_CLASS, …)`: the class in the
    `MODEL_CLASS` property wins; only without it does the introspected type
    parameter (`typeParam`, which may have failed) decide.
   */
  function ModelClass(property: Option<Class>, typeParam: Try<Class>): (r: Try<Class>)
    ensures property.Some? ==> r == Success(property.value)
    ensures property.None? ==> r == typeParam
  {
    match property
    case Some(c) => Success(c)
    case None => typeParam
  }

  /**
    The identifier function bound into the builder: the path mapper of the
    identifier class, or a `MustHavePathIdentifierMapper` failure when there
    is none.
   */
  function IdentifierFunction<Id>(pathMappers: map<Class, Path -> Try<Id>>, identifierClass: Class)
    : (f: Path -> Try<Id>)
    ensures identifierClass in pathMappers ==> forall p :: f(p) == pathMappers[identifierClass](p)
    ensures identifierClass !in pathMappers ==>
      forall p :: f(p) == Failure(MustHavePathIdentifierMapper(identifierClass))
  {
    (path: Path) =>
      FromOptional(Get(pathMappers, identifierClass), MustHavePathIdentifierMapper(identifierClass))
        .FlatMap((mapper: Path -> Try<Id>) => mapper(path))
  }

  /**
    The builder of `_getItemRoutes`: it needs a resource name for the
    identifier class's name, and fails with `MustHaveValidGenericType` of
    that class otherwise.
   */
  function NewBuilder<Id>(m: Managers<Id>, modelClass: Class, identifierClass: Class): (r: Try<Builder<Id>>)
    ensures r.Success? <==> identifierClass.name in m.names
    ensures r.Failure? ==> r.exception == MustHaveValidGenericType(identifierClass)
    ensures r.Success? ==> r.value.modelClass == modelClass
    ensures r.Success? ==> r.value.name == m.names[identifierClass.name]
    ensures r.Success? ==> r.value.identifierFunction == IdentifierFunction(m.pathMappers, identifierClass)
  {
    FromOptional(Get(m.names, identifierClass.name), MustHaveValidGenericType(identifierClass))
      .Map((name: string) => Builder(modelClass, name, IdentifierFunction(m.pathMappers, identifierClass)))
  }

  /**
    `map` followed by `_getItemRoutes`: the routes the router declares for a
    builder bound to its model class, the resource name of its identifier
    class, and that class's identifier function.
   */
  function MapRouter<Req, Id, Body, Model>(
    m: Managers<Id>, router: ItemRouter<Req, Id, Body, Model>,
    modelClassProperty: Option<Class>, typeParam: Try<Class>, identifierClass: Class)
    : (r: Try<ItemRoutes<Req, Id, Body, Model>>)
    ensures ModelClass(modelClassProperty, typeParam).Failure? ==>
      r == Failure(ModelClass(modelClassProperty, typeParam).exception)
    ensures ModelClass(modelClassProperty, typeParam).Success? && identifierClass.name !in m.names ==>
      r == Failure(MustHaveValidGenericType(identifierClass))
    ensures ModelClass(modelClassProperty, typeParam).Success? && identifierClass.name in m.names ==>
      r == Success(router(Builder(ModelClass(modelClassProperty, typeParam).value,
                                  m.names[identifierClass.name],
                                  IdentifierFunction(m.pathMappers, identifierClass))))
  {
    ModelClass(modelClassProperty, typeParam)
      .FlatMap((modelClass: Class) => NewBuilder(m, modelClass, identifierClass).Map(router))
  }

  /**
    With a `MODEL_CLASS` property the introspected type parameter, even a
    failed one, cannot change what `map` builds; without it, a failed
    introspection is the failure of the whole mapping.
   */
  lemma ModelClassPropertyWins<Req, Id, Body, Model>(
    m: Managers<Id>, router: ItemRouter<Req, Id, Body, Model>,
    property: Option<Class>, t1: Try<Class>, t2: Try<Class>, identifierClass: Class)
    ensures property.Some? ==>
      MapRouter(m, router, property, t1, identifierClass) == MapRouter(m, router, property, t2, identifierClass)
    ensures property.None? && t1.Failure? ==>
      MapRouter(m, router, property, t1, identifierClass) == Failure(t1.exception)
  {
  }

  // ---------------------------------------------------------------------
  // Tracking routers as they come and go

  /** A router service as it arrives: the router, its `MODEL_CLASS` property, its introspected type parameter, and its identifier class. */
  datatype Registration<!Req, !Id, !Body, Model> = Registration(
    router: ItemRouter<Req, Id, Body, Model>,
    modelClassProperty: Option<Class>,
    typeParam: Try<Class>,
    identifierClass: Class)

  /** A router appearing or disappearing. */
  datatype Event<!Req, !Id, !Body, Model> =
    | Added(registration: Registration<Req, Id, Body, Model>)
    | Removed(identifierClass: Class)

  /** The routes one registration contributes, if its mapping succeeds. */
  function Mapped<Req, Id, Body, Model>(m: Managers<Id>, reg: Registration<Req, Id, Body, Model>)
    : Try<ItemRoutes<Req, Id, Body, Model>>
  {
    MapRouter(m, reg.router, reg.modelClassProperty, reg.typeParam, reg.identifierClass)
  }

  /**
    One event: a router whose mapping succeeds is stored under its
    identifier class's name, replacing what was there; one whose mapping
    fails changes nothing; a removal drops the entry.
   */
  function Apply<Req, Id, Body, Model>(
    m: Managers<Id>, services: Services<Req, Id, Body, Model>, event: Event<Req, Id, Body, Model>)
    : (s: Services<Req, Id, Body, Model>)
    ensures event.Added? ==> s.Keys <= services.Keys + {event.registration.identifierClass.name}
    ensures event.Removed? ==> s.Keys == services.Keys - {event.identifierClass.name}
  {
    match event
    case Added(reg) =>
      (match Mapped(m, reg)
       case Success(routes) => services[reg.identifierClass.name := routes]
       case Failure(_) => services)
    case Removed(c) => services - {c.name}
  }

  /** The tracked routes after a sequence of events, applied in order. */
  function Track<Req, Id, Body, Model>(
    m: Managers<Id>, services: Services<Req, Id, Body, Model>, events: seq<Event<Req, Id, Body, Model>>)
    : (s: Services<Req, Id, Body, Model>)
    decreases |events|
  {
    if events == [] then services else Track(m, Apply(m, services, events[0]), events[1..])
  }

  /** The identifier class name an event is about. */
  function KeyOf<Req, Id, Body, Model>(event: Event<Req, Id, Body, Model>): string
  {
    match event
    case Added(reg) => reg.identifierClass.name
    case Removed(c) => c.name
  }

  /** Whether an event decides the entry under `key`: a removal, or an addition whose mapping succeeds. */
  predicate Decides<Req, Id, Body, Model>(m: Managers<Id>, event: Event<Req, Id, Body, Model>, key: string)
  {
    KeyOf(event) == key && (event.Removed? || Mapped(m, event.registration).Success?)
  }

  /**
    Reference definition of the entry under `key`: the LAST event that
    decides it, read from the end; the initial entry when none does.
   */
  function Latest<Req, Id, Body, Model>(
    m: Managers<Id>, services: Services<Req, Id, Body, Model>,
    events: seq<Event<Req, Id, Body, Model>>, key: string)
    : Option<ItemRoutes<Req, Id, Body, Model>>
    decreases |events|
  {
    if events == [] then Get(services, key)
    else
      var last := events[|events| - 1];
      if Decides(m, last, key) then
        (if last.Removed? then None else Some(Mapped(m, last.registration).value))
      else Latest(m, services, events[..|events| - 1], key)
  }

  /** Tracking a sequence and then one more event is applying that event to the result. */
  lemma {:induction false} TrackSnoc<Req, Id, Body, Model>(
    m: Managers<Id>, services: Services<Req, Id, Body, Model>,
    events: seq<Event<Req, Id, Body, Model>>, event: Event<Req, Id, Body, Model>)
    ensures Track(m, services, events + [event]) == Apply(m, Track(m, services, events), event)
    decreases |events|
  {
    if events == [] {
      assert [] + [event] == [event];
      assert Track(m, Apply(m, services, event), []) == Apply(m, services, event);
    } else {
      assert (events + [event])[1..] == events[1..] + [event];
      TrackSnoc(m, Apply(m, services, events[0]), events[1..], event);
    }
  }

  /**
    Last write wins: after any sequence of events, the routes under a class
    name are those of the last event that decides that name; a router whose
    mapping fails, and every event about another class, leave it alone.
   */
  lemma {:induction false} TrackIsLatest<Req, Id, Body, Model>(
    m: Managers<Id>, services: Services<Req, Id, Body, Model>,
    events: seq<Event<Req, Id, Body, Model>>, key: string)
    ensures Get(Track(m, services, events), key) == Latest(m, services, events, key)
    decreases |events|
  {
    if events == [] {
    } else {
      var init, last := events[..|events| - 1], events[|events| - 1];
      assert events == init + [last];
      TrackSnoc(m, services, init, last);
      TrackIsLatest(m, services, init, key);
    }
  }

  /** A router whose mapping fails is not tracked: the routes of every resource stay as they were. */
  lemma {:induction false} FailedRegistrationChangesNothing<Req, Id, Body, Model>(
    m: Managers<Id>, services: Services<Req, Id, Body, Model>,
    events: seq<Event<Req, Id, Body, Model>>, reg: Registration<Req, Id, Body, Model>)
    requires Mapped(m, reg).Failure?
    ensures Track(m, services, events + [Added(reg)]) == Track(m, services, events)
  {
    TrackSnoc(m, services, events, Added(reg));
  }

  /** Registering the same router twice in a row leaves the same routes as registering it once. */
  lemma {:induction false} RegistrationIsIdempotent<Req, Id, Body, Model>(
    m: Managers<Id>, services: Services<Req, Id, Body, Model>,
    events: seq<Event<Req, Id, Body, Model>>, reg: Registration<Req, Id, Body, Model>)
    ensures Track(m, services, events + [Added(reg), Added(reg)]) == Track(m, services, events + [Added(reg)])
  {
    var before := Track(m, services, events);
    assert events + [Added(reg), Added(reg)] == (events + [Added(reg)]) + [Added(reg)];
    TrackSnoc(m, services, events + [Added(reg)], Added(reg));
    TrackSnoc(m, services, events, Added(reg));
  }

  /**
    After a router is registered successfully, every resource whose
    identifier class has that router's class name finds the new routes, and
    every other resource finds what it found before.
   */
  lemma {:induction false} RegistrationVisibleByClassName<Req, Id, Body, Model>(
    m: Managers<Id>, services: Services<Req, Id, Body, Model>,
    events: seq<Event<Req, Id, Body, Model>>, reg: Registration<Req, Id, Body, Model>, name: string)
    requires Mapped(m, reg).Success?
    ensures var after := Track(m, services, events + [Added(reg)]);
      && (name in m.identifierClasses && m.identifierClasses[name].name == reg.identifierClass.name ==>
            GetItemRoutesOptional(m, after, name) == Some(Mapped(m, reg).value))
      && (!(name in m.identifierClasses && m.identifierClasses[name].name == reg.identifierClass.name) ==>
            GetItemRoutesOptional(m, after, name) == GetItemRoutesOptional(m, Track(m, services, events), name))
  {
    TrackSnoc(m, services, events, Added(reg));
  }
}
