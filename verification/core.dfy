/**
  Shared vocabulary of the apio architect dispatch core: the HTTP methods a
  custom operation can be reached by, classes identified by name, structural
  paths, operations, the exceptions that travel through a `Try`, and the
  `Option`/`Try` datatypes that stand in for `java.util.Optional` and apio's
  own `Try`.
 */
module Core {

  /** The HTTP methods the custom-operation endpoint answers to. */
  datatype Method = GET | POST | PUT | DELETE

  /** A Java class, known to the managers only by its name. */
  datatype Class = Class(name: string)

  /** A structural path: the resource name and the raw identifier string. */
  datatype Path = Path(name: string, id: string)

  /** An operation a resource exposes, as listed for affordance discovery. */
  datatype Operation = Operation(name: string, verb: Method)

  /** The exceptions a `Try` can carry on the paths modelled here. */
  datatype Exception =
    | NotFound(resource: string)                  // built by the notFound supplier
    | NotAllowed(verb: Method, resource: string) // built by the notAllowed supplier
    | NoSuchElement                               // an empty Optional with no supplier of its own
    | NullPointer                                 // a method called on a null reference
    | MustHaveValidGenericType(clazz: Class)      // developer error: no name or type for a class
    | MustHavePathIdentifierMapper(clazz: Class)  // developer error: no path mapper for a class
    | Raised(reason: string)                      // any other exception, e.g. from a handler

  /** `java.util.Optional`: `None` also stands for a null reference. */
  datatype Option<+T> = None | Some(value: T) {

    /** `Optional.map`, for a function that never returns null. */
    function Map<U>(f: T -> U): (r: Option<U>)
      ensures r.Some? <==> Some?
    {
      match this
      case None => None
      case Some(v) => Some(f(v))
    }

    /** `Optional.flatMap`; also `Optional.map` for a function that may return null. */
    function FlatMap<U>(f: T -> Option<U>): (r: Option<U>)
      ensures r.Some? ==> Some?
    {
      match this
      case None => None
      case Some(v) => f(v)
    }

    /** `Optional.orElse`. */
    function OrElse(default: T): T
    {
      match this
      case None => default
      case Some(v) => v
    }
  }

  /** `Map.get`: the value stored under `k`, or null (`None`) when there is none. */
  function Get<K, V>(m: map<K, V>, k: K): (r: Option<V>)
    ensures r.Some? <==> k in m
    ensures r.Some? ==> r.value == m[k]
  {
    if k in m then Some(m[k]) else None
  }

  /**
    apio's `Try`: a computation that produced a value or caught an exception.
    Every combinator leaves a failure untouched, which is what makes a chain
    of them stop at the first failure.
   */
  datatype Try<+T> = Success(value: T) | Failure(exception: Exception) {

    /** `Try.map` for a function that cannot throw. */
    function Map<U>(f: T -> U): (r: Try<U>)
      ensures r.Success? <==> Success?
      ensures Failure? ==> r.exception == exception
    {
      match this
      case Failure(e) => Failure(e)
      case Success(v) => Success(f(v))
    }

    /** `Try.flatMap`; also `Try.map` for a function that may throw. */
    function FlatMap<U>(f: T -> Try<U>): (r: Try<U>)
      ensures Failure? ==> r == Failure(exception)
    {
      match this
      case Failure(e) => Failure(e)
      case Success(v) => f(v)
    }

    /** `Try.mapOptional`: an empty result becomes a failure with `absent`. */
    function MapOptional<U>(f: T -> Option<U>, absent: Exception): (r: Try<U>)
      ensures Failure? ==> r == Failure(exception)
      ensures Success? && f(value).None? ==> r == Failure(absent)
    {
      FlatMap(v => FromOptional(f(v), absent))
    }
  }

  /** `Try.fromOptional` and `Optional.orElseThrow`: an empty optional becomes a failure with `absent`. */
  function FromOptional<T>(o: Option<T>, absent: Exception): (r: Try<T>)
    ensures r.Success? <==> o.Some?
    ensures r.Success? ==> r.value == o.value
    ensures r.Failure? ==> r.exception == absent
  {
    match o
    case None => Failure(absent)
    case Some(v) => Success(v)
  }
}
