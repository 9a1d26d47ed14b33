/**
 * The Python values and exceptions that cross the server's RPC boundary,
 * and the two opaque collaborators that produce and encode them:
 * `lazy_fns.maybe_make` and the pickler.
 */
module PyValues {
  import opened Wrappers

  /** A serialized blob, as the pickler produces it. */
  type Bytes = seq<bv8>

  /** The exception classes the server raises or inspects. */
  datatype ExcKind =
    | AssertionError
    | TypeError
    | ValueError
    | RuntimeError
    | IndexError
    | StopIteration
      /** Any other subclass of `Exception`. */
    | OtherException(name: string)
      /** A `BaseException` that is not an `Exception` (KeyboardInterrupt, SystemExit, ...). */
    | OtherBaseException(name: string)

  /** An exception instance: its class and its positional `args`. */
  datatype Exc = Exc(kind: ExcKind, args: seq<Value>)

  /** The application values the model distinguishes. */
  datatype Value =
    | NoneValue
    | Int(n: int)
    | Str(s: string)
    | List(items: seq<Value>)
      /** An exception object used as a plain value. */
    | ExcValue(exc: Exc)
      /** Any other object; `iterable` says whether it implements `__iter__`. */
    | Opaque(id: nat, iterable: bool)

  /** `isinstance(v, collections.abc.Iterable)`. */
  predicate IsIterable(v: Value) {
    match v
    case Str(_) => true
    case List(_) => true
    case Opaque(_, iterable) => iterable
    case _ => false
  }

  /** Whether `except Exception` catches `e`. */
  predicate IsException(e: Exc) {
    !e.kind.OtherBaseException?
  }

  /** `StopIteration(*returned)`. */
  function StopIterationOf(returned: seq<Value>): (e: Exc) {
    Exc(StopIteration, returned)
  }

  /** `lazy_fns.maybe_make`: computes the value a serialized lazy object stands for, or raises. */
  type Maker = Bytes -> Result<Value, Exc>

  /** `lazy_fns.pickler`: `dumps` encodes a value (raising `TypeError` on an unpicklable one), `loads` decodes. */
  datatype Pickler = Pickler(dumps: Value -> Result<Bytes, Exc>, loads: Bytes -> Result<Value, Exc>)

  /** The pickler decodes every blob it produced back to the value it encoded. */
  ghost predicate RoundTrips(p: Pickler) {
    forall v :: p.dumps(v).Success? ==> p.loads(p.dumps(v).value) == Success(v)
  }
}
