/** Values the raw client passes through without looking inside them:
    keys, values, key-value pairs, ranges, column families, errors and
    results. Their orderings and bound semantics belong to the store, so
    only their shape is modelled here. */
module Types {

  /** One byte of a key or value. */
  newtype uint8 = x: int | 0 <= x < 0x100

  /** Rust's `u32`, the type of scan limits. */
  type uint32 = x: int | 0 <= x < 0x1_0000_0000

  /** An opaque key. */
  datatype Key = Key(bytes: seq<uint8>)

  /** An opaque value. */
  datatype Value = Value(bytes: seq<uint8>)

  /** An owned (key, value) pair; `IntoKey` drops the value. */
  datatype KvPair = KvPair(key: Key, value: Value) {
    function IntoKey(): (k: Key)
      ensures KvPair(k, value) == this
    {
      key
    }
  }

  /** One end of a range: inclusive, exclusive or absent. */
  datatype Bound = Included(at: Key) | Excluded(at: Key) | Unbounded

  /** A key range as a (start, end) pair of bounds. */
  datatype BoundRange = BoundRange(start: Bound, end: Bound)

  /** The column families a request can be scoped to. */
  datatype ColumnFamily = Default | Lock | Write

  datatype Option<+T> = None | Some(value: T)

  /** Errors surfaced by the raw client. `MaxScanLimitExceeded` is the only
      one raised locally; everything else comes from the execution layer and
      is carried as an opaque description. */
  datatype Error =
    | MaxScanLimitExceeded(limit: uint32, maxLimit: uint32)
    | Execution(detail: string)

  /** Rust's `Result<T>` with the crate's error type. */
  datatype Result<+T> = Ok(value: T) | Err(error: Error) {

    /** Applies `f` to a success and passes an error through unchanged. */
    function Map<U>(f: T -> U): (r: Result<U>)
      ensures r.Ok? <==> Ok?
      ensures Ok? ==> r.value == f(value)
      ensures Err? ==> r.error == error
    {
      match this
      case Ok(v) => Ok(f(v))
      case Err(e) => Err(e)
    }
  }
}
