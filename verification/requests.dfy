/** What the raw client hands to the execution layer: one request
    descriptor per operation kind, the retry policy, and the shared RPC
    handle the request is executed on. */
module Requests {
  import opened Types

  /** The retry policies of the request layer. The raw client only ever
      picks `DefaultOptimistic`. */
  datatype RetryOptions = DefaultOptimistic | DefaultPessimistic

  /** One variant per raw operation, carrying the caller's arguments and
      the column family the request is scoped to. */
  datatype Request =
    | RawGet(key: Key, cf: Option<ColumnFamily>)
    | RawBatchGet(keys: seq<Key>, cf: Option<ColumnFamily>)
    | RawPut(key: Key, value: Value, cf: Option<ColumnFamily>)
    | RawBatchPut(pairs: seq<KvPair>, cf: Option<ColumnFamily>)
    | RawUpdate(key: Key, value: Value, cf: Option<ColumnFamily>)
    | RawBatchUpdate(pairs: seq<KvPair>, cf: Option<ColumnFamily>)
    | RawDelete(key: Key, cf: Option<ColumnFamily>)
    | RawBatchDelete(keys: seq<Key>, cf: Option<ColumnFamily>)
    | RawDeleteRange(range: BoundRange, cf: Option<ColumnFamily>)
    | RawScan(range: BoundRange, limit: uint32, keyOnly: bool, cf: Option<ColumnFamily>)
    | RawBatchScan(ranges: seq<BoundRange>, eachLimit: uint32, keyOnly: bool, cf: Option<ColumnFamily>)

  /** `req` with its column family replaced by `cf` and every argument kept. */
  function Rescope(req: Request, cf: Option<ColumnFamily>): (r: Request)
    ensures r.cf == cf
  {
    match req
    case RawGet(key, _) => RawGet(key, cf)
    case RawBatchGet(keys, _) => RawBatchGet(keys, cf)
    case RawPut(key, value, _) => RawPut(key, value, cf)
    case RawBatchPut(pairs, _) => RawBatchPut(pairs, cf)
    case RawUpdate(key, value, _) => RawUpdate(key, value, cf)
    case RawBatchUpdate(pairs, _) => RawBatchUpdate(pairs, cf)
    case RawDelete(key, _) => RawDelete(key, cf)
    case RawBatchDelete(keys, _) => RawBatchDelete(keys, cf)
    case RawDeleteRange(range, _) => RawDeleteRange(range, cf)
    case RawScan(range, limit, keyOnly, _) => RawScan(range, limit, keyOnly, cf)
    case RawBatchScan(ranges, eachLimit, keyOnly, _) => RawBatchScan(ranges, eachLimit, keyOnly, cf)
  }

  /** Identity of a shared, reference-counted placement-driver RPC client.
      Cloning the `Arc` copies this identity; it never copies cluster state. */
  datatype RpcHandle = RpcHandle(id: nat)

  /** One call into the execution layer: `request.execute(rpc, retry)`. */
  datatype Dispatch = Dispatch(request: Request, rpc: RpcHandle, retry: RetryOptions)
}
