/** The raw (non-transactional) client handle: an optional column family
    plus a shared RPC handle. Every operation builds one request descriptor
    scoped to the handle's column family, hands it to the execution layer
    with the optimistic retry policy, and shapes the answer. The execution
    layer is the parameter `exec`; a `Call` records whether it was reached
    (`sent`) and what the caller gets back (`result`). */
module RawClient {
  import opened Types
  import opened Requests
  import opened Shaping

  /** The largest scan limit the client lets through. */
  const MaxRawKvScanLimit: uint32 := 10240

  datatype Client = Client(rpc: RpcHandle, cf: Option<ColumnFamily>)

  /** The observable effect of one operation: the dispatch made, if any,
      and the result returned to the caller. */
  datatype Call<T> = Call(sent: Option<Dispatch>, result: Result<T>)

  /** `r` is what `c` gets from handing `req` to the execution layer:
      exactly one dispatch, on `c`'s RPC handle, with the optimistic retry
      policy, and the delegate's answer returned untouched. */
  ghost predicate Forwarded<T>(c: Client, req: Request, exec: Dispatch -> Result<T>, r: Call<T>) {
    && r.sent == Some(Dispatch(req, c.rpc, DefaultOptimistic))
    && r.result == exec(r.sent.value)
  }

  /** The error a scan with limit `limit` over the cap fails with. */
  function LimitError(limit: uint32): (e: Error)
    ensures e.MaxScanLimitExceeded? && e.limit == limit && e.maxLimit == 10240
  {
    MaxScanLimitExceeded(limit, MaxRawKvScanLimit)
  }

  /** A freshly connected client. `connected` is the outcome of connecting
      to the placement driver; a connection failure is returned as is. */
  function NewWithConfig(connected: Result<RpcHandle>): (r: Result<Client>)
    ensures r.Ok? <==> connected.Ok?
    ensures r.Ok? ==> r.value.rpc == connected.value && r.value.cf == None
    ensures r.Err? ==> r.error == connected.error
  {
    match connected
    case Ok(rpc) => Ok(Client(rpc, None))
    case Err(e) => Err(e)
  }

  /** A new handle on the same RPC client, scoped to `cf`. The receiver is
      a value and is not affected. */
  function WithCf(c: Client, cf: ColumnFamily): (d: Client)
    ensures d.rpc == c.rpc
    ensures d.cf == Some(cf)
  {
    Client(c.rpc, Some(cf))
  }

  /** `request.execute(self.rpc.clone(), RetryOptions::default_optimistic())`. */
  function Execute<T>(c: Client, req: Request, exec: Dispatch -> Result<T>): (r: Call<T>)
    ensures Forwarded(c, req, exec, r)
  {
    var d := Dispatch(req, c.rpc, DefaultOptimistic);
    Call(Some(d), exec(d))
  }

  function Get(c: Client, key: Key, exec: Dispatch -> Result<Option<Value>>): (r: Call<Option<Value>>)
    ensures Forwarded(c, RawGet(key, c.cf), exec, r)
  {
    Execute(c, RawGet(key, c.cf), exec)
  }

  function BatchGet(c: Client, keys: seq<Key>, exec: Dispatch -> Result<seq<KvPair>>): (r: Call<seq<KvPair>>)
    ensures Forwarded(c, RawBatchGet(keys, c.cf), exec, r)
  {
    Execute(c, RawBatchGet(keys, c.cf), exec)
  }

  function Put(c: Client, key: Key, value: Value, exec: Dispatch -> Result<()>): (r: Call<()>)
    ensures Forwarded(c, RawPut(key, value, c.cf), exec, r)
  {
    Execute(c, RawPut(key, value, c.cf), exec)
  }

  function BatchPut(c: Client, pairs: seq<KvPair>, exec: Dispatch -> Result<()>): (r: Call<()>)
    ensures Forwarded(c, RawBatchPut(pairs, c.cf), exec, r)
  {
    Execute(c, RawBatchPut(pairs, c.cf), exec)
  }

  function Update(c: Client, key: Key, value: Value, exec: Dispatch -> Result<()>): (r: Call<()>)
    ensures Forwarded(c, RawUpdate(key, value, c.cf), exec, r)
  {
    Execute(c, RawUpdate(key, value, c.cf), exec)
  }

  function BatchUpdate(c: Client, pairs: seq<KvPair>, exec: Dispatch -> Result<()>): (r: Call<()>)
    ensures Forwarded(c, RawBatchUpdate(pairs, c.cf), exec, r)
  {
    Execute(c, RawBatchUpdate(pairs, c.cf), exec)
  }

  function Delete(c: Client, key: Key, exec: Dispatch -> Result<()>): (r: Call<()>)
    ensures Forwarded(c, RawDelete(key, c.cf), exec, r)
  {
    Execute(c, RawDelete(key, c.cf), exec)
  }

  function BatchDelete(c: Client, keys: seq<Key>, exec: Dispatch -> Result<()>): (r: Call<()>)
    ensures Forwarded(c, RawBatchDelete(keys, c.cf), exec, r)
  {
    Execute(c, RawBatchDelete(keys, c.cf), exec)
  }

  function DeleteRange(c: Client, range: BoundRange, exec: Dispatch -> Result<()>): (r: Call<()>)
    ensures Forwarded(c, RawDeleteRange(range, c.cf), exec, r)
  {
    Execute(c, RawDeleteRange(range, c.cf), exec)
  }

  /** What a scan promises: a limit above the cap is rejected before
      anything is dispatched; otherwise exactly one `RawScan` carrying the
      caller's arguments and the handle's column family is dispatched, a
      delegate error is passed through, and the delegate's pairs are cut
      down to `limit`, keeping their order. */
  ghost predicate ScanShaped(c: Client, range: BoundRange, limit: uint32, keyOnly: bool,
                             exec: Dispatch -> Result<seq<KvPair>>, r: Call<seq<KvPair>>) {
    && (r.sent.None? <==> limit > 10240)
    && (r.sent.None? ==> r.result == Err(MaxScanLimitExceeded(limit, 10240)))
    && (r.sent.Some? ==> r.sent.value == Dispatch(RawScan(range, limit, keyOnly, c.cf), c.rpc, DefaultOptimistic))
    && (r.sent.Some? && exec(r.sent.value).Err? ==> r.result == exec(r.sent.value))
    && (r.sent.Some? && exec(r.sent.value).Ok? ==>
          r.result.Ok? && CutTo(r.result.value, exec(r.sent.value).value, limit))
  }

  function ScanInner(c: Client, range: BoundRange, limit: uint32, keyOnly: bool,
                     exec: Dispatch -> Result<seq<KvPair>>): (r: Call<seq<KvPair>>)
    ensures ScanShaped(c, range, limit, keyOnly, exec, r)
  {
    if limit > MaxRawKvScanLimit then
      Call(None, Err(LimitError(limit)))
    else
      var call := Execute(c, RawScan(range, limit, keyOnly, c.cf), exec);
      call.(result := call.result.Map(s => Truncate(s, limit)))
  }

  /** What a batch scan promises: an `eachLimit` above the cap is rejected
      before anything is dispatched; otherwise exactly one `RawBatchScan` is
      dispatched and the delegate's answer is returned as is. No cut is
      made, so a success may hold more than `eachLimit` pairs per range. */
  ghost predicate BatchScanForwarded(c: Client, ranges: seq<BoundRange>, eachLimit: uint32, keyOnly: bool,
                                     exec: Dispatch -> Result<seq<KvPair>>, r: Call<seq<KvPair>>) {
    && (r.sent.None? <==> eachLimit > 10240)
    && (r.sent.None? ==> r.result == Err(MaxScanLimitExceeded(eachLimit, 10240)))
    && (r.sent.Some? ==> Forwarded(c, RawBatchScan(ranges, eachLimit, keyOnly, c.cf), exec, r))
  }

  function BatchScanInner(c: Client, ranges: seq<BoundRange>, eachLimit: uint32, keyOnly: bool,
                          exec: Dispatch -> Result<seq<KvPair>>): (r: Call<seq<KvPair>>)
    ensures BatchScanForwarded(c, ranges, eachLimit, keyOnly, exec, r)
  {
    if eachLimit > MaxRawKvScanLimit then
      Call(None, Err(LimitError(eachLimit)))
    else
      Execute(c, RawBatchScan(ranges, eachLimit, keyOnly, c.cf), exec)
  }

  /** `r` is the key-only projection of `inner`: the same dispatch, the
      same error, or the keys of the same pairs in the same order. */
  ghost predicate ProjectsKeys(r: Call<seq<Key>>, inner: Call<seq<KvPair>>) {
    && r.sent == inner.sent
    && (r.result.Ok? <==> inner.result.Ok?)
    && (r.result.Err? ==> r.result.error == inner.result.error)
    && (r.result.Ok? ==> KeysMatch(r.result.value, inner.result.value))
  }

  /** Applies `?` and `.into_iter().map(KvPair::into_key).collect()`. */
  function IntoKeys(inner: Call<seq<KvPair>>): (r: Call<seq<Key>>)
    ensures ProjectsKeys(r, inner)
  {
    Call(inner.sent, inner.result.Map(KeysOf))
  }

  function Scan(c: Client, range: BoundRange, limit: uint32, exec: Dispatch -> Result<seq<KvPair>>): (r: Call<seq<KvPair>>)
    ensures ScanShaped(c, range, limit, false, exec, r)
    ensures r.result.Ok? ==> |r.result.value| <= limit
  {
    ScanInner(c, range, limit, false, exec)
  }

  function ScanKeys(c: Client, range: BoundRange, limit: uint32, exec: Dispatch -> Result<seq<KvPair>>): (r: Call<seq<Key>>)
    ensures r.sent.Some? ==> r.sent.value.request == RawScan(range, limit, true, c.cf)
    ensures r.result.Ok? ==> |r.result.value| <= limit
    ensures ProjectsKeys(r, ScanInner(c, range, limit, true, exec))
  {
    IntoKeys(ScanInner(c, range, limit, true, exec))
  }

  function BatchScan(c: Client, ranges: seq<BoundRange>, eachLimit: uint32,
                     exec: Dispatch -> Result<seq<KvPair>>): (r: Call<seq<KvPair>>)
    ensures BatchScanForwarded(c, ranges, eachLimit, false, exec, r)
  {
    BatchScanInner(c, ranges, eachLimit, false, exec)
  }

  function BatchScanKeys(c: Client, ranges: seq<BoundRange>, eachLimit: uint32,
                         exec: Dispatch -> Result<seq<KvPair>>): (r: Call<seq<Key>>)
    ensures r.sent.Some? ==> r.sent.value.request == RawBatchScan(ranges, eachLimit, true, c.cf)
    ensures ProjectsKeys(r, BatchScanInner(c, ranges, eachLimit, true, exec))
  {
    IntoKeys(BatchScanInner(c, ranges, eachLimit, true, exec))
  }
}
