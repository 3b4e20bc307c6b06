/** Properties of the raw client that relate several calls: the scan cap
    and what it keeps from the delegate, the key-only variants as
    projections of the pair-returning ones, the batch scan's missing cut,
    and column-family derivation. */
module RawClientFacts {
  import opened Types
  import opened Requests
  import opened Shaping
  import opened RawClient

  /** A scan over the cap never consults the delegate: whatever the
      execution layer would have answered, the call is the same rejection. */
  lemma ScanOverCapIgnoresDelegate(c: Client, range: BoundRange, limit: uint32, keyOnly: bool,
                                   exec1: Dispatch -> Result<seq<KvPair>>, exec2: Dispatch -> Result<seq<KvPair>>)
    requires limit > MaxRawKvScanLimit
    ensures ScanInner(c, range, limit, keyOnly, exec1) == ScanInner(c, range, limit, keyOnly, exec2)
    ensures ScanInner(c, range, limit, keyOnly, exec1) == Call(None, Err(MaxScanLimitExceeded(limit, 10240)))
  {
  }

  /** The same holds of the batch scan's `each_limit`. */
  lemma BatchScanOverCapIgnoresDelegate(c: Client, ranges: seq<BoundRange>, eachLimit: uint32, keyOnly: bool,
                                        exec1: Dispatch -> Result<seq<KvPair>>, exec2: Dispatch -> Result<seq<KvPair>>)
    requires eachLimit > MaxRawKvScanLimit
    ensures BatchScanInner(c, ranges, eachLimit, keyOnly, exec1) == BatchScanInner(c, ranges, eachLimit, keyOnly, exec2)
    ensures BatchScanInner(c, ranges, eachLimit, keyOnly, exec1) == Call(None, Err(MaxScanLimitExceeded(eachLimit, 10240)))
  {
  }

  /** The cap is inclusive: a limit of exactly 10240 is dispatched. */
  lemma ScanAtCapIsDispatched(c: Client, range: BoundRange, keyOnly: bool, exec: Dispatch -> Result<seq<KvPair>>)
    ensures ScanInner(c, range, 10240, keyOnly, exec).sent == Some(Dispatch(RawScan(range, 10240, keyOnly, c.cf), c.rpc, DefaultOptimistic))
    ensures BatchScanInner(c, [range], 10240, keyOnly, exec).sent.Some?
  {
  }

  /** The over-cap error reaches `scan_keys` callers through `?`. */
  lemma ScanKeysOverCapIsRejected(c: Client, range: BoundRange, limit: uint32, exec: Dispatch -> Result<seq<KvPair>>)
    requires limit > MaxRawKvScanLimit
    ensures ScanKeys(c, range, limit, exec) == Call(None, Err(MaxScanLimitExceeded(limit, 10240)))
  {
  }

  /** Scanning everything with a limit of 20000 fails with
      `MaxScanLimitExceeded { limit: 20000, max_limit: 10240 }` and contacts
      nobody. */
  lemma ScanOfTwentyThousandIsRejected(c: Client, exec: Dispatch -> Result<seq<KvPair>>)
    ensures Scan(c, BoundRange(Unbounded, Unbounded), 20000, exec) == Call(None, Err(MaxScanLimitExceeded(20000, 10240)))
  {
  }

  /** When the delegate answers within the limit, the cut is a no-op and
      the caller gets the delegate's pairs unchanged. */
  lemma ScanKeepsShortAnswer(c: Client, range: BoundRange, limit: uint32, keyOnly: bool, pairs: seq<KvPair>)
    requires limit <= MaxRawKvScanLimit
    requires |pairs| <= limit
    ensures ScanInner(c, range, limit, keyOnly, _ => Ok(pairs)).result == Ok(pairs)
  {
    TruncateShortIsIdentity(pairs, limit);
  }

  /** Feeding a scan's own result back in as the delegate's answer changes
      nothing: the cut is idempotent. */
  lemma ScanCutIsIdempotent(c: Client, range: BoundRange, limit: uint32, keyOnly: bool, answer: Result<seq<KvPair>>)
    ensures var once := ScanInner(c, range, limit, keyOnly, _ => answer).result;
            ScanInner(c, range, limit, keyOnly, _ => once).result == once
  {
    if limit <= MaxRawKvScanLimit && answer.Ok? {
      TruncateIdempotent(answer.value, limit);
    }
  }

  /** `scan_keys` returns exactly the keys of what `scan` returns for the
      same delegate answer: the same error, or the keys of the same pairs
      in the same order. */
  lemma ScanKeysProjectsScan(c: Client, range: BoundRange, limit: uint32, answer: Result<seq<KvPair>>)
    ensures ScanKeys(c, range, limit, _ => answer).result == Scan(c, range, limit, _ => answer).result.Map(KeysOf)
  {
  }

  /** Within the cap, the keys `scan_keys` returns are the delegate's keys
      cut down to `limit`: projecting after cutting equals cutting after
      projecting. */
  lemma ScanKeysAreCutKeys(c: Client, range: BoundRange, limit: uint32, pairs: seq<KvPair>)
    requires limit <= MaxRawKvScanLimit
    ensures ScanKeys(c, range, limit, _ => Ok(pairs)).result == Ok(Truncate(KeysOf(pairs), limit))
  {
    KeysOfTruncate(pairs, limit);
  }

  /** A batch scan within the cap hands the delegate's answer back
      unchanged, with no cut. */
  lemma BatchScanPassesAnswerThrough(c: Client, ranges: seq<BoundRange>, eachLimit: uint32,
                                     answer: Result<seq<KvPair>>)
    requires eachLimit <= MaxRawKvScanLimit
    ensures BatchScan(c, ranges, eachLimit, _ => answer).result == answer
    ensures BatchScanKeys(c, ranges, eachLimit, _ => answer).result == answer.Map(KeysOf)
  {
  }

  /** Because nothing is cut, a batch scan of one range with an
      `each_limit` of 1 can return two pairs. */
  lemma BatchScanCanExceedEachLimit(c: Client, range: BoundRange, p: KvPair)
    ensures BatchScan(c, [range], 1, _ => Ok([p, p])).result == Ok([p, p])
    ensures |BatchScan(c, [range], 1, _ => Ok([p, p])).result.value| > 1
  {
  }

  /** Given the same two-pair answer and a limit of 1, a scan keeps only
      the first pair while a batch scan of that range keeps both. */
  lemma ScanCutsWhereBatchScanDoesNot(c: Client, range: BoundRange, p: KvPair, q: KvPair)
    ensures Scan(c, range, 1, _ => Ok([p, q])).result == Ok([p])
    ensures BatchScan(c, [range], 1, _ => Ok([p, q])).result == Ok([p, q])
  {
    assert Truncate([p, q], 1) == [p];
  }

  /** A derived handle shares the RPC client, and the last scope set wins. */
  lemma WithCfOverridesScope(c: Client, a: ColumnFamily, b: ColumnFamily)
    ensures WithCf(WithCf(c, a), b) == WithCf(c, b)
    ensures WithCf(WithCf(c, a), b).rpc == c.rpc
  {
  }

  /** `theirs` is the call `mine` with only the column family of its
      request replaced by `cf`: both dispatch or neither does, and a
      dispatch keeps its arguments, RPC handle and retry policy. */
  ghost predicate Rescoped<T>(theirs: Call<T>, mine: Call<T>, cf: ColumnFamily) {
    && (theirs.sent.Some? <==> mine.sent.Some?)
    && (theirs.sent.Some? && mine.sent.Some? ==>
          theirs.sent.value == mine.sent.value.(request := Rescope(mine.sent.value.request, Some(cf))))
  }

  /** Every dispatch of `r` is scoped to `cf`. */
  ghost predicate SentUnder<T>(r: Call<T>, cf: Option<ColumnFamily>) {
    r.sent.Some? ==> r.sent.value.request.cf == cf
  }

  /** Point and batch requests from a derived handle are the receiver's
      requests with only the column family replaced, sent to the same RPC
      client with the same retry policy. */
  lemma WithCfOnlyRescopesRequests(c: Client, cf: ColumnFamily, key: Key, value: Value, keys: seq<Key>,
                                   pairs: seq<KvPair>, range: BoundRange,
                                   execValue: Dispatch -> Result<Option<Value>>,
                                   execPairs: Dispatch -> Result<seq<KvPair>>,
                                   execUnit: Dispatch -> Result<()>)
    ensures Rescoped(Get(WithCf(c, cf), key, execValue), Get(c, key, execValue), cf)
    ensures Rescoped(BatchGet(WithCf(c, cf), keys, execPairs), BatchGet(c, keys, execPairs), cf)
    ensures Rescoped(Put(WithCf(c, cf), key, value, execUnit), Put(c, key, value, execUnit), cf)
    ensures Rescoped(BatchPut(WithCf(c, cf), pairs, execUnit), BatchPut(c, pairs, execUnit), cf)
    ensures Rescoped(Update(WithCf(c, cf), key, value, execUnit), Update(c, key, value, execUnit), cf)
    ensures Rescoped(BatchUpdate(WithCf(c, cf), pairs, execUnit), BatchUpdate(c, pairs, execUnit), cf)
    ensures Rescoped(Delete(WithCf(c, cf), key, execUnit), Delete(c, key, execUnit), cf)
    ensures Rescoped(BatchDelete(WithCf(c, cf), keys, execUnit), BatchDelete(c, keys, execUnit), cf)
    ensures Rescoped(DeleteRange(WithCf(c, cf), range, execUnit), DeleteRange(c, range, execUnit), cf)
  {
  }

  /** The same holds of the four scans, for every limit: a derived handle
      rejects exactly the limits the receiver rejects, and otherwise sends
      the receiver's scan descriptor with only the column family replaced. */
  lemma WithCfOnlyRescopesScans(c: Client, cf: ColumnFamily, range: BoundRange, ranges: seq<BoundRange>,
                                limit: uint32, exec: Dispatch -> Result<seq<KvPair>>)
    ensures Rescoped(Scan(WithCf(c, cf), range, limit, exec), Scan(c, range, limit, exec), cf)
    ensures Rescoped(ScanKeys(WithCf(c, cf), range, limit, exec), ScanKeys(c, range, limit, exec), cf)
    ensures Rescoped(BatchScan(WithCf(c, cf), ranges, limit, exec), BatchScan(c, ranges, limit, exec), cf)
    ensures Rescoped(BatchScanKeys(WithCf(c, cf), ranges, limit, exec), BatchScanKeys(c, ranges, limit, exec), cf)
  {
  }

  /** A freshly connected client scopes every request it dispatches to the
      default column family (no `cf`). */
  lemma NewClientIsUnscoped(rpc: RpcHandle, key: Key, value: Value, keys: seq<Key>, pairs: seq<KvPair>,
                            range: BoundRange, ranges: seq<BoundRange>, limit: uint32,
                            execValue: Dispatch -> Result<Option<Value>>,
                            execPairs: Dispatch -> Result<seq<KvPair>>,
                            execUnit: Dispatch -> Result<()>)
    ensures NewWithConfig(Ok(rpc)) == Ok(Client(rpc, None))
    ensures var c := Client(rpc, None);
            && SentUnder(Get(c, key, execValue), None)
            && SentUnder(BatchGet(c, keys, execPairs), None)
            && SentUnder(Put(c, key, value, execUnit), None)
            && SentUnder(BatchPut(c, pairs, execUnit), None)
            && SentUnder(Update(c, key, value, execUnit), None)
            && SentUnder(BatchUpdate(c, pairs, execUnit), None)
            && SentUnder(Delete(c, key, execUnit), None)
            && SentUnder(BatchDelete(c, keys, execUnit), None)
            && SentUnder(DeleteRange(c, range, execUnit), None)
            && SentUnder(Scan(c, range, limit, execPairs), None)
            && SentUnder(ScanKeys(c, range, limit, execPairs), None)
            && SentUnder(BatchScan(c, ranges, limit, execPairs), None)
            && SentUnder(BatchScanKeys(c, ranges, limit, execPairs), None)
  {
  }
}
