# Raw TiKV client: request, scan-limit and result-shaping contract

This project models the raw (non-transactional) `Client` of the TiKV Rust
client, as written in `src/raw/client.rs`. A client handle holds a shared
placement-driver RPC client and an optional column family. Each operation
does four things:

1. It builds one request descriptor that carries the caller's arguments and
   the handle's column family.
2. It hands the descriptor to the execution layer (`KvRequest::execute`)
   with the `default_optimistic` retry policy.
3. For scans, it first rejects a limit above `MAX_RAW_KV_SCAN_LIMIT` (10240)
   before anything is dispatched.
4. It shapes the answer. `scan` cuts it to `limit` pairs, the `_keys`
   variants project each pair to its key, and `batch_scan` returns it
   uncut.

The execution layer is not modelled. It is a function parameter
`exec: Dispatch -> Result<T>`. A `Dispatch` is the triple (descriptor, RPC
handle, retry policy). Every operation returns a
`Call(sent, result)`: `sent` is the dispatch made, or `None` when the
execution layer was never reached.

Files:
- `types.dfy`: module `Types`. Keys, values, pairs, ranges, column families, errors, `Result`.
- `requests.dfy`: module `Requests`. The request descriptor (one variant per operation), retry policies, `Dispatch`.
- `shaping.dfy`: module `Shaping`. `Vec::truncate` and the key-only projection, with their reference definitions.
- `client.dfy`: module `RawClient`. The handle, `with_cf`, and every operation.
- `properties.dfy`: module `RawClientFacts`. Properties that relate several calls.

`batch_scan_inner` (src/raw/client.rs:449-465) does not cut its result.
Its doc comment at lines 364-368 warns about this: the limit applies per
region, not per range. `BatchScanInner` follows the code and returns the
delegate's answer unchanged. `RawClientFacts.BatchScanCanExceedEachLimit`
exhibits a result longer than `each_limit`.

## Model

| member | source | states |
|---|---|---|
| RawClient.NewWithConfig | src/raw/client.rs:59-66 | A connected client starts with no column family and holds the connected RPC client. A connection failure is returned unchanged. |
| RawClient.WithCf | src/raw/client.rs:87-92 | The derived handle shares the receiver's RPC client and is scoped to `Some(cf)`. |
| RawClient.LimitError | src/raw/client.rs:434-437 | The over-cap error carries the offending limit and the cap `MAX_RAW_KV_SCAN_LIMIT` = 10240 (line 14). `batch_scan_inner` builds the same error at lines 456-459. |
| RawClient.Execute | src/raw/client.rs:113-115 | Hands a descriptor to the execution layer once, on the handle's RPC client, with the `default_optimistic` policy. Returns the answer unchanged. This is the `.execute(self.rpc.clone(), RetryOptions::default_optimistic())` at lines 114, 141, 163, 189, 211, 237, 261, 284, 305, 441 and 463. |
| RawClient.Get | src/raw/client.rs:112-116 | Sends exactly one `RawGet(key, cf)` to the handle's RPC client with the optimistic policy. Returns the delegate's answer unchanged. |
| RawClient.BatchGet | src/raw/client.rs:136-143 | Sends exactly one `RawBatchGet(keys, cf)` with the optimistic policy. Passes the delegate's collection through as-is, without reordering. |
| RawClient.Put | src/raw/client.rs:161-165 | Sends exactly one `RawPut(key, value, cf)` with the optimistic policy. Returns the delegate's answer. |
| RawClient.BatchPut | src/raw/client.rs:184-191 | Sends exactly one `RawBatchPut(pairs, cf)` with the optimistic policy. Returns the delegate's answer. |
| RawClient.Update | src/raw/client.rs:209-213 | Sends exactly one `RawUpdate(key, value, cf)` with the optimistic policy. This descriptor differs from put's only in its kind. |
| RawClient.BatchUpdate | src/raw/client.rs:232-239 | Sends exactly one `RawBatchUpdate(pairs, cf)` with the optimistic policy. Returns the delegate's answer. |
| RawClient.Delete | src/raw/client.rs:259-263 | Sends exactly one `RawDelete(key, cf)` with the optimistic policy. Returns the delegate's answer. |
| RawClient.BatchDelete | src/raw/client.rs:282-286 | Sends exactly one `RawBatchDelete(keys, cf)` with the optimistic policy. Returns the delegate's answer. |
| RawClient.DeleteRange | src/raw/client.rs:303-307 | Sends exactly one `RawDeleteRange(range, cf)` with the optimistic policy. Returns the delegate's answer. |
| RawClient.ScanInner | src/raw/client.rs:427-447 | A limit above 10240 makes no dispatch and fails with `MaxScanLimitExceeded(limit, 10240)`. Otherwise it sends `RawScan(range, limit, key_only, cf)`. A delegate error passes through unchanged. A success is the delegate's pairs cut to their first `min(limit, n)` elements, in the delegate's order. |
| RawClient.BatchScanInner | src/raw/client.rs:449-465 | An `each_limit` above 10240 makes no dispatch and fails with `MaxScanLimitExceeded(each_limit, 10240)`. Otherwise it sends `RawBatchScan(ranges, each_limit, key_only, cf)` and returns the delegate's answer uncut. |
| RawClient.IntoKeys | src/raw/client.rs:352-357 | `?` followed by `map(into_key)`. Keeps the dispatch and the error. On success, returns the keys of the same pairs in the same order. |
| RawClient.Scan | src/raw/client.rs:328-330 | It meets the whole scan contract with `key_only` false. A limit over the cap is rejected without dispatch. Otherwise it sends `RawScan(range, limit, false, cf)`, passes delegate errors through, and returns the cut-down prefix, at most `limit` pairs. |
| RawClient.ScanKeys | src/raw/client.rs:351-358 | Sends the scan descriptor with `key_only` true. Returns the key projection of the inner scan's result, with the same error and at most `limit` keys. |
| RawClient.BatchScan | src/raw/client.rs:383-389 | It meets the batch-scan contract with `key_only` false. An `each_limit` over the cap is rejected without dispatch. Otherwise it sends `RawBatchScan(ranges, each_limit, false, cf)` and returns the delegate's answer uncut. |
| RawClient.BatchScanKeys | src/raw/client.rs:414-425 | Sends the batch-scan descriptor with `key_only` true. Returns the key projection of the inner batch scan's result. |
| Shaping.Truncate | src/raw/client.rs:443-446 | The cut result is a prefix of its input and has length `min(n, len)`. |
| Shaping.TruncateIsSlice | src/raw/client.rs:444 | Truncation equals the reference slice `s[..min(n, len)]`. |
| Shaping.TruncateShortIsIdentity | src/raw/client.rs:313-314 | A sequence no longer than the limit is left unchanged. |
| Shaping.TruncateIdempotent | src/raw/client.rs:443-446 | Cutting twice to the same limit is the same as cutting once. |
| Shaping.KeysOf | src/raw/client.rs:355-357 | The projection has the input's length, and element `i` is the key of pair `i`. |
| Shaping.KeysOfIsPointwise | src/raw/client.rs:422-424 | The projection equals the reference comprehension that maps `into_key` over every index. |
| Shaping.KeysOfTruncate | src/raw/client.rs:351-358 | Projecting after the cut equals cutting the projection. |
| RawClientFacts.ScanOverCapIgnoresDelegate | src/raw/client.rs:433-438 | Over the cap, the scan is the same rejection whatever the delegate would answer, so the delegate is never consulted. |
| RawClientFacts.BatchScanOverCapIgnoresDelegate | src/raw/client.rs:455-460 | The same holds for the batch scan's `each_limit`. |
| RawClientFacts.ScanAtCapIsDispatched | src/raw/client.rs:433 | The cap is inclusive: a limit of exactly 10240 is dispatched. |
| RawClientFacts.ScanKeysOverCapIsRejected | src/raw/client.rs:351-358 | The over-cap error reaches `scan_keys` callers through `?`, with no dispatch. |
| RawClientFacts.ScanOfTwentyThousandIsRejected | src/raw/client.rs:433-438 | An unbounded scan with limit 20000 fails with `MaxScanLimitExceeded { limit: 20000, max_limit: 10240 }` and contacts nobody. |
| RawClientFacts.ScanKeepsShortAnswer | src/raw/client.rs:443-446 | A delegate answer of at most `limit` pairs reaches the caller unchanged. |
| RawClientFacts.ScanCutIsIdempotent | src/raw/client.rs:433-446 | For every limit, feeding a scan's own result back as the delegate's answer yields the same result. |
| RawClientFacts.ScanKeysProjectsScan | src/raw/client.rs:351-358 | For the same delegate answer, `scan_keys` returns the keys of `scan`'s result, or the same error. |
| RawClientFacts.ScanKeysAreCutKeys | src/raw/client.rs:351-358 | Within the cap, `scan_keys` returns the delegate's keys cut down to `limit`: projecting after cutting equals cutting after projecting. |
| RawClientFacts.BatchScanPassesAnswerThrough | src/raw/client.rs:462-464 | Within the cap, `batch_scan` returns the delegate's answer unchanged and `batch_scan_keys` returns its key projection. |
| RawClientFacts.BatchScanCanExceedEachLimit | src/raw/client.rs:364-368 | With `each_limit` 1, a batch scan returns both pairs the delegate answers. |
| RawClientFacts.ScanCutsWhereBatchScanDoesNot | src/raw/client.rs:443-464 | Given the same two-pair answer and a limit of 1, a scan returns only the first pair and a batch scan returns both. |
| RawClientFacts.WithCfOverridesScope | src/raw/client.rs:87-92 | Deriving twice keeps the last column family and the same RPC client. |
| RawClientFacts.WithCfOnlyRescopesRequests | src/raw/client.rs:87-92 | For get, batch_get, put, batch_put, update, batch_update, delete, batch_delete and delete_range, a derived handle sends the receiver's dispatch with only the column family replaced. |
| RawClientFacts.WithCfOnlyRescopesScans | src/raw/client.rs:87-92 | For every limit, scan, scan_keys, batch_scan and batch_scan_keys on a derived handle reject exactly when the receiver does. Otherwise they send the receiver's dispatch with only the column family replaced. |
| RawClientFacts.NewClientIsUnscoped | src/raw/client.rs:65 | A fresh client has no column family, and every request it dispatches, for all 13 operations, carries no column family. |

## Left out

- Async execution, futures and `Arc` reference counting: these are concurrency and ownership plumbing. The shared RPC client is modelled by its identity, `RpcHandle`.
- `Client::new` and `Config`: `new` only passes `Config::default()` to `new_with_config`. Connecting (`PdRpcClient::connect`) is network I/O, so its outcome is the parameter of `NewWithConfig`.
- The request builders `requests::new_raw_*_request` and `KvRequest::execute` are not part of this model. That covers region splitting, per-region limits and RPC retries. The builders are represented by the descriptor they receive, and execution by the `exec` parameter.
- `RetryOptions` semantics: only the policy that is chosen is recorded.
- Store-level behaviour is promised by the server, not by this file. That covers put-then-get round trips, absent keys in get/delete/batch_get, batch_get ordering and column-family isolation.
- Key ordering and `BoundRange` bound semantics: keys, values and ranges are opaque. The only operation on a pair used here is its key projection.
- `limit as usize`: converting a `u32` to `usize` is lossless on the supported targets, so the limit is used as an unbounded natural.
