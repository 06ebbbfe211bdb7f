# Forwarding pass of the banking stage: a Dafny model

This project models the validator's transaction forwarder (`core/src/banking_stage/forwarder.rs`).
One forwarding pass walks the account-limited batches of the unprocessed-transaction buffer. For
each non-empty batch it resolves the next leader's address, refills the shared outbound byte
budget, admits packets against that budget in order, and sends the admitted packets in one
operation. Votes go by UDP and all other transactions go through the connection cache. It then
records successes and failures in the slot metrics and, unless told to hold, clears the buffer.

Files and modules:

- `wrappers.dfy` (`Wrappers`): the `Option` type.
- `budget.dfy` (`Budget`): 64-bit `usize` arithmetic (`SaturatingAdd`, `SaturatingSub`) and the
  `DataBudget` class, a token bucket with an `available` field, `Update` and `Take`.
- `forwarder_spec.dfy` (`ForwarderSpec`): the pass as pure functions, with lemmas about them.
  - `Refill` is the capped refill closure; its constants are 100 ms intervals, 12,000,000 bytes/s,
    1,200,000 bytes per interval and a cap of 6,000,000.
  - `Admit` is the admission filter. `Forward` is one call of `forward_buffered_packets`.
  - `Pass` is the per-batch loop of `handle_forwarding`.
- `forwarder.dfy` (`Forwarder`): the imperative operations. These are the counters classes,
  `ForwardBufferedPackets` (a loop that charges the `DataBudget` packet by packet),
  `ForwardAllBatches` (the loop over the batches, which updates the counters in place) and
  `HandleForwarding` (that loop, then the clearing of the buffer when `hold` is false). Each
  method's `ensures` ties its results and the new state to the functions of `ForwarderSpec`.
  Two methods replay the source's two tests.

Everything outside the forwarder is a parameter:

- Leader lookups are a `LeaderView`: the tpu-forwards and tpu-vote addresses, each optional.
- Whether a budget interval has elapsed is a flag.
- The send outcome is an `Ok`/`Err` input.
- The batches and the buffer's counts come in as a `FilterForwardingResult`.
- Each batch meets its own `Oracle`, which bundles the lookups, the flag and the send outcome.
- The network operation itself is returned as a `Transmission` value: a UDP batch of
  (payload, address) pairs, or a cache batch for one address.

Facts about the code that shape the model:

- The cap on the budget is applied inside the refill closure that `forward_buffered_packets`
  passes to the budget's `update` (`min(…, MAX_BYTES_BUDGET)`, lines 159-164). `Update` itself
  applies whatever closure it is given.
- When no leader is known, or the option is `NotForward`, the call returns a success count of 0.
  `handle_forwarding` therefore counts every packet of the batch as failed and the batch as a
  failed batch (`PassNotForward`, `BatchAccounting`).
- The failed count of a batch is its length saturating-minus the success count (lines 97-98).
  Packets turned away by the budget, or already flagged forwarded, are therefore counted as
  failed.
- With `hold` set, `handle_forwarding` clears nothing. Without it, it calls the buffer's
  `clear_forwarded_packets` unconditionally (lines 114-122).
- Non-vote transactions go through `get_connection(..)` and then `send_data_batch_async`
  (lines 193-201). The model records that operation as one `CacheBatch` for the address.

## Model

| member | source | states |
|---|---|---|
| `Budget.SaturatingAdd` | core/src/banking_stage/forwarder.rs:161 | the sum when it fits in 64 bits, `USIZE_MAX` otherwise; never below either operand |
| `Budget.SaturatingSub` | core/src/banking_stage/forwarder.rs:97-98 | `a - b` when `b <= a`, else 0; never above `a` |
| `Budget.AfterTake` | core/src/banking_stage/forwarder.rs:168 | a successful take deducts exactly the size; a failed take deducts nothing |
| `Budget.CanTake` | core/src/banking_stage/forwarder.rs:168 | whether `take` succeeds: the size is at most the bytes available; its meaning is fixed by `AfterTake`, `DataBudget.Take` and `AdmitCons` |
| `Budget.TakeTwiceFromExactBudget` | core/src/banking_stage/forwarder.rs:168 | two takes of `n` from a budget of `n`: the first succeeds and empties it, the second fails unless `n` is 0 |
| `Budget.DataBudget.Empty` | core/src/banking_stage/forwarder.rs:286-287 | the default and the restricted budget both start with 0 bytes |
| `Budget.DataBudget.Update` | core/src/banking_stage/forwarder.rs:159-164 | applies the refill function to the available bytes exactly when an interval has elapsed |
| `Budget.DataBudget.Take` | core/src/banking_stage/forwarder.rs:168 | reports whether the budget could pay and deducts the size only then |
| `ForwarderSpec.BudgetConstants` | core/src/banking_stage/forwarder.rs:154-158 | 1,200,000 bytes per 100 ms interval and a cap of 6,000,000 bytes |
| `ForwarderSpec.Refill` | core/src/banking_stage/forwarder.rs:159-164 | result is `min(bytes + 1,200,000, 6,000,000)`, never above the cap, and never below an input that is within the cap; saturation never decides it |
| `ForwarderSpec.RefillMonotone` | core/src/banking_stage/forwarder.rs:159-164 | a larger budget refills to at least as much |
| `ForwarderSpec.RefillsFromEmpty` | core/src/banking_stage/forwarder.rs:154-164 | after `n` refills an empty budget holds `min(n * 1,200,000, 6,000,000)` |
| `ForwarderSpec.BurstCap` | core/src/banking_stage/forwarder.rs:158-164 | five refills fill an empty budget to the cap, four do not, and more keep it at the cap |
| `ForwarderSpec.PairWith` | core/src/banking_stage/forwarder.rs:191 | every payload is paired with the same address, in order |
| `ForwarderSpec.Target` | core/src/banking_stage/forwarder.rs:141-148 | `NotForward` resolves no leader; `ForwardTransaction` uses the tpu-forwards lookup and `ForwardTpuVote` the tpu-vote lookup; the early returns are stated by `ForwardUnresolved` |
| `ForwarderSpec.ForwardIgnoresOtherLookup` | core/src/banking_stage/forwarder.rs:141-148 | a call's whole result is unchanged when the lookup its option does not select changes: transactions ignore the vote address, votes the forwards address |
| `ForwarderSpec.AdmitOne` | core/src/banking_stage/forwarder.rs:167-172 | one packet of the `filter_map` closure: a flagged packet changes nothing; the budget never grows; at most one payload is appended, it is the packet's data, and earlier payloads are kept; `AdmitCons` states when it is charged and admitted |
| `ForwarderSpec.AdmitFrom` | core/src/banking_stage/forwarder.rs:166-174 | the filter never raises the budget, admits at most one payload per packet and keeps what was admitted before |
| `ForwarderSpec.Admit` | core/src/banking_stage/forwarder.rs:166-174 | the budget left is at most the budget given; at most one payload per packet |
| `ForwarderSpec.AdmitFromAppend` | core/src/banking_stage/forwarder.rs:166-174 | filtering `s + t` is filtering `s`, then `t` against the budget left |
| `ForwarderSpec.AdmitFromPayloads` | core/src/banking_stage/forwarder.rs:166-174 | payloads already admitted do not influence what is admitted next |
| `ForwarderSpec.AdmitCons` | core/src/banking_stage/forwarder.rs:166-174 | the first packet is charged exactly when it is not flagged and the budget pays its size; a charged packet is admitted exactly when its data is present; the rest sees the budget left |
| `ForwarderSpec.Fresh` | core/src/banking_stage/forwarder.rs:168 | the unflagged packets of a batch: none flagged, no more than the batch |
| `ForwarderSpec.AdmitIgnoresForwarded` | core/src/banking_stage/forwarder.rs:168 | removing the flagged packets changes neither the budget spent nor the payloads admitted (short-circuit `&&`) |
| `ForwarderSpec.AdmitAllForwarded` | core/src/banking_stage/forwarder.rs:168 | a batch of flagged packets costs nothing and admits nothing |
| `ForwarderSpec.AdmitAmple` | core/src/banking_stage/forwarder.rs:166-174 | a budget that covers every unflagged packet admits all of those with data, in order, and is charged exactly their total size |
| `ForwarderSpec.AdmitExhausted` | core/src/banking_stage/forwarder.rs:166-174 | an empty budget admits no packet of positive size and stays empty |
| `ForwarderSpec.AdmitInOrder` | core/src/banking_stage/forwarder.rs:166-174 | whatever the budget, the admitted payloads are a subsequence of the unflagged packets' payloads, in batch order |
| `ForwarderSpec.Forward` | core/src/banking_stage/forwarder.rs:141-217 | success ≤ admitted ≤ batch length; on `Err` the error is returned with 0 successes; on `Ok` every admitted packet counts; a send happens exactly when something is admitted; a leader is reported exactly when the option's lookup finds one; a budget within the cap stays within it |
| `ForwarderSpec.Route` | core/src/banking_stage/forwarder.rs:186-201 | a UDP batch exactly for `ForwardTpuVote`, with one datagram per payload; otherwise one cache batch to the address carrying exactly the payloads; `RouteDestinations` pairs each datagram with the address |
| `ForwarderSpec.ForwardUnresolved` | core/src/banking_stage/forwarder.rs:141-152 | `NotForward` or no leader: `(Ok, 0, None)`, budget untouched, nothing sent |
| `ForwarderSpec.ForwardResolved` | core/src/banking_stage/forwarder.rs:153-217 | with a leader: the admitted packets are the filter's output over the refilled budget; none admitted gives `(Ok, 0, Some(leader))` and no send; otherwise they go by the option's route and the send result is returned |
| `ForwarderSpec.RouteDestinations` | core/src/banking_stage/forwarder.rs:186-201 | votes go as one UDP batch, each payload paired with the resolved address; other transactions go in one batch through the cache for that address |
| `ForwarderSpec.BatchAccounting` | core/src/banking_stage/forwarder.rs:76-111 | a non-empty batch adds 1 forwardable batch, its successes, `len - success` failed packets, 1 failed batch exactly when some packet failed, and its admitted count to the vote or transaction count |
| `ForwarderSpec.BatchTally` | core/src/banking_stage/forwarder.rs:76-111 | one non-empty batch: one forwardable batch; failed + successful packets = the batch length when successes do not exceed it; one failed batch exactly when some packet failed; the admitted count goes to votes or transactions |
| `ForwarderSpec.PassBatch` | core/src/banking_stage/forwarder.rs:74-111 | the `is_empty` filter and one batch's step: an empty batch leaves the state as it was; a non-empty one adds exactly one forwardable batch |
| `ForwarderSpec.PassBatchSends` | core/src/banking_stage/forwarder.rs:74-111 | one batch adds at most one transmission after those already sent, and none when the batch is empty or the call sends nothing |
| `ForwarderSpec.PassPrefix` | core/src/banking_stage/forwarder.rs:72-112 | the pass over the first `i + 1` batches is the pass over the first `i`, followed by batch `i` |
| `ForwarderSpec.PassSingle` | core/src/banking_stage/forwarder.rs:72-112 | a pass over one batch is that batch's step from the initial state: budget as given, no counts, nothing sent |
| `ForwarderSpec.Pass` | core/src/banking_stage/forwarder.rs:72-112 | over a pass, failed + successful packets = all packets; forwardable batches = non-empty batches; failed batches ≤ forwardable batches and ≤ failed packets; successes ≤ admitted ≤ all packets; at most one send per non-empty batch |
| `ForwarderSpec.PassNotForward` | core/src/banking_stage/forwarder.rs:72-112 | with `NotForward`: nothing sent, no success, budget untouched, every packet failed and every non-empty batch a failed batch |
| `ForwarderSpec.PassBudgetCapped` | core/src/banking_stage/forwarder.rs:154-164 | a pass that starts within the cap ends within it |
| `ForwarderSpec.PassAllSendsOk` | core/src/banking_stage/forwarder.rs:211-217 | when no send fails, every admitted packet is a success |
| `ForwarderSpec.BudgetScenario` | core/src/banking_stage/forwarder.rs:285-288 | one fresh transaction: a budget that is not refilled sends nothing; a refilled one sends that packet to the forwarding address |
| `ForwarderSpec.HoldScenario` | core/src/banking_stage/forwarder.rs:341-391 | a batch holding a flagged and a fresh packet: exactly the fresh packet is sent to the forwarding address, with 1 success; the batch's contents are an assumed input, and under that assumption the flagged packet is the 1 failure |
| `ForwarderSpec.HoldAdmission` | core/src/banking_stage/forwarder.rs:166-174 | with one interval's allotment, of a flagged and a fresh 215-byte packet only the fresh one's payload is admitted |
| `ForwarderSpec.HoldScenarioSecondPass` | core/src/banking_stage/forwarder.rs:392 | a pass over a batch whose packets are all flagged sends nothing; that the second pass sees such a batch is an assumed input |
| `Forwarder.UnprocessedTransactionStorage.Len` | core/src/banking_stage/forwarder.rs:431 | the number of packets in the buffer |
| `Forwarder.BankingStageStats.Default` | core/src/banking_stage/forwarder.rs:298 | the stats start with zero forwarded votes and transactions |
| `Forwarder.LeaderSlotMetricsTracker.New` | core/src/banking_stage/forwarder.rs:309 | every forwarding counter of the slot metrics starts at 0 |
| `Forwarder.TracerPacketStats.New` | core/src/banking_stage/forwarder.rs:312 | the cleared-after-forward tracer counter starts at 0 |
| `Forwarder.UnprocessedTransactionStorage.constructor` | core/src/banking_stage/forwarder.rs:355-361 | a buffer for transactions holding exactly the given packets, in order |
| `Forwarder.UnprocessedTransactionStorage.ClearForwardedPackets` | core/src/banking_stage/forwarder.rs:121 | leaves the buffer empty |
| `Forwarder.ForwardBufferedPackets` | core/src/banking_stage/forwarder.rs:127-218 | returns what `Forward` computes, leaves the budget at the filter's remainder, and adds the admitted count to the vote or transaction counter by route |
| `Forwarder.ForwardBatch` | core/src/banking_stage/forwarder.rs:75-111 | one non-empty batch: the budget and the counters move as `Forward` and `BatchTally` say |
| `Forwarder.StepBatch` | core/src/banking_stage/forwarder.rs:74-111 | one turn of the batch loop: the budget, the sends and the counters move exactly as `PassBatch` says |
| `Forwarder.ForwardAllBatches` | core/src/banking_stage/forwarder.rs:72-112 | the loop over all batches: the budget, the sends and the counters end as `Pass` computes, and the cleared counter is untouched |
| `Forwarder.HandleForwarding` | core/src/banking_stage/forwarder.rs:29-123 | the budget, the sends and the counters end as `Pass` computes; the cleared counters grow and the buffer is cleared exactly when `hold` is false, otherwise `handle_forwarding` leaves `packets` as it was (the filter's own effect on the buffer is not represented) |
| `Forwarder.RunPass` | core/src/banking_stage/forwarder.rs:299-314 | one pass over one batch with an empty budget: sends what `Pass` computes, clears only without hold |
| `Forwarder.BudgetTest` | core/src/banking_stage/forwarder.rs:285-323 | a restricted budget forwards 0 packets and a default budget forwards 1 |
| `Forwarder.HoldTest` | core/src/banking_stage/forwarder.rs:390-432 | hold, hold, no hold: the first pass sends only the fresh packet, the second and third send nothing, and the buffer holds 2, 2, then 0; the batch each pass sees is an assumed input (both packets as built, then both flagged) |

## Left out

- `client/src/connection_cache.rs` (pooling, protocol choice, the pool-size clamp): it is a thin wrapper over a backend that is not part of this model. In the forwarder the cache is reduced to a destination address whose send result is an input.
- `DataBudget` internals: the elapsed-interval check, its timestamps and the atomicity of `take` are not part of this model. `Update` takes an "interval elapsed" flag and `Take` is a sequential check-then-subtract.
- Budget.DataBudget.Empty: the restricted and default budgets are the same constructor. They differ only in their timestamp, which is not modelled. A restricted budget is modelled as one whose interval never elapses (`intervalElapsed = false`).
- Leader resolution (`next_leader_tpu_forwards`, `next_leader_tpu_vote`, the PoH recorder, cluster info): not part of the model; its answers are the `LeaderView` inputs.
- The buffer's filter (`filter_forwardable_packets_and_add_batches`, `ForwardPacketBatchesByAccounts`, the root bank from `BankForks`): not part of the model. Its batches and counts are the `FilterForwardingResult` input. Which packets each pass is handed is therefore an assumption: `HoldScenario` and `HoldTest` take the first pass's batch to hold both packets as built, and the second pass's to hold both flagged forwarded. Their failure counts follow from that assumption, not from anything the test checks. The filter's own effect on the buffer (it is called on the mutable storage at lines 53-57) is not represented in `packets` either: `packets` changes only by `handle_forwarding`'s clearing, so a buffer left "unchanged" under `hold` means one not cleared by `handle_forwarding`.
- Forwarder.UnprocessedTransactionStorage.ClearForwardedPackets: the buffer's own clearing code is not part of this model. It is modelled as emptying the buffer, as the test expects (0 packets after the no-hold pass).
- Tracer packet stats for forwardable tracer packets per leader (lines 91-96): the tracer stats' code is not part of this model, so the leader returned by a call is not used further. Only the cleared-after-forward tracer counter is kept.
- Timing and instrumentation: `Measure`, `inc_new_counter_info!`, and the conversion and filter `*_us` counters (lines 58-70).
- Integer width of the counters: metrics and stats counters are unbounded `nat`. The wrap-around of `fetch_add` on 64-bit counters is not modelled, because these counters never get near that bound.
- Concurrency: the budget and the stats are shared by reference across threads in the source (`Relaxed` atomics). The model is single-threaded.
- I/O: `batch_send`, `send_data_batch_async`, the UDP socket and QUIC endpoints. Only their outcome is modelled (an input), and what would go on the wire is returned as `Transmission` values.
- Forwarder.HandleForwarding: the `leader_pubkey` each call returns is not passed on.
- Test setup (genesis, blockstore, PoH service, `recv_mmsg`): environment, not logic. The tests' expected outcomes are stated in `BudgetTest` and `HoldTest`.
