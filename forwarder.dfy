/** The forwarder's two operations as they run: `ForwardBufferedPackets` charges one batch to
    the shared byte budget packet by packet and sends what it admits; `HandleForwarding` drives
    it over every non-empty batch, updates the metrics in place and clears the buffer unless
    asked to hold. Both are proved against the functions of module `ForwarderSpec`. */
module Forwarder {
  import opened Wrappers
  import opened Budget
  import opened ForwarderSpec

  /** The banking stage's shared forwarding counters. */
  class BankingStageStats {
    var forwardedVoteCount: nat
    var forwardedTransactionCount: nat

    constructor Default()
      ensures forwardedVoteCount == 0 && forwardedTransactionCount == 0
    {
      forwardedVoteCount, forwardedTransactionCount := 0, 0;
    }
  }

  /** The per-slot forwarding counters of the leader-slot metrics. */
  class LeaderSlotMetricsTracker {
    var forwardableBatchesCount: nat
    var failedForwardedPacketsCount: nat
    var packetBatchForwardFailureCount: nat
    var successfulForwardedPacketsCount: nat
    var clearedFromBufferAfterForwardCount: nat

    constructor New()
      ensures forwardableBatchesCount == 0 && failedForwardedPacketsCount == 0
      ensures packetBatchForwardFailureCount == 0 && successfulForwardedPacketsCount == 0
      ensures clearedFromBufferAfterForwardCount == 0
    {
      forwardableBatchesCount, failedForwardedPacketsCount := 0, 0;
      packetBatchForwardFailureCount, successfulForwardedPacketsCount := 0, 0;
      clearedFromBufferAfterForwardCount := 0;
    }
  }

  /** The tracer-packet counter the forwarder updates when it clears the buffer. */
  class TracerPacketStats {
    var totalClearedFromBufferAfterForward: nat

    constructor New()
      ensures totalClearedFromBufferAfterForward == 0
    {
      totalClearedFromBufferAfterForward := 0;
    }
  }

  /** The buffer of unprocessed packets, reduced to what the forwarder uses: its forward option,
      its packets, and clearing them after a forward. */
  class UnprocessedTransactionStorage {
    const forwardOption: ForwardOption
    var packets: seq<Packet>

    constructor (option: ForwardOption, initial: seq<Packet>)
      ensures forwardOption == option && packets == initial
    {
      forwardOption, packets := option, initial;
    }

    function Len(): (n: nat)
      reads this
      ensures n == |packets|
    {
      |packets|
    }

    /** Drops the forwarded packets from the buffer. The buffer's own clearing code is outside
        this model; it is modelled as leaving the buffer empty, which is what the forwarder's
        test observes after a pass without hold. */
    method ClearForwardedPackets()
      modifies this
      ensures packets == []
    {
      packets := [];
    }
  }

  /** What the buffer's filter hands the forwarder: the account-limited batches, the number of
      forwardable packets, and the number of tracer packets in the buffer. */
  datatype FilterForwardingResult = FilterForwardingResult(
    batches: seq<seq<Packet>>,
    totalForwardablePackets: nat,
    totalTracerPacketsInBuffer: nat)

  /** Forwards one batch to the next leader, up to the byte budget. Returns the send result,
      the number of packets counted as forwarded, the leader it resolved and the outbound
      operation it performed. */
  method ForwardBufferedPackets(option: ForwardOption, leaders: LeaderView, packets: seq<Packet>,
                                budget: DataBudget, stats: BankingStageStats,
                                intervalElapsed: bool, send: SendResult)
    returns (result: SendResult, successCount: nat, leader: Option<Pubkey>, sent: Option<Transmission>)
    modifies budget, stats
    ensures var step := Forward(option, leaders, old(budget.available), packets, intervalElapsed, send);
            && result == step.result
            && successCount == step.successCount
            && leader == step.leader
            && sent == step.sent
            && budget.available == step.remaining
            && stats.forwardedVoteCount
               == old(stats.forwardedVoteCount) + (if option.ForwardTpuVote? then step.admitted else 0)
            && stats.forwardedTransactionCount
               == old(stats.forwardedTransactionCount) + (if option.ForwardTpuVote? then 0 else step.admitted)
  {
    var target: Option<Leader>;
    match option {
      case NotForward =>
        return Ok, 0, None, None;
      case ForwardTransaction =>
        target := leaders.tpuForwards;
      case ForwardTpuVote =>
        target := leaders.tpuVote;
    }
    if target.None? {
      return Ok, 0, None, None;
    }
    var leaderPubkey, addr := target.value.pubkey, target.value.addr;

    budget.Update(intervalElapsed, Refill);
    ghost var refilled := budget.available;

    var packetVec: seq<Bytes> := [];
    var i := 0;
    while i < |packets|
      invariant 0 <= i <= |packets|
      invariant Admission(budget.available, packetVec) == Admit(refilled, packets[..i])
      modifies budget
    {
      var p := packets[i];
      if !p.forwarded {
        var charged := budget.Take(p.size);
        if charged && p.data.Some? {
          packetVec := packetVec + [p.data.value];
        }
      }
      assert packets[..i + 1][..i] == packets[..i];
      i := i + 1;
    }
    assert packets[..i] == packets;

    var packetVecLen := |packetVec|;
    sent := None;
    if packetVecLen > 0 {
      if option.ForwardTpuVote? {
        // Votes go by UDP only.
        stats.forwardedVoteCount := stats.forwardedVoteCount + packetVecLen;
        sent := Some(UdpBatch(PairWith(packetVec, addr)));
      } else {
        stats.forwardedTransactionCount := stats.forwardedTransactionCount + packetVecLen;
        sent := Some(CacheBatch(addr, packetVec));
      }
      if send.Err? {
        return send, 0, Some(leaderPubkey), sent;
      }
    }
    return Ok, packetVecLen, Some(leaderPubkey), sent;
  }

  /** The counters a forwarding pass adds to, read from the slot metrics and the banking stage
      stats. */
  ghost function Counters(metrics: LeaderSlotMetricsTracker, stats: BankingStageStats): Tally
    reads metrics, stats
  {
    Tally(metrics.forwardableBatchesCount, metrics.failedForwardedPacketsCount,
          metrics.packetBatchForwardFailureCount, metrics.successfulForwardedPacketsCount,
          stats.forwardedVoteCount, stats.forwardedTransactionCount)
  }

  /** The work done for one non-empty batch: count it, forward it, and turn the success count
      into the failed and successful packet counters. */
  method ForwardBatch(option: ForwardOption, batch: seq<Packet>, o: Oracle, budget: DataBudget,
                      metrics: LeaderSlotMetricsTracker, stats: BankingStageStats)
    returns (transmission: Option<Transmission>)
    requires batch != []
    modifies budget, metrics, stats
    ensures var step := Forward(option, o.leaders, old(budget.available), batch, o.intervalElapsed, o.send);
            && transmission == step.sent
            && budget.available == step.remaining
            && Counters(metrics, stats) == Plus(old(Counters(metrics, stats)), BatchTally(option, |batch|, step))
    ensures metrics.clearedFromBufferAfterForwardCount == old(metrics.clearedFromBufferAfterForwardCount)
  {
    ghost var step := Forward(option, o.leaders, budget.available, batch, o.intervalElapsed, o.send);
    ghost var before := Counters(metrics, stats);
    metrics.forwardableBatchesCount := metrics.forwardableBatchesCount + 1;
    var batchLen := |batch|;
    var _, successCount, _, sent :=
      ForwardBufferedPackets(option, o.leaders, batch, budget, stats, o.intervalElapsed, o.send);
    var failedCount := SaturatingSub(batchLen, successCount);
    if failedCount > 0 {
      metrics.failedForwardedPacketsCount := metrics.failedForwardedPacketsCount + failedCount;
      metrics.packetBatchForwardFailureCount := metrics.packetBatchForwardFailureCount + 1;
    }
    if successCount > 0 {
      metrics.successfulForwardedPacketsCount := metrics.successfulForwardedPacketsCount + successCount;
    }
    transmission := sent;
    assert successCount == step.successCount;
    assert Counters(metrics, stats) == Plus(before, BatchTally(option, batchLen, step));
  }

  /** One turn of the per-batch loop: an empty batch is skipped, a non-empty one is forwarded
      and its transmission, if any, appended to `sent`. Moves the state as `PassBatch` does. */
  method StepBatch(option: ForwardOption, batch: seq<Packet>, o: Oracle, budget: DataBudget,
                   metrics: LeaderSlotMetricsTracker, stats: BankingStageStats,
                   ghost st: PassState, ghost start: Tally, sent: seq<Transmission>)
    returns (sent': seq<Transmission>)
    requires budget.available == st.budget && sent == st.sent
    requires Counters(metrics, stats) == Plus(start, st.tally)
    modifies budget, metrics, stats
    ensures var r := PassBatch(option, st, batch, o);
            && budget.available == r.budget
            && sent' == r.sent
            && Counters(metrics, stats) == Plus(start, r.tally)
    ensures metrics.clearedFromBufferAfterForwardCount == old(metrics.clearedFromBufferAfterForwardCount)
  {
    sent' := sent;
    if batch != [] {
      var transmission := ForwardBatch(option, batch, o, budget, metrics, stats);
      if transmission.Some? {
        sent' := sent + [transmission.value];
      }
    }
  }

  /** The per-batch loop of a forwarding pass: every non-empty batch is forwarded in order,
      against the one shared budget, and its counters are added in place. */
  method ForwardAllBatches(option: ForwardOption, batches: seq<seq<Packet>>, oracles: seq<Oracle>,
                           budget: DataBudget, metrics: LeaderSlotMetricsTracker,
                           stats: BankingStageStats)
    returns (sent: seq<Transmission>)
    requires |oracles| == |batches|
    modifies budget, metrics, stats
    ensures var p := Pass(option, old(budget.available), batches, oracles);
            && budget.available == p.budget
            && sent == p.sent
            && Counters(metrics, stats) == Plus(old(Counters(metrics, stats)), p.tally)
    ensures metrics.clearedFromBufferAfterForwardCount == old(metrics.clearedFromBufferAfterForwardCount)
  {
    ghost var available := budget.available;
    ghost var start := Counters(metrics, stats);
    sent := [];
    var i := 0;
    while i < |batches|
      invariant 0 <= i <= |batches|
      invariant var p := Pass(option, available, batches[..i], oracles[..i]);
                && budget.available == p.budget
                && sent == p.sent
                && Counters(metrics, stats) == Plus(start, p.tally)
      invariant metrics.clearedFromBufferAfterForwardCount == old(metrics.clearedFromBufferAfterForwardCount)
      modifies budget, metrics, stats
    {
      PassPrefix(option, available, batches, oracles, i);
      sent := StepBatch(option, batches[i], oracles[i], budget, metrics, stats,
                        Pass(option, available, batches[..i], oracles[..i]), start, sent);
      i := i + 1;
    }
    assert batches[..i] == batches;
    assert oracles[..i] == oracles;
  }

  /** One forwarding pass over the batches the buffer's filter produced, batch `i` meeting the
      environment `oracles[i]`, followed by the clearing of the buffer unless `hold` is set.
      Returns the outbound operations, in order. */
  method HandleForwarding(storage: UnprocessedTransactionStorage, hold: bool, budget: DataBudget,
                          metrics: LeaderSlotMetricsTracker, stats: BankingStageStats,
                          tracer: TracerPacketStats, filter: FilterForwardingResult,
                          oracles: seq<Oracle>)
    returns (sent: seq<Transmission>)
    requires |oracles| == |filter.batches|
    modifies storage, budget, metrics, stats, tracer
    ensures var p := Pass(storage.forwardOption, old(budget.available), filter.batches, oracles);
            && budget.available == p.budget
            && sent == p.sent
            && Counters(metrics, stats) == Plus(old(Counters(metrics, stats)), p.tally)
    ensures metrics.clearedFromBufferAfterForwardCount
            == old(metrics.clearedFromBufferAfterForwardCount) + (if hold then 0 else filter.totalForwardablePackets)
    ensures tracer.totalClearedFromBufferAfterForward
            == old(tracer.totalClearedFromBufferAfterForward) + (if hold then 0 else filter.totalTracerPacketsInBuffer)
    ensures storage.packets == if hold then old(storage.packets) else []
  {
    sent := ForwardAllBatches(storage.forwardOption, filter.batches, oracles, budget, metrics, stats);
    if !hold {
      metrics.clearedFromBufferAfterForwardCount :=
        metrics.clearedFromBufferAfterForwardCount + filter.totalForwardablePackets;
      tracer.totalClearedFromBufferAfterForward :=
        tracer.totalClearedFromBufferAfterForward + filter.totalTracerPacketsInBuffer;
      storage.ClearForwardedPackets();
    }
  }

  /** The number of packets the outbound operations carry. */
  function PacketsSent(sent: seq<Transmission>): nat
  {
    if sent == [] then 0
    else
      var t := sent[|sent| - 1];
      PacketsSent(sent[..|sent| - 1]) + if t.UdpBatch? then |t.datagrams| else |t.payloads|
  }

  lemma PacketsSentSingle(t: Transmission)
    ensures PacketsSent([t]) == if t.UdpBatch? then |t.datagrams| else |t.payloads|
  {
    assert [t][..0] == [];
  }

  /** One forwarding pass over a single batch, with an empty budget and fresh counters, as the
      tests run it. */
  method RunPass(storage: UnprocessedTransactionStorage, hold: bool, batch: seq<Packet>, o: Oracle)
    returns (sent: seq<Transmission>)
    modifies storage
    ensures sent == Pass(storage.forwardOption, 0, [batch], [o]).sent
    ensures storage.packets == if hold then old(storage.packets) else []
  {
    var budget := new DataBudget.Empty();
    var metrics := new LeaderSlotMetricsTracker.New();
    var stats := new BankingStageStats.Default();
    var tracer := new TracerPacketStats.New();
    sent := HandleForwarding(storage, hold, budget, metrics, stats, tracer,
                             FilterForwardingResult([batch], |batch|, 0), [o]);
  }

  /** The budget test: one pending non-vote transaction, once with a restricted budget (empty,
      never refilled) and once with a default budget (empty, refilled on its first update).
      The first forwards no packet, the second forwards one. */
  method BudgetTest(leader: Leader, tx: Bytes) returns (restrictedSent: nat, defaultSent: nat)
    ensures restrictedSent == 0 && defaultSent == 1
  {
    var pkt := Packet(215, false, Some(tx));
    var view := LeaderView(Some(leader), None);
    BudgetScenario(leader, tx);

    var storage := new UnprocessedTransactionStorage(ForwardTransaction, [pkt]);
    var sent := RunPass(storage, true, [pkt], Oracle(view, false, Ok));
    restrictedSent := PacketsSent(sent);

    storage := new UnprocessedTransactionStorage(ForwardTransaction, [pkt]);
    sent := RunPass(storage, true, [pkt], Oracle(view, true, Ok));
    assert sent == [CacheBatch(leader.addr, [tx])];
    defaultSent := PacketsSent(sent);
    PacketsSentSingle(sent[0]);
  }

  /** The hold test: a buffer of one packet already flagged forwarded and one fresh packet,
      forwarded with hold, again with hold, and finally without hold. The batches each pass
      sees are assumed inputs, since the buffer's filter is outside this model: the first pass
      gets both packets as they were, the later ones get both flagged forwarded. The first pass
      sends exactly the fresh packet, the second and third send nothing, and the buffer holds
      2, 2 and then 0 packets. */
  method HoldTest(leader: Leader, flagged: Bytes, unsent: Bytes)
    returns (firstSent: seq<Transmission>, secondSent: seq<Transmission>,
             thirdSent: seq<Transmission>, remaining: seq<nat>)
    ensures firstSent == [CacheBatch(leader.addr, [unsent])]
    ensures secondSent == []
    ensures thirdSent == []
    ensures remaining == [2, 2, 0]
  {
    var view := LeaderView(Some(leader), None);
    var old1 := Packet(215, true, Some(flagged));
    var new1 := Packet(215, false, Some(unsent));
    var storage := new UnprocessedTransactionStorage(ForwardTransaction, [old1, new1]);

    HoldScenario(leader, flagged, unsent);
    firstSent := RunPass(storage, true, [old1, new1], Oracle(view, true, Ok));
    var afterFirst := storage.Len();
    assert afterFirst == 2;

    var marked := [old1, new1.(forwarded := true)];
    HoldScenarioSecondPass(view, marked);
    secondSent := RunPass(storage, true, marked, Oracle(view, true, Ok));
    var afterSecond := storage.Len();
    assert afterSecond == 2;

    thirdSent := RunPass(storage, false, marked, Oracle(view, true, Ok));
    var afterThird := storage.Len();
    assert afterThird == 0;
    remaining := [afterFirst, afterSecond, afterThird];
  }
}
