/** Whole runs of the network flows: what holds at every point of every run, and what a cancellation
    stops. */
module NetworkRuns {
  import opened Wrappers
  import opened CancellationLedger
  import opened PromptBrokers
  import opened PromptInvariants
  import opened NetworkFlows

  // ---- whole runs ----

  datatype Stamped = Stamped(event: Event, time: int)

  function Initial(): System {
    System(Broker(None, [], [], 0), None, Provider(None, 0), Provider(None, 0), map[], map[], {}, [], map[], 0)
  }

  /** Time never goes back, and starts at or after 0. */
  ghost predicate OnTime(run: seq<Stamped>) {
    && (forall i :: 0 <= i < |run| ==> 0 <= run[i].time)
    && forall i, j :: 0 <= i < j < |run| ==> run[i].time <= run[j].time
  }

  function AfterRun(run: seq<Stamped>): System {
    if run == [] then Initial() else Apply(AfterRun(run[..|run| - 1]), run[|run| - 1].event, run[|run| - 1].time)
  }

  lemma InitialInv()
    ensures Inv(Initial())
  {
  }

  lemma ClockIsSet(s: System, event: Event, now: int)
    ensures Apply(s, event, now).clock == now
  {
    hide ResumeFlow, Confirm, Settle, Clear, MarkUnavailable, CancelOperation, Record, ValidPluginId, CanonicalUuid;
    hide Ask, Finish;
  }

  lemma {:induction false} RunKeepsInv(run: seq<Stamped>)
    requires OnTime(run)
    ensures Inv(AfterRun(run))
    ensures AfterRun(run).clock == if run == [] then 0 else run[|run| - 1].time
  {
    hide Inv, Apply;
    if run == [] {
      InitialInv();
    } else {
      var shorter := run[..|run| - 1];
      var last := run[|run| - 1];
      RunKeepsInv(shorter);
      ApplyKeepsInv(AfterRun(shorter), last.event, last.time);
      ClockIsSet(AfterRun(shorter), last.event, last.time);
    }
  }

  lemma ShownIsTheGate(s: System)
    requires Inv(s)
    ensures |Shown(s)| <= 1 && (s.gate.Some? <==> Shown(s) != []) && (s.gate.Some? ==> Shown(s) == [s.gate.value])
  {
    hide BrokerInv, PromiseInv, HistoryInv, FlowInv, Shown;
  }

  lemma PendingIsBounded(s: System)
    requires Inv(s)
    ensures |Pending(s.transport)| <= 16 && (forall plugin :: CountPlugin(Pending(s.transport), plugin) <= 4)
    ensures s.transport.active.None? ==> s.transport.queued == []
    ensures forall p, q :: p == s.transport.active && q in s.transport.queued && p.Some? ==> p.value.id.n < q.id.n
    ensures forall p :: p in Pending(s.transport) ==> !InLedger(p, s.transport.ledger)
  {
    hide GateInv, PromiseInv, HistoryInv, FlowInv, CountPlugin, InLedger, ValidRequest;
    forall q | q in s.transport.queued && s.transport.active.Some? ensures s.transport.active.value.id.n < q.id.n {
      var i :| 0 <= i < |s.transport.queued| && s.transport.queued[i] == q;
      assert Pending(s.transport)[0] == s.transport.active.value && Pending(s.transport)[i + 1] == q;
    }
    forall p | p in Pending(s.transport) ensures !InLedger(p, s.transport.ledger) {
      var i :| 0 <= i < |Pending(s.transport)| && Pending(s.transport)[i] == p;
    }
  }

  /** At every point of every run: at most one prompt is shown over all three brokers, and the gate is
      held exactly by it; the pending transport prompts are at most 16, at most 4 per plugin, in
      arrival order with the active one oldest, and none belongs to a remembered cancellation;
      nothing waits without an active prompt. */
  lemma {:induction false} EveryRunIsBounded(run: seq<Stamped>)
    requires OnTime(run)
    ensures var s := AfterRun(run);
            && |Shown(s)| <= 1 && (s.gate.Some? <==> Shown(s) != []) && (s.gate.Some? ==> Shown(s) == [s.gate.value])
            && |Pending(s.transport)| <= 16 && (forall plugin :: CountPlugin(Pending(s.transport), plugin) <= 4)
            && (s.transport.active.None? ==> s.transport.queued == [])
            && (forall p, q :: p == s.transport.active && q in s.transport.queued && p.Some? ==> p.value.id.n < q.id.n)
            && (forall p :: p in Pending(s.transport) ==> !InLedger(p, s.transport.ledger))
  {
    hide AfterRun, Inv, Shown, Pending, CountPlugin, InLedger;
    RunKeepsInv(run);
    ShownIsTheGate(AfterRun(run));
    PendingIsBounded(AfterRun(run));
  }

  /** Every promise is pending or settled, not both, and once settled keeps its outcome for ever. */
  lemma {:induction false} PromisesSettleOnce(run: seq<Stamped>, n: nat, id: PromptId)
    requires OnTime(run) && n <= |run|
    ensures var s := AfterRun(run);
            id in s.asked ==> (id in s.settled <==> id !in Ids(Pending(s.transport)))
    ensures Extends(AfterRun(run[..n]), AfterRun(run))
  {
    hide Apply, Inv, Extends, Ids, Pending;
    RunKeepsInv(run);
    PromiseNow(AfterRun(run), id);
    if n == |run| {
      assert run[..n] == run;
      ExtendsItself(AfterRun(run));
    } else {
      var shorter := run[..|run| - 1];
      PromisesSettleOnce(shorter, n, id);
      RunKeepsInv(shorter);
      assert shorter[..n] == run[..n];
      ApplyKeepsInv(AfterRun(shorter), run[|run| - 1].event, run[|run| - 1].time);
      ExtendsTwice(AfterRun(run[..n]), AfterRun(shorter), AfterRun(run));
    }
  }

  lemma PromiseNow(s: System, id: PromptId)
    requires Inv(s)
    ensures id in s.asked ==> (id in s.settled <==> id !in Ids(Pending(s.transport)))
  {
    hide BrokerInv, GateInv, HistoryInv, FlowInv, Ids, Pending;
  }

  lemma ExtendsItself(s: System)
    ensures Extends(s, s)
  {
  }

  // ---- cancellations ----

  /** While a cancellation is remembered, the flow it names invokes nothing: whatever it does next,
      it returns null, or fails because its prompt or its file picker failed. */
  lemma CancellationStopsFlow(s: System, f: FlowId, resourceLabel: string, picked: Picked, now: int)
    requires Inv(s) && s.clock <= now && f in s.flows && !s.flows[f].pc.Issued?
    requires Remembered(History(s.uses), Key(s.flows[f]), now)
    ensures var pc := s.flows[f].pc;
            var pc' := ResumeFlow(s.(clock := now), f, resourceLabel, picked, now).flows[f].pc;
            && !pc'.Issued?
            && (pc.Begin? ==> pc' == ReturnedNull)
            && (pc.Awaiting? && pc.waiting in s.settled ==>
                  pc' == if s.settled[pc.waiting].Answered? then ReturnedNull else Failed)
            && (pc.Picking? ==> pc' == if picked.PickFailed? then Failed else ReturnedNull)
  {
    hide Inv, Lookup, AskNext, Proceed, Remembered, History;
    LookupKeepsSystem(s, s.flows[f], now);
  }

  /** In particular, at the very step that invokes a command its operation is not cancelled. */
  lemma {:induction false} NothingIssuedWhileCancelled(s: System, event: Event, now: int, f: FlowId)
    requires Inv(s) && s.clock <= now && f in s.flows && !s.flows[f].pc.Issued?
    requires f in Apply(s, event, now).flows && Apply(s, event, now).flows[f].pc.Issued?
    ensures event.Resume? && event.flow == f && !Remembered(History(s.uses), Key(s.flows[f]), now)
  {
    hide Inv, ResumeFlow, Remembered, History, Record, Confirm, Settle, Clear, MarkUnavailable, CancelOperation;
    hide ValidPluginId, CanonicalUuid;
    if event.Resume? && event.flow == f && Remembered(History(s.uses), Key(s.flows[f]), now) {
      CancellationStopsFlow(s, f, event.resourceLabel, event.picked, now);
    }
  }

  /** A cancellation reaches a waiting flow: its prompt is settled with no at once, unless it had
      been settled before. */
  lemma CancellationAnswersWaiting(s: System, f: FlowId, now: int)
    requires Inv(s) && s.clock <= now && f in s.flows && s.flows[f].pc.Awaiting?
    requires ValidPluginId(s.flows[f].plugin) && CanonicalUuid(s.flows[f].operationId)
    ensures var flow := s.flows[f];
            var s' := Apply(s, CancelCall(flow.plugin, flow.operationId), now);
            && flow.pc.waiting in s'.settled
            && (flow.pc.waiting !in s.settled ==> s'.settled[flow.pc.waiting] == Answered(false))
            && Remembered(History(s'.uses), Key(flow), now)
  {
    hide Remembered, History, CancelOperation, ValidPluginId, CanonicalUuid, Record, Inv, Extends;
    var flow := s.flows[f];
    CancelCallKeepsInv(s, flow.plugin, flow.operationId, now);
    WaitingIsAnswered(s, f, now);
    JustCancelled(s.uses, Key(flow), now);
  }

  /** What cancelling settles: the awaited promise, unless it was settled before. */
  lemma WaitingIsAnswered(s: System, f: FlowId, now: int)
    requires Inv(s) && f in s.flows && s.flows[f].pc.Awaiting?
    requires ValidPluginId(s.flows[f].plugin) && CanonicalUuid(s.flows[f].operationId)
    ensures var flow := s.flows[f];
            var w := flow.pc.waiting;
            var settled := Record(s.settled,
                CancelOperation(s.transport, s.gate, flow.plugin, flow.operationId, now).settled);
            w in settled && (w !in s.settled ==> settled[w] == Answered(false))
  {
    hide CancelOperation, ValidPluginId, CanonicalUuid, After, QueueOk, Record, Pending, Ids, SettledIds, GateInv;
    hide HistoryInv, BrokerInv;
    var flow := s.flows[f];
    var w := flow.pc.waiting;
    var e := CancelOperation(s.transport, s.gate, flow.plugin, flow.operationId, now);
    assert FlowInv(s, flow);
    RecordKeeps(s.settled, e.settled, w);
    if w !in s.settled {
      CancelOperationPending(s.transport, s.gate, flow.plugin, flow.operationId, now);
      IdsMember(Pending(s.transport), w);
      var p :| p in Pending(s.transport) && p.id == w;
      SelectIsSubsequence(Pending(s.transport), flow.plugin, flow.operationId, true);
      MemberIds(Select(Pending(s.transport), flow.plugin, flow.operationId, true), p);
      var settled := RecordedOutcome(s.settled, e.settled, w);
    }
  }

  lemma JustCancelled(uses: seq<Use>, key: string, now: int)
    ensures Remembered(History(uses + [Cancelled(key, now)]), key, now)
  {
    var h := History(uses + [Cancelled(key, now)]);
    assert (uses + [Cancelled(key, now)])[..|uses|] == uses;
    assert KeysSince(h, |h|) == {};
  }
}
