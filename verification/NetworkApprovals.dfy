/** Which prompts a network command stands on: its own, asked one after the other, each answered yes
    by the user while it was shown, and shared with no other call. */
module NetworkApprovals {
  import opened Wrappers
  import opened CancellationLedger
  import opened PromptBrokers
  import opened PromptInvariants
  import opened NetworkFlows
  import opened NetworkRuns

  // ---- the prompts of a flow ----

  /** The prompts a flow has asked for so far, in the order it asked. */
  function Held(f: Flow): seq<PromptId> {
    match f.pc
    case Awaiting(granted, waiting) => granted + [waiting]
    case Picking(granted) => granted
    case Issued(granted) => granted
    case _ => []
  }

  predicate InOrder(ids: seq<PromptId>) {
    forall i, j :: 0 <= i < j < |ids| ==> ids[i].TransportId? && ids[j].TransportId? && ids[i].n < ids[j].n
  }

  predicate Apart(ids: seq<PromptId>, ids': seq<PromptId>) { forall x :: x in ids ==> x !in ids' }

  /** Each flow asked in order, and no prompt serves two flows. */
  ghost predicate OwnInv(s: System) {
    && (forall f :: f in s.flows ==> InOrder(Held(s.flows[f])))
    && (forall f, g :: f in s.flows && g in s.flows && f != g ==> Apart(Held(s.flows[f]), Held(s.flows[g])))
  }

  lemma ConfirmNumbers(b: Broker, gate: Gate, request: Request, now: int)
    ensures var (_, id) := Confirm(b, gate, request, now); id.Some? ==> id == Some(TransportId(b.sequence))
  {
    hide ValidRequest, IsOperationCanceled, CountPlugin, Parsed;
  }

  lemma AskNextHolds(s: System, f: FlowId, granted: seq<PromptId>, resourceLabel: string, now: int)
    requires f in s.flows
    ensures var held := Held(AskNext(s, f, granted, resourceLabel, now).flows[f]);
            held == [] || held == granted + [TransportId(s.transport.sequence)]
  {
    hide Confirm, PromptRequest, ApplyEffect;
    ConfirmNumbers(s.transport, s.gate, PromptRequest(s.flows[f], |granted|, resourceLabel), now);
  }

  /** A flow keeps its prompts, gives them up, or adds the one that the broker numbers next. */
  ghost predicate HeldMoves(before: seq<PromptId>, after: seq<PromptId>, sequence: nat) {
    after == before || after == [] || after == before + [TransportId(sequence)]
  }

  lemma LookupCounts(s: System, f: Flow, now: int)
    ensures var s1 := Lookup(s, f, now).0; s1.transport.sequence == s.transport.sequence && s1.flows == s.flows
  {
    hide Purge;
  }

  lemma ResumeHolds(s: System, f: FlowId, resourceLabel: string, picked: Picked, now: int)
    requires f in s.flows
    ensures HeldMoves(Held(s.flows[f]), Held(ResumeFlow(s, f, resourceLabel, picked, now).flows[f]),
            s.transport.sequence)
  {
    hide Lookup, AskNext;
    var flow := s.flows[f];
    LookupCounts(s, flow, now);
    var s1 := Lookup(s, flow, now).0;
    match flow.pc {
      case Begin => AskNextHolds(s1, f, [], resourceLabel, now);
      case Awaiting(granted, waiting) => AskNextHolds(s1, f, granted + [waiting], resourceLabel, now);
      case _ =>
    }
  }

  lemma StepHolds(s: System, event: Event, now: int, f: FlowId)
    requires f in Apply(s, event, now).flows
    ensures f !in s.flows ==> Held(Apply(s, event, now).flows[f]) == []
    ensures f in s.flows ==>
              var held := Held(Apply(s, event, now).flows[f]);
              if event.Resume? && event.flow == f then HeldMoves(Held(s.flows[f]), held, s.transport.sequence)
              else held == Held(s.flows[f])
  {
    hide ResumeFlow, HeldMoves, Confirm, Ask, Finish, Settle, Clear, MarkUnavailable, CancelOperation, Record;
    hide ValidPluginId, CanonicalUuid;
    if event.Resume? && event.flow in s.flows {
      ResumeHolds(s.(clock := now), event.flow, event.resourceLabel, event.picked, now);
    }
  }

  /** What a flow holds was asked for, so the broker numbered it. */
  lemma HeldIsAsked(s: System, f: FlowId)
    requires Inv(s) && f in s.flows
    ensures forall x :: x in Held(s.flows[f]) ==> x in s.asked && x.TransportId? && x.n < s.transport.sequence
    ensures forall i :: 0 <= i < |Held(s.flows[f])| - 1 ==> Held(s.flows[f])[i] in s.approved
  {
    hide BrokerInv, GateInv, HistoryInv, Pending, Ids;
    var pc := s.flows[f].pc;
    assert FlowInv(s, s.flows[f]);
    var granted := if pc.Awaiting? || pc.Picking? || pc.Issued? then pc.granted else [];
    assert forall i :: 0 <= i < |granted| ==> Held(s.flows[f])[i] == granted[i] && granted[i] in s.approved;
  }

  lemma StepKeepsOwn(s: System, event: Event, now: int)
    requires Inv(s) && OwnInv(s)
    ensures OwnInv(Apply(s, event, now))
  {
    hide Inv, Apply, Held;
    var s' := Apply(s, event, now);
    forall f | f in s'.flows
      ensures InOrder(Held(s'.flows[f]))
      ensures forall g :: g in s'.flows && f != g ==> Apart(Held(s'.flows[f]), Held(s'.flows[g]))
    {
      StepHolds(s, event, now, f);
      if f in s.flows { HeldIsAsked(s, f); }
      forall g | g in s'.flows && f != g ensures Apart(Held(s'.flows[f]), Held(s'.flows[g])) {
        StepHolds(s, event, now, g);
        if g in s.flows { HeldIsAsked(s, g); }
      }
    }
  }

  lemma {:induction false} RunKeepsOwn(run: seq<Stamped>)
    requires OnTime(run)
    ensures OwnInv(AfterRun(run))
  {
    hide Inv, Apply, OwnInv;
    if run == [] {
      NothingIsOwned();
    } else {
      var shorter := run[..|run| - 1];
      RunKeepsOwn(shorter);
      RunKeepsInv(shorter);
      StepKeepsOwn(AfterRun(shorter), run[|run| - 1].event, run[|run| - 1].time);
    }
  }

  lemma NothingIsOwned()
    ensures OwnInv(Initial())
  {
  }

  /** A flow asks for its next prompt only after the earlier ones were answered yes: at no point of the
      run has the later one been asked for and the earlier one not been approved. */
  lemma {:induction false} PromptsComeInTurn(run: seq<Stamped>, f: FlowId, i: nat, j: nat, k: nat)
    requires OnTime(run) && f in AfterRun(run).flows && i < j < |Held(AfterRun(run).flows[f])| && k <= |run|
    requires Held(AfterRun(run).flows[f])[j] in AfterRun(run[..k]).asked
    ensures Held(AfterRun(run).flows[f])[i] in AfterRun(run[..k]).approved
    decreases |run|
  {
    hide Inv, Apply, Held, Extends;
    RunKeepsInv(run);
    if k == |run| {
      assert run[..k] == run;
      HeldIsAsked(AfterRun(run), f);
    } else {
      var shorter := run[..|run| - 1];
      var s := AfterRun(shorter);
      RunKeepsInv(shorter);
      assert shorter[..k] == run[..k];
      StepHolds(s, run[|run| - 1].event, run[|run| - 1].time, f);
      NextIsNotAsked(shorter, k);
      if f in s.flows && j < |Held(s.flows[f])| { PromptsComeInTurn(shorter, f, i, j, k); }
    }
  }

  lemma NextIsNotAsked(run: seq<Stamped>, k: nat)
    requires OnTime(run) && k <= |run|
    ensures TransportId(AfterRun(run).transport.sequence) !in AfterRun(run[..k]).asked
  {
    hide AfterRun, BrokerInv, GateInv, HistoryInv, FlowInv, Pending, Ids;
    RunKeepsInv(run);
    PromisesSettleOnce(run, k, TransportId(0));
  }

  // ---- approvals ----

  /** Approval means what it says: only answering the shown prompt with yes adds one. */
  lemma {:induction false} OnlyAnswersApprove(s: System, event: Event, now: int, id: PromptId)
    requires Inv(s) && id !in s.approved && id in Apply(s, event, now).approved
    ensures event == Answer(id, true) && Shown(s) == [id]
  {
    hide Confirm, Settle, Clear, MarkUnavailable, CancelOperation, Record, IsOperationCanceled, ValidPluginId;
    hide CanonicalUuid;
    hide BrokerInv, PromiseInv, HistoryInv, FlowInv;
    OneIsShown(s);
  }

  /** An approved prompt was answered yes at some point of the run, and was the one shown just then. */
  lemma {:induction false} ApprovedWasAnswered(run: seq<Stamped>, id: PromptId) returns (k: nat)
    requires OnTime(run) && id in AfterRun(run).approved
    ensures k < |run| && run[k].event == Answer(id, true) && Shown(AfterRun(run[..k])) == [id]
  {
    hide Inv, Apply, Shown;
    if run == [] {
      assert false;
    } else {
      var shorter := run[..|run| - 1];
      RunKeepsInv(shorter);
      if id in AfterRun(shorter).approved {
        k := ApprovedWasAnswered(shorter, id);
        assert shorter[..k] == run[..k];
      } else {
        OnlyAnswersApprove(AfterRun(shorter), run[|run| - 1].event, run[|run| - 1].time, id);
        k := |run| - 1;
      }
    }
  }

  /** The user said yes to this prompt while it was the one shown. */
  ghost predicate SaidYes(run: seq<Stamped>, id: PromptId) {
    exists k :: 0 <= k < |run| && run[k].event == Answer(id, true) && Shown(AfterRun(run[..k])) == [id]
  }

  /** When a native command has been invoked, the user has said yes to every prompt it needs while that
      prompt was shown: for a clone one about the source and then one about the network, otherwise one
      about the network; each for this plugin and this operation, and the later one asked for only
      after the earlier one was approved. */
  lemma {:induction false} CommandsAreApproved(run: seq<Stamped>, f: FlowId)
    requires OnTime(run)
    requires f in AfterRun(run).flows && AfterRun(run).flows[f].pc.Issued?
    ensures var s := AfterRun(run);
            var flow := s.flows[f];
            var granted := flow.pc.granted;
            && |granted| == (if flow.operation == Clone then 2 else 1)
            && (forall i :: 0 <= i < |granted| ==>
                 && SaidYes(run, granted[i]) && granted[i] in s.asked
                 && var r := s.asked[granted[i]];
                    && r.plugin == flow.plugin && r.operationId == Some(flow.operationId)
                    && r.operation == flow.operation
                    && r.kind == if flow.operation == Clone && i == 0 then SourceTrust else NetworkPrompt)
            && InOrder(granted)
            && (forall i, j, k ::
                 0 <= i < j < |granted| && 0 <= k <= |run| && granted[j] in AfterRun(run[..k]).asked ==>
                 granted[i] in AfterRun(run[..k]).approved)
  {
    hide AfterRun, Apply, BrokerInv, HistoryInv, GateInv, PromiseInv, Shown, OnTime;
    var s := AfterRun(run);
    var granted := s.flows[f].pc.granted;
    RunKeepsInv(run);
    assert FlowInv(s, s.flows[f]);
    RunKeepsOwn(run);
    assert Held(s.flows[f]) == granted;
    forall i | 0 <= i < |granted| ensures SaidYes(run, granted[i]) {
      var k := ApprovedWasAnswered(run, granted[i]);
    }
    forall i, j, k | 0 <= i < j < |granted| && 0 <= k <= |run| && granted[j] in AfterRun(run[..k]).asked
      ensures granted[i] in AfterRun(run[..k]).approved
    {
      PromptsComeInTurn(run, f, i, j, k);
    }
  }

  /** Two calls never stand on the same yes, not even for the same plugin and operation. */
  lemma {:induction false} ApprovalsAreNotShared(run: seq<Stamped>, f: FlowId, g: FlowId)
    requires OnTime(run) && f in AfterRun(run).flows && g in AfterRun(run).flows && f != g
    ensures Apart(Held(AfterRun(run).flows[f]), Held(AfterRun(run).flows[g]))
  {
    hide AfterRun, Held, Apart, InOrder;
    RunKeepsOwn(run);
  }
}
