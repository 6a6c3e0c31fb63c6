/** What the network flows do when nothing stands in their way: which prompt a call asks for, what each
    answer leads to, and when the native command is invoked. */
module NetworkProgress {
  import opened Wrappers
  import opened CancellationLedger
  import opened PromptBrokers
  import opened PromptInvariants
  import opened NetworkFlows
  import opened NetworkRuns
  import opened Text

  // ---- what each event does to the prompts ----

  /** A promise of the next number was made for this request: its prompt joins the pending ones if there
      is room and the gate is free or the broker's own, and else it is refused as busy at once. */
  ghost predicate Promised(s: System, s': System, w: PromptId, request: Request) {
    && w == TransportId(s.transport.sequence) && s'.transport.sequence == s.transport.sequence + 1
    && s'.asked == s.asked[w := request]
    && if |Pending(s.transport)| < 16 && CountPlugin(Pending(s.transport), request.plugin) < 4
          && (s.gate.None? || Pending(s.transport) != [])
       then Pending(s'.transport) == Pending(s.transport) + [Prompt(w, request)]
       else Pending(s'.transport) == Pending(s.transport) && w in s'.settled && s'.settled[w] == Rejected(Busy)
  }

  predicate CancelledNow(s: System, request: Request, now: int) {
    && request.operationId.Some?
    && Remembered(History(s.uses), CancellationKey(request.plugin, request.operationId.value), now)
  }

  lemma RecordOne(settled: map<PromptId, Outcome>, id: PromptId, outcome: Outcome)
    ensures Record(settled, [Settled(id, outcome)]) == settled[id := outcome]
  {
    assert [Settled(id, outcome)][1..] == [];
  }

  lemma LookupIsRemembered(s: System, request: Request, now: int)
    requires Inv(s) && s.clock <= now
    ensures AskedAfterCancel(s.transport, request, now) <==> CancelledNow(s, request, now)
  {
    hide BrokerInv, GateInv, PromiseInv, FlowInv, After, Remembered, Purge, Has;
    if request.operationId.Some? {
      LedgerIsExact(s.uses, CancellationKey(request.plugin, request.operationId.value), now);
    }
  }

  /** Confirming a well-formed request that is not cancelled makes a promise; a cancelled one is answered
      no at once, and an ill-formed one changes nothing. */
  lemma ConfirmingPromises(s: System, request: Request, now: int)
    requires Inv(s) && s.clock <= now
    ensures var (s', id) := Confirming(s.(clock := now), request, now);
            var shown := request.(resourceLabel := Trim(request.resourceLabel));
            && id == (if ValidRequest(request) then Some(TransportId(s.transport.sequence)) else None)
            && (id.None? ==> s' == s.(clock := now))
            && (id.Some? && !CancelledNow(s, request, now) ==> Promised(s, s', id.value, shown))
            && (id.Some? && CancelledNow(s, request, now) ==>
                  && s'.asked == s.asked[id.value := shown] && Pending(s'.transport) == Pending(s.transport)
                  && id.value in s'.settled && s'.settled[id.value] == Answered(false))
  {
    hide BrokerInv, GateInv, PromiseInv, FlowInv, HistoryInv, ValidRequest, Confirm, Pending, CancelledNow;
    hide Remembered, AskedAfterCancel, Trim, CountPlugin, Good;
    var (e, id) := Confirm(s.transport, s.gate, request, now);
    ConfirmIsGood(s.transport, s.gate, request, now);
    ConfirmOutcome(s.transport, s.gate, request, now);
    LookupIsRemembered(s, request, now);
    if id.Some? {
      RecordOne(s.settled, id.value, Rejected(Busy));
      RecordOne(s.settled, id.value, Answered(false));
    }
  }

  /** Another caller's request is treated alike. */
  lemma OtherConfirmPromises(s: System, request: Request, now: int)
    requires Inv(s) && s.clock <= now
    ensures var s' := Apply(s, OtherConfirm(request), now);
            var shown := request.(resourceLabel := Trim(request.resourceLabel));
            && (!ValidRequest(request) ==> s' == s.(clock := now))
            && (ValidRequest(request) && !CancelledNow(s, request, now) ==>
                  Promised(s, s', TransportId(s.transport.sequence), shown))
  {
    hide Inv, Confirming, CancelledNow, ValidRequest, Trim;
    ConfirmingPromises(s, request, now);
  }

  /** Answering the shown prompt settles its promise with the answer, and the next one is shown; a yes is
      an approval. Answering any other changes nothing. */
  lemma AnswerSettles(s: System, id: PromptId, result: bool, now: int)
    requires Inv(s)
    ensures var s' := Apply(s, Answer(id, result), now);
            if s.transport.active.Some? && s.transport.active.value.id == id
            then && s'.settled == s.settled[id := Answered(result)]
                 && Pending(s'.transport) == Pending(s.transport)[1..]
                 && s'.approved == (if result then s.approved + {id} else s.approved)
                 && s'.transport.sequence == s.transport.sequence
            else s' == s.(clock := now)
  {
    hide GateInv, PromiseInv, HistoryInv, FlowInv, BrokerInv, Settle, Pending, Good;
    SettleIsGood(s.transport, s.gate, id, result);
    SettleTakesFirst(s.transport, s.gate, id, result);
    RecordOne(s.settled, id, Answered(result));
  }

  lemma {:induction false} AllRecorded(settled: map<PromptId, Outcome>, ps: seq<Prompt>, outcome: Outcome, p: Prompt)
    requires p in ps
    ensures var after := Record(settled, All(ps, outcome)); p.id in after && after[p.id] == outcome
    decreases |ps|
  {
    var rest := All(ps[1..], outcome);
    assert All(ps, outcome)[1..] == rest;
    var first := settled[ps[0].id := outcome];
    if p in ps[1..] {
      AllRecorded(first, ps[1..], outcome, p);
    } else {
      RecordedAlike(first, rest, outcome, p.id);
    }
  }

  lemma {:induction false} RecordedAlike(settled: map<PromptId, Outcome>, now: seq<Settled>, outcome: Outcome,
      id: PromptId)
    requires id in settled && settled[id] == outcome && forall s :: s in now ==> s.outcome == outcome
    ensures id in Record(settled, now) && Record(settled, now)[id] == outcome
    decreases |now|
  {
    if now != [] {
      assert now[0] in now;
      RecordedAlike(settled[now[0].id := now[0].outcome], now[1..], outcome, id);
    }
  }

  /** Dismissing everything answers every pending prompt with no, and losing the dialog of the shown one
      rejects every pending prompt as unavailable; nothing is pending then. */
  lemma ClearingSettlesAll(s: System, event: Event, now: int)
    requires Inv(s) && (event.DismissAll? || event.DialogGone?)
    ensures var s' := Apply(s, event, now);
            if event.DismissAll? || (s.transport.active.Some? && s.transport.active.value.id == event.id)
            then && Pending(s'.transport) == []
                 && forall p :: p in Pending(s.transport) ==>
                      && p.id in s'.settled
                      && s'.settled[p.id] == if event.DismissAll? then Answered(false) else Rejected(Unavailable)
            else s' == s.(clock := now)
  {
    hide GateInv, PromiseInv, HistoryInv, FlowInv, BrokerInv, Clear, Pending, Record;
    var outcome := if event.DismissAll? then Answered(false) else Rejected(Unavailable);
    ClearTakesAll(s.transport, s.gate, outcome);
    NothingRecorded(s.settled);
    forall p | p in Pending(s.transport)
      ensures var after := Record(s.settled, All(Pending(s.transport), outcome));
              p.id in after && after[p.id] == outcome
    {
      AllRecorded(s.settled, Pending(s.transport), outcome, p);
    }
  }

  lemma NothingRecorded(settled: map<PromptId, Outcome>)
    ensures Record(settled, []) == settled
  {
  }

  /** Cancelling a well-formed operation is remembered from then on, settles every pending prompt of it with
      no, and leaves the others pending in order. */
  lemma CancellingSettlesIts(s: System, plugin: string, operationId: string, now: int)
    requires Inv(s) && ValidPluginId(plugin) && CanonicalUuid(operationId)
    ensures var s' := Apply(s, CancelCall(plugin, operationId), now);
            && Remembered(History(s'.uses), CancellationKey(plugin, operationId), now)
            && Pending(s'.transport) == Select(Pending(s.transport), plugin, operationId, false)
            && forall p :: p in Pending(s.transport) && Belongs(p, plugin, operationId) ==>
                 p.id in s'.settled && s'.settled[p.id] == Answered(false)
  {
    hide GateInv, PromiseInv, HistoryInv, FlowInv, BrokerInv, CancelOperation, Pending, Record, Remembered, History;
    hide ValidPluginId, CanonicalUuid, Ids, SettledIds, Belongs;
    CancelOperationPending(s.transport, s.gate, plugin, operationId, now);
    JustCancelled(s.uses, CancellationKey(plugin, operationId), now);
    var e := CancelOperation(s.transport, s.gate, plugin, operationId, now);
    forall p | p in Pending(s.transport) && Belongs(p, plugin, operationId)
      ensures p.id in Record(s.settled, e.settled) && Record(s.settled, e.settled)[p.id] == Answered(false)
    {
      SelectIsSubsequence(Pending(s.transport), plugin, operationId, true);
      MemberIds(Select(Pending(s.transport), plugin, operationId, true), p);
      var settled := RecordedOutcome(s.settled, e.settled, p.id);
    }
  }

  /** A credential prompt is shown exactly when nothing is, and ending it shows nothing. */
  lemma CredentialPromptShows(s: System, which: Option<PromptId>, now: int)
    requires Inv(s) && s.clock <= now
    ensures Shown(Apply(s, RequestCredential, now)) ==
            if Shown(s) == [] then [ProviderId(s.credential.sequence)] else Shown(s)
    ensures Shown(Apply(s, FinishCredential(which), now)) ==
            if s.credential.active.Some? && which in {None, s.credential.active} then [] else Shown(s)
  {
    hide PromiseInv, HistoryInv, FlowInv, BrokerInv, Shown;
    OneIsShown(s);
    CredentialKeepsInv(s, RequestCredential, now);
    CredentialKeepsInv(s, FinishCredential(which), now);
  }

  /** So is a prompt for access to a repository. */
  lemma AccessPromptShows(s: System, which: Option<PromptId>, now: int)
    requires Inv(s) && s.clock <= now
    ensures Shown(Apply(s, RequestAccess, now)) ==
            if Shown(s) == [] then [ProviderId(s.access.sequence)] else Shown(s)
    ensures Shown(Apply(s, FinishAccess(which), now)) ==
            if s.access.active.Some? && which in {None, s.access.active} then [] else Shown(s)
  {
    hide PromiseInv, HistoryInv, FlowInv, BrokerInv, Shown;
    OneIsShown(s);
    AccessKeepsInv(s, RequestAccess, now);
    AccessKeepsInv(s, FinishAccess(which), now);
  }

  // ---- what a flow asks ----

  predicate WellFormedCall(flow: Flow, resourceLabel: string) {
    ValidPluginId(flow.plugin) && CanonicalUuid(flow.operationId) && ValidLabel(resourceLabel)
  }

  /** The flow now waits for its next prompt: about the source for the first of a clone, about the network
      otherwise, for its own plugin, operation and label; or it has failed because these are no good. */
  ghost predicate Asks(s: System, s': System, f: FlowId, granted: seq<PromptId>, resourceLabel: string)
    requires f in s.flows && f in s'.flows
  {
    var flow := s.flows[f];
    var w := TransportId(s.transport.sequence);
    var kind := if flow.operation == Clone && granted == [] then SourceTrust else NetworkPrompt;
    if WellFormedCall(flow, resourceLabel)
    then && s'.flows[f].pc == Awaiting(granted, w)
         && Promised(s, s', w, Request(flow.plugin, Some(flow.operationId), kind, flow.operation, Trim(resourceLabel)))
    else s'.flows[f].pc == Failed
  }

  lemma FlowRequestIsValid(flow: Flow, i: nat, resourceLabel: string)
    requires flow.operation != BindProfile && i < Needed(flow)
    ensures ValidRequest(PromptRequest(flow, i, resourceLabel)) <==> WellFormedCall(flow, resourceLabel)
  {
    hide ValidPluginId, CanonicalUuid, ValidLabel;
  }

  /** The lookup before a step changes nothing a request depends on. */
  lemma LookupKeepsAsking(s: System, f: Flow, now: int)
    requires Inv(s) && s.clock <= now
    ensures var s1 := Lookup(s.(clock := now), f, now).0;
            && Pending(s1.transport) == Pending(s.transport) && s1.gate == s.gate && s1.asked == s.asked
            && s1.settled == s.settled && s1.transport.sequence == s.transport.sequence
            && History(s1.uses) == History(s.uses)
  {
    hide Purge, Has, Inv;
    assert (s.uses + [LookedUp(now)])[..|s.uses|] == s.uses;
  }

  lemma AskNextAsks(s: System, f: FlowId, granted: seq<PromptId>, resourceLabel: string, now: int)
    requires Inv(s) && f in s.flows && s.clock == now && |granted| < Needed(s.flows[f])
    requires !Remembered(History(s.uses), Key(s.flows[f]), now)
    ensures var s' := AskNext(s, f, granted, resourceLabel, now);
            Asks(s, s', f, granted, resourceLabel) && s'.flows[f] == s.flows[f].(pc := s'.flows[f].pc)
  {
    hide GateInv, PromiseInv, HistoryInv, BrokerInv, Confirming, ValidRequest, WellFormedCall, Promised, Trim;
    hide Remembered;
    assert s.(clock := now) == s;
    assert FlowInv(s, s.flows[f]);
    var request := PromptRequest(s.flows[f], |granted|, resourceLabel);
    FlowRequestIsValid(s.flows[f], |granted|, resourceLabel);
    ConfirmingPromises(s, request, now);
    var s1 := Confirming(s, request, now).0;
    var s' := AskNext(s, f, granted, resourceLabel, now);
    ConfirmingKeepsSystem(s, request, now);
    PromisedSurvives(s, s1, s', TransportId(s.transport.sequence), request.(resourceLabel := Trim(resourceLabel)));
  }

  lemma PromisedSurvives(s: System, s1: System, s': System, w: PromptId, request: Request)
    requires s' == s1.(flows := s'.flows)
    ensures Promised(s, s1, w, request) ==> Promised(s, s', w, request)
  {
  }

  /** What a promise looks like does not depend on the lookup before it. */
  lemma PromisedBefore(s: System, s1: System, s': System, f: FlowId, granted: seq<PromptId>, resourceLabel: string)
    requires f in s.flows && s1.flows == s.flows && f in s'.flows
    requires Pending(s1.transport) == Pending(s.transport) && s1.gate == s.gate && s1.asked == s.asked
    requires s1.transport.sequence == s.transport.sequence
    ensures Asks(s1, s', f, granted, resourceLabel) <==> Asks(s, s', f, granted, resourceLabel)
  {
    hide WellFormedCall, Trim, Pending, CountPlugin;
  }

  // ---- what each answer leads to ----

  /** After the ledger was consulted and the operation is not cancelled. */
  lemma CheckedAsks(s: System, f: FlowId, granted: seq<PromptId>, resourceLabel: string, now: int)
    requires Inv(s) && f in s.flows && s.clock <= now && |granted| < Needed(s.flows[f])
    requires !Remembered(History(s.uses), Key(s.flows[f]), now)
    ensures var s1 := Lookup(s.(clock := now), s.flows[f], now).0;
            var s' := AskNext(s1, f, granted, resourceLabel, now);
            && s1.flows == s.flows && s'.flows[f] == s.flows[f].(pc := s'.flows[f].pc)
            && Asks(s, s', f, granted, resourceLabel)
  {
    hide Inv, Lookup, AskNext, Asks, Remembered, History;
    LookupKeepsSystem(s, s.flows[f], now);
    LookupKeepsAsking(s, s.flows[f], now);
    var s1 := Lookup(s.(clock := now), s.flows[f], now).0;
    AskNextAsks(s1, f, granted, resourceLabel, now);
    PromisedBefore(s, s1, AskNext(s1, f, granted, resourceLabel, now), f, granted, resourceLabel);
  }

  /** Every way a call goes on, once it is resumed: what it asks, what a yes, a no, a rejection, a
      cancellation and the file picker lead to. Nothing but this call moves. */
  lemma {:induction false} ResumingGoesOn(s: System, f: FlowId, resourceLabel: string, picked: Picked, now: int)
    requires Inv(s) && s.clock <= now && f in s.flows
    ensures var s' := Apply(s, Resume(f, resourceLabel, picked), now);
            var flow := s.flows[f];
            var stopped := Remembered(History(s.uses), CancellationKey(flow.plugin, flow.operationId), now);
            && f in s'.flows && s'.flows == s.flows[f := flow.(pc := s'.flows[f].pc)]
            && match flow.pc
               case Begin =>
                 if stopped then s'.flows[f].pc == ReturnedNull else Asks(s, s', f, [], resourceLabel)
               case Awaiting(granted, w) =>
                 if w !in s.settled then s' == s.(clock := now)
                 else if s.settled[w].Rejected? then s'.flows[f].pc == Failed
                 else if s.settled[w] == Answered(false) || stopped then s'.flows[f].pc == ReturnedNull
                 else if flow.operation != Clone then granted == [] && s'.flows[f].pc == Issued([w])
                 else if granted == [] then Asks(s, s', f, [w], resourceLabel)
                 else |granted| == 1 && s'.flows[f].pc == Picking(granted + [w])
               case Picking(granted) =>
                 s'.flows[f].pc == if picked.PickFailed? then Failed
                                   else if picked.Dismissed? || stopped then ReturnedNull
                                   else if picked.valid then Issued(granted) else Failed
               case _ => s' == s.(clock := now)
  {
    hide GateInv, PromiseInv, HistoryInv, BrokerInv, Lookup, AskNext, Asks, Remembered, History;
    var flow := s.flows[f];
    var s' := Apply(s, Resume(f, resourceLabel, picked), now);
    assert FlowInv(s, flow);
    LookupKeepsSystem(s, flow, now);
    if !Remembered(History(s.uses), Key(flow), now) {
      if flow.pc.Begin? { CheckedAsks(s, f, [], resourceLabel, now); }
      if flow.pc.Awaiting? && flow.operation == Clone && flow.pc.granted == [] {
        assert [] + [flow.pc.waiting] == [flow.pc.waiting];
        CheckedAsks(s, f, [flow.pc.waiting], resourceLabel, now);
      }
      if flow.pc.Awaiting? && flow.operation != Clone { assert [] + [flow.pc.waiting] == [flow.pc.waiting]; }
    }
  }

  /** A call starts when its number is new; nothing else moves. */
  lemma StartingBegins(s: System, f: FlowId, call: Flow, now: int)
    ensures Apply(s, Event.Start(f, call), now) ==
            if f !in s.flows && call.operation != BindProfile
            then s.(clock := now, flows := s.flows[f := call.(pc := Begin)]) else s.(clock := now)
  {
  }

  lemma OnlyResumingMoves(s: System, event: Event, now: int, f: FlowId)
    requires f in s.flows && !(event.Resume? && event.flow == f)
    ensures f in Apply(s, event, now).flows && Apply(s, event, now).flows[f] == s.flows[f]
  {
    hide ResumeFlow, Confirm, Ask, Finish, Settle, Clear, MarkUnavailable, CancelOperation, Record;
    hide ValidPluginId, CanonicalUuid;
  }

  /** A call's native command is invoked by exactly these steps: the call is resumed, is not cancelled,
      and, for a clone, a valid directory was chosen after both prompts, otherwise its one prompt was
      answered yes. */
  lemma {:induction false} IssuesIff(s: System, event: Event, now: int, f: FlowId)
    requires Inv(s) && s.clock <= now && f in s.flows && !s.flows[f].pc.Issued?
    ensures var flow := s.flows[f];
            && f in Apply(s, event, now).flows
            && (Apply(s, event, now).flows[f].pc.Issued? <==>
                && event.Resume? && event.flow == f
                && !Remembered(History(s.uses), CancellationKey(flow.plugin, flow.operationId), now)
                && (if flow.operation == Clone then flow.pc.Picking? && event.picked == Chosen(true)
                    else && flow.pc.Awaiting? && flow.pc.waiting in s.settled
                         && s.settled[flow.pc.waiting] == Answered(true)))
  {
    hide GateInv, PromiseInv, HistoryInv, BrokerInv, Remembered, History, Promised, WellFormedCall, Apply, Trim;
    assert FlowInv(s, s.flows[f]);
    if event.Resume? && event.flow == f {
      ResumingGoesOn(s, f, event.resourceLabel, event.picked, now);
    } else {
      OnlyResumingMoves(s, event, now, f);
    }
  }

  // ---- a call that nothing disturbs ----

  lemma LookupIsNoHistory(uses: seq<Use>, now: int)
    ensures History(uses + [LookedUp(now)]) == History(uses)
  {
    assert (uses + [LookedUp(now)])[..|uses|] == uses;
  }

  lemma ConfirmingIsNoHistory(s: System, request: Request, now: int)
    ensures History(Confirming(s, request, now).0.uses) == History(s.uses)
  {
    hide Confirm, Record, History, Parsed;
    LookupIsNoHistory(s.uses, now);
  }

  lemma AskNextIsNoHistory(s: System, f: FlowId, granted: seq<PromptId>, resourceLabel: string, now: int)
    requires f in s.flows
    ensures History(AskNext(s, f, granted, resourceLabel, now).uses) == History(s.uses)
  {
    hide Confirming, History, PromptRequest;
    ConfirmingIsNoHistory(s, PromptRequest(s.flows[f], |granted|, resourceLabel), now);
  }

  /** Neither resuming a call nor an answer cancels anything. */
  lemma ResumingIsNoHistory(s: System, f: FlowId, resourceLabel: string, picked: Picked, now: int)
    requires f in s.flows
    ensures History(Apply(s, Resume(f, resourceLabel, picked), now).uses) == History(s.uses)
  {
    hide AskNext, History, IsOperationCanceled;
    var s0 := s.(clock := now);
    var flow := s.flows[f];
    var s1 := Lookup(s0, flow, now).0;
    LookupIsNoHistory(s.uses, now);
    AskNextIsNoHistory(s1, f, [], resourceLabel, now);
    if flow.pc.Awaiting? { AskNextIsNoHistory(s1, f, flow.pc.granted + [flow.pc.waiting], resourceLabel, now); }
  }

  lemma StaysForgotten(h: seq<Cancel>, key: string, now: int, later: int)
    requires now <= later && !Remembered(h, key, now)
    ensures !Remembered(h, key, later)
  {
  }

  /** Nothing is shown, so nothing waits either. */
  lemma NothingWaits(s: System)
    requires Inv(s) && Shown(s) == []
    ensures s.gate.None? && Pending(s.transport) == []
  {
    hide PromiseInv, HistoryInv, FlowInv, QueueOk;
    OneIsShown(s);
    assert Created(s.gate) == [];
  }

  /** A prompt asked for when nothing is shown is the one shown next. */
  lemma AskedIsShown(s: System, s': System, f: FlowId, granted: seq<PromptId>, resourceLabel: string)
    requires Inv(s) && Inv(s') && Shown(s) == [] && f in s.flows && f in s'.flows
    requires Asks(s, s', f, granted, resourceLabel) && WellFormedCall(s.flows[f], resourceLabel)
    ensures var w := TransportId(s.transport.sequence);
            && s'.flows[f].pc == Awaiting(granted, w)
            && s'.transport.active.Some? && s'.transport.active.value.id == w && |Pending(s'.transport)| == 1
            && s'.transport.sequence == s.transport.sequence + 1
  {
    hide PromiseInv, HistoryInv, FlowInv, QueueOk, WellFormedCall, Trim, Shown;
    NothingWaits(s);
    assert |Pending(s'.transport)| == 1 && Pending(s'.transport)[0].id == TransportId(s.transport.sequence);
  }

  /** The user says yes to the only prompt: the promise is settled, and nothing is shown any more. */
  lemma YesIsHeard(s: System, w: PromptId, now: int)
    requires Inv(s) && s.clock <= now
    requires s.transport.active.Some? && s.transport.active.value.id == w && |Pending(s.transport)| == 1
    ensures var s' := Apply(s, Answer(w, true), now);
            && Inv(s') && s'.clock == now && Shown(s') == [] && s'.flows == s.flows && s'.uses == s.uses
            && w in s'.settled && s'.settled[w] == Answered(true) && s'.transport.sequence == s.transport.sequence
  {
    hide PromiseInv, HistoryInv, FlowInv, BrokerInv, Settle, Record;
    OneIsShown(s);
    AnswerSettles(s, w, true, now);
    ApplyKeepsInv(s, Answer(w, true), now);
    OneIsShown(Apply(s, Answer(w, true), now));
  }

  /** The call is about to be resumed: at its start, or with a yes. */
  predicate Resumable(s: System, f: FlowId) {
    f in s.flows && (s.flows[f].pc.Begin? || (&& s.flows[f].pc.Awaiting? && s.flows[f].pc.waiting in s.settled
                                              && s.settled[s.flows[f].pc.waiting] == Answered(true)))
  }

  /** What the flow has been granted when it is resumed. */
  function Held(s: System, f: FlowId): seq<PromptId>
    requires Resumable(s, f)
  {
    match s.flows[f].pc
    case Begin => []
    case Awaiting(granted, w) => granted + [w]
  }

  /** One round: the call asks for its next prompt, the prompt is shown, and the user says yes. */
  lemma OneRound(s: System, f: FlowId, resourceLabel: string, picked: Picked, now: int, later: int)
    requires Inv(s) && s.clock <= now <= later && Shown(s) == [] && Resumable(s, f)
    requires |Held(s, f)| < Needed(s.flows[f]) && WellFormedCall(s.flows[f], resourceLabel)
    requires !Remembered(History(s.uses), Key(s.flows[f]), now)
    ensures var w := TransportId(s.transport.sequence);
            var s' := Apply(Apply(s, Resume(f, resourceLabel, picked), now), Answer(w, true), later);
            && Inv(s') && s'.clock == later && Shown(s') == [] && Resumable(s', f)
            && s'.flows[f] == s.flows[f].(pc := Awaiting(Held(s, f), w)) && Held(s', f) == Held(s, f) + [w]
            && History(s'.uses) == History(s.uses) && s'.transport.sequence == s.transport.sequence + 1
  {
    hide Inv, Apply, WellFormedCall, Remembered, History, Shown, Pending;
    var s1 := Apply(s, Resume(f, resourceLabel, picked), now);
    ResumingGoesOn(s, f, resourceLabel, picked, now);
    ApplyKeepsInv(s, Resume(f, resourceLabel, picked), now);
    ClockIsSet(s, Resume(f, resourceLabel, picked), now);
    ResumingIsNoHistory(s, f, resourceLabel, picked, now);
    HeldIsAll(s, f);
    AskedIsShown(s, s1, f, Held(s, f), resourceLabel);
    YesIsHeard(s1, TransportId(s.transport.sequence), later);
  }

  lemma HeldIsAll(s: System, f: FlowId)
    requires Inv(s) && Resumable(s, f)
    ensures s.flows[f].pc.Awaiting? ==> |s.flows[f].pc.granted| < Needed(s.flows[f])
    ensures s.flows[f].pc.Awaiting? && s.flows[f].pc.granted == [] ==> Held(s, f) == [s.flows[f].pc.waiting]
  {
    hide GateInv, PromiseInv, HistoryInv, BrokerInv;
    assert FlowInv(s, s.flows[f]);
  }

  /** A fetch, pull or push that is well formed, not cancelled and finds nothing shown runs through: it is
      started, asks, is answered yes, and its command is invoked. */
  lemma {:induction false} FetchRunsThrough(s: System, f: FlowId, call: Flow, target: string, picked: Picked,
                                            t1: int, t2: int, t3: int, t4: int)
    requires Inv(s) && s.clock <= t1 <= t2 <= t3 <= t4 && Shown(s) == [] && f !in s.flows
    requires call.operation in {Fetch, Pull, Push} && WellFormedCall(call, target)
    requires !Remembered(History(s.uses), Key(call), t2)
    ensures var w := TransportId(s.transport.sequence);
            var s1 := Apply(s, Event.Start(f, call), t1);
            var s2 := Apply(s1, Resume(f, target, picked), t2);
            var s3 := Apply(s2, Answer(w, true), t3);
            var s4 := Apply(s3, Resume(f, target, picked), t4);
            f in s4.flows && s4.flows[f] == call.(pc := Issued([w]))
  {
    hide Inv, Apply, ValidPluginId, CanonicalUuid, ValidLabel, Remembered, History, Shown;
    var s1 := StartedAlone(s, f, call, t1);
    OneRound(s1, f, target, picked, t2, t3);
    var s3 := Apply(Apply(s1, Resume(f, target, picked), t2), Answer(TransportId(s.transport.sequence), true), t3);
    StaysForgotten(History(s.uses), Key(call), t2, t4);
    ResumingGoesOn(s3, f, target, picked, t4);
  }

  lemma StartedAlone(s: System, f: FlowId, call: Flow, now: int) returns (s': System)
    requires Inv(s) && s.clock <= now && f !in s.flows && call.operation != BindProfile
    ensures s' == Apply(s, Event.Start(f, call), now) && Inv(s') && s'.clock == now
    ensures s' == s.(clock := now, flows := s.flows[f := call.(pc := Begin)]) && Shown(s') == Shown(s)
  {
    hide Inv;
    s' := Apply(s, Event.Start(f, call), now);
    ApplyKeepsInv(s, Event.Start(f, call), now);
  }

  /** So does a clone, with two prompts and a directory. */
  lemma {:induction false} CloneRunsThrough(s: System, f: FlowId, call: Flow, source: string, target: string,
                                            picked: Picked, t: seq<int>)
    requires Inv(s) && Shown(s) == [] && f !in s.flows && |t| == 7
    requires s.clock <= t[0] <= t[1] <= t[2] <= t[3] <= t[4] <= t[5] <= t[6]
    requires call.operation == Clone && WellFormedCall(call, source) && WellFormedCall(call, target)
    requires !Remembered(History(s.uses), Key(call), t[1])
    ensures var w, w' := TransportId(s.transport.sequence), TransportId(s.transport.sequence + 1);
            var s1 := Apply(s, Event.Start(f, call), t[0]);
            var s3 := Apply(Apply(s1, Resume(f, source, picked), t[1]), Answer(w, true), t[2]);
            var s5 := Apply(Apply(s3, Resume(f, target, picked), t[3]), Answer(w', true), t[4]);
            var s7 := Apply(Apply(s5, Resume(f, target, picked), t[5]), Resume(f, target, Chosen(true)), t[6]);
            f in s7.flows && s7.flows[f] == call.(pc := Issued([w, w']))
  {
    hide Inv, Apply, ValidPluginId, CanonicalUuid, ValidLabel, Remembered, History, Shown;
    var w, w' := TransportId(s.transport.sequence), TransportId(s.transport.sequence + 1);
    var s1 := StartedAlone(s, f, call, t[0]);
    OneRound(s1, f, source, picked, t[1], t[2]);
    var s3 := Apply(Apply(s1, Resume(f, source, picked), t[1]), Answer(w, true), t[2]);
    StaysForgotten(History(s.uses), Key(call), t[1], t[3]);
    StaysForgotten(History(s.uses), Key(call), t[1], t[5]);
    StaysForgotten(History(s.uses), Key(call), t[1], t[6]);
    OneRound(s3, f, target, picked, t[3], t[4]);
    var s5 := Apply(Apply(s3, Resume(f, target, picked), t[3]), Answer(w', true), t[4]);
    ResumingGoesOn(s5, f, target, picked, t[5]);
    ApplyKeepsInv(s5, Resume(f, target, picked), t[5]);
    ClockIsSet(s5, Resume(f, target, picked), t[5]);
    ResumingIsNoHistory(s5, f, target, picked, t[5]);
    ResumingGoesOn(Apply(s5, Resume(f, target, picked), t[5]), f, target, Chosen(true), t[6]);
    assert [w] + [w'] == [w, w'];
  }
}
