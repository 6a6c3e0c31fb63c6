/** Clone, fetch, pull and push calls interleaved with each other, with the user's answers, with
    cancellations and with the provider prompts. Every synchronous stretch of code is one step;
    every `await` is a point where anything else may happen. The clock does not go back. */
module NetworkFlows {
  import opened Wrappers
  import opened CancellationLedger
  import opened PromptBrokers
  import opened PromptInvariants
  import opened Text

  type FlowId = nat

  datatype Pc =
    | Begin
    | Awaiting(granted: seq<PromptId>, waiting: PromptId)
    | Picking(granted: seq<PromptId>)
    | Issued(granted: seq<PromptId>)      // the native command was invoked
    | ReturnedNull
    | Failed

  /** A running call; `operation` is one of the four network operations. */
  datatype Flow = Flow(plugin: string, operationId: string, operation: Operation, pc: Pc)

  datatype Picked = PickFailed | Dismissed | Chosen(valid: bool)

  /** `settled`: the promises resolved or rejected so far. `asked`: the request behind each promise.
      `approved`: the prompts answered yes while active. `uses`: the history of the ledger. */
  datatype System = System(
    transport: Broker,
    gate: Gate,
    credential: Provider,
    access: Provider,
    settled: map<PromptId, Outcome>,
    asked: map<PromptId, Request>,
    approved: set<PromptId>,
    uses: seq<Use>,
    flows: map<FlowId, Flow>,
    clock: int)

  datatype Event =
    | Start(flow: FlowId, call: Flow)
    | Resume(flow: FlowId, resourceLabel: string, picked: Picked)
    | Answer(id: PromptId, result: bool)
    | DismissAll
    | DialogGone(id: PromptId)
    | CancelCall(plugin: string, operationId: string)
    | OtherConfirm(request: Request)
    | RequestCredential
    | FinishCredential(which: Option<PromptId>)
    | RequestAccess
    | FinishAccess(which: Option<PromptId>)

  // ---- what a flow asks ----

  function Needed(f: Flow): nat { if f.operation == Clone then 2 else 1 }

  /** The `i`-th prompt of a flow: cloning asks about the source first, then about the network. */
  function PromptRequest(f: Flow, i: nat, resourceLabel: string): Request {
    Request(f.plugin, Some(f.operationId), if f.operation == Clone && i == 0 then SourceTrust else NetworkPrompt,
            f.operation, resourceLabel)
  }

  predicate IsPromptOf(r: Request, f: Flow, i: nat) { r == PromptRequest(f, i, r.resourceLabel) }

  function Key(f: Flow): string { CancellationKey(f.plugin, f.operationId) }

  // ---- steps ----

  function Record(settled: map<PromptId, Outcome>, now: seq<Settled>): map<PromptId, Outcome>
    decreases |now|
  {
    if now == [] then settled else Record(settled[now[0].id := now[0].outcome], now[1..])
  }

  lemma {:induction false} RecordKeeps(settled: map<PromptId, Outcome>, now: seq<Settled>, id: PromptId)
    ensures id in Record(settled, now) <==> id in settled || id in SettledIds(now)
    ensures id in settled && id !in SettledIds(now) ==> Record(settled, now)[id] == settled[id]
    decreases |now|
  {
    if now != [] { RecordKeeps(settled[now[0].id := now[0].outcome], now[1..], id); }
  }

  lemma {:induction false} RecordedOutcome(settled: map<PromptId, Outcome>, now: seq<Settled>, id: PromptId)
    returns (s: Settled)
    requires id in SettledIds(now)
    ensures s in now && s.id == id && id in Record(settled, now) && Record(settled, now)[id] == s.outcome
    decreases |now|
  {
    var after := settled[now[0].id := now[0].outcome];
    if id in SettledIds(now[1..]) {
      s := RecordedOutcome(after, now[1..], id);
    } else {
      s := now[0];
      RecordKeeps(after, now[1..], id);
    }
  }

  function ApplyEffect(s: System, e: Effect): System {
    s.(transport := e.broker, gate := e.gate, settled := Record(s.settled, e.settled))
  }

  /** `isOperationCanceled` */
  function Lookup(s: System, f: Flow, now: int): (System, bool) {
    var (b, canceled) := IsOperationCanceled(s.transport, f.plugin, f.operationId, now);
    (s.(transport := b, uses := s.uses + [LookedUp(now)]), canceled)
  }

  /** `confirm`, with the history it leaves. */
  function Confirming(s: System, request: Request, now: int): (System, Option<PromptId>) {
    var (e, id) := Confirm(s.transport, s.gate, request, now);
    var s1 := ApplyEffect(s, e);
    if id.None? then (s1, None)
    else (s1.(asked := s1.asked[id.value := Parsed(request)],
              uses := if request.operationId.Some? then s1.uses + [LookedUp(now)] else s1.uses), id)
  }

  function SetPc(s: System, f: FlowId, pc: Pc): (r: System)
    requires f in s.flows
    ensures f in r.flows && r.flows == s.flows[f := r.flows[f]] && r.clock == s.clock
  {
    s.(flows := s.flows[f := s.flows[f].(pc := pc)])
  }

  function AskNext(s: System, f: FlowId, granted: seq<PromptId>, resourceLabel: string, now: int): (r: System)
    requires f in s.flows
    ensures f in r.flows && r.flows == s.flows[f := r.flows[f]] && r.clock == s.clock
  {
    var (s1, id) := Confirming(s, PromptRequest(s.flows[f], |granted|, resourceLabel), now);
    SetPc(s1, f, if id.Some? then Awaiting(granted, id.value) else Failed)
  }

  /** After a yes that was not cancelled meanwhile. */
  function Proceed(s: System, f: FlowId, granted: seq<PromptId>, resourceLabel: string, now: int): (r: System)
    requires f in s.flows
    ensures f in r.flows && r.flows == s.flows[f := r.flows[f]] && r.clock == s.clock
  {
    if |granted| < Needed(s.flows[f]) then AskNext(s, f, granted, resourceLabel, now)
    else if s.flows[f].operation == Clone then SetPc(s, f, Picking(granted))
    else SetPc(s, f, Issued(granted))
  }

  /** One stretch of a flow between two awaits. */
  function ResumeFlow(s: System, f: FlowId, resourceLabel: string, picked: Picked, now: int): (r: System)
    requires f in s.flows
    ensures f in r.flows && r.flows == s.flows[f := r.flows[f]] && r.clock == s.clock
  {
    var flow := s.flows[f];
    match flow.pc
    case Begin =>
      var (s1, canceled) := Lookup(s, flow, now);
      if canceled then SetPc(s1, f, ReturnedNull) else AskNext(s1, f, [], resourceLabel, now)
    case Awaiting(granted, waiting) =>
      if waiting !in s.settled then s
      else (match s.settled[waiting]
        case Rejected(_) => SetPc(s, f, Failed)
        case Answered(yes) =>
          if !yes then SetPc(s, f, ReturnedNull)
          else
            var (s1, canceled) := Lookup(s, flow, now);
            if canceled then SetPc(s1, f, ReturnedNull) else Proceed(s1, f, granted + [waiting], resourceLabel, now))
    case Picking(granted) =>
      (match picked
       case PickFailed => SetPc(s, f, Failed)
       case Dismissed => SetPc(s, f, ReturnedNull)
       case Chosen(valid) =>
         var (s1, canceled) := Lookup(s, flow, now);
         if canceled then SetPc(s1, f, ReturnedNull)
         else if !valid then SetPc(s1, f, Failed)
         else SetPc(s1, f, Issued(granted)))
    case _ => s
  }

  function Apply(s0: System, event: Event, now: int): System {
    var s := s0.(clock := now);
    match event
    case Start(f, call) =>
      if f in s.flows || call.operation == BindProfile then s else s.(flows := s.flows[f := call.(pc := Begin)])
    case Resume(f, resourceLabel, picked) =>
      if f in s.flows then ResumeFlow(s, f, resourceLabel, picked, now) else s
    case Answer(id, result) =>
      var s1 := ApplyEffect(s, Settle(s.transport, s.gate, id, result));
      if result && s.transport.active.Some? && s.transport.active.value.id == id
      then s1.(approved := s1.approved + {id}) else s1
    case DismissAll => ApplyEffect(s, Clear(s.transport, s.gate, Answered(false)))
    case DialogGone(id) => ApplyEffect(s, MarkUnavailable(s.transport, s.gate, id))
    case CancelCall(plugin, operationId) =>
      var s1 := ApplyEffect(s, CancelOperation(s.transport, s.gate, plugin, operationId, now));
      if ValidPluginId(plugin) && CanonicalUuid(operationId)
      then s1.(uses := s1.uses + [Cancelled(CancellationKey(plugin, operationId), now)]) else s1
    case OtherConfirm(request) => Confirming(s, request, now).0
    case RequestCredential =>
      var (p, gate, _) := Ask(s.credential, s.gate);
      s.(credential := p, gate := gate)
    case FinishCredential(which) =>
      var (p, gate) := Finish(s.credential, s.gate, which);
      s.(credential := p, gate := gate)
    case RequestAccess =>
      var (p, gate, _) := Ask(s.access, s.gate);
      s.(access := p, gate := gate)
    case FinishAccess(which) =>
      var (p, gate) := Finish(s.access, s.gate, which);
      s.(access := p, gate := gate)
  }

  // ---- invariants ----

  /** The prompts shown to the user right now, over all three brokers. */
  function Shown(s: System): seq<PromptId> {
    (if s.transport.active.Some? then [s.transport.active.value.id] else [])
    + Created(s.credential.active) + Created(s.access.active)
  }

  /** At most one prompt is shown, and the gate's owner is that prompt, if any. */
  ghost predicate GateInv(s: System) { Shown(s) == Created(s.gate) }

  /** Each promise made so far is pending or settled, never both, and belongs to its request. */
  ghost predicate PromiseInv(s: System) {
    && (forall id :: id in s.asked <==> id.TransportId? && id.n < s.transport.sequence)
    && (forall id :: id in s.asked <==> id in s.settled || id in Ids(Pending(s.transport)))
    && (forall id :: id in s.settled ==> id !in Ids(Pending(s.transport)))
    && (forall p :: p in Pending(s.transport) ==> p.id in s.asked && s.asked[p.id] == p.request)
    && (forall id :: id in s.settled && s.settled[id] == Answered(true) ==> id in s.approved)
  }

  ghost predicate HistoryInv(s: System) {
    && s.transport.ledger == After(s.uses)
    && Monotone(s.uses)
    && (forall i :: 0 <= i < |s.uses| ==> s.uses[i].time <= s.clock)
  }

  /** What a flow was called with, whatever it is doing now. */
  function Call(f: Flow): Flow { f.(pc := Begin) }

  /** The first prompts of a flow were each shown and answered yes. */
  ghost predicate Granted(s: System, f: Flow, granted: seq<PromptId>) {
    forall i :: 0 <= i < |granted| ==>
      granted[i] in s.approved && granted[i] in s.asked && IsPromptOf(s.asked[granted[i]], f, i)
  }

  ghost predicate FlowInv(s: System, f: Flow) {
    && f.operation != BindProfile
    && match f.pc
       case Awaiting(granted, waiting) =>
         && Granted(s, Call(f), granted) && |granted| < Needed(f)
         && waiting in s.asked && IsPromptOf(s.asked[waiting], Call(f), |granted|)
       case Picking(granted) => Granted(s, Call(f), granted) && |granted| == Needed(f) && f.operation == Clone
       case Issued(granted) => Granted(s, Call(f), granted) && |granted| == Needed(f)
       case _ => true
  }

  ghost predicate Inv(s: System) {
    && BrokerInv(s.transport, s.gate)
    && GateInv(s)
    && PromiseInv(s)
    && HistoryInv(s)
    && (forall f :: f in s.flows ==> FlowInv(s, s.flows[f]))
  }

  // ---- a transport call keeps everything ----

  /** Facts may be added; none is taken back. */
  ghost predicate Extends(s: System, s': System) {
    && s.approved <= s'.approved
    && (forall id :: id in s.asked ==> id in s'.asked && s'.asked[id] == s.asked[id])
    && (forall id :: id in s.settled ==> id in s'.settled && s'.settled[id] == s.settled[id])
  }

  lemma FlowsSurvive(s: System, s': System)
    requires Extends(s, s') && s'.flows == s.flows && forall f :: f in s.flows ==> FlowInv(s, s.flows[f])
    ensures forall f :: f in s'.flows ==> FlowInv(s', s'.flows[f])
  {
    forall f | f in s'.flows ensures FlowInv(s', s'.flows[f]) {
      assert FlowInv(s, s.flows[f]);
    }
  }

  lemma {:induction false} MemberIds(ps: seq<Prompt>, p: Prompt)
    requires p in ps
    ensures p.id in Ids(ps)
  {
    if p != ps[0] { MemberIds(ps[1..], p); }
  }

  lemma {:induction false} IdsMember(ps: seq<Prompt>, id: PromptId)
    requires id in Ids(ps)
    ensures exists p :: p in ps && p.id == id
  {
    if ps[0].id != id {
      IdsMember(ps[1..], id);
      var p :| p in ps[1..] && p.id == id;
      assert p in ps;
    }
  }

  lemma {:induction false} AbsentIds(ps: seq<Prompt>, id: PromptId)
    requires forall p :: p in ps ==> p.id != id
    ensures Ids(ps)[id] == 0
  {
    if ps != [] { AbsentIds(ps[1..], id); }
  }

  lemma {:induction false} OrderedIdsAreUnique(ps: seq<Prompt>, id: PromptId)
    requires forall i :: 0 <= i < |ps| ==> ps[i].id.TransportId?
    requires forall i, j :: 0 <= i < j < |ps| ==> ps[i].id.n < ps[j].id.n
    ensures Ids(ps)[id] <= 1
  {
    if ps != [] {
      OrderedIdsAreUnique(ps[1..], id);
      if ps[0].id == id { AbsentIds(ps[1..], id); }
    }
  }

  lemma PendingIdsAreUnique(b: Broker, gate: Gate, id: PromptId)
    requires BrokerInv(b, gate)
    ensures Ids(Pending(b))[id] <= 1
  {
    OrderedIdsAreUnique(Pending(b), id);
  }

  lemma EffectKeepsGate(s: System, e: Effect, created: seq<PromptId>)
    requires GateInv(s) && BrokerInv(s.transport, s.gate) && Good(s.transport, s.gate, e, created)
    ensures GateInv(ApplyEffect(s, e)) && BrokerInv(e.broker, e.gate)
  {
    hide QueueOk, Conserves, Record;
  }

  /** Adding the promise a call creates, the approvals it records, and what it settles. */
  function Updated(s: System, e: Effect, id: Option<PromptId>, request: Request, approved: set<PromptId>): System {
    var s1 := ApplyEffect(s, e);
    s1.(asked := if id.Some? then s1.asked[id.value := request] else s1.asked, approved := approved)
  }

  /** A call moves each promise at most once, from pending to settled. */
  lemma EffectMovesPromises(s: System, e: Effect, id: Option<PromptId>, x: PromptId)
    requires PromiseInv(s) && BrokerInv(s.transport, s.gate) && Conserves(s.transport, e, Created(id))
    requires id.Some? ==> id == Some(TransportId(s.transport.sequence))
    ensures x in s.settled ==> x !in SettledIds(e.settled) && x !in Ids(Pending(e.broker))
    ensures x in SettledIds(e.settled) ==> x !in Ids(Pending(e.broker))
    ensures (x in Ids(Pending(s.transport)) || Some(x) == id) <==>
            (x in Ids(Pending(e.broker)) || x in SettledIds(e.settled))
  {
    hide After, Remembered, BrokerInv, Pending, Ids, SettledIds;
    PendingIdsAreUnique(s.transport, s.gate, x);
    var before := Ids(Pending(s.transport));
    var made := multiset(Created(id));
    var after := Ids(Pending(e.broker));
    var gone := SettledIds(e.settled);
    assert before[x] + made[x] == (before + made)[x] == (after + gone)[x] == after[x] + gone[x];
    assert made[x] == if Some(x) == id then 1 else 0;
  }

  lemma EffectExtends(s: System, e: Effect, id: Option<PromptId>, request: Request, approved: set<PromptId>)
    requires PromiseInv(s) && BrokerInv(s.transport, s.gate) && Conserves(s.transport, e, Created(id))
    requires id.Some? ==> id == Some(TransportId(s.transport.sequence))
    requires s.approved <= approved
    ensures Extends(s, Updated(s, e, id, request, approved))
  {
    hide QueueOk, Conserves, BrokerInv, Ids, SettledIds, Pending, Record;
    forall x | x in s.settled
      ensures var s' := Updated(s, e, id, request, approved); x in s'.settled && s'.settled[x] == s.settled[x]
    {
      EffectMovesPromises(s, e, id, x);
      RecordKeeps(s.settled, e.settled, x);
    }
  }

  lemma EffectKeepsPromises(s: System, e: Effect, id: Option<PromptId>, request: Request, approved: set<PromptId>)
    requires PromiseInv(s) && BrokerInv(s.transport, s.gate) && Good(s.transport, s.gate, e, Created(id))
    requires id.Some? ==> id == Some(TransportId(s.transport.sequence)) && e.broker.sequence == s.transport.sequence + 1
    requires id.None? ==> e.broker.sequence == s.transport.sequence
    requires forall p :: p in Pending(e.broker) && p !in Pending(s.transport) ==>
             Some(p.id) == id && p.request == request
    requires s.approved <= approved && forall x :: x in e.settled && x.outcome == Answered(true) ==> x.id in approved
    ensures PromiseInv(Updated(s, e, id, request, approved)) && Extends(s, Updated(s, e, id, request, approved))
  {
    hide QueueOk, Conserves, BrokerInv, GateFollows, Ids, SettledIds, Pending, Record, Extends;
    var s' := Updated(s, e, id, request, approved);
    EffectExtends(s, e, id, request, approved);
    forall x
      ensures x in s'.asked <==> x in s'.settled || x in Ids(Pending(s'.transport))
      ensures x in s'.settled ==> x !in Ids(Pending(s'.transport))
    {
      EffectMovesPromises(s, e, id, x);
      RecordKeeps(s.settled, e.settled, x);
    }
    forall p | p in Pending(s'.transport) ensures p.id in s'.asked && s'.asked[p.id] == p.request {
      MemberIds(Pending(s'.transport), p);
      if p in Pending(s.transport) { assert p.id in s.asked; }
    }
    forall x | x in s'.settled && s'.settled[x] == Answered(true) ensures x in s'.approved {
      RecordKeeps(s.settled, e.settled, x);
      if x in SettledIds(e.settled) { var settled := RecordedOutcome(s.settled, e.settled, x); }
    }
  }

  lemma LedgerGrows(s: System, use: Use, now: int)
    requires HistoryInv(s) && s.clock <= now && use.time == now
    ensures Monotone(s.uses + [use])
    ensures After(s.uses + [use]) ==
            match use
            case Cancelled(key, time) => Remember(s.transport.ledger, key, time)
            case LookedUp(time) => Purge(s.transport.ledger, time)
  {
    assert (s.uses + [use])[..|s.uses|] == s.uses;
  }

  // ---- the parts of a step ----

  lemma SetPcKeepsInv(s: System, f: FlowId, pc: Pc)
    requires Inv(s) && f in s.flows && FlowInv(s, s.flows[f].(pc := pc))
    ensures Inv(SetPc(s, f, pc))
  {
    hide QueueOk, After;
    var s' := SetPc(s, f, pc);
    forall g | g in s'.flows ensures FlowInv(s', s'.flows[g]) {
      if g != f { assert FlowInv(s, s.flows[g]); }
    }
  }

  lemma LookupKeepsSystem(s: System, f: Flow, now: int)
    requires Inv(s) && s.clock <= now
    ensures var s' := Lookup(s.(clock := now), f, now).0;
            Inv(s') && Extends(s, s') && s'.flows == s.flows && s'.clock == now
    ensures Lookup(s.(clock := now), f, now).1 <==> Remembered(History(s.uses), Key(f), now)
  {
    hide GateInv, PromiseInv, BrokerInv, FlowInv, After, Remembered;
    LookupKeepsInv(s.transport, s.gate, f.plugin, f.operationId, now);
    LookupKeepsPromises(s, f, now);
    LedgerGrows(s, LookedUp(now), now);
    FlowsSurvive(s, Lookup(s.(clock := now), f, now).0);
    LedgerIsExact(s.uses, Key(f), now);
  }

  lemma LookupKeepsPromises(s: System, f: Flow, now: int)
    requires GateInv(s) && PromiseInv(s)
    ensures var s' := Lookup(s.(clock := now), f, now).0; GateInv(s') && PromiseInv(s')
  {
    hide Ids, Purge, Has;
    assert Pending(Lookup(s.(clock := now), f, now).0.transport) == Pending(s.transport);
  }

  lemma ConfirmingHistory(s: System, request: Request, now: int)
    requires HistoryInv(s) && BrokerInv(s.transport, s.gate) && s.clock <= now
    ensures HistoryInv(Confirming(s.(clock := now), request, now).0)
  {
    hide QueueOk, After, Confirm, Record;
    ConfirmIsGood(s.transport, s.gate, request, now);
    if ValidRequest(request) && request.operationId.Some? { LedgerGrows(s, LookedUp(now), now); }
  }

  /** `Confirming` is one call's effect, apart from the history. */
  lemma ConfirmingUpdates(s: System, request: Request, now: int)
    ensures var (e, id) := Confirm(s.transport, s.gate, request, now);
            var (s', id') := Confirming(s, request, now);
            id' == id && s' == Updated(s, e, id, Parsed(request), s.approved).(uses := s'.uses)
  {
    hide Confirm, Record, Trim;
  }

  lemma ConfirmingKeepsSystem(s: System, request: Request, now: int)
    requires Inv(s) && s.clock <= now
    ensures var (s', id) := Confirming(s.(clock := now), request, now);
            && Inv(s') && Extends(s, s') && s'.flows == s.flows
            && (id.Some? ==> id.value in s'.asked && s'.asked[id.value] == Parsed(request))
  {
    hide Confirm, Confirming, Parsed, GateInv, PromiseInv, FlowInv, HistoryInv, BrokerInv, Record, Good;
    var s0 := s.(clock := now);
    var (e, id) := Confirm(s.transport, s.gate, request, now);
    var s' := Confirming(s0, request, now).0;
    var s1 := Updated(s0, e, id, Parsed(request), s.approved);
    ConfirmIsGood(s.transport, s.gate, request, now);
    ConfirmingUpdates(s0, request, now);
    ConfirmingHistory(s, request, now);
    OnlyHistory(s, s0);
    EffectKeepsGate(s0, e, Created(id));
    EffectKeepsPromises(s0, e, id, Parsed(request), s.approved);
    OnlyHistory(ApplyEffect(s0, e), s');
    OnlyHistory(s1, s');
    FlowsSurvive(s, s');
  }

  /** The gate and the promises do not look at the clock or the history. */
  lemma OnlyHistory(s: System, s': System)
    requires s'.transport == s.transport && s'.gate == s.gate && s'.credential == s.credential && s'.access == s.access
    ensures GateInv(s) <==> GateInv(s')
    ensures s'.settled == s.settled && s'.asked == s.asked && s'.approved == s.approved ==>
            (PromiseInv(s) <==> PromiseInv(s'))
  {
    hide QueueOk, Ids;
  }

  // ---- every step ----

  lemma GrantedSurvives(s: System, s': System, f: Flow, granted: seq<PromptId>)
    requires Extends(s, s') && Granted(s, f, granted)
    ensures Granted(s', f, granted)
  {
  }

  lemma AskNextKeepsInv(s: System, f: FlowId, granted: seq<PromptId>, resourceLabel: string, now: int)
    requires Inv(s) && f in s.flows && s.clock == now
    requires Granted(s, Call(s.flows[f]), granted) && |granted| < Needed(s.flows[f])
    ensures var s' := AskNext(s, f, granted, resourceLabel, now); Inv(s') && Extends(s, s')
  {
    hide GateInv, PromiseInv, HistoryInv, BrokerInv, Confirming, Granted, Trim;
    var flow := s.flows[f];
    assert s.(clock := now) == s;
    var (s1, id) := Confirming(s, PromptRequest(flow, |granted|, resourceLabel), now);
    ConfirmingKeepsSystem(s, PromptRequest(flow, |granted|, resourceLabel), now);
    GrantedSurvives(s, s1, Call(flow), granted);
    assert FlowInv(s, flow);
    SetPcKeepsInv(s1, f, if id.Some? then Awaiting(granted, id.value) else Failed);
  }

  lemma ProceedKeepsInv(s: System, f: FlowId, granted: seq<PromptId>, resourceLabel: string, now: int)
    requires Inv(s) && f in s.flows && s.clock == now
    requires Granted(s, Call(s.flows[f]), granted) && |granted| <= Needed(s.flows[f])
    ensures var s' := Proceed(s, f, granted, resourceLabel, now); Inv(s') && Extends(s, s')
  {
    hide GateInv, PromiseInv, HistoryInv, BrokerInv, AskNext, Granted;
    var flow := s.flows[f];
    assert FlowInv(s, flow);
    if |granted| < Needed(flow) {
      AskNextKeepsInv(s, f, granted, resourceLabel, now);
    } else {
      SetPcKeepsInv(s, f, if flow.operation == Clone then Picking(granted) else Issued(granted));
    }
  }

  lemma ClockKeepsInv(s: System, now: int)
    requires Inv(s) && s.clock <= now
    ensures Inv(s.(clock := now)) && Extends(s, s.(clock := now))
  {
    hide QueueOk, After;
    OnlyHistory(s, s.(clock := now));
    FlowsSurvive(s, s.(clock := now));
  }

  /** A yes that settled the awaited promise was given to this flow's own next prompt. */
  lemma YesIsGranted(s: System, f: FlowId)
    requires Inv(s) && f in s.flows && s.flows[f].pc.Awaiting?
    requires var w := s.flows[f].pc.waiting; w in s.settled && s.settled[w] == Answered(true)
    ensures var pc := s.flows[f].pc;
            Granted(s, Call(s.flows[f]), pc.granted + [pc.waiting]) && |pc.granted + [pc.waiting]| <= Needed(s.flows[f])
  {
    hide GateInv, HistoryInv, BrokerInv;
    assert FlowInv(s, s.flows[f]);
  }

  /** Ending a flow keeps everything. */
  lemma EndKeepsInv(s: System, f: FlowId, pc: Pc)
    requires Inv(s) && f in s.flows && (pc == ReturnedNull || pc == Failed)
    ensures Inv(SetPc(s, f, pc))
  {
    hide GateInv, PromiseInv, HistoryInv, BrokerInv;
    assert FlowInv(s, s.flows[f]);
    SetPcKeepsInv(s, f, pc);
  }

  /** The stretch of a flow up to its next ledger check. */
  lemma CheckedKeepsInv(s: System, f: FlowId, now: int)
    requires Inv(s) && f in s.flows && s.clock <= now
    ensures var (s1, canceled) := Lookup(s.(clock := now), s.flows[f], now);
            && Inv(s1) && Extends(s, s1) && s1.flows == s.flows && s1.clock == now
            && Inv(SetPc(s1, f, ReturnedNull)) && Inv(SetPc(s1, f, Failed))
  {
    hide Inv, Lookup;
    LookupKeepsSystem(s, s.flows[f], now);
    var s1 := Lookup(s.(clock := now), s.flows[f], now).0;
    EndKeepsInv(s1, f, ReturnedNull);
    EndKeepsInv(s1, f, Failed);
  }

  lemma ExtendsTwice(s: System, s1: System, s2: System)
    requires Extends(s, s1) && Extends(s1, s2)
    ensures Extends(s, s2)
  {
  }

  lemma ResumeBegin(s: System, f: FlowId, resourceLabel: string, picked: Picked, now: int)
    requires Inv(s) && f in s.flows && s.clock <= now && s.flows[f].pc.Begin?
    ensures var s' := ResumeFlow(s.(clock := now), f, resourceLabel, picked, now); Inv(s') && Extends(s, s')
  {
    hide Inv, Lookup, AskNext, Extends;
    CheckedKeepsInv(s, f, now);
    var (s1, canceled) := Lookup(s.(clock := now), s.flows[f], now);
    if !canceled {
      AskNextKeepsInv(s1, f, [], resourceLabel, now);
      ExtendsTwice(s, s1, AskNext(s1, f, [], resourceLabel, now));
    } else {
      SetPcExtends(s1, f, ReturnedNull);
      ExtendsTwice(s, s1, SetPc(s1, f, ReturnedNull));
    }
  }

  lemma SetPcExtends(s: System, f: FlowId, pc: Pc)
    requires f in s.flows
    ensures Extends(s, SetPc(s, f, pc))
  {
  }

  lemma ResumeAwaiting(s: System, f: FlowId, resourceLabel: string, picked: Picked, now: int)
    requires Inv(s) && f in s.flows && s.clock <= now && s.flows[f].pc.Awaiting?
    ensures var s' := ResumeFlow(s.(clock := now), f, resourceLabel, picked, now); Inv(s') && Extends(s, s')
  {
    hide Inv, Lookup, Proceed, Extends, Granted;
    var s0 := s.(clock := now);
    var pc := s.flows[f].pc;
    ClockKeepsInv(s, now);
    EndKeepsInv(s0, f, ReturnedNull);
    EndKeepsInv(s0, f, Failed);
    SetPcExtends(s0, f, ReturnedNull);
    SetPcExtends(s0, f, Failed);
    ExtendsTwice(s, s0, SetPc(s0, f, ReturnedNull));
    ExtendsTwice(s, s0, SetPc(s0, f, Failed));
    if pc.waiting in s.settled && s.settled[pc.waiting] == Answered(true) {
      CheckedKeepsInv(s, f, now);
      var s1 := Lookup(s0, s.flows[f], now).0;
      SetPcExtends(s1, f, ReturnedNull);
      ExtendsTwice(s, s1, SetPc(s1, f, ReturnedNull));
      YesIsGranted(s, f);
      GrantedSurvives(s, s1, Call(s.flows[f]), pc.granted + [pc.waiting]);
      ProceedKeepsInv(s1, f, pc.granted + [pc.waiting], resourceLabel, now);
      ExtendsTwice(s, s1, Proceed(s1, f, pc.granted + [pc.waiting], resourceLabel, now));
    }
  }

  lemma ResumePicking(s: System, f: FlowId, resourceLabel: string, picked: Picked, now: int)
    requires Inv(s) && f in s.flows && s.clock <= now && s.flows[f].pc.Picking?
    ensures var s' := ResumeFlow(s.(clock := now), f, resourceLabel, picked, now); Inv(s') && Extends(s, s')
  {
    hide Inv, Lookup, Extends;
    var s0 := s.(clock := now);
    ClockKeepsInv(s, now);
    EndKeepsInv(s0, f, ReturnedNull);
    EndKeepsInv(s0, f, Failed);
    CheckedKeepsInv(s, f, now);
    var s1 := Lookup(s0, s.flows[f], now).0;
    PickedKeepsInv(s1, f);
    SetPcExtends(s0, f, ReturnedNull);
    SetPcExtends(s0, f, Failed);
    SetPcExtends(s1, f, ReturnedNull);
    SetPcExtends(s1, f, Failed);
    SetPcExtends(s1, f, Issued(s.flows[f].pc.granted));
    ExtendsTwice(s, s0, SetPc(s0, f, ReturnedNull));
    ExtendsTwice(s, s0, SetPc(s0, f, Failed));
    ExtendsTwice(s, s1, SetPc(s1, f, ReturnedNull));
    ExtendsTwice(s, s1, SetPc(s1, f, Failed));
    ExtendsTwice(s, s1, SetPc(s1, f, Issued(s.flows[f].pc.granted)));
  }

  lemma PickedKeepsInv(s: System, f: FlowId)
    requires Inv(s) && f in s.flows && s.flows[f].pc.Picking?
    ensures Inv(SetPc(s, f, Issued(s.flows[f].pc.granted)))
  {
    hide GateInv, PromiseInv, HistoryInv, BrokerInv;
    assert FlowInv(s, s.flows[f]);
    SetPcKeepsInv(s, f, Issued(s.flows[f].pc.granted));
  }

  lemma ResumeKeepsInv(s: System, f: FlowId, resourceLabel: string, picked: Picked, now: int)
    requires Inv(s) && f in s.flows && s.clock <= now
    ensures var s' := ResumeFlow(s.(clock := now), f, resourceLabel, picked, now); Inv(s') && Extends(s, s')
  {
    hide Inv, Lookup, AskNext, Proceed;
    match s.flows[f].pc {
      case Begin => ResumeBegin(s, f, resourceLabel, picked, now);
      case Awaiting(_, _) => ResumeAwaiting(s, f, resourceLabel, picked, now);
      case Picking(_) => ResumePicking(s, f, resourceLabel, picked, now);
      case _ => ClockKeepsInv(s, now);
    }
  }

  /** An effect that creates no promise and approves at most what it answers. */
  lemma EffectKeepsInv(s: System, e: Effect, approved: set<PromptId>)
    requires Inv(s) && Good(s.transport, s.gate, e, []) && e.broker.sequence == s.transport.sequence
    requires forall p :: p in Pending(e.broker) ==> p in Pending(s.transport)
    requires s.approved <= approved && forall x :: x in e.settled && x.outcome == Answered(true) ==> x.id in approved
    ensures var s' := ApplyEffect(s, e).(approved := approved);
            && GateInv(s') && PromiseInv(s') && BrokerInv(s'.transport, s'.gate) && Extends(s, s')
            && (forall f :: f in s'.flows ==> FlowInv(s', s'.flows[f]))
  {
    hide GateInv, PromiseInv, HistoryInv, BrokerInv, Good, FlowInv, Record;
    var request := Request("", None, NetworkPrompt, Fetch, "");
    var s' := ApplyEffect(s, e).(approved := approved);
    EffectKeepsGate(s, e, []);
    EffectKeepsPromises(s, e, None, request, approved);
    assert s' == Updated(s, e, None, request, approved);
    OnlyHistory(ApplyEffect(s, e), s');
    FlowsSurvive(s, s');
  }

  lemma AnswerKeepsInv(s: System, id: PromptId, result: bool, now: int)
    requires Inv(s) && s.clock <= now
    ensures var s' := Apply(s, Answer(id, result), now); Inv(s') && Extends(s, s')
  {
    hide GateInv, PromiseInv, BrokerInv, FlowInv, Settle, Record, After, Extends, Good;
    var s0 := s.(clock := now);
    ClockKeepsInv(s, now);
    AnswerIsGood(s, id, result);
    var e := Settle(s.transport, s.gate, id, result);
    EffectKeepsInv(s0, e, Approvals(s, id, result));
    ExtendsTwice(s, s0, Apply(s, Answer(id, result), now));
  }

  function Approvals(s: System, id: PromptId, result: bool): set<PromptId> {
    if result && s.transport.active.Some? && s.transport.active.value.id == id then s.approved + {id} else s.approved
  }

  lemma AnswerIsGood(s: System, id: PromptId, result: bool)
    requires Inv(s)
    ensures var e := Settle(s.transport, s.gate, id, result);
            && Good(s.transport, s.gate, e, []) && SameBooks(s.transport, e.broker)
            && (forall p :: p in Pending(e.broker) ==> p in Pending(s.transport))
            && (forall x :: x in e.settled && x.outcome == Answered(true) ==> x.id in Approvals(s, id, result))
  {
    hide GateInv, PromiseInv, BrokerInv, FlowInv, Settle, Conserves, GateFollows;
    SettleIsGood(s.transport, s.gate, id, result);
    IdleSettle(s.transport, s.gate, id, result);
  }

  lemma IdleSettle(b: Broker, gate: Gate, id: PromptId, result: bool)
    ensures Settle(b, gate, id, result).settled != [] ==> b.active.Some? && b.active.value.id == id
  {
  }

  lemma ClearKeepsInv(s: System, event: Event, now: int)
    requires Inv(s) && s.clock <= now && (event.DismissAll? || event.DialogGone?)
    ensures var s' := Apply(s, event, now); Inv(s') && Extends(s, s')
  {
    hide GateInv, PromiseInv, BrokerInv, FlowInv, Clear, MarkUnavailable, Record, After, Extends, Good;
    var s0 := s.(clock := now);
    ClockKeepsInv(s, now);
    ClearOrLost(s, event);
    EffectKeepsInv(s0, ClearEffect(s, event), s.approved);
    ExtendsTwice(s, s0, Apply(s, event, now));
  }

  function ClearEffect(s: System, event: Event): Effect
    requires event.DismissAll? || event.DialogGone?
  {
    if event.DismissAll? then Clear(s.transport, s.gate, Answered(false))
    else MarkUnavailable(s.transport, s.gate, event.id)
  }

  lemma ClearOrLost(s: System, event: Event)
    requires Inv(s) && (event.DismissAll? || event.DialogGone?)
    ensures var e := ClearEffect(s, event);
            && Good(s.transport, s.gate, e, []) && SameBooks(s.transport, e.broker)
            && (forall p :: p in Pending(e.broker) ==> p in Pending(s.transport))
            && (forall x :: x in e.settled ==> x.outcome != Answered(true))
  {
    hide GateInv, PromiseInv, BrokerInv, FlowInv, Clear, MarkUnavailable, HistoryInv;
    if event.DismissAll? {
      ClearIsGood(s.transport, s.gate, Answered(false));
    } else {
      MarkUnavailableIsGood(s.transport, s.gate, event.id);
    }
  }

  lemma CancelCallKeepsInv(s: System, plugin: string, operationId: string, now: int)
    requires Inv(s) && s.clock <= now
    ensures var s' := Apply(s, CancelCall(plugin, operationId), now); Inv(s') && Extends(s, s')
  {
    hide GateInv, PromiseInv, BrokerInv, FlowInv, CancelOperation, Record, After, Remember, ValidPluginId;
    hide CanonicalUuid;
    var s0 := s.(clock := now);
    var e := CancelOperation(s.transport, s.gate, plugin, operationId, now);
    ClockKeepsInv(s, now);
    CancelOperationIsGood(s.transport, s.gate, plugin, operationId, now);
    EffectKeepsInv(s0, e, s.approved);
    LedgerGrows(s, Cancelled(CancellationKey(plugin, operationId), now), now);
    var s1 := ApplyEffect(s0, e);
    var s' := Apply(s, CancelCall(plugin, operationId), now);
    OnlyHistory(s1, s');
    FlowsSurvive(s1, s');
  }

  lemma CredentialKeepsInv(s: System, event: Event, now: int)
    requires Inv(s) && s.clock <= now && (event.RequestCredential? || event.FinishCredential?)
    ensures var s' := Apply(s, event, now); Inv(s') && Extends(s, s')
  {
    hide QueueOk, After, Ids, FlowInv;
    var s' := Apply(s, event, now);
    OneIsShown(s);
    FlowsSurvive(s, s');
  }

  lemma AccessKeepsInv(s: System, event: Event, now: int)
    requires Inv(s) && s.clock <= now && (event.RequestAccess? || event.FinishAccess?)
    ensures var s' := Apply(s, event, now); Inv(s') && Extends(s, s')
  {
    hide QueueOk, After, Ids, FlowInv;
    var s' := Apply(s, event, now);
    OneIsShown(s);
    FlowsSurvive(s, s');
  }

  /** The gate's owner is the only active prompt. */
  lemma OneIsShown(s: System)
    requires GateInv(s)
    ensures s.gate.None? ==> s.transport.active.None? && s.credential.active.None? && s.access.active.None?
    ensures s.transport.active.Some? ==>
              s.gate == Some(s.transport.active.value.id) && s.credential.active.None? && s.access.active.None?
    ensures s.credential.active.Some? ==>
            s.gate == s.credential.active && s.transport.active.None? && s.access.active.None?
    ensures s.access.active.Some? ==> s.gate == s.access.active && s.transport.active.None? && s.credential.active.None?
  {
    var transport := if s.transport.active.Some? then 1 else 0;
    assert |Shown(s)| == transport + |Created(s.credential.active)| + |Created(s.access.active)|;
    if s.gate.Some? { assert Shown(s)[0] == s.gate.value; }
  }

  lemma StartKeepsInv(s: System, f: FlowId, call: Flow, now: int)
    requires Inv(s) && s.clock <= now
    ensures var s' := Apply(s, Start(f, call), now); Inv(s') && Extends(s, s')
  {
    hide GateInv, PromiseInv, BrokerInv;
    ClockKeepsInv(s, now);
    var s' := Apply(s, Start(f, call), now);
    OnlyHistory(s, s');
    forall g | g in s'.flows ensures FlowInv(s', s'.flows[g]) {
      if g in s.flows { assert FlowInv(s, s.flows[g]); }
    }
  }

  lemma {:induction false} ApplyKeepsInv(s: System, event: Event, now: int)
    requires Inv(s) && s.clock <= now
    ensures Inv(Apply(s, event, now)) && Extends(s, Apply(s, event, now))
  {
    hide Inv, ResumeFlow, Confirming;
    match event {
      case Start(f, call) => StartKeepsInv(s, f, call, now);
      case Resume(f, resourceLabel, picked) =>
        ClockKeepsInv(s, now);
        if f in s.flows { ResumeKeepsInv(s, f, resourceLabel, picked, now); }
      case Answer(id, result) => AnswerKeepsInv(s, id, result, now);
      case DismissAll => ClearKeepsInv(s, event, now);
      case DialogGone(_) => ClearKeepsInv(s, event, now);
      case CancelCall(plugin, operationId) => CancelCallKeepsInv(s, plugin, operationId, now);
      case OtherConfirm(request) => ConfirmingKeepsSystem(s, request, now);
      case RequestCredential => CredentialKeepsInv(s, event, now);
      case FinishCredential(_) => CredentialKeepsInv(s, event, now);
      case RequestAccess => AccessKeepsInv(s, event, now);
      case FinishAccess(_) => AccessKeepsInv(s, event, now);
    }
  }
}
