/** What every call keeps of the transport broker: bounds, arrival order, the gate, the ledger, and
    each promise pending or settled exactly once. */
module PromptInvariants {
  import opened Wrappers
  import opened CancellationLedger
  import opened PromptBrokers
  import opened Text

  /** The promises of a list of prompts, and those a call settles, with multiplicity. */
  function Ids(prompts: seq<Prompt>): multiset<PromptId> {
    if prompts == [] then multiset{} else multiset{prompts[0].id} + Ids(prompts[1..])
  }

  function SettledIds(settled: seq<Settled>): multiset<PromptId> {
    if settled == [] then multiset{} else multiset{settled[0].id} + SettledIds(settled[1..])
  }

  predicate InLedger(p: Prompt, ledger: Ledger) {
    p.request.operationId.Some? && Has(ledger, CancellationKey(p.request.plugin, p.request.operationId.value))
  }

  ghost predicate PromptOk(p: Prompt, ledger: Ledger, sequence: nat) {
    p.id.TransportId? && p.id.n < sequence && ValidRequest(p.request) && !InLedger(p, ledger)
  }

  /** The pending prompts: valid, not cancelled, in arrival order, at most 16, and 4 per plugin. */
  ghost predicate QueueOk(ps: seq<Prompt>, ledger: Ledger, sequence: nat) {
    && (forall i :: 0 <= i < |ps| ==> PromptOk(ps[i], ledger, sequence))
    && (forall i, j :: 0 <= i < j < |ps| ==> ps[i].id.n < ps[j].id.n)
    && |ps| <= MAX_PENDING_TOTAL
    && (forall plugin :: CountPlugin(ps, plugin) <= MAX_PENDING_PER_PLUGIN)
  }

  /** The active prompt owns the gate, and without one nothing waits. */
  ghost predicate BrokerInv(b: Broker, gate: Gate) {
    && (b.active.Some? ==> gate == Some(b.active.value.id))
    && (b.active.None? ==> b.queued == [])
    && QueueOk(Pending(b), b.ledger, b.sequence)
  }

  /** Every promise of the call is still pending or settled now, each exactly once. */
  ghost predicate Conserves(b: Broker, e: Effect, created: seq<PromptId>) {
    Ids(Pending(b)) + multiset(created) == Ids(Pending(e.broker)) + SettledIds(e.settled)
  }

  /** The gate changes hands only from and to the transport broker's own prompts. */
  ghost predicate GateFollows(b: Broker, gate: Gate, e: Effect) {
    && (b.active.None? && e.broker.active.None? ==> e.gate == gate)
    && (b.active.None? && e.broker.active.Some? ==> gate == None)
    && (b.active.Some? && e.broker.active.None? ==> e.gate == None)
  }

  predicate SameBooks(b: Broker, b': Broker) { b'.sequence == b.sequence && b'.ledger == b.ledger }

  /** What one call does, given the promises it creates. */
  ghost predicate Good(b: Broker, gate: Gate, e: Effect, created: seq<PromptId>) {
    && BrokerInv(e.broker, e.gate)
    && Conserves(b, e, created)
    && GateFollows(b, gate, e)
    && b.sequence <= e.broker.sequence
    && (forall p :: p in Pending(e.broker) ==> p in Pending(b) || p.id in created)
  }

  // ---- helpers ----

  lemma {:induction false} CountOfAppend(ps: seq<Prompt>, qs: seq<Prompt>, plugin: string)
    ensures CountPlugin(ps + qs, plugin) == CountPlugin(ps, plugin) + CountPlugin(qs, plugin)
  {
    if ps == [] {
      assert ps + qs == qs;
    } else {
      assert (ps + qs)[1..] == ps[1..] + qs;
      CountOfAppend(ps[1..], qs, plugin);
    }
  }

  lemma {:induction false} SelectIsSubsequence(ps: seq<Prompt>, plugin: string, operationId: string, matching: bool)
    ensures var r := Select(ps, plugin, operationId, matching);
            && |r| <= |ps|
            && (forall p :: p in r <==> p in ps && Belongs(p, plugin, operationId) == matching)
            && (forall q :: CountPlugin(r, q) <= CountPlugin(ps, q))
  {
    if ps != [] { SelectIsSubsequence(ps[1..], plugin, operationId, matching); }
  }

  lemma {:induction false} SelectKeepsOrder(ps: seq<Prompt>, plugin: string, operationId: string, matching: bool)
    requires forall i :: 0 <= i < |ps| ==> ps[i].id.TransportId?
    requires forall i, j :: 0 <= i < j < |ps| ==> ps[i].id.n < ps[j].id.n
    ensures var r := Select(ps, plugin, operationId, matching);
            && (forall i :: 0 <= i < |r| ==> r[i].id.TransportId?)
            && (forall i, j :: 0 <= i < j < |r| ==> r[i].id.n < r[j].id.n)
  {
    if ps != [] {
      var rest := Select(ps[1..], plugin, operationId, matching);
      SelectKeepsOrder(ps[1..], plugin, operationId, matching);
      SelectIsSubsequence(ps[1..], plugin, operationId, matching);
      forall i | 0 <= i < |rest| ensures rest[i].id.TransportId? && ps[0].id.n < rest[i].id.n {
        assert rest[i] in rest;
        var j :| 0 <= j < |ps[1..]| && ps[1..][j] == rest[i];
        assert ps[j + 1] == rest[i];
      }
    }
  }

  lemma {:induction false} IdsOfAppend(ps: seq<Prompt>, qs: seq<Prompt>)
    ensures Ids(ps + qs) == Ids(ps) + Ids(qs)
  {
    if ps == [] {
      assert ps + qs == qs;
    } else {
      assert (ps + qs)[1..] == ps[1..] + qs;
      IdsOfAppend(ps[1..], qs);
    }
  }

  lemma {:induction false} SettledIdsOfAppend(ss: seq<Settled>, ts: seq<Settled>)
    ensures SettledIds(ss + ts) == SettledIds(ss) + SettledIds(ts)
  {
    if ss == [] {
      assert ss + ts == ts;
    } else {
      assert (ss + ts)[1..] == ss[1..] + ts;
      SettledIdsOfAppend(ss[1..], ts);
    }
  }

  lemma SingleIds(p: Prompt, s: Settled)
    ensures Ids([p]) == multiset{p.id} && SettledIds([s]) == multiset{s.id}
  {
    assert [p][1..] == [] && [s][1..] == [];
  }

  lemma {:induction false} AllSettles(ps: seq<Prompt>, outcome: Outcome)
    ensures SettledIds(All(ps, outcome)) == Ids(ps)
  {
    if ps != [] {
      AllSettles(ps[1..], outcome);
      assert All(ps, outcome)[1..] == All(ps[1..], outcome);
    }
  }

  lemma {:induction false} SelectPartitions(ps: seq<Prompt>, plugin: string, operationId: string)
    ensures Ids(ps) == Ids(Select(ps, plugin, operationId, true)) + Ids(Select(ps, plugin, operationId, false))
  {
    if ps != [] {
      SelectPartitions(ps[1..], plugin, operationId);
      var yes := Select(ps[1..], plugin, operationId, true);
      var no := Select(ps[1..], plugin, operationId, false);
      assert ([ps[0]] + yes)[1..] == yes && ([ps[0]] + no)[1..] == no;
    }
  }

  lemma TailIsOk(ps: seq<Prompt>, ledger: Ledger, sequence: nat)
    requires ps != [] && QueueOk(ps, ledger, sequence)
    ensures QueueOk(ps[1..], ledger, sequence)
  {
    forall plugin ensures CountPlugin(ps[1..], plugin) <= MAX_PENDING_PER_PLUGIN {
      assert CountPlugin(ps, plugin) <= MAX_PENDING_PER_PLUGIN;
    }
  }

  /** A free gate is always taken: handing on never refuses a queued prompt. */
  lemma AdvanceTakesFreeGate(b: Broker)
    requires b.active.None?
    ensures var e := Advance(b, None);
            && Pending(e.broker) == b.queued && e.settled == []
            && (e.broker.active.None? ==> e.gate == None && e.broker.queued == [])
            && (e.broker.active.Some? ==> e.gate == Some(e.broker.active.value.id))
            && e.broker.ledger == b.ledger && e.broker.sequence == b.sequence
  {
    if b.queued != [] {
      assert [b.queued[0]] + b.queued[1..] == b.queued;
    }
  }

  // ---- the calls ----

  lemma {:induction false} SettleIsGood(b: Broker, gate: Gate, id: PromptId, result: bool)
    requires BrokerInv(b, gate)
    ensures Good(b, gate, Settle(b, gate, id, result), []) && SameBooks(b, Settle(b, gate, id, result).broker)
    ensures forall s :: s in Settle(b, gate, id, result).settled ==> s == Settled(id, Answered(result))
  {
    hide QueueOk, Advance, Ids, SettledIds;
    if b.active.Some? && b.active.value.id == id {
      var s := Settled(id, Answered(result));
      AdvanceTakesFreeGate(b.(active := None));
      ActiveIsFirst(b);
      TailIsOk(Pending(b), b.ledger, b.sequence);
      assert Settle(b, gate, id, result).settled == [s];
      SingleIds(b.active.value, s);
    } else {
      NothingSettled();
    }
  }

  lemma ActiveIsFirst(b: Broker)
    requires b.active.Some?
    ensures Pending(b)[1..] == b.queued && Ids(Pending(b)) == multiset{b.active.value.id} + Ids(b.queued)
  {
  }

  lemma NothingSettled()
    ensures SettledIds([]) == multiset{}
  {
  }

  lemma EmptyIsOk(ledger: Ledger, sequence: nat)
    ensures QueueOk([], ledger, sequence)
  {
  }

  lemma ClearIsGood(b: Broker, gate: Gate, outcome: Outcome)
    requires BrokerInv(b, gate)
    ensures Good(b, gate, Clear(b, gate, outcome), []) && SameBooks(b, Clear(b, gate, outcome).broker)
    ensures forall s :: s in Clear(b, gate, outcome).settled ==> s.outcome == outcome
  {
    var e := Clear(b, gate, outcome);
    EmptyIsOk(b.ledger, b.sequence);
    assert Pending(e.broker) == [];
    AllSettles(Pending(b), outcome);
    assert e.settled == All(Pending(b), outcome);
  }

  lemma {:induction false} MarkUnavailableIsGood(b: Broker, gate: Gate, id: PromptId)
    requires BrokerInv(b, gate)
    ensures Good(b, gate, MarkUnavailable(b, gate, id), []) && SameBooks(b, MarkUnavailable(b, gate, id).broker)
    ensures forall s :: s in MarkUnavailable(b, gate, id).settled ==> s.outcome == Rejected(Unavailable)
  {
    ClearIsGood(b, gate, Rejected(Unavailable));
  }

  /** Removing every prompt of a cancelled operation leaves none in the ledger. */
  lemma SelectIsOk(ps: seq<Prompt>, ledger: Ledger, sequence: nat, plugin: string, operationId: string, now: int)
    requires QueueOk(ps, ledger, sequence) && ValidPluginId(plugin) && CanonicalUuid(operationId)
    ensures QueueOk(Select(ps, plugin, operationId, false),
            Remember(ledger, CancellationKey(plugin, operationId), now), sequence)
  {
    var r := Select(ps, plugin, operationId, false);
    var ledger' := Remember(ledger, CancellationKey(plugin, operationId), now);
    SelectIsSubsequence(ps, plugin, operationId, false);
    SelectKeepsOrder(ps, plugin, operationId, false);
    forall i | 0 <= i < |r| ensures PromptOk(r[i], ledger', sequence) {
      assert r[i] in r;
      var j :| 0 <= j < |ps| && ps[j] == r[i];
      var p := r[i];
      assert PromptOk(p, ledger, sequence);
      if p.request.operationId.Some? {
        RememberAddsOne(ledger, CancellationKey(plugin, operationId), now,
            CancellationKey(p.request.plugin, p.request.operationId.value));
        if CancellationKey(plugin, operationId) == CancellationKey(p.request.plugin, p.request.operationId.value) {
          ValidKeysAreInjective(plugin, operationId, p.request.plugin, p.request.operationId.value);
        }
      }
    }
    forall q ensures CountPlugin(r, q) <= MAX_PENDING_PER_PLUGIN {
      assert CountPlugin(ps, q) <= MAX_PENDING_PER_PLUGIN;
    }
  }

  lemma CancelOperationPending(b: Broker, gate: Gate, plugin: string, operationId: string, now: int)
    requires BrokerInv(b, gate) && ValidPluginId(plugin) && CanonicalUuid(operationId)
    ensures var e := CancelOperation(b, gate, plugin, operationId, now);
            && Pending(e.broker) == Select(Pending(b), plugin, operationId, false)
            && SettledIds(e.settled) == Ids(Select(Pending(b), plugin, operationId, true))
            && (forall s :: s in e.settled ==> s.outcome == Answered(false))
  {
    hide QueueOk, Advance, ValidPluginId, CanonicalUuid, Remember;
    var canceled := Select(b.queued, plugin, operationId, true);
    var e := CancelOperation(b, gate, plugin, operationId, now);
    AllSettles(canceled, Answered(false));
    if b.active.Some? {
      assert Pending(b)[1..] == b.queued;
      if Belongs(b.active.value, plugin, operationId) {
        AdvanceTakesFreeGate(b.(active := None, queued := Select(b.queued, plugin, operationId, false),
                                ledger := Remember(b.ledger, CancellationKey(plugin, operationId), now)));
        assert e.settled == [Settled(b.active.value.id, Answered(false))] + All(canceled, Answered(false));
        assert e.settled[1..] == All(canceled, Answered(false));
        assert Select(Pending(b), plugin, operationId, true)[1..] == canceled;
      }
    }
  }

  lemma CancelOperationIsGood(b: Broker, gate: Gate, plugin: string, operationId: string, now: int)
    requires BrokerInv(b, gate)
    ensures var e := CancelOperation(b, gate, plugin, operationId, now);
            && Good(b, gate, e, []) && e.broker.sequence == b.sequence
            && (forall s :: s in e.settled ==> s.outcome == Answered(false))
            && e.broker.ledger == if ValidPluginId(plugin) && CanonicalUuid(operationId)
                                  then Remember(b.ledger, CancellationKey(plugin, operationId), now) else b.ledger
  {
    hide Remember, ValidPluginId, CanonicalUuid, QueueOk, Advance, Select, Ids, GateFollows;
    if !ValidPluginId(plugin) || !CanonicalUuid(operationId) {
      UncancelledIsGood(b, gate, plugin, operationId, now);
    } else {
      hide CancelOperation;
      CancelOperationPending(b, gate, plugin, operationId, now);
      SelectIsOk(Pending(b), b.ledger, b.sequence, plugin, operationId, now);
      SelectPartitions(Pending(b), plugin, operationId);
      SelectIsSubsequence(Pending(b), plugin, operationId, false);
      CancelOperationBooks(b, gate, plugin, operationId, now);
    }
  }

  lemma UncancelledIsGood(b: Broker, gate: Gate, plugin: string, operationId: string, now: int)
    requires BrokerInv(b, gate) && (!ValidPluginId(plugin) || !CanonicalUuid(operationId))
    ensures var e := CancelOperation(b, gate, plugin, operationId, now);
            e.broker == b && e.settled == [] && Good(b, gate, e, [])
  {
    hide QueueOk, ValidPluginId, CanonicalUuid, Ids;
  }

  lemma CancelOperationBooks(b: Broker, gate: Gate, plugin: string, operationId: string, now: int)
    requires BrokerInv(b, gate) && ValidPluginId(plugin) && CanonicalUuid(operationId)
    ensures var e := CancelOperation(b, gate, plugin, operationId, now);
            && e.broker.sequence == b.sequence
            && e.broker.ledger == Remember(b.ledger, CancellationKey(plugin, operationId), now)
            && GateFollows(b, gate, e)
            && (e.broker.active.Some? ==> e.gate == Some(e.broker.active.value.id))
            && (e.broker.active.None? ==> e.broker.queued == [])
  {
    hide Remember, ValidPluginId, CanonicalUuid, QueueOk, Advance;
    AdvanceTakesFreeGate(b.(active := None, queued := Select(b.queued, plugin, operationId, false),
                            ledger := Remember(b.ledger, CancellationKey(plugin, operationId), now)));
  }

  lemma PurgedIsOk(ps: seq<Prompt>, ledger: Ledger, sequence: nat, now: int)
    requires QueueOk(ps, ledger, sequence)
    ensures QueueOk(ps, Purge(ledger, now), sequence + 1) && QueueOk(ps, Purge(ledger, now), sequence)
    ensures QueueOk(ps, ledger, sequence + 1)
  {
    forall i | 0 <= i < |ps| ensures PromptOk(ps[i], Purge(ledger, now), sequence) {
      assert PromptOk(ps[i], ledger, sequence);
      if ps[i].request.operationId.Some? {
        PurgeOnlyDrops(ledger, now, CancellationKey(ps[i].request.plugin, ps[i].request.operationId.value));
      }
    }
  }

  lemma LookupKeepsInv(b: Broker, gate: Gate, plugin: string, operationId: string, now: int)
    requires BrokerInv(b, gate)
    ensures BrokerInv(IsOperationCanceled(b, plugin, operationId, now).0, gate)
  {
    PurgedIsOk(Pending(b), b.ledger, b.sequence, now);
  }

  lemma AppendIsOk(ps: seq<Prompt>, ledger: Ledger, sequence: nat, p: Prompt)
    requires QueueOk(ps, ledger, sequence) && p.id == TransportId(sequence) && ValidRequest(p.request)
             && !InLedger(p, ledger)
    requires |ps| < MAX_PENDING_TOTAL && CountPlugin(ps, p.request.plugin) < MAX_PENDING_PER_PLUGIN
    ensures QueueOk(ps + [p], ledger, sequence + 1)
  {
    forall i | 0 <= i < |ps| ensures PromptOk(ps[i], ledger, sequence + 1) && ps[i].id.n < sequence {
      assert PromptOk(ps[i], ledger, sequence);
    }
    forall q ensures CountPlugin(ps + [p], q) <= MAX_PENDING_PER_PLUGIN {
      CountOfAppend(ps, [p], q);
      assert CountPlugin(ps, q) <= MAX_PENDING_PER_PLUGIN;
    }
  }

  function Created(id: Option<PromptId>): seq<PromptId> {
    if id.Some? then [id.value] else []
  }

  /** Either the new promise is settled at once and nothing else moves, or its prompt joins the end
      of the pending ones. */
  lemma ConfirmShape(b: Broker, gate: Gate, request: Request, now: int)
    requires ValidRequest(request) && (b.active.None? ==> b.queued == [])
    ensures var (e, id) := Confirm(b, gate, request, now);
            var ledger := if request.operationId.Some? then Purge(b.ledger, now) else b.ledger;
            var p := Prompt(TransportId(b.sequence), Parsed(request));
            && id == Some(p.id) && e.broker.sequence == b.sequence + 1 && e.broker.ledger == ledger
            && (e.settled == [] ==>
                  && Pending(e.broker) == Pending(b) + [p] && !InLedger(p, ledger)
                  && |Pending(b)| < MAX_PENDING_TOTAL
                  && CountPlugin(Pending(b), request.plugin) < MAX_PENDING_PER_PLUGIN
                  && (if b.active.Some? then e.broker.active == b.active && e.gate == gate
                      else gate == None && e.broker.active == Some(p) && e.broker.queued == [] && e.gate == Some(p.id)))
            && (e.settled != [] ==>
                  && (exists outcome :: e.settled == [Settled(p.id, outcome)] && outcome != Answered(true))
                  && e.broker.active == b.active && e.broker.queued == b.queued && e.gate == gate)
  {
    hide ValidRequest, Purge, Has, Trim;
  }

  lemma AcceptedIsGood(b: Broker, gate: Gate, e: Effect, p: Prompt)
    requires BrokerInv(b, gate) && p.id == TransportId(b.sequence) && e.broker.sequence == b.sequence + 1
    requires QueueOk(Pending(b) + [p], e.broker.ledger, e.broker.sequence)
    requires e.settled == [] && Pending(e.broker) == Pending(b) + [p]
    requires if b.active.Some? then e.broker.active == b.active && e.gate == gate
             else gate == None && e.broker.active == Some(p) && e.gate == Some(p.id)
    ensures Good(b, gate, e, [p.id])
  {
    hide QueueOk;
    IdsOfAppend(Pending(b), [p]);
    SingleIds(p, Settled(p.id, Answered(false)));
  }

  lemma RefusedIsGood(b: Broker, gate: Gate, e: Effect, s: Settled)
    requires BrokerInv(b, gate) && e.broker.sequence == b.sequence + 1
    requires QueueOk(Pending(b), e.broker.ledger, e.broker.sequence)
    requires e.settled == [s] && e.broker.active == b.active && e.broker.queued == b.queued && e.gate == gate
    ensures Good(b, gate, e, [s.id])
  {
    hide QueueOk;
    SettledIdsOfAppend([], [s]);
    assert [s][1..] == [];
  }

  lemma {:induction false} ConfirmIsGood(b: Broker, gate: Gate, request: Request, now: int)
    requires BrokerInv(b, gate)
    ensures var (e, id) := Confirm(b, gate, request, now);
            && Good(b, gate, e, Created(id))
            && (id.None? ==> e.broker.sequence == b.sequence)
            && (id.Some? ==> id == Some(TransportId(b.sequence)) && e.broker.sequence == b.sequence + 1)
            && (forall p :: p in Pending(e.broker) && p !in Pending(b) ==>
                 Some(p.id) == id && p.request == Parsed(request))
            && (id.Some? <==> ValidRequest(request))
            && (forall s :: s in e.settled ==> s.outcome != Answered(true))
            && e.broker.ledger == (if id.Some? && request.operationId.Some? then Purge(b.ledger, now) else b.ledger)
  {
    hide QueueOk, ValidRequest, Confirm, Has, Purge, CountPlugin, Conserves, Good, IsOperationCanceled, Trim;
    var (e, id) := Confirm(b, gate, request, now);
    if ValidRequest(request) {
      ConfirmShape(b, gate, request, now);
      PurgedIsOk(Pending(b), b.ledger, b.sequence, now);
      var p := Prompt(id.value, Parsed(request));
      ParsedIsValid(request);
      if e.settled == [] {
        AppendIsOk(Pending(b), e.broker.ledger, b.sequence, p);
        AcceptedIsGood(b, gate, e, p);
      } else {
        RefusedIsGood(b, gate, e, e.settled[0]);
      }
    } else {
      InvalidChangesNothing(b, gate, request, now);
    }
  }

  lemma InvalidChangesNothing(b: Broker, gate: Gate, request: Request, now: int)
    requires BrokerInv(b, gate) && !ValidRequest(request)
    ensures Confirm(b, gate, request, now) == (Effect(b, gate, []), None)
    ensures Good(b, gate, Effect(b, gate, []), Created(None))
  {
    hide QueueOk;
  }

  // ---- what a call answers ----

  lemma SettleTakesFirst(b: Broker, gate: Gate, id: PromptId, result: bool)
    requires BrokerInv(b, gate)
    ensures var e := Settle(b, gate, id, result);
            if b.active.Some? && b.active.value.id == id
            then e.settled == [Settled(id, Answered(result))] && Pending(e.broker) == Pending(b)[1..]
            else e == Effect(b, gate, [])
  {
    hide QueueOk, Advance;
    if b.active.Some? { AdvanceTakesFreeGate(b.(active := None)); }
  }

  lemma ClearTakesAll(b: Broker, gate: Gate, outcome: Outcome)
    requires BrokerInv(b, gate)
    ensures var e := Clear(b, gate, outcome);
            && Pending(e.broker) == [] && e.settled == All(Pending(b), outcome)
            && e.gate == if Pending(b) == [] then gate else None
  {
    hide QueueOk;
  }

  /** The operation of the request was cancelled and that is remembered. */
  predicate AskedAfterCancel(b: Broker, request: Request, now: int) {
    && request.operationId.Some?
    && IsOperationCanceled(b, request.plugin, request.operationId.value, now).1
  }

  /** Whether a well-formed request is shown or queued. */
  predicate Admissible(b: Broker, gate: Gate, request: Request, now: int) {
    && !AskedAfterCancel(b, request, now)
    && |Pending(b)| < 16 && CountPlugin(Pending(b), request.plugin) < 4
    && (gate.None? || Pending(b) != [])
  }

  lemma ConfirmOutcome(b: Broker, gate: Gate, request: Request, now: int)
    requires BrokerInv(b, gate)
    ensures var (e, id) := Confirm(b, gate, request, now);
            && id == (if ValidRequest(request) then Some(TransportId(b.sequence)) else None)
            && (id.None? ==> e == Effect(b, gate, []))
            && (id.Some? ==>
                  if Admissible(b, gate, request, now)
                  then e.settled == [] && Pending(e.broker) == Pending(b) + [Prompt(id.value, Parsed(request))]
                  else && Pending(e.broker) == Pending(b) && e.gate == gate
                       && e.settled == [Settled(id.value, if AskedAfterCancel(b, request, now)
                                                          then Answered(false) else Rejected(Busy))])
  {
    hide QueueOk, ValidRequest, Purge, Has, CountPlugin, Parsed;
  }
}
