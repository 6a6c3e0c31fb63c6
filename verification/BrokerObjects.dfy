/** The gate, the two provider brokers and the transport broker as the objects they are: every call
    keeps its broker valid and computes what `PromptBrokers` says. */
module BrokerObjects {
  import opened Wrappers
  import opened CancellationLedger
  import opened PromptBrokers
  import opened PromptInvariants

  class ProviderPromptGate {
    var owner: Gate

    constructor ()
      ensures owner == None
    {
      owner := None;
    }

    method TryAcquire(id: PromptId) returns (acquired: bool)
      modifies this
      ensures acquired == (old(owner) == None)
      ensures owner == if acquired then Some(id) else old(owner)
    {
      acquired := owner.None?;
      if acquired { owner := Some(id); }
    }

    method ReleaseOwner(id: PromptId)
      modifies this
      ensures owner == Release(old(owner), id)
    {
      if owner == Some(id) { owner := None; }
    }
  }

  class ProviderPromptBroker {
    const gate: ProviderPromptGate
    var active: Option<PromptId>
    var sequence: nat

    /** The active prompt owns the gate, and its number was given out. */
    ghost predicate Valid()
      reads this, gate
    {
      active.Some? ==> gate.owner == active && active.value.ProviderId? && active.value.n < sequence
    }

    constructor (gate: ProviderPromptGate)
      ensures Valid() && this.gate == gate && active == None && sequence == 0
    {
      this.gate := gate;
      active := None;
      sequence := 0;
    }

    /** A prompt is accepted exactly when nobody owns the gate, and then owns it, under a new number;
        a refused one disturbs nothing. */
    method RequestPrompt() returns (accepted: bool)
      requires Valid()
      modifies this, gate
      ensures Valid()
      ensures (Provider(active, sequence), gate.owner, accepted)
              == Ask(Provider(old(active), old(sequence)), old(gate.owner))
      ensures accepted <==> old(gate.owner) == None
      ensures if accepted then active.Some? && gate.owner == active && active.value.n >= old(sequence)
              else active == old(active) && gate.owner == old(gate.owner)
    {
      var id := ProviderId(sequence);
      sequence := sequence + 1;
      accepted := gate.TryAcquire(id);
      if accepted { active := Some(id); }
    }

    /** Ending the active prompt leaves the gate free for anybody; any other name changes nothing. */
    method FinishPrompt(id: Option<PromptId>)
      requires Valid()
      modifies this, gate
      ensures Valid() && sequence == old(sequence)
      ensures (Provider(active, sequence), gate.owner)
              == Finish(Provider(old(active), old(sequence)), old(gate.owner), id)
      ensures if old(active).Some? && id in {None, old(active)} then active == None && gate.owner == None
              else active == old(active) && gate.owner == old(gate.owner)
    {
      if active.Some? && (id.None? || id == active) {
        var current := active.value;
        active := None;
        gate.ReleaseOwner(current);
      }
    }
  }

  class TransportPromptBroker {
    const gate: ProviderPromptGate
    const canceled: CancellationMap
    var active: Option<Prompt>
    var queued: seq<Prompt>
    var sequence: nat

    ghost function State(): Broker
      reads this, canceled
    {
      Broker(active, queued, canceled.entries, sequence)
    }

    ghost predicate Valid()
      reads this, gate, canceled
    {
      BrokerInv(State(), gate.owner)
    }

    constructor (gate: ProviderPromptGate)
      ensures Valid() && this.gate == gate && fresh(canceled)
      ensures State() == Broker(None, [], [], 0)
    {
      this.gate := gate;
      canceled := new CancellationMap();
      active := None;
      queued := [];
      sequence := 0;
    }

    method Activate(pending: Prompt) returns (activated: bool)
      modifies this`active, gate
      ensures activated == (old(gate.owner) == None)
      ensures active == (if activated then Some(pending) else old(active))
      ensures gate.owner == (if activated then Some(pending.id) else old(gate.owner))
    {
      activated := gate.TryAcquire(pending.id);
      if activated { active := Some(pending); }
    }

    method AdvanceQueue() returns (settled: seq<Settled>)
      modifies this`active, this`queued, gate
      ensures Effect(State(), gate.owner, settled) == Advance(old(State()), old(gate.owner))
    {
      settled := [];
      ghost var all := Advance(State(), gate.owner);
      while queued != []
        invariant var e := Advance(State(), gate.owner);
                  all == e.(settled := settled + e.settled)
        decreases |queued|
      {
        var next := queued[0];
        queued := queued[1..];
        var activated := Activate(next);
        if activated { return; }
        settled := settled + [Settled(next.id, Rejected(Busy))];
      }
    }

    /** Answering the active prompt settles it and nothing else, and the oldest of the others is next. */
    method SettlePrompt(id: PromptId, result: bool) returns (settled: seq<Settled>)
      requires Valid()
      modifies this`active, this`queued, gate
      ensures Valid()
      ensures Effect(State(), gate.owner, settled) == Settle(old(State()), old(gate.owner), id, result)
      ensures if old(active).Some? && old(active).value.id == id
              then settled == [Settled(id, Answered(result))] && Pending(State()) == Pending(old(State()))[1..]
              else settled == [] && State() == old(State()) && gate.owner == old(gate.owner)
    {
      hide BrokerInv, Conserves, GateFollows, Pending, Advance;
      SettleIsGood(State(), gate.owner, id, result);
      SettleTakesFirst(State(), gate.owner, id, result);
      if active.None? || active.value.id != id { return []; }
      active := None;
      gate.ReleaseOwner(id);
      settled := AdvanceQueue();
      settled := settled + [Settled(id, Answered(result))];
    }

    /** Every pending prompt is settled alike, in order, and nothing is pending any more. */
    method ClearAll(outcome: Outcome) returns (settled: seq<Settled>)
      requires Valid()
      modifies this`active, this`queued, gate
      ensures Valid()
      ensures Effect(State(), gate.owner, settled) == Clear(old(State()), old(gate.owner), outcome)
      ensures Pending(State()) == [] && settled == All(Pending(old(State())), outcome)
      ensures gate.owner == if Pending(old(State())) == [] then old(gate.owner) else None
    {
      hide BrokerInv, Conserves, GateFollows, Pending;
      ClearIsGood(State(), gate.owner, outcome);
      ClearTakesAll(State(), gate.owner, outcome);
      var current := active;
      var waiting := queued;
      queued := [];
      active := None;
      settled := [];
      if current.Some? {
        gate.ReleaseOwner(current.value.id);
        settled := [Settled(current.value.id, outcome)];
      }
      ghost var first := settled;
      for i := 0 to |waiting|
        invariant settled == first + All(waiting[..i], outcome)
      {
        assert All(waiting[..i + 1], outcome) == All(waiting[..i], outcome) + [Settled(waiting[i].id, outcome)];
        settled := settled + [Settled(waiting[i].id, outcome)];
      }
      assert waiting[..|waiting|] == waiting;
    }

    /** Losing the dialog of the active prompt rejects every pending prompt as unavailable, in order, and
        frees the gate; losing any other changes nothing. */
    method UnavailablePrompt(id: PromptId) returns (settled: seq<Settled>)
      requires Valid()
      modifies this`active, this`queued, gate
      ensures Valid()
      ensures Effect(State(), gate.owner, settled) == MarkUnavailable(old(State()), old(gate.owner), id)
      ensures if old(active).Some? && old(active).value.id == id
              then && settled == All(Pending(old(State())), Rejected(Unavailable))
                   && Pending(State()) == [] && gate.owner == None
              else settled == [] && State() == old(State()) && gate.owner == old(gate.owner)
    {
      settled := [];
      if active.Some? && active.value.id == id {
        settled := ClearAll(Rejected(Unavailable));
      }
    }

    /** Takes the matching prompts out of the queue from the back, keeping both orders. */
    method SpliceMatching(plugin: string, operationId: string) returns (removed: seq<Prompt>)
      modifies this`queued
      ensures queued == Select(old(queued), plugin, operationId, false)
      ensures removed == Select(old(queued), plugin, operationId, true)
    {
      removed := [];
      var index := |queued|;
      while index > 0
        invariant 0 <= index <= |old(queued)|
        invariant queued == old(queued)[..index] + Select(old(queued)[index..], plugin, operationId, false)
        invariant removed == Select(old(queued)[index..], plugin, operationId, true)
      {
        index := index - 1;
        var pending := queued[index];
        assert old(queued)[index..][1..] == old(queued)[index + 1..];
        if Belongs(pending, plugin, operationId) {
          queued := queued[..index] + queued[index + 1..];
          removed := [pending] + removed;
        }
      }
    }

    /** Cancelling an operation leaves pending exactly the prompts of others, in order, and answers its
        own with no. */
    method CancelTransportOperation(plugin: string, operationId: string, now: int) returns (settled: seq<Settled>)
      requires Valid()
      modifies this`active, this`queued, gate, canceled
      ensures Valid()
      ensures Effect(State(), gate.owner, settled)
              == CancelOperation(old(State()), old(gate.owner), plugin, operationId, now)
      ensures if ValidPluginId(plugin) && CanonicalUuid(operationId)
              then && Pending(State()) == Select(Pending(old(State())), plugin, operationId, false)
                   && SettledIds(settled) == Ids(Select(Pending(old(State())), plugin, operationId, true))
              else settled == [] && State() == old(State()) && gate.owner == old(gate.owner)
      ensures forall s :: s in settled ==> s.outcome == Answered(false)
    {
      hide BrokerInv, Conserves, GateFollows, Pending, Advance, Select, Ids, SettledIds, Remember, ValidPluginId;
      hide CanonicalUuid;
      CancelOperationIsGood(State(), gate.owner, plugin, operationId, now);
      if ValidPluginId(plugin) && CanonicalUuid(operationId) {
        CancelOperationPending(State(), gate.owner, plugin, operationId, now);
      }
      settled := [];
      if !ValidPluginId(plugin) || !CanonicalUuid(operationId) { return; }
      canceled.RememberCancellation(CancellationKey(plugin, operationId), now);
      var removed := SpliceMatching(plugin, operationId);
      if active.Some? && Belongs(active.value, plugin, operationId) {
        var current := active.value;
        active := None;
        gate.ReleaseOwner(current.id);
        settled := AdvanceQueue();
        settled := settled + [Settled(current.id, Answered(false))];
      }
      settled := settled + All(removed, Answered(false));
    }

    method CheckOperationCanceled(plugin: string, operationId: string, now: int) returns (yes: bool)
      modifies canceled
      ensures (State(), yes) == IsOperationCanceled(old(State()), plugin, operationId, now)
      ensures old(Valid()) ==> Valid()
    {
      if Valid() { LookupKeepsInv(State(), gate.owner, plugin, operationId, now); }
      yes := canceled.CheckCanceled(CancellationKey(plugin, operationId), now);
    }

    /** A well-formed request gets a promise, of the next number. Its prompt joins the end of the pending
        ones exactly when its operation is not cancelled, there is room for it and for its plugin, and
        the gate is free or held by this broker already; otherwise the promise is answered at once,
        with no if the operation is cancelled and as busy if not. */
    method ConfirmRequest(request: Request, now: int) returns (settled: seq<Settled>, id: Option<PromptId>)
      requires Valid()
      modifies this, gate, canceled
      ensures Valid()
      ensures (Effect(State(), gate.owner, settled), id) == Confirm(old(State()), old(gate.owner), request, now)
      ensures id == if ValidRequest(request) then Some(TransportId(old(sequence))) else None
      ensures id.None? ==> settled == [] && State() == old(State()) && gate.owner == old(gate.owner)
      ensures id.Some? ==>
                if Admissible(old(State()), old(gate.owner), request, now)
                then settled == [] && Pending(State()) == Pending(old(State())) + [Prompt(id.value, Parsed(request))]
                else && Pending(State()) == Pending(old(State())) && gate.owner == old(gate.owner)
                     && settled == [Settled(id.value, if AskedAfterCancel(old(State()), request, now)
                                                      then Answered(false) else Rejected(Busy))]
    {
      hide BrokerInv, Conserves, GateFollows, ValidRequest, Parsed, CountPlugin, Admissible, AskedAfterCancel;
      ConfirmIsGood(State(), gate.owner, request, now);
      ConfirmOutcome(State(), gate.owner, request, now);
      settled := [];
      if !ValidRequest(request) { return [], None; }
      var fresh' := TransportId(sequence);
      id := Some(fresh');
      sequence := sequence + 1;
      if request.operationId.Some? {
        var gone := CheckOperationCanceled(request.plugin, request.operationId.value, now);
        if gone { return [Settled(fresh', Answered(false))], id; }
      }
      var pending := (if active.Some? then [active.value] else []) + queued;
      if |pending| >= MAX_PENDING_TOTAL || CountPlugin(pending, request.plugin) >= MAX_PENDING_PER_PLUGIN {
        return [Settled(fresh', Rejected(Busy))], id;
      }
      if active.Some? || queued != [] {
        queued := queued + [Prompt(fresh', Parsed(request))];
        return;
      }
      var activated := Activate(Prompt(fresh', Parsed(request)));
      if !activated { settled := [Settled(fresh', Rejected(Busy))]; }
    }
  }
}
