/** Dispatching a plugin's call: permits for network routes, authorisation of every requirement, and
    then the handler. First one dispatch as the code runs it, then any number of them interleaved at
    their awaits. */
module RpcDispatch {
  import opened Wrappers

  type PluginId = string

  const NETWORK_LIMIT: nat := 4

  datatype Mode = All | Any

  datatype Requirement = Requirement(capability: string, resources: seq<string>, mode: Mode)

  /** A prepared route. */
  datatype Route = Route(requirements: seq<Requirement>, network: bool)

  /** What preparing the call yields. */
  datatype Preparation = UnknownMethod | InvalidParams | Prepared(route: Route)

  datatype Outcome = NoRoute | BadParams | RateLimited | Denied(requirement: nat) | Failed | Returned

  // ---- permits ----

  function Count(active: map<PluginId, nat>, p: PluginId): nat { if p in active then active[p] else 0 }

  function Acquired(active: map<PluginId, nat>, p: PluginId): map<PluginId, nat> { active[p := Count(active, p) + 1] }

  /** The stored count of `1` stands for a plugin that is not stored, and a count that would be zero
      is dropped. */
  function Released(active: map<PluginId, nat>, p: PluginId): map<PluginId, nat> {
    var stored: int := if p in active then active[p] else 1;
    if stored - 1 <= 0 then active - {p} else active[p := stored - 1]
  }

  lemma ReturningUndoesAcquiring(active: map<PluginId, nat>, p: PluginId)
    requires p in active ==> active[p] >= 1
    ensures Released(Acquired(active, p), p) == active
  {
    if p !in active { assert active[p := 1] - {p} == active; }
  }

  class PluginRpcConcurrencyLimiter {
    const limit: nat
    var active: map<PluginId, nat>

    constructor (limit: nat)
      ensures this.limit == limit && active == map[]
    {
      this.limit := limit;
      active := map[];
    }

    method TryAcquire(p: PluginId) returns (permit: Permit?)
      modifies this
      ensures permit == null <==> old(Count(active, p)) >= limit
      ensures permit == null ==> active == old(active)
      ensures permit != null ==>
                && active == Acquired(old(active), p)
                && fresh(permit) && permit.limiter == this && permit.pluginId == p && !permit.released
    {
      var current := Count(active, p);
      if current >= limit { return null; }
      active := active[p := current + 1];
      permit := new Permit(this, p);
    }
  }

  /** The function `tryAcquire` returns, with the flag it closes over. */
  class Permit {
    const limiter: PluginRpcConcurrencyLimiter
    const pluginId: PluginId
    var released: bool

    constructor (limiter: PluginRpcConcurrencyLimiter, pluginId: PluginId)
      ensures this.limiter == limiter && this.pluginId == pluginId && !released
    {
      this.limiter := limiter;
      this.pluginId := pluginId;
      released := false;
    }

    /** Gives the permit back; a second call does nothing. */
    method Release()
      modifies this, limiter
      ensures released
      ensures limiter.active == if old(released) then old(limiter.active) else Released(old(limiter.active), pluginId)
    {
      if released { return; }
      released := true;
      var stored: int := if pluginId in limiter.active then limiter.active[pluginId] else 1;
      var remaining := stored - 1;
      if remaining <= 0 {
        limiter.active := limiter.active - {pluginId};
      } else {
        limiter.active := limiter.active[pluginId := remaining];
      }
    }
  }

  // ---- one dispatch ----

  /** The host's answer for each requirement and resource; `None` is a call that threw. */
  type Decisions = (nat, nat) -> Option<bool>

  datatype Check = Allowed | Refused | Threw

  /** The condition a requirement states, over the answers that were asked for. */
  ghost predicate Satisfied(requirement: Requirement, r: nat, decide: Decisions) {
    match requirement.mode
    case All => requirement.resources != [] && forall k: nat :: k < |requirement.resources| ==>
        decide(r, k) == Some(true)
    case Any => exists k: nat :: && k < |requirement.resources| && decide(r, k) == Some(true)
                                 && forall j: nat :: j < k ==> decide(r, j) == Some(false)
  }

  /** An answer threw before the requirement was decided. */
  ghost predicate Interrupted(requirement: Requirement, r: nat, decide: Decisions) {
    exists k: nat :: && k < |requirement.resources| && decide(r, k) == None
                     && forall j: nat :: j < k ==> decide(r, j) == Some(requirement.mode.All?)
  }

  method RequirementIsAllowed(requirement: Requirement, r: nat, decide: Decisions) returns (c: Check)
    ensures c == Allowed <==> Satisfied(requirement, r, decide)
    ensures c == Threw <==> Interrupted(requirement, r, decide)
  {
    var n := |requirement.resources|;
    if n == 0 { return Refused; }
    if requirement.mode.Any? {
      for k := 0 to n
        invariant forall j: nat :: j < k ==> decide(r, j) == Some(false)
      {
        var allowed := decide(r, k);
        if allowed.None? { return Threw; }
        if allowed.value { return Allowed; }
      }
      return Refused;
    }
    for k := 0 to n
      invariant forall j: nat :: j < k ==> decide(r, j) == Some(true)
    {
      var allowed := decide(r, k);
      if allowed.None? { return Threw; }
      if !allowed.value { return Refused; }
    }
    c := Allowed;
  }

  ghost predicate AllSatisfied(requirements: seq<Requirement>, n: nat, decide: Decisions)
    requires n <= |requirements|
  {
    forall r: nat :: r < n ==> Satisfied(requirements[r], r, decide)
  }

  /** One dispatch from start to end. The handler runs exactly when a permit was free, if one was
      needed, and every requirement is satisfied; whatever happens, the permit is given back. */
  method DispatchPluginRpc(limiter: PluginRpcConcurrencyLimiter, p: PluginId, preparation: Preparation,
                           decide: Decisions, handlerSucceeds: bool)
    returns (outcome: Outcome, ran: bool)
    requires p in limiter.active ==> limiter.active[p] >= 1
    modifies limiter
    ensures limiter.active == old(limiter.active)
    ensures ran <==> && preparation.Prepared?
                     && (preparation.route.network ==> old(Count(limiter.active, p)) < limiter.limit)
                     && AllSatisfied(preparation.route.requirements, |preparation.route.requirements|, decide)
    ensures outcome == Returned <==> ran && handlerSucceeds
    ensures outcome == RateLimited <==>
              preparation.Prepared? && preparation.route.network && old(Count(limiter.active, p)) >= limiter.limit
    ensures outcome == NoRoute <==> preparation == UnknownMethod
    ensures outcome == BadParams <==> preparation == InvalidParams
    ensures outcome.Denied? ==> && preparation.Prepared? && outcome.requirement < |preparation.route.requirements|
                                && AllSatisfied(preparation.route.requirements, outcome.requirement, decide)
                                && !Satisfied(preparation.route.requirements[outcome.requirement],
                                   outcome.requirement, decide)
                                && !Interrupted(preparation.route.requirements[outcome.requirement],
                                   outcome.requirement, decide)
    ensures outcome == Failed && !ran ==>
              && preparation.Prepared?
              && exists r: nat :: && r < |preparation.route.requirements|
                                  && AllSatisfied(preparation.route.requirements, r, decide)
                                  && Interrupted(preparation.route.requirements[r], r, decide)
    ensures ran ==> outcome == if handlerSucceeds then Returned else Failed
  {
    ran := false;
    if preparation.UnknownMethod? { return NoRoute, ran; }
    if preparation.InvalidParams? { return BadParams, ran; }
    var route := preparation.route;
    var permit: Permit? := null;
    if route.network {
      permit := limiter.TryAcquire(p);
      if permit == null { return RateLimited, ran; }
      ReturningUndoesAcquiring(old(limiter.active), p);
    }
    var r := 0;
    outcome := Failed;
    var authorized := true;
    ghost var held := limiter.active;
    while authorized && r < |route.requirements|
      invariant r <= |route.requirements| && AllSatisfied(route.requirements, r, decide)
      invariant !authorized ==> && r < |route.requirements| && !Satisfied(route.requirements[r], r, decide)
                                && (if Interrupted(route.requirements[r], r, decide) then outcome == Failed
                                    else outcome == Denied(r))
      invariant authorized ==> outcome == Failed
      invariant limiter.active == held && (permit != null ==> !permit.released)
      decreases |route.requirements| - r, authorized
    {
      var c := RequirementIsAllowed(route.requirements[r], r, decide);
      match c {
        case Allowed => r := r + 1;
        case Refused => outcome, authorized := Denied(r), false;
        case Threw => authorized := false;
      }
    }
    if authorized {
      ran := true;
      outcome := if handlerSucceeds then Returned else Failed;
    }
    if permit != null { permit.Release(); }
  }

  // ---- any number of dispatches ----

  type DispatchId = nat

  /** Where a dispatch is: awaiting the answer on one resource, awaiting the handler, or over. */
  datatype Stage = Asking(requirement: nat, resource: nat) | Handling | Done(outcome: Outcome)

  datatype Holding = NoPermit | Held | GivenBack

  type Answers = map<(nat, nat), bool>

  datatype Dispatch = Dispatch(pluginId: PluginId, preparation: Preparation, stage: Stage, permit: Holding,
      answers: Answers, ran: bool)

  datatype System = System(active: map<PluginId, nat>, dispatches: map<DispatchId, Dispatch>)

  const IDLE := System(map[], map[])

  datatype Event =
    | Start(id: DispatchId, pluginId: PluginId, preparation: Preparation)
    | Answer(id: DispatchId, answer: Option<bool>)
    | HandlerEnds(id: DispatchId, ok: bool)
    | ReleaseAgain(id: DispatchId)

  predicate Network(d: Dispatch) { d.preparation.Prepared? && d.preparation.route.network }

  /** From the loop over requirements to the next await. */
  function Enter(d: Dispatch, r: nat): (t: Dispatch)
    requires d.preparation.Prepared?
    ensures t == d.(stage := t.stage, ran := t.ran)
  {
    var requirements := d.preparation.route.requirements;
    if r >= |requirements| then d.(stage := Handling, ran := true)
    else if requirements[r].resources == [] then d.(stage := Done(Denied(r)))
    else d.(stage := Asking(r, 0))
  }

  function Progress(d: Dispatch, answer: Option<bool>): (t: Dispatch)
    requires d.preparation.Prepared? && d.stage.Asking? && d.stage.requirement < |d.preparation.route.requirements|
    ensures t == d.(stage := t.stage, ran := t.ran, answers := t.answers)
  {
    var r, k := d.stage.requirement, d.stage.resource;
    var requirement := d.preparation.route.requirements[r];
    match answer
    case None => d.(stage := Done(Failed))
    case Some(allowed) =>
      var told := d.(answers := d.answers[(r, k) := allowed]);
      if allowed != requirement.mode.All? then (if allowed then Enter(told, r + 1) else told.(stage := Done(Denied(r))))
      else if k + 1 < |requirement.resources| then told.(stage := Asking(r, k + 1))
      else if allowed then Enter(told, r + 1) else told.(stage := Done(Denied(r)))
  }

  /** Stores a dispatch; the `finally` gives its permit back when it is over. */
  function Place(s: System, id: DispatchId, d: Dispatch): System {
    if d.stage.Done? && d.permit.Held? then
      System(Released(s.active, d.pluginId), s.dispatches[id := d.(permit := GivenBack)])
    else s.(dispatches := s.dispatches[id := d])
  }

  function Started(s: System, id: DispatchId, p: PluginId, preparation: Preparation): System {
    var d := Dispatch(p, preparation, Done(NoRoute), NoPermit, map[], false);
    match preparation
    case UnknownMethod => Place(s, id, d)
    case InvalidParams => Place(s, id, d.(stage := Done(BadParams)))
    case Prepared(route) =>
      if !route.network then Place(s, id, Enter(d, 0))
      else if Count(s.active, p) >= NETWORK_LIMIT then Place(s, id, d.(stage := Done(RateLimited)))
      else Place(s.(active := Acquired(s.active, p)), id, Enter(d.(permit := Held), 0))
  }

  predicate Enabled(s: System, e: Event) {
    match e
    case Start(id, _, _) => id !in s.dispatches
    case Answer(id, _) =>
      && id in s.dispatches && s.dispatches[id].stage.Asking? && s.dispatches[id].preparation.Prepared?
      && s.dispatches[id].stage.requirement < |s.dispatches[id].preparation.route.requirements|
    case HandlerEnds(id, _) => id in s.dispatches && s.dispatches[id].stage.Handling?
    case ReleaseAgain(id) => id in s.dispatches && s.dispatches[id].stage.Done?
  }

  function Apply(s: System, e: Event): System
    requires Enabled(s, e)
  {
    match e
    case Start(id, p, preparation) => Started(s, id, p, preparation)
    case Answer(id, answer) => Place(s, id, Progress(s.dispatches[id], answer))
    case HandlerEnds(id, ok) => Place(s, id, s.dispatches[id].(stage := Done(if ok then Returned else Failed)))
    case ReleaseAgain(id) => Place(s, id, s.dispatches[id])
  }

  ghost predicate Possible(s: System, events: seq<Event>)
    decreases |events|
  {
    events == [] || (Enabled(s, events[0]) && Possible(Apply(s, events[0]), events[1..]))
  }

  function Run(s: System, events: seq<Event>): System
    requires Possible(s, events)
    decreases |events|
  {
    if events == [] then s else Run(Apply(s, events[0]), events[1..])
  }

  // ---- what every run keeps ----

  /** A network dispatch that was let through and is not over. */
  predicate Flying(d: Dispatch) { Network(d) && !d.stage.Done? }

  function InFlight(dispatches: map<DispatchId, Dispatch>, p: PluginId): set<DispatchId> {
    set id | id in dispatches && dispatches[id].pluginId == p && Flying(dispatches[id])
  }

  /** The stored count of a plugin is the number of its network dispatches in flight. */
  ghost predicate CountInv(s: System, p: PluginId) {
    var n := |InFlight(s.dispatches, p)|;
    n <= NETWORK_LIMIT && (p in s.active <==> n > 0) && (p in s.active ==> s.active[p] == n)
  }

  /** The condition of a requirement, over the answers the host gave. */
  ghost predicate Granted(requirement: Requirement, r: nat, answers: Answers) {
    match requirement.mode
    case All =>
      requirement.resources != [] && forall k: nat :: k < |requirement.resources| ==>
          (r, k) in answers && answers[(r, k)]
    case Any => exists k: nat :: k < |requirement.resources| && (r, k) in answers && answers[(r, k)]
  }

  /** The answers settle that the condition does not hold. */
  ghost predicate RefusedBy(requirement: Requirement, r: nat, answers: Answers) {
    || requirement.resources == []
    || match requirement.mode
       case All => exists k: nat :: k < |requirement.resources| && (r, k) in answers && !answers[(r, k)]
       case Any => forall k: nat :: k < |requirement.resources| ==> (r, k) in answers && !answers[(r, k)]
  }

  ghost predicate AllGranted(requirements: seq<Requirement>, n: nat, answers: Answers)
    requires n <= |requirements|
  {
    forall r: nat :: r < n ==> Granted(requirements[r], r, answers)
  }

  ghost predicate DispatchInv(d: Dispatch) {
    && (d.permit.Held? <==> Flying(d))
    && (!d.stage.Done? || d.ran ==> d.preparation.Prepared?)
    && (d.stage.Handling? ==> d.ran)
    && (d.stage.Asking? ==> !d.ran && Partial(d))
    && (d.ran ==> AllGranted(d.preparation.route.requirements, |d.preparation.route.requirements|, d.answers))
    && (d.stage.Done? && d.stage.outcome.Returned? ==> d.ran)
    && (d.stage.Done? && d.stage.outcome.Denied? ==>
          && !d.ran && d.preparation.Prepared? && d.stage.outcome.requirement < |d.preparation.route.requirements|
          && RefusedBy(d.preparation.route.requirements[d.stage.outcome.requirement], d.stage.outcome.requirement,
             d.answers))
  }

  /** The requirements before the current one are granted, and the answers so far leave it open. */
  ghost predicate Partial(d: Dispatch)
    requires d.stage.Asking? && d.preparation.Prepared?
  {
    var requirements := d.preparation.route.requirements;
    var r, k := d.stage.requirement, d.stage.resource;
    && r < |requirements| && k < |requirements[r].resources|
    && AllGranted(requirements, r, d.answers)
    && (forall j: nat :: j < k ==> (r, j) in d.answers && d.answers[(r, j)] == requirements[r].mode.All?)
  }

  ghost predicate Inv(s: System) {
    && (forall p: PluginId :: CountInv(s, p))
    && forall id :: id in s.dispatches ==> DispatchInv(s.dispatches[id])
  }

  lemma EnterKeepsInv(d: Dispatch, r: nat)
    requires d.preparation.Prepared? && r <= |d.preparation.route.requirements| && !d.ran
    requires AllGranted(d.preparation.route.requirements, r, d.answers)
    requires d.permit.Held? <==> Network(d)
    ensures var t := Enter(d, r);
            DispatchInv(if t.stage.Done? && t.permit.Held? then t.(permit := GivenBack) else t)
  {
  }

  lemma AnswerGrants(requirements: seq<Requirement>, r: nat, k: nat, allowed: bool, answers: Answers)
    requires r < |requirements| && AllGranted(requirements, r, answers) && k < |requirements[r].resources|
    requires forall j: nat :: j < k ==> (r, j) in answers && answers[(r, j)] == requirements[r].mode.All?
    ensures var told := answers[(r, k) := allowed];
            && AllGranted(requirements, r, told)
            && (allowed && (requirements[r].mode.Any? || k + 1 == |requirements[r].resources|) ==>
                 AllGranted(requirements, r + 1, told))
            && (!allowed && (requirements[r].mode.All? || k + 1 == |requirements[r].resources|) ==>
                 RefusedBy(requirements[r], r, told))
  {
    var told := answers[(r, k) := allowed];
    assert (r, k) in told && told[(r, k)] == allowed;
    forall i: nat | i < r ensures Granted(requirements[i], i, told) {
      assert Granted(requirements[i], i, answers);
      if requirements[i].mode.Any? {
        var j: nat :| j < |requirements[i].resources| && (i, j) in answers && answers[(i, j)];
        assert (i, j) in told && told[(i, j)];
      }
    }
  }

  lemma ProgressKeepsInv(d: Dispatch, answer: Option<bool>)
    requires DispatchInv(d) && d.stage.Asking?
    ensures var t := Progress(d, answer);
            DispatchInv(if t.stage.Done? && t.permit.Held? then t.(permit := GivenBack) else t)
  {
    if answer.Some? {
      hide Granted, RefusedBy, Enter;
      var requirements := d.preparation.route.requirements;
      var r, k := d.stage.requirement, d.stage.resource;
      AnswerGrants(requirements, r, k, answer.value, d.answers);
      var told := d.(answers := d.answers[(r, k) := answer.value]);
      if AllGranted(requirements, r + 1, told.answers) { EnterKeepsInv(told, r + 1); }
    }
  }

  // ---- counting ----

  lemma InFlightOfUpdate(dispatches: map<DispatchId, Dispatch>, id: DispatchId, d: Dispatch, p: PluginId)
    ensures InFlight(dispatches[id := d], p) ==
            if d.pluginId == p && Flying(d) then InFlight(dispatches, p) + {id} else InFlight(dispatches, p) - {id}
  {
  }

  lemma AcquiringCounts(s: System, id: DispatchId, d: Dispatch, p: PluginId)
    requires CountInv(s, p) && id !in s.dispatches && Flying(d)
             && (d.pluginId == p ==> Count(s.active, p) < NETWORK_LIMIT)
    ensures CountInv(System(Acquired(s.active, d.pluginId), s.dispatches[id := d]), p)
  {
    InFlightOfUpdate(s.dispatches, id, d, p);
    assert id !in InFlight(s.dispatches, p);
    assert d.pluginId != p ==> InFlight(s.dispatches, p) - {id} == InFlight(s.dispatches, p);
  }

  /** Storing a dispatch that is new and has no permit, or is the one in flight, keeps the counts. */
  lemma PlacingCounts(s: System, id: DispatchId, d: Dispatch, p: PluginId)
    requires CountInv(s, p)
    requires if id in s.dispatches && Flying(s.dispatches[id])
             then d.pluginId == s.dispatches[id].pluginId && Network(d) && d.permit.Held?
             else !Flying(d) && !d.permit.Held?
    ensures CountInv(Place(s, id, d), p)
  {
    var flying := InFlight(s.dispatches, p);
    var placed := if d.stage.Done? && d.permit.Held? then d.(permit := GivenBack) else d;
    InFlightOfUpdate(s.dispatches, id, placed, p);
    assert id in flying ==> flying + {id} == flying && |flying - {id}| == |flying| - 1;
    assert id !in flying ==> flying - {id} == flying;
  }

  lemma StartKeepsCounts(s: System, id: DispatchId, p: PluginId, preparation: Preparation, q: PluginId)
    requires CountInv(s, q) && CountInv(s, p) && id !in s.dispatches
    ensures CountInv(Started(s, id, p, preparation), q)
  {
    hide CountInv;
    var d := Dispatch(p, preparation, Done(NoRoute), NoPermit, map[], false);
    if preparation.Prepared? && preparation.route.network && Count(s.active, p) < NETWORK_LIMIT {
      var flying := d.(stage := Handling, permit := Held);
      var t := System(Acquired(s.active, p), s.dispatches[id := flying]);
      AcquiringCounts(s, id, flying, q);
      PlacingCounts(t, id, Enter(d.(permit := Held), 0), q);
      assert Place(t, id, Enter(d.(permit := Held), 0)) == Started(s, id, p, preparation);
    } else {
      var ended := if preparation.UnknownMethod? then d
                   else if preparation.InvalidParams? then d.(stage := Done(BadParams))
                   else if !preparation.route.network then Enter(d, 0) else d.(stage := Done(RateLimited));
      PlacingCounts(s, id, ended, q);
    }
  }

  /** Every step keeps the invariant: counts and permits, and what each dispatch was granted. */
  lemma {:induction false} ApplyKeepsInv(s: System, e: Event)
    requires Inv(s) && Enabled(s, e)
    ensures Inv(Apply(s, e))
  {
    hide CountInv, Place, AllGranted, RefusedBy;
    match e
    case Start(id, p, preparation) =>
      forall q: PluginId ensures CountInv(Apply(s, e), q) { StartKeepsCounts(s, id, p, preparation, q); }
      StartKeepsDispatches(s, id, p, preparation);
    case Answer(id, answer) =>
      ProgressKeepsInv(s.dispatches[id], answer);
      PlaceKeepsInv(s, id, Progress(s.dispatches[id], answer));
    case HandlerEnds(id, ok) =>
      PlaceKeepsInv(s, id, s.dispatches[id].(stage := Done(if ok then Returned else Failed)));
    case ReleaseAgain(id) =>
      PlaceKeepsInv(s, id, s.dispatches[id]);
  }

  lemma PlaceKeepsInv(s: System, id: DispatchId, d: Dispatch)
    requires Inv(s) && id in s.dispatches
    requires d.pluginId == s.dispatches[id].pluginId && d.preparation == s.dispatches[id].preparation
    requires d.permit == s.dispatches[id].permit && (s.dispatches[id].stage.Done? ==> d.stage.Done?)
    requires DispatchInv(if d.stage.Done? && d.permit.Held? then d.(permit := GivenBack) else d)
    ensures Inv(Place(s, id, d))
  {
    hide CountInv, AllGranted, RefusedBy;
    forall q: PluginId ensures CountInv(Place(s, id, d), q) { PlacingCounts(s, id, d, q); }
  }

  lemma StartKeepsDispatches(s: System, id: DispatchId, p: PluginId, preparation: Preparation)
    requires Inv(s) && id !in s.dispatches
    ensures forall i :: i in Started(s, id, p, preparation).dispatches ==>
            DispatchInv(Started(s, id, p, preparation).dispatches[i])
  {
    hide CountInv, RefusedBy, Granted;
    var d := Dispatch(p, preparation, Done(NoRoute), NoPermit, map[], false);
    if preparation.Prepared? {
      EnterKeepsInv(if preparation.route.network then d.(permit := Held) else d, 0);
    }
  }

  lemma {:induction false} RunKeepsInv(s: System, events: seq<Event>)
    requires Inv(s) && Possible(s, events)
    ensures Inv(Run(s, events))
    decreases |events|
  {
    if events != [] {
      hide Inv, Apply, Enabled;
      ApplyKeepsInv(s, events[0]);
      RunKeepsInv(Apply(s, events[0]), events[1..]);
    }
  }

  lemma EveryRunKeepsInv(events: seq<Event>)
    requires Possible(IDLE, events)
    ensures Inv(Run(IDLE, events))
  {
    RunKeepsInv(IDLE, events);
  }

  // ---- main results ----

  /** In every run, a plugin is stored exactly while it has network dispatches in flight, with their
      number, which is at most the limit. */
  lemma PermitsCountFlights(events: seq<Event>, p: PluginId)
    requires Possible(IDLE, events)
    ensures var s := Run(IDLE, events);
            if p in s.active then 1 <= s.active[p] <= 4 && s.active[p] == |InFlight(s.dispatches, p)|
            else InFlight(s.dispatches, p) == {}
  {
    EveryRunKeepsInv(events);
    assert CountInv(Run(IDLE, events), p);
  }

  /** When every dispatch is over, every permit is back. */
  lemma PermitsAllReturn(events: seq<Event>)
    requires Possible(IDLE, events)
    requires var s := Run(IDLE, events); forall id :: id in s.dispatches ==> s.dispatches[id].stage.Done?
    ensures Run(IDLE, events).active == map[]
  {
    var s := Run(IDLE, events);
    forall p: PluginId ensures p !in s.active {
      PermitsCountFlights(events, p);
      assert InFlight(s.dispatches, p) == {};
    }
  }

  /** A network dispatch is turned away exactly when the limit's number of the same plugin's are in
      flight. */
  lemma LimitIsExact(s: System, id: DispatchId, p: PluginId, route: Route)
    requires Inv(s) && id !in s.dispatches && route.network
    ensures var d := Apply(s, Start(id, p, Prepared(route))).dispatches[id];
            d.stage == Done(RateLimited) <==> |InFlight(s.dispatches, p)| == 4
  {
    assert CountInv(s, p);
  }

  function PluginOf(s: System, e: Event): PluginId
    requires Enabled(s, e)
  {
    match e
    case Start(_, p, _) => p
    case _ => s.dispatches[e.id].pluginId
  }

  /** A step touches one dispatch and the permits of its plugin only; releasing again touches nothing. */
  lemma PluginsAreIndependent(s: System, e: Event, q: PluginId, other: DispatchId)
    requires Inv(s) && Enabled(s, e)
    ensures q != PluginOf(s, e) ==> Count(Apply(s, e).active, q) == Count(s.active, q)
    ensures other != e.id ==> (other in Apply(s, e).dispatches <==> other in s.dispatches)
    ensures other != e.id && other in s.dispatches ==> Apply(s, e).dispatches[other] == s.dispatches[other]
    ensures e.ReleaseAgain? ==> Apply(s, e) == s
  {
    hide CountInv, AllGranted, RefusedBy, Enter, Progress;
    if e.ReleaseAgain? { assert DispatchInv(s.dispatches[e.id]); }
  }

  /** A handler ran only if every requirement of its route was granted, and a denial names a
      requirement the answers refuse. */
  lemma HandlersAreAuthorized(events: seq<Event>, id: DispatchId)
    requires Possible(IDLE, events) && id in Run(IDLE, events).dispatches
    ensures var d := Run(IDLE, events).dispatches[id];
            && (d.ran ==> && d.preparation.Prepared?
                          && AllGranted(d.preparation.route.requirements, |d.preparation.route.requirements|,
                             d.answers))
            && (d.stage == Done(Returned) ==> d.ran)
            && (d.stage.Done? && d.stage.outcome.Denied? ==>
                  && !d.ran && d.preparation.Prepared?
                  && d.stage.outcome.requirement < |d.preparation.route.requirements|
                  && RefusedBy(d.preparation.route.requirements[d.stage.outcome.requirement],
                     d.stage.outcome.requirement, d.answers))
  {
    hide AllGranted, RefusedBy, CountInv;
    EveryRunKeepsInv(events);
  }

  /** Why a dispatch ended as it did, by what preparing it gave and what happened to it. */
  ghost predicate Earned(d: Dispatch, past: seq<Event>, id: DispatchId) {
    d.stage.Done? ==>
      match d.stage.outcome
      case NoRoute => d.preparation == UnknownMethod
      case BadParams => d.preparation == InvalidParams
      case RateLimited => Network(d)
      case Denied(r) => && d.preparation.Prepared? && r < |d.preparation.route.requirements|
                        && RefusedBy(d.preparation.route.requirements[r], r, d.answers)
      case Failed => Answer(id, None) in past || HandlerEnds(id, false) in past
      case Returned => HandlerEnds(id, true) in past
  }

  lemma StepEarns(s: System, e: Event, past: seq<Event>, id: DispatchId)
    requires Inv(s) && Enabled(s, e) && id in Apply(s, e).dispatches
    requires id in s.dispatches ==> Earned(s.dispatches[id], past, id)
    ensures Earned(Apply(s, e).dispatches[id], past + [e], id)
  {
    hide CountInv, RefusedBy, AllGranted, Released, Acquired, Granted;
    assert e in past + [e] && forall x :: x in past ==> x in past + [e];
    ApplyKeepsInv(s, e);
    assert DispatchInv(Apply(s, e).dispatches[id]);
    if e.id == id { StepEarnsItsOwn(s, e, past); } else { PluginsAreIndependent(s, e, PluginOf(s, e), id); }
  }

  lemma StepEarnsItsOwn(s: System, e: Event, past: seq<Event>)
    requires Enabled(s, e) && e.id in Apply(s, e).dispatches && DispatchInv(Apply(s, e).dispatches[e.id])
    requires e.id in s.dispatches ==> Earned(s.dispatches[e.id], past, e.id)
    ensures Earned(Apply(s, e).dispatches[e.id], past + [e], e.id)
  {
    hide RefusedBy, AllGranted, Released, Acquired;
    assert e in past + [e] && forall x :: x in past ==> x in past + [e];
  }

  /** In every run each dispatch ends for its reason: refused by an answer the host gave, failed because an
      answer or the handler threw, returned because the handler did, turned away because of the limit,
      or never prepared. So an allowed call that nothing disturbs can only return. */
  lemma {:induction false} OutcomesAreEarned(s: System, past: seq<Event>, events: seq<Event>, id: DispatchId)
    requires Inv(s) && Possible(s, events) && id in Run(s, events).dispatches
    requires id in s.dispatches ==> Earned(s.dispatches[id], past, id)
    ensures Earned(Run(s, events).dispatches[id], past + events, id)
    decreases |events|
  {
    hide Inv, Apply, Enabled, Earned;
    if events == [] {
      assert past + events == past;
    } else {
      var t := Apply(s, events[0]);
      ApplyKeepsInv(s, events[0]);
      if id in t.dispatches { StepEarns(s, events[0], past, id); }
      OutcomesAreEarned(t, past + [events[0]], events[1..], id);
      assert past + [events[0]] + events[1..] == past + events;
    }
  }

  /** A dispatch asks about its first requirement at once, or runs its handler if there is none; each
      answer leads to the next resource, to the next requirement, to the handler, or to the end. */
  lemma StepsGoOn(s: System, e: Event)
    requires Inv(s) && Enabled(s, e)
    ensures match e
            case Start(id, p, Prepared(route)) =>
              var d := Apply(s, e).dispatches[id];
              && d.pluginId == p && d.preparation == Prepared(route)
              && (!(route.network && |InFlight(s.dispatches, p)| == 4) ==>
                    d.stage == FirstQuestion(route.requirements, 0) && (d.ran <==> route.requirements == []))
            case Answer(id, Some(allowed)) =>
              var before, d := s.dispatches[id], Apply(s, e).dispatches[id];
              var requirements := before.preparation.route.requirements;
              var r, k := before.stage.requirement, before.stage.resource;
              var last := k + 1 == |requirements[r].resources|;
              d.stage == if allowed && (requirements[r].mode.Any? || last) then FirstQuestion(requirements, r + 1)
                         else if !allowed && (requirements[r].mode.All? || last) then Done(Denied(r))
                         else Asking(r, k + 1)
            case Answer(id, None) => Apply(s, e).dispatches[id].stage == Done(Failed)
            case HandlerEnds(id, ok) => Apply(s, e).dispatches[id].stage == Done(if ok then Returned else Failed)
            case _ => true
  {
    hide AllGranted, RefusedBy, Granted, Released, Acquired, InFlight;
    if e.Start? { assert CountInv(s, e.pluginId); }
    if e.Answer? { assert DispatchInv(s.dispatches[e.id]); }
  }

  /** Where the questions about the requirements from `r` on begin. */
  function FirstQuestion(requirements: seq<Requirement>, r: nat): Stage {
    if r >= |requirements| then Handling
    else if requirements[r].resources == [] then Done(Denied(r))
    else Asking(r, 0)
  }

  predicate Recorded(s: System, id: DispatchId, r: nat, k: nat, allowed: bool) {
    id in s.dispatches && (r, k) in s.dispatches[id].answers && s.dispatches[id].answers[(r, k)] == allowed
  }

  lemma StepRecords(s: System, e: Event, id: DispatchId, r: nat, k: nat, allowed: bool)
    requires Enabled(s, e) && !Recorded(s, id, r, k, allowed) && Recorded(Apply(s, e), id, r, k, allowed)
    ensures e == Answer(id, Some(allowed)) && id in s.dispatches && s.dispatches[id].stage == Asking(r, k)
  {
    hide Released, Acquired, Count, Enter;
  }

  /** Every recorded answer is one the host gave, to the question that was open. */
  lemma {:induction false} GrantsWereGiven(s: System, events: seq<Event>, id: DispatchId, r: nat, k: nat, allowed: bool)
    returns (i: nat)
    requires Possible(s, events)
    requires !Recorded(s, id, r, k, allowed) && Recorded(Run(s, events), id, r, k, allowed)
    ensures i < |events| && events[i] == Answer(id, Some(allowed))
    ensures Possible(s, events[..i])
    ensures id in Run(s, events[..i]).dispatches && Run(s, events[..i]).dispatches[id].stage == Asking(r, k)
    decreases |events|
  {
    hide Apply, Enabled, Recorded;
    var t := Apply(s, events[0]);
    if Recorded(t, id, r, k, allowed) {
      StepRecords(s, events[0], id, r, k, allowed);
      i := 0;
    } else {
      var later := GrantsWereGiven(t, events[1..], id, r, k, allowed);
      i := later + 1;
      assert events[..i][0] == events[0] && events[..i][1..] == events[1..][..later];
    }
  }
}
