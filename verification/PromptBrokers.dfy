/** The trusted prompts: one gate shared by two provider brokers and the transport broker, which
    queues prompts and keeps the cancellation ledger. Listeners are outside the model. Here is what each
    call computes; the objects that compute it are in `BrokerObjects`. */
module PromptBrokers {
  import opened Wrappers
  import opened CancellationLedger
  import opened Text

  /** Both provider brokers number their prompts alike, so their ids may coincide. */
  datatype PromptId = ProviderId(n: nat) | TransportId(n: nat)

  datatype Kind = NetworkPrompt | SourceTrust | ReplaceConfig

  datatype Operation = Clone | Fetch | Pull | Push | BindProfile

  datatype Request = Request(plugin: string, operationId: Option<string>, kind: Kind, operation: Operation,
      resourceLabel: string)

  datatype Prompt = Prompt(id: PromptId, request: Request)

  datatype Refusal = Busy | Invalid | Unavailable

  datatype Outcome = Answered(yes: bool) | Rejected(why: Refusal)

  /** A promise being settled. */
  datatype Settled = Settled(id: PromptId, outcome: Outcome)

  type Gate = Option<PromptId>

  // ---- requests ----

  predicate ValidPluginId(s: string) {
    0 < |s| <= 256 && forall i :: 0 <= i < |s| ==> !IsControl(s[i])
  }

  predicate CanonicalUuid(s: string) {
    && |s| == 36
    && forall i :: 0 <= i < 36 ==>
         if i == 8 || i == 13 || i == 18 || i == 23 then s[i] == '-' else '0' <= s[i] <= '9' || 'a' <= s[i] <= 'f'
  }

  predicate Compatible(kind: Kind, operation: Operation) {
    match kind
    case SourceTrust => operation == Clone
    case ReplaceConfig => operation == BindProfile
    case NetworkPrompt => operation != BindProfile
  }

  predicate ValidLabel(s: string) {
    && Trim(s) != "" && |s| <= 8192
    && forall i :: 0 <= i < |s| ==> !IsControl(s[i])
  }

  predicate ValidRequest(r: Request) {
    && ValidPluginId(r.plugin) && (r.operationId.Some? ==> CanonicalUuid(r.operationId.value))
    && Compatible(r.kind, r.operation) && ValidLabel(r.resourceLabel)
  }

  /** What `validateRequest` makes of an accepted request: the label is kept without outer blanks. */
  function Parsed(r: Request): Request { r.(resourceLabel := Trim(r.resourceLabel)) }

  lemma ParsedIsValid(r: Request)
    requires ValidRequest(r)
    ensures ValidRequest(Parsed(r)) && Parsed(Parsed(r)) == Parsed(r)
  {
    hide Trim, ValidPluginId, CanonicalUuid;
    var shown := r.resourceLabel;
    TrimKeeps(shown);
    TrimIsTight(shown);
    TrimIsTight(Trim(shown));
    forall i | 0 <= i < |Trim(shown)| ensures !IsControl(Trim(shown)[i]) { assert Trim(shown)[i] in shown; }
  }

  /** Which requests are accepted, part by part; the label must not be blank. */
  lemma AcceptedIff(r: Request)
    ensures ValidRequest(r) <==>
            && 0 < |r.plugin| <= 256 && (forall i :: 0 <= i < |r.plugin| ==> !IsControl(r.plugin[i]))
            && (r.operationId.Some? ==> CanonicalUuid(r.operationId.value))
            && (match r.kind
                case SourceTrust => r.operation == Clone
                case ReplaceConfig => r.operation == BindProfile
                case NetworkPrompt => r.operation in {Clone, Fetch, Pull, Push})
            && |r.resourceLabel| <= 8192 && (exists i :: 0 <= i < |r.resourceLabel| && !IsSpace(r.resourceLabel[i]))
            && (forall i :: 0 <= i < |r.resourceLabel| ==> !IsControl(r.resourceLabel[i]))
  {
    hide CanonicalUuid, Trim;
    TrimsToNothingIff(r.resourceLabel);
  }

  const UUID := "0f8fad5b-d9cb-469f-a165-70867728950e"

  lemma OneUuid()
    ensures CanonicalUuid(UUID)
  {
  }

  /** A request of the ordinary kind. */
  lemma FetchIsAccepted()
    ensures ValidRequest(Request("a.b", Some(UUID), NetworkPrompt, Fetch, "origin"))
  {
    hide CanonicalUuid, ValidRequest;
    OneUuid();
    AcceptedIff(Request("a.b", Some(UUID), NetworkPrompt, Fetch, "origin"));
    assert !IsSpace("origin"[0]);
  }

  /** Neither side of a cancellation key can contain the separator. */
  lemma ValidKeysAreInjective(p: string, o: string, p': string, o': string)
    requires ValidPluginId(p) && ValidPluginId(p') && CancellationKey(p, o) == CancellationKey(p', o')
    ensures p == p' && o == o'
  {
    CancellationKeyIsInjective(p, o, p', o');
  }

  // ---- specification of the transport broker ----

  const MAX_PENDING_TOTAL := 16
  const MAX_PENDING_PER_PLUGIN := 4

  datatype Broker = Broker(active: Option<Prompt>, queued: seq<Prompt>, ledger: Ledger, sequence: nat)

  datatype Effect = Effect(broker: Broker, gate: Gate, settled: seq<Settled>)

  function Release(gate: Gate, id: PromptId): Gate { if gate == Some(id) then None else gate }

  function All(prompts: seq<Prompt>, outcome: Outcome): seq<Settled> {
    seq(|prompts|, i requires 0 <= i < |prompts| => Settled(prompts[i].id, outcome))
  }

  /** `advance`: hands the gate to the next queued prompt, refusing those that cannot get it. */
  function Advance(b: Broker, gate: Gate): Effect
    decreases |b.queued|
  {
    if b.queued == [] then Effect(b, gate, [])
    else
      var next := b.queued[0];
      var rest := b.(queued := b.queued[1..]);
      if gate.None? then Effect(rest.(active := Some(next)), Some(next.id), [])
      else
        var e := Advance(rest, gate);
        e.(settled := [Settled(next.id, Rejected(Busy))] + e.settled)
  }

  function Settle(b: Broker, gate: Gate, id: PromptId, result: bool): Effect {
    if b.active.Some? && b.active.value.id == id then
      var e := Advance(b.(active := None), Release(gate, id));
      e.(settled := e.settled + [Settled(id, Answered(result))])
    else Effect(b, gate, [])
  }

  /** Clears everything, settling the active prompt and then the waiting ones alike. */
  function Clear(b: Broker, gate: Gate, outcome: Outcome): Effect {
    Effect(b.(active := None, queued := []),
           if b.active.Some? then Release(gate, b.active.value.id) else gate,
           (if b.active.Some? then [Settled(b.active.value.id, outcome)] else []) + All(b.queued, outcome))
  }

  function MarkUnavailable(b: Broker, gate: Gate, id: PromptId): Effect {
    if b.active.Some? && b.active.value.id == id then Clear(b, gate, Rejected(Unavailable)) else Effect(b, gate, [])
  }

  predicate Belongs(p: Prompt, plugin: string, operationId: string) {
    p.request.plugin == plugin && p.request.operationId == Some(operationId)
  }

  function Select(prompts: seq<Prompt>, plugin: string, operationId: string, matching: bool): seq<Prompt> {
    if prompts == [] then []
    else
      var rest := Select(prompts[1..], plugin, operationId, matching);
      if Belongs(prompts[0], plugin, operationId) == matching then [prompts[0]] + rest else rest
  }

  function CancelOperation(b: Broker, gate: Gate, plugin: string, operationId: string, now: int): Effect {
    if !ValidPluginId(plugin) || !CanonicalUuid(operationId) then Effect(b, gate, [])
    else
      var canceled := Select(b.queued, plugin, operationId, true);
      var b1 := b.(queued := Select(b.queued, plugin, operationId, false),
                   ledger := Remember(b.ledger, CancellationKey(plugin, operationId), now));
      if b.active.Some? && Belongs(b.active.value, plugin, operationId) then
        var e := Advance(b1.(active := None), Release(gate, b.active.value.id));
        e.(settled := e.settled + [Settled(b.active.value.id, Answered(false))] + All(canceled, Answered(false)))
      else Effect(b1, gate, All(canceled, Answered(false)))
  }

  function IsOperationCanceled(b: Broker, plugin: string, operationId: string, now: int): (Broker, bool) {
    var (ledger, canceled) := IsCanceled(b.ledger, CancellationKey(plugin, operationId), now);
    (b.(ledger := ledger), canceled)
  }

  function Pending(b: Broker): seq<Prompt> {
    (if b.active.Some? then [b.active.value] else []) + b.queued
  }

  function CountPlugin(prompts: seq<Prompt>, plugin: string): nat {
    if prompts == [] then 0
    else (if prompts[0].request.plugin == plugin then 1 else 0) + CountPlugin(prompts[1..], plugin)
  }

  /** `confirm`: the id of the new promise (`None` for an invalid request), which may be settled at
      once. */
  function Confirm(b: Broker, gate: Gate, request: Request, now: int): (Effect, Option<PromptId>) {
    if !ValidRequest(request) then (Effect(b, gate, []), None)
    else
      var id := TransportId(b.sequence);
      var b1 := b.(sequence := b.sequence + 1);
      var (b2, canceled) :=
        if request.operationId.Some? then IsOperationCanceled(b1, request.plugin, request.operationId.value, now)
        else (b1, false);
      if canceled then (Effect(b2, gate, [Settled(id, Answered(false))]), Some(id))
      else if || |Pending(b2)| >= MAX_PENDING_TOTAL
              || CountPlugin(Pending(b2), request.plugin) >= MAX_PENDING_PER_PLUGIN then
        (Effect(b2, gate, [Settled(id, Rejected(Busy))]), Some(id))
      else if b2.active.Some? || b2.queued != [] then
        (Effect(b2.(queued := b2.queued + [Prompt(id, Parsed(request))]), gate, []), Some(id))
      else if gate.None? then
        (Effect(b2.(active := Some(Prompt(id, Parsed(request)))), Some(id), []), Some(id))
      else
        (Effect(b2, gate, [Settled(id, Rejected(Busy))]), Some(id))
  }

  // ---- specification of the provider brokers ----

  /** A provider broker: one prompt at a time, no queue. */
  datatype Provider = Provider(active: Option<PromptId>, sequence: nat)

  function Ask(p: Provider, gate: Gate): (Provider, Gate, bool) {
    var id := ProviderId(p.sequence);
    if gate.None? then (Provider(Some(id), p.sequence + 1), Some(id), true)
    else (p.(sequence := p.sequence + 1), gate, false)
  }

  /** `resolve` and `cancel` name a prompt, `cancelAll` does not. */
  function Finish(p: Provider, gate: Gate, id: Option<PromptId>): (Provider, Gate) {
    if p.active.Some? && (id.None? || id == p.active) then (p.(active := None), Release(gate, p.active.value))
    else (p, gate)
  }
}
