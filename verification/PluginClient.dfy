/** The plugin side of the message channel: sessions, the table of requests awaiting a result, and
    disposal. `request` is cut at its `await ready`; what a call's promise becomes is kept in `calls`,
    and every settling of one in `settlements`. */
module PluginClient {
  import opened Wrappers

  type SessionId = string
  type RequestId = string
  type CallId = nat
  type Theme = string
  type Payload = string

  datatype Outcome = Answered(result: Result<Payload, Payload>) | SessionReplaced | ClientDisposed

  /** A call to `request`: waiting for the first session, sent and waiting for its result, or over. */
  datatype Call = Waiting | Pending(sessionId: SessionId, requestId: RequestId) | Settled(outcome: Outcome)

  datatype Message = Ready(sessionId: SessionId) | Rpc(sessionId: SessionId, requestId: RequestId)

  datatype Readiness = Unresolved | Resolved | Rejected

  datatype Entry = Entry(requestId: RequestId, callId: CallId)

  datatype Client = Client(
    init: Option<SessionId>, ready: Readiness, currentTheme: Option<Theme>, disposed: bool, subscribed: bool,
    pending: seq<Entry>, calls: map<CallId, Call>, settlements: seq<CallId>, sent: seq<Message>)

  const INITIAL := Client(None, Unresolved, None, false, true, [], map[], [], [])

  // ---- what each callback does ----

  function IndexOfId(pending: seq<Entry>, id: RequestId): (i: nat)
    ensures i <= |pending|
    ensures i < |pending| ==> pending[i].requestId == id
    ensures forall j :: 0 <= j < i ==> pending[j].requestId != id
  {
    if pending == [] || pending[0].requestId == id then 0 else 1 + IndexOfId(pending[1..], id)
  }

  function Without(pending: seq<Entry>, i: nat): seq<Entry>
    requires i < |pending|
  {
    pending[..i] + pending[i + 1..]
  }

  function Settle(s: Client, c: CallId, outcome: Outcome): Client {
    s.(calls := s.calls[c := Settled(outcome)], settlements := s.settlements + [c])
  }

  function SettleFirst(s: Client, n: nat, outcome: Outcome): Client
    requires n <= |s.pending|
  {
    if n == 0 then s else Settle(SettleFirst(s, n - 1, outcome), s.pending[n - 1].callId, outcome)
  }

  function RejectPending(s: Client, outcome: Outcome): Client {
    SettleFirst(s, |s.pending|, outcome).(pending := [])
  }

  function OnInit(s: Client, session: SessionId): Client {
    if s.disposed || s.init == Some(session) then s else
    var t := if s.init.Some? then RejectPending(s, SessionReplaced).(currentTheme := None) else s;
    t.(init := Some(session), sent := t.sent + [Ready(session)],
       ready := if t.ready.Unresolved? then Resolved else t.ready)
  }

  /** `None` is a theme that does not parse. */
  function OnTheme(s: Client, session: SessionId, theme: Option<Theme>): Client {
    if s.init != Some(session) || theme.None? then s else s.(currentTheme := theme)
  }

  function OnResult(s: Client, session: SessionId, id: RequestId, result: Result<Payload, Payload>): Client {
    var i := IndexOfId(s.pending, id);
    if i == |s.pending| || s.init != Some(session) then s else
    Settle(s.(pending := Without(s.pending, i)), s.pending[i].callId, Answered(result))
  }

  /** From the choice of an identifier to the wait for the response. */
  function Issue(s: Client, c: CallId, id: RequestId): Client
    requires s.init.Some?
  {
    var i := IndexOfId(s.pending, id);
    s.(pending := if i < |s.pending| then s.pending[i := Entry(id, c)] else s.pending + [Entry(id, c)],
       calls := s.calls[c := Pending(s.init.value, id)],
       sent := s.sent + [Rpc(s.init.value, id)])
  }

  function Request(s: Client, c: CallId, id: RequestId): Client {
    if s.disposed then Settle(s, c, ClientDisposed)
    else if s.init.None? then s.(calls := s.calls[c := Waiting])
    else Issue(s, c, id)
  }

  /** After `await ready`: a rejected readiness ends the call as disposal does. */
  function Resume(s: Client, c: CallId, id: RequestId): Client {
    if s.disposed || s.ready.Rejected? || s.init.None? then Settle(s, c, ClientDisposed) else Issue(s, c, id)
  }

  function Dispose(s: Client): Client {
    if s.disposed then s else
    RejectPending(s.(disposed := true, subscribed := false, ready := if s.ready.Unresolved? then Rejected else s.ready),
                  ClientDisposed).(currentTheme := None)
  }

  // ---- runs ----

  datatype Event =
    | Init(sessionId: SessionId)
    | ThemeChanged(sessionId: SessionId, theme: Option<Theme>)
    | ResultArrived(sessionId: SessionId, requestId: RequestId, result: Result<Payload, Payload>)
    | Requested(callId: CallId, requestId: RequestId)
    | Resumed(callId: CallId, requestId: RequestId)
    | Disposed

  predicate Used(s: Client, id: RequestId) {
    exists i | 0 <= i < |s.sent| :: s.sent[i].Rpc? && s.sent[i].requestId == id
  }

  /** Calls are new, a wait ends only when readiness is decided, and identifiers are fresh. */
  predicate Enabled(s: Client, e: Event) {
    match e
    case Requested(c, id) => c !in s.calls && !Used(s, id)
    case Resumed(c, id) => c in s.calls && s.calls[c] == Waiting && !s.ready.Unresolved? && !Used(s, id)
    case _ => true
  }

  /** The transport delivers nothing once it was told to stop. */
  function Apply(s: Client, e: Event): Client {
    match e
    case Init(session) => if s.subscribed then OnInit(s, session) else s
    case ThemeChanged(session, theme) => if s.subscribed then OnTheme(s, session, theme) else s
    case ResultArrived(session, id, result) => if s.subscribed then OnResult(s, session, id, result) else s
    case Requested(c, id) => Request(s, c, id)
    case Resumed(c, id) => Resume(s, c, id)
    case Disposed => Dispose(s)
  }

  ghost predicate Possible(s: Client, events: seq<Event>)
    decreases |events|
  {
    events == [] || (Enabled(s, events[0]) && Possible(Apply(s, events[0]), events[1..]))
  }

  function Run(s: Client, events: seq<Event>): Client
    decreases |events|
  {
    if events == [] then s else Run(Apply(s, events[0]), events[1..])
  }

  // ---- invariant ----

  ghost predicate DistinctIds(pending: seq<Entry>) {
    forall i, j :: 0 <= i < j < |pending| ==> pending[i].requestId != pending[j].requestId
  }

  /** The table and the sent calls are the same thing, under the current session. */
  ghost predicate TableInv(s: Client) {
    && (s.pending != [] ==> s.init.Some?)
    && (forall e :: e in s.pending ==>
          && e.callId in s.calls && s.calls[e.callId] == Pending(s.init.value, e.requestId)
          && Rpc(s.init.value, e.requestId) in s.sent)
    && DistinctIds(s.pending)
    && (forall c :: c in s.calls && s.calls[c].Pending? ==> Entry(s.calls[c].requestId, c) in s.pending)
  }

  /** Every settled call was settled once. */
  ghost predicate SettledOnce(s: Client) {
    && (forall i, j :: 0 <= i < j < |s.settlements| ==> s.settlements[i] != s.settlements[j])
    && (forall c :: c in s.settlements <==> c in s.calls && s.calls[c].Settled?)
  }

  ghost predicate LifeInv(s: Client) {
    && s.subscribed == !s.disposed
    && (s.ready.Resolved? <==> s.init.Some?)
    && (s.ready.Rejected? ==> s.disposed)
    && (s.disposed ==> s.pending == [])
    && (s.init.None? ==> s.currentTheme.None?)
  }

  ghost predicate Inv(s: Client) { TableInv(s) && SettledOnce(s) && LifeInv(s) }

  lemma SettlingIsOnce(s: Client, c: CallId, outcome: Outcome)
    requires SettledOnce(s) && (c !in s.calls || !s.calls[c].Settled?)
    ensures SettledOnce(Settle(s, c, outcome))
  {
  }

  /** The call is one of the first `n` of the table. */
  predicate Among(s: Client, n: nat, c: CallId)
    requires n <= |s.pending|
  {
    c in s.calls && s.calls[c].Pending? && Entry(s.calls[c].requestId, c) in s.pending[..n]
  }

  lemma AmongGrows(s: Client, n: nat, c: CallId)
    requires 0 < n <= |s.pending| && TableInv(s)
    ensures Among(s, n, c) <==> Among(s, n - 1, c) || c == s.pending[n - 1].callId
    ensures !Among(s, n - 1, s.pending[n - 1].callId)
  {
    assert s.pending[..n] == s.pending[..n - 1] + [s.pending[n - 1]];
  }

  lemma {:induction false} SettleFirstShape(s: Client, n: nat, outcome: Outcome)
    requires n <= |s.pending|
    ensures var t := SettleFirst(s, n, outcome); t == s.(calls := t.calls, settlements := t.settlements)
  {
    if n > 0 { SettleFirstShape(s, n - 1, outcome); }
  }

  /** Rejecting the first `n` entries settles exactly their calls. */
  lemma {:induction false} SettleFirstSettles(s: Client, n: nat, outcome: Outcome, c: CallId)
    requires n <= |s.pending| && TableInv(s)
    ensures var t := SettleFirst(s, n, outcome);
            && (c in t.calls <==> c in s.calls)
            && (c in s.calls ==> t.calls[c] == if Among(s, n, c) then Settled(outcome) else s.calls[c])
  {
    if n > 0 {
      hide Among;
      SettleFirstSettles(s, n - 1, outcome, c);
      AmongGrows(s, n, c);
    } else {
      assert s.pending[..0] == [];
    }
  }

  lemma {:induction false} SettleFirstIsOnce(s: Client, n: nat, outcome: Outcome)
    requires n <= |s.pending| && TableInv(s) && SettledOnce(s)
    ensures SettledOnce(SettleFirst(s, n, outcome))
  {
    if n > 0 {
      hide SettledOnce;
      var c := s.pending[n - 1].callId;
      SettleFirstIsOnce(s, n - 1, outcome);
      SettleFirstSettles(s, n - 1, outcome, c);
      AmongGrows(s, n, c);
      SettlingIsOnce(SettleFirst(s, n - 1, outcome), c, outcome);
    }
  }

  /** Rejecting the table settles every call that was sent and has no result, and no other. */
  lemma RejectingSettlesAll(s: Client, outcome: Outcome)
    requires TableInv(s) && SettledOnce(s)
    ensures var t := RejectPending(s, outcome);
            && SettledOnce(t)
            && t == s.(calls := t.calls, settlements := t.settlements, pending := [])
            && t.calls.Keys == s.calls.Keys
            && forall c :: c in s.calls ==> t.calls[c] == if s.calls[c].Pending? then Settled(outcome) else s.calls[c]
  {
    hide SettleFirst;
    var n := |s.pending|;
    SettleFirstShape(s, n, outcome);
    SettleFirstIsOnce(s, n, outcome);
    var t := SettleFirst(s, n, outcome);
    forall c
      ensures c in t.calls <==> c in s.calls
      ensures c in s.calls ==> t.calls[c] == if Among(s, n, c) then Settled(outcome) else s.calls[c]
    {
      SettleFirstSettles(s, n, outcome, c);
    }
    assert s.pending[..n] == s.pending;
  }

  // ---- what each callback keeps and does ----

  lemma InitKeepsInv(s: Client, session: SessionId)
    requires Inv(s)
    ensures Inv(OnInit(s, session))
  {
    hide RejectPending;
    RejectingSettlesAll(s, SessionReplaced);
  }

  /** Replacing the session rejects exactly the unanswered calls, and leaves no theme. */
  lemma InitReplaces(s: Client, session: SessionId)
    requires Inv(s) && !s.disposed && s.init != Some(session)
    ensures var t := OnInit(s, session);
            && t.init == Some(session) && t.currentTheme == None && t.pending == [] && t.ready.Resolved?
            && t.sent == s.sent + [Ready(session)]
            && t.calls.Keys == s.calls.Keys
            && forall c :: c in s.calls ==>
                 t.calls[c] == if s.calls[c].Pending? then Settled(SessionReplaced) else s.calls[c]
  {
    hide RejectPending;
    RejectingSettlesAll(s, SessionReplaced);
    forall c | c in s.calls && s.calls[c].Pending? ensures s.init.Some? {
      assert Entry(s.calls[c].requestId, c) in s.pending;
    }
  }

  /** So does disposal. */
  lemma DisposeKeepsInv(s: Client)
    requires Inv(s)
    ensures var t := Dispose(s);
            && Inv(t) && t.disposed && !t.subscribed && t.pending == [] && t.init == s.init && t.sent == s.sent
            && t.calls.Keys == s.calls.Keys
            && (!s.disposed ==>
                  && t.currentTheme == None
                  && forall c :: c in s.calls ==>
                       t.calls[c] == if s.calls[c].Pending? then Settled(ClientDisposed) else s.calls[c])
  {
    hide RejectPending;
    if !s.disposed {
      var t := s.(disposed := true, subscribed := false, ready := if s.ready.Unresolved? then Rejected else s.ready);
      RejectingSettlesAll(t, ClientDisposed);
    }
  }

  /** A result settles exactly the call that was sent with this identifier under this session. */
  lemma ResultKeepsInv(s: Client, session: SessionId, id: RequestId, result: Result<Payload, Payload>)
    requires Inv(s)
    ensures var t := OnResult(s, session, id, result);
            && Inv(t)
            && t.calls.Keys == s.calls.Keys
            && forall c :: c in s.calls ==>
                 t.calls[c] == if s.calls[c] == Pending(session, id) then Settled(Answered(result)) else s.calls[c]
  {
    var i := IndexOfId(s.pending, id);
    forall c | c in s.calls && s.calls[c] == Pending(session, id)
      ensures i < |s.pending| && s.pending[i] == Entry(id, c)
    {
      assert Entry(id, c) in s.pending;
    }
    if i < |s.pending| && s.init == Some(session) {
      RemovalKeepsTable(s, i, Answered(result));
    }
  }

  lemma WithoutKeepsOthers(pending: seq<Entry>, i: nat)
    requires i < |pending| && DistinctIds(pending)
    ensures DistinctIds(Without(pending, i))
    ensures forall e :: e in Without(pending, i) <==> e in pending && e != pending[i]
  {
    var rest := Without(pending, i);
    forall e | e in pending && e != pending[i] ensures e in rest {
      var j :| 0 <= j < |pending| && pending[j] == e;
      assert e == rest[if j < i then j else j - 1];
    }
    assert forall j :: 0 <= j < |rest| ==> rest[j] == pending[if j < i then j else j + 1];
  }

  lemma RemovalKeepsTable(s: Client, i: nat, outcome: Outcome)
    requires i < |s.pending| && Inv(s)
    ensures Inv(Settle(s.(pending := Without(s.pending, i)), s.pending[i].callId, outcome))
  {
    hide SettledOnce, Without, DistinctIds;
    var t := s.(pending := Without(s.pending, i));
    WithoutKeepsOthers(s.pending, i);
    assert s.pending[i] in s.pending;
    SettlementsAreSame(s, t);
    SettlingIsOnce(t, s.pending[i].callId, outcome);
  }

  lemma SettlementsAreSame(s: Client, t: Client)
    requires SettledOnce(s) && s.settlements == t.settlements && s.calls == t.calls
    ensures SettledOnce(t)
  {
  }

  lemma UnusedIsNotPending(s: Client, id: RequestId)
    requires TableInv(s) && !Used(s, id)
    ensures IndexOfId(s.pending, id) == |s.pending|
  {
  }

  lemma IssueKeepsInv(s: Client, c: CallId, id: RequestId)
    requires Inv(s) && s.init.Some? && !s.disposed && !Used(s, id)
    requires c !in s.calls || s.calls[c] == Waiting
    ensures Inv(Issue(s, c, id))
  {
    UnusedIsNotPending(s, id);
    var t := Issue(s, c, id);
    assert t.pending == s.pending + [Entry(id, c)];
  }

  /** Every step keeps the invariant. */
  lemma ApplyKeepsInv(s: Client, e: Event)
    requires Inv(s) && Enabled(s, e)
    ensures Inv(Apply(s, e))
  {
    match e
    case Init(session) => InitKeepsInv(s, session);
    case ThemeChanged(_, _) =>
    case ResultArrived(session, id, result) => ResultKeepsInv(s, session, id, result);
    case Requested(c, id) =>
      if s.disposed { SettlingIsOnce(s, c, ClientDisposed); } else if s.init.Some? { IssueKeepsInv(s, c, id); }
    case Resumed(c, id) =>
      if s.disposed { SettlingIsOnce(s, c, ClientDisposed); } else { IssueKeepsInv(s, c, id); }
    case Disposed => DisposeKeepsInv(s);
  }

  // ---- the client ----

  class PluginClient {
    var init: Option<SessionId>
    var ready: Readiness
    var currentTheme: Option<Theme>
    var disposed: bool
    var subscribed: bool
    var pending: seq<Entry>
    var calls: map<CallId, Call>
    var settlements: seq<CallId>
    var sent: seq<Message>

    ghost function State(): Client
      reads this
    {
      Client(init, ready, currentTheme, disposed, subscribed, pending, calls, settlements, sent)
    }

    /** The table and the unanswered calls are the same thing, under the current session. */
    ghost predicate Valid()
      reads this
    {
      Inv(State())
    }

    constructor ()
      ensures Valid() && State() == INITIAL
    {
      init, ready, currentTheme, disposed, subscribed := None, Unresolved, None, false, true;
      pending, calls, settlements, sent := [], map[], [], [];
    }

    method SettleCall(c: CallId, outcome: Outcome)
      modifies this`calls, this`settlements
      ensures State() == Settle(old(State()), c, outcome)
    {
      calls := calls[c := Settled(outcome)];
      settlements := settlements + [c];
    }

    method RejectAllPending(outcome: Outcome)
      modifies this`pending, this`calls, this`settlements
      ensures State() == RejectPending(old(State()), outcome)
    {
      for n := 0 to |pending|
        invariant State() == SettleFirst(old(State()), n, outcome)
        invariant pending == old(pending)
      {
        SettleCall(pending[n].callId, outcome);
      }
      pending := [];
    }

    /** A session that is not the current one takes its place: it is announced, every call that was
        waiting for a result is rejected, and no theme is left of the session before. */
    method ReceiveInit(session: SessionId)
      requires Valid()
      modifies this
      ensures Valid() && State() == OnInit(old(State()), session)
      ensures !old(disposed) && old(init) != Some(session) ==>
                && init == Some(session) && currentTheme == None && pending == [] && ready.Resolved?
                && sent == old(sent) + [Ready(session)]
                && calls.Keys == old(calls).Keys
                && forall c :: c in calls ==>
                     calls[c] == if old(calls)[c].Pending? then Settled(SessionReplaced) else old(calls)[c]
      ensures old(disposed) || old(init) == Some(session) ==> State() == old(State())
    {
      InitKeepsInv(State(), session);
      if disposed || init == Some(session) { return; }
      InitReplaces(State(), session);
      if init.Some? {
        RejectAllPending(SessionReplaced);
        currentTheme := None;
      }
      init := Some(session);
      sent := sent + [Ready(session)];
      if ready.Unresolved? { ready := Resolved; }
    }

    /** A theme that parses is taken exactly under the session in force. */
    method ReceiveTheme(session: SessionId, theme: Option<Theme>)
      requires Valid()
      modifies this`currentTheme
      ensures currentTheme == if init == Some(session) && theme.Some? then theme else old(currentTheme)
      ensures Valid() && State() == OnTheme(old(State()), session, theme)
    {
      if init != Some(session) || theme.None? { return; }
      currentTheme := theme;
    }

    /** A result answers the call that was sent with this identifier under this session, if it still
        waits, and touches no other. */
    method ReceiveResult(session: SessionId, id: RequestId, result: Result<Payload, Payload>)
      requires Valid()
      modifies this`pending, this`calls, this`settlements
      ensures Valid() && State() == OnResult(old(State()), session, id, result)
      ensures calls.Keys == old(calls).Keys
      ensures forall c :: c in calls ==>
                calls[c] == if old(calls)[c] == Pending(session, id) then Settled(Answered(result)) else old(calls)[c]
    {
      ResultKeepsInv(State(), session, id, result);
      var i := IndexOfId(pending, id);
      if i == |pending| || init != Some(session) { return; }
      var callId := pending[i].callId;
      pending := pending[..i] + pending[i + 1..];
      SettleCall(callId, Answered(result));
    }

    method IssueRequest(c: CallId, id: RequestId)
      requires init.Some?
      modifies this`pending, this`calls, this`sent
      ensures State() == Issue(old(State()), c, id)
    {
      var i := IndexOfId(pending, id);
      if i < |pending| { pending := pending[i := Entry(id, c)]; } else { pending := pending + [Entry(id, c)]; }
      calls := calls[c := Pending(init.value, id)];
      sent := sent + [Rpc(init.value, id)];
    }

    method StartRequest(c: CallId, id: RequestId)
      requires Valid() && Enabled(State(), Requested(c, id))
      modifies this`pending, this`calls, this`settlements, this`sent
      ensures Valid() && State() == Request(old(State()), c, id)
      ensures calls == old(calls)[c := if disposed then Settled(ClientDisposed)
                                       else if init.None? then Waiting else Pending(init.value, id)]
      ensures sent == if !disposed && init.Some? then old(sent) + [Rpc(init.value, id)] else old(sent)
    {
      ApplyKeepsInv(State(), Requested(c, id));
      if disposed {
        SettleCall(c, ClientDisposed);
      } else if init.None? {
        calls := calls[c := Waiting];
      } else {
        IssueRequest(c, id);
      }
    }

    method ResumeRequest(c: CallId, id: RequestId)
      requires Valid() && Enabled(State(), Resumed(c, id))
      modifies this`pending, this`calls, this`settlements, this`sent
      ensures Valid() && State() == Resume(old(State()), c, id)
      ensures !disposed ==> init.Some?
      ensures calls == old(calls)[c := if disposed then Settled(ClientDisposed) else Pending(init.value, id)]
      ensures sent == if disposed then old(sent) else old(sent) + [Rpc(init.value, id)]
    {
      ApplyKeepsInv(State(), Resumed(c, id));
      if disposed || ready.Rejected? || init.None? { SettleCall(c, ClientDisposed); } else { IssueRequest(c, id); }
    }

    /** Every call that was waiting for a result ends as disposed, and nothing is pending any more. */
    method DisposeClient()
      requires Valid()
      modifies this
      ensures Valid() && State() == Dispose(old(State()))
      ensures disposed && !subscribed && pending == [] && init == old(init) && sent == old(sent)
      ensures !old(disposed) ==>
                && currentTheme == None && calls.Keys == old(calls).Keys
                && forall c :: c in calls ==>
                     calls[c] == if old(calls)[c].Pending? then Settled(ClientDisposed) else old(calls)[c]
    {
      DisposeKeepsInv(State());
      if disposed { return; }
      disposed := true;
      subscribed := false;
      if ready.Unresolved? { ready := Rejected; }
      RejectAllPending(ClientDisposed);
      currentTheme := None;
    }
  }

  // ---- calls in whole runs ----

  /** How one step treats a call that exists: what is settled stays, and only a result for exactly
      this call, under the session it was sent in, answers it. */
  lemma StepOnCall(s: Client, e: Event, c: CallId)
    requires Inv(s) && Enabled(s, e) && c in s.calls
    ensures c in Apply(s, e).calls
    ensures s.calls[c].Settled? ==> Apply(s, e).calls[c] == s.calls[c]
    ensures s.calls[c].Pending? && e.ResultArrived? && s.calls[c] == Pending(e.sessionId, e.requestId) ==>
              Apply(s, e).calls[c] == Settled(Answered(e.result))
    ensures !s.calls[c].Settled? && Apply(s, e).calls[c].Settled? && Apply(s, e).calls[c].outcome.Answered? ==>
              && e.ResultArrived? && s.calls[c] == Pending(e.sessionId, e.requestId)
              && Apply(s, e).calls[c].outcome.result == e.result
  {
    hide RejectPending, TableInv, SettledOnce;
    match e
    case Init(session) => InitSettles(s, session);
    case ThemeChanged(_, _) =>
    case ResultArrived(session, id, result) =>
      ResultKeepsInv(s, session, id, result);
      if s.calls[c].Pending? { PendingMeansSubscribed(s, c); }
    case Requested(_, _) =>
    case Resumed(_, _) =>
    case Disposed => DisposeKeepsInv(s);
  }

  lemma PendingMeansSubscribed(s: Client, c: CallId)
    requires Inv(s) && c in s.calls && s.calls[c].Pending?
    ensures s.subscribed && s.init == Some(s.calls[c].sessionId)
  {
    assert Entry(s.calls[c].requestId, c) in s.pending;
  }

  lemma InitSettles(s: Client, session: SessionId)
    requires Inv(s)
    ensures forall c :: c in s.calls ==>
              && c in OnInit(s, session).calls
              && (|| OnInit(s, session).calls[c] == s.calls[c]
                  || (s.calls[c].Pending? && OnInit(s, session).calls[c] == Settled(SessionReplaced)))
  {
    hide OnInit, TableInv, SettledOnce;
    if s.disposed || s.init == Some(session) { SameSession(s, session); } else { InitReplaces(s, session); }
  }

  lemma SameSession(s: Client, session: SessionId)
    requires s.disposed || s.init == Some(session)
    ensures OnInit(s, session) == s
  {
  }

  /** Every reachable state: the table is the set of unanswered requests of the current session, and
      no call was settled twice. */
  lemma {:induction false} RunKeepsInv(s: Client, events: seq<Event>)
    requires Inv(s) && Possible(s, events)
    ensures Inv(Run(s, events))
    decreases |events|
  {
    if events != [] {
      hide Inv, Apply, Enabled;
      ApplyKeepsInv(s, events[0]);
      RunKeepsInv(Apply(s, events[0]), events[1..]);
    }
  }

  lemma EveryRunIsSound(events: seq<Event>)
    requires Possible(INITIAL, events)
    ensures Inv(Run(INITIAL, events))
  {
    RunKeepsInv(INITIAL, events);
  }

  /** A call is settled for good. */
  lemma {:induction false} OutcomesAreFinal(s: Client, events: seq<Event>, c: CallId)
    requires Inv(s) && Possible(s, events) && c in s.calls
    ensures c in Run(s, events).calls
    ensures s.calls[c].Settled? ==> Run(s, events).calls[c] == s.calls[c]
    decreases |events|
  {
    if events != [] {
      hide Inv, Apply, Enabled;
      StepOnCall(s, events[0], c);
      ApplyKeepsInv(s, events[0]);
      OutcomesAreFinal(Apply(s, events[0]), events[1..], c);
    }
  }

  /** Whatever answers a call arrived under the session and with the identifier it was sent with. */
  lemma {:induction false} AnswersMatchRequests(s: Client, events: seq<Event>, c: CallId) returns (k: nat)
    requires Inv(s) && Possible(s, events) && c in s.calls && !s.calls[c].Settled?
    requires c in Run(s, events).calls && Run(s, events).calls[c].Settled? && Run(s, events).calls[c].outcome.Answered?
    ensures k < |events| && events[k].ResultArrived? && Run(s, events).calls[c].outcome.result == events[k].result
    ensures var t := Run(s, events[..k]);
            c in t.calls && t.calls[c] == Pending(events[k].sessionId, events[k].requestId)
    decreases |events|
  {
    hide Inv, Apply, Enabled;
    if events == [] {
      assert false;
    } else {
      var t := Apply(s, events[0]);
      StepOnCall(s, events[0], c);
      ApplyKeepsInv(s, events[0]);
      if t.calls[c].Settled? {
        OutcomesAreFinal(t, events[1..], c);
        k := 0;
      } else {
        var later := AnswersMatchRequests(t, events[1..], c);
        k := later + 1;
        assert events[..k][0] == events[0] && events[..k][1..] == events[1..][..later];
      }
    }
  }

  /** What becomes of a new call, and of one that waited for the first session: on a live client with a
      session it is sent under that session, once, and awaits its result; before the first session it
      waits and nothing is sent; on a disposed client it is rejected. Nothing else moves. */
  lemma CallsAreSent(s: Client, e: Event)
    requires Inv(s) && Enabled(s, e) && (e.Requested? || e.Resumed?)
    ensures var t := Apply(s, e);
            var c, id := e.callId, e.requestId;
            && (e.Resumed? && !s.disposed ==> s.init.Some?)
            && t.calls == s.calls[c := if s.disposed then Settled(ClientDisposed)
                                       else if s.init.None? then Waiting else Pending(s.init.value, id)]
            && t.sent == (if !s.disposed && s.init.Some? then s.sent + [Rpc(s.init.value, id)] else s.sent)
            && t.init == s.init && t.disposed == s.disposed && t.currentTheme == s.currentTheme
  {
    hide TableInv, SettledOnce;
  }

  /** A call ends as disposed only after the client was disposed. */
  lemma {:induction false} OnlyDisposalDisposes(s: Client, events: seq<Event>, c: CallId)
    requires Inv(s) && Possible(s, events) && !s.disposed && Disposed !in events
    requires c in s.calls ==> s.calls[c] != Settled(ClientDisposed)
    ensures !Run(s, events).disposed
    ensures c in Run(s, events).calls ==> Run(s, events).calls[c] != Settled(ClientDisposed)
    decreases |events|
  {
    if events != [] {
      hide Inv, Apply, Enabled;
      assert events[0] in events;
      ApplyKeepsInv(s, events[0]);
      StepWithoutDisposal(s, events[0], c);
      OnlyDisposalDisposes(Apply(s, events[0]), events[1..], c);
    }
  }

  lemma StepWithoutDisposal(s: Client, e: Event, c: CallId)
    requires Inv(s) && Enabled(s, e) && !s.disposed && !e.Disposed?
    requires c in s.calls ==> s.calls[c] != Settled(ClientDisposed)
    ensures !Apply(s, e).disposed
    ensures c in Apply(s, e).calls ==> Apply(s, e).calls[c] != Settled(ClientDisposed)
  {
    hide OnInit, OnResult, TableInv, SettledOnce;
    match e
    case Init(session) =>
      InitLives(s, session);
      if s.init == Some(session) { SameSession(s, session); } else { InitReplaces(s, session); }
    case ThemeChanged(_, _) =>
    case ResultArrived(session, id, result) =>
      ResultKeepsInv(s, session, id, result);
      ResultLives(s, session, id, result);
    case Requested(_, _) =>
    case Resumed(_, _) =>
  }

  lemma InitLives(s: Client, session: SessionId)
    ensures OnInit(s, session).disposed == s.disposed
  {
    SettleFirstShape(s, |s.pending|, SessionReplaced);
  }

  lemma ResultLives(s: Client, session: SessionId, id: RequestId, result: Result<Payload, Payload>)
    ensures OnResult(s, session, id, result).disposed == s.disposed
  {
  }

  /** What ends a call that was sent under this session with this identifier, and how. */
  predicate Ends(e: Event, session: SessionId, id: RequestId) {
    match e
    case Init(other) => other != session
    case ResultArrived(of, for', _) => of == session && for' == id
    case Disposed => true
    case _ => false
  }

  function EndingOf(e: Event): Outcome
    requires e.Init? || e.ResultArrived? || e.Disposed?
  {
    match e
    case Init(_) => SessionReplaced
    case ResultArrived(_, _, result) => Answered(result)
    case Disposed => ClientDisposed
  }

  lemma StepOnPending(s: Client, e: Event, c: CallId)
    requires Inv(s) && Enabled(s, e) && c in s.calls && s.calls[c].Pending?
    ensures c in Apply(s, e).calls
    ensures Apply(s, e).calls[c] ==
            if Ends(e, s.calls[c].sessionId, s.calls[c].requestId) then Settled(EndingOf(e)) else s.calls[c]
  {
    hide OnInit, OnResult, Dispose, TableInv, SettledOnce;
    PendingMeansSubscribed(s, c);
    match e
    case Init(session) => if s.init == Some(session) { SameSession(s, session); } else { InitReplaces(s, session); }
    case ThemeChanged(_, _) =>
    case ResultArrived(session, id, result) => ResultKeepsInv(s, session, id, result);
    case Requested(_, _) =>
    case Resumed(_, _) =>
    case Disposed => DisposeKeepsInv(s);
  }

  /** A call that was sent ends with the first event that ends it, in the way of that event: its
      result, another session, or disposal; and as long as there is none, it waits. */
  lemma {:induction false} FirstEndingDecides(s: Client, events: seq<Event>, c: CallId)
    requires Inv(s) && Possible(s, events) && c in s.calls && s.calls[c].Pending?
    ensures c in Run(s, events).calls
    ensures var session, id := s.calls[c].sessionId, s.calls[c].requestId;
            && ((forall j :: 0 <= j < |events| ==> !Ends(events[j], session, id)) ==>
                 Run(s, events).calls[c] == s.calls[c])
            && forall k :: 0 <= k < |events| && Ends(events[k], session, id)
                           && (forall j :: 0 <= j < k ==> !Ends(events[j], session, id)) ==>
                 Run(s, events).calls[c] == Settled(EndingOf(events[k]))
    decreases |events|
  {
    if events != [] {
      hide Inv, Apply, Enabled, Ends;
      var session, id := s.calls[c].sessionId, s.calls[c].requestId;
      var t := Apply(s, events[0]);
      StepOnPending(s, events[0], c);
      ApplyKeepsInv(s, events[0]);
      if Ends(events[0], session, id) {
        OutcomesAreFinal(t, events[1..], c);
      } else {
        FirstEndingDecides(t, events[1..], c);
        assert forall j :: 0 < j < |events| ==> events[j] == events[1..][j - 1];
        forall k | 0 <= k < |events| && Ends(events[k], session, id)
                   && (forall j :: 0 <= j < k ==> !Ends(events[j], session, id))
          ensures Run(s, events).calls[c] == Settled(EndingOf(events[k]))
        {
          assert Ends(events[1..][k - 1], session, id);
        }
      }
    }
  }

  lemma StepAfterDisposal(s: Client, e: Event)
    requires Inv(s) && Enabled(s, e) && s.disposed
    ensures var t := Apply(s, e);
            && t == s.(calls := t.calls, settlements := t.settlements)
            && forall c :: c in t.calls ==> (if c in s.calls && (s.calls[c].Settled? || t.calls[c] == s.calls[c])
                                             then t.calls[c] == s.calls[c] else t.calls[c] == Settled(ClientDisposed))
  {
  }

  /** After disposal nothing is pending, nothing is sent and no session is accepted, in any run; calls
      made or resumed later end as disposed. */
  lemma {:induction false} DisposalIsFinal(s: Client, events: seq<Event>)
    requires Inv(s) && Possible(s, events) && s.disposed
    ensures var t := Run(s, events);
            && t == s.(calls := t.calls, settlements := t.settlements) && t.pending == []
            && forall c :: c in t.calls ==>
                 || (c in s.calls && t.calls[c] == s.calls[c])
                 || t.calls[c] == Settled(ClientDisposed)
    decreases |events|
  {
    if events != [] {
      hide Apply, Enabled, TableInv, SettledOnce;
      ApplyKeepsInv(s, events[0]);
      StepAfterDisposal(s, events[0]);
      DisposalIsFinal(Apply(s, events[0]), events[1..]);
    }
  }

  /** A theme that parses is taken at once when it names the session in force, and by no other client. */
  lemma ThemeIsTakenIff(s: Client, session: SessionId, theme: Option<Theme>)
    requires Inv(s) && theme.Some?
    ensures Apply(s, ThemeChanged(session, theme)) ==
            if !s.disposed && s.init == Some(session) then s.(currentTheme := theme) else s
  {
    hide TableInv, SettledOnce;
  }

  /** What messages do that arrive after disposal all the same: a session and a result nothing, while a
      theme is taken exactly when it parses and is addressed to the last session. */
  lemma LateMessages(s: Client, session: SessionId, id: RequestId, result: Result<Payload, Payload>,
      theme: Option<Theme>)
    requires Inv(s) && s.disposed
    ensures OnInit(s, session) == s && OnResult(s, session, id, result) == s
    ensures OnTheme(s, session, theme) ==
            if s.init == Some(session) && theme.Some? then s.(currentTheme := theme) else s
  {
  }

  // ---- the theme ----

  lemma {:induction false} RunSplits(s: Client, events: seq<Event>, e: Event)
    ensures Run(s, events + [e]) == Apply(Run(s, events), e)
    decreases |events|
  {
    hide Apply;
    if events == [] {
      assert [] + [e] == [e] && [e][1..] == [];
    } else {
      assert (events + [e])[0] == events[0] && (events + [e])[1..] == events[1..] + [e];
      RunSplits(Apply(s, events[0]), events[1..], e);
    }
  }

  /** A step keeps session and theme, drops the theme, or takes one announced under the session. */
  lemma StepOnTheme(s: Client, e: Event)
    requires s.currentTheme.Some? ==> s.init.Some?
    requires Apply(s, e).currentTheme.Some?
    ensures Apply(s, e).init.Some? && Apply(s, e).init == s.init
    ensures Apply(s, e).currentTheme == s.currentTheme || e == ThemeChanged(s.init.value, Apply(s, e).currentTheme)
  {
    hide RejectPending;
    SettlingKeepsTheme(s, SessionReplaced);
    var ready := if s.ready.Unresolved? then Rejected else s.ready;
    SettlingKeepsTheme(s.(disposed := true, subscribed := false, ready := ready), ClientDisposed);
  }

  lemma SettlingKeepsTheme(s: Client, outcome: Outcome)
    ensures RejectPending(s, outcome).currentTheme == s.currentTheme && RejectPending(s, outcome).init == s.init
  {
    SettleFirstShape(s, |s.pending|, outcome);
  }

  /** Whenever there is a theme, the session in force announced it, and neither session nor theme
      has changed since: no theme survives its session, even if a session of that name comes back. */
  lemma {:induction false} ThemesFollowSessions(events: seq<Event>) returns (k: nat)
    requires Run(INITIAL, events).currentTheme.Some?
    ensures var t := Run(INITIAL, events);
            && t.init.Some? && k < |events| && events[k] == ThemeChanged(t.init.value, t.currentTheme)
            && Run(INITIAL, events[..k]).init == t.init
            && forall j :: k < j <= |events| ==>
                 Run(INITIAL, events[..j]).init == t.init && Run(INITIAL, events[..j]).currentTheme == t.currentTheme
    decreases |events|
  {
    hide Apply;
    if events == [] {
      assert false;
    } else {
      var shorter, last := events[..|events| - 1], events[|events| - 1];
      var s, t := Run(INITIAL, shorter), Run(INITIAL, events);
      assert events == shorter + [last];
      RunSplits(INITIAL, shorter, last);
      assert events[..|events|] == events;
      if s.currentTheme.Some? {
        k := ThemesFollowSessions(shorter);
        assert forall j :: 0 <= j <= |shorter| ==> events[..j] == shorter[..j];
      }
      StepOnTheme(s, last);
      if s.currentTheme != t.currentTheme { k := |shorter|; }
    }
  }
}
