/** Theme activation in the application: a promise tail runs the host calls one after another, and a
    generation counter decides whose result is shown. Each run is cut at its awaits. */
module ThemeActivation {

  type ThemeId = string

  /** How a run ended: shown as confirmed, shown as read back, nothing known, no longer wanted, or
      not tried because the component was gone. */
  datatype Result = Confirmed | Reconciled | Lost | Superseded | Skipped

  datatype Stage = Queued | Activating | Reconciling | Finished(result: Result)

  datatype Activation = Activation(generation: nat, themeId: ThemeId, stage: Stage)

  /** `host` is the theme active at the host; `runs` is the tail with everything it ever held. */
  datatype App = App(mounted: bool, generation: nat, pending: bool, shown: ThemeId, host: ThemeId,
      runs: seq<Activation>)

  /** The host activates and answers with the theme it made active, or fails, leaving any theme. */
  datatype Reply = Accepted(theme: ThemeId) | Refused(now: ThemeId)

  function Opened(shown: ThemeId, host: ThemeId): App { App(true, 0, false, shown, host, []) }

  // ---- what each piece does ----

  predicate Current(s: App, i: nat)
    requires i < |s.runs|
  {
    s.mounted && s.runs[i].generation == s.generation
  }

  function At(s: App, i: nat, stage: Stage): App
    requires i < |s.runs|
  {
    s.(runs := s.runs[i := s.runs[i].(stage := stage)])
  }

  function Ask(s: App, id: ThemeId): App {
    s.(generation := s.generation + 1, pending := true, runs := s.runs + [Activation(s.generation + 1, id, Queued)])
  }

  function Begin(s: App, i: nat): App
    requires i < |s.runs|
  {
    At(s, i, if s.mounted then Activating else Finished(Skipped))
  }

  function Answered(s: App, i: nat, reply: Reply): App
    requires i < |s.runs|
  {
    match reply
    case Accepted(theme) =>
      if Current(s, i) then At(s, i, Finished(Confirmed)).(host := theme, shown := theme, pending := false)
      else At(s, i, Finished(Superseded)).(host := theme)
    case Refused(now) => At(s, i, if Current(s, i) then Reconciling else Finished(Superseded)).(host := now)
  }

  function ReadBack(s: App, i: nat, ok: bool): App
    requires i < |s.runs|
  {
    if !Current(s, i) then At(s, i, Finished(Superseded))
    else if ok then At(s, i, Finished(Reconciled)).(shown := s.host, pending := false)
    else At(s, i, Finished(Lost)).(pending := false)
  }

  function Leave(s: App): App { s.(mounted := false, generation := s.generation + 1) }

  // ---- the component ----

  class AppState {
    var mounted: bool
    var activationGeneration: nat
    var activationPending: bool
    var themeState: ThemeId
    var runs: seq<Activation>
    /** The host's own state. */
    var activeTheme: ThemeId

    ghost function State(): App
      reads this
    {
      App(mounted, activationGeneration, activationPending, themeState, activeTheme, runs)
    }

    constructor (shown: ThemeId, host: ThemeId)
      ensures State() == Opened(shown, host)
    {
      mounted, activationGeneration, activationPending := true, 0, false;
      themeState, activeTheme, runs := shown, host, [];
    }

    ghost predicate Valid()
      reads this
    {
      Inv(State())
    }

    /** Whatever is still under way is superseded: nothing it brings is shown any more. */
    method Unmount()
      requires Valid()
      modifies this
      ensures Valid() && State() == Leave(old(State()))
      ensures !mounted && runs == old(runs) && themeState == old(themeState)
      ensures forall i :: 0 <= i < |runs| ==> !Current(State(), i)
    {
      ApplyKeepsInv(State(), Unmounted);
      mounted := false;
      activationGeneration := activationGeneration + 1;
    }

    /** The new activation is the only current one: it waits at the end of the tail, pending, and whatever
        was asked before is superseded. What is shown does not change yet. */
    method ActivateTheme(id: ThemeId)
      requires Valid() && mounted
      modifies this
      ensures Valid() && activationPending && themeState == old(themeState) && activeTheme == old(activeTheme)
      ensures |runs| == |old(runs)| + 1 && runs[..|old(runs)|] == old(runs)
      ensures runs[|old(runs)|].themeId == id && runs[|old(runs)|].stage == Queued
      ensures forall i :: 0 <= i < |runs| ==> (Current(State(), i) <==> i == |old(runs)|)
    {
      ApplyKeepsInv(State(), Requested(id));
      activationGeneration := activationGeneration + 1;
      activationPending := true;
      runs := runs + [Activation(activationGeneration, id, Queued)];
      assert State() == Ask(old(State()), id);
    }

    method MoveTo(i: nat, stage: Stage)
      requires i < |runs|
      modifies this`runs
      ensures State() == At(old(State()), i, stage)
    {
      runs := runs[i := runs[i].(stage := stage)];
    }

    /** The `finally` of a run that is still wanted. */
    method ClearPending(generation: nat)
      modifies this`activationPending
      ensures State() == old(State()).(pending := activationPending)
      ensures activationPending == (old(activationPending) && !(mounted && generation == activationGeneration))
    {
      if mounted && generation == activationGeneration { activationPending := false; }
    }

    /** Only one run talks to the host at a time. */
    method RunStarts(i: nat)
      requires Valid() && Enabled(State(), Started(i))
      modifies this
      ensures Valid() && State() == Begin(old(State()), i)
      ensures forall j :: 0 <= j < |runs| && InFlight(runs[j]) ==> j == i
      ensures runs[i].stage == (if mounted then Activating else Finished(Skipped)) && activeTheme == old(activeTheme)
    {
      ApplyKeepsInv(State(), Started(i));
      if !mounted { MoveTo(i, Finished(Skipped)); } else { MoveTo(i, Activating); }
    }

    /** The host's theme becomes the one it answers with. An accepted theme is shown exactly if the
        activation is current, which ends it; after a refusal the current one is read back next. */
    method HostAnswers(i: nat, reply: Reply)
      requires Valid() && Enabled(State(), Activated(i, reply))
      modifies this
      ensures Valid() && State() == Answered(old(State()), i, reply)
      ensures activeTheme == match reply case Accepted(theme) => theme case Refused(now) => now
      ensures old(Current(State(), i)) && reply.Accepted? ==>
                && themeState == reply.theme && !activationPending
                && runs == old(runs)[i := old(runs)[i].(stage := Finished(Confirmed))]
      ensures old(Current(State(), i)) && reply.Refused? ==>
                && themeState == old(themeState) && activationPending == old(activationPending)
                && runs == old(runs)[i := old(runs)[i].(stage := Reconciling)]
      ensures !old(Current(State(), i)) ==>
                && themeState == old(themeState) && activationPending == old(activationPending)
                && runs == old(runs)[i := old(runs)[i].(stage := Finished(Superseded))]
      ensures themeState != old(themeState) ==> i == |runs| - 1 && themeState == activeTheme && !activationPending
    {
      ApplyKeepsInv(State(), Activated(i, reply));
      NewestIsCurrent(State(), i);
      var generation := runs[i].generation;
      var wanted := mounted && generation == activationGeneration;
      match reply {
        case Accepted(theme) =>
          activeTheme := theme;
          if wanted { themeState := theme; }
          MoveTo(i, Finished(if wanted then Confirmed else Superseded));
          ClearPending(generation);
        case Refused(now) =>
          activeTheme := now;
          if wanted {
            MoveTo(i, Reconciling);
          } else {
            MoveTo(i, Finished(Superseded));
            ClearPending(generation);
          }
      }
    }

    /** The same for the theme read back after a failure; a failed read shows nothing new. */
    method HostReadsBack(i: nat, ok: bool)
      requires Valid() && Enabled(State(), Read(i, ok))
      modifies this
      ensures Valid() && State() == ReadBack(old(State()), i, ok)
      ensures activeTheme == old(activeTheme)
      ensures themeState == if old(Current(State(), i)) && ok then activeTheme else old(themeState)
      ensures old(Current(State(), i)) ==>
                && !activationPending
                && runs == old(runs)[i := old(runs)[i].(stage := Finished(if ok then Reconciled else Lost))]
      ensures themeState != old(themeState) ==> ok && i == |runs| - 1 && themeState == activeTheme && !activationPending
    {
      ApplyKeepsInv(State(), Read(i, ok));
      NewestIsCurrent(State(), i);
      var generation := runs[i].generation;
      var wanted := mounted && generation == activationGeneration;
      if wanted && ok { themeState := activeTheme; }
      MoveTo(i, Finished(if !wanted then Superseded else if ok then Reconciled else Lost));
      ClearPending(generation);
    }
  }

  // ---- runs ----

  datatype Event =
    | Requested(themeId: ThemeId)
    | Started(i: nat)
    | Activated(i: nat, reply: Reply)
    | Read(i: nat, ok: bool)
    | Unmounted
    | Mounted

  /** A run starts when the one before it has settled; themes are chosen in a mounted component. A
      development build mounts a component twice, before anything can be chosen in it; otherwise one
      that was left never comes back, and its state goes with it. */
  predicate Enabled(s: App, e: Event) {
    match e
    case Requested(_) => s.mounted
    case Started(i) => i < |s.runs| && s.runs[i].stage.Queued? && (i == 0 || s.runs[i - 1].stage.Finished?)
    case Activated(i, _) => i < |s.runs| && s.runs[i].stage.Activating?
    case Read(i, _) => i < |s.runs| && s.runs[i].stage.Reconciling?
    case Unmounted => true
    case Mounted => s.runs == []
  }

  function Apply(s: App, e: Event): App
    requires Enabled(s, e)
  {
    match e
    case Requested(id) => Ask(s, id)
    case Started(i) => Begin(s, i)
    case Activated(i, reply) => Answered(s, i, reply)
    case Read(i, ok) => ReadBack(s, i, ok)
    case Unmounted => Leave(s)
    case Mounted => s.(mounted := true)
  }

  ghost predicate Possible(s: App, events: seq<Event>)
    decreases |events|
  {
    events == [] || (Enabled(s, events[0]) && Possible(Apply(s, events[0]), events[1..]))
  }

  function Run(s: App, events: seq<Event>): App
    requires Possible(s, events)
    decreases |events|
  {
    if events == [] then s else Run(Apply(s, events[0]), events[1..])
  }

  // ---- what every run keeps ----

  /** Whatever has started comes after runs that are finished. */
  ghost predicate Serial(runs: seq<Activation>) {
    forall i, j :: 0 <= i < j < |runs| && !runs[j].stage.Queued? ==> runs[i].stage.Finished?
  }

  ghost predicate Ordered(s: App) {
    && (forall i, j :: 0 <= i < j < |s.runs| ==> s.runs[i].generation < s.runs[j].generation)
    && (forall i :: 0 <= i < |s.runs| ==> s.runs[i].generation <= s.generation)
  }

  /** The last activation is of the current generation. */
  predicate Wanted(s: App) { s.runs != [] && s.runs[|s.runs| - 1].generation == s.generation }

  /** In a mounted component the last activation is the current one, the pending flag says whether it is
      still under way, and once it is over the shown theme is the host's, unless it was lost. */
  ghost predicate ShownInv(s: App) {
    && (s.runs == [] ==> !s.pending)
    && (s.runs != [] && s.mounted ==>
          && Wanted(s)
          && match s.runs[|s.runs| - 1].stage
             case Finished(result) => && !s.pending && (result == Confirmed || result == Reconciled || result == Lost)
                                      && (result != Lost ==> s.shown == s.host)
             case _ => s.pending)
  }

  ghost predicate Inv(s: App) { Serial(s.runs) && Ordered(s) && ShownInv(s) }

  /** Only the last activation can be of the current generation. */
  lemma NewestIsCurrent(s: App, i: nat)
    requires Ordered(s) && i < |s.runs|
    ensures Current(s, i) ==> i == |s.runs| - 1
  {
    assert i < |s.runs| - 1 ==> s.runs[i].generation < s.runs[|s.runs| - 1].generation;
  }

  lemma ApplyKeepsSerial(s: App, e: Event)
    requires Serial(s.runs) && Enabled(s, e)
    ensures Serial(Apply(s, e).runs)
  {
  }

  lemma GenerationsDecide(s: App, t: App)
    requires Ordered(s) && |t.runs| == |s.runs| && s.generation <= t.generation
    requires forall i :: 0 <= i < |s.runs| ==> t.runs[i].generation == s.runs[i].generation
    ensures Ordered(t)
  {
  }

  lemma AskKeepsOrdered(s: App, id: ThemeId)
    requires Ordered(s)
    ensures Ordered(Ask(s, id))
  {
  }

  lemma ApplyKeepsOrdered(s: App, e: Event)
    requires Ordered(s) && Enabled(s, e)
    ensures Ordered(Apply(s, e))
  {
    hide Ordered;
    if e.Requested? { AskKeepsOrdered(s, e.themeId); } else { GenerationsDecide(s, Apply(s, e)); }
  }

  lemma ApplyKeepsShown(s: App, e: Event)
    requires Inv(s) && Enabled(s, e)
    ensures ShownInv(Apply(s, e))
  {
    var n := |s.runs|;
    if e.Activated? || e.Read? || e.Started? {
      if e.i < n - 1 {
        assert s.runs[e.i].generation < s.runs[n - 1].generation;
        assert s.runs[n - 1].stage.Queued?;
      }
    }
  }

  lemma {:induction false} ApplyKeepsInv(s: App, e: Event)
    requires Inv(s) && Enabled(s, e)
    ensures Inv(Apply(s, e))
  {
    hide Apply, Enabled, Serial, Ordered, ShownInv;
    ApplyKeepsSerial(s, e);
    ApplyKeepsOrdered(s, e);
    ApplyKeepsShown(s, e);
  }

  lemma {:induction false} RunKeepsInv(s: App, events: seq<Event>)
    requires Inv(s) && Possible(s, events)
    ensures Inv(Run(s, events))
    decreases |events|
  {
    if events != [] {
      hide Inv, Apply, Enabled;
      ApplyKeepsInv(s, events[0]);
      RunKeepsInv(Apply(s, events[0]), events[1..]);
    }
  }

  // ---- main results ----

  predicate InFlight(a: Activation) { a.stage.Activating? || a.stage.Reconciling? }

  /** At most one run talks to the host at any time, however the requests and answers interleave. */
  lemma OneHostCallAtATime(shown: ThemeId, host: ThemeId, events: seq<Event>, i: nat, j: nat)
    requires Possible(Opened(shown, host), events)
    requires var s := Run(Opened(shown, host), events);
             i < |s.runs| && j < |s.runs| && InFlight(s.runs[i]) && InFlight(s.runs[j])
    ensures i == j
  {
    RunKeepsInv(Opened(shown, host), events);
  }

  /** What is shown changes only by the answer to the newest activation, in a component that was not
      left since. */
  lemma SupersededIsNeverShown(s: App, e: Event)
    requires Inv(s) && Enabled(s, e) && Apply(s, e).shown != s.shown
    ensures (e.Activated? && e.reply.Accepted?) || (e.Read? && e.ok)
    ensures e.i == |s.runs| - 1 && Wanted(s) && s.mounted && Apply(s, e).shown == Apply(s, e).host
  {
  }

  predicate Troubled(s: App, i: nat) {
    i < |s.runs| && (s.runs[i].stage.Reconciling? || s.runs[i].stage == Finished(Lost))
  }

  predicate IsLost(s: App, i: nat) { i < |s.runs| && s.runs[i].stage == Finished(Lost) }

  lemma StepTroubles(s: App, e: Event, i: nat)
    requires Enabled(s, e)
    ensures !Troubled(s, i) && Troubled(Apply(s, e), i) ==> e.Activated? && e.i == i && e.reply.Refused?
    ensures !IsLost(s, i) && IsLost(Apply(s, e), i) ==> e == Read(i, false)
  {
  }

  /** A run is in trouble only because the host refused it. */
  lemma {:induction false} TroubleWasARefusal(s: App, events: seq<Event>, i: nat) returns (k: nat)
    requires Possible(s, events) && !Troubled(s, i) && Troubled(Run(s, events), i)
    ensures k < |events| && events[k].Activated? && events[k].i == i && events[k].reply.Refused?
    decreases |events|
  {
    hide Apply, Enabled, Troubled;
    StepTroubles(s, events[0], i);
    if Troubled(Apply(s, events[0]), i) {
      k := 0;
    } else {
      var later := TroubleWasARefusal(Apply(s, events[0]), events[1..], i);
      k := later + 1;
    }
  }

  /** A run is lost only because reading the theme back failed. */
  lemma {:induction false} LossWasAFailedRead(s: App, events: seq<Event>, i: nat) returns (k: nat)
    requires Possible(s, events) && !IsLost(s, i) && IsLost(Run(s, events), i)
    ensures k < |events| && events[k] == Read(i, false)
    decreases |events|
  {
    hide Apply, Enabled, IsLost;
    StepTroubles(s, events[0], i);
    if IsLost(Apply(s, events[0]), i) {
      k := 0;
    } else {
      var later := LossWasAFailedRead(Apply(s, events[0]), events[1..], i);
      k := later + 1;
    }
  }

  predicate Drained(s: App) { forall i :: 0 <= i < |s.runs| ==> s.runs[i].stage.Finished? }

  /** In a mounted component, whatever happened: something is pending exactly while the tail has not
      drained, and once it has, the shown theme is the host's unless the last activation failed and so
      did reading the theme back. */
  lemma DrainedIsConsistent(shown: ThemeId, host: ThemeId, events: seq<Event>)
    requires Possible(Opened(shown, host), events)
    requires Run(Opened(shown, host), events).mounted
    ensures var s := Run(Opened(shown, host), events);
            && (s.pending <==> !Drained(s))
            && (Drained(s) && s.runs != [] ==>
                  || s.shown == s.host
                  || (&& (exists k :: 0 <= k < |events| && events[k].Activated? && events[k].i == |s.runs| - 1
                                      && events[k].reply.Refused?)
                      && Read(|s.runs| - 1, false) in events))
  {
    var s0 := Opened(shown, host);
    RunKeepsInv(s0, events);
    var s := Run(s0, events);
    if Drained(s) && s.runs != [] && s.shown != s.host {
      var k := TroubleWasARefusal(s0, events, |s.runs| - 1);
      var m := LossWasAFailedRead(s0, events, |s.runs| - 1);
    }
  }

  // ---- the theme the host answered with ----

  function ThemeOf(reply: Reply): ThemeId {
    match reply case Accepted(theme) => theme case Refused(now) => now
  }

  /** The theme of the last answer the host gave. */
  function LastReply(host: ThemeId, events: seq<Event>): ThemeId {
    if events == [] then host
    else if events[|events| - 1].Activated? then ThemeOf(events[|events| - 1].reply)
    else LastReply(host, events[..|events| - 1])
  }

  lemma {:induction false} RunSplits(s: App, events: seq<Event>, e: Event)
    requires Possible(s, events + [e])
    ensures Possible(s, events) && Enabled(Run(s, events), e) && Run(s, events + [e]) == Apply(Run(s, events), e)
    decreases |events|
  {
    hide Apply, Enabled;
    if events == [] {
      assert [] + [e] == [e] && [e][1..] == [];
    } else {
      assert (events + [e])[0] == events[0] && (events + [e])[1..] == events[1..] + [e];
      RunSplits(Apply(s, events[0]), events[1..], e);
    }
  }

  lemma StepOnHost(s: App, e: Event)
    requires Enabled(s, e)
    ensures Apply(s, e).host == if e.Activated? then ThemeOf(e.reply) else s.host
  {
  }

  /** In every run the host's theme is the one it last answered with, accepting or refusing. */
  lemma {:induction false} HostIsLastReply(s: App, events: seq<Event>)
    requires Possible(s, events)
    ensures Run(s, events).host == LastReply(s.host, events)
  {
    hide Apply, Enabled;
    if events != [] {
      var init, last := events[..|events| - 1], events[|events| - 1];
      assert events == init + [last];
      RunSplits(s, init, last);
      HostIsLastReply(s, init);
      StepOnHost(Run(s, init), last);
    }
  }

  /** The host has answered the last activation. */
  predicate LastAnswered(s: App) {
    s.runs != [] && match s.runs[|s.runs| - 1].stage
                    case Reconciling => true
                    case Finished(result) => result == Confirmed || result == Reconciled || result == Lost
                    case _ => false
  }

  /** Event `k` is the host's answer to the last activation, and nothing was answered since. */
  ghost predicate AnsweredAt(s: App, events: seq<Event>, k: int)
    requires s.runs != []
  {
    && 0 <= k < |events| && events[k].Activated? && events[k].i == |s.runs| - 1
    && s.host == ThemeOf(events[k].reply)
    && (s.runs[|s.runs| - 1].stage == Finished(Confirmed) <==> events[k].reply.Accepted?)
    && forall j :: k < j < |events| ==> !events[j].Activated?
  }

  lemma StepAnswers(s: App, e: Event)
    requires Inv(s) && Enabled(s, e) && Apply(s, e).mounted && LastAnswered(Apply(s, e))
    ensures s.mounted && s.runs != [] && |Apply(s, e).runs| == |s.runs|
    ensures e.Activated? ==> e.i == |s.runs| - 1 && Apply(s, e).host == ThemeOf(e.reply)
    ensures e.Activated? ==>
              (Apply(s, e).runs[|s.runs| - 1].stage == Finished(Confirmed) <==> e.reply.Accepted?)
    ensures !e.Activated? ==> LastAnswered(s) && Apply(s, e).host == s.host
    ensures !e.Activated? ==> (Apply(s, e).runs[|s.runs| - 1].stage == Finished(Confirmed)
                               <==> s.runs[|s.runs| - 1].stage == Finished(Confirmed))
  {
    var n := |s.runs| - 1;
    assert n >= 0 ==> s.runs[n] == s.runs[|s.runs| - 1];
  }

  lemma {:induction false} LastAnswerWasGiven(s: App, events: seq<Event>) returns (k: nat)
    requires Inv(s) && s.runs == [] && Possible(s, events)
    requires Run(s, events).mounted && LastAnswered(Run(s, events))
    ensures AnsweredAt(Run(s, events), events, k)
  {
    hide Apply, Enabled, LastAnswered, Inv;
    if events == [] {
      NothingAnswered(s);
      assert false;
    } else {
      var init, last := events[..|events| - 1], events[|events| - 1];
      assert events == init + [last];
      RunSplits(s, init, last);
      RunKeepsInv(s, init);
      StepAnswers(Run(s, init), last);
      if last.Activated? {
        k := |init|;
      } else {
        k := LastAnswerWasGiven(s, init);
      }
    }
  }

  lemma NothingAnswered(s: App)
    ensures s.runs == [] ==> !LastAnswered(s)
  {
  }

  /** When the tail of a mounted component has drained, the last answer was to the last activation; an
      accepted theme is the one shown, and after a refusal the theme the host has now is shown unless
      reading it back failed. */
  lemma DrainedShowsReply(shown: ThemeId, host: ThemeId, events: seq<Event>) returns (k: nat)
    requires Possible(Opened(shown, host), events)
    requires var s := Run(Opened(shown, host), events); s.mounted && s.runs != [] && Drained(s)
    ensures var s := Run(Opened(shown, host), events);
            && AnsweredAt(s, events, k)
            && (events[k].reply.Accepted? ==> s.shown == events[k].reply.theme == s.host)
            && (events[k].reply.Refused? ==> s.shown == events[k].reply.now || Read(|s.runs| - 1, false) in events)
  {
    var s0 := Opened(shown, host);
    var s := Run(s0, events);
    RunKeepsInv(s0, events);
    k := LastAnswerWasGiven(s0, events);
    if s.runs[|s.runs| - 1].stage == Finished(Lost) { var m := LossWasAFailedRead(s0, events, |s.runs| - 1); }
  }

  /** How much is left to do on the tail. */
  function Remaining(runs: seq<Activation>): nat {
    if runs == [] then 0 else
    (match runs[0].stage
     case Queued => 3
     case Activating => 2
     case Reconciling => 1
     case Finished(_) => 0) + Remaining(runs[1..])
  }

  predicate Advances(e: Event) { e.Started? || e.Activated? || e.Read? }

  lemma {:induction false} StageDecides(runs: seq<Activation>, i: nat, a: Activation)
    requires i < |runs|
    ensures Remaining(runs[i := a]) - Remaining([a]) == Remaining(runs) - Remaining([runs[i]])
  {
    if i == 0 {
      assert runs[0 := a] == [a] + runs[1..] && runs == [runs[0]] + runs[1..];
    } else {
      StageDecides(runs[1..], i - 1, a);
      assert runs[i := a][1..] == runs[1..][i - 1 := a];
    }
  }

  /** The tail never sticks: every answer brings it closer to its end, and until then some run waits
      for one or can start. */
  lemma TailDrains(s: App, e: Event)
    requires Enabled(s, e) && Advances(e)
    ensures Remaining(Apply(s, e).runs) < Remaining(s.runs)
  {
    var t := Apply(s, e);
    StageDecides(s.runs, e.i, t.runs[e.i]);
    assert t.runs == s.runs[e.i := t.runs[e.i]];
  }

  lemma {:induction false} FirstUnfinished(runs: seq<Activation>) returns (i: nat)
    requires exists k :: 0 <= k < |runs| && !runs[k].stage.Finished?
    ensures i < |runs| && !runs[i].stage.Finished? && forall j :: 0 <= j < i ==> runs[j].stage.Finished?
  {
    i := 0;
    while runs[i].stage.Finished?
      invariant i < |runs| && forall j :: 0 <= j < i ==> runs[j].stage.Finished?
      decreases |runs| - i
    {
      i := i + 1;
    }
  }

  lemma TailNeverSticks(s: App) returns (e: Event)
    requires !Drained(s)
    ensures Enabled(s, e) && Advances(e)
  {
    var i := FirstUnfinished(s.runs);
    e := match s.runs[i].stage
      case Queued => Started(i)
      case Activating => Activated(i, Refused(s.host))
      case _ => Read(i, false);
  }
}
