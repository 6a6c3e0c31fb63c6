/** One identity operation from its lock to its end, cut at every external call: when it can succeed, and
    what it leaves in each way it can end. */
module IdentityProgress {
  import opened Wrappers
  import opened IdentityConfig
  import opened IdentityTransactions
  import opened IdentityWork

  /** The operation done by itself, one choice per call; `None` when a call has no such choice. */
  function Follow(d: Data, op: Op, pc: Pc, choices: seq<Choice>): Option<Progress>
    decreases |choices|
  {
    if choices == [] then Some(Progress(d, pc))
    else
      match Work(d, op, pc, choices[0])
      case None => None
      case Some(p) => Follow(p.data, op, p.pc, choices[1..])
  }

  function First(op: Op): Pc { if op.Create? then Storing else Ready }

  /** A bound repository still has its profile's configuration. */
  predicate StillCarries(d: Data, repo: RepositoryId) {
    repo in d.bindings && d.bindings[repo] in d.profiles ==>
      ConfigCarries(d.config, ScopeOf(d.stores, repo), d.profiles[d.bindings[repo]])
  }

  /** What each operation demands of the rows and of the configuration. */
  predicate Accepts(d: Data, op: Op) {
    match op
    case Bind(repo, id) => id in d.profiles && StillCarries(d, repo)
    case Unbind(repo) => StillCarries(d, repo)
    case SetGlobal(id) => id in d.profiles
    case Update(id, profile) =>
      id in d.profiles && (ManagedFieldsChanged(d.profiles[id], profile) ==> id !in d.bindings.Values)
    case Delete(id) => id in d.profiles && id !in d.bindings.Values && d.pointer != Some(id)
    case Import(_, _) => true
    case Create(id, _) => id !in d.profiles
    case Foreign(_) => true
  }

  /** The profile an operation writes into the configuration before it commits; unbinding writes none. */
  predicate Writes(d: Data, op: Op) {
    match op
    case Bind(_, _) => true
    case Unbind(repo) => repo in d.bindings
    case SetGlobal(_) => true
    case Update(id, profile) =>
      id in d.profiles && ManagedFieldsChanged(d.profiles[id], profile) && d.pointer == Some(id)
    case _ => false
  }

  /** What success leaves: the rows, and the configuration of the operation's own scope. */
  ghost predicate Achieved(d: Data, op: Op, d': Data) {
    && d'.stores == d.stores
    && (if Writes(d, op) then OnlyManaged(d.config, d'.config, OpScope(d, op)) else d'.config == d.config)
    && match op
       case Bind(repo, id) =>
         && d'.bindings == d.bindings[repo := id] && d'.profiles == d.profiles && d'.pointer == d.pointer
         && id in d.profiles && ConfigCarries(d'.config, ScopeOf(d.stores, repo), d.profiles[id])
       case Unbind(repo) =>
         && d'.bindings == d.bindings - {repo} && d'.profiles == d.profiles && d'.pointer == d.pointer
         && (repo in d.bindings ==> ConfigEmpty(d'.config, ScopeOf(d.stores, repo)))
       case SetGlobal(id) =>
         && d'.pointer == Some(id) && d'.bindings == d.bindings && d'.profiles == d.profiles
         && id in d.profiles && ConfigCarries(d'.config, Global, d.profiles[id])
       case Update(id, profile) =>
         && d'.profiles == d.profiles[id := profile] && d'.bindings == d.bindings && d'.pointer == d.pointer
         && (Writes(d, op) ==> ConfigCarries(d'.config, Global, profile))
       case Delete(id) => d'.profiles == d.profiles - {id} && d'.bindings == d.bindings && d'.pointer == d.pointer
       case Import(id, profile) =>
         if d.profiles == map[]
         then d'.profiles == map[id := profile] && d'.pointer == Some(id) && d'.bindings == d.bindings
         else d' == d
       case Create(id, profile) =>
         d'.profiles == d.profiles[id := profile] && d'.bindings == d.bindings && d'.pointer == d.pointer
       case Foreign(_) => d' == d
  }

  // ---- the way ----

  function Target(d: Data, op: Op): Lists
    requires Accepts(d, op) && Writes(d, op)
  {
    match op
    case Bind(_, id) => ProfileLists(d.profiles[id])
    case Unbind(_) => EmptyLists()
    case SetGlobal(id) => ProfileLists(d.profiles[id])
    case Update(_, profile) => ProfileLists(profile)
  }

  ghost predicate Reads(c: Config, scope: Scope, taken: Lists) {
    |taken| <= KEYS && forall i :: 0 <= i < |taken| ==> Stored(c, scope, MANAGED_CONFIG_KEYS[i]) == taken[i]
  }

  /** Everything but the configuration is as it was, and that differs in the operation's own keys only. */
  ghost predicate Untouched(d0: Data, op: Op, d: Data) {
    d == d0.(config := d.config) && OnlyManaged(d0.config, d.config, OpScope(d0, op))
  }

  /** Where an operation that began on `d0` can be. */
  ghost predicate OnTheWay(d0: Data, op: Op, d: Data, pc: Pc) {
    var scope := OpScope(d0, op);
    match pc
    case Ready => d == d0 && !op.Create?
    case Checking(expected, wanted, taken) =>
      && d == d0 && (op.Bind? || op.Unbind?) && op.repo in d0.bindings && d0.bindings[op.repo] in d0.profiles
      && (op.Bind? ==> op.id in d0.profiles)
      && expected == ProfileLists(d0.profiles[d0.bindings[op.repo]])
      && wanted == (if op.Bind? then ProfileLists(d0.profiles[op.id]) else EmptyLists())
      && Reads(d0.config, scope, taken)
    case Snapshotting(wanted, taken) =>
      && d == d0 && Accepts(d0, op) && Writes(d0, op) && !op.Unbind? && wanted == Target(d0, op)
      && Reads(d0.config, scope, taken)
    case Writing(wanted, saved, next, _) =>
      && Untouched(d0, op, d) && Accepts(d0, op) && Writes(d0, op) && wanted == Target(d0, op)
      && HasLists(d0.config, scope, saved) && HasFirst(d.config, scope, wanted, next)
    case Committing(wanted, saved) =>
      && Untouched(d0, op, d) && Accepts(d0, op) && Writes(d0, op) && wanted == Target(d0, op)
      && HasLists(d0.config, scope, saved) && HasLists(d.config, scope, wanted)
    case RollingBack(saved, next, _) =>
      Untouched(d0, op, d) && HasLists(d0.config, scope, saved) && HasFirst(d.config, scope, saved, next)
    case Storing => d == d0 && Stores(d0, op)
    case Finished(outcome) =>
      (match outcome
       case Succeeded => Accepts(d0, op) && Achieved(d0, op, d)
       case Failed => Untouched(d0, op, d) && Same(d0.config, d.config)
       case Damaged => Untouched(d0, op, d.(broken := d0.broken)))
    case _ => false
  }

  /** A commit to the rows alone is all that is left. */
  predicate Stores(d: Data, op: Op) {
    match op
    case Update(id, _) => Accepts(d, op) && !Writes(d, op)
    case Delete(id) => d.pointer != Some(id)
    case Import(_, _) => d.profiles == map[]
    case Create(_, _) => true
    case _ => false
  }

  lemma NotYetWritten(d: Data, op: Op)
    ensures Untouched(d, op, d) && Same(d.config, d.config)
  {
    NothingChanged(d.config, OpScope(d, op));
  }

  lemma LoadStays(d: Data, op: Op)
    requires RowsValid(d) && !op.Create?
    ensures OnTheWay(d, op, d, Load(d, op))
  {
    NotYetWritten(d, op);
    if op.Unbind? && op.repo !in d.bindings { assert d.bindings - {op.repo} == d.bindings; }
  }

  lemma CarriesIffReads(c: Config, scope: Scope, taken: Lists, p: Profile)
    requires Reads(c, scope, taken) && |taken| == KEYS
    ensures ConfigCarries(c, scope, p) <==> taken == ProfileLists(p)
  {
    if ConfigCarries(c, scope, p) {
      forall i | 0 <= i < KEYS ensures taken[i] == ProfileLists(p)[i] {
        assert MANAGED_CONFIG_KEYS[i] in MANAGED_CONFIG_KEYS;
      }
    }
  }

  lemma ReadingGoesOn(d: Data, op: Op, taken: Lists)
    requires Reads(d.config, OpScope(d, op), taken) && |taken| < KEYS
    ensures Reads(d.config, OpScope(d, op), ReadOne(d, op, taken))
  {
  }

  lemma CheckingStays(d0: Data, op: Op, pc: Pc, choice: Choice)
    requires OnTheWay(d0, op, d0, pc) && pc.Checking?
    ensures var p := Work(d0, op, pc, choice).value; OnTheWay(d0, op, p.data, p.pc)
  {
    hide HasFirst, ProfileLists, ConfigCarries;
    NotYetWritten(d0, op);
    if |pc.taken| < KEYS {
      ReadingGoesOn(d0, op, pc.taken);
    } else {
      CarriesIffReads(d0.config, OpScope(d0, op), pc.taken, d0.profiles[d0.bindings[op.repo]]);
      FirstNone(d0.config, OpScope(d0, op), EmptyLists());
    }
  }

  lemma SnapshottingStays(d0: Data, op: Op, pc: Pc, choice: Choice)
    requires OnTheWay(d0, op, d0, pc) && pc.Snapshotting?
    ensures var p := Work(d0, op, pc, choice).value; OnTheWay(d0, op, p.data, p.pc)
  {
    hide HasFirst, ConfigCarries, ManagedFieldsChanged;
    NotYetWritten(d0, op);
    if |pc.taken| < KEYS { ReadingGoesOn(d0, op, pc.taken); }
    FirstNone(d0.config, OpScope(d0, op), pc.wanted);
  }

  lemma ScribblingStays(d0: Data, op: Op, d: Data, next: nat, values: seq<string>)
    requires Untouched(d0, op, d) && next < KEYS
    ensures Untouched(d0, op, Scribbled(d, op, next, values))
  {
    ManagedKeysAreListed(MANAGED_CONFIG_KEYS[next]);
  }

  lemma TargetIsWhole(d: Data, op: Op)
    requires Accepts(d, op) && Writes(d, op)
    ensures |Target(d, op)| == KEYS
  {
  }

  lemma AllListed(c: Config, scope: Scope, lists: Lists, n: nat)
    requires HasFirst(c, scope, lists, n) && n >= KEYS && |lists| == KEYS
    ensures HasLists(c, scope, lists)
  {
  }

  lemma WritingStays(d0: Data, op: Op, d: Data, pc: Pc, choice: Choice)
    requires OnTheWay(d0, op, d, pc) && pc.Writing? && Work(d, op, pc, choice).Some?
    ensures var p := Work(d, op, pc, choice).value; OnTheWay(d0, op, p.data, p.pc)
  {
    hide HasFirst, HasLists, Untouched, Target, Accepts, Writes, At, ScopeOf;
    var scope, wanted, next := OpScope(d0, op), pc.wanted, pc.next;
    SameScope(d0, op, d);
    TargetIsWhole(d0, op);
    WholeLists(d0.config, scope, pc.saved);
    FirstNone(d.config, scope, pc.saved);
    if choice.Scribble? {
      ScribbleIsConfined(d.config, scope, wanted, next, choice.values);
      ScribblingStays(d0, op, d, next, choice.values);
    } else if choice.Go? && next >= KEYS {
      AllListed(d.config, scope, wanted, next);
    } else if choice.Go? && At(d.config, OpSlot(d, op, next)) == wanted[next] {
      FirstGrows(d, op, wanted, next);
    }
  }

  lemma WholeLists(c: Config, scope: Scope, lists: Lists)
    requires HasLists(c, scope, lists)
    ensures |lists| == KEYS
  {
  }

  lemma SameScope(d0: Data, op: Op, d: Data)
    requires Untouched(d0, op, d)
    ensures OpScope(d, op) == OpScope(d0, op)
  {
  }

  lemma RolledBack(d0: Data, op: Op, d: Data, saved: Lists)
    requires Untouched(d0, op, d) && HasLists(d0.config, OpScope(d0, op), saved)
    requires HasLists(d.config, OpScope(d0, op), saved)
    ensures Same(d0.config, d.config)
  {
    forall slot: Slot ensures At(d.config, slot) == At(d0.config, slot) {
      if slot.scope == OpScope(d0, op) && slot.key in MANAGED_CONFIG_KEYS {
        var i :| 0 <= i < KEYS && MANAGED_CONFIG_KEYS[i] == slot.key;
        assert Stored(d.config, slot.scope, MANAGED_CONFIG_KEYS[i]) == saved[i];
        assert Stored(d0.config, slot.scope, MANAGED_CONFIG_KEYS[i]) == saved[i];
      }
    }
  }

  lemma RollingBackStays(d0: Data, op: Op, d: Data, pc: Pc, choice: Choice)
    requires OnTheWay(d0, op, d, pc) && pc.RollingBack? && Work(d, op, pc, choice).Some?
    ensures var p := Work(d, op, pc, choice).value; OnTheWay(d0, op, p.data, p.pc)
  {
    hide HasFirst, HasLists, At, ScopeOf, Same, OnlyManaged;
    var scope, saved, next := OpScope(d0, op), pc.saved, pc.next;
    SameScope(d0, op, d);
    WholeLists(d0.config, scope, saved);
    if choice.Scribble? {
      ScribbleIsConfined(d.config, scope, saved, next, choice.values);
      ScribblingStays(d0, op, d, next, choice.values);
    } else if choice.Go? && next >= KEYS {
      AllListed(d.config, scope, saved, next);
      RolledBack(d0, op, d, saved);
    } else if choice.Go? && At(d.config, OpSlot(d, op, next)) == saved[next] {
      FirstGrows(d, op, saved, next);
    }
  }

  lemma ListedIsCarried(c: Config, scope: Scope, p: Profile)
    requires HasLists(c, scope, ProfileLists(p))
    ensures ConfigCarries(c, scope, p)
  {
    forall k | k in MANAGED_CONFIG_KEYS ensures Stored(c, scope, k) == ProfileValues(p, k) {
      var i :| 0 <= i < KEYS && MANAGED_CONFIG_KEYS[i] == k;
    }
  }

  lemma ListedIsEmpty(c: Config, scope: Scope)
    requires HasLists(c, scope, EmptyLists())
    ensures ConfigEmpty(c, scope)
  {
    forall k | k in MANAGED_CONFIG_KEYS ensures Stored(c, scope, k) == [] {
      var i :| 0 <= i < KEYS && MANAGED_CONFIG_KEYS[i] == k;
    }
  }

  lemma CommittingStays(d0: Data, op: Op, d: Data, pc: Pc, choice: Choice)
    requires OnTheWay(d0, op, d, pc) && pc.Committing?
    ensures var p := Work(d, op, pc, choice).value; OnTheWay(d0, op, p.data, p.pc)
  {
    hide HasFirst, HasLists, ProfileLists, EmptyLists, ConfigCarries, ConfigEmpty, At, ManagedFieldsChanged;
    var scope := OpScope(d0, op);
    WholeLists(d0.config, scope, pc.saved);
    FirstNone(d.config, scope, pc.saved);
    match op
    case Bind(_, id) => ListedIsCarried(d.config, scope, d0.profiles[id]);
    case Unbind(_) => ListedIsEmpty(d.config, scope);
    case SetGlobal(id) => ListedIsCarried(d.config, scope, d0.profiles[id]);
    case Update(_, profile) => ListedIsCarried(d.config, scope, profile);
    case _ =>
  }

  lemma StoringStays(d0: Data, op: Op, choice: Choice)
    requires OnTheWay(d0, op, d0, Storing)
    ensures var p := Work(d0, op, Storing, choice).value; OnTheWay(d0, op, p.data, p.pc)
  {
    hide ConfigCarries, ManagedFieldsChanged;
    NotYetWritten(d0, op);
  }

  lemma WorkStays(d0: Data, op: Op, d: Data, pc: Pc, choice: Choice)
    requires RowsValid(d0) && OnTheWay(d0, op, d, pc) && Work(d, op, pc, choice).Some?
    ensures var p := Work(d, op, pc, choice).value; OnTheWay(d0, op, p.data, p.pc)
  {
    match pc {
      case Ready => NotYetWritten(d0, op); LoadStays(d0, op);
      case Checking(_, _, _) => CheckingStays(d0, op, pc, choice);
      case Snapshotting(_, _) => SnapshottingStays(d0, op, pc, choice);
      case Writing(_, _, _, _) => WritingStays(d0, op, d, pc, choice);
      case Committing(_, _) => CommittingStays(d0, op, d, pc, choice);
      case RollingBack(_, _, _) => RollingBackStays(d0, op, d, pc, choice);
      case Storing => StoringStays(d0, op, choice);
      case _ =>
    }
  }

  lemma {:induction false} FollowStays(d0: Data, op: Op, d: Data, pc: Pc, choices: seq<Choice>)
    requires RowsValid(d0) && OnTheWay(d0, op, d, pc) && Follow(d, op, pc, choices).Some?
    ensures var p := Follow(d, op, pc, choices).value; OnTheWay(d0, op, p.data, p.pc)
    decreases |choices|
  {
    if choices != [] {
      hide OnTheWay, Work, RowsValid;
      var p := Work(d, op, pc, choices[0]).value;
      WorkStays(d0, op, d, pc, choices[0]);
      FollowStays(d0, op, p.data, p.pc, choices[1..]);
    }
  }

  // ---- when it succeeds ----

  /** How far the operation is from its end, if every call does what it should. */
  function Distance(pc: Pc): int {
    match pc
    case Ready => 3 * KEYS + 9
    case Checking(_, _, taken) => 3 * KEYS + 8 - |taken|
    case Snapshotting(_, taken) => 2 * KEYS + 7 - |taken|
    case Writing(_, _, next, _) => KEYS + 5 - next
    case _ => 1
  }

  lemma FollowOne(d: Data, op: Op, pc: Pc, choice: Choice, rest: seq<Choice>)
    requires Work(d, op, pc, choice).Some?
    ensures var p := Work(d, op, pc, choice).value;
            Follow(d, op, pc, [choice] + rest) == Follow(p.data, op, p.pc, rest)
  {
    hide Work;
    assert ([choice] + rest)[0] == choice && ([choice] + rest)[1..] == rest;
  }

  predicate Onward(pc: Pc) {
    pc.Ready? || pc.Checking? || pc.Snapshotting? || (pc.Writing? && pc.writes == 0) || pc.Committing? || pc.Storing?
  }

  /** One good call, or the write of one key and its readback. */
  lemma GoodCall(d0: Data, op: Op, d: Data, pc: Pc) returns (choices: seq<Choice>, p: Progress)
    requires RowsValid(d0) && Accepts(d0, op) && OnTheWay(d0, op, d, pc) && Onward(pc)
    ensures OnTheWay(d0, op, p.data, p.pc)
    ensures forall rest :: Follow(d, op, pc, choices + rest) == Follow(p.data, op, p.pc, rest)
    ensures p.pc == Finished(Succeeded) || (Onward(p.pc) && 0 <= Distance(p.pc) < Distance(pc))
  {
    if pc.Writing? && pc.next < KEYS {
      choices, p := GoodWrite(d0, op, d, pc);
    } else {
      choices := [Go];
      p := GoodGo(d0, op, d, pc);
      forall rest ensures Follow(d, op, pc, choices + rest) == Follow(p.data, op, p.pc, rest) {
        FollowOne(d, op, pc, Go, rest);
      }
    }
  }

  lemma GoodGo(d0: Data, op: Op, d: Data, pc: Pc) returns (p: Progress)
    requires RowsValid(d0) && Accepts(d0, op) && OnTheWay(d0, op, d, pc) && Onward(pc)
    requires pc.Writing? ==> pc.next >= KEYS
    ensures Work(d, op, pc, Go) == Some(p) && OnTheWay(d0, op, p.data, p.pc)
    ensures p.pc == Finished(Succeeded) || (Onward(p.pc) && 0 <= Distance(p.pc) < Distance(pc))
  {
    hide HasLists, HasFirst, ProfileLists, Untouched, Achieved, ManagedFieldsChanged, ConfigCarries;
    WorkStays(d0, op, d, pc, Go);
    p := Work(d, op, pc, Go).value;
    if pc.Checking? && |pc.taken| == KEYS {
      CarriesIffReads(d0.config, OpScope(d0, op), pc.taken, d0.profiles[d0.bindings[op.repo]]);
    }
    if pc.Writing? { AtTheEnd(d.config, OpScope(d0, op), pc.wanted, pc.next); }
  }

  lemma AtTheEnd(c: Config, scope: Scope, lists: Lists, n: nat)
    requires HasFirst(c, scope, lists, n)
    ensures n <= KEYS
  {
  }

  lemma GoodWrite(d0: Data, op: Op, d: Data, pc: Pc) returns (choices: seq<Choice>, p: Progress)
    requires RowsValid(d0) && OnTheWay(d0, op, d, pc) && pc.Writing? && pc.writes == 0 && pc.next < KEYS
    ensures OnTheWay(d0, op, p.data, p.pc) && p.pc == Writing(pc.wanted, pc.saved, pc.next + 1, 0)
    ensures forall rest :: Follow(d, op, pc, choices + rest) == Follow(p.data, op, p.pc, rest)
  {
    hide HasLists, HasFirst, Target, OnTheWay, Untouched, RowsValid, Accepts, ScopeOf;
    var next := pc.next;
    WantedIsTarget(d0, op, d, pc);
    var wrote := Scribble(pc.wanted[next]);
    var d1 := Scribbled(d, op, next, pc.wanted[next]);
    var pc1 := Writing(pc.wanted, pc.saved, next, 1);
    var pc2 := Writing(pc.wanted, pc.saved, next + 1, 0);
    assert Work(d, op, pc, wrote) == Some(Progress(d1, pc1));
    WorkStays(d0, op, d, pc, wrote);
    assert Work(d1, op, pc1, Go) == Some(Progress(d1, pc2));
    WorkStays(d0, op, d1, pc1, Go);
    p := Progress(d1, pc2);
    choices := [wrote, Go];
    forall rest ensures Follow(d, op, pc, choices + rest) == Follow(p.data, op, p.pc, rest) {
      FollowOne(d, op, pc, wrote, [Go] + rest);
      FollowOne(d1, op, pc1, Go, rest);
      assert choices + rest == [wrote] + ([Go] + rest);
    }
  }

  lemma WantedIsTarget(d0: Data, op: Op, d: Data, pc: Pc)
    requires OnTheWay(d0, op, d, pc) && pc.Writing?
    ensures |pc.wanted| == KEYS
  {
    TargetIsWhole(d0, op);
  }

  lemma {:induction false} Completes(d0: Data, op: Op, d: Data, pc: Pc) returns (choices: seq<Choice>)
    requires RowsValid(d0) && Accepts(d0, op) && OnTheWay(d0, op, d, pc) && Onward(pc)
    ensures Follow(d, op, pc, choices).Some? && Follow(d, op, pc, choices).value.pc == Finished(Succeeded)
    decreases Distance(pc)
  {
    hide RowsValid, Accepts, OnTheWay, Work;
    var good, p := GoodCall(d0, op, d, pc);
    if p.pc == Finished(Succeeded) {
      choices := good;
      assert good + [] == good;
    } else {
      var rest := Completes(d0, op, p.data, p.pc);
      choices := good + rest;
    }
  }

  ghost predicate Ends(d: Data, op: Op, choices: seq<Choice>, d': Data, outcome: Outcome) {
    Follow(d, op, First(op), choices) == Some(Progress(d', Finished(outcome)))
  }

  /** An operation can succeed exactly when it is accepted; above all, a bind or an unbind of a repository
      whose configuration was changed from outside cannot, whatever its calls do. */
  lemma {:induction false} SucceedsIff(d: Data, op: Op)
    requires RowsValid(d)
    ensures (exists choices, d' :: Ends(d, op, choices, d', Succeeded)) <==> Accepts(d, op)
  {
    hide Accepts, RowsValid, Work;
    AtFirst(d, op);
    if choices, d' :| Ends(d, op, choices, d', Succeeded) {
      FollowStays(d, op, d, First(op), choices);
    }
    if Accepts(d, op) {
      var choices := Completes(d, op, d, First(op));
      var p := Follow(d, op, First(op), choices).value;
      assert Ends(d, op, choices, p.data, Succeeded);
    }
  }

  lemma AtFirst(d: Data, op: Op)
    ensures OnTheWay(d, op, d, First(op)) && Onward(First(op))
  {
  }

  /** What each end leaves, whatever the calls did: success the new rows with the configuration that belongs
      to them, failure everything as it was, damage the rows as they were and the other files untouched. */
  lemma {:induction false} EndsLeave(d: Data, op: Op, choices: seq<Choice>, d': Data, outcome: Outcome)
    requires RowsValid(d) && Ends(d, op, choices, d', outcome)
    ensures match outcome
            case Succeeded => Accepts(d, op) && Achieved(d, op, d')
            case Failed => d' == d.(config := d'.config) && Same(d.config, d'.config)
            case Damaged =>
              && d' == d.(config := d'.config, broken := d'.broken)
              && OnlyManaged(d.config, d'.config, OpScope(d, op))
  {
    hide Accepts, Achieved, Same, OnlyManaged, RowsValid, Work;
    AtFirst(d, op);
    FollowStays(d, op, d, First(op), choices);
  }

  /** The service, when nothing fails, accepts just what can succeed here. */
  lemma ServiceAccepts(d: Data, trusted: set<RepositoryId>, repo: RepositoryId, id: ProfileId)
    requires RowsValid(d)
    ensures BindVerdict(d.stores, trusted, d.profiles, d.bindings, d.config, repo, id).Ok? <==>
            repo in d.stores && repo in trusted && Accepts(d, Bind(repo, id))
    ensures UnbindVerdict(d.stores, trusted, d.profiles, d.bindings, d.config, repo).Ok? <==>
            repo in d.stores && repo in trusted && Accepts(d, Unbind(repo))
  {
    hide ConfigCarries;
  }
}
