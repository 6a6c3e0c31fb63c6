/** What an identity operation does between its locks, one external call per step, on the rows and on
    the configuration. Every call may fail, and a configuration write may leave anything. */
module IdentityWork {
  import opened Wrappers
  import opened IdentityConfig
  import opened IdentityTransactions

  /** Profiles in `Update`, `Create` and `Import` are already validated. */
  datatype Op =
    | Bind(repo: RepositoryId, id: ProfileId)
    | Unbind(repo: RepositoryId)
    | SetGlobal(id: ProfileId)
    | Update(id: ProfileId, profile: Profile)
    | Delete(id: ProfileId)
    | Import(id: ProfileId, profile: Profile)
    | Create(id: ProfileId, profile: Profile)
    | Foreign(repo: RepositoryId)

  datatype Outcome = Succeeded | Failed | Damaged

  /** One value list per managed key, in the order of `MANAGED_CONFIG_KEYS`. */
  type Lists = seq<seq<string>>

  datatype Pc =
    | Start
    | HoldingGlobal
    | Ready
    | Checking(expected: Lists, wanted: Lists, taken: Lists)
    | Snapshotting(wanted: Lists, taken: Lists)
    | Writing(wanted: Lists, saved: Lists, next: nat, writes: nat)
    | Committing(wanted: Lists, saved: Lists)
    | RollingBack(saved: Lists, next: nat, writes: nat)
    | Storing
    | Finished(outcome: Outcome)
    | Leaving(outcome: Outcome)
    | Done(outcome: Outcome)

  datatype Thread = Thread(op: Op, pc: Pc)

  /** `stores`: the configuration file of each repository. `written`: what the last commit to a scope
      left there. `broken`: scopes whose last rollback failed and that were not rewritten since.
      `imported`: the global pointer came from an import, which writes no configuration. */
  datatype Data = Data(
    stores: map<RepositoryId, StoreId>,
    profiles: map<ProfileId, Profile>,
    pointer: Option<ProfileId>,
    imported: bool,
    bindings: map<RepositoryId, ProfileId>,
    config: Config,
    written: map<Scope, Lists>,
    broken: set<Scope>)

  datatype Choice = Go | Fail | Scribble(values: seq<string>)

  const KEYS := |MANAGED_CONFIG_KEYS|

  function ProfileLists(p: Profile): (l: Lists)
    ensures |l| == KEYS
    ensures forall i :: 0 <= i < KEYS ==> l[i] == ProfileValues(p, MANAGED_CONFIG_KEYS[i])
  {
    seq(KEYS, i requires 0 <= i < KEYS => ProfileValues(p, MANAGED_CONFIG_KEYS[i]))
  }

  function EmptyLists(): Lists { seq(KEYS, _ => []) }

  predicate UsesGlobal(op: Op) { !op.Create? && !op.Foreign? }

  predicate UsesRepo(op: Op) { op.Bind? || op.Unbind? || op.Foreign? }

  function OpScope(d: Data, op: Op): Scope {
    if UsesRepo(op) then ScopeOf(d.stores, op.repo) else Global
  }

  function OpSlot(d: Data, op: Op, i: nat): Slot
    requires i < KEYS
  {
    Slot(OpScope(d, op), MANAGED_CONFIG_KEYS[i])
  }

  // ---- one call ----

  /** The database reads at the start of the critical section. */
  function Load(d: Data, op: Op): Pc {
    match op
    case Bind(repo, id) =>
      if id !in d.profiles then Finished(Failed)
      else if repo in d.bindings then
        if d.bindings[repo] in d.profiles
        then Checking(ProfileLists(d.profiles[d.bindings[repo]]), ProfileLists(d.profiles[id]), [])
        else Finished(Failed)
      else Snapshotting(ProfileLists(d.profiles[id]), [])
    case Unbind(repo) =>
      if repo !in d.bindings then Finished(Succeeded)
      else if d.bindings[repo] in d.profiles
      then Checking(ProfileLists(d.profiles[d.bindings[repo]]), EmptyLists(), [])
      else Finished(Failed)
    case SetGlobal(id) =>
      if id !in d.profiles then Finished(Failed) else Snapshotting(ProfileLists(d.profiles[id]), [])
    case Update(id, profile) =>
      if id !in d.profiles then Finished(Failed)
      else if !ManagedFieldsChanged(d.profiles[id], profile) then Storing
      else if id in d.bindings.Values then Finished(Failed)
      else if d.pointer == Some(id) then Snapshotting(ProfileLists(profile), [])
      else Storing
    case Delete(id) => if d.pointer == Some(id) then Finished(Failed) else Storing
    case Import(_, _) => if d.profiles != map[] then Finished(Succeeded) else Storing
    case Create(_, _) => Storing
    case Foreign(_) => Finished(Succeeded)
  }

  /** What a successful commit leaves, of the rows and of the bookkeeping. */
  function Commit(d: Data, op: Op, wanted: Lists): Data {
    var scope := OpScope(d, op);
    var d' := d.(written := d.written[scope := wanted], broken := d.broken - {scope});
    match op
    case Bind(repo, id) => d'.(bindings := d.bindings[repo := id])
    case Unbind(repo) => d'.(bindings := d.bindings - {repo})
    case SetGlobal(id) => d'.(pointer := Some(id), imported := false)
    case Update(id, profile) => d'.(profiles := d.profiles[id := profile], imported := false)
    case _ => d
  }

  /** A database-only commit; `None` when a constraint refuses it. */
  function Store(d: Data, op: Op): Option<Data> {
    match op
    case Update(id, profile) => Some(d.(profiles := d.profiles[id := profile]))
    case Delete(id) =>
      if id !in d.profiles || id in d.bindings.Values then None else Some(d.(profiles := d.profiles - {id}))
    case Import(id, profile) =>
      if id in d.profiles then None
      else Some(d.(profiles := d.profiles[id := profile], pointer := Some(id), imported := true))
    case Create(id, profile) => if id in d.profiles then None else Some(d.(profiles := d.profiles[id := profile]))
    case _ => None
  }

  function ReadOne(d: Data, op: Op, taken: Lists): Lists
    requires |taken| < KEYS
  {
    taken + [At(d.config, OpSlot(d, op, |taken|))]
  }

  /** Program points between the last lock taken and the first released. */
  predicate Inside(pc: Pc) { !pc.Start? && !pc.HoldingGlobal? && !pc.Leaving? && !pc.Done? }

  /** Operations that never take the global lock touch no configuration. */
  predicate PcFits(th: Thread) {
    UsesGlobal(th.op) || th.pc.Start? || th.pc.Ready? || th.pc.Storing? || th.pc.Finished? || th.pc.Done?
  }

  datatype Progress = Progress(data: Data, pc: Pc)

  /** Work stays between the locks. */
  predicate Framed(op: Op, pc: Pc, r: Option<Progress>) {
    r.Some? ==> Inside(r.value.pc) && (PcFits(Thread(op, pc)) ==> PcFits(Thread(op, r.value.pc)))
  }

  function Scribbled(d: Data, op: Op, next: nat, values: seq<string>): Data
    requires next < KEYS
  {
    d.(config := d.config[OpSlot(d, op, next) := values])
  }

  /** The calls it takes to write one list: the unset, and an add for each value. */
  function Calls(lists: Lists, i: nat): nat { if i < |lists| then 1 + |lists[i]| else 0 }

  /** A write, or the readback of one. */
  function WriteWork(d: Data, op: Op, wanted: Lists, saved: Lists, next: nat, writes: nat, choice: Choice)
    : (r: Option<Progress>)
    ensures Framed(op, Writing(wanted, saved, next, writes), r)
  {
    match choice
    case Scribble(values) =>
      if next < KEYS && writes < Calls(wanted, next)
      then Some(Progress(Scribbled(d, op, next, values), Writing(wanted, saved, next, writes + 1)))
      else None
    case Fail => Some(Progress(d, RollingBack(saved, 0, 0)))
    case Go =>
      if next >= KEYS then Some(Progress(d, Committing(wanted, saved)))
      else if next < |wanted| && At(d.config, OpSlot(d, op, next)) == wanted[next]
      then Some(Progress(d, Writing(wanted, saved, next + 1, 0)))
      else Some(Progress(d, RollingBack(saved, 0, 0)))
  }

  /** A write of the rollback, or the readback of one. */
  function RollBackWork(d: Data, op: Op, saved: Lists, next: nat, writes: nat, choice: Choice)
    : (r: Option<Progress>)
    ensures Framed(op, RollingBack(saved, next, writes), r)
  {
    match choice
    case Scribble(values) =>
      if next < KEYS && writes < Calls(saved, next)
      then Some(Progress(Scribbled(d, op, next, values), RollingBack(saved, next, writes + 1)))
      else None
    case Fail => Some(Progress(d.(broken := d.broken + {OpScope(d, op)}), Finished(Damaged)))
    case Go =>
      if next >= KEYS then Some(Progress(d, Finished(Failed)))
      else if next < |saved| && At(d.config, OpSlot(d, op, next)) == saved[next]
      then Some(Progress(d, RollingBack(saved, next + 1, 0)))
      else Some(Progress(d.(broken := d.broken + {OpScope(d, op)}), Finished(Damaged)))
  }

  function CommitWork(d: Data, op: Op, wanted: Lists, saved: Lists, choice: Choice): (r: Option<Progress>)
    ensures Framed(op, Committing(wanted, saved), r)
  {
    if choice.Go? then Some(Progress(Commit(d, op, wanted), Finished(Succeeded)))
    else Some(Progress(d, RollingBack(saved, 0, 0)))
  }

  function StoreWork(d: Data, op: Op, choice: Choice): (r: Option<Progress>)
    ensures Framed(op, Storing, r)
  {
    var stored := if choice.Go? then Store(d, op) else None;
    Some(if stored.Some? then Progress(stored.value, Finished(Succeeded)) else Progress(d, Finished(Failed)))
  }

  /** One external call between the locks: a database access, a configuration read, a configuration
      write (`Scribble`), or the readback that decides between going on and rolling back. */
  function Work(d: Data, op: Op, pc: Pc, choice: Choice): (r: Option<Progress>)
    ensures Framed(op, pc, r)
  {
    match pc
    case Ready => Some(Progress(d, if choice.Go? then Load(d, op) else Finished(Failed)))
    case Checking(expected, wanted, taken) =>
      if !choice.Go? then Some(Progress(d, Finished(Failed)))
      else if |taken| < KEYS then Some(Progress(d, Checking(expected, wanted, ReadOne(d, op, taken))))
      else if taken != expected then Some(Progress(d, Finished(Failed)))
      else if op.Unbind? then Some(Progress(d, Writing(wanted, taken, 0, 0)))
      else Some(Progress(d, Snapshotting(wanted, [])))
    case Snapshotting(wanted, taken) =>
      if !choice.Go? then Some(Progress(d, Finished(Failed)))
      else if |taken| < KEYS then Some(Progress(d, Snapshotting(wanted, ReadOne(d, op, taken))))
      else Some(Progress(d, Writing(wanted, taken, 0, 0)))
    case Writing(wanted, saved, next, writes) => WriteWork(d, op, wanted, saved, next, writes, choice)
    case Committing(wanted, saved) => CommitWork(d, op, wanted, saved, choice)
    case RollingBack(saved, next, writes) => RollBackWork(d, op, saved, next, writes, choice)
    case Storing => StoreWork(d, op, choice)
    case _ => None
  }

  // ---- what the data satisfies ----

  ghost predicate HasLists(c: Config, scope: Scope, lists: Lists) {
    && |lists| == KEYS
    && forall i :: 0 <= i < KEYS ==> Stored(c, scope, MANAGED_CONFIG_KEYS[i]) == lists[i]
  }

  ghost predicate HasFirst(c: Config, scope: Scope, lists: Lists, n: nat) {
    && n <= KEYS <= |lists|
    && forall i :: 0 <= i < n ==> Stored(c, scope, MANAGED_CONFIG_KEYS[i]) == lists[i]
  }

  /** The rows refer to existing profiles, a bound repository has had its configuration written, and so
      has an applied pointer, with its profile's. */
  ghost predicate RowsValid(d: Data) {
    && (forall repo :: repo in d.bindings ==> d.bindings[repo] in d.profiles && ScopeOf(d.stores, repo) in d.written)
    && (d.pointer.Some? ==> d.pointer.value in d.profiles)
    && (d.pointer.Some? && !d.imported ==>
          Global in d.written && d.written[Global] == ProfileLists(d.profiles[d.pointer.value]))
  }

  /** The lists a scope is supposed to hold. */
  function Expected(d: Data, scope: Scope): Option<Lists> {
    if scope in d.written then Some(d.written[scope]) else None
  }

  predicate Rewriting(th: Thread) { th.pc.Writing? || th.pc.Committing? || th.pc.RollingBack? }

  predicate Rewrites(d: Data, holder: Option<Thread>, scope: Scope) {
    holder.Some? && Rewriting(holder.value) && OpScope(d, holder.value.op) == scope
  }

  ghost predicate InStepNow(d: Data, scope: Scope) {
    Expected(d, scope).Some? && HasLists(d.config, scope, Expected(d, scope).value)
  }

  ghost predicate InStep(d: Data, holder: Option<Thread>, scope: Scope) {
    Expected(d, scope).Some? && scope !in d.broken && !Rewrites(d, holder, scope) ==>
      HasLists(d.config, scope, Expected(d, scope).value)
  }

  /** A saved snapshot is the configuration the scope is supposed to hold, unless it was broken. */
  ghost predicate GoodSaved(d: Data, scope: Scope, saved: Lists) {
    |saved| == KEYS && (Expected(d, scope).Some? && scope !in d.broken ==> saved == Expected(d, scope).value)
  }

  /** The lists an operation writes are those of the profile it is about to commit. */
  ghost predicate GoodWanted(d: Data, op: Op, wanted: Lists) {
    match op
    case Bind(_, id) => id in d.profiles && wanted == ProfileLists(d.profiles[id])
    case Unbind(_) => wanted == EmptyLists()
    case SetGlobal(id) => id in d.profiles && wanted == ProfileLists(d.profiles[id])
    case Update(id, profile) =>
      && id in d.profiles && wanted == ProfileLists(profile) && id !in d.bindings.Values && d.pointer == Some(id)
    case _ => false
  }

  /** A database-only commit changes no managed field of a profile that is bound or global. */
  ghost predicate GoodStore(d: Data, op: Op) {
    match op
    case Update(id, profile) =>
      && id in d.profiles
      && (ManagedFieldsChanged(d.profiles[id], profile) ==> id !in d.bindings.Values && d.pointer != Some(id))
    case Delete(id) => d.pointer != Some(id)
    case Import(_, _) => true
    case Create(_, _) => true
    case _ => false
  }

  ghost predicate HolderInv(d: Data, th: Thread) {
    var scope := OpScope(d, th.op);
    match th.pc
    case Checking(expected, wanted, taken) =>
      && GoodWanted(d, th.op, wanted) && (th.op.Bind? || th.op.Unbind?)
      && th.op.repo in d.bindings && d.bindings[th.op.repo] in d.profiles
      && expected == ProfileLists(d.profiles[d.bindings[th.op.repo]])
      && |taken| <= KEYS && forall i :: 0 <= i < |taken| ==> Stored(d.config, scope, MANAGED_CONFIG_KEYS[i]) == taken[i]
    case Snapshotting(wanted, taken) =>
      && GoodWanted(d, th.op, wanted)
      && |taken| <= KEYS && forall i :: 0 <= i < |taken| ==> Stored(d.config, scope, MANAGED_CONFIG_KEYS[i]) == taken[i]
    case Writing(wanted, saved, next, _) =>
      GoodWanted(d, th.op, wanted) && GoodSaved(d, scope, saved) && HasFirst(d.config, scope, wanted, next)
    case Committing(wanted, saved) =>
      GoodWanted(d, th.op, wanted) && GoodSaved(d, scope, saved) && HasFirst(d.config, scope, wanted, KEYS)
    case RollingBack(saved, next, _) =>
      GoodSaved(d, scope, saved) && HasFirst(d.config, scope, saved, next)
    case Storing => GoodStore(d, th.op)
    case _ => true
  }

  /** What holds of the rows, the configuration and the broken scopes while `holder` has the global
      lock. */
  ghost predicate DataInv(d: Data, holder: Option<Thread>) {
    && RowsValid(d)
    && (forall scope :: InStep(d, holder, scope))
    && (holder.Some? ==> UsesGlobal(holder.value.op) && HolderInv(d, holder.value))
  }

  // ---- every step keeps the data invariant ----

  lemma SameLists(c: Config, scope: Scope, taken: Lists, lists: Lists)
    requires |taken| == KEYS && HasLists(c, scope, lists)
    requires forall i :: 0 <= i < KEYS ==> Stored(c, scope, MANAGED_CONFIG_KEYS[i]) == taken[i]
    ensures taken == lists
  {
  }

  lemma CheckingKeepsData(d: Data, th: Thread, choice: Choice)
    requires DataInv(d, Some(th)) && th.pc.Checking?
    ensures var p := Work(d, th.op, th.pc, choice).value; DataInv(p.data, Some(th.(pc := p.pc)))
  {
    var scope := OpScope(d, th.op);
    var p := Work(d, th.op, th.pc, choice).value;
    SnapshotIsGood(d, th, scope, th.pc.taken);
    forall s ensures InStep(p.data, Some(th.(pc := p.pc)), s) { assert InStep(d, Some(th), s); }
  }

  lemma SnapshottingKeepsData(d: Data, th: Thread, choice: Choice)
    requires DataInv(d, Some(th)) && th.pc.Snapshotting?
    ensures var p := Work(d, th.op, th.pc, choice).value; DataInv(p.data, Some(th.(pc := p.pc)))
  {
    var scope := OpScope(d, th.op);
    var p := Work(d, th.op, th.pc, choice).value;
    SnapshotIsGood(d, th, scope, th.pc.taken);
    forall s ensures InStep(p.data, Some(th.(pc := p.pc)), s) { assert InStep(d, Some(th), s); }
  }

  /** A complete snapshot of a scope nobody is rewriting is good to roll back to. */
  lemma SnapshotIsGood(d: Data, th: Thread, scope: Scope, taken: Lists)
    requires DataInv(d, Some(th)) && !Rewriting(th) && |taken| <= KEYS
    requires forall i :: 0 <= i < |taken| ==> Stored(d.config, scope, MANAGED_CONFIG_KEYS[i]) == taken[i]
    ensures |taken| == KEYS ==> GoodSaved(d, scope, taken)
  {
    assert InStep(d, Some(th), scope);
    if |taken| == KEYS && Expected(d, scope).Some? && scope !in d.broken {
      SameLists(d.config, scope, taken, Expected(d, scope).value);
    }
  }

  lemma ScribbleIsConfined(c: Config, scope: Scope, lists: Lists, next: nat, values: seq<string>)
    requires next < KEYS && HasFirst(c, scope, lists, next)
    ensures HasFirst(c[Slot(scope, MANAGED_CONFIG_KEYS[next]) := values], scope, lists, next)
  {
    forall i | 0 <= i < next
      ensures MANAGED_CONFIG_KEYS[i] != MANAGED_CONFIG_KEYS[next]
    {
      ManagedKeysAreDistinct(i, next);
    }
  }

  lemma ScribbleElsewhere(d: Data, op: Op, next: nat, values: seq<string>, s: Scope, lists: Lists)
    requires next < KEYS && s != OpScope(d, op) && HasLists(d.config, s, lists)
    ensures HasLists(Scribbled(d, op, next, values).config, s, lists)
  {
  }

  lemma FirstNone(c: Config, scope: Scope, lists: Lists)
    requires |lists| == KEYS
    ensures HasFirst(c, scope, lists, 0)
  {
  }

  lemma FirstGrows(d: Data, op: Op, lists: Lists, next: nat)
    requires HasFirst(d.config, OpScope(d, op), lists, next) && next < KEYS
             && At(d.config, OpSlot(d, op, next)) == lists[next]
    ensures HasFirst(d.config, OpScope(d, op), lists, next + 1)
  {
  }

  lemma FirstAll(c: Config, scope: Scope, lists: Lists)
    requires HasFirst(c, scope, lists, KEYS) && |lists| == KEYS
    ensures HasLists(c, scope, lists)
  {
  }

  ghost predicate SameRows(d: Data, d': Data) {
    && d'.profiles == d.profiles && d'.pointer == d.pointer && d'.imported == d.imported
    && d'.bindings == d.bindings && d'.written == d.written && d'.stores == d.stores
  }

  /** Expectations, and what a thread may write or roll back to, depend on the rows only. */
  lemma RowsDecide(d: Data, d': Data, scope: Scope)
    requires SameRows(d, d') && d.broken <= d'.broken
    ensures Expected(d', scope) == Expected(d, scope)
    ensures forall op :: OpScope(d', op) == OpScope(d, op)
    ensures RowsValid(d) ==> RowsValid(d')
    ensures forall op, wanted :: GoodWanted(d, op, wanted) ==> GoodWanted(d', op, wanted)
    ensures forall saved :: GoodSaved(d, scope, saved) ==> |saved| == KEYS && GoodSaved(d', scope, saved)
  {
  }

  /** In particular for one operation and the lists it saved. */
  lemma SavedStays(d: Data, d': Data, op: Op, s: Scope, saved: Lists)
    requires SameRows(d, d') && d.broken <= d'.broken
    ensures OpScope(d', op) == OpScope(d, op) && Expected(d', s) == Expected(d, s)
    ensures GoodSaved(d, OpScope(d, op), saved) ==> |saved| == KEYS && GoodSaved(d', OpScope(d', op), saved)
  {
  }

  lemma WritingKeepsData(d: Data, th: Thread, choice: Choice)
    requires DataInv(d, Some(th)) && th.pc.Writing? && Work(d, th.op, th.pc, choice).Some?
    ensures var p := Work(d, th.op, th.pc, choice).value; DataInv(p.data, Some(th.(pc := p.pc)))
  {
    hide HasLists, HasFirst, ProfileLists, GoodWanted, GoodSaved, RowsValid, Expected, At;
    var scope, wanted, next := OpScope(d, th.op), th.pc.wanted, th.pc.next;
    var p := Work(d, th.op, th.pc, choice).value;
    RowsDecide(d, p.data, scope);
    FirstNone(d.config, scope, th.pc.saved);
    FirstIsBounded(d.config, scope, wanted, next);
    if choice.Scribble? {
      ScribbleIsConfined(d.config, scope, wanted, next, choice.values);
    } else if next < |wanted| && next < KEYS && At(d.config, OpSlot(d, th.op, next)) == wanted[next] {
      FirstGrows(d, th.op, wanted, next);
    }
    forall s ensures InStep(p.data, Some(th.(pc := p.pc)), s) {
      assert InStep(d, Some(th), s);
      RowsDecide(d, p.data, s);
      if s != scope && choice.Scribble? && InStepNow(d, s) {
        ScribbleElsewhere(d, th.op, next, choice.values, s, Expected(d, s).value);
      }
    }
  }

  lemma RollingBackKeepsScope(d: Data, th: Thread, choice: Choice, s: Scope)
    requires InStep(d, Some(th), s) && th.pc.RollingBack? && Work(d, th.op, th.pc, choice).Some?
    requires GoodSaved(d, OpScope(d, th.op), th.pc.saved)
    requires HasFirst(d.config, OpScope(d, th.op), th.pc.saved, th.pc.next)
    ensures var p := Work(d, th.op, th.pc, choice).value; InStep(p.data, Some(th.(pc := p.pc)), s)
  {
    WorkRollsBack(d, th.op, th.pc, choice);
    hide Work, HasLists, HasFirst, ProfileLists, GoodWanted, GoodSaved, RowsValid, Expected, At, OpScope, SameRows;
    var scope, saved, next := OpScope(d, th.op), th.pc.saved, th.pc.next;
    var p := Work(d, th.op, th.pc, choice).value;
    RollingBackKeepsRows(d, th.op, th.pc, choice);
    SavedStays(d, p.data, th.op, s, saved);
    if s == scope && choice.Go? && next >= KEYS {
      FirstIsBounded(d.config, scope, saved, next);
      FirstAll(d.config, scope, saved);
      SavedIsInStep(d, scope, saved);
    } else if s != scope && choice.Scribble? && InStepNow(d, s) {
      ScribbleElsewhere(d, th.op, next, choice.values, s, Expected(d, s).value);
    }
  }

  lemma WorkRollsBack(d: Data, op: Op, pc: Pc, choice: Choice)
    requires pc.RollingBack?
    ensures Work(d, op, pc, choice) == RollBackWork(d, op, pc.saved, pc.next, pc.writes, choice)
  {
    hide RollBackWork;
  }

  lemma RollingBackKeepsRows(d: Data, op: Op, pc: Pc, choice: Choice)
    requires pc.RollingBack? && Work(d, op, pc, choice).Some?
    ensures var p := Work(d, op, pc, choice).value; SameRows(d, p.data) && d.broken <= p.data.broken
  {
    WorkRollsBack(d, op, pc, choice);
    hide Work, At, OpScope;
  }

  lemma RollingBackKeepsHolder(d: Data, th: Thread, choice: Choice)
    requires HolderInv(d, th) && th.pc.RollingBack? && Work(d, th.op, th.pc, choice).Some?
    ensures var p := Work(d, th.op, th.pc, choice).value; HolderInv(p.data, th.(pc := p.pc))
    ensures var p := Work(d, th.op, th.pc, choice).value; SameRows(d, p.data) && d.broken <= p.data.broken
  {
    WorkRollsBack(d, th.op, th.pc, choice);
    hide HasFirst, ProfileLists, GoodWanted, GoodSaved, GoodStore, Expected, At, OpScope, Work, SameRows;
    var scope, saved, next := OpScope(d, th.op), th.pc.saved, th.pc.next;
    var p := Work(d, th.op, th.pc, choice).value;
    RollingBackKeepsRows(d, th.op, th.pc, choice);
    SavedStays(d, p.data, th.op, scope, saved);
    if choice.Scribble? {
      ScribbleIsConfined(d.config, scope, saved, next, choice.values);
    } else if next < KEYS && At(d.config, OpSlot(d, th.op, next)) == saved[next] {
      FirstGrows(d, th.op, saved, next);
    }
  }

  lemma RollingBackKeepsData(d: Data, th: Thread, choice: Choice)
    requires DataInv(d, Some(th)) && th.pc.RollingBack? && Work(d, th.op, th.pc, choice).Some?
    ensures var p := Work(d, th.op, th.pc, choice).value; DataInv(p.data, Some(th.(pc := p.pc)))
  {
    hide InStep, RowsValid, Work, GoodSaved, HasFirst, SameRows;
    var p := Work(d, th.op, th.pc, choice).value;
    RollingBackKeepsHolder(d, th, choice);
    RowsDecide(d, p.data, OpScope(d, th.op));
    forall s ensures InStep(p.data, Some(th.(pc := p.pc)), s) {
      assert InStep(d, Some(th), s);
      RollingBackKeepsScope(d, th, choice, s);
    }
  }

  lemma SavedIsInStep(d: Data, scope: Scope, saved: Lists)
    requires GoodSaved(d, scope, saved) && HasLists(d.config, scope, saved)
    ensures Expected(d, scope).Some? && scope !in d.broken ==> HasLists(d.config, scope, Expected(d, scope).value)
  {
    hide HasLists, Expected;
  }

  lemma FirstIsBounded(c: Config, scope: Scope, lists: Lists, n: nat)
    requires HasFirst(c, scope, lists, n)
    ensures n <= KEYS <= |lists|
  {
  }

  lemma WantedIsWhole(d: Data, op: Op, wanted: Lists)
    requires GoodWanted(d, op, wanted)
    ensures |wanted| == KEYS
  {
  }

  lemma CommitKeepsRows(d: Data, op: Op, wanted: Lists)
    requires RowsValid(d) && GoodWanted(d, op, wanted)
    ensures RowsValid(Commit(d, op, wanted)) && Commit(d, op, wanted).config == d.config
  {
    hide ProfileLists;
  }

  /** A commit changes what its own scope is expected to hold, to what was written there, and nothing
      else. */
  lemma CommitExpects(d: Data, op: Op, wanted: Lists, s: Scope)
    requires GoodWanted(d, op, wanted)
    ensures s != OpScope(d, op) ==>
              && Expected(Commit(d, op, wanted), s) == Expected(d, s)
              && (s in Commit(d, op, wanted).broken <==> s in d.broken)
    ensures s == OpScope(d, op) ==> Expected(Commit(d, op, wanted), s) == Some(wanted)
  {
    hide ProfileLists;
  }

  lemma CommittingKeepsData(d: Data, th: Thread, choice: Choice)
    requires DataInv(d, Some(th)) && th.pc.Committing?
    ensures var p := Work(d, th.op, th.pc, choice).value; DataInv(p.data, Some(th.(pc := p.pc)))
  {
    hide HasLists, HasFirst, ProfileLists, GoodWanted, RowsValid, Expected, Commit;
    var scope, wanted := OpScope(d, th.op), th.pc.wanted;
    var p := Work(d, th.op, th.pc, choice).value;
    CommitKeepsRows(d, th.op, wanted);
    WantedIsWhole(d, th.op, wanted);
    FirstNone(d.config, scope, th.pc.saved);
    FirstAll(d.config, scope, wanted);
    forall s ensures InStep(p.data, Some(th.(pc := p.pc)), s) {
      assert InStep(d, Some(th), s);
      CommitExpects(d, th.op, wanted, s);
    }
  }

  /** Only fields the profile lists do not show changed. */
  lemma SameManagedFields(before: Profile, after: Profile)
    requires !ManagedFieldsChanged(before, after)
    ensures ProfileLists(before) == ProfileLists(after)
  {
  }

  /** A database-only commit keeps the rows valid, given the foreign key that protects bound profiles,
      and expects what was expected. */
  lemma StoreKeepsRows(d: Data, op: Op)
    requires RowsValid(d) && GoodStore(d, op) && Store(d, op).Some?
    ensures var d' := Store(d, op).value;
            && RowsValid(d') && d'.config == d.config && d'.broken == d.broken && d'.written == d.written
            && d'.stores == d.stores
  {
    hide ProfileLists;
    assert forall repo :: repo in d.bindings ==> d.bindings[repo] in d.bindings.Values;
    if op.Update? && !ManagedFieldsChanged(d.profiles[op.id], op.profile) {
      SameManagedFields(d.profiles[op.id], op.profile);
    }
  }

  lemma StoringKeepsData(d: Data, th: Thread, choice: Choice)
    requires DataInv(d, Some(th)) && th.pc.Storing?
    ensures var p := Work(d, th.op, th.pc, choice).value; DataInv(p.data, Some(th.(pc := p.pc)))
  {
    hide HasLists, ProfileLists, RowsValid, GoodStore, Store;
    var p := Work(d, th.op, th.pc, choice).value;
    if choice.Go? && Store(d, th.op).Some? {
      StoreKeepsRows(d, th.op);
      forall s ensures InStep(p.data, Some(th.(pc := p.pc)), s) {
        assert InStep(d, Some(th), s);
      }
    } else {
      forall s ensures InStep(p.data, Some(th.(pc := p.pc)), s) { assert InStep(d, Some(th), s); }
    }
  }

  lemma LoadingKeepsData(d: Data, th: Thread, choice: Choice)
    requires DataInv(d, Some(th)) && th.pc.Ready?
    ensures var p := Work(d, th.op, th.pc, choice).value; DataInv(p.data, Some(th.(pc := p.pc)))
  {
    var p := Work(d, th.op, th.pc, choice).value;
    forall s ensures InStep(p.data, Some(th.(pc := p.pc)), s) { assert InStep(d, Some(th), s); }
  }

  lemma HolderWorkKeepsData(d: Data, th: Thread, choice: Choice)
    requires DataInv(d, Some(th)) && Work(d, th.op, th.pc, choice).Some?
    ensures var p := Work(d, th.op, th.pc, choice).value; DataInv(p.data, Some(th.(pc := p.pc)))
  {
    match th.pc {
      case Ready => LoadingKeepsData(d, th, choice);
      case Checking(_, _, _) => CheckingKeepsData(d, th, choice);
      case Snapshotting(_, _) => SnapshottingKeepsData(d, th, choice);
      case Writing(_, _, _, _) => WritingKeepsData(d, th, choice);
      case Committing(_, _) => CommittingKeepsData(d, th, choice);
      case RollingBack(_, _, _) => RollingBackKeepsData(d, th, choice);
      case Storing => StoringKeepsData(d, th, choice);
      case _ =>
    }
  }

  /** A new profile changes nothing a holder of the lock relies on. */
  lemma NewProfileKeepsHolder(d: Data, th: Thread, id: ProfileId, profile: Profile)
    requires RowsValid(d) && HolderInv(d, th) && id !in d.profiles
    ensures HolderInv(d.(profiles := d.profiles[id := profile]), th)
  {
    hide HasFirst, ProfileLists;
  }

  /** Work outside the global lock adds a fresh profile at most. */
  lemma OtherWorkKeepsData(d: Data, holder: Option<Thread>, th: Thread, choice: Choice)
    requires DataInv(d, holder) && !UsesGlobal(th.op) && PcFits(th) && Work(d, th.op, th.pc, choice).Some?
    ensures DataInv(Work(d, th.op, th.pc, choice).value.data, holder)
  {
    hide HasLists, HasFirst, ProfileLists, HolderInv, RowsValid;
    var d' := Work(d, th.op, th.pc, choice).value.data;
    if th.op.Create? && th.pc.Storing? && choice.Go? && th.op.id !in d.profiles {
      StoreKeepsRows(d, th.op);
      if holder.Some? { NewProfileKeepsHolder(d, holder.value, th.op.id, th.op.profile); }
      forall s ensures InStep(d', holder, s) {
        assert InStep(d, holder, s);
      }
    }
  }
}
