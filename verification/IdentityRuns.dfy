/** Whole runs of the identity operations: consistency, repositories that share a configuration, imports
    beside creations, and the end of every operation. */
module IdentityRuns {
  import opened Wrappers
  import opened IdentityConfig
  import opened IdentityTransactions
  import opened IdentityWork
  import opened IdentityInterleaving

  // ---- runs ----

  /** No operation yet; any valid rows, and every scope as it was written. */
  ghost predicate Init(w: World) {
    && w.threads == map[] && w.globalOwner == None && w.repoOwner == map[] && w.data.broken == {}
    && RowsValid(w.data)
    && forall scope :: scope in w.data.written ==> HasLists(w.data.config, scope, w.data.written[scope])
  }

  ghost predicate Run(ws: seq<World>) {
    && ws != [] && Init(ws[0])
    && forall i :: 0 <= i < |ws| - 1 ==> Step(ws[i], ws[i + 1])
  }

  lemma StepKeepsInv(w: World, w': World)
    requires Inv(w) && Step(w, w')
    ensures Inv(w')
  {
    hide Inv, Next;
    if t, choice :| t in w.threads && Next(w, t, choice) == Some(w') {
      NextKeepsInv(w, t, choice);
    } else {
      var t: Tid, op :| t !in w.threads && w' == w.(threads := w.threads[t := Thread(op, Start)]);
      ArrivalKeepsInv(w, t, op);
    }
  }

  lemma InitialInv(w: World)
    requires Init(w)
    ensures Inv(w)
  {
    forall s ensures InStep(w.data, None, s) {}
  }

  lemma {:induction false} RunKeepsInv(ws: seq<World>, n: nat)
    requires Run(ws) && n < |ws|
    ensures Inv(ws[n])
  {
    hide Inv, Init, Step;
    if n == 0 {
      InitialInv(ws[0]);
    } else {
      RunKeepsInv(ws, n - 1);
      assert Step(ws[n - 1], ws[n - 1 + 1]);
      StepKeepsInv(ws[n - 1], ws[n]);
    }
  }

  /** A scope nobody is rewriting and no rollback broke. */
  predicate Settled(w: World, scope: Scope) { scope !in w.data.broken && !Rewrites(w.data, Holder(w), scope) }

  lemma ListsCarry(c: Config, scope: Scope, lists: Lists, p: Profile)
    requires HasLists(c, scope, lists)
    ensures ConfigCarries(c, scope, p) <==> lists == ProfileLists(p)
  {
    if ConfigCarries(c, scope, p) {
      forall i | 0 <= i < KEYS ensures lists[i] == ProfileLists(p)[i] {
        assert MANAGED_CONFIG_KEYS[i] in MANAGED_CONFIG_KEYS;
      }
    }
  }

  /** At every point of every run, whatever interleaves and fails: a settled scope holds exactly what the
      last commit to it wrote, so a bound repository has its profile's configuration exactly when that
      is what was last committed to its file, and an applied pointer always has; the pointer and every
      binding name existing profiles; and while some operation is unfinished some thread can step. */
  lemma EveryRunIsConsistent(ws: seq<World>, n: nat)
    requires Run(ws) && n < |ws|
    ensures forall scope :: scope in ws[n].data.written && Settled(ws[n], scope) ==>
              HasLists(ws[n].data.config, scope, ws[n].data.written[scope])
    ensures forall repo :: repo in ws[n].data.bindings ==>
              var scope := ScopeOf(ws[n].data.stores, repo);
              && ws[n].data.bindings[repo] in ws[n].data.profiles && scope in ws[n].data.written
              && (Settled(ws[n], scope) ==>
                    (ConfigCarries(ws[n].data.config, scope, ws[n].data.profiles[ws[n].data.bindings[repo]])
                     <==> ws[n].data.written[scope] == ProfileLists(ws[n].data.profiles[ws[n].data.bindings[repo]])))
    ensures ws[n].data.pointer.Some? ==>
              && ws[n].data.pointer.value in ws[n].data.profiles
              && (!ws[n].data.imported && Settled(ws[n], Global) ==>
                    ConfigCarries(ws[n].data.config, Global, ws[n].data.profiles[ws[n].data.pointer.value]))
    ensures (exists u :: u in ws[n].threads && !ws[n].threads[u].pc.Done?) ==>
              exists t :: t in ws[n].threads && Next(ws[n], t, Go).Some?
  {
    hide Run, LockInv, HasLists, ConfigCarries, ProfileLists, Next, ScopeOf;
    RunKeepsInv(ws, n);
    var w := ws[n];
    forall scope | scope in w.data.written && Settled(w, scope)
      ensures HasLists(w.data.config, scope, w.data.written[scope])
    {
      assert InStep(w.data, Holder(w), scope);
    }
    forall repo | repo in w.data.bindings && Settled(w, ScopeOf(w.data.stores, repo))
      ensures ConfigCarries(w.data.config, ScopeOf(w.data.stores, repo), w.data.profiles[w.data.bindings[repo]])
              <==> w.data.written[ScopeOf(w.data.stores, repo)] == ProfileLists(w.data.profiles[w.data.bindings[repo]])
    {
      var scope := ScopeOf(w.data.stores, repo);
      ListsCarry(w.data.config, scope, w.data.written[scope], w.data.profiles[w.data.bindings[repo]]);
    }
    if w.data.pointer.Some? && !w.data.imported && Settled(w, Global) {
      ListsCarry(w.data.config, Global, w.data.written[Global], w.data.profiles[w.data.pointer.value]);
    }
    if u :| u in w.threads && !w.threads[u].pc.Done? {
      var t := NoDeadlock(w, u);
    }
  }

  // ---- repositories that share a configuration ----

  /** Every bound repository's file was last written with its profile's configuration. */
  ghost predicate Harmony(d: Data) {
    forall repo :: repo in d.bindings ==>
      && d.bindings[repo] in d.profiles && ScopeOf(d.stores, repo) in d.written
      && d.written[ScopeOf(d.stores, repo)] == ProfileLists(d.profiles[d.bindings[repo]])
  }

  /** What a caller can check before a bind or an unbind. */
  ghost predicate CommitGuard(d: Data, op: Op)
    requires RowsValid(d)
  {
    match op
    case Bind(repo, id) => id in d.profiles && BindGuard(d.stores, d.profiles, d.bindings, repo, d.profiles[id])
    case Unbind(repo) => UnbindGuard(d.stores, d.bindings, repo)
    case _ => true
  }

  lemma ListsAreFields(p: Profile, q: Profile)
    ensures ProfileLists(p) == ProfileLists(q) <==> !ManagedFieldsChanged(p, q)
    ensures ProfileLists(p) != EmptyLists()
  {
    hide ManagedFieldsChanged;
    FieldsAreValues(p, q);
    assert MANAGED_CONFIG_KEYS[0] == UserName && ProfileLists(p)[0] == [p.userName] != [] == EmptyLists()[0];
    if ProfileLists(p) == ProfileLists(q) {
      forall k | k in MANAGED_CONFIG_KEYS ensures ProfileValues(p, k) == ProfileValues(q, k) {
        var i :| 0 <= i < KEYS && MANAGED_CONFIG_KEYS[i] == k;
        assert ProfileLists(p)[i] == ProfileLists(q)[i];
      }
    }
    if forall k :: k in MANAGED_CONFIG_KEYS ==> ProfileValues(p, k) == ProfileValues(q, k) {
      forall i | 0 <= i < KEYS ensures ProfileLists(p)[i] == ProfileLists(q)[i] {
        assert MANAGED_CONFIG_KEYS[i] in MANAGED_CONFIG_KEYS;
      }
    }
  }

  lemma BindHarmonyIff(d: Data, op: Op, wanted: Lists)
    requires RowsValid(d) && Harmony(d) && GoodWanted(d, op, wanted) && op.Bind?
    ensures Harmony(Commit(d, op, wanted)) <==> CommitGuard(d, op)
  {
    hide ProfileLists, ManagedFieldsChanged, ScopeOf;
    var d' := Commit(d, op, wanted);
    forall other | Sharing(d.stores, d.bindings, op.repo, other)
      ensures d'.written[ScopeOf(d.stores, other)] == ProfileLists(d.profiles[d.bindings[other]])
              <==> !ManagedFieldsChanged(d.profiles[d.bindings[other]], d.profiles[op.id])
    {
      ListsAreFields(d.profiles[d.bindings[other]], d.profiles[op.id]);
    }
    if Harmony(d') {
      forall other | Sharing(d.stores, d.bindings, op.repo, other)
        ensures !ManagedFieldsChanged(d.profiles[d.bindings[other]], d.profiles[op.id])
      {
        assert other in d'.bindings;
      }
    }
  }

  lemma UnbindHarmonyIff(d: Data, op: Op, wanted: Lists)
    requires RowsValid(d) && Harmony(d) && GoodWanted(d, op, wanted) && op.Unbind?
    ensures Harmony(Commit(d, op, wanted)) <==> CommitGuard(d, op)
  {
    hide ProfileLists, ScopeOf;
    var d' := Commit(d, op, wanted);
    forall other | other in d'.bindings && !Sharing(d.stores, d.bindings, op.repo, other)
      ensures d'.written[ScopeOf(d'.stores, other)] == ProfileLists(d'.profiles[d'.bindings[other]])
    {
      assert other in d.bindings;
    }
    if Harmony(d') {
      forall other | other in d'.bindings ensures !Sharing(d.stores, d.bindings, op.repo, other) {
        ListsAreFields(d.profiles[d.bindings[other]], d.profiles[d.bindings[other]]);
      }
    }
  }

  lemma OtherCommitsKeepHarmony(d: Data, op: Op, wanted: Lists)
    requires RowsValid(d) && Harmony(d) && GoodWanted(d, op, wanted) && !op.Bind? && !op.Unbind?
    ensures Harmony(Commit(d, op, wanted))
  {
    hide ProfileLists;
    assert forall repo :: repo in d.bindings ==> d.bindings[repo] in d.bindings.Values;
  }

  /** From harmony, a commit leads to harmony exactly when its guard holds. */
  lemma CommitHarmonyIff(d: Data, op: Op, wanted: Lists)
    requires RowsValid(d) && Harmony(d) && GoodWanted(d, op, wanted)
    ensures Harmony(Commit(d, op, wanted)) <==> CommitGuard(d, op)
  {
    hide ProfileLists;
    if op.Bind? {
      BindHarmonyIff(d, op, wanted);
    } else if op.Unbind? {
      UnbindHarmonyIff(d, op, wanted);
    } else {
      OtherCommitsKeepHarmony(d, op, wanted);
    }
  }

  lemma StoreKeepsHarmony(d: Data, op: Op)
    requires RowsValid(d) && Harmony(d) && GoodStore(d, op) && Store(d, op).Some?
    ensures Harmony(Store(d, op).value)
  {
    hide ProfileLists;
    assert forall repo :: repo in d.bindings ==> d.bindings[repo] in d.bindings.Values;
    if op.Update? && !ManagedFieldsChanged(d.profiles[op.id], op.profile) {
      SameManagedFields(d.profiles[op.id], op.profile);
    }
  }

  lemma SameRowsHarmony(d: Data, d': Data)
    requires SameRows(d, d')
    ensures Harmony(d) <==> Harmony(d')
  {
    hide ProfileLists, ScopeOf;
  }

  /** A step that is neither a commit nor a store changes no row. */
  lemma WorkChangesRows(d: Data, op: Op, pc: Pc, choice: Choice)
    requires Work(d, op, pc, choice).Some?
    ensures var d' := Work(d, op, pc, choice).value.data;
            && (pc.Committing? && choice.Go? ==> d' == Commit(d, op, pc.wanted))
            && (pc.Storing? && choice.Go? && Store(d, op).Some? ==> d' == Store(d, op).value)
            && (!(pc.Committing? && choice.Go?) && !(pc.Storing? && choice.Go? && Store(d, op).Some?) ==>
                 SameRows(d, d'))
  {
    hide Load, Commit, Store;
  }

  lemma CreateIsGood(d: Data, th: Thread, choice: Choice)
    requires !UsesGlobal(th.op) && Store(d, th.op).Some?
    ensures GoodStore(d, th.op)
  {
  }

  predicate IsCommit(w: World, t: Tid, choice: Choice) { t in w.threads && w.threads[t].pc.Committing? && choice.Go? }

  /** What a thread about to change rows knows. */
  lemma HolderKnows(w: World, t: Tid)
    requires Inv(w) && t in w.threads
    ensures RowsValid(w.data)
    ensures w.threads[t].pc.Committing? ==> GoodWanted(w.data, w.threads[t].op, w.threads[t].pc.wanted)
    ensures w.threads[t].pc.Storing? ==> GoodStore(w.data, w.threads[t].op) || !UsesGlobal(w.threads[t].op)
  {
    hide InStep, GoodWanted, GoodStore, GoodSaved, HasFirst;
    assert w.globalOwner == Some(t) <==> HoldsGlobal(w.threads[t]);
  }

  /** From harmony, a step leads to harmony unless it is a commit whose guard fails. */
  lemma NextHarmonyIff(w: World, t: Tid, choice: Choice)
    requires Inv(w) && Harmony(w.data) && t in w.threads && Next(w, t, choice).Some?
    ensures RowsValid(w.data)
    ensures Harmony(Next(w, t, choice).value.data) <==>
            (IsCommit(w, t, choice) ==> CommitGuard(w.data, w.threads[t].op))
  {
    hide Inv, Work, Enter, Exit, Harmony, CommitGuard, RowsValid, Store, Commit, GoodWanted, GoodStore;
    var th := w.threads[t];
    HolderKnows(w, t);
    if Working(th.pc) {
      var d := Work(w.data, th.op, th.pc, choice).value.data;
      WorkChangesRows(w.data, th.op, th.pc, choice);
      if IsCommit(w, t, choice) {
        CommitHarmonyIff(w.data, th.op, th.pc.wanted);
      } else if th.pc.Storing? && choice.Go? && Store(w.data, th.op).Some? {
        if !UsesGlobal(th.op) { CreateIsGood(w.data, th, choice); }
        StoreKeepsHarmony(w.data, th.op);
      } else {
        SameRowsHarmony(w.data, d);
      }
    } else {
      EdgeIsIdle(w, t, choice);
    }
  }

  /** If the step is a commit, its guard held. */
  ghost predicate Guarded(w: World, w': World)
    requires RowsValid(w.data)
  {
    forall t, choice ::
      IsCommit(w, t, choice) && Next(w, t, choice) == Some(w') ==> CommitGuard(w.data, w.threads[t].op)
  }

  lemma StepHarmonyIff(w: World, w': World)
    requires Inv(w) && Harmony(w.data) && Step(w, w')
    ensures RowsValid(w.data) && (Harmony(w'.data) <==> Guarded(w, w'))
  {
    hide Inv, Next, Harmony, CommitGuard, RowsValid;
    ValidRows(w);
    forall t, choice | t in w.threads && Next(w, t, choice) == Some(w')
      ensures Harmony(w'.data) <==> (IsCommit(w, t, choice) ==> CommitGuard(w.data, w.threads[t].op))
    {
      NextHarmonyIff(w, t, choice);
    }
  }

  lemma ValidRows(w: World)
    requires Inv(w)
    ensures RowsValid(w.data)
  {
    hide RowsValid, LockInv, InStep, HolderInv;
  }

  /** A run that starts in harmony stays in harmony as long as, and only as long as, every bind and unbind
      is committed under its guard: nobody bound shares the configuration file, or, for a bind, only with
      the same managed fields. */
  lemma {:induction false} HarmonyIsGuarding(ws: seq<World>, n: nat)
    requires Run(ws) && n < |ws| && Harmony(ws[0].data)
    ensures forall i :: 0 <= i < n ==> RowsValid(ws[i].data)
    ensures (forall i :: 0 <= i <= n ==> Harmony(ws[i].data)) <==>
            (forall i :: 0 <= i < n ==> Guarded(ws[i], ws[i + 1]))
  {
    hide Inv, Init, Step, Harmony, RowsValid, Guarded;
    if n > 0 {
      HarmonyIsGuarding(ws, n - 1);
      RunKeepsInv(ws, n - 1);
      ValidRows(ws[n - 1]);
      assert Step(ws[n - 1], ws[n - 1 + 1]);
      if Harmony(ws[n - 1].data) { StepHarmonyIff(ws[n - 1], ws[n]); }
    }
  }

  /** In harmony every bound repository whose file is settled has its profile's configuration. */
  lemma HarmonyCarries(ws: seq<World>, n: nat, repo: RepositoryId)
    requires Run(ws) && n < |ws| && Harmony(ws[n].data)
    requires repo in ws[n].data.bindings && Settled(ws[n], ScopeOf(ws[n].data.stores, repo))
    ensures ws[n].data.bindings[repo] in ws[n].data.profiles
    ensures ConfigCarries(ws[n].data.config, ScopeOf(ws[n].data.stores, repo),
            ws[n].data.profiles[ws[n].data.bindings[repo]])
  {
    hide Run, Settled, ConfigCarries, ProfileLists, HasLists;
    EveryRunIsConsistent(ws, n);
  }

  // ---- the check before a write ----

  /** In every run, a bind or unbind of a bound repository that has read its configuration goes on to write
      exactly when the configuration is, at this very point, its profile's. */
  lemma CheckDecides(ws: seq<World>, n: nat, t: Tid)
    requires Run(ws) && n < |ws| && t in ws[n].threads
    requires ws[n].threads[t].pc.Checking? && |ws[n].threads[t].pc.taken| == KEYS
    ensures var w, op := ws[n], ws[n].threads[t].op;
            && (op.Bind? || op.Unbind?) && op.repo in w.data.bindings && w.data.bindings[op.repo] in w.data.profiles
            && Next(w, t, Go).Some? && t in Next(w, t, Go).value.threads
            && var pc := Next(w, t, Go).value.threads[t].pc;
               var profile := w.data.profiles[w.data.bindings[op.repo]];
               if ConfigCarries(w.data.config, ScopeOf(w.data.stores, op.repo), profile)
               then pc.Writing? || pc.Snapshotting? else pc == Finished(Failed)
  {
    hide Run, LockInv, ConfigCarries, ProfileLists, RowsValid, InStep, GoodWanted;
    RunKeepsInv(ws, n);
    var w, th := ws[n], ws[n].threads[t];
    CheckerHolds(w, t);
    var scope := OpScope(w.data, th.op);
    TakenIsStored(w.data, th, scope);
    ListsCarry(w.data.config, scope, th.pc.taken, w.data.profiles[w.data.bindings[th.op.repo]]);
  }

  lemma TakenIsStored(d: Data, th: Thread, scope: Scope)
    requires HolderInv(d, th) && th.pc.Checking? && |th.pc.taken| == KEYS && scope == OpScope(d, th.op)
    ensures HasLists(d.config, scope, th.pc.taken)
  {
  }

  lemma CheckerHolds(w: World, t: Tid)
    requires Inv(w) && t in w.threads && w.threads[t].pc.Checking?
    ensures HolderInv(w.data, w.threads[t])
  {
    hide InStep, RowsValid, HolderInv;
    assert PcFits(w.threads[t]);
    assert HoldsGlobal(w.threads[t]);
    assert w.globalOwner == Some(t);
  }

  // ---- imports beside creations ----

  predicate Importing(w: World, t: Tid) { t in w.threads && w.threads[t].op.Import? && w.threads[t].pc.Storing? }

  /** The step is a creation that stores its profile. */
  ghost predicate CreateStored(w: World, w': World) {
    exists u :: && u in w.threads && w.threads[u].op.Create? && w.threads[u].pc.Storing?
                && w.threads[u].op.id !in w.data.profiles && Next(w, u, Go) == Some(w')
  }

  /** A step moves its own thread only. */
  lemma NextMovesOne(w: World, u: Tid, choice: Choice, t: Tid)
    requires u in w.threads && t in w.threads && Next(w, u, choice).Some?
    ensures Next(w, u, choice).value.threads.Keys == w.threads.Keys
    ensures Next(w, u, choice).value.threads[t].op == w.threads[t].op
    ensures t != u ==> Next(w, u, choice).value.threads[t] == w.threads[t]
  {
    hide Work;
  }

  /** While an import is between its check and its store, only creations change profiles. */
  lemma OthersWhileImporting(w: World, u: Tid, choice: Choice, t: Tid)
    requires Inv(w) && Importing(w, t) && u in w.threads && u != t && Next(w, u, choice).Some?
    ensures var w' := Next(w, u, choice).value;
            w'.data.profiles == w.data.profiles || (w.data.profiles.Keys < w'.data.profiles.Keys && CreateStored(w, w'))
  {
    hide DataInv, Load, LocksFollow;
    assert w.globalOwner == Some(t) <==> HoldsGlobal(w.threads[t]);
    assert w.globalOwner == Some(u) <==> HoldsGlobal(w.threads[u]);
    assert PcFits(w.threads[u]);
  }

  lemma WhileImporting(w: World, w': World, t: Tid)
    requires Inv(w) && Step(w, w') && Importing(w, t) && Importing(w', t)
    ensures CreateStored(w, w') ==> w.data.profiles.Keys < w'.data.profiles.Keys
    ensures !CreateStored(w, w') ==> w'.data.profiles == w.data.profiles
    ensures w'.threads[t].op == w.threads[t].op
  {
    hide Inv, Next;
    if u :| && u in w.threads && w.threads[u].op.Create? && w.threads[u].pc.Storing?
            && w.threads[u].op.id !in w.data.profiles && Next(w, u, Go) == Some(w')
    {
      CreationGrows(w, u);
    }
    if u, choice :| u in w.threads && Next(w, u, choice) == Some(w') {
      NextMovesOne(w, u, choice, t);
      if u == t { StoreEnds(w, t, choice); } else { OthersWhileImporting(w, u, choice, t); }
    }
  }

  lemma CreationGrows(w: World, u: Tid)
    requires u in w.threads && w.threads[u].op.Create? && w.threads[u].pc.Storing?
             && w.threads[u].op.id !in w.data.profiles
    ensures Next(w, u, Go).Some? && w.data.profiles.Keys < Next(w, u, Go).value.data.profiles.Keys
  {
    assert w.threads[u].op.id in Next(w, u, Go).value.data.profiles.Keys;
  }

  /** The one call of an import that is left: it stores the profile, or fails. */
  lemma StoreEnds(w: World, t: Tid, choice: Choice)
    requires Importing(w, t) && Next(w, t, choice).Some?
    ensures var w' := Next(w, t, choice).value;
            && t in w'.threads && w'.threads[t].pc.Finished?
            && (w'.threads[t].pc == Finished(Succeeded) ==>
                  && w.threads[t].op.id !in w.data.profiles
                  && w'.data.profiles == w.data.profiles[w.threads[t].op.id := w.threads[t].op.profile]
                  && w'.data.pointer == Some(w.threads[t].op.id))
  {
  }

  /** The check of an import found no profile. */
  lemma LoadChecks(w: World, w': World, t: Tid)
    requires Step(w, w') && Importing(w', t) && t in w.threads && w.threads[t].op.Import? && w.threads[t].pc.Ready?
    ensures w.data.profiles == map[] && w'.data.profiles == map[]
  {
    hide Next;
    if u, choice :| u in w.threads && Next(w, u, choice) == Some(w') {
      NextMovesOne(w, u, choice, t);
      LoadsWhenEmpty(w, t, choice);
    }
  }

  lemma LoadsWhenEmpty(w: World, t: Tid, choice: Choice)
    requires t in w.threads && w.threads[t].op.Import? && w.threads[t].pc.Ready? && Next(w, t, choice).Some?
    requires t in Next(w, t, choice).value.threads && Next(w, t, choice).value.threads[t].pc.Storing?
    ensures w.data.profiles == map[] && Next(w, t, choice).value.data == w.data
  {
  }

  /** The import of thread `t` runs in `ws` from its check at `i` to a store at `j` that succeeds. */
  ghost predicate Imports(ws: seq<World>, t: Tid, i: nat, j: nat)
    requires i < j < |ws| - 1
  {
    && t in ws[i].threads && ws[i].threads[t].op.Import? && ws[i].threads[t].pc.Ready?
    && (forall k :: i < k <= j ==> Importing(ws[k], t))
    && t in ws[j + 1].threads && ws[j + 1].threads[t].pc == Finished(Succeeded)
  }

  lemma {:induction false} ProfilesWhileImporting(ws: seq<World>, t: Tid, i: nat, j: nat, m: nat)
    requires Run(ws) && i < j < |ws| - 1 && Imports(ws, t, i, j) && i < m <= j
    ensures ws[m].data.profiles == map[] <==> forall k :: i < k < m ==> !CreateStored(ws[k], ws[k + 1])
  {
    hide Inv, Init, Step, CreateStored;
    assert Importing(ws[m], t);
    if m == i + 1 {
      assert Step(ws[i], ws[i + 1]);
      LoadChecks(ws[i], ws[m], t);
    } else {
      assert Importing(ws[m - 1], t) && Step(ws[m - 1], ws[m - 1 + 1]);
      ProfilesWhileImporting(ws, t, i, j, m - 1);
      RunKeepsInv(ws, m - 1);
      WhileImporting(ws[m - 1], ws[m], t);
    }
  }

  /** An import that succeeds leaves exactly its own profile if, and only if, no creation stored one since
      the import looked; either way the pointer is its own. */
  lemma ImportIsAloneIff(ws: seq<World>, t: Tid, i: nat, j: nat)
    requires Run(ws) && i < j < |ws| - 1 && Imports(ws, t, i, j)
    ensures var op := ws[j].threads[t].op;
            && op.Import? && ws[j + 1].data.pointer == Some(op.id)
            && (ws[j + 1].data.profiles == map[op.id := op.profile]
                <==> forall k :: i < k < j ==> !CreateStored(ws[k], ws[k + 1]))
  {
    hide Inv, Init, CreateStored, Next;
    assert Importing(ws[j], t) && Step(ws[j], ws[j + 1]);
    ProfilesWhileImporting(ws, t, i, j, j);
    if u, choice :| u in ws[j].threads && Next(ws[j], u, choice) == Some(ws[j + 1]) {
      NextMovesOne(ws[j], u, choice, t);
      StoreEnds(ws[j], t, choice);
      var id := ws[j].threads[t].op.id;
      AloneWhenEmpty(ws[j].data.profiles, id, ws[j].threads[t].op.profile);
    }
  }

  lemma AloneWhenEmpty(profiles: map<ProfileId, Profile>, id: ProfileId, profile: Profile)
    requires id !in profiles
    ensures profiles[id := profile] == map[id := profile] <==> profiles == map[]
  {
    if other :| other in profiles { assert other in profiles[id := profile] && other !in map[id := profile]; }
  }

  /** A longer run. */
  lemma Extend(ws: seq<World>, w: World) returns (longer: seq<World>)
    requires Run(ws) && Step(ws[|ws| - 1], w)
    ensures Run(longer) && longer == ws + [w]
  {
    longer := ws + [w];
    forall i | 0 <= i < |longer| - 1 ensures Step(longer[i], longer[i + 1]) {
      assert i < |ws| - 1 ==> Step(ws[i], ws[i + 1]);
    }
  }

  lemma Arrive(ws: seq<World>, t: Tid, op: Op) returns (longer: seq<World>)
    requires Run(ws) && t !in ws[|ws| - 1].threads
    ensures var w := ws[|ws| - 1];
            Run(longer) && longer == ws + [w.(threads := w.threads[t := Thread(op, Start)])]
  {
    var w := ws[|ws| - 1];
    longer := Extend(ws, w.(threads := w.threads[t := Thread(op, Start)]));
  }

  lemma StepOn(ws: seq<World>, t: Tid) returns (longer: seq<World>)
    requires Run(ws) && t in ws[|ws| - 1].threads && Next(ws[|ws| - 1], t, Go).Some?
    ensures Run(longer) && longer == ws + [Next(ws[|ws| - 1], t, Go).value]
  {
    longer := Extend(ws, Next(ws[|ws| - 1], t, Go).value);
  }

  /** An import that has found no profile, and a creation that has started. */
  lemma BothAboutToStore(p: Profile, q: Profile) returns (ws: seq<World>)
    ensures Run(ws)
    ensures var w := ws[|ws| - 1];
            && w.data.profiles == map[] && w.threads.Keys == {0, 1}
            && w.threads[0] == Thread(Import("imported", p), Storing)
            && w.threads[1] == Thread(Create("created", q), Storing)
  {
    hide Run;
    ws := FirstWorld();
    ws := Arrive(ws, 0, Import("imported", p));
    ws := Arrive(ws, 1, Create("created", q));
    ws := StepOn(ws, 0);
    ws := StepOn(ws, 0);
    ws := StepOn(ws, 0);
    ws := StepOn(ws, 1);
  }

  lemma FirstWorld() returns (ws: seq<World>)
    ensures Run(ws) && ws == [World(Data(map[], map[], None, false, map[], map[], map[], {}), None, map[], map[])]
  {
    ws := [World(Data(map[], map[], None, false, map[], map[], map[], {}), None, map[], map[])];
  }

  /** A run in which a creation comes between: the machine allows it, since creating takes no lock. The
      application imports once, before it takes commands. */
  lemma ImportBesideCreate(p: Profile, q: Profile) returns (ws: seq<World>)
    ensures Run(ws)
    ensures var d := ws[|ws| - 1].data;
            d.profiles == map["imported" := p, "created" := q] && d.pointer == Some("imported")
  {
    hide Run;
    assert "imported"[0] != "created"[0];
    ws := BothAboutToStore(p, q);
    ws := StepOn(ws, 1);
    ws := StepOn(ws, 0);
  }

  // ---- every operation ends ----

  function Left(n: nat): nat { if n <= KEYS then KEYS - n else 0 }

  /** How far a program point is from the end, not counting repeated writes of one key. */
  function Ahead(pc: Pc): nat {
    match pc
    case Start => 77
    case HoldingGlobal => 70
    case Ready => 63
    case Checking(_, _, taken) => 56 + Left(|taken|)
    case Snapshotting(_, taken) => 49 + Left(|taken|)
    case Writing(_, _, next, _) => 42 + Left(next)
    case Committing(_, _) => 35
    case RollingBack(_, next, _) => 28 + Left(next)
    case Storing => 21
    case Finished(_) => 14
    case Leaving(_) => 7
    case Done(_) => 0
  }

  function Minus(a: nat, b: nat): nat { if b <= a then a - b else 0 }

  /** The writes of the current key that are left. */
  function Budget(pc: Pc): nat {
    match pc
    case Writing(wanted, _, next, writes) => Minus(Calls(wanted, next), writes)
    case RollingBack(saved, next, writes) => Minus(Calls(saved, next), writes)
    case _ => 0
  }

  predicate Nearer(before: Pc, after: Pc) {
    Ahead(after) < Ahead(before) || (Ahead(after) == Ahead(before) && Budget(after) < Budget(before))
  }

  lemma WorkComesNearer(d: Data, op: Op, pc: Pc, choice: Choice)
    requires Work(d, op, pc, choice).Some?
    ensures Nearer(pc, Work(d, op, pc, choice).value.pc)
  {
    hide ProfileLists, ManagedFieldsChanged, Commit, Store, At, EmptyLists;
  }

  lemma NextComesNearer(w: World, t: Tid, choice: Choice)
    requires t in w.threads && Next(w, t, choice).Some?
    ensures var w' := Next(w, t, choice).value;
            && w'.threads.Keys == w.threads.Keys && Nearer(w.threads[t].pc, w'.threads[t].pc)
            && w'.threads == w.threads[t := w'.threads[t]]
  {
    hide Work;
    if Working(w.threads[t].pc) { WorkComesNearer(w.data, w.threads[t].op, w.threads[t].pc, choice); }
  }

  function SumAhead(threads: map<Tid, Thread>, n: nat): nat {
    if n == 0 then 0 else SumAhead(threads, n - 1) + if n - 1 in threads then Ahead(threads[n - 1].pc) else 0
  }

  function SumBudget(threads: map<Tid, Thread>, n: nat): nat {
    if n == 0 then 0 else SumBudget(threads, n - 1) + if n - 1 in threads then Budget(threads[n - 1].pc) else 0
  }

  lemma {:induction false} SumsMove(threads: map<Tid, Thread>, t: Tid, th: Thread, n: nat)
    requires t in threads
    ensures var after := threads[t := th];
            && SumAhead(after, n) - SumAhead(threads, n) == (if t < n then Ahead(th.pc) - Ahead(threads[t].pc) else 0)
            && SumBudget(after, n) - SumBudget(threads, n)
               == (if t < n then Budget(th.pc) - Budget(threads[t].pc) else 0)
  {
    hide Ahead, Budget;
    if n > 0 { SumsMove(threads, t, th, n - 1); }
  }

  /** A step of an operation that is there, as opposed to the arrival of one. */
  ghost predicate Works(w: World, w': World) { exists t, choice :: t in w.threads && Next(w, t, choice) == Some(w') }

  ghost predicate Below(threads: map<Tid, Thread>, n: nat) { forall t :: t in threads ==> t < n }

  /** Every step of an operation brings the whole closer to its end. */
  lemma WorkLowersSums(w: World, w': World, n: nat)
    requires Works(w, w') && Below(w.threads, n)
    ensures Below(w'.threads, n)
    ensures || SumAhead(w'.threads, n) < SumAhead(w.threads, n)
            || (SumAhead(w'.threads, n) == SumAhead(w.threads, n) && SumBudget(w'.threads, n) < SumBudget(w.threads, n))
  {
    hide Next, Ahead, Budget;
    var t, choice :| t in w.threads && Next(w, t, choice) == Some(w');
    NextComesNearer(w, t, choice);
    SumsMove(w.threads, t, w'.threads[t], n);
  }

  ghost predicate WorksAt(f: nat -> World, k: nat) { Works(f(k), f(k + 1)) }

  lemma {:induction false} NoEndlessWork(f: nat -> World, i: nat, n: nat)
    requires (forall k: nat :: k >= i ==> WorksAt(f, k)) && Below(f(i).threads, n)
    ensures false
    decreases SumAhead(f(i).threads, n), SumBudget(f(i).threads, n)
  {
    hide Works, Below, SumAhead, SumBudget;
    assert WorksAt(f, i);
    WorkLowersSums(f(i), f(i + 1), n);
    NoEndlessWork(f, i + 1, n);
  }

  lemma {:induction false} SomeBound(tids: set<Tid>) returns (n: nat)
    ensures forall t :: t in tids ==> t < n
  {
    if tids == {} {
      n := 0;
    } else {
      var t :| t in tids;
      var m := SomeBound(tids - {t});
      assert tids == tids - {t} + {t};
      n := if m <= t then t + 1 else m;
    }
  }

  lemma BoundOf(w: World) returns (n: nat)
    ensures Below(w.threads, n)
  {
    n := SomeBound(w.threads.Keys);
  }

  /** No run goes on for ever on the operations it has: in an endless one new operations keep arriving.
      So once nothing arrives any more every operation finishes, since until then some thread can step. */
  lemma OperationsEnd(f: nat -> World, i: nat) returns (j: nat)
    requires forall k: nat :: Step(f(k), f(k + 1))
    ensures j >= i && !Works(f(j), f(j + 1))
    ensures exists t: Tid, op :: && t !in f(j).threads
                                 && f(j + 1) == f(j).(threads := f(j).threads[t := Thread(op, Start)])
  {
    hide Works, Below;
    if forall k: nat :: k >= i ==> WorksAt(f, k) {
      var n := BoundOf(f(i));
      NoEndlessWork(f, i, n);
    }
    j :| j >= i && !WorksAt(f, j);
    WorkOrArrival(f(j), f(j + 1));
  }

  lemma WorkOrArrival(w: World, w': World)
    requires Step(w, w') && !Works(w, w')
    ensures exists t: Tid, op :: t !in w.threads && w' == w.(threads := w.threads[t := Thread(op, Start)])
  {
    hide Next;
  }
}
