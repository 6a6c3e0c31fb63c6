/** Identity operations running concurrently. Any number of threads bind, unbind, move the global
    pointer, update, delete, create and import, while other services work under the repository locks.
    The locks are taken in the order of the source: global, then repository. */
module IdentityInterleaving {
  import opened Wrappers
  import opened IdentityTransactions
  import opened IdentityWork

  type Tid = nat

  datatype World = World(
    data: Data,
    globalOwner: Option<Tid>,
    repoOwner: map<RepositoryId, Tid>,
    threads: map<Tid, Thread>)

  // ---- one step ----

  function SetPc(w: World, t: Tid, pc: Pc): World
    requires t in w.threads
  {
    w.(threads := w.threads[t := w.threads[t].(pc := pc)])
  }

  function TakeRepo(w: World, t: Tid): Option<World>
    requires t in w.threads && UsesRepo(w.threads[t].op)
  {
    var repo := w.threads[t].op.repo;
    if repo in w.repoOwner then None else Some(SetPc(w, t, Ready).(repoOwner := w.repoOwner[repo := t]))
  }

  /** Towards the critical section: the locks a thread still has to take. */
  function Enter(w: World, t: Tid): Option<World>
    requires t in w.threads
  {
    var op := w.threads[t].op;
    if w.threads[t].pc.Start? then
      if op.Create? then Some(SetPc(w, t, Storing))
      else if op.Foreign? then TakeRepo(w, t)
      else if w.globalOwner.Some? then None
      else Some(SetPc(w, t, HoldingGlobal).(globalOwner := Some(t)))
    else if UsesRepo(op) then TakeRepo(w, t)
    else Some(SetPc(w, t, Ready))
  }

  /** Out of it: the repository lock is given back first. */
  function Exit(w: World, t: Tid): Option<World>
    requires t in w.threads
  {
    var op := w.threads[t].op;
    match w.threads[t].pc
    case Finished(outcome) =>
      var unlocked := if UsesRepo(op) then w.(repoOwner := w.repoOwner - {op.repo}) else w;
      Some(SetPc(unlocked, t, if UsesGlobal(op) then Leaving(outcome) else Done(outcome)))
    case Leaving(outcome) => Some(SetPc(w, t, Done(outcome)).(globalOwner := None))
    case _ => None
  }

  predicate Working(pc: Pc) { Inside(pc) && !pc.Finished? }

  predicate Entering(pc: Pc) { pc.Start? || pc.HoldingGlobal? }

  /** What thread `t` can do next; `None` when it is blocked or done, or has no such choice. */
  function Next(w: World, t: Tid, choice: Choice): Option<World>
    requires t in w.threads
  {
    var th := w.threads[t];
    if Entering(th.pc) then Enter(w, t)
    else if Working(th.pc) then
      match Work(w.data, th.op, th.pc, choice)
      case None => None
      case Some(p) => Some(SetPc(w.(data := p.data), t, p.pc))
    else Exit(w, t)
  }

  /** A world step: a thread takes a step, or a new operation arrives. */
  ghost predicate Step(w: World, w': World) {
    || (exists t, choice :: t in w.threads && Next(w, t, choice) == Some(w'))
    || (exists t: Tid, op :: t !in w.threads && w' == w.(threads := w.threads[t := Thread(op, Start)]))
  }

  // ---- who holds which lock ----

  predicate HoldsGlobal(th: Thread) { UsesGlobal(th.op) && !th.pc.Start? && !th.pc.Done? }

  predicate HoldsItsRepo(th: Thread) { UsesRepo(th.op) && Inside(th.pc) }

  predicate HoldsRepo(th: Thread, repo: RepositoryId) { HoldsItsRepo(th) && th.op.repo == repo }

  ghost predicate LockInv(w: World) {
    && (forall t: Tid :: t in w.threads ==> PcFits(w.threads[t]))
    && (forall t: Tid :: w.globalOwner == Some(t) <==> t in w.threads && HoldsGlobal(w.threads[t]))
    && (forall t: Tid, repo: RepositoryId ::
          (repo in w.repoOwner && w.repoOwner[repo] == t) <==> (t in w.threads && HoldsRepo(w.threads[t], repo)))
  }

  /** `w'` differs from `w`, as far as locks go, by thread `t` moving to `th` and the owners following. */
  predicate LocksFollow(w: World, w': World, t: Tid, th: Thread)
    requires t in w.threads
  {
    var old' := w.threads[t];
    && th.op == old'.op && PcFits(th) && w'.threads == w.threads[t := th]
    && (if HoldsGlobal(th) == HoldsGlobal(old') then w'.globalOwner == w.globalOwner
        else if HoldsGlobal(th) then w.globalOwner == None && w'.globalOwner == Some(t)
        else w'.globalOwner == None)
    && (if HoldsItsRepo(th) == HoldsItsRepo(old') then w'.repoOwner == w.repoOwner
        else if HoldsItsRepo(th) then th.op.repo !in w.repoOwner && w'.repoOwner == w.repoOwner[th.op.repo := t]
        else w'.repoOwner == w.repoOwner - {th.op.repo})
  }

  lemma TakingMovesLocks(w: World, t: Tid)
    requires t in w.threads && UsesRepo(w.threads[t].op) && TakeRepo(w, t).Some?
    requires if UsesGlobal(w.threads[t].op) then w.threads[t].pc.HoldingGlobal? else w.threads[t].pc.Start?
    ensures t in TakeRepo(w, t).value.threads
    ensures LocksFollow(w, TakeRepo(w, t).value, t, TakeRepo(w, t).value.threads[t])
  {
  }

  lemma EnteringMovesLocks(w: World, t: Tid)
    requires t in w.threads && Entering(w.threads[t].pc) && PcFits(w.threads[t]) && Enter(w, t).Some?
    ensures t in Enter(w, t).value.threads && LocksFollow(w, Enter(w, t).value, t, Enter(w, t).value.threads[t])
  {
    hide TakeRepo;
    if UsesRepo(w.threads[t].op) && (w.threads[t].op.Foreign? || w.threads[t].pc.HoldingGlobal?) {
      TakingMovesLocks(w, t);
    }
  }

  lemma ExitingMovesLocks(w: World, t: Tid)
    requires t in w.threads && PcFits(w.threads[t]) && Exit(w, t).Some?
    ensures t in Exit(w, t).value.threads && LocksFollow(w, Exit(w, t).value, t, Exit(w, t).value.threads[t])
  {
  }

  lemma {:induction false} NextMovesLocks(w: World, t: Tid, choice: Choice)
    requires t in w.threads && PcFits(w.threads[t]) && Next(w, t, choice).Some?
    ensures t in Next(w, t, choice).value.threads
    ensures LocksFollow(w, Next(w, t, choice).value, t, Next(w, t, choice).value.threads[t])
  {
    hide Work, Enter, Exit;
    if Entering(w.threads[t].pc) {
      EnteringMovesLocks(w, t);
    } else if !Working(w.threads[t].pc) {
      ExitingMovesLocks(w, t);
    }
  }

  lemma FollowingKeepsLocks(w: World, w': World, t: Tid, th: Thread)
    requires LockInv(w) && t in w.threads && LocksFollow(w, w', t, th)
    ensures LockInv(w')
  {
    assert w.globalOwner == Some(t) <==> HoldsGlobal(w.threads[t]);
    forall u: Tid ensures w'.globalOwner == Some(u) <==> u in w'.threads && HoldsGlobal(w'.threads[u]) {
      assert w.globalOwner == Some(u) <==> u in w.threads && HoldsGlobal(w.threads[u]);
    }
    forall u: Tid, repo: RepositoryId
      ensures (repo in w'.repoOwner && w'.repoOwner[repo] == u) <==> (u in w'.threads && HoldsRepo(w'.threads[u], repo))
    {
      assert (repo in w.repoOwner && w.repoOwner[repo] == u) <==> (u in w.threads && HoldsRepo(w.threads[u], repo));
      assert (repo in w.repoOwner && w.repoOwner[repo] == t) <==> HoldsRepo(w.threads[t], repo);
    }
  }

  /** The fixed lock order cannot deadlock: as long as some operation is unfinished, some thread
      can step. */
  lemma NoDeadlock(w: World, waiting: Tid) returns (t: Tid)
    requires LockInv(w) && waiting in w.threads && !w.threads[waiting].pc.Done?
    ensures t in w.threads && Next(w, t, Go).Some?
  {
    t := waiting;
    if Next(w, t, Go).None? && w.threads[t].pc.Start? && !w.threads[t].op.Foreign? {
      t := w.globalOwner.value;
    }
    if Next(w, t, Go).None? {
      t := w.repoOwner[w.threads[t].op.repo];
    }
  }

  // ---- what every step keeps ----

  /** The thread that holds the global lock, if any. */
  function Holder(w: World): Option<Thread> {
    if w.globalOwner.Some? && w.globalOwner.value in w.threads then Some(w.threads[w.globalOwner.value]) else None
  }

  ghost predicate Inv(w: World) { LockInv(w) && DataInv(w.data, Holder(w)) }

  /** A holder that is not between a read and its use needs nothing of the data. */
  predicate AtEdge(holder: Option<Thread>) {
    holder.Some? ==>
      var pc := holder.value.pc;
      pc.Start? || pc.HoldingGlobal? || pc.Ready? || pc.Finished? || pc.Leaving? || pc.Done?
  }

  lemma MovingHolderKeepsData(d: Data, holder: Option<Thread>, holder': Option<Thread>)
    requires DataInv(d, holder)
    requires AtEdge(holder) && AtEdge(holder') && (holder'.Some? ==> UsesGlobal(holder'.value.op))
    ensures DataInv(d, holder')
  {
    hide HasLists, Expected, RowsValid;
    forall s ensures InStep(d, holder', s) { assert InStep(d, holder, s); }
  }

  /** Who holds the global lock after a step of thread `t`. */
  lemma HolderFollows(w: World, w': World, t: Tid, th: Thread)
    requires LockInv(w) && t in w.threads && LocksFollow(w, w', t, th)
    ensures HoldsGlobal(w.threads[t]) ==> Holder(w) == Some(w.threads[t])
    ensures HoldsGlobal(th) ==> Holder(w') == Some(th)
    ensures HoldsGlobal(w.threads[t]) && !HoldsGlobal(th) ==> Holder(w') == None
    ensures !HoldsGlobal(w.threads[t]) && HoldsGlobal(th) ==> Holder(w) == None
    ensures !HoldsGlobal(w.threads[t]) && !HoldsGlobal(th) ==> Holder(w') == Holder(w)
  {
    assert w.globalOwner == Some(t) <==> HoldsGlobal(w.threads[t]);
  }

  lemma WorkingKeepsData(w: World, t: Tid, choice: Choice)
    requires Inv(w) && t in w.threads && Working(w.threads[t].pc) && Next(w, t, choice).Some?
    ensures DataInv(Next(w, t, choice).value.data, Holder(Next(w, t, choice).value))
  {
    hide Work, DataInv, LockInv, LocksFollow, Holder;
    var th := w.threads[t];
    var w' := Next(w, t, choice).value;
    ThreadsFit(w, t);
    NextMovesLocks(w, t, choice);
    HolderFollows(w, w', t, w'.threads[t]);
    if UsesGlobal(th.op) {
      HolderWorkKeepsData(w.data, th, choice);
    } else {
      OtherWorkKeepsData(w.data, Holder(w), th, choice);
    }
  }

  lemma ThreadsFit(w: World, t: Tid)
    requires LockInv(w) && t in w.threads
    ensures PcFits(w.threads[t])
  {
  }

  /** Taking and releasing locks touches no data. */
  lemma EdgeIsIdle(w: World, t: Tid, choice: Choice)
    requires t in w.threads && !Working(w.threads[t].pc) && Next(w, t, choice).Some?
    ensures var w' := Next(w, t, choice).value;
            && w'.data == w.data && t in w'.threads && w'.threads[t].op == w.threads[t].op
            && AtEdge(Some(w.threads[t])) && (AtEdge(Some(w'.threads[t])) || !UsesGlobal(w.threads[t].op))
  {
    hide Work;
  }

  lemma EdgeKeepsData(w: World, t: Tid, choice: Choice)
    requires Inv(w) && t in w.threads && !Working(w.threads[t].pc) && Next(w, t, choice).Some?
    ensures DataInv(Next(w, t, choice).value.data, Holder(Next(w, t, choice).value))
  {
    hide Work, Next, DataInv, LockInv, LocksFollow, Holder;
    var w' := Next(w, t, choice).value;
    ThreadsFit(w, t);
    NextMovesLocks(w, t, choice);
    HolderFollows(w, w', t, w'.threads[t]);
    EdgeIsIdle(w, t, choice);
    if Holder(w') != Holder(w) { MovingHolderKeepsData(w.data, Holder(w), Holder(w')); }
  }

  lemma {:induction false} NextKeepsInv(w: World, t: Tid, choice: Choice)
    requires Inv(w) && t in w.threads && Next(w, t, choice).Some?
    ensures Inv(Next(w, t, choice).value)
  {
    hide Next, LockInv, DataInv, LocksFollow;
    ThreadsFit(w, t);
    NextMovesLocks(w, t, choice);
    FollowingKeepsLocks(w, Next(w, t, choice).value, t, Next(w, t, choice).value.threads[t]);
    if Working(w.threads[t].pc) { WorkingKeepsData(w, t, choice); } else { EdgeKeepsData(w, t, choice); }
  }

  lemma ArrivalKeepsInv(w: World, t: Tid, op: Op)
    requires Inv(w) && t !in w.threads
    ensures Inv(w.(threads := w.threads[t := Thread(op, Start)]))
  {
    var w' := w.(threads := w.threads[t := Thread(op, Start)]);
    assert w.globalOwner != Some(t);
  }
}
