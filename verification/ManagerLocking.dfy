/** Who holds which of failoverMu, autoMu and switchMu, read off the program counters. */
module ManagerLocking {
  import opened Basics
  import opened ManagerSections
  import opened ManagerThreads

  datatype Lock = FailoverMu | AutoMu | SwitchMu

  function Holder(locks: Locks, l: Lock): Option<Tid> {
    match l
    case FailoverMu => locks.failover
    case AutoMu => locks.auto
    case SwitchMu => locks.switch
  }

  predicate Holds(l: Lock, pc: Pc) {
    match pc
    case Request(_) => false
    case Starting(_) => false
    case Service(_) => false
    case Candidate(_, c) => l.AutoMu? && !c.CandidateLock?
    case Loop(failover, p) => (l.AutoMu? && !p.LoopLock?) || (l.FailoverMu? && failover)
    case Activate(_, ret, a) =>
      (l.SwitchMu? && !a.SwitchLock?) || (l.AutoMu? && !ret.ToStart?) || (l.FailoverMu? && ret.ToLoop? && ret.failover)
    case Watch(_) => false
    case Failing(f) => (l.FailoverMu? && !f.FailoverLock?) || (l.AutoMu? && !f.FailoverLock? && !f.AutoLock?)
    case Shutdown(_) => false
  }

  predicate HoldsNext(l: Lock, pc: Option<Pc>) { pc.Some? && Holds(l, pc.value) }

  ghost predicate LocksMatch(s: State) {
    && (forall t :: t in s.threads ==> t < s.nextTid)
    && (forall l: Lock, t: Tid :: Holder(s.locks, l) == Some(t) <==> t in s.threads && Holds(l, s.threads[t].pc))
  }

  /** A step takes a lock only when it is free, for itself, and gives back only what it holds. */
  predicate LockStep(s: State, t: Tid, pc: Pc, m: Move, l: Lock) {
    && (m.spawn.Some? ==> !Holds(l, m.spawn.value))
    && if Holds(l, pc) == HoldsNext(l, m.next) then Holder(m.locks, l) == Holder(s.locks, l)
       else if Holds(l, pc) then Holder(m.locks, l).None?
       else Holder(s.locks, l).None? && Holder(m.locks, l) == Some(t)
  }

  lemma RequestLocks(s: State, t: Tid, r: RequestPc, o: Oracle, l: Lock)
    ensures LockStep(s, t, Request(r), RequestMove(s, r, o), l)
  {
  }

  lemma InstallLocks(s: State, t: Tid, job: Job, ret: Ret, sid: Sid, o: Oracle, l: Lock)
    ensures LockStep(s, t, Activate(job, ret, Installing(sid)), InstallMove(s, job, ret, sid, o), l)
  {
  }

  lemma EarlyLocks(s: State, t: Tid, job: Job, ret: Ret, a: ActivatePc, o: Oracle, l: Lock)
    requires CanRun(s, Activate(job, ret, a), o.flag)
    requires Early(a)
    ensures LockStep(s, t, Activate(job, ret, a), ActivateMove(s, t, job, ret, a, o), l)
  {
    hide InstallMove, ReturnTo;
  }

  lemma LateLocks(s: State, t: Tid, job: Job, ret: Ret, a: ActivatePc, o: Oracle, l: Lock)
    requires CanRun(s, Activate(job, ret, a), o.flag)
    requires !Early(a) && !a.Installing?
    ensures LockStep(s, t, Activate(job, ret, a), ActivateMove(s, t, job, ret, a, o), l)
  {
    hide InstallMove;
  }

  lemma ActivateLocks(s: State, t: Tid, job: Job, ret: Ret, a: ActivatePc, o: Oracle, l: Lock)
    requires CanRun(s, Activate(job, ret, a), o.flag)
    ensures LockStep(s, t, Activate(job, ret, a), ActivateMove(s, t, job, ret, a, o), l)
  {
    hide ActivateMove, InstallMove;
    if a.Installing? {
      InstallIsItsStep(s, t, job, ret, a.sid, o);
      InstallLocks(s, t, job, ret, a.sid, o, l);
    } else if Early(a) {
      EarlyLocks(s, t, job, ret, a, o, l);
    } else {
      LateLocks(s, t, job, ret, a, o, l);
    }
  }

  lemma LoopLocks(s: State, t: Tid, failover: bool, p: LoopPc, o: Oracle, l: Lock)
    requires CanRun(s, Loop(failover, p), o.flag)
    ensures LockStep(s, t, Loop(failover, p), LoopMove(s, t, failover, p, o), l)
  {
  }

  lemma FailingLocks(s: State, t: Tid, f: FailoverPc, o: Oracle, l: Lock)
    requires CanRun(s, Failing(f), o.flag)
    ensures LockStep(s, t, Failing(f), FailoverMove(s, t, f, o), l)
  {
  }

  lemma ShutdownLocks(s: State, t: Tid, x: ClosePc, l: Lock)
    ensures LockStep(s, t, Shutdown(x), ShutdownMove(s, x), l)
  {
  }

  lemma StartingLocks(s: State, t: Tid, b: StartPc, o: Oracle, l: Lock)
    ensures LockStep(s, t, Starting(b), StartMove(s, b, o), l)
  {
  }

  lemma ServiceLocks(s: State, t: Tid, v: ServicePc, o: Oracle, l: Lock)
    ensures LockStep(s, t, Service(v), ServiceMove(s, v, o), l)
  {
  }

  lemma MovesLock(s: State, t: Tid, pc: Pc, o: Oracle, l: Lock)
    requires CanRun(s, pc, o.flag)
    ensures LockStep(s, t, pc, MoveOf(s, t, pc, o), l)
  {
    hide RequestMove, LoopMove, ActivateMove, FailoverMove, ShutdownMove, StartMove, ServiceMove;
    match pc
    case Request(r) => RequestLocks(s, t, r, o, l);
    case Starting(b) => StartingLocks(s, t, b, o, l);
    case Service(v) => ServiceLocks(s, t, v, o, l);
    case Activate(job, ret, a) => ActivateLocks(s, t, job, ret, a, o, l);
    case Loop(failover, p) => LoopLocks(s, t, failover, p, o, l);
    case Failing(f) => FailingLocks(s, t, f, o, l);
    case Shutdown(x) => ShutdownLocks(s, t, x, l);
    case Candidate(_, _) =>
    case Watch(_) =>
  }

  lemma CommitLocks(s: State, t: Tid, m: Move)
    requires LocksMatch(s) && t in s.threads
    requires forall l :: LockStep(s, t, s.threads[t].pc, m, l)
    ensures LocksMatch(Commit(s, t, m))
  {
    hide ClosesAfter, NodesAfter, GensAfter, InstallsAfter;
    var s' := Commit(s, t, m);
    forall l: Lock, u: Tid
      ensures Holder(s'.locks, l) == Some(u) <==> u in s'.threads && Holds(l, s'.threads[u].pc)
    {
      assert LockStep(s, t, s.threads[t].pc, m, l);
      assert Holder(s.locks, l) == Some(t) <==> Holds(l, s.threads[t].pc);
      assert Holder(s.locks, l) == Some(u) <==> u in s.threads && Holds(l, s.threads[u].pc);
    }
  }
}
