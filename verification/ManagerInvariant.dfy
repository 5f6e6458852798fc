/** The invariant of every reachable manager state, and what it says about deadlock, shutdown and failover. */
module ManagerInvariant {
  import opened Basics
  import opened ManagerSections
  import opened ManagerThreads
  import opened ManagerOwnership
  import opened ManagerLocking
  import opened ManagerGenerations
  import opened ManagerRequests
  import NodeTable

  /** What may run as a background task. */
  predicate TaskPc(pc: Pc) {
    !pc.Request? && !pc.Starting? && !pc.Service? && !pc.Shutdown? && !(pc.Activate? && pc.ret.ToStart?)
  }

  predicate CloserOk(s: State, pc: Pc) {
    pc.Shutdown? && !pc.x.CloseCall? ==> s.closing && (!pc.x.FirstSweep? ==> s.swept)
  }

  ghost predicate Orderly(s: State) {
    && (s.swept ==> s.closing)
    && (forall t :: t in s.threads && s.threads[t].task ==> TaskPc(s.threads[t].pc))
    && (forall t :: t in s.threads ==> CloserOk(s, s.threads[t].pc))
    && (forall t :: t in s.threads && s.threads[t].pc.Watch? && s.swept ==> s.threads[t].pc.w.gen < s.sh.generation)
  }

  predicate OrderlyStep(s: State, pc: Pc, m: Move) {
    && (m.spawn.Some? ==> !s.closing && TaskPc(m.spawn.value))
    && (m.next.Some? && TaskPc(pc) ==> TaskPc(m.next.value))
    && (s.closing ==> m.closing)
    && s.sh.generation <= m.sh.generation
    && (m.sweeps ==> m.spawn.None? && m.closing && m.sh.generation == s.sh.generation + 1)
    && (m.next.Some? && m.next.value.Shutdown? ==> m.closing && (m.next.value.x.FirstSweep? || s.swept || m.sweeps))
    && (m.next.Some? && m.next.value.Watch? ==> pc.Watch? && m.next.value.w.gen == pc.w.gen)
  }

  lemma RequestOrderly(s: State, r: RequestPc, o: Oracle)
    ensures OrderlyStep(s, Request(r), RequestMove(s, r, o))
  {
  }

  lemma LoopOrderly(s: State, t: Tid, failover: bool, l: LoopPc, o: Oracle)
    ensures OrderlyStep(s, Loop(failover, l), LoopMove(s, t, failover, l, o))
  {
  }

  lemma ActivateOrderly(s: State, t: Tid, job: Job, ret: Ret, a: ActivatePc, o: Oracle)
    ensures OrderlyStep(s, Activate(job, ret, a), ActivateMove(s, t, job, ret, a, o))
  {
  }

  lemma FailingOrderly(s: State, t: Tid, f: FailoverPc, o: Oracle)
    ensures OrderlyStep(s, Failing(f), FailoverMove(s, t, f, o))
  {
  }

  lemma ShutdownOrderly(s: State, x: ClosePc)
    requires CloserOk(s, Shutdown(x))
    ensures OrderlyStep(s, Shutdown(x), ShutdownMove(s, x))
  {
  }

  lemma StartingOrderly(s: State, b: StartPc, o: Oracle)
    ensures OrderlyStep(s, Starting(b), StartMove(s, b, o))
  {
  }

  lemma ServiceOrderly(s: State, v: ServicePc, o: Oracle)
    ensures OrderlyStep(s, Service(v), ServiceMove(s, v, o))
  {
  }

  lemma MovesOrderly(s: State, t: Tid, pc: Pc, o: Oracle)
    requires CloserOk(s, pc)
    ensures OrderlyStep(s, pc, MoveOf(s, t, pc, o))
  {
    hide RequestMove, LoopMove, ActivateMove, FailoverMove, ShutdownMove, StartMove, ServiceMove;
    match pc
    case Request(r) => RequestOrderly(s, r, o);
    case Loop(failover, l) => LoopOrderly(s, t, failover, l, o);
    case Activate(job, ret, a) => ActivateOrderly(s, t, job, ret, a, o);
    case Failing(f) => FailingOrderly(s, t, f, o);
    case Shutdown(x) => ShutdownOrderly(s, x);
    case Starting(b) => StartingOrderly(s, b, o);
    case Service(v) => ServiceOrderly(s, v, o);
    case Candidate(_, _) =>
    case Watch(_) =>
  }

  lemma CommitOrderly(s: State, t: Tid, m: Move)
    requires Orderly(s) && Pinned(s) && t in s.threads && OrderlyStep(s, s.threads[t].pc, m)
    ensures Orderly(Commit(s, t, m))
  {
    hide ClosesAfter, NodesAfter, GensAfter, InstallsAfter;
    var s' := Commit(s, t, m);
    forall u | u in s'.threads && s'.threads[u].pc.Watch? && s'.swept
      ensures s'.threads[u].pc.w.gen < s'.sh.generation
    {
      if m.spawn.Some? && u == s.nextTid {
      } else {
        assert s.threads[u].pc.Watch? && s.threads[u].pc.w.gen == s'.threads[u].pc.w.gen;
        assert Tag(s.threads[u].pc) == Some((s.threads[u].pc.w.sid, s.threads[u].pc.w.gen));
      }
    }
  }

  ghost predicate Inv(s: State) {
    && Conserved(s)
    && LocksMatch(s)
    && Pinned(s)
    && Consistent(s.sh, s.swept)
    && Known(s)
    && Ordered(s)
    && Orderly(s)
  }

  lemma CommitConsistent(s: State, t: Tid, m: Move)
    requires t in s.threads && RouteStep(s, m)
    ensures Consistent(Commit(s, t, m).sh, Commit(s, t, m).swept)
  {
  }

  lemma RunKeepsInv(s: State, t: Tid, o: Oracle)
    requires Inv(s) && Enabled(s, Run(t, o))
    ensures Inv(Next(s, Run(t, o)))
  {
    hide MoveOf, Commit, Balanced, LockStep, GenerationStep, RouteStep, KnownStep, AttemptStep, OrderlyStep;
    var pc := s.threads[t].pc;
    var m := MoveOf(s, t, pc, o);
    assert Remembered(pc).Some? ==> At(s, Remembered(pc).value, Closed);
    assert s.sh.session.Some? ==> At(s, s.sh.session.value, Installed);
    MovesBalance(s, t, pc, o);
    CommitConserves(s, t, m);
    forall l ensures LockStep(s, t, pc, m, l) {
      MovesLock(s, t, pc, o, l);
    }
    CommitLocks(s, t, m);
    MovesGeneration(s, t, pc, o);
    CommitPinned(s, t, m);
    MovesRoute(s, t, pc, o);
    MovesKnown(s, t, pc, o);
    CommitKnown(s, t, m);
    MovesAttempt(s, t, pc, o);
    CommitNumbered(s, t, m);
    CommitInOrder(s, t, m);
    CommitTidy(s, t, m);
    MovesOrderly(s, t, pc, o);
    CommitOrderly(s, t, m);
    CommitConsistent(s, t, m);
  }

  /** s' differs from s only in the database, in cancellations, and perhaps in one new caller that owns nothing. */
  predicate Quiet(s: State, s': State) {
    && s' == s.(threads := s'.threads, nextTid := s'.nextTid, db := s'.db,
                canceled := s'.canceled, appDone := s'.appDone)
    && if s'.nextTid == s.nextTid then s'.threads == s.threads
       else
         && s'.nextTid == s.nextTid + 1
         && s.nextTid in s'.threads
         && IsCall(s'.threads[s.nextTid].pc)
         && s'.threads == s.threads[s.nextTid := Thread(false, s'.threads[s.nextTid].pc)]
  }

  lemma QuietConserves(s: State, s': State)
    requires Conserved(s) && Quiet(s, s')
    ensures Conserved(s')
  {
    assert forall x: Sid, p: Place :: At(s', x, p) <==> At(s, x, p);
    assert forall x: Sid :: ClosedOnce(s, x) ==> ClosedOnce(s', x);
    forall x: Sid | x < s'.nextSid ensures Owned(s', x) {
      assert Owned(s, x);
    }
  }

  lemma QuietOrders(s: State, s': State)
    requires Ordered(s) && Quiet(s, s')
    ensures Ordered(s')
  {
    if !NotConnecting(s.sh) {
      assert Outstanding(s, s.sh.connectAttempt);
      var u :| u in s.threads && AttemptOf(s.threads[u].pc) == s.sh.connectAttempt;
      assert u in s'.threads && AttemptOf(s'.threads[u].pc) == s.sh.connectAttempt;
    }
  }

  lemma QuietLocks(s: State, s': State)
    requires LocksMatch(s) && Quiet(s, s')
    ensures LocksMatch(s')
  {
  }

  lemma QuietKnows(s: State, s': State)
    requires Pinned(s) && Known(s) && Quiet(s, s')
    ensures Pinned(s') && Known(s')
  {
  }

  lemma QuietIsOrderly(s: State, s': State)
    requires Orderly(s) && Quiet(s, s')
    ensures Orderly(s') && s'.sh == s.sh && s'.swept == s.swept
  {
  }

  lemma QuietKeepsInv(s: State, s': State)
    requires Inv(s) && Quiet(s, s')
    ensures Inv(s')
  {
    hide Conserved, Ordered, LocksMatch, Pinned, Known, Orderly, Consistent, Quiet;
    QuietConserves(s, s');
    QuietOrders(s, s');
    QuietLocks(s, s');
    QuietKnows(s, s');
    QuietIsOrderly(s, s');
  }

  lemma OthersAreQuiet(s: State, l: Label)
    requires Enabled(s, l) && !l.Run?
    ensures Quiet(s, Next(s, l))
  {
  }

  lemma StepKeepsInv(s: State, l: Label)
    requires Inv(s) && Enabled(s, l)
    ensures Inv(Next(s, l))
  {
    hide Inv;
    match l
    case Run(t, o) => RunKeepsInv(s, t, o);
    case _ =>
      OthersAreQuiet(s, l);
      QuietKeepsInv(s, Next(s, l));
  }

  lemma {:induction false} RunsKeepInv(s: State, ls: seq<Label>)
    requires Inv(s) && CanTake(s, ls)
    ensures Inv(Take(s, ls))
    decreases |ls|
  {
    hide Inv, Next, Enabled;
    if ls != [] {
      StepKeepsInv(s, ls[0]);
      RunsKeepInv(Next(s, ls[0]), ls[1..]);
    }
  }

  lemma Reachable(b: Boot, ls: seq<Label>)
    requires CanTake(Init(b), ls)
    ensures Inv(Take(Init(b), ls))
  {
    assert Inv(Init(b));
    RunsKeepInv(Init(b), ls);
  }
}
