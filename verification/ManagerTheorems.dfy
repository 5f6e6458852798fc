/** What the manager guarantees over every run, in every interleaving. */
module ManagerTheorems {
  import opened Basics
  import opened ManagerSections
  import opened ManagerThreads
  import opened ManagerOwnership
  import opened ManagerLocking
  import opened ManagerGenerations
  import opened ManagerRequests
  import opened ManagerInvariant
  import NodeTable

  // ----- sessions -----

  /** Every session a driver ever opened is in exactly one place, and no session is closed twice. */
  lemma SessionConservation(b: Boot, ls: seq<Label>, x: Sid)
    requires CanTake(Init(b), ls)
    requires x < Take(Init(b), ls).nextSid
    ensures var s := Take(Init(b), ls);
            s.closes[x] <= 1 && exists p :: At(s, x, p) && forall q :: At(s, x, q) ==> q == p
  {
    Reachable(b, ls);
    var s := Take(Init(b), ls);
    assert ClosedOnce(s, x) && Owned(s, x);
    var p :| At(s, x, p);
    assert forall q :: At(s, x, q) ==> q == p;
  }

  /** The closing thread c is the only caller left; the other threads are background tasks. */
  ghost predicate OnlyTasksBeside(s: State, c: Tid) {
    && (forall t :: t in s.threads && t != c ==> s.threads[t].task)
    && (c in s.threads ==> !s.threads[c].task && s.threads[c].pc.Shutdown?)
  }

  /** Close is past its wait: nothing else is left, and after the second sweep nothing is installed. */
  ghost predicate Winding(s: State, c: Tid) {
    && OnlyTasksBeside(s, c)
    && (c in s.threads
        && (s.threads[c].pc.x.SecondSweep? || s.threads[c].pc.x.CloseLate? || s.threads[c].pc.x.Returned?) ==>
         forall t :: t in s.threads ==> t == c)
    && (c in s.threads && (s.threads[c].pc.x.CloseLate? || s.threads[c].pc.x.Returned?) ==> s.sh.session.None?)
    && (c !in s.threads ==> s.threads == map[] && s.sh.session.None? && s.closing)
  }

  lemma TaskStepWinds(s: State, c: Tid, t: Tid, m: Move)
    requires Winding(s, c) && c < s.nextTid && t in s.threads && t != c
    requires m.spawn.Some? ==> !s.closing
    requires c in s.threads && !s.threads[c].pc.x.CloseCall? ==> s.closing
    ensures Winding(Commit(s, t, m), c)
  {
    hide ClosesAfter, NodesAfter, GensAfter, InstallsAfter;
  }

  lemma CloserStepWinds(s: State, c: Tid, o: Oracle)
    requires Winding(s, c) && c in s.threads && Enabled(s, Run(c, o)) && CloserOk(s, s.threads[c].pc)
    ensures Winding(Next(s, Run(c, o)), c)
  {
    hide ClosesAfter, NodesAfter, GensAfter, InstallsAfter, RequestMove, LoopMove, ActivateMove;
    hide FailoverMove, StartMove, ServiceMove;
  }

  lemma StepWinds(s: State, c: Tid, l: Label)
    requires Inv(s) && Winding(s, c) && c < s.nextTid && Enabled(s, l) && !l.Call?
    ensures Winding(Next(s, l), c) && c < Next(s, l).nextTid
  {
    match l
    case Run(t, o) =>
      if t == c {
        CloserStepWinds(s, c, o);
      } else {
        hide MoveOf;
        MovesOrderly(s, t, s.threads[t].pc, o);
        TaskStepWinds(s, c, t, MoveOf(s, t, s.threads[t].pc, o));
      }
    case _ =>
  }

  lemma {:induction false} RunWinds(s: State, c: Tid, ls: seq<Label>)
    requires Inv(s) && Winding(s, c) && c < s.nextTid && CanTake(s, ls)
    requires forall i :: 0 <= i < |ls| ==> !ls[i].Call?
    ensures Inv(Take(s, ls)) && Winding(Take(s, ls), c)
    decreases |ls|
  {
    hide Inv, Next, Enabled, Winding;
    if ls != [] {
      StepKeepsInv(s, ls[0]);
      StepWinds(s, c, ls[0]);
      assert forall i :: 0 <= i < |ls[1..]| ==> ls[1..][i] == ls[i + 1];
      RunWinds(Next(s, ls[0]), c, ls[1..]);
    }
  }

  /**
   Clean shutdown. If Close starts when only background tasks are running and nobody calls in afterwards, then when it
   is about to return no other thread is left, none can be spawned, and every session ever opened is closed exactly
   once, whatever was installed during the shutdown.
   */
  lemma CleanShutdown(s: State, c: Tid, ls: seq<Label>)
    requires Inv(s) && OnlyTasksBeside(s, c) && c in s.threads && s.threads[c].pc == Shutdown(CloseCall)
    requires CanTake(s, ls) && forall i :: 0 <= i < |ls| ==> !ls[i].Call?
    ensures var s' := Take(s, ls);
            c !in s'.threads || s'.threads[c].pc == Shutdown(Returned) ==>
              && (forall t :: t in s'.threads ==> t == c)
              && s'.closing && s'.sh.session.None?
              && (forall x: Sid :: x < s'.nextSid ==> s'.closes[x] == 1)
  {
    hide Inv, CanTake, Take, Winding;
    BeginsWinding(s, c);
    RunWinds(s, c, ls);
    var s' := Take(s, ls);
    if c !in s'.threads || s'.threads[c].pc == Shutdown(Returned) {
      WoundUp(s', c);
    }
  }

  lemma BeginsWinding(s: State, c: Tid)
    requires Inv(s) && OnlyTasksBeside(s, c) && c in s.threads && s.threads[c].pc == Shutdown(CloseCall)
    ensures Winding(s, c) && c < s.nextTid
  {
    hide Known, Pinned, Ordered, LocksMatch, Consistent;
  }

  lemma WoundUp(s: State, c: Tid)
    requires Inv(s) && Winding(s, c)
    requires c !in s.threads || s.threads[c].pc == Shutdown(Returned)
    ensures forall t :: t in s.threads ==> t == c
    ensures s.closing && s.sh.session.None?
    ensures forall x: Sid :: x < s.nextSid ==> s.closes[x] == 1
  {
    hide Known, Pinned, Ordered, LocksMatch, Consistent, Conserved;
    forall x: Sid | x < s.nextSid ensures s.closes[x] == 1 {
      NothingHeld(s, x);
    }
  }

  /** With no session installed and none in any thread's hands, every session is closed, once. */
  lemma NothingHeld(s: State, x: Sid)
    requires Conserved(s) && x < s.nextSid && s.sh.session.None?
    requires forall t :: t in s.threads ==> Hand(s.threads[t].pc).None?
    ensures s.closes[x] == 1
  {
    assert Owned(s, x) && ClosedOnce(s, x);
    var p :| At(s, x, p);
  }

  // ----- progress -----

  /** A watcher whose session is the installed one may wait for ever; every other wait is the manager's own affair. */
  predicate WatchesInstalled(s: State, pc: Pc) {
    pc.Watch? && pc.w.Waiting? && s.sh.session == Some(pc.w.sid) && !s.appDone
  }

  ghost predicate SomeoneRuns(s: State) {
    exists t :: t in s.threads && CanRun(s, s.threads[t].pc, false)
  }

  lemma HandsAreFree(s: State, t: Tid, x: Sid)
    requires At(s, x, InHand(t))
    ensures CanRun(s, s.threads[t].pc, false)
  {
  }

  lemma LockWaitersProgress(s: State, l: Lock)
    requires Inv(s) && Holder(s.locks, l).Some?
    ensures SomeoneRuns(s)
    decreases match l case FailoverMu => 2 case AutoMu => 1 case SwitchMu => 0
  {
    var h := Holder(s.locks, l).value;
    assert LocksMatch(s);
    assert h in s.threads && Holds(l, s.threads[h].pc);
    if !CanRun(s, s.threads[h].pc, false) {
      LockWaitersProgress(s, if s.threads[h].pc.Activate? then SwitchMu else AutoMu);
    }
  }

  lemma CallersProgress(s: State, u: Tid)
    requires Inv(s) && u in s.threads && !WatchesInstalled(s, s.threads[u].pc)
    requires !(s.threads[u].pc.Shutdown? && s.threads[u].pc.x.AwaitTasks?)
    ensures SomeoneRuns(s)
  {
    var pc := s.threads[u].pc;
    if !CanRun(s, pc, false) {
      match pc
      case Watch(Waiting(x, gen)) =>
        assert Tag(pc) == Some((x, gen));
        assert Owned(s, x);
        var p :| At(s, x, p);
        HandsAreFree(s, p.t, x);
      case Activate(_, _, _) => LockWaitersProgress(s, SwitchMu);
      case Failing(FailoverLock(_)) => LockWaitersProgress(s, FailoverMu);
      case _ => LockWaitersProgress(s, AutoMu);
    }
  }

  /**
   Deadlock freedom. As long as some thread is unfinished, other than watchers of a healthy installed session, some
   thread can step without any session dying by itself. In particular the wait of Close never depends on the session
   installed behind its first sweep: that one has no watcher.
   */
  lemma Progress(b: Boot, ls: seq<Label>, u: Tid)
    requires CanTake(Init(b), ls)
    requires var s := Take(Init(b), ls); u in s.threads && !WatchesInstalled(s, s.threads[u].pc)
    ensures SomeoneRuns(Take(Init(b), ls))
  {
    Reachable(b, ls);
    var s := Take(Init(b), ls);
    var pc := s.threads[u].pc;
    if CanRun(s, pc, false) {
    } else if pc.Shutdown? && pc.x.AwaitTasks? {
      var v :| v in s.threads && s.threads[v].task;
      assert Tag(s.threads[v].pc).Some? ==> Tag(s.threads[v].pc).value.0 in s.genOf;
      assert !WatchesInstalled(s, s.threads[v].pc);
      CallersProgress(s, v);
    } else {
      CallersProgress(s, u);
    }
  }

  // ----- generations and failover -----

  lemma StepRaisesGeneration(s: State, l: Label)
    requires Enabled(s, l)
    ensures var s' := Next(s, l);
            && s.sh.generation <= s'.sh.generation
            && (s'.sh.generation == s.sh.generation ==> s'.sh.session == s.sh.session)
  {
    if l.Run? {
      hide MoveOf, ClosesAfter, NodesAfter, GensAfter, InstallsAfter, ThreadsAfter;
      MovesGeneration(s, l.t, s.threads[l.t].pc, l.o);
    }
  }

  /** Along any run the generation never falls, and the same generation means the same session. */
  lemma {:induction false} GenerationPinsSession(s: State, ls: seq<Label>)
    requires CanTake(s, ls)
    ensures s.sh.generation <= Take(s, ls).sh.generation
    ensures Take(s, ls).sh.generation == s.sh.generation ==> Take(s, ls).sh.session == s.sh.session
    decreases |ls|
  {
    hide Next, Enabled;
    if ls != [] {
      StepRaisesGeneration(s, ls[0]);
      GenerationPinsSession(Next(s, ls[0]), ls[1..]);
    }
  }

  /** A watcher that still sees its own generation is looking at its own session. */
  lemma WatcherFailsItsOwnSession(s: State, t: Tid, o: Oracle)
    requires Inv(s) && t in s.threads && s.threads[t].pc.Watch? && s.threads[t].pc.w.Ended?
    ensures var s' := Next(s, Run(t, o));
            t in s'.threads ==>
              s'.threads[t].pc == Failing(FailoverLock(s'.sh.session)) && s'.sh.session == s.sh.session
  {
    var w := s.threads[t].pc.w;
    assert Tag(s.threads[t].pc) == Some((w.sid, w.gen));
  }

  lemma SessionStaysGone(s: State, l: Label, x: Sid)
    requires Inv(s) && Enabled(s, l) && x in s.genOf && s.sh.session != Some(x)
    ensures x in Next(s, l).genOf && Next(s, l).sh.session != Some(x)
  {
    hide MoveOf, ClosesAfter, NodesAfter, InstallsAfter, ThreadsAfter;
    if l.Run? {
      MovesGeneration(s, l.t, s.threads[l.t].pc, l.o);
    }
  }

  /** A session that was installed and then removed or replaced is never current again. */
  lemma {:induction false} SessionNeverReturns(s: State, ls: seq<Label>, x: Sid)
    requires Inv(s) && CanTake(s, ls) && x in s.genOf && s.sh.session != Some(x)
    ensures x in Take(s, ls).genOf && Take(s, ls).sh.session != Some(x)
    decreases |ls|
  {
    hide Inv, Next, Enabled;
    if ls != [] {
      SessionStaysGone(s, ls[0], x);
      StepKeepsInv(s, ls[0]);
      SessionNeverReturns(Next(s, ls[0]), ls[1..], x);
    }
  }

  /** Thread t is over, or still on its way to decide about a failover of session x. */
  predicate MayStillFail(s: State, t: Tid, x: Sid) {
    t < s.nextTid
    && (t in s.threads ==>
         && s.threads[t].pc.Failing?
         && match s.threads[t].pc.f
            case FailoverLock(expected) => expected == Some(x)
            case AutoLock(expected) => expected == Some(x)
            case Decide(expected) => expected == Some(x)
            case _ => false)
  }

  /** The step changes neither the shared state nor the table, opens and closes nothing, and starts no thread. */
  predicate Harmless(s: State, s': State) {
    && s'.sh == s.sh && s'.db == s.db && s'.closes == s.closes && s'.nextSid == s.nextSid && s'.nextTid == s.nextTid
    && s'.canceled == s.canceled
  }

  /** No step of thread t in ls has any effect. */
  predicate StaysSilent(s: State, ls: seq<Label>, t: Tid)
    requires CanTake(s, ls)
    decreases |ls|
  {
    ls != [] ==>
      && (ls[0].Run? && ls[0].t == t ==> Harmless(s, Next(s, ls[0])))
      && StaysSilent(Next(s, ls[0]), ls[1..], t)
  }

  /** A failover that names a session which is not current, or that finds the manager paused, decides to do nothing. */
  lemma SilentStep(s: State, t: Tid, o: Oracle, x: Sid)
    requires MayStillFail(s, t, x) && t in s.threads && (s.sh.session != Some(x) || s.sh.paused)
    ensures var s' := Next'(s, t, o); Harmless(s, s') && MayStillFail(s', t, x)
  {
    hide NodesAfter, GensAfter, InstallsAfter, RequestMove, LoopMove, ActivateMove, StartMove;
    hide ServiceMove, ShutdownMove;
  }

  lemma OthersKeepItWaiting(s: State, l: Label, t: Tid, x: Sid)
    requires Inv(s) && Enabled(s, l) && MayStillFail(s, t, x) && !(l.Run? && l.t == t)
    ensures MayStillFail(Next(s, l), t, x)
  {
    hide MoveOf, ClosesAfter, NodesAfter, GensAfter, InstallsAfter;
  }

  /**
   Once the session it names has been removed or replaced, a failover that has not decided yet never does anything, in
   any continuation: it may take its locks and give them back, and that is all.
   */
  lemma {:induction false} StaleFailoverIsSilent(s: State, ls: seq<Label>, t: Tid, x: Sid)
    requires Inv(s) && CanTake(s, ls) && MayStillFail(s, t, x)
    requires x in s.genOf && s.sh.session != Some(x)
    ensures StaysSilent(s, ls, t) && MayStillFail(Take(s, ls), t, x)
    decreases |ls|
  {
    hide Inv, Enabled, MayStillFail, Harmless;
    if ls != [] {
      StepKeepsInv(s, ls[0]);
      SessionStaysGone(s, ls[0], x);
      if ls[0].Run? && ls[0].t == t {
        SilentRun(s, ls[0], x);
      } else {
        hide Next;
        OthersKeepItWaiting(s, ls[0], t, x);
      }
      StaleFailoverIsSilent(Next(s, ls[0]), ls[1..], t, x);
    }
  }

  lemma SilentRun(s: State, l: Label, x: Sid)
    requires Enabled(s, l) && l.Run? && MayStillFail(s, l.t, x) && s.sh.session != Some(x)
    ensures Harmless(s, Next(s, l)) && MayStillFail(Next(s, l), l.t, x)
  {
    hide MoveOf, MayStillFail, Harmless;
    SilentStep(s, l.t, l.o, x);
  }

  /** Marking touches the failure columns of one row. */
  lemma MarkTouchesOneRow(s: State, t: Tid, o: Oracle, ip: Ip)
    requires t in s.threads && s.threads[t].pc.Failing? && s.threads[t].pc.f.Mark? && s.threads[t].pc.f.ip == ip
    ensures var db := Next'(s, t, o).db;
            && db.rows.Keys == s.db.rows.Keys && db.lastRefresh == s.db.lastRefresh
            && (forall q :: q in s.db.rows && q != ip ==> db.rows[q] == s.db.rows[q])
            && (ip in s.db.rows && ip != "" ==>
                 db.rows[ip] == s.db.rows[ip].(lastFailure := Some(o.now), failureReason := o.text))
  {
    hide ClosesAfter, NodesAfter, GensAfter, InstallsAfter;
    hide RequestMove, LoopMove, ActivateMove, StartMove, ServiceMove, ShutdownMove;
  }

  /**
   A failover that names a session and goes ahead marks the node that session was opened to: the failure columns of that
   row, and nothing else in the table.
   */
  lemma FailoverMarksItsSession(b: Boot, ls: seq<Label>, t: Tid, x: Sid, o: Oracle)
    requires CanTake(Init(b), ls)
    requires t in Take(Init(b), ls).threads
    requires var pc := Take(Init(b), ls).threads[t].pc; pc.Failing? && pc.f.Mark? && pc.f.target == Some(x)
    ensures var s := Take(Init(b), ls);
            var db := Next'(s, t, o).db;
            && x in s.nodeOf && s.nodeOf[x] == s.threads[t].pc.f.ip
            && db.rows.Keys == s.db.rows.Keys
            && (forall q :: q in s.db.rows && q != s.nodeOf[x] ==> db.rows[q] == s.db.rows[q])
            && (s.nodeOf[x] in s.db.rows && s.nodeOf[x] != "" ==>
                 db.rows[s.nodeOf[x]]
                 == s.db.rows[s.nodeOf[x]].(lastFailure := Some(o.now), failureReason := o.text))
  {
    hide Next', CanTake, Take;
    Reachable(b, ls);
    var s := Take(Init(b), ls);
    assert WellFormed(s.nodeOf, s.probed, s.threads[t].pc);
    MarkTouchesOneRow(s, t, o, s.threads[t].pc.f.ip);
  }

  // ----- route and selection -----

  /**
   Until Close sweeps, traffic has no route before the first change and exactly one afterwards: the installed session
   or the direct network. While paused that route is direct.
   */
  lemma SingleRoute(b: Boot, ls: seq<Label>)
    requires CanTake(Init(b), ls)
    ensures var s := Take(Init(b), ls);
            && (!s.swept ==> if s.sh.generation == 0 then s.sh.session.None? && !s.sh.directMode
                             else s.sh.session.Some? <==> !s.sh.directMode)
            && (s.sh.paused ==> s.sh.directMode && s.sh.session.None?)
  {
    Reachable(b, ls);
  }

  /** Direct routing ends only in the step that installs a session, so resuming leaves no gap. */
  lemma DirectEndsWithInstall(s: State, l: Label)
    requires Inv(s) && Enabled(s, l) && s.sh.directMode && !Next(s, l).sh.directMode
    ensures s.sh.session != Next(s, l).sh.session && Next(s, l).sh.session.Some?
  {
    hide MoveOf, ClosesAfter, NodesAfter, GensAfter, InstallsAfter, ThreadsAfter, WellFormed;
    if l.Run? {
      var pc := s.threads[l.t].pc;
      MovesRoute(s, l.t, pc, l.o);
      MovesGeneration(s, l.t, pc, l.o);
      assert At(s, Unused(pc).value, InHand(l.t));
      assert s.sh.session.Some? ==> At(s, s.sh.session.value, Installed);
    }
  }

  /**
   "auto" carries no manual choice; a manual selection with a session names that session's node, and that session has
   passed its health probe. The recorded node is the endpoint the session was opened to.
   */
  lemma SelectionConsistent(b: Boot, ls: seq<Label>)
    requires CanTake(Init(b), ls)
    ensures var s := Take(Init(b), ls);
            && (s.sh.selection.Auto? ==> s.sh.manualIP == "" && s.sh.manualProtocol == "")
            && (s.sh.session.Some? ==>
                 && s.sh.session.value in s.nodeOf && s.nodeOf[s.sh.session.value] == s.sh.node
                 && (s.sh.selection.Manual? ==> s.sh.manualIP == s.sh.node && s.sh.session.value in s.probed))
  {
    Reachable(b, ls);
  }

  /** The phase of an activation: it can still fail, or it has switched the route. */
  predicate MayFail(pc: Pc) { pc.Activate? && !Succeeded(pc) }

  predicate Transacts(s: State, pc: Pc, m: Move) {
    && (RouteOf(m.sh) != RouteOf(s.sh) ==>
         MayFail(pc) && m.sh.session == Unused(pc) && m.next.Some? && Succeeded(m.next.value))
    && (Succeeded(pc) && m.next.Some? ==> Succeeded(m.next.value) || !m.next.value.Activate?)
  }

  lemma InstallTransacts(s: State, job: Job, ret: Ret, sid: Sid, o: Oracle)
    ensures Transacts(s, Activate(job, ret, Installing(sid)), InstallMove(s, job, ret, sid, o))
  {
  }

  lemma ActivateTransacts(s: State, t: Tid, job: Job, ret: Ret, a: ActivatePc, o: Oracle)
    ensures Transacts(s, Activate(job, ret, a), ActivateMove(s, t, job, ret, a, o))
  {
    hide InstallMove;
    if a.Installing? {
      InstallTransacts(s, job, ret, a.sid, o);
    }
  }

  /**
   Transactional switch. A step of an activation changes the route only by installing its session, and from then on
   the activation ends without an error; so an activation that returns an error has never touched the route.
   */
  lemma SwitchIsTransactional(s: State, t: Tid, o: Oracle)
    requires Inv(s) && t in s.threads && s.threads[t].pc.Activate?
    ensures var s', pc := Next'(s, t, o), s.threads[t].pc;
            && (RouteOf(s'.sh) != RouteOf(s.sh) ==>
                 MayFail(pc) && s'.sh.session == Unused(pc) && t in s'.threads && Succeeded(s'.threads[t].pc))
            && (Succeeded(pc) && t in s'.threads ==> Succeeded(s'.threads[t].pc) || !s'.threads[t].pc.Activate?)
            && (pc.a == Unlock(false) ==> !Succeeded(pc))
  {
    hide ClosesAfter, NodesAfter, GensAfter, InstallsAfter, ActivateMove, Unused;
    var pc := s.threads[t].pc;
    ActivateTransacts(s, t, pc.job, pc.ret, pc.a, o);
  }

  /** Thread t stays inside its activation, or does not run, along ls. */
  predicate StaysInside(s: State, ls: seq<Label>, t: Tid)
    requires CanTake(s, ls)
    decreases |ls|
  {
    && t in s.threads && s.threads[t].pc.Activate?
    && (ls == [] || StaysInside(Next(s, ls[0]), ls[1..], t))
  }

  /** No step of thread t in ls writes the route. */
  predicate NeverRoutes(s: State, ls: seq<Label>, t: Tid)
    requires CanTake(s, ls)
    decreases |ls|
  {
    ls != [] ==>
      && (ls[0].Run? && ls[0].t == t ==> RouteOf(Next(s, ls[0]).sh) == RouteOf(s.sh))
      && NeverRoutes(Next(s, ls[0]), ls[1..], t)
  }

  lemma OthersLeaveThread(s: State, l: Label, t: Tid)
    requires Inv(s) && Enabled(s, l) && t in s.threads && !(l.Run? && l.t == t)
    ensures t in Next(s, l).threads && Next(s, l).threads[t] == s.threads[t]
  {
    hide MoveOf, ClosesAfter, NodesAfter, GensAfter, InstallsAfter;
  }

  /** An activation that has not succeeded at the end of a stretch of a run never wrote the route in that stretch. */
  lemma {:induction false} FailedActivationNeverRouted(s: State, ls: seq<Label>, t: Tid)
    requires Inv(s) && CanTake(s, ls) && StaysInside(s, ls, t)
    requires t in Take(s, ls).threads && MayFail(Take(s, ls).threads[t].pc)
    ensures MayFail(s.threads[t].pc) && NeverRoutes(s, ls, t)
    decreases |ls|
  {
    if ls != [] {
      var s' := Next(s, ls[0]);
      hide Inv, Enabled, CanTake, Succeeded;
      StepKeepsInv(s, ls[0]);
      FailedActivationNeverRouted(s', ls[1..], t);
      if ls[0].Run? && ls[0].t == t {
        assert s' == Next'(s, t, ls[0].o);
        hide Next, Next';
        SwitchIsTransactional(s, t, ls[0].o);
      } else {
        hide Next;
        OthersLeaveThread(s, ls[0], t);
      }
    }
  }

  function Next'(s: State, t: Tid, o: Oracle): State
    requires t in s.threads
  {
    Commit(s, t, MoveOf(s, t, s.threads[t].pc, o))
  }

  // ----- candidate attempts -----

  /**
   Newest request wins. Candidates install in strictly increasing attempt order, and nothing is shown as connecting,
   and no cancel function kept, unless the current attempt is live.
   */
  lemma NewestRequestWins(b: Boot, ls: seq<Label>)
    requires CanTake(Init(b), ls)
    ensures var s := Take(Init(b), ls);
            && Increasing(s.installs)
            && ((forall t :: t in s.threads ==> AttemptOf(s.threads[t].pc) == 0) ==>
                 s.sh.connectingIP == "" && s.sh.cancelConnect.None?)
  {
    Reachable(b, ls);
  }

  lemma SupersededActivation(s: State, t: Tid, job: Job, a: ActivatePc, o: Oracle)
    requires JobOk(job) && 0 < job.attempt < s.sh.connectAttempt
    ensures ActivateMove(s, t, job, ToCandidate, a, o).sh == s.sh
  {
  }

  /** A superseded candidate never writes the shared state again: no install, no error, no connecting address. */
  lemma SupersededCandidateIsSilent(s: State, t: Tid, o: Oracle)
    requires Inv(s) && t in s.threads && 0 < AttemptOf(s.threads[t].pc) < s.sh.connectAttempt
    ensures Next'(s, t, o).sh == s.sh
  {
    hide ClosesAfter, NodesAfter, GensAfter, InstallsAfter, ThreadsAfter;
    hide LoopMove, StartMove, ServiceMove, ShutdownMove, FailoverMove, ActivateMove;
    assert WellFormed(s.nodeOf, s.probed, s.threads[t].pc);
    match s.threads[t].pc
    case Activate(job, ToCandidate, a) => SupersededActivation(s, t, job, a, o);
    case _ =>
  }

  lemma InstallsGrow(s: State, l: Label)
    requires Inv(s) && Enabled(s, l)
    ensures var s' := Next(s, l);
            && s.sh.connectAttempt <= s'.sh.connectAttempt
            && (s'.installs == s.installs || s'.installs == s.installs + [s.sh.connectAttempt])
  {
    if l.Run? {
      hide MoveOf, ClosesAfter, NodesAfter, GensAfter, ThreadsAfter, Succeeded;
      MovesAttempt(s, l.t, s.threads[l.t].pc, l.o);
    }
  }

  /** Once a newer request, a pause or Close has superseded an attempt, that attempt never installs. */
  lemma {:induction false} SupersededNeverInstalls(s: State, ls: seq<Label>, attempt: nat)
    requires Inv(s) && CanTake(s, ls) && attempt < s.sh.connectAttempt && attempt !in s.installs
    ensures attempt !in Take(s, ls).installs
    decreases |ls|
  {
    hide Inv, Next, Enabled;
    if ls != [] {
      InstallsGrow(s, ls[0]);
      StepKeepsInv(s, ls[0]);
      SupersededNeverInstalls(Next(s, ls[0]), ls[1..], attempt);
    }
  }

  // ----- the health check before a switch -----

  /** A session about to be installed has passed its probe exactly when the activation asks for one. */
  lemma ProbedIffRequired(b: Boot, ls: seq<Label>, t: Tid)
    requires CanTake(Init(b), ls)
    requires t in Take(Init(b), ls).threads
    requires var pc := Take(Init(b), ls).threads[t].pc; pc.Activate? && pc.a.Installing?
    ensures var s := Take(Init(b), ls);
            s.threads[t].pc.a.sid in s.probed <==> s.threads[t].pc.job.requireHealth
  {
    Reachable(b, ls);
    var s := Take(Init(b), ls);
    assert WellFormed(s.nodeOf, s.probed, s.threads[t].pc);
  }

  lemma {:induction false} TakeOneMore(s: State, ls: seq<Label>, l: Label)
    requires CanTake(s, ls) && Enabled(Take(s, ls), l)
    ensures CanTake(s, ls + [l]) && Take(s, ls + [l]) == Next(Take(s, ls), l)
    decreases |ls|
  {
    hide Enabled, Next;
    if ls == [] {
      assert [l][1..] == [];
      assert CanTake(Next(s, l), []) && Take(Next(s, l), []) == Next(s, l);
    } else {
      TakeOneMore(Next(s, ls[0]), ls[1..], l);
      assert (ls + [l])[1..] == ls[1..] + [l];
    }
  }

  lemma EmptyRun(s: State)
    ensures CanTake(s, []) && Take(s, []) == s
  {
  }

  /** Thread 0, alone and automatic, at pc, with nothing installed, probed or closed yet. */
  predicate Solo(s: State, pc: Pc, auto: bool, switch: bool, dialed: bool) {
    && s.threads == map[0 := Thread(false, pc)] && s.nextTid == 1
    && s.locks == Locks(None, if auto then Some(0) else None, if switch then Some(0) else None)
    && s.nextSid == (if dialed then 1 else 0) && s.nextToken <= 1
    && !s.sh.paused && s.sh.session.None? && s.sh.selection.Auto? && s.sh.node == ""
    && !s.appDone && s.canceled == {} && s.probed == {}
  }

  const AUTO_JOB := Job("192.0.2.1", Auto, false, 0, "", 0)

  function SoloPc(n: nat): Pc {
    match n
    case 0 => Loop(false, LoopLock)
    case 1 => Loop(false, LoopEnter)
    case 2 => Loop(false, LoopNodes(0))
    case 3 => Loop(false, LoopNext(["192.0.2.1"], 0))
    case 4 => Activate(AUTO_JOB, ToLoop([], 0, false), SwitchLock)
    case 5 => Activate(AUTO_JOB, ToLoop([], 0, false), Announce)
    case 6 => Activate(AUTO_JOB, ToLoop([], 0, false), Connect)
    case 7 => Activate(AUTO_JOB, ToLoop([], 0, false), Ready(0))
    case _ => Activate(AUTO_JOB, ToLoop([], 0, false), Installing(0))
  }

  const LUCKY := Oracle(true, false, ["192.0.2.1"], "", 0)

  lemma SoloLoopStep(s: State, n: nat)
    requires n < 4 && Solo(s, SoloPc(n), n > 0, false, false) && (n < 2 ==> s.nextToken == 0)
    ensures Enabled(s, Run(0, LUCKY))
    ensures var s' := Next(s, Run(0, LUCKY));
            Solo(s', SoloPc(n + 1), true, false, false) && (n == 0 ==> s'.nextToken == 0)
  {
    hide RequestMove, StartMove, ServiceMove, ShutdownMove, FailoverMove, CandidateMove, WatchMove, ActivateMove;
    hide ClosesAfter, NodesAfter, GensAfter, InstallsAfter;
    assert ["192.0.2.1"][1..] == [];
  }

  lemma SoloActivateStep(s: State, n: nat)
    requires 4 <= n < 8 && Solo(s, SoloPc(n), true, n > 4, n > 6)
    ensures Enabled(s, Run(0, LUCKY))
    ensures Solo(Next(s, Run(0, LUCKY)), SoloPc(n + 1), true, true, n > 5)
  {
    hide RequestMove, StartMove, ServiceMove, ShutdownMove, FailoverMove, CandidateMove, WatchMove;
    hide LoopMove, InstallMove;
  }

  lemma {:induction false} SoloRun(db: NodeTable.Db, drivers: set<string>, n: nat) returns (ls: seq<Label>)
    requires n <= 8
    ensures CanTake(Init(Boot(None, db, drivers)), ls)
    ensures var s := Take(Init(Boot(None, db, drivers)), ls);
            Solo(s, SoloPc(n), n > 0, n > 4, n > 6) && (n < 2 ==> s.nextToken == 0)
  {
    var s0 := Init(Boot(None, db, drivers));
    hide CanTake, Take, MoveOf;
    if n == 0 {
      EmptyRun(s0);
      TakeOneMore(s0, [], Call(SoloPc(0)));
      ls := [] + [Call(SoloPc(0))];
    } else {
      hide SoloPc;
      ls := SoloRun(db, drivers, n - 1);
      if n - 1 < 4 {
        SoloLoopStep(Take(s0, ls), n - 1);
      } else {
        SoloActivateStep(Take(s0, ls), n - 1);
      }
      TakeOneMore(s0, ls, Run(0, LUCKY));
      ls := ls + [Run(0, LUCKY)];
    }
  }

  /**
   The project promises a health check before every switch. Automatic switches make none: here is a run that installs
   a session which was never probed.
   */
  lemma AutomaticSwitchIsUnprobed(db: NodeTable.Db, drivers: set<string>) returns (ls: seq<Label>)
    ensures CanTake(Init(Boot(None, db, drivers)), ls)
    ensures var s := Take(Init(Boot(None, db, drivers)), ls);
            s.sh.session == Some(0) && s.sh.selection == Auto && 0 !in s.probed
  {
    ls := SoloRun(db, drivers, 8);
    var s0 := Init(Boot(None, db, drivers));
    hide CanTake, Take;
    TakeOneMore(s0, ls, Run(0, LUCKY));
    ls := ls + [Run(0, LUCKY)];
  }
}
