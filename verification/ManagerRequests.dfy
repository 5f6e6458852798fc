/**
 What the selection, the route and the recorded endpoint of a session are worth, and the order of candidate attempts.
 */
module ManagerRequests {
  import opened Basics
  import opened ManagerSections
  import opened ManagerThreads
  import opened ManagerGenerations
  import opened ManagerOwnership

  // ----- selection and route -----

  predicate Consistent(sh: Shared, swept: bool) {
    && (sh.selection.Auto? ==> sh.manualIP == "" && sh.manualProtocol == "")
    && (sh.selection.Manual? && sh.session.Some? ==> sh.manualIP == sh.node)
    && (sh.paused ==> sh.directMode && sh.session.None?)
    && (!swept && sh.generation == 0 ==> sh.session.None? && !sh.directMode)
    && (!swept && sh.generation > 0 ==> sh.session.Some? != sh.directMode)
  }

  predicate RouteStep(s: State, m: Move) {
    && Consistent(m.sh, s.swept || m.sweeps)
    && (s.sh.directMode && !m.sh.directMode ==> m.installs.Some?)
  }

  /** The critical sections of requests keep selection and route together. */
  lemma SectionsRoute(sh: Shared, swept: bool, ip: Ip, tok: Token, attempt: nat, err: Option<string>)
    requires Consistent(sh, swept)
    ensures Consistent(BeginCandidate(sh, ip, tok), swept) && Consistent(FinishCandidate(sh, attempt, err), swept)
    ensures Consistent(Pause(sh), swept) && Consistent(Resume(sh), swept) && Consistent(SetAutomatic(sh), swept)
    ensures BeginCandidate(sh, ip, tok).directMode == sh.directMode
    ensures FinishCandidate(sh, attempt, err).directMode == sh.directMode
    ensures Pause(sh).directMode && Resume(sh).directMode == sh.directMode
              && SetAutomatic(sh).directMode == sh.directMode
  {
  }

  lemma RequestRoute(s: State, r: RequestPc, o: Oracle)
    requires Consistent(s.sh, s.swept)
    ensures RouteStep(s, RequestMove(s, r, o))
  {
    hide Consistent, BeginCandidate, FinishCandidate, Pause, Resume, SetAutomatic, Accepts;
    match r
    case Select(ip, _, _) => SectionsRoute(s.sh, s.swept, ip, s.nextToken, 0, None);
    case AbortCandidate(job) =>
      SectionsRoute(s.sh, s.swept, "", 0, job.attempt, Some("VPN manager is shutting down"));
    case PauseCall => SectionsRoute(s.sh, s.swept, "", 0, 0, None);
    case ResumeCall => SectionsRoute(s.sh, s.swept, "", 0, 0, None);
    case ResumeReset => SectionsRoute(s.sh, s.swept, "", 0, 0, None);
    case SpawnCandidate(_) =>
    case PauseClose(_) =>
    case ResumeLookup(_, _, _) =>
    case SpawnAutomatic =>
  }

  lemma ActivateRoute(s: State, t: Tid, job: Job, ret: Ret, a: ActivatePc, o: Oracle)
    requires Consistent(s.sh, s.swept)
    ensures RouteStep(s, ActivateMove(s, t, job, ret, a, o))
  {
  }

  lemma LoopRoute(s: State, t: Tid, failover: bool, l: LoopPc, o: Oracle)
    requires Consistent(s.sh, s.swept)
    ensures RouteStep(s, LoopMove(s, t, failover, l, o))
  {
  }

  lemma FailingRoute(s: State, t: Tid, f: FailoverPc, o: Oracle)
    requires Consistent(s.sh, s.swept)
    ensures RouteStep(s, FailoverMove(s, t, f, o))
  {
  }

  lemma ShutdownRoute(s: State, x: ClosePc)
    requires Consistent(s.sh, s.swept) && (x.SecondSweep? ==> s.swept)
    ensures RouteStep(s, ShutdownMove(s, x))
  {
  }

  lemma StartingRoute(s: State, b: StartPc, o: Oracle)
    requires Consistent(s.sh, s.swept)
    ensures RouteStep(s, StartMove(s, b, o))
  {
  }

  lemma ServiceRoute(s: State, v: ServicePc, o: Oracle)
    requires Consistent(s.sh, s.swept)
    ensures RouteStep(s, ServiceMove(s, v, o))
  {
  }

  lemma CandidateRoute(s: State, t: Tid, job: Job, c: CandidatePc)
    requires Consistent(s.sh, s.swept)
    ensures RouteStep(s, CandidateMove(s, t, job, c))
  {
  }

  lemma WatchRoute(s: State, w: WatchPc)
    requires Consistent(s.sh, s.swept)
    ensures RouteStep(s, WatchMove(s, w))
  {
  }

  lemma MovesRoute(s: State, t: Tid, pc: Pc, o: Oracle)
    requires Consistent(s.sh, s.swept)
    requires pc.Shutdown? && pc.x.SecondSweep? ==> s.swept
    ensures RouteStep(s, MoveOf(s, t, pc, o))
  {
    hide RequestMove, LoopMove, ActivateMove, FailoverMove, ShutdownMove, StartMove, ServiceMove;
    hide CandidateMove, WatchMove;
    match pc
    case Request(r) => RequestRoute(s, r, o);
    case Starting(b) => StartingRoute(s, b, o);
    case Service(v) => ServiceRoute(s, v, o);
    case Loop(failover, l) => LoopRoute(s, t, failover, l, o);
    case Activate(job, ret, a) => ActivateRoute(s, t, job, ret, a, o);
    case Failing(f) => FailingRoute(s, t, f, o);
    case Shutdown(x) => ShutdownRoute(s, x);
    case Candidate(job, c) => CandidateRoute(s, t, job, c);
    case Watch(w) => WatchRoute(s, w);
  }

  // ----- endpoints and probes -----

  predicate JobOk(job: Job) {
    && (job.selection.Manual? ==> job.requireHealth)
    && (job.attempt > 0 ==> job.requireHealth)
  }

  /** The data a program counter carries agrees with the history of its sessions. */
  predicate WellFormed(nodeOf: map<Sid, Ip>, probed: set<Sid>, pc: Pc) {
    match pc
    case Request(SpawnCandidate(job)) => JobOk(job) && job.attempt > 0
    case Request(AbortCandidate(job)) => JobOk(job) && job.attempt > 0
    case Starting(StartAnnounce(job)) => JobOk(job) && job.attempt == 0
    case Candidate(job, _) => JobOk(job) && job.attempt > 0
    case Activate(job, ret, a) =>
      && JobOk(job)
      && (job.attempt > 0 <==> ret.ToCandidate?)
      && (Unused(pc).Some? ==> Unused(pc).value in nodeOf && nodeOf[Unused(pc).value] == job.ip)
      && (a.Probe? ==> job.requireHealth && a.sid !in probed)
      && (a.Ready? || a.Installing? ==> (a.sid in probed <==> job.requireHealth))
    case Failing(CloseFailed(sid, ip, target)) =>
      sid in nodeOf && nodeOf[sid] == ip && (target.Some? ==> target.value == sid)
    case Failing(Mark(ip, target)) => target.Some? ==> target.value in nodeOf && nodeOf[target.value] == ip
    case _ => true
  }

  predicate SessionKnown(sh: Shared, nodeOf: map<Sid, Ip>, probed: set<Sid>) {
    sh.session.Some? ==>
      && sh.session.value in nodeOf
      && nodeOf[sh.session.value] == sh.node
      && (sh.selection.Manual? ==> sh.session.value in probed)
  }

  ghost predicate Known(s: State) {
    && (forall x :: x in s.nodeOf || x in s.probed ==> x < s.nextSid)
    && SessionKnown(s.sh, s.nodeOf, s.probed)
    && (forall t :: t in s.threads ==> WellFormed(s.nodeOf, s.probed, s.threads[t].pc))
  }

  predicate KnownStep(s: State, pc: Pc, m: Move) {
    var nodeOf, probed := NodesAfter(s, m), s.probed + m.probed;
    && SessionKnown(m.sh, nodeOf, probed)
    && m.probed <= Opt(Unused(pc))
    && (m.next.Some? ==> WellFormed(nodeOf, probed, m.next.value))
    && (m.spawn.Some? ==> WellFormed(nodeOf, probed, m.spawn.value))
  }

  ghost predicate MayStep(s: State, pc: Pc) {
    && (forall x :: x in s.nodeOf || x in s.probed ==> x < s.nextSid)
    && SessionKnown(s.sh, s.nodeOf, s.probed)
    && WellFormed(s.nodeOf, s.probed, pc)
  }

  /** A step that opens, probes and installs nothing. */
  predicate Plain(s: State, m: Move) {
    && m.opens.None? && m.probed == {}
    && (m.sh.session.Some? ==>
         && m.sh.session == s.sh.session && m.sh.node == s.sh.node
         && (m.sh.selection == s.sh.selection || m.sh.selection.Auto?))
    && (m.next.Some? ==> WellFormed(s.nodeOf, s.probed, m.next.value))
    && (m.spawn.Some? ==> WellFormed(s.nodeOf, s.probed, m.spawn.value))
  }

  lemma PlainKnown(s: State, pc: Pc, m: Move)
    requires MayStep(s, pc) && Plain(s, m)
    ensures KnownStep(s, pc, m)
  {
    hide WellFormed, Unused;
    assert s.probed + {} == s.probed;
  }

  lemma RequestIsPlain(s: State, r: RequestPc, o: Oracle)
    requires WellFormed(s.nodeOf, s.probed, Request(r))
    ensures Plain(s, RequestMove(s, r, o))
  {
  }

  lemma RequestKnown(s: State, r: RequestPc, o: Oracle)
    requires MayStep(s, Request(r))
    ensures KnownStep(s, Request(r), RequestMove(s, r, o))
  {
    hide RequestMove, Plain, KnownStep;
    RequestIsPlain(s, r, o);
    PlainKnown(s, Request(r), RequestMove(s, r, o));
  }

  lemma LoopIsPlain(s: State, t: Tid, failover: bool, l: LoopPc, o: Oracle)
    ensures Plain(s, LoopMove(s, t, failover, l, o))
  {
  }

  lemma LoopKnown(s: State, t: Tid, failover: bool, l: LoopPc, o: Oracle)
    requires MayStep(s, Loop(failover, l))
    ensures KnownStep(s, Loop(failover, l), LoopMove(s, t, failover, l, o))
  {
    hide LoopMove, Plain, KnownStep;
    LoopIsPlain(s, t, failover, l, o);
    PlainKnown(s, Loop(failover, l), LoopMove(s, t, failover, l, o));
  }

  lemma InstallKnown(s: State, job: Job, ret: Ret, sid: Sid, o: Oracle)
    requires MayStep(s, Activate(job, ret, Installing(sid)))
    ensures KnownStep(s, Activate(job, ret, Installing(sid)), InstallMove(s, job, ret, sid, o))
  {
  }

  lemma ReturnIsWellFormed(s: State, job: Job, ret: Ret, ok: bool, text: string)
    requires JobOk(job) && (job.attempt > 0 <==> ret.ToCandidate?)
    ensures var next := ReturnTo(s, job, ret, ok, text); next.Some? ==> WellFormed(s.nodeOf, s.probed, next.value)
  {
  }

  lemma ConnectKnown(s: State, t: Tid, job: Job, ret: Ret, a: ActivatePc, o: Oracle)
    requires MayStep(s, Activate(job, ret, a)) && (a.Connect? || a.Probe?)
    ensures KnownStep(s, Activate(job, ret, a), ActivateMove(s, t, job, ret, a, o))
  {
    hide InstallMove, ReturnTo;
  }

  lemma ActivateIsPlain(s: State, t: Tid, job: Job, ret: Ret, a: ActivatePc, o: Oracle)
    requires WellFormed(s.nodeOf, s.probed, Activate(job, ret, a)) && !a.Connect? && !a.Probe? && !a.Installing?
    ensures Plain(s, ActivateMove(s, t, job, ret, a, o))
  {
    hide InstallMove, ReturnTo;
    if a.Unlock? {
      ReturnIsWellFormed(s, job, ret, a.ok, o.text);
    }
  }

  lemma ActivateKnown(s: State, t: Tid, job: Job, ret: Ret, a: ActivatePc, o: Oracle)
    requires MayStep(s, Activate(job, ret, a))
    ensures KnownStep(s, Activate(job, ret, a), ActivateMove(s, t, job, ret, a, o))
  {
    hide ActivateMove, InstallMove, WellFormed, Plain, KnownStep;
    if a.Installing? {
      InstallKnown(s, job, ret, a.sid, o);
      InstallIsItsStep(s, t, job, ret, a.sid, o);
    } else if a.Connect? || a.Probe? {
      ConnectKnown(s, t, job, ret, a, o);
    } else {
      ActivateIsPlain(s, t, job, ret, a, o);
      PlainKnown(s, Activate(job, ret, a), ActivateMove(s, t, job, ret, a, o));
    }
  }

  lemma FailingKnown(s: State, t: Tid, f: FailoverPc, o: Oracle)
    requires MayStep(s, Failing(f))
    ensures KnownStep(s, Failing(f), FailoverMove(s, t, f, o))
  {
  }

  lemma ShutdownKnown(s: State, x: ClosePc)
    requires MayStep(s, Shutdown(x))
    ensures KnownStep(s, Shutdown(x), ShutdownMove(s, x))
  {
  }

  lemma CandidateKnown(s: State, t: Tid, job: Job, c: CandidatePc)
    requires MayStep(s, Candidate(job, c))
    ensures KnownStep(s, Candidate(job, c), CandidateMove(s, t, job, c))
  {
  }

  lemma StartingKnown(s: State, b: StartPc, o: Oracle)
    requires MayStep(s, Starting(b))
    ensures KnownStep(s, Starting(b), StartMove(s, b, o))
  {
  }

  lemma ServiceKnown(s: State, v: ServicePc, o: Oracle)
    requires MayStep(s, Service(v))
    ensures KnownStep(s, Service(v), ServiceMove(s, v, o))
  {
  }

  lemma MovesKnown(s: State, t: Tid, pc: Pc, o: Oracle)
    requires MayStep(s, pc)
    ensures KnownStep(s, pc, MoveOf(s, t, pc, o))
  {
    hide RequestMove, LoopMove, ActivateMove, FailoverMove, ShutdownMove, StartMove, ServiceMove;
    match pc
    case Request(r) => RequestKnown(s, r, o);
    case Starting(b) => StartingKnown(s, b, o);
    case Service(v) => ServiceKnown(s, v, o);
    case Loop(failover, l) => LoopKnown(s, t, failover, l, o);
    case Activate(job, ret, a) => ActivateKnown(s, t, job, ret, a, o);
    case Failing(f) => FailingKnown(s, t, f, o);
    case Shutdown(x) => ShutdownKnown(s, x);
    case Candidate(job, c) => CandidateKnown(s, t, job, c);
    case Watch(_) =>
  }

  /** Steps of t leave what is known about another thread's session as it is. */
  lemma OthersStayKnown(s: State, t: Tid, m: Move, u: Tid)
    requires Known(s) && Conserved(s) && t in s.threads && KnownStep(s, s.threads[t].pc, m)
    requires u in s.threads && u != t
    ensures WellFormed(NodesAfter(s, m), s.probed + m.probed, s.threads[u].pc)
  {
    var mine, others := Unused(s.threads[t].pc), Unused(s.threads[u].pc);
    assert mine.Some? ==> At(s, mine.value, InHand(t));
    assert others.Some? ==> At(s, others.value, InHand(u));
  }

  lemma CommitKnown(s: State, t: Tid, m: Move)
    requires Known(s) && Conserved(s) && t in s.threads && KnownStep(s, s.threads[t].pc, m)
    ensures Known(Commit(s, t, m))
  {
    hide ClosesAfter, GensAfter, InstallsAfter, WellFormed, Conserved;
    var s' := Commit(s, t, m);
    if Unused(s.threads[t].pc).Some? {
      UnusedAreOpen(s, t);
    }
    forall u | u in s'.threads ensures WellFormed(s'.nodeOf, s'.probed, s'.threads[u].pc) {
      if u in s.threads && u != t && !(m.spawn.Some? && u == s.nextTid) {
        OthersStayKnown(s, t, m, u);
      }
    }
  }

  lemma UnusedAreOpen(s: State, t: Tid)
    requires Conserved(s) && t in s.threads && Unused(s.threads[t].pc).Some?
    ensures Unused(s.threads[t].pc).value < s.nextSid
  {
    assert At(s, Unused(s.threads[t].pc).value, InHand(t));
  }

  // ----- attempts -----

  /** The activation has installed its session, or returned without an error. */
  predicate Succeeded(pc: Pc) {
    match pc
    case Candidate(_, CandidateFinish(err)) => err.None?
    case Activate(_, _, CloseOld(_, _, _)) => true
    case Activate(_, _, SpawnWatcher(_, _)) => true
    case Activate(_, _, Unlock(ok)) => ok
    case _ => false
  }

  ghost predicate Increasing(xs: seq<nat>) { forall i, j :: 0 <= i < j < |xs| ==> xs[i] < xs[j] }

  ghost predicate Outstanding(s: State, attempt: nat) {
    exists t :: t in s.threads && AttemptOf(s.threads[t].pc) == attempt
  }

  /** Attempt numbers of live candidates are bounded by the counter and pairwise different. */
  ghost predicate Numbered(s: State) {
    && (forall t :: t in s.threads ==> t < s.nextTid)
    && (forall t :: t in s.threads ==> AttemptOf(s.threads[t].pc) <= s.sh.connectAttempt)
    && (forall t, u :: t in s.threads && u in s.threads && t != u && AttemptOf(s.threads[t].pc) > 0 ==>
         AttemptOf(s.threads[t].pc) != AttemptOf(s.threads[u].pc))
  }

  /** Candidates installed in increasing attempt order, and a live one that installed is past its installation. */
  ghost predicate InOrder(s: State) {
    && Increasing(s.installs)
    && (forall i :: 0 <= i < |s.installs| ==> 0 < s.installs[i] <= s.sh.connectAttempt)
    && (forall t :: t in s.threads && AttemptOf(s.threads[t].pc) in s.installs ==> Succeeded(s.threads[t].pc))
  }

  /** "Connecting to ..." is shown, and a cancel function kept, only while the current attempt is live. */
  ghost predicate Tidy(s: State) {
    !NotConnecting(s.sh) ==> s.sh.connectAttempt > 0 && Outstanding(s, s.sh.connectAttempt)
  }

  ghost predicate Ordered(s: State) { Numbered(s) && InOrder(s) && Tidy(s) }

  function AttemptNext(pc: Option<Pc>): nat { if pc.Some? then AttemptOf(pc.value) else 0 }

  predicate NotConnecting(sh: Shared) { sh.connectingIP == "" && sh.cancelConnect.None? }

  predicate AttemptStep(s: State, pc: Pc, m: Move) {
    var a, n, p := AttemptOf(pc), AttemptNext(m.next), AttemptNext(m.spawn);
    && s.sh.connectAttempt <= m.sh.connectAttempt
    // an attempt number is handed on, ended, or newly drawn
    && (n > 0 ==> n == a || (a == 0 && n == m.sh.connectAttempt == s.sh.connectAttempt + 1))
    && (p > 0 ==> p == a && n == 0)
    && (m.sh.connectAttempt == s.sh.connectAttempt ==>
         (s.sh.connectingIP == m.sh.connectingIP && s.sh.cancelConnect == m.sh.cancelConnect) || NotConnecting(m.sh))
    && (m.sh.connectAttempt != s.sh.connectAttempt ==> NotConnecting(m.sh) || n == m.sh.connectAttempt)
    // the current attempt ends only after it cleared its traces
    && (a == m.sh.connectAttempt && a > 0 && n == 0 && p == 0 ==> NotConnecting(m.sh))
    && (m.installs.Some? && a > 0 ==> a == s.sh.connectAttempt && !Succeeded(pc))
    && (m.installs.Some? ==> n == a && m.next.Some? && Succeeded(m.next.value))
    && (n == a && a > 0 && Succeeded(pc) ==> Succeeded(m.next.value))
    && (p == a && a > 0 ==> !Succeeded(pc))
  }

  lemma RequestAttempts(s: State, r: RequestPc, o: Oracle)
    requires WellFormed(s.nodeOf, s.probed, Request(r))
    ensures AttemptStep(s, Request(r), RequestMove(s, r, o))
  {
  }

  lemma LoopAttempts(s: State, t: Tid, failover: bool, l: LoopPc, o: Oracle)
    ensures AttemptStep(s, Loop(failover, l), LoopMove(s, t, failover, l, o))
  {
  }

  lemma InstallAttempts(s: State, job: Job, ret: Ret, sid: Sid, o: Oracle)
    requires WellFormed(s.nodeOf, s.probed, Activate(job, ret, Installing(sid)))
    ensures AttemptStep(s, Activate(job, ret, Installing(sid)), InstallMove(s, job, ret, sid, o))
  {
  }

  lemma ActivateAttempts(s: State, t: Tid, job: Job, ret: Ret, a: ActivatePc, o: Oracle)
    requires WellFormed(s.nodeOf, s.probed, Activate(job, ret, a))
    ensures AttemptStep(s, Activate(job, ret, a), ActivateMove(s, t, job, ret, a, o))
  {
    hide InstallMove;
    if a.Installing? {
      InstallAttempts(s, job, ret, a.sid, o);
    }
  }

  lemma FailingAttempts(s: State, t: Tid, f: FailoverPc, o: Oracle)
    ensures AttemptStep(s, Failing(f), FailoverMove(s, t, f, o))
  {
  }

  lemma ShutdownAttempts(s: State, x: ClosePc)
    ensures AttemptStep(s, Shutdown(x), ShutdownMove(s, x))
  {
  }

  lemma CandidateAttempts(s: State, t: Tid, job: Job, c: CandidatePc)
    requires WellFormed(s.nodeOf, s.probed, Candidate(job, c))
    ensures AttemptStep(s, Candidate(job, c), CandidateMove(s, t, job, c))
  {
  }

  lemma StartingAttempts(s: State, b: StartPc, o: Oracle)
    requires WellFormed(s.nodeOf, s.probed, Starting(b))
    ensures AttemptStep(s, Starting(b), StartMove(s, b, o))
  {
  }

  lemma ServiceAttempts(s: State, v: ServicePc, o: Oracle)
    requires WellFormed(s.nodeOf, s.probed, Service(v))
    ensures AttemptStep(s, Service(v), ServiceMove(s, v, o))
  {
  }

  lemma MovesAttempt(s: State, t: Tid, pc: Pc, o: Oracle)
    requires WellFormed(s.nodeOf, s.probed, pc)
    ensures AttemptStep(s, pc, MoveOf(s, t, pc, o))
  {
    hide RequestMove, LoopMove, ActivateMove, FailoverMove, ShutdownMove, StartMove, ServiceMove;
    match pc
    case Request(r) => RequestAttempts(s, r, o);
    case Starting(b) => StartingAttempts(s, b, o);
    case Service(v) => ServiceAttempts(s, v, o);
    case Loop(failover, l) => LoopAttempts(s, t, failover, l, o);
    case Activate(job, ret, a) => ActivateAttempts(s, t, job, ret, a, o);
    case Failing(f) => FailingAttempts(s, t, f, o);
    case Shutdown(x) => ShutdownAttempts(s, x);
    case Candidate(job, c) => CandidateAttempts(s, t, job, c);
    case Watch(_) =>
  }

  lemma CommitNumbered(s: State, t: Tid, m: Move)
    requires Numbered(s) && t in s.threads && AttemptStep(s, s.threads[t].pc, m)
    ensures Numbered(Commit(s, t, m))
  {
    hide ClosesAfter, NodesAfter, GensAfter, InstallsAfter;
  }

  lemma CommitInOrder(s: State, t: Tid, m: Move)
    requires Numbered(s) && InOrder(s) && t in s.threads && AttemptStep(s, s.threads[t].pc, m)
    ensures InOrder(Commit(s, t, m))
  {
    hide ClosesAfter, NodesAfter, GensAfter;
  }

  lemma CommitTidy(s: State, t: Tid, m: Move)
    requires Numbered(s) && Tidy(s) && t in s.threads && AttemptStep(s, s.threads[t].pc, m)
    ensures Tidy(Commit(s, t, m))
  {
    hide ClosesAfter, NodesAfter, GensAfter, InstallsAfter;
    var s' := Commit(s, t, m);
    if !NotConnecting(s'.sh) {
      if s'.sh.connectAttempt == s.sh.connectAttempt {
        assert Outstanding(s, s.sh.connectAttempt);
        var u :| u in s.threads && AttemptOf(s.threads[u].pc) == s.sh.connectAttempt;
        var v := if u != t || AttemptNext(m.next) > 0 then u else s.nextTid;
        assert v in s'.threads && AttemptOf(s'.threads[v].pc) == s'.sh.connectAttempt;
      } else {
        assert t in s'.threads && AttemptOf(s'.threads[t].pc) == s'.sh.connectAttempt;
      }
    }
  }
}
