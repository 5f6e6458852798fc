/** What a generation number, a recorded endpoint and a probe say about the installed session. */
module ManagerGenerations {
  import opened Basics
  import opened ManagerSections
  import opened ManagerThreads
  import opened ManagerOwnership

  /** A session that was never installed yet. */
  function Unused(pc: Pc): Option<Sid> {
    match pc
    case Service(TestRunning(sid)) => Some(sid)
    case Activate(_, _, Probe(sid)) => Some(sid)
    case Activate(_, _, Discard(sid)) => Some(sid)
    case Activate(_, _, Ready(sid)) => Some(sid)
    case Activate(_, _, Installing(sid)) => Some(sid)
    case Activate(_, _, CloseUnused(sid)) => Some(sid)
    case _ => None
  }

  /** An installed session a thread refers to together with the generation of its installation. */
  function Tag(pc: Pc): Option<(Sid, nat)> {
    match pc
    case Activate(_, _, CloseOld(_, sid, gen)) => Some((sid, gen))
    case Activate(_, _, SpawnWatcher(sid, gen)) => Some((sid, gen))
    case Watch(Waiting(sid, gen)) => Some((sid, gen))
    case Watch(Ended(sid, gen)) => Some((sid, gen))
    case _ => None
  }

  function UnusedNext(pc: Option<Pc>): Option<Sid> { if pc.Some? then Unused(pc.value) else None }

  function TagNext(pc: Option<Pc>): Option<(Sid, nat)> { if pc.Some? then Tag(pc.value) else None }

  /** A generation number belongs to one installation, and the newest one to the installed session. */
  ghost predicate Dated(s: State) {
    && (forall x :: x in s.genOf ==> x < s.nextSid && s.genOf[x] <= s.sh.generation)
    && (forall x :: x in s.genOf && s.genOf[x] == s.sh.generation ==> s.sh.session == Some(x))
    && (s.sh.session.Some? ==> s.sh.session.value in s.genOf && s.genOf[s.sh.session.value] == s.sh.generation)
  }

  /** A thread's unused session was never installed, and its tag is the generation its session was installed under. */
  ghost predicate Tagged(s: State) {
    && (forall t :: t in s.threads && Unused(s.threads[t].pc).Some? ==> Unused(s.threads[t].pc).value !in s.genOf)
    && (forall t :: t in s.threads && Tag(s.threads[t].pc).Some? ==>
         Tag(s.threads[t].pc).value.0 in s.genOf
         && s.genOf[Tag(s.threads[t].pc).value.0] == Tag(s.threads[t].pc).value.1)
  }

  ghost predicate Pinned(s: State) { Dated(s) && Tagged(s) }

  /** The session changes only together with a rising generation, and a generation rises only when the session goes. */
  predicate GenerationStep(s: State, pc: Pc, m: Move) {
    && (if m.installs.Some?
        then m.installs == Unused(pc) && m.sh.session == m.installs && m.sh.generation == s.sh.generation + 1
        else if m.sh.session == s.sh.session then
          m.sh.generation == s.sh.generation || (m.sh.session.None? && m.sh.generation == s.sh.generation + 1)
        else m.sh.session.None? && m.sh.generation == s.sh.generation + 1)
    && (UnusedNext(m.next).Some? ==>
         if m.opens.Some? then UnusedNext(m.next) == Some(s.nextSid)
         else UnusedNext(m.next) == Unused(pc) && m.installs.None?)
    && (TagNext(m.next).Some? ==>
         TagNext(m.next) == Tag(pc)
           || (m.installs.Some? && TagNext(m.next) == Some((m.installs.value, m.sh.generation))))
    && (TagNext(m.spawn).Some? ==> TagNext(m.spawn) == Tag(pc))
    && UnusedNext(m.spawn).None?
    && (m.opens.Some? ==> m.installs.None?)
  }

  lemma RequestGenerations(s: State, t: Tid, r: RequestPc, o: Oracle)
    ensures GenerationStep(s, Request(r), RequestMove(s, r, o))
  {
  }

  lemma InstallGenerations(s: State, job: Job, ret: Ret, sid: Sid, o: Oracle)
    ensures GenerationStep(s, Activate(job, ret, Installing(sid)), InstallMove(s, job, ret, sid, o))
  {
  }

  lemma EarlyGenerations(s: State, t: Tid, job: Job, ret: Ret, a: ActivatePc, o: Oracle)
    requires Early(a)
    ensures GenerationStep(s, Activate(job, ret, a), ActivateMove(s, t, job, ret, a, o))
  {
    hide InstallMove, ReturnTo;
  }

  lemma LateGenerations(s: State, t: Tid, job: Job, ret: Ret, a: ActivatePc, o: Oracle)
    requires !Early(a) && !a.Installing?
    ensures GenerationStep(s, Activate(job, ret, a), ActivateMove(s, t, job, ret, a, o))
  {
    hide InstallMove;
  }

  lemma ActivateGenerations(s: State, t: Tid, job: Job, ret: Ret, a: ActivatePc, o: Oracle)
    ensures GenerationStep(s, Activate(job, ret, a), ActivateMove(s, t, job, ret, a, o))
  {
    hide ActivateMove, InstallMove;
    if a.Installing? {
      InstallIsItsStep(s, t, job, ret, a.sid, o);
      InstallGenerations(s, job, ret, a.sid, o);
    } else if Early(a) {
      EarlyGenerations(s, t, job, ret, a, o);
    } else {
      LateGenerations(s, t, job, ret, a, o);
    }
  }

  lemma LoopGenerations(s: State, t: Tid, failover: bool, l: LoopPc, o: Oracle)
    ensures GenerationStep(s, Loop(failover, l), LoopMove(s, t, failover, l, o))
  {
  }

  lemma FailingGenerations(s: State, t: Tid, f: FailoverPc, o: Oracle)
    ensures GenerationStep(s, Failing(f), FailoverMove(s, t, f, o))
  {
  }

  lemma ShutdownGenerations(s: State, x: ClosePc)
    ensures GenerationStep(s, Shutdown(x), ShutdownMove(s, x))
  {
  }

  lemma StartingGenerations(s: State, b: StartPc, o: Oracle)
    ensures GenerationStep(s, Starting(b), StartMove(s, b, o))
  {
  }

  lemma ServiceGenerations(s: State, v: ServicePc, o: Oracle)
    ensures GenerationStep(s, Service(v), ServiceMove(s, v, o))
  {
  }

  lemma MovesGeneration(s: State, t: Tid, pc: Pc, o: Oracle)
    ensures GenerationStep(s, pc, MoveOf(s, t, pc, o))
  {
    hide RequestMove, LoopMove, ActivateMove, FailoverMove, ShutdownMove, StartMove, ServiceMove;
    match pc
    case Request(r) => RequestGenerations(s, t, r, o);
    case Starting(b) => StartingGenerations(s, b, o);
    case Service(v) => ServiceGenerations(s, v, o);
    case Activate(job, ret, a) => ActivateGenerations(s, t, job, ret, a, o);
    case Loop(failover, l) => LoopGenerations(s, t, failover, l, o);
    case Failing(f) => FailingGenerations(s, t, f, o);
    case Shutdown(x) => ShutdownGenerations(s, x);
    case Candidate(_, _) =>
    case Watch(_) =>
  }

  lemma CommitDated(s: State, t: Tid, m: Move)
    requires Conserved(s) && Pinned(s) && t in s.threads && GenerationStep(s, s.threads[t].pc, m)
    ensures Dated(Commit(s, t, m))
  {
    hide ClosesAfter, NodesAfter, InstallsAfter, ThreadsAfter;
    assert m.installs.Some? ==> At(s, m.installs.value, InHand(t));
  }

  /** No other thread has the session that thread t installs or has just opened. */
  lemma OthersStayTagged(s: State, t: Tid, m: Move, u: Tid)
    requires Conserved(s) && Pinned(s) && t in s.threads && GenerationStep(s, s.threads[t].pc, m)
    requires u in s.threads && u != t
    ensures Unused(s.threads[u].pc).Some? ==> Unused(s.threads[u].pc).value !in GensAfter(s, m)
    ensures Tag(s.threads[u].pc).Some? ==>
              Tag(s.threads[u].pc).value.0 in GensAfter(s, m)
              && GensAfter(s, m)[Tag(s.threads[u].pc).value.0] == Tag(s.threads[u].pc).value.1
  {
    if Unused(s.threads[u].pc).Some? && m.installs.Some? {
      assert At(s, Unused(s.threads[u].pc).value, InHand(u));
      assert At(s, m.installs.value, InHand(t));
    }
  }

  lemma CommitTagged(s: State, t: Tid, m: Move)
    requires Conserved(s) && Pinned(s) && t in s.threads && GenerationStep(s, s.threads[t].pc, m)
    ensures Tagged(Commit(s, t, m))
  {
    hide ClosesAfter, NodesAfter, InstallsAfter, Conserved, Unused, Tag;
    var s' := Commit(s, t, m);
    forall u | u in s.threads && u != t
      ensures Unused(s.threads[u].pc).Some? ==> Unused(s.threads[u].pc).value !in s'.genOf
      ensures Tag(s.threads[u].pc).Some? ==>
                Tag(s.threads[u].pc).value.0 in s'.genOf
                && s'.genOf[Tag(s.threads[u].pc).value.0] == Tag(s.threads[u].pc).value.1
    {
      OthersStayTagged(s, t, m, u);
    }
  }

  lemma CommitPinned(s: State, t: Tid, m: Move)
    requires Conserved(s) && Pinned(s) && t in s.threads && GenerationStep(s, s.threads[t].pc, m)
    ensures Pinned(Commit(s, t, m))
  {
    hide Conserved, GenerationStep, Commit, Dated, Tagged;
    CommitDated(s, t, m);
    CommitTagged(s, t, m);
  }
}
