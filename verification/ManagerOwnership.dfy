/**
 Every session a driver opened is in exactly one place, in every interleaving: in the hands of one thread (being
 probed, or removed and about to be closed), installed, or closed exactly once.
 */
module ManagerOwnership {
  import opened Basics
  import opened ManagerSections
  import opened ManagerThreads
  import NodeTable

  datatype Place = InHand(t: Tid) | Installed | Closed

  /** The session a thread must still install or close. */
  function Hand(pc: Pc): Option<Sid> {
    match pc
    case Request(PauseClose(sid)) => Some(sid)
    case Service(TestRunning(sid)) => Some(sid)
    case Activate(_, _, Probe(sid)) => Some(sid)
    case Activate(_, _, Discard(sid)) => Some(sid)
    case Activate(_, _, Ready(sid)) => Some(sid)
    case Activate(_, _, Installing(sid)) => Some(sid)
    case Activate(_, _, CloseUnused(sid)) => Some(sid)
    case Activate(_, _, CloseOld(previous, _, _)) => Some(previous)
    case Failing(CloseFailed(sid, _, _)) => Some(sid)
    case Shutdown(CloseFirst(sid)) => Some(sid)
    case Shutdown(CloseLate(sid)) => Some(sid)
    case _ => None
  }

  /** The session Close remembers from its first sweep. */
  function Remembered(pc: Pc): Option<Sid> {
    match pc
    case Shutdown(AwaitTasks(first)) => first
    case Shutdown(SecondSweep(first)) => first
    case _ => None
  }

  predicate At(s: State, x: Sid, p: Place) {
    match p
    case InHand(t) => t in s.threads && Hand(s.threads[t].pc) == Some(x)
    case Installed => s.sh.session == Some(x)
    case Closed => s.closes[x] > 0
  }

  ghost predicate Owned(s: State, x: Sid) { exists p :: At(s, x, p) }

  predicate ClosedOnce(s: State, x: Sid) { s.closes[x] <= 1 }

  ghost predicate Conserved(s: State) {
    && (forall t :: t in s.threads ==> t < s.nextTid)
    && (forall x: Sid :: ClosedOnce(s, x))
    && (forall x: Sid, p: Place :: At(s, x, p) ==> x < s.nextSid)
    && (forall x: Sid, p: Place, q: Place :: At(s, x, p) && At(s, x, q) ==> p == q)
    && (forall x: Sid :: x < s.nextSid ==> Owned(s, x))
    && (forall t :: t in s.threads && Remembered(s.threads[t].pc).Some? ==>
         At(s, Remembered(s.threads[t].pc).value, Closed))
  }

  function HandOf(pc: Option<Pc>): Option<Sid> {
    if pc.Some? then Hand(pc.value) else None
  }

  /** The five ways a step may move sessions around. */
  datatype Transfer = Keep | Open | Close | Remove | Exchange

  ghost predicate Transfers(s: State, hand: Option<Sid>, m: Move, k: Transfer) {
    && (k.Open? <==> m.opens.Some?)
    && (k.Close? <==> m.closes.Some?)
    && match k
       case Keep => m.sh.session == s.sh.session && HandOf(m.next) == hand
       case Open => m.sh.session == s.sh.session && hand.None? && HandOf(m.next) == Some(s.nextSid)
       case Close => m.sh.session == s.sh.session && m.closes == hand && HandOf(m.next).None?
       case Remove => m.sh.session.None? && hand.None? && HandOf(m.next) == s.sh.session
       case Exchange => hand.Some? && m.sh.session == hand && HandOf(m.next) == s.sh.session
  }

  function TransferOf(s: State, hand: Option<Sid>, m: Move): Transfer {
    if m.opens.Some? then Open
    else if m.closes.Some? then Close
    else if m.sh.session == s.sh.session && HandOf(m.next) == hand then Keep
    else if m.sh.session.None? then Remove
    else Exchange
  }

  /** The local law of every step; a session may be remembered by Close only once it is being closed. */
  ghost predicate Balanced(s: State, pc: Pc, m: Move) {
    && Transfers(s, Hand(pc), m, TransferOf(s, Hand(pc), m))
    && HandOf(m.spawn).None?
    && (m.spawn.Some? ==> Remembered(m.spawn.value).None?)
    && (m.next.Some? && Remembered(m.next.value).Some? ==>
         Remembered(pc) == Remembered(m.next.value) || m.closes == Remembered(m.next.value))
  }

  lemma RequestBalance(s: State, r: RequestPc, o: Oracle)
    ensures Balanced(s, Request(r), RequestMove(s, r, o))
  {
  }

  lemma InstallBalance(s: State, job: Job, ret: Ret, sid: Sid, o: Oracle)
    ensures Balanced(s, Activate(job, ret, Installing(sid)), InstallMove(s, job, ret, sid, o))
  {
  }

  lemma EarlyBalance(s: State, t: Tid, job: Job, ret: Ret, a: ActivatePc, o: Oracle)
    requires Early(a)
    ensures Balanced(s, Activate(job, ret, a), ActivateMove(s, t, job, ret, a, o))
  {
    hide InstallMove, ReturnTo;
  }

  lemma LateBalance(s: State, t: Tid, job: Job, ret: Ret, a: ActivatePc, o: Oracle)
    requires !Early(a) && !a.Installing?
    ensures Balanced(s, Activate(job, ret, a), ActivateMove(s, t, job, ret, a, o))
  {
    hide InstallMove;
  }

  lemma ActivateBalance(s: State, t: Tid, job: Job, ret: Ret, a: ActivatePc, o: Oracle)
    ensures Balanced(s, Activate(job, ret, a), ActivateMove(s, t, job, ret, a, o))
  {
    hide ActivateMove, InstallMove;
    if a.Installing? {
      InstallIsItsStep(s, t, job, ret, a.sid, o);
      InstallBalance(s, job, ret, a.sid, o);
    } else if Early(a) {
      EarlyBalance(s, t, job, ret, a, o);
    } else {
      LateBalance(s, t, job, ret, a, o);
    }
  }

  lemma LoopBalance(s: State, t: Tid, failover: bool, l: LoopPc, o: Oracle)
    ensures Balanced(s, Loop(failover, l), LoopMove(s, t, failover, l, o))
  {
  }

  lemma FailingBalance(s: State, t: Tid, f: FailoverPc, o: Oracle)
    ensures Balanced(s, Failing(f), FailoverMove(s, t, f, o))
  {
  }

  lemma ShutdownBalance(s: State, x: ClosePc)
    requires Remembered(Shutdown(x)).Some? ==> s.sh.session != Remembered(Shutdown(x))
    ensures Balanced(s, Shutdown(x), ShutdownMove(s, x))
  {
  }

  lemma StartingBalance(s: State, b: StartPc, o: Oracle)
    ensures Balanced(s, Starting(b), StartMove(s, b, o))
  {
  }

  lemma ServiceBalance(s: State, v: ServicePc, o: Oracle)
    ensures Balanced(s, Service(v), ServiceMove(s, v, o))
  {
  }

  lemma MovesBalance(s: State, t: Tid, pc: Pc, o: Oracle)
    requires Remembered(pc).Some? ==> s.sh.session != Remembered(pc)
    ensures Balanced(s, pc, MoveOf(s, t, pc, o))
  {
    hide RequestMove, LoopMove, ActivateMove, FailoverMove, ShutdownMove, StartMove, ServiceMove;
    match pc
    case Request(r) => RequestBalance(s, r, o);
    case Starting(b) => StartingBalance(s, b, o);
    case Service(v) => ServiceBalance(s, v, o);
    case Activate(job, ret, a) => ActivateBalance(s, t, job, ret, a, o);
    case Loop(failover, l) => LoopBalance(s, t, failover, l, o);
    case Failing(f) => FailingBalance(s, t, f, o);
    case Shutdown(x) => ShutdownBalance(s, x);
    case Candidate(_, _) =>
    case Watch(_) =>
  }

  /** Where a session is after a step of thread t. */
  predicate AtAfter(s: State, t: Tid, m: Move, x: Sid, p: Place) {
    match p
    case InHand(u) => if u == t then HandOf(m.next) == Some(x) else At(s, x, p)
    case Installed => m.sh.session == Some(x)
    case Closed => At(s, x, p) || m.closes == Some(x)
  }

  lemma PlacesAfter(s: State, t: Tid, m: Move)
    requires Conserved(s) && t in s.threads && Balanced(s, s.threads[t].pc, m)
    ensures forall x: Sid, p: Place :: At(Commit(s, t, m), x, p) <==> AtAfter(s, t, m, x, p)
  {
    hide NodesAfter, GensAfter, InstallsAfter;
  }

  lemma CommitUnique(s: State, t: Tid, m: Move, x: Sid, p: Place, q: Place)
    requires Conserved(s) && t in s.threads && Balanced(s, s.threads[t].pc, m)
    requires AtAfter(s, t, m, x, p) && AtAfter(s, t, m, x, q)
    ensures p == q
    ensures x < Commit(s, t, m).nextSid
  {
    hide NodesAfter, GensAfter, InstallsAfter;
    assert At(s, x, p) || At(s, x, InHand(t)) || At(s, x, Installed) || x == s.nextSid;
    assert At(s, x, q) || At(s, x, InHand(t)) || At(s, x, Installed) || x == s.nextSid;
  }

  lemma CommitCloses(s: State, t: Tid, m: Move, x: Sid)
    requires Conserved(s) && t in s.threads && Balanced(s, s.threads[t].pc, m)
    ensures ClosedOnce(Commit(s, t, m), x)
  {
    assert ClosedOnce(s, x);
    assert At(s, x, Closed) <==> s.closes[x] > 0;
    assert m.closes == Some(x) ==> At(s, x, InHand(t));
  }

  lemma CommitCovers(s: State, t: Tid, m: Move, x: Sid)
    requires Conserved(s) && t in s.threads && Balanced(s, s.threads[t].pc, m)
    requires x < Commit(s, t, m).nextSid
    ensures exists p :: AtAfter(s, t, m, x, p)
  {
    hide NodesAfter, GensAfter, InstallsAfter;
    assert AtAfter(s, t, m, x, InHand(t)) <==> HandOf(m.next) == Some(x);
    assert AtAfter(s, t, m, x, Installed) <==> m.sh.session == Some(x);
    assert AtAfter(s, t, m, x, Closed) <==> At(s, x, Closed) || m.closes == Some(x);
    if x < s.nextSid {
      assert Owned(s, x);
      var p :| At(s, x, p);
      assert AtAfter(s, t, m, x, p) || HandOf(m.next) == Some(x) || m.sh.session == Some(x) || m.closes == Some(x);
    }
  }

  lemma CommitConserves(s: State, t: Tid, m: Move)
    requires Conserved(s) && t in s.threads && Balanced(s, s.threads[t].pc, m)
    ensures Conserved(Commit(s, t, m))
  {
    hide NodesAfter, GensAfter, InstallsAfter;
    var s' := Commit(s, t, m);
    PlacesAfter(s, t, m);
    forall x: Sid ensures ClosedOnce(s', x) {
      CommitCloses(s, t, m, x);
    }
    forall x: Sid, p: Place, q: Place | At(s', x, p) && At(s', x, q) ensures p == q && x < s'.nextSid {
      CommitUnique(s, t, m, x, p, q);
    }
    forall x: Sid | x < s'.nextSid ensures Owned(s', x) {
      CommitCovers(s, t, m, x);
    }
    forall u | u in s'.threads && Remembered(s'.threads[u].pc).Some?
      ensures At(s', Remembered(s'.threads[u].pc).value, Closed)
    {
      assert At(s', Remembered(s'.threads[u].pc).value, Closed) <==>
             AtAfter(s, t, m, Remembered(s'.threads[u].pc).value, Closed);
    }
  }
}
