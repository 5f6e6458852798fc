/**
 The VPN manager as a transition system. Every goroutine that can run code of
 internal/vpn/manager.go is a thread with a program counter; a step is one `mu` critical section, one lock
 acquisition, one driver, probe or Close call, or one spawn. A lock release is part of the step before it.
 Driver starts, probes, database answers and cancellations are oracles.
 */
module ManagerThreads {
  import opened Basics
  import opened ManagerSections
  import NodeTable

  type Tid = nat

  /** The arguments of one `activate` call. */
  datatype Job = Job(ip: Ip, selection: Selection, requireHealth: bool, attempt: nat, forced: string, ctx: Token)

  /** Who called `activate` and what it does next. */
  datatype Ret =
    | ToCandidate
    | ToStart
    | ToLoop(rest: seq<Ip>, tok: Token, failover: bool)

  /** Manager.Start. */
  datatype StartPc =
    | StartCall
    | StartLookup(selection: Selection, ip: Ip, forced: string)
    | StartAnnounce(job: Job)
    | StartReset

  /** Health checks, the callback of a refresh, and speed tests. */
  datatype ServicePc =
    | HealthCall
    | RefreshedCall | RefreshedLookup(ip: Ip) | SpawnFailover
    | TestCall | TestRunning(sid: Sid)

  /** Requests of the web API. Like Start and the services they hold no lock. */
  datatype RequestPc =
    | Select(ip: Ip, selection: Selection, forced: string)   // startCandidate before its critical section
    | SpawnCandidate(job: Job)                               // before its runAsync
    | AbortCandidate(job: Job)                               // runAsync refused
    | PauseCall | PauseClose(sid: Sid)
    | ResumeCall | ResumeLookup(selection: Selection, ip: Ip, forced: string) | ResumeReset
    | SpawnAutomatic

  datatype CandidatePc = CandidateLock | CandidateCheck | CandidateFinish(err: Option<string>)

  datatype LoopPc =
    | LoopLock
    | LoopEnter
    | LoopNodes(tok: Token)
    | LoopNext(rest: seq<Ip>, tok: Token)
    | LoopExit(tok: Token)

  datatype ActivatePc =
    | SwitchLock
    | Announce
    | Connect
    | Probe(sid: Sid)
    | Discard(sid: Sid)
    | Ready(sid: Sid)
    | Installing(sid: Sid)
    | CloseUnused(sid: Sid)
    | CloseOld(previous: Sid, sid: Sid, gen: nat)
    | SpawnWatcher(sid: Sid, gen: nat)
    | Unlock(ok: bool)

  datatype WatchPc =
    | Waiting(sid: Sid, gen: nat)
    | Ended(sid: Sid, gen: nat)

  datatype FailoverPc =
    | FailoverLock(expected: Option<Sid>)
    | AutoLock(expected: Option<Sid>)
    | Decide(expected: Option<Sid>)
    | CloseFailed(sid: Sid, ip: Ip, target: Option<Sid>)
    | Mark(ip: Ip, target: Option<Sid>)

  datatype ClosePc =
    | CloseCall
    | FirstSweep
    | CloseFirst(sid: Sid)
    | AwaitTasks(first: Option<Sid>)
    | SecondSweep(first: Option<Sid>)
    | CloseLate(sid: Sid)
    | Returned

  datatype Pc =
    | Request(r: RequestPc)
    | Starting(b: StartPc)
    | Service(v: ServicePc)
    | Candidate(job: Job, c: CandidatePc)
    | Loop(failover: bool, l: LoopPc)
    | Activate(job: Job, ret: Ret, a: ActivatePc)
    | Watch(w: WatchPc)
    | Failing(f: FailoverPc)
    | Shutdown(x: ClosePc)

  /** `task` marks the goroutines counted by the WaitGroup of runAsync. */
  datatype Thread = Thread(task: bool, pc: Pc)

  datatype Locks = Locks(failover: Option<Tid>, auto: Option<Tid>, switch: Option<Tid>)

  /**
   `drivers` never changes. `nodeOf`, `genOf`, `probed`, `installs` and `swept` are history: the endpoint each session
   was opened to, the generation it was installed under, the sessions whose health probe succeeded, the candidate
   attempts that installed, and whether Close made its first sweep. No step reads them.
   */
  datatype State = State(
    sh: Shared, locks: Locks, db: NodeTable.Db,
    threads: map<Tid, Thread>, nextTid: Tid, nextSid: Sid, nextToken: Token,
    closing: bool, appDone: bool, canceled: set<Token>,
    closes: multiset<Sid>, drivers: set<string>,
    nodeOf: map<Sid, Ip>, genOf: map<Sid, nat>, probed: set<Sid>, installs: seq<nat>, swept: bool)

  /** What the outside world answers in one step. */
  datatype Oracle = Oracle(ok: bool, flag: bool, nodes: seq<Ip>, text: string, now: Time)

  /** What one step of a thread does. */
  datatype Move = Move(
    sh: Shared, locks: Locks, db: NodeTable.Db,
    next: Option<Pc>, spawn: Option<Pc>,
    opens: Option<Ip>, closes: Option<Sid>, installs: Option<Sid>, probed: set<Sid>,
    cancels: set<Token>, newToken: bool, closing: bool, sweeps: bool)

  predicate Canceled(s: State, tok: Token) { s.appDone || tok in s.canceled }

  function Stay(s: State, next: Option<Pc>): Move {
    Move(s.sh, s.locks, s.db, next, None, None, None, None, {}, {}, false, s.closing, false)
  }

  function Write(s: State, sh: Shared, next: Option<Pc>): Move { Stay(s, next).(sh := sh) }

  /** runAsync: refused once Close has begun. */
  function Spawn(s: State, task: Pc, next: Option<Pc>): Move {
    Stay(s, next).(spawn := if s.closing then None else Some(task))
  }

  function Open(s: State, ip: Ip, next: Pc): Move { Stay(s, Some(next)).(opens := Some(ip)) }

  function CloseSession(s: State, sid: Sid, next: Option<Pc>): Move { Stay(s, next).(closes := Some(sid)) }

  /**
   validateForcedProtocol on the row the table has: the node offers the protocol and a driver for it is registered.
   */
  predicate Accepts(s: State, ip: Ip, forced: string) {
    ip in s.db.rows && (forced == "" || (forced in s.db.rows[ip].feed.protocols && forced in s.drivers))
  }

  function RequestMove(s: State, r: RequestPc, o: Oracle): Move {
    match r
    case Select(ip, selection, forced) =>
      var job := Job(ip, selection, true, s.sh.connectAttempt + 1, forced, s.nextToken);
      Write(s, BeginCandidate(s.sh, ip, s.nextToken), Some(Request(SpawnCandidate(job))))
        .(cancels := Opt(s.sh.cancelAutomatic) + Opt(s.sh.cancelConnect), newToken := true)
    case SpawnCandidate(job) =>
      Spawn(s, Candidate(job, CandidateLock), if s.closing then Some(Request(AbortCandidate(job))) else None)
    case AbortCandidate(job) =>
      Write(s, FinishCandidate(s.sh, job.attempt, Some("VPN manager is shutting down")), None).(cancels := {job.ctx})
    case PauseCall =>
      if s.sh.paused then Stay(s, None)
      else
        Write(s, Pause(s.sh), if s.sh.session.Some? then Some(Request(PauseClose(s.sh.session.value))) else None)
          .(cancels := Opt(s.sh.cancelAutomatic) + Opt(s.sh.cancelConnect))
    case PauseClose(sid) => CloseSession(s, sid, None)
    case ResumeCall =>
      if !s.sh.paused then Stay(s, None)
      else Write(s, Resume(s.sh), Some(Request(ResumeLookup(s.sh.selection, s.sh.manualIP, s.sh.manualProtocol))))
    case ResumeLookup(selection, ip, forced) =>
      if selection.Manual? && ip != "" then
        if o.ok && ip in s.db.rows then
          Stay(s, if Accepts(s, ip, forced) then Some(Request(Select(ip, Manual, forced))) else None)
        else Stay(s, Some(Request(ResumeReset)))
      else Stay(s, Some(Request(SpawnAutomatic)))
    case ResumeReset => Write(s, SetAutomatic(s.sh), Some(Request(SpawnAutomatic)))
    case SpawnAutomatic => Spawn(s, Loop(false, LoopLock), None)
  }

  function StartMove(s: State, b: StartPc, o: Oracle): Move {
    match b
    case StartCall => Stay(s, Some(Starting(StartLookup(s.sh.selection, s.sh.manualIP, s.sh.manualProtocol))))
    case StartLookup(selection, ip, forced) =>
      if selection.Manual? && ip != "" then
        if o.ok && ip in s.db.rows
        then Stay(s, Some(Starting(StartAnnounce(Job(ip, Manual, true, 0, forced, s.nextToken))))).(newToken := true)
        else Stay(s, Some(Starting(StartReset)))
      else Stay(s, Some(Loop(false, LoopLock)))
    case StartAnnounce(job) => Write(s, SetPhase(s.sh, Connecting, None), Some(Activate(job, ToStart, SwitchLock)))
    case StartReset => Write(s, SetAutomatic(s.sh), Some(Loop(false, LoopLock)))
  }

  function ServiceMove(s: State, v: ServicePc, o: Oracle): Move {
    match v
    case HealthCall =>
      if s.sh.session.Some? && !o.ok then Stay(s, Some(Failing(FailoverLock(s.sh.session)))) else Stay(s, None)
    case RefreshedCall =>
      if s.sh.paused then Stay(s, None)
      else if s.sh.session.None? then Stay(s, Some(Request(SpawnAutomatic)))
      else if !o.flag then Stay(s, None)
      else if s.sh.selection.Auto? then Stay(s, Some(Request(SpawnAutomatic)))
      else if s.sh.node != "" then Stay(s, Some(Service(RefreshedLookup(s.sh.node))))
      else Stay(s, None)
    case RefreshedLookup(ip) => Stay(s, if o.ok && ip !in s.db.rows then Some(Service(SpawnFailover)) else None)
    case SpawnFailover => Spawn(s, Failing(FailoverLock(None)), None)
    case TestCall => if o.ok then Open(s, o.text, Service(TestRunning(s.nextSid))) else Stay(s, None)
    case TestRunning(sid) => CloseSession(s, sid, None)
  }

  function CandidateMove(s: State, t: Tid, job: Job, c: CandidatePc): Move {
    match c
    case CandidateLock => Stay(s, Some(Candidate(job, CandidateCheck))).(locks := s.locks.(auto := Some(t)))
    case CandidateCheck =>
      if s.sh.connectAttempt == job.attempt then Stay(s, Some(Activate(job, ToCandidate, SwitchLock)))
      else Stay(s, None).(locks := s.locks.(auto := None), cancels := {job.ctx})
    case CandidateFinish(err) =>
      Write(s, FinishCandidate(s.sh, job.attempt, err), None).(locks := s.locks.(auto := None), cancels := {job.ctx})
  }

  /** Leaving switchAutomatic releases autoMu, and failoverMu when failover called it. */
  function Leave(locks: Locks, failover: bool): Locks {
    locks.(auto := None, failover := if failover then None else locks.failover)
  }

  function LoopMove(s: State, t: Tid, failover: bool, l: LoopPc, o: Oracle): Move {
    match l
    case LoopLock => Stay(s, Some(Loop(failover, LoopEnter))).(locks := s.locks.(auto := Some(t)))
    case LoopEnter =>
      if s.sh.paused then Stay(s, None).(locks := Leave(s.locks, failover))
      else
        Write(s, s.sh.(cancelAutomatic := Some(s.nextToken)), Some(Loop(failover, LoopNodes(s.nextToken))))
          .(newToken := true)
    case LoopNodes(tok) =>
      Stay(s, Some(Loop(failover, if o.ok && o.nodes != [] then LoopNext(o.nodes, tok) else LoopExit(tok))))
    case LoopNext(rest, tok) =>
      if rest == [] then Write(s, SetPhase(s.sh, Failed, Some(o.text)), Some(Loop(failover, LoopExit(tok))))
      else if Canceled(s, tok) then Stay(s, Some(Loop(failover, LoopExit(tok))))
      else
        Stay(s, Some(Activate(Job(rest[0], Auto, false, 0, "", tok), ToLoop(rest[1..], tok, failover), SwitchLock)))
    case LoopExit(tok) =>
      Write(s, s.sh.(cancelAutomatic := None), None).(locks := Leave(s.locks, failover), cancels := {tok})
  }

  /** Where the thread goes when its activation returns. */
  function ReturnTo(s: State, job: Job, ret: Ret, ok: bool, text: string): Option<Pc> {
    match ret
    case ToCandidate => Some(Candidate(job, CandidateFinish(if ok then None else Some(text))))
    case ToStart => if ok then None else Some(Starting(StartReset))
    case ToLoop(rest, tok, failover) =>
      Some(Loop(failover, if ok || Canceled(s, tok) then LoopExit(tok) else LoopNext(rest, tok)))
  }

  function InstallMove(s: State, job: Job, ret: Ret, sid: Sid, o: Oracle): Move {
    if !MayInstall(s.sh, job.attempt) then Stay(s, Some(Activate(job, ret, CloseUnused(sid))))
    else
      var sh := Install(s.sh, sid, job.ip, o.text, job.selection, job.forced);
      var after := if s.sh.session.Some? then CloseOld(s.sh.session.value, sid, sh.generation)
                   else SpawnWatcher(sid, sh.generation);
      Write(s, sh, Some(Activate(job, ret, after)))
        .(installs := Some(sid),
          db := if s.sh.node != "" && s.sh.node != job.ip then NodeTable.DeleteIfStale(s.db, s.sh.node) else s.db)
  }

  function ActivateMove(s: State, t: Tid, job: Job, ret: Ret, a: ActivatePc, o: Oracle): Move {
    match a
    case SwitchLock => Stay(s, Some(Activate(job, ret, Announce))).(locks := s.locks.(switch := Some(t)))
    case Announce =>
      Write(s, if job.requireHealth then s.sh else SetPhase(s.sh, Connecting, None), Some(Activate(job, ret, Connect)))
    case Connect =>
      if o.ok then
        Open(s, job.ip, Activate(job, ret, if job.requireHealth then Probe(s.nextSid) else Ready(s.nextSid)))
      else
        Write(s, if !job.requireHealth && !Canceled(s, job.ctx) then SetPhase(s.sh, Failed, Some(o.text)) else s.sh,
              Some(Activate(job, ret, Unlock(false))))
    case Probe(sid) =>
      if o.ok then Stay(s, Some(Activate(job, ret, Ready(sid)))).(probed := {sid})
      else Stay(s, Some(Activate(job, ret, Discard(sid))))
    case Discard(sid) => CloseSession(s, sid, Some(Activate(job, ret, Connect)))
    case Ready(sid) =>
      Stay(s, Some(Activate(job, ret, if Canceled(s, job.ctx) then CloseUnused(sid) else Installing(sid))))
    case Installing(sid) => InstallMove(s, job, ret, sid, o)
    case CloseUnused(sid) => CloseSession(s, sid, Some(Activate(job, ret, Unlock(false))))
    case CloseOld(previous, sid, gen) => CloseSession(s, previous, Some(Activate(job, ret, SpawnWatcher(sid, gen))))
    case SpawnWatcher(sid, gen) => Spawn(s, Watch(Waiting(sid, gen)), Some(Activate(job, ret, Unlock(true))))
    case Unlock(ok) =>
      var m := Stay(s, ReturnTo(s, job, ret, ok, o.text)).(locks := s.locks.(switch := None));
      if ret.ToLoop? && !ok && !Canceled(s, ret.tok)
      then m.(db := NodeTable.MarkFailure(s.db, job.ip, o.text, o.now))
      else m
  }

  /** The activation has not yet got to its install. */
  predicate Early(a: ActivatePc) {
    a.SwitchLock? || a.Announce? || a.Connect? || a.Probe? || a.Discard? || a.Ready?
  }

  lemma InstallIsItsStep(s: State, t: Tid, job: Job, ret: Ret, sid: Sid, o: Oracle)
    ensures ActivateMove(s, t, job, ret, Installing(sid), o) == InstallMove(s, job, ret, sid, o)
  {
    hide InstallMove;
  }

  function WatchMove(s: State, w: WatchPc): Move {
    match w
    case Waiting(sid, gen) => Stay(s, Some(Watch(Ended(sid, gen))))
    case Ended(sid, gen) =>
      if !s.appDone && s.sh.generation == gen then Stay(s, Some(Failing(FailoverLock(Some(sid))))) else Stay(s, None)
  }

  function FailoverMove(s: State, t: Tid, f: FailoverPc, o: Oracle): Move {
    match f
    case FailoverLock(expected) => Stay(s, Some(Failing(AutoLock(expected)))).(locks := s.locks.(failover := Some(t)))
    case AutoLock(expected) => Stay(s, Some(Failing(Decide(expected)))).(locks := s.locks.(auto := Some(t)))
    case Decide(expected) =>
      if !FailoverApplies(s.sh, expected) then Stay(s, None).(locks := Leave(s.locks, true))
      else
        Write(s, Failover(s.sh, o.flag, o.text),
              Some(Failing(if o.flag && s.sh.session.Some? then CloseFailed(s.sh.session.value, s.sh.node, expected)
                           else Mark(s.sh.node, expected))))
    case CloseFailed(sid, ip, target) => CloseSession(s, sid, Some(Failing(Mark(ip, target))))
    case Mark(ip, _) =>
      Stay(s, Some(Loop(true, LoopEnter)))
        .(db := if ip != "" then NodeTable.MarkFailure(s.db, ip, o.text, o.now) else s.db)
  }

  function ShutdownMove(s: State, c: ClosePc): Move {
    match c
    case CloseCall => Stay(s, Some(Shutdown(FirstSweep))).(closing := true)
    case FirstSweep =>
      Write(s, Sweep(s.sh),
            Some(Shutdown(if s.sh.session.Some? then CloseFirst(s.sh.session.value) else AwaitTasks(None))))
        .(cancels := Opt(s.sh.cancelAutomatic) + Opt(s.sh.cancelConnect), sweeps := true)
    case CloseFirst(sid) => CloseSession(s, sid, Some(Shutdown(AwaitTasks(Some(sid)))))
    case AwaitTasks(first) => Stay(s, Some(Shutdown(SecondSweep(first))))
    case SecondSweep(first) =>
      Write(s, LateSweep(s.sh),
            Some(Shutdown(if s.sh.session.Some? && s.sh.session != first
                          then CloseLate(s.sh.session.value)
                          else Returned)))
    case CloseLate(sid) => CloseSession(s, sid, Some(Shutdown(Returned)))
    case Returned => Stay(s, None)
  }

  function MoveOf(s: State, t: Tid, pc: Pc, o: Oracle): Move {
    match pc
    case Request(r) => RequestMove(s, r, o)
    case Starting(b) => StartMove(s, b, o)
    case Service(v) => ServiceMove(s, v, o)
    case Candidate(job, c) => CandidateMove(s, t, job, c)
    case Loop(failover, l) => LoopMove(s, t, failover, l, o)
    case Activate(job, ret, a) => ActivateMove(s, t, job, ret, a, o)
    case Watch(w) => WatchMove(s, w)
    case Failing(f) => FailoverMove(s, t, f, o)
    case Shutdown(c) => ShutdownMove(s, c)
  }

  /**
   Whether thread t can take a step: a lock must be free, the wait of Close needs every task to be over, and a watcher
   waits for its session to end. `o.flag` lets a session that is still open end by itself.
   */
  predicate CanRun(s: State, pc: Pc, luck: bool) {
    match pc
    case Candidate(_, CandidateLock) => s.locks.auto.None?
    case Loop(_, LoopLock) => s.locks.auto.None?
    case Activate(_, _, SwitchLock) => s.locks.switch.None?
    case Failing(FailoverLock(_)) => s.locks.failover.None?
    case Failing(AutoLock(_)) => s.locks.auto.None?
    case Watch(Waiting(sid, _)) => s.closes[sid] > 0 || s.appDone || luck
    case Shutdown(AwaitTasks(_)) => forall u :: u in s.threads ==> !s.threads[u].task
    case _ => true
  }

  function ThreadsAfter(s: State, t: Tid, m: Move): map<Tid, Thread>
    requires t in s.threads
  {
    var stepped := if m.next.Some? then s.threads[t := s.threads[t].(pc := m.next.value)] else s.threads - {t};
    if m.spawn.Some? then stepped[s.nextTid := Thread(true, m.spawn.value)] else stepped
  }

  function ClosesAfter(s: State, m: Move): multiset<Sid> {
    if m.closes.Some? then s.closes + multiset{m.closes.value} else s.closes
  }

  function NodesAfter(s: State, m: Move): map<Sid, Ip> {
    if m.opens.Some? then s.nodeOf[s.nextSid := m.opens.value] else s.nodeOf
  }

  function GensAfter(s: State, m: Move): map<Sid, nat> {
    if m.installs.Some? then s.genOf[m.installs.value := m.sh.generation] else s.genOf
  }

  function InstallsAfter(s: State, m: Move, attempt: nat): seq<nat> {
    if m.installs.Some? && attempt > 0 then s.installs + [attempt] else s.installs
  }

  function Commit(s: State, t: Tid, m: Move): State
    requires t in s.threads
  {
    State(
      m.sh, m.locks, m.db, ThreadsAfter(s, t, m),
      if m.spawn.Some? then s.nextTid + 1 else s.nextTid,
      if m.opens.Some? then s.nextSid + 1 else s.nextSid,
      if m.newToken then s.nextToken + 1 else s.nextToken,
      m.closing, s.appDone, s.canceled + m.cancels,
      ClosesAfter(s, m), s.drivers, NodesAfter(s, m), GensAfter(s, m), s.probed + m.probed,
      InstallsAfter(s, m, AttemptOf(s.threads[t].pc)), s.swept || m.sweeps)
  }

  /** The candidate attempt a thread works for; 0 for everything else. */
  function AttemptOf(pc: Pc): nat {
    match pc
    case Request(SpawnCandidate(job)) => job.attempt
    case Request(AbortCandidate(job)) => job.attempt
    case Candidate(job, _) => job.attempt
    case Activate(job, ToCandidate, _) => job.attempt
    case _ => 0
  }

  datatype Label =
    | Run(t: Tid, o: Oracle)
    | Call(r: Pc)
    | CancelContext(tok: Token)
    | CancelApp
    | Refresh(nodes: seq<NodeTable.Node>, at: Time)

  predicate IsCall(pc: Pc) {
    match pc
    case Request(Select(_, _, _)) => true
    case Request(PauseCall) => true
    case Request(ResumeCall) => true
    case Starting(StartCall) => true
    case Service(HealthCall) => true
    case Service(RefreshedCall) => true
    case Service(TestCall) => true
    case Failing(FailoverLock(_)) => true
    case Loop(false, LoopLock) => true
    case Shutdown(CloseCall) => true
    case _ => false
  }

  /** PreservedIP. */
  function Preserved(sh: Shared): Ip {
    if sh.session.Some? then sh.node
    else if sh.paused && sh.selection.Manual? then sh.manualIP
    else ""
  }

  predicate Enabled(s: State, l: Label) {
    match l
    case Run(t, o) => t in s.threads && CanRun(s, s.threads[t].pc, o.flag)
    case Call(pc) => IsCall(pc)
    case CancelContext(_) => true
    case CancelApp => true
    case Refresh(nodes, _) => NodeTable.DistinctIps(nodes)
  }

  function Next(s: State, l: Label): State
    requires Enabled(s, l)
  {
    match l
    case Run(t, o) => Commit(s, t, MoveOf(s, t, s.threads[t].pc, o))
    case Call(pc) => s.(threads := s.threads[s.nextTid := Thread(false, pc)], nextTid := s.nextTid + 1)
    case CancelContext(tok) => s.(canceled := s.canceled + {tok})
    case CancelApp => s.(appDone := true)
    case Refresh(nodes, at) => s.(db := NodeTable.Replaced(s.db, nodes, at, Preserved(s.sh)))
  }

  /** What the program starts with: the selection its metadata rows restore, the table, and the registered drivers. */
  datatype Boot = Boot(saved: Option<(Ip, string)>, db: NodeTable.Db, drivers: set<string>)

  function Init(b: Boot): State {
    State(Initial(b.saved), Locks(None, None, None), b.db, map[], 0, 0, 0, false, false, {},
          multiset{}, b.drivers, map[], map[], {}, [], false)
  }

  /** Whether the labels can be taken in turn from s, and where they lead. */
  predicate CanTake(s: State, ls: seq<Label>)
    decreases |ls|
  {
    ls == [] || (Enabled(s, ls[0]) && CanTake(Next(s, ls[0]), ls[1..]))
  }

  function Take(s: State, ls: seq<Label>): State
    requires CanTake(s, ls)
    decreases |ls|
  {
    if ls == [] then s else Take(Next(s, ls[0]), ls[1..])
  }
}
