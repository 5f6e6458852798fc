/**
 The speed-test service of internal/service/speedtest as a transition system: callers that queue, cancel, start and stop
 under lifecycleMu and jobsMu, and one worker that takes jobs from a channel. A step is one critical section or one
 channel operation.
 */
module SpeedTest {
  import opened Basics

  const QUEUE_CAPACITY := 128

  datatype Status = Running | Complete(bps: int) | Failed(err: string) | Canceled

  datatype Record = Record(id: nat, status: Status)

  /** The node under test. */
  datatype Target = Target(ip: Ip)

  /** A queued job. Its id tells it apart from earlier and later jobs for the same node. */
  datatype Job = Job(target: Target, id: nat)

  type Board = map<Target, Record>

  /** The job is the one its record is waiting for. */
  predicate Live(jobs: Board, job: Job) { job.target in jobs && jobs[job.target] == Record(job.id, Running) }

  /** A result is recorded only for the job the record is waiting for. */
  function Settle(jobs: Board, job: Job, result: Status): Board {
    if Live(jobs, job) then jobs[job.target := Record(job.id, result)] else jobs
  }

  function FailAll(jobs: Board, cause: string): Board {
    map target | target in jobs ::
      if jobs[target].status.Running? then Record(jobs[target].id, Failed(cause)) else jobs[target]
  }

  /** CancelManual. */
  function CancelJob(jobs: Board, target: Target): Board {
    if target in jobs && jobs[target].status.Running? then jobs[target := Record(jobs[target].id, Canceled)] else jobs
  }

  /** The worker goroutine. */
  datatype Worker =
    | Off                       // no channel: never started, or joined by Stop
    | Selecting
    | Holding(job: Job)         // received, not yet looked up
    | Testing(job: Job)
    | Panicked(job: Job)
    | Draining
    | Dropping(job: Job)        // received while draining
    | Finishing                 // past failPending or failRunning, before close(done)
    | Closed                    // done is closed

  /** Who holds lifecycleMu. */
  datatype Holder = Free | Queueing(target: Target) | Stopping

  /**
   `started`, `orphans`, `late`, `timedOut` and `panicked` are history: the tests begun, the ids of jobs that were still
   in a channel when it was dropped, whether a job was queued after the worker's last look at the channel, and whether a
   Stop ever timed out or a test ever panicked.
   */
  datatype State = State(
    jobs: Board, nextJobID: nat, queue: seq<Job>, worker: Worker, canceled: bool, holder: Holder,
    started: seq<nat>, orphans: set<nat>, late: bool, timedOut: bool, panicked: bool)

  datatype Label =
    | Start
    | StopCall | StopJoin | StopTimeout
    | QueueCheck(target: Target) | Enqueue
    | Cancel(target: Target)
    | Receive | Look | Finish(result: Status) | Panic | Recover
    | SeeCancel | DrainOne | DropOne | DrainEnd | CloseDone

  predicate Enabled(s: State, l: Label) {
    match l
    case Start => s.holder.Free?
    case StopCall => s.holder.Free?
    case StopJoin => s.holder.Stopping? && s.worker.Closed?
    case StopTimeout => s.holder.Stopping?
    case QueueCheck(_) => s.holder.Free?
    case Enqueue => s.holder.Queueing?
    case Cancel(_) => true
    case Receive => s.worker.Selecting? && s.queue != []
    case Look => s.worker.Holding?
    case Finish(result) =>
      s.worker.Testing? && !result.Running? && (result.Canceled? && Live(s.jobs, s.worker.job) ==> s.canceled)
    case Panic => s.worker.Testing?
    case Recover => s.worker.Panicked?
    case SeeCancel => s.worker.Selecting? && s.canceled
    case DrainOne => s.worker.Draining? && s.queue != []
    case DropOne => s.worker.Dropping?
    case DrainEnd => s.worker.Draining? && s.queue == []
    case CloseDone => s.worker.Finishing?
  }

  function IdsOf(queue: seq<Job>): set<nat> {
    set i | 0 <= i < |queue| :: queue[i].id
  }

  /** The channel and its worker are forgotten. */
  function Reset(s: State, worker: Worker): State {
    s.(queue := [], worker := worker, canceled := false, orphans := s.orphans + IdsOf(s.queue))
  }

  /** The job is in the channel; it comes late when the worker has taken its last look. */
  function Pushed(s: State, target: Target): State {
    var job := Job(target, s.nextJobID + 1);
    s.(holder := Free, nextJobID := job.id, jobs := s.jobs[target := Record(job.id, Running)], queue := s.queue + [job],
       late := s.late || s.worker.Finishing? || s.worker.Closed?)
  }

  /** The channel was full: the node loses its record. */
  function Overflowed(s: State, target: Target): State {
    s.(holder := Free, nextJobID := s.nextJobID + 1, jobs := s.jobs - {target})
  }

  /** The critical section of QueueManual under jobsMu. */
  function EnqueueNext(s: State, target: Target): State {
    if target in s.jobs && s.jobs[target].status.Running? then s.(holder := Free)
    else if |s.queue| < QUEUE_CAPACITY then Pushed(s, target)
    else Overflowed(s, target)
  }

  function WorkerNext(s: State, l: Label): State
    requires Enabled(s, l)
  {
    match l
    case Receive => s.(queue := s.queue[1..], worker := Holding(s.queue[0]))
    case Look =>
      if Live(s.jobs, s.worker.job)
      then s.(worker := Testing(s.worker.job), started := s.started + [s.worker.job.id])
      else s.(worker := Selecting)
    case Finish(result) => s.(jobs := Settle(s.jobs, s.worker.job, result), worker := Selecting)
    case Panic => s.(worker := Panicked(s.worker.job), panicked := true)
    case Recover => s.(jobs := FailAll(s.jobs, "panic"), worker := Finishing)
    case SeeCancel => s.(worker := Draining)
    case DrainOne => s.(queue := s.queue[1..], worker := Dropping(s.queue[0]))
    case DropOne => s.(jobs := Settle(s.jobs, s.worker.job, Failed("context canceled")), worker := Draining)
    case DrainEnd => s.(worker := Finishing)
    case CloseDone => s.(worker := Closed)
    case _ => s
  }

  function Next(s: State, l: Label): State
    requires Enabled(s, l)
  {
    match l
    case Start => if s.worker.Off? || s.worker.Closed? then Reset(s, Selecting) else s
    case StopCall => if s.worker.Off? then s else s.(canceled := true, holder := Stopping)
    case StopJoin => Reset(s, Off).(holder := Free)
    case StopTimeout => s.(holder := Free, timedOut := true)
    case QueueCheck(target) => if s.worker.Off? || s.worker.Closed? then s else s.(holder := Queueing(target))
    case Enqueue => EnqueueNext(s, s.holder.target)
    case Cancel(target) => s.(jobs := CancelJob(s.jobs, target))
    case _ => WorkerNext(s, l)
  }

  const INIT := State(map[], 0, [], Off, false, Free, [], {}, false, false, false)

  predicate CanTake(s: State, ls: seq<Label>)
    decreases |ls|
  {
    ls == [] || (Enabled(s, ls[0]) && CanTake(Next(s, ls[0]), ls[1..]))
  }

  function Take(s: State, ls: seq<Label>): State
    requires CanTake(s, ls)
    decreases |ls|
  {
    if ls == [] then s else Take(Next(s, ls[0]), ls[1..])
  }

  // ----- the invariant -----

  /** The job in the worker's hand. */
  function Hand(w: Worker): Option<Job> {
    match w
    case Holding(job) => Some(job)
    case Testing(job) => Some(job)
    case Panicked(job) => Some(job)
    case Dropping(job) => Some(job)
    case _ => None
  }

  ghost predicate Sorted(queue: seq<Job>) { forall i, j :: 0 <= i < j < |queue| ==> queue[i].id < queue[j].id }

  /** Ids are handed out once and jobs wait in that order behind the one in the worker's hand. */
  ghost predicate Ids(s: State) {
    && Sorted(s.queue)
    && (forall i :: 0 <= i < |s.queue| ==> 0 < s.queue[i].id <= s.nextJobID && s.queue[i].id !in s.orphans)
    && (Hand(s.worker).Some? ==>
         && 0 < Hand(s.worker).value.id <= s.nextJobID
         && Hand(s.worker).value.id !in s.orphans
         && (forall i :: 0 <= i < |s.queue| ==> Hand(s.worker).value.id < s.queue[i].id))
    && (forall id :: id in s.orphans ==> id <= s.nextJobID)
  }

  predicate HasToken(s: State, job: Job) {
    job in s.queue || Hand(s.worker) == Some(job) || job.id in s.orphans
  }

  /** Every running record has its job in the channel, in the worker's hand, or lost with an earlier channel. */
  ghost predicate Tokens(s: State) {
    && (forall target :: target in s.jobs ==> s.jobs[target].id <= s.nextJobID)
    && (forall target :: target in s.jobs && s.jobs[target].status.Running? ==>
         HasToken(s, Job(target, s.jobs[target].id)))
  }

  /** Tests are begun in the order of the requests, each once. */
  ghost predicate Order(s: State) {
    && (forall i, j :: 0 <= i < j < |s.started| ==> s.started[i] < s.started[j])
    && (forall i :: 0 <= i < |s.started| ==> s.started[i] <= s.nextJobID)
    && (forall i, k :: 0 <= i < |s.started| && 0 <= k < |s.queue| ==> s.started[i] < s.queue[k].id)
    && (s.worker.Holding? ==> forall i :: 0 <= i < |s.started| ==> s.started[i] < s.worker.job.id)
  }

  predicate WindingDown(w: Worker) { w.Draining? || w.Dropping? || w.Finishing? || w.Closed? }

  /** Unless a Stop timed out or a test panicked, the worker winds down only while Stop holds the lifecycle lock. */
  ghost predicate Lifecycle(s: State) {
    && (s.worker.Off? ==> s.queue == [] && !s.canceled && s.holder.Free?)
    && (s.late ==> s.timedOut || s.panicked)
    && (!s.timedOut && !s.panicked ==>
         && (s.canceled ==> s.holder.Stopping?)
         && (WindingDown(s.worker) ==> s.canceled)
         && !s.worker.Panicked?)
    && (s.worker.Panicked? ==> s.panicked)
  }

  /** Unless a job came late, nothing in a channel the worker has left is still wanted. */
  ghost predicate NoStrays(s: State) {
    !s.late ==>
      && (s.worker.Finishing? || s.worker.Closed? ==> forall i :: 0 <= i < |s.queue| ==> !Live(s.jobs, s.queue[i]))
      && (forall target :: target in s.jobs && s.jobs[target].status.Running? ==> s.jobs[target].id !in s.orphans)
  }

  ghost predicate Inv(s: State) { Ids(s) && Tokens(s) && Order(s) && Lifecycle(s) && NoStrays(s) }

  predicate ByWorker(l: Label) {
    !l.Start? && !l.StopCall? && !l.StopJoin? && !l.StopTimeout? && !l.QueueCheck? && !l.Enqueue? && !l.Cancel?
  }

  lemma IdsStep(s: State, l: Label)
    requires Ids(s) && Enabled(s, l)
    ensures Ids(Next(s, l))
  {
    hide FailAll, Live, Settle, CancelJob, EnqueueNext, WorkerNext;
    if l.Enqueue? {
      IdsEnqueue(s, s.holder.target);
    } else if ByWorker(l) {
      IdsWorker(s, l);
    }
  }

  lemma IdsEnqueue(s: State, target: Target)
    requires Ids(s)
    ensures Ids(EnqueueNext(s, target))
  {
    hide Pushed;
    IdsPush(s, target);
  }

  lemma IdsPush(s: State, target: Target)
    requires Ids(s)
    ensures Ids(Pushed(s, target))
  {
    hide Sorted;
    SortedPush(s.queue, Job(target, s.nextJobID + 1));
  }

  lemma SortedPush(queue: seq<Job>, job: Job)
    requires Sorted(queue) && forall i :: 0 <= i < |queue| ==> queue[i].id < job.id
    ensures Sorted(queue + [job])
  {
  }

  lemma IdsTake(s: State, w: Worker)
    requires Ids(s) && s.queue != [] && Hand(w) == Some(s.queue[0])
    ensures Ids(s.(queue := s.queue[1..], worker := w))
  {
    assert forall i :: 0 <= i < |s.queue[1..]| ==> s.queue[1..][i] == s.queue[i + 1];
  }

  /** Ids do not depend on the records, nor on what the worker does with the job it has. */
  lemma IdsFrame(s: State, s': State)
    requires Ids(s) && s' == s.(worker := s'.worker, jobs := s'.jobs, started := s'.started, panicked := s'.panicked)
    requires Hand(s'.worker) == Hand(s.worker) || Hand(s'.worker).None?
    ensures Ids(s')
  {
  }

  lemma IdsWorker(s: State, l: Label)
    requires Ids(s) && Enabled(s, l) && ByWorker(l)
    ensures Ids(WorkerNext(s, l))
  {
    hide FailAll, Live, Settle, CancelJob, Ids;
    if l.Receive? {
      IdsTake(s, Holding(s.queue[0]));
    } else if l.DrainOne? {
      IdsTake(s, Dropping(s.queue[0]));
    } else {
      IdsFrame(s, WorkerNext(s, l));
    }
  }

  lemma TokensWorker(s: State, l: Label)
    requires Tokens(s) && Enabled(s, l) && ByWorker(l)
    ensures Tokens(WorkerNext(s, l))
  {
    var s' := WorkerNext(s, l);
    forall target | target in s'.jobs && s'.jobs[target].status.Running?
      ensures HasToken(s', Job(target, s'.jobs[target].id))
    {
      assert HasToken(s, Job(target, s.jobs[target].id));
      assert s.queue != [] ==> s.queue == [s.queue[0]] + s.queue[1..];
    }
  }

  lemma TokensEnqueue(s: State, target: Target)
    requires Tokens(s)
    ensures Tokens(EnqueueNext(s, target))
  {
    hide Tokens, Pushed, Overflowed;
    TokensPush(s, target);
    TokensOverflow(s, target);
    TokensFrame(s, s.(holder := Free));
  }

  lemma TokensPush(s: State, target: Target)
    requires Tokens(s)
    ensures Tokens(Pushed(s, target))
  {
    var s' := Pushed(s, target);
    forall q | q in s'.jobs && s'.jobs[q].status.Running? ensures HasToken(s', Job(q, s'.jobs[q].id)) {
      assert q != target ==> HasToken(s, Job(q, s.jobs[q].id));
    }
  }

  lemma TokensOverflow(s: State, target: Target)
    requires Tokens(s)
    ensures Tokens(Overflowed(s, target))
  {
    var s' := Overflowed(s, target);
    forall q | q in s'.jobs && s'.jobs[q].status.Running? ensures HasToken(s', Job(q, s'.jobs[q].id)) {
      assert HasToken(s, Job(q, s.jobs[q].id));
    }
  }

  lemma TokensReset(s: State, w: Worker)
    requires Tokens(s) && Hand(s.worker).None? && Hand(w).None?
    ensures Tokens(Reset(s, w))
  {
    var s' := Reset(s, w);
    forall q | q in s'.jobs && s'.jobs[q].status.Running? ensures HasToken(s', Job(q, s'.jobs[q].id)) {
      var job := Job(q, s.jobs[q].id);
      assert HasToken(s, job);
      if job in s.queue {
        var i :| 0 <= i < |s.queue| && s.queue[i] == job;
        assert s.queue[i].id in IdsOf(s.queue);
      }
    }
  }

  lemma TokensCancel(s: State, target: Target)
    requires Tokens(s)
    ensures Tokens(s.(jobs := CancelJob(s.jobs, target)))
  {
    var s' := s.(jobs := CancelJob(s.jobs, target));
    forall q | q in s'.jobs && s'.jobs[q].status.Running? ensures HasToken(s', Job(q, s'.jobs[q].id)) {
      assert HasToken(s, Job(q, s.jobs[q].id));
    }
  }

  lemma TokensFrame(s: State, s': State)
    requires Tokens(s) && s' == s.(canceled := s'.canceled, holder := s'.holder, timedOut := s'.timedOut)
    ensures Tokens(s')
  {
    forall q | q in s'.jobs && s'.jobs[q].status.Running? ensures HasToken(s', Job(q, s'.jobs[q].id)) {
      assert HasToken(s, Job(q, s.jobs[q].id));
    }
  }

  lemma TokensStep(s: State, l: Label)
    requires Tokens(s) && Enabled(s, l)
    ensures Tokens(Next(s, l))
  {
    hide Tokens, WorkerNext, EnqueueNext, CancelJob;
    match l
    case Enqueue => TokensEnqueue(s, s.holder.target);
    case Cancel(target) => TokensCancel(s, target);
    case Start =>
      if s.worker.Off? || s.worker.Closed? {
        TokensReset(s, Selecting);
      }
    case StopJoin =>
      TokensReset(s, Off);
      TokensFrame(Reset(s, Off), Next(s, l));
    case StopCall => TokensFrame(s, Next(s, l));
    case StopTimeout => TokensFrame(s, Next(s, l));
    case QueueCheck(_) => TokensFrame(s, Next(s, l));
    case _ => TokensWorker(s, l);
  }

  lemma OrderStep(s: State, l: Label)
    requires Ids(s) && Order(s) && Enabled(s, l)
    ensures Order(Next(s, l))
  {
    hide FailAll, Live, Settle, CancelJob, EnqueueNext, WorkerNext;
    if l.Enqueue? {
      OrderEnqueue(s, s.holder.target);
    } else if ByWorker(l) {
      OrderWorker(s, l);
    }
  }

  lemma OrderEnqueue(s: State, target: Target)
    requires Order(s)
    ensures Order(EnqueueNext(s, target))
  {
  }

  lemma OrderTake(s: State, w: Worker)
    requires Ids(s) && Order(s) && s.queue != [] && (w == Holding(s.queue[0]) || w == Dropping(s.queue[0]))
    ensures Order(s.(queue := s.queue[1..], worker := w))
  {
    hide Ids;
    assert forall i :: 0 <= i < |s.queue[1..]| ==> s.queue[1..][i] == s.queue[i + 1];
  }

  lemma OrderLook(s: State, job: Job)
    requires Ids(s) && Order(s) && s.worker == Holding(job)
    ensures Order(s.(worker := Testing(job), started := s.started + [job.id]))
  {
    hide Sorted;
  }

  /** Order does not depend on the records, nor on what the worker does with a job it has looked up. */
  lemma OrderFrame(s: State, s': State)
    requires Order(s) && s' == s.(worker := s'.worker, jobs := s'.jobs, panicked := s'.panicked) && !s'.worker.Holding?
    ensures Order(s')
  {
  }

  lemma OrderWorker(s: State, l: Label)
    requires Ids(s) && Order(s) && Enabled(s, l) && ByWorker(l)
    ensures Order(WorkerNext(s, l))
  {
    hide FailAll, Live, Settle, CancelJob, Ids, Order;
    if l.Receive? {
      OrderTake(s, Holding(s.queue[0]));
    } else if l.DrainOne? {
      OrderTake(s, Dropping(s.queue[0]));
    } else if l.Look? && Live(s.jobs, s.worker.job) {
      OrderLook(s, s.worker.job);
    } else {
      OrderFrame(s, WorkerNext(s, l));
    }
  }

  lemma LifecycleStep(s: State, l: Label)
    requires Lifecycle(s) && Enabled(s, l)
    ensures Lifecycle(Next(s, l))
  {
    hide FailAll, Live;
  }

  lemma NoStraysWorker(s: State, l: Label)
    requires Ids(s) && Tokens(s) && NoStrays(s) && Enabled(s, l) && ByWorker(l)
    ensures NoStrays(WorkerNext(s, l))
  {
    hide Sorted, HasToken;
  }

  lemma NoStraysEnqueue(s: State, target: Target)
    requires Ids(s) && NoStrays(s)
    ensures NoStrays(EnqueueNext(s, target))
  {
    hide Sorted;
  }

  /** With nothing in the worker's hand, a running record's job is lost or still in the channel, and wanted. */
  lemma RunningIsWanted(s: State, target: Target)
    requires Tokens(s) && Hand(s.worker).None?
    requires target in s.jobs && s.jobs[target].status.Running?
    ensures s.jobs[target].id in s.orphans || exists i :: 0 <= i < |s.queue| && Live(s.jobs, s.queue[i])
  {
    var job := Job(target, s.jobs[target].id);
    assert HasToken(s, job);
    if job in s.queue {
      var i :| 0 <= i < |s.queue| && s.queue[i] == job;
      assert Live(s.jobs, s.queue[i]);
    }
  }

  /** A channel is left behind only by a worker that closed done; unless a job came late no record is then running. */
  lemma NoneRunning(s: State)
    requires Tokens(s) && NoStrays(s) && !s.late
    requires s.worker.Closed? || (s.worker.Off? && s.queue == [])
    ensures forall target :: target in s.jobs ==> !s.jobs[target].status.Running?
  {
    forall target | target in s.jobs ensures !s.jobs[target].status.Running? {
      if s.jobs[target].status.Running? {
        RunningIsWanted(s, target);
        assert false;
      }
    }
  }

  lemma NoStraysReset(s: State, w: Worker)
    requires Tokens(s) && NoStrays(s)
    requires s.worker.Closed? || (s.worker.Off? && s.queue == [])
    requires Hand(w).None?
    ensures NoStrays(Reset(s, w))
  {
    if !s.late {
      NoneRunning(s);
    }
  }

  lemma NoStraysStep(s: State, l: Label)
    requires Ids(s) && Tokens(s) && NoStrays(s) && Enabled(s, l) && (s.worker.Off? ==> s.queue == [])
    ensures NoStrays(Next(s, l))
  {
    hide Ids, Tokens, WorkerNext, EnqueueNext, FailAll, Settle;
    match l
    case Enqueue => NoStraysEnqueue(s, s.holder.target);
    case Start =>
      if s.worker.Off? || s.worker.Closed? {
        NoStraysReset(s, Selecting);
      }
    case StopJoin => NoStraysReset(s, Off);
    case StopCall =>
    case StopTimeout =>
    case QueueCheck(_) =>
    case Cancel(_) =>
    case _ => NoStraysWorker(s, l);
  }

  lemma StepKeepsInv(s: State, l: Label)
    requires Inv(s) && Enabled(s, l)
    ensures Inv(Next(s, l))
  {
    hide Ids, Tokens, Order, Lifecycle, NoStrays, Next;
    OffMeansEmpty(s);
    IdsStep(s, l);
    TokensStep(s, l);
    OrderStep(s, l);
    LifecycleStep(s, l);
    NoStraysStep(s, l);
  }

  lemma OffMeansEmpty(s: State)
    requires Lifecycle(s)
    ensures s.worker.Off? ==> s.queue == []
  {
  }

  /** The invariant holds along every run. */
  lemma {:induction false} RunKeepsInv(s: State, ls: seq<Label>)
    requires Inv(s) && CanTake(s, ls)
    ensures Inv(Take(s, ls))
    decreases |ls|
  {
    hide Inv, Next;
    if ls != [] {
      StepKeepsInv(s, ls[0]);
      RunKeepsInv(Next(s, ls[0]), ls[1..]);
    }
  }

  lemma InitHolds()
    ensures Inv(INIT)
  {
  }

  ghost predicate Reachable(s: State) { exists ls :: CanTake(INIT, ls) && s == Take(INIT, ls) }

  lemma ReachableInv(s: State)
    requires Reachable(s)
    ensures Inv(s)
  {
    hide Inv, Next;
    var ls :| CanTake(INIT, ls) && s == Take(INIT, ls);
    InitHolds();
    RunKeepsInv(INIT, ls);
  }
}
