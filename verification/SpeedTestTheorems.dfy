/** What the speed-test service promises over whole runs. */
module SpeedTestTheorems {
  import opened Basics
  import opened SpeedTest

  predicate AllTerminal(jobs: Board) { forall target :: target in jobs ==> !jobs[target].status.Running? }

  // ----- one token for every running record -----

  function Copies(s: State, id: nat): nat {
    |set i | 0 <= i < |s.queue| && s.queue[i].id == id|
    + (if Hand(s.worker).Some? && Hand(s.worker).value.id == id then 1 else 0)
    + (if id in s.orphans then 1 else 0)
  }

  /** No id is in two places at once. */
  lemma AtMostOneCopy(s: State, id: nat)
    requires Ids(s)
    ensures Copies(s, id) <= 1
    ensures Copies(s, id) == 1 <==>
              (exists i :: 0 <= i < |s.queue| && s.queue[i].id == id)
              || (Hand(s.worker).Some? && Hand(s.worker).value.id == id) || id in s.orphans
  {
    var spots := set i | 0 <= i < |s.queue| && s.queue[i].id == id;
    if i :| 0 <= i < |s.queue| && s.queue[i].id == id {
      assert spots == {i};
    } else {
      assert spots == {};
    }
  }

  /** A record is running only while exactly one job with its id exists, and that job is for the record's own node. */
  lemma OneTokenPerRunningRecord(s: State, target: Target)
    requires Reachable(s) && target in s.jobs && s.jobs[target].status.Running?
    ensures HasToken(s, Job(target, s.jobs[target].id)) && Copies(s, s.jobs[target].id) == 1
    ensures s.jobs[target].id <= s.nextJobID
    ensures !s.late ==>
              Job(target, s.jobs[target].id) in s.queue || Hand(s.worker) == Some(Job(target, s.jobs[target].id))
  {
    hide Order, Lifecycle;
    ReachableInv(s);
    var job := Job(target, s.jobs[target].id);
    assert HasToken(s, job);
    if job in s.queue {
      var i :| 0 <= i < |s.queue| && s.queue[i] == job;
      assert s.queue[i].id == job.id;
    }
    AtMostOneCopy(s, job.id);
  }

  /** Tests begin in the order of the requests, no job is tested twice, and what still waits comes after all of them. */
  lemma TestsFollowRequests(s: State)
    requires Reachable(s)
    ensures forall i, j :: 0 <= i < j < |s.started| ==> s.started[i] < s.started[j]
    ensures forall i, k :: 0 <= i < |s.started| && 0 <= k < |s.queue| ==> s.started[i] < s.queue[k].id
    ensures forall i, j :: 0 <= i < j < |s.queue| ==> s.queue[i].id < s.queue[j].id <= s.nextJobID
  {
    ReachableInv(s);
  }

  // ----- Stop -----

  /** When Stop has joined the worker every record is final, unless a job was queued behind the worker's back. */
  lemma StopLeavesNothingRunning(s: State)
    requires Reachable(s) && Enabled(s, StopJoin) && !s.late
    ensures AllTerminal(Next(s, StopJoin).jobs)
  {
    ReachableInv(s);
    NoneRunning(s);
  }

  /** Nothing can be queued behind the worker's back unless a Stop timed out or a test panicked. */
  lemma LateNeedsTimeoutOrPanic(s: State)
    requires Reachable(s) && !s.timedOut && !s.panicked
    ensures !s.late && (Enabled(s, StopJoin) ==> AllTerminal(Next(s, StopJoin).jobs))
  {
    ReachableInv(s);
    if Enabled(s, StopJoin) {
      NoneRunning(s);
    }
  }

  /** The job was accepted by a channel whose worker has taken its last look. */
  predicate ComesLate(s: State, l: Label)
    requires Enabled(s, l)
  {
    && l.Enqueue? && (s.worker.Finishing? || s.worker.Closed?) && |s.queue| < QUEUE_CAPACITY
    && !(s.holder.target in s.jobs && s.jobs[s.holder.target].status.Running?)
  }

  /** The nodes whose job came late and was neither cancelled nor swept up by a recovered panic since. */
  function Strays(s: State, ls: seq<Label>, strays: set<Target>): set<Target>
    requires CanTake(s, ls)
    decreases |ls|
  {
    if ls == [] then strays else Strays(Next(s, ls[0]), ls[1..], StraysAfter(s, ls[0], strays))
  }

  function StraysAfter(s: State, l: Label, strays: set<Target>): set<Target>
    requires Enabled(s, l)
  {
    if ComesLate(s, l) then strays + {s.holder.target}
    else if l.Cancel? then strays - {l.target}
    else if l.Recover? then {}
    else strays
  }

  /** No worker will ever take the job. */
  predicate Abandoned(s: State, job: Job) {
    job.id in s.orphans || ((s.worker.Finishing? || s.worker.Closed?) && job in s.queue)
  }

  predicate Stranded(s: State, target: Target) {
    target in s.jobs && s.jobs[target].status.Running? && Abandoned(s, Job(target, s.jobs[target].id))
  }

  ghost predicate StraysAre(s: State, strays: set<Target>) { forall target :: target in strays <==>
    Stranded(s, target) }

  lemma StraysWorker(s: State, l: Label, strays: set<Target>)
    requires Ids(s) && StraysAre(s, strays) && Enabled(s, l) && ByWorker(l)
    ensures StraysAre(WorkerNext(s, l), StraysAfter(s, l, strays))
  {
    var s' := WorkerNext(s, l);
    forall target ensures target in StraysAfter(s, l, strays) <==> Stranded(s', target) {
      assert target in strays <==> Stranded(s, target);
      assert s.queue != [] ==> s.queue == [s.queue[0]] + s.queue[1..];
    }
  }

  lemma StraysPush(s: State, target: Target, strays: set<Target>)
    requires Ids(s) && StraysAre(s, strays) && !(target in s.jobs && s.jobs[target].status.Running?)
    ensures StraysAre(Pushed(s, target), if s.worker.Finishing? || s.worker.Closed? then strays + {target} else strays)
  {
    var s' := Pushed(s, target);
    var strays' := if s.worker.Finishing? || s.worker.Closed? then strays + {target} else strays;
    forall q ensures q in strays' <==> Stranded(s', q) {
      assert q in strays <==> Stranded(s, q);
    }
  }

  lemma StraysOverflow(s: State, target: Target, strays: set<Target>)
    requires StraysAre(s, strays) && !(target in s.jobs && s.jobs[target].status.Running?)
    ensures StraysAre(Overflowed(s, target), strays)
  {
    var s' := Overflowed(s, target);
    forall q ensures q in strays <==> Stranded(s', q) {
      assert q in strays <==> Stranded(s, q);
    }
  }

  lemma StraysEnqueue(s: State, strays: set<Target>)
    requires Ids(s) && StraysAre(s, strays) && s.holder.Queueing?
    ensures StraysAre(EnqueueNext(s, s.holder.target), StraysAfter(s, Enqueue, strays))
  {
    hide Ids, StraysAre, Pushed, Overflowed;
    var target := s.holder.target;
    if target in s.jobs && s.jobs[target].status.Running? {
      StraysFrame(s, strays);
    } else {
      StraysPush(s, target, strays);
      StraysOverflow(s, target, strays);
    }
  }

  /** A job that is left behind in its channel is an orphan from then on. */
  lemma StraysReset(s: State, w: Worker, strays: set<Target>)
    requires Ids(s) && Tokens(s) && StraysAre(s, strays) && (s.worker.Closed? || (s.worker.Off? && s.queue == []))
    requires w.Off? || w.Selecting?
    ensures StraysAre(Reset(s, w), strays)
  {
    var s' := Reset(s, w);
    forall target ensures target in strays <==> Stranded(s', target) {
      assert target in strays <==> Stranded(s, target);
      if target in s.jobs && s.jobs[target].status.Running? {
        var job := Job(target, s.jobs[target].id);
        assert HasToken(s, job);
        if job in s.queue {
          var i :| 0 <= i < |s.queue| && s.queue[i] == job;
          assert s.queue[i].id in IdsOf(s.queue);
        }
      }
    }
  }

  lemma StraysCaller(s: State, l: Label, strays: set<Target>)
    requires StraysAre(s, strays) && Enabled(s, l)
    requires l.StopCall? || l.StopTimeout? || l.QueueCheck? || l.Cancel?
    ensures StraysAre(Next(s, l), StraysAfter(s, l, strays))
  {
    hide WorkerNext, EnqueueNext;
    var s' := Next(s, l);
    forall target ensures target in StraysAfter(s, l, strays) <==> Stranded(s', target) {
      assert target in strays <==> Stranded(s, target);
    }
  }

  lemma StraysStep(s: State, l: Label, strays: set<Target>)
    requires Inv(s) && StraysAre(s, strays) && Enabled(s, l)
    ensures StraysAre(Next(s, l), StraysAfter(s, l, strays))
  {
    hide Inv, Ids, Tokens, WorkerNext, EnqueueNext, Stranded, StraysAre;
    InvParts(s);
    InvLifecycle(s);
    if l.Enqueue? {
      StraysEnqueue(s, strays);
    } else if ByWorker(l) {
      StraysWorker(s, l, strays);
    } else if l.Start? {
      if s.worker.Off? || s.worker.Closed? {
        StraysReset(s, Selecting, strays);
      }
    } else if l.StopJoin? {
      StraysReset(s, Off, strays);
      StraysFrame(Reset(s, Off), strays);
    } else {
      StraysCaller(s, l, strays);
    }
  }

  lemma StraysFrame(s: State, strays: set<Target>)
    requires StraysAre(s, strays)
    ensures StraysAre(s.(holder := Free), strays)
  {
    forall target ensures target in strays <==> Stranded(s.(holder := Free), target) {
      assert target in strays <==> Stranded(s, target);
    }
  }

  lemma {:induction false} StraysRun(s: State, ls: seq<Label>, strays: set<Target>)
    requires Inv(s) && StraysAre(s, strays) && CanTake(s, ls)
    ensures StraysAre(Take(s, ls), Strays(s, ls, strays)) && Inv(Take(s, ls))
    decreases |ls|
  {
    hide Inv, Next, Enabled, StraysAre, StraysAfter;
    if ls != [] {
      StepKeepsInv(s, ls[0]);
      StraysStep(s, ls[0], strays);
      StraysRun(Next(s, ls[0]), ls[1..], StraysAfter(s, ls[0], strays));
    }
  }

  /**
   Exactly when Stop leaves no record running, told by what the callers did: every job that was accepted after its
   worker's last look has been cancelled, or failed by a recovered panic, before the join.
   */
  lemma StopIsCleanIff(ls: seq<Label>)
    requires CanTake(INIT, ls) && Enabled(Take(INIT, ls), StopJoin)
    ensures AllTerminal(Next(Take(INIT, ls), StopJoin).jobs) <==> Strays(INIT, ls, {}) == {}
  {
    hide Next;
    InitHolds();
    assert StraysAre(INIT, {});
    StraysRun(INIT, ls, {});
    var s := Take(INIT, ls);
    hide Take, CanTake, Strays;
    JoinKeepsJobs(s);
    ClosedMeansStranded(s);
    assert forall target :: target in Strays(INIT, ls, {}) <==> Stranded(s, target);
  }

  lemma JoinKeepsJobs(s: State)
    requires Enabled(s, StopJoin)
    ensures Next(s, StopJoin).jobs == s.jobs
  {
  }

  /** Behind a worker that has closed done every running record is stranded. */
  lemma ClosedMeansStranded(s: State)
    requires Inv(s) && s.worker.Closed?
    ensures forall target :: target in s.jobs && s.jobs[target].status.Running? ==> Stranded(s, target)
  {
    hide Ids, Order, Lifecycle, NoStrays;
    forall target | target in s.jobs && s.jobs[target].status.Running? ensures Stranded(s, target) {
      assert HasToken(s, Job(target, s.jobs[target].id));
    }
  }

  /**
   A Stop that times out frees the lifecycle lock while the worker is still winding down; a job queued in that window is
   accepted, never tested, and still reported as running after the next Stop has returned nil.
   */
  lemma StopCanStrandAJob(target: Target)
    ensures exists s :: Reachable(s) && Enabled(s, StopJoin)
              && Next(s, StopJoin).jobs == map[target := Record(1, Running)]
  {
    hide FailAll, Settle, CancelJob, CanTake, Take, Reachable;
    InitReachable();
    ReachMore(INIT, Start);
    var s0 := INIT.(worker := Selecting);
    assert Next(INIT, Start) == s0;
    ReachMore(s0, StopCall);
    var s1 := s0.(canceled := true, holder := Stopping);
    ReachMore(s1, SeeCancel);
    var s2 := s1.(worker := Draining);
    ReachMore(s2, DrainEnd);
    var s3 := s2.(worker := Finishing);
    ReachMore(s3, StopTimeout);
    var s4 := s3.(holder := Free, timedOut := true);
    StrandAfterTimeout(s4, target);
  }

  lemma StrandAfterTimeout(s: State, target: Target)
    requires Reachable(s)
    requires s == INIT.(worker := Finishing, canceled := true, timedOut := true)
    ensures exists s' :: Reachable(s') && Enabled(s', StopJoin)
              && Next(s', StopJoin).jobs == map[target := Record(1, Running)]
  {
    hide FailAll, Settle, CancelJob, CanTake, Take, Reachable;
    ReachMore(s, QueueCheck(target));
    var s1 := s.(holder := Queueing(target));
    ReachMore(s1, Enqueue);
    var s2 := s.(jobs := map[target := Record(1, Running)], nextJobID := 1, queue := [Job(target, 1)], late := true);
    assert EnqueueNext(s1, target) == s2;
    ReachMore(s2, CloseDone);
    var s3 := s2.(worker := Closed);
    ReachMore(s3, StopCall);
    var s4 := s3.(holder := Stopping);
    assert Next(s4, StopJoin).jobs == map[target := Record(1, Running)];
  }

  lemma InitReachable()
    ensures Reachable(INIT)
  {
    assert CanTake(INIT, []) && Take(INIT, []) == INIT;
  }

  lemma ReachMore(s: State, l: Label)
    requires Reachable(s) && Enabled(s, l)
    ensures Reachable(Next(s, l))
  {
    hide Next, Enabled;
    var ls :| CanTake(INIT, ls) && s == Take(INIT, ls);
    TakeOneMore(INIT, ls, l);
  }

  lemma {:induction false} TakeOneMore(s: State, ls: seq<Label>, l: Label)
    requires CanTake(s, ls) && Enabled(Take(s, ls), l)
    ensures CanTake(s, ls + [l]) && Take(s, ls + [l]) == Next(Take(s, ls), l)
    decreases |ls|
  {
    hide Next, Enabled;
    if ls == [] {
      assert CanTake(Next(s, l), []);
      assert ls + [l] == [l] && [l][1..] == [];
    } else {
      TakeOneMore(Next(s, ls[0]), ls[1..], l);
      assert (ls + [l])[1..] == ls[1..] + [l];
    }
  }

  /** The worker's remaining steps while Stop waits for it. */
  function Remaining(s: State): nat {
    4 * |s.queue| +
    match s.worker
    case Off => 0
    case Closed => 0
    case Finishing => 1
    case Draining => 2
    case Dropping(_) => 3
    case Selecting => 3
    case Panicked(_) => 2
    case Testing(_) => 4
    case Holding(_) => 5
  }

  /** Stop never waits for ever: the worker can always move, and each of its moves brings close(done) nearer. */
  lemma StopWaitsOnlyForTheWorker(s: State)
    requires Reachable(s) && s.holder.Stopping? && s.canceled
    ensures s.worker.Closed? || exists l :: ByWorker(l) && Enabled(s, l)
    ensures forall l :: ByWorker(l) && Enabled(s, l) ==>
              Remaining(Next(s, l)) < Remaining(s) && Next(s, l).holder.Stopping? && Next(s, l).canceled
  {
    hide Remaining, WorkerNext, Enabled, Next, Inv, Reachable, WorkersMove;
    ReachableInv(s);
    InvLifecycle(s);
    if !s.worker.Closed? {
      var l := WorkersMove(s);
      assert ByWorker(l) && Enabled(s, l);
    }
    forall l | ByWorker(l) && Enabled(s, l)
      ensures Remaining(Next(s, l)) < Remaining(s) && Next(s, l).holder.Stopping? && Next(s, l).canceled
    {
      WorkerWindsDown(s, l);
    }
  }

  lemma InvLifecycle(s: State)
    requires Inv(s)
    ensures s.worker.Off? ==> s.holder.Free? && s.queue == []
  {
  }

  lemma WorkerWindsDown(s: State, l: Label)
    requires ByWorker(l) && Enabled(s, l)
    ensures Remaining(Next(s, l)) < Remaining(s)
    ensures Next(s, l).holder == s.holder && Next(s, l).canceled == s.canceled
  {
    hide FailAll, Settle, Live;
  }

  function WorkersMove(s: State): (l: Label)
    requires !s.worker.Off? && !s.worker.Closed? && s.canceled
    ensures ByWorker(l) && Enabled(s, l)
  {
    match s.worker
    case Selecting => SeeCancel
    case Holding(_) => Look
    case Testing(_) => Finish(Failed("timeout"))
    case Panicked(_) => Recover
    case Draining => if s.queue == [] then DrainEnd else DrainOne
    case Dropping(_) => DropOne
    case Finishing => CloseDone
  }

  // ----- results -----

  /** Somewhere in the run a QueueManual for the node reaches the job table. */
  predicate Requeued(s: State, ls: seq<Label>, target: Target)
    requires CanTake(s, ls)
    decreases |ls|
  {
    ls != [] && ((ls[0].Enqueue? && s.holder == Queueing(target)) || Requeued(Next(s, ls[0]), ls[1..], target))
  }

  predicate Terminal(jobs: Board, target: Target) { target in jobs && !jobs[target].status.Running? }

  lemma TerminalWorker(s: State, l: Label, target: Target)
    requires Terminal(s.jobs, target) && Enabled(s, l) && ByWorker(l)
    ensures var s' := WorkerNext(s, l); target in s'.jobs && s'.jobs[target] == s.jobs[target]
  {
    hide EnqueueNext, CancelJob;
  }

  lemma TerminalStep(s: State, l: Label, target: Target)
    requires Terminal(s.jobs, target) && Enabled(s, l) && !(l.Enqueue? && s.holder == Queueing(target))
    ensures target in Next(s, l).jobs && Next(s, l).jobs[target] == s.jobs[target]
  {
    hide WorkerNext;
    if ByWorker(l) {
      TerminalWorker(s, l, target);
    }
  }

  /** A final result is replaced or removed only by a later QueueManual for that node, whatever else happens. */
  lemma {:induction false} FinalResultsStay(s: State, ls: seq<Label>, target: Target)
    requires Terminal(s.jobs, target) && CanTake(s, ls) && !Requeued(s, ls, target)
    ensures Terminal(Take(s, ls).jobs, target) && Take(s, ls).jobs[target] == s.jobs[target]
    decreases |ls|
  {
    if ls != [] {
      TerminalStep(s, ls[0], target);
      FinalResultsStay(Next(s, ls[0]), ls[1..], target);
    }
  }

  /** The record of a node keeps its id until a later request, with a larger id, replaces or drops it. */
  lemma RecordStep(s: State, l: Label, target: Target)
    requires Ids(s) && Tokens(s) && target in s.jobs && Enabled(s, l)
    ensures var s' := Next(s, l);
            target in s'.jobs ==>
              s'.jobs[target] == s.jobs[target]
              || (s.jobs[target].status.Running? && !s'.jobs[target].status.Running?
                && s'.jobs[target].id == s.jobs[target].id)
              || (!s.jobs[target].status.Running? && s'.jobs[target] == Record(s'.nextJobID, Running)
                  && s'.jobs[target].id > s.jobs[target].id)
    ensures s.jobs[target].status.Running? ==> target in Next(s, l).jobs
  {
    hide Ids, EnqueueNext;
    if l.Enqueue? {
      RecordEnqueue(s, s.holder.target, target);
    }
  }

  lemma RecordEnqueue(s: State, queued: Target, target: Target)
    requires Tokens(s) && target in s.jobs
    ensures var s' := EnqueueNext(s, queued);
            && (target in s'.jobs && s'.jobs[target] != s.jobs[target] ==>
                 !s.jobs[target].status.Running? && s'.jobs[target] == Record(s'.nextJobID, Running)
                 && s'.jobs[target].id > s.jobs[target].id)
            && (s.jobs[target].status.Running? ==> target in s'.jobs && s'.jobs[target] == s.jobs[target])
  {
  }

  /**
   A running record never changes hands: at the end of any run it is as it was, or settled, or replaced by a newer
   job.
   */
  lemma {:induction false} RecordsNeverGoBack(s: State, ls: seq<Label>, target: Target)
    requires Inv(s) && target in s.jobs && CanTake(s, ls) && target in Take(s, ls).jobs
    ensures var t := Take(s, ls);
            t.jobs[target].id > s.jobs[target].id
            || t.jobs[target] == s.jobs[target]
            || (t.jobs[target].id == s.jobs[target].id && s.jobs[target].status.Running?
              && !t.jobs[target].status.Running?)
    decreases |ls|
  {
    hide Inv, Ids, Tokens, Next;
    if ls != [] {
      StepKeepsInv(s, ls[0]);
      InvParts(s);
      RecordStep(s, ls[0], target);
      var s' := Next(s, ls[0]);
      if target in s'.jobs {
        RecordsNeverGoBack(s', ls[1..], target);
      } else {
        NextIdGrows(s, ls[0]);
        DroppedThenNewer(s', ls[1..], target);
        RecordsBelow(s, target);
      }
    }
  }

  lemma InvParts(s: State)
    requires Inv(s)
    ensures Ids(s) && Tokens(s)
  {
  }

  lemma RecordsBelow(s: State, target: Target)
    requires Inv(s) && target in s.jobs
    ensures s.jobs[target].id <= s.nextJobID
  {
  }

  lemma NextIdGrows(s: State, l: Label)
    requires Enabled(s, l)
    ensures Next(s, l).nextJobID >= s.nextJobID
  {
    hide FailAll, Settle, Live, CancelJob;
  }

  lemma AppearsNewer(s: State, l: Label, target: Target)
    requires target !in s.jobs && Enabled(s, l)
    ensures target in Next(s, l).jobs ==> Next(s, l).jobs[target].id > s.nextJobID
  {
  }

  /** A node without a record can only get one with an id never used before. */
  lemma {:induction false} DroppedThenNewer(s: State, ls: seq<Label>, target: Target)
    requires Inv(s) && target !in s.jobs && CanTake(s, ls) && target in Take(s, ls).jobs
    ensures Take(s, ls).jobs[target].id > s.nextJobID
    decreases |ls|
  {
    hide Inv, Next;
    var s' := Next(s, ls[0]);
    StepKeepsInv(s, ls[0]);
    AppearsNewer(s, ls[0], target);
    NextIdGrows(s, ls[0]);
    if target in s'.jobs {
      RecordsNeverGoBack(s', ls[1..], target);
    } else {
      DroppedThenNewer(s', ls[1..], target);
    }
  }

  // ----- what a record shows -----

  /** What the step makes of a running record of this id: a result, or nothing. */
  function SettledTo(s: State, l: Label, target: Target, id: nat): Option<Status>
    requires Enabled(s, l)
  {
    match l
    case Finish(result) => if s.worker == Testing(Job(target, id)) then Some(result) else None
    case DropOne => if s.worker == Dropping(Job(target, id)) then Some(Failed("context canceled")) else None
    case Cancel(canceled) => if canceled == target then Some(Canceled) else None
    case Recover => Some(Failed("panic"))
    case _ => None
  }

  lemma WorkerSettles(s: State, l: Label, target: Target)
    requires Enabled(s, l) && ByWorker(l) && target in s.jobs && s.jobs[target].status.Running?
    ensures var result := SettledTo(s, l, target, s.jobs[target].id);
            && target in WorkerNext(s, l).jobs
            && WorkerNext(s, l).jobs[target] ==
                 if result.Some? then Record(s.jobs[target].id, result.value) else s.jobs[target]
  {
    hide EnqueueNext, CancelJob;
  }

  /** A running record is settled by exactly these steps, to exactly their result, and otherwise stays as it is. */
  lemma StepSettles(s: State, l: Label, target: Target)
    requires Enabled(s, l) && target in s.jobs && s.jobs[target].status.Running?
    ensures var result := SettledTo(s, l, target, s.jobs[target].id);
            && target in Next(s, l).jobs
            && Next(s, l).jobs[target] ==
                 if result.Some? then Record(s.jobs[target].id, result.value) else s.jobs[target]
  {
    hide WorkerNext;
    if ByWorker(l) {
      WorkerSettles(s, l, target);
    }
  }

  /** The result of the first step of the run that settles the record; still running if there is none. */
  function FirstResult(s: State, ls: seq<Label>, target: Target, id: nat): Status
    requires CanTake(s, ls)
    decreases |ls|
  {
    if ls == [] then Running
    else
      var result := SettledTo(s, ls[0], target, id);
      if result.Some? then result.value else FirstResult(Next(s, ls[0]), ls[1..], target, id)
  }

  lemma ResultsAreFinal(s: State, l: Label, target: Target, id: nat)
    requires Enabled(s, l)
    ensures SettledTo(s, l, target, id).Some? ==> !SettledTo(s, l, target, id).value.Running?
  {
  }

  /**
   Over any run a record shows exactly the result of the one step that settled its job: the outcome of its test, the
   user's cancellation, the drain of a stopped worker, or a recovered panic. Nothing that comes later changes it while
   the record keeps its id.
   */
  lemma {:induction false} RecordsShowTheirResult(s: State, ls: seq<Label>, target: Target)
    requires Inv(s) && CanTake(s, ls) && target in s.jobs && s.jobs[target].status.Running?
    requires target in Take(s, ls).jobs && Take(s, ls).jobs[target].id == s.jobs[target].id
    ensures Take(s, ls).jobs[target].status == FirstResult(s, ls, target, s.jobs[target].id)
    decreases |ls|
  {
    hide Inv, Next, Enabled, SettledTo;
    if ls != [] {
      StepSettles(s, ls[0], target);
      StepKeepsInv(s, ls[0]);
      ResultsAreFinal(s, ls[0], target, s.jobs[target].id);
      if SettledTo(s, ls[0], target, s.jobs[target].id).Some? {
        RecordsNeverGoBack(Next(s, ls[0]), ls[1..], target);
      } else {
        RecordsShowTheirResult(Next(s, ls[0]), ls[1..], target);
      }
    }
  }

  /** A run in which a request is accepted, tested and reported with the measured speed. */
  lemma RequestsAreTested(target: Target, bps: int)
    ensures exists s :: Reachable(s) && s.jobs == map[target := Record(1, Complete(bps))] && s.started == [1]
                        && s.worker.Selecting? && s.holder.Free? && s.queue == []
  {
    hide FailAll, CancelJob, CanTake, Take, Reachable;
    InitReachable();
    ReachMore(INIT, Start);
    var s0 := INIT.(worker := Selecting);
    assert Next(INIT, Start) == s0;
    ReachMore(s0, QueueCheck(target));
    var s1 := s0.(holder := Queueing(target));
    ReachMore(s1, Enqueue);
    var job := Job(target, 1);
    var s2 := s0.(jobs := map[target := Record(1, Running)], nextJobID := 1, queue := [job]);
    assert EnqueueNext(s1, target) == s2;
    ReachMore(s2, Receive);
    assert [job][1..] == [];
    assert Next(s2, Receive) == s2.(queue := [], worker := Holding(job));
    TestAndReport(s2.(queue := [], worker := Holding(job)), job, bps);
  }

  lemma TestAndReport(s: State, job: Job, bps: int)
    requires Reachable(s) && s.worker == Holding(job) && s.holder.Free? && s.queue == [] && s.started == []
    requires job.id == 1 && s.jobs == map[job.target := Record(1, Running)]
    ensures exists t :: Reachable(t) && t.jobs == map[job.target := Record(1, Complete(bps))] && t.started == [1]
                        && t.worker.Selecting? && t.holder.Free? && t.queue == []
  {
    hide FailAll, CancelJob, CanTake, Take, Reachable, EnqueueNext;
    ReachMore(s, Look);
    var s1 := Next(s, Look);
    ReachMore(s1, Finish(Complete(bps)));
    var t := Next(s1, Finish(Complete(bps)));
    assert t.jobs == map[job.target := Record(1, Complete(bps))];
  }
}
