/**
 The Service object of internal/service/speedtest. Its methods are the bodies the callers and the worker run, and each
 is proved to take exactly the steps of the transition system that its place in the protocol allows.
 */
module SpeedTestService {
  import opened Basics
  import opened SpeedTest
  import opened SpeedTestTheorems

  datatype Reply =
    | Accepted
    | NotRunning
    | AlreadyRunning
    | QueueFull
    | NotFound
    | Known(status: Status)

  /** Every job left in the channel is failed, in order. */
  function DropAll(jobs: Board, queue: seq<Job>, cause: string): Board
    decreases |queue|
  {
    if queue == [] then jobs else DropAll(Settle(jobs, queue[0], Failed(cause)), queue[1..], cause)
  }

  /** Draining fails exactly the records whose own job was in the channel, and leaves no job there wanted. */
  lemma {:induction false} DrainFailsWhatWaits(jobs: Board, queue: seq<Job>, cause: string)
    ensures var r := DropAll(jobs, queue, cause);
            && r.Keys == jobs.Keys
            && (forall target :: target in jobs ==>
                 r[target] == if jobs[target].status.Running? && Job(target, jobs[target].id) in queue
                          then Record(jobs[target].id, Failed(cause)) else jobs[target])
            && (forall i :: 0 <= i < |queue| ==> !Live(r, queue[i]))
    decreases |queue|
  {
    if queue != [] {
      assert queue == [queue[0]] + queue[1..];
      DrainFailsWhatWaits(Settle(jobs, queue[0], Failed(cause)), queue[1..], cause);
    }
  }

  class Service {
    var jobs: Board
    var nextJobID: nat
    var queue: seq<Job>
    /** Whether there is a channel at all, and whether its worker closed done. */
    var present: bool
    var done: bool
    var canceled: bool
    ghost var model: State

    ghost predicate Valid()
      reads this
    {
      && Inv(model)
      && model.jobs == jobs && model.nextJobID == nextJobID && model.queue == queue && model.canceled == canceled
      && (present <==> !model.worker.Off?)
      && (done <==> model.worker.Closed?)
    }

    constructor ()
      ensures Valid() && model == INIT
    {
      jobs, nextJobID, queue, present, done, canceled := map[], 0, [], false, false, false;
      model := INIT;
      new;
      InitHolds();
    }

    method Start() returns (ok: bool)
      requires Valid() && model.holder.Free?
      modifies this
      ensures Valid() && model == Next(old(model), SpeedTest.Start)
      ensures ok <==> !old(present) || old(done)
      ensures ok ==> model.worker.Selecting? && queue == [] && !canceled
      ensures jobs == old(jobs)
    {
      hide Inv;
      StepKeepsInv(model, SpeedTest.Start);
      ok := !present || done;
      model := Next(model, SpeedTest.Start);
      if ok {
        queue, present, done, canceled := [], true, false, false;
      }
    }

    /** Stop up to its wait for done. Nothing to wait for when there is no channel. */
    method BeginStop() returns (wait: bool)
      requires Valid() && model.holder.Free?
      modifies this
      ensures Valid() && model == Next(old(model), StopCall)
      ensures wait <==> old(present)
    {
      hide Inv;
      StepKeepsInv(model, StopCall);
      model := Next(model, StopCall);
      wait := present;
      if present {
        canceled := true;
      }
    }

    /** The end of Stop: done was closed, or the caller's context ended first. */
    method EndStop(expired: bool) returns (ok: bool)
      requires Valid() && model.holder.Stopping? && (!expired ==> done)
      modifies this
      ensures Valid() && model == Next(old(model), if expired then StopTimeout else StopJoin)
      ensures ok <==> !expired
      ensures ok && !old(model).late ==> AllTerminal(jobs)
    {
      hide Inv;
      var l := if expired then StopTimeout else StopJoin;
      StepKeepsInv(model, l);
      if !expired && !model.late {
        JoinSettlesAll(model);
      }
      model := Next(model, l);
      ok := !expired;
      if ok {
        queue, present, done, canceled := [], false, false, false;
      }
    }

    /** The first half of QueueManual: the lifecycle lock and the checks made under it. */
    method Admit(target: Target) returns (admitted: bool)
      requires Valid() && model.holder.Free?
      modifies this`model
      ensures Valid() && model == Next(old(model), QueueCheck(target))
      ensures admitted <==> present && !done
      ensures admitted ==> model.holder == Queueing(target)
    {
      hide Inv;
      StepKeepsInv(model, QueueCheck(target));
      model := Next(model, QueueCheck(target));
      admitted := present && !done;
    }

    /** The second half of QueueManual, under jobsMu. */
    method Enqueue(target: Target) returns (reply: Reply)
      requires Valid() && model.holder == Queueing(target)
      modifies this
      ensures Valid() && model == Next(old(model), SpeedTest.Enqueue)
      ensures reply.AlreadyRunning? <==> target in old(jobs) && old(jobs)[target].status.Running?
      ensures reply.Accepted? <==> (!reply.AlreadyRunning? && |old(queue)| < 128)
      ensures reply.AlreadyRunning? || reply.Accepted? || reply.QueueFull?
      ensures reply.Accepted? ==>
                && queue == old(queue) + [Job(target, nextJobID)]
                && jobs == old(jobs)[target := Record(nextJobID, Running)]
      ensures reply.QueueFull? ==> queue == old(queue) && jobs == old(jobs) - {target}
    {
      hide Inv;
      StepKeepsInv(model, SpeedTest.Enqueue);
      ghost var next := Next(model, SpeedTest.Enqueue);
      if target in jobs && jobs[target].status.Running? {
        model, reply := next, AlreadyRunning;
      } else if |queue| < QUEUE_CAPACITY {
        var id := nextJobID + 1;
        Apply(jobs[target := Record(id, Running)], id, queue + [Job(target, id)], next);
        reply := Accepted;
      } else {
        Apply(jobs - {target}, nextJobID + 1, queue, next);
        reply := QueueFull;
      }
    }

    method Apply(board: Board, id: nat, waiting: seq<Job>, ghost next: State)
      modifies this`jobs, this`nextJobID, this`queue, this`model
      ensures jobs == board && nextJobID == id && queue == waiting && model == next
    {
      jobs, nextJobID, queue, model := board, id, waiting, next;
    }

    /** QueueManual when no other thread moves between its two halves. */
    method QueueManual(target: Target) returns (reply: Reply)
      requires Valid() && model.holder.Free?
      modifies this
      ensures Valid() && model.holder.Free?
      ensures reply.NotRunning? <==> !old(present) || old(done)
      ensures reply.Accepted? <==>
                !reply.NotRunning? && !(target in old(jobs) && old(jobs)[target].status.Running?)
                  && |old(queue)| < 128
      ensures reply.Accepted? ==>
                jobs == old(jobs)[target := Record(nextJobID, Running)] && nextJobID == old(nextJobID) + 1
      ensures reply.NotRunning? || reply.AlreadyRunning? ==> jobs == old(jobs) && nextJobID == old(nextJobID)
      ensures !reply.Accepted? ==> queue == old(queue)
    {
      hide Inv;
      var admitted := Admit(target);
      if admitted {
        reply := Enqueue(target);
      } else {
        reply := NotRunning;
      }
    }

    /** Result. */
    method Result(target: Target) returns (reply: Reply)
      ensures reply == if target in jobs then Known(jobs[target].status) else NotFound
    {
      reply := if target in jobs then Known(jobs[target].status) else NotFound;
    }

    method CancelManual(target: Target) returns (reply: Reply)
      requires Valid()
      modifies this
      ensures Valid() && model == Next(old(model), Cancel(target))
      ensures jobs == if target in old(jobs) && old(jobs)[target].status.Running?
                      then old(jobs)[target := Record(old(jobs)[target].id, Canceled)] else old(jobs)
      ensures reply.NotFound? <==> target !in old(jobs)
      ensures target in old(jobs) ==>
                target in jobs && reply == Known(jobs[target].status) && !jobs[target].status.Running?
    {
      hide Inv;
      StepKeepsInv(model, Cancel(target));
      model := Next(model, Cancel(target));
      if target !in jobs {
        return NotFound;
      }
      if !jobs[target].status.Running? {
        return Known(jobs[target].status);
      }
      jobs := jobs[target := Record(jobs[target].id, Canceled)];
      return Known(Canceled);
    }

    // ----- the worker -----

    method Take() returns (job: Job)
      requires Valid() && model.worker.Selecting? && queue != []
      modifies this
      ensures Valid() && model == Next(old(model), Receive) && model.worker == Holding(job)
      ensures [job] + queue == old(queue) && jobs == old(jobs)
    {
      hide Inv;
      StepKeepsInv(model, Receive);
      model := Next(model, Receive);
      job := queue[0];
      queue := queue[1..];
    }

    /** The first half of run: a job is tested only while its record still waits for it. */
    method Wanted(job: Job) returns (shouldRun: bool)
      requires Valid() && model.worker == Holding(job)
      modifies this`model
      ensures Valid() && model == Next(old(model), Look)
      ensures shouldRun <==> job.target in jobs && jobs[job.target] == Record(job.id, Running)
      ensures shouldRun <==> model.worker == Testing(job)
    {
      hide Inv;
      StepKeepsInv(model, Look);
      model := Next(model, Look);
      shouldRun := job.target in jobs && jobs[job.target].id == job.id && jobs[job.target].status.Running?;
    }

    /** The second half of run, with the outcome of the test. */
    method Conclude(job: Job, result: Status)
      requires Valid() && model.worker == Testing(job) && Enabled(model, Finish(result))
      modifies this
      ensures Valid() && model == Next(old(model), Finish(result))
      ensures jobs == if job.target in old(jobs) && old(jobs)[job.target] == Record(job.id, Running)
                      then old(jobs)[job.target := Record(job.id, result)] else old(jobs)
      ensures queue == old(queue) && nextJobID == old(nextJobID)
    {
      hide Inv;
      StepKeepsInv(model, Finish(result));
      model := Next(model, Finish(result));
      if job.target in jobs && jobs[job.target].id == job.id && jobs[job.target].status.Running? {
        jobs := jobs[job.target := Record(job.id, result)];
      }
    }

    /** One turn of failPending's loop. */
    method DropNext()
      requires Valid() && model.worker.Draining? && queue != []
      modifies this
      ensures Valid() && model == Next(Next(old(model), DrainOne), DropOne)
      ensures queue == old(queue)[1..] && jobs == Settle(old(jobs), old(queue)[0], Failed("context canceled"))
      ensures var job := old(queue)[0];
              jobs == if job.target in old(jobs) && old(jobs)[job.target] == Record(job.id, Running)
                      then old(jobs)[job.target := Record(job.id, Failed("context canceled"))] else old(jobs)
      ensures model.worker.Draining?
    {
      hide Inv;
      StepKeepsInv(model, DrainOne);
      StepKeepsInv(Next(model, DrainOne), DropOne);
      model := Next(Next(model, DrainOne), DropOne);
      var job := queue[0];
      queue := queue[1..];
      if job.target in jobs && jobs[job.target].id == job.id && jobs[job.target].status.Running? {
        jobs := jobs[job.target := Record(job.id, Failed("context canceled"))];
      }
    }

    /** failPending, with no other thread between its turns. */
    method FailPending()
      requires Valid() && model.worker == Draining
      modifies this
      ensures Valid() && model.worker == Finishing && queue == []
      ensures jobs == DropAll(old(jobs), old(queue), "context canceled")
    {
      hide Inv, Settle, Live;
      while queue != []
        invariant Valid() && model.worker == Draining
        invariant DropAll(jobs, queue, "context canceled") == DropAll(old(jobs), old(queue), "context canceled")
        decreases |queue|
      {
        DropNext();
      }
      StepKeepsInv(model, DrainEnd);
      model := Next(model, DrainEnd);
    }

    /** failRunning, after a recovered panic. */
    method FailRunning()
      requires Valid() && model.worker.Panicked?
      modifies this
      ensures Valid() && model == Next(old(model), Recover)
      ensures AllTerminal(jobs) && jobs.Keys == old(jobs).Keys
      ensures forall target :: target in jobs ==>
                jobs[target] == if old(jobs)[target].status.Running?
                                then Record(old(jobs)[target].id, Failed("panic")) else old(jobs)[target]
    {
      hide Inv;
      StepKeepsInv(model, Recover);
      ghost var next := Next(model, Recover);
      var board := jobs;
      var left := board.Keys;
      while left != {}
        invariant left <= board.Keys && board.Keys == jobs.Keys
        invariant forall target :: target in left ==> board[target] == jobs[target]
        invariant forall target :: target in board.Keys - left ==> board[target] == FailAll(jobs, "panic")[target]
        decreases |left|
      {
        var target :| target in left;
        if board[target].status.Running? {
          board := board[target := Record(board[target].id, Failed("panic"))];
        }
        left := left - {target};
      }
      assert board == FailAll(jobs, "panic");
      jobs, model := board, next;
    }
  }

  lemma JoinSettlesAll(s: State)
    requires Inv(s) && !s.late && s.worker.Closed?
    ensures AllTerminal(s.jobs)
  {
    NoneRunning(s);
  }
}
