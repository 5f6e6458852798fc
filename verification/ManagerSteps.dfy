/**
 What every operation of the manager does at each of its decision points, field by field and with nothing else changed,
 and runs from the start of the program that carry a request and a failover through.
 */
module ManagerSteps {
  import opened Basics
  import opened ManagerSections
  import opened ManagerThreads
  import opened ManagerInvariant
  import opened ManagerTheorems
  import ManagerGenerations
  import ManagerOwnership
  import NodeTable

  predicate IsAt(s: State, t: Tid, pc: Pc) { t in s.threads && s.threads[t].pc == pc }

  function Moved(s: State, t: Tid, pc: Pc): map<Tid, Thread>
    requires t in s.threads
  {
    s.threads[t := s.threads[t].(pc := pc)]
  }

  /** The contexts whose cancel functions are kept. */
  function Kept(sh: Shared): set<Token> {
    (if sh.cancelConnect.Some? then {sh.cancelConnect.value} else {})
    + (if sh.cancelAutomatic.Some? then {sh.cancelAutomatic.value} else {})
  }

  // ----- the start -----

  /** NewManager: automatic unless a saved selection is restored; idle, on no route, with nothing running. */
  lemma StartsIdle(b: Boot)
    ensures var s := Init(b);
            && s.sh.session.None? && s.sh.node == "" && s.sh.protocol == "" && !s.sh.directMode && !s.sh.paused
            && s.sh.generation == 0 && s.sh.connectAttempt == 0 && s.sh.phase == Idle && s.sh.lastErr.None?
            && s.sh.connectingIP == "" && Kept(s.sh) == {}
            && (if b.saved.Some?
                then s.sh.selection == Manual && (s.sh.manualIP, s.sh.manualProtocol) == b.saved.value
                else s.sh.selection == Auto && s.sh.manualIP == "" && s.sh.manualProtocol == "")
            && s.threads == map[] && s.db == b.db && s.drivers == b.drivers && !s.closing
  {
  }

  /**
   Start: a saved manual node that is in the table is connected to, probed first and with the saved protocol; anything
   else, and a failed attempt, ends at an automatic switch.
   */
  lemma StartDecides(s: State, t: Tid, o: Oracle, b: StartPc)
    requires IsAt(s, t, Starting(b)) && !b.StartReset?
    ensures var s' := Next'(s, t, o);
            match b
            case StartCall =>
              s' == s.(threads :=
                Moved(s, t, Starting(StartLookup(s.sh.selection, s.sh.manualIP, s.sh.manualProtocol))))
            case StartLookup(selection, ip, forced) =>
              if selection.Manual? && ip != "" && o.ok && ip in s.db.rows then
                s' == s.(threads := Moved(s, t, Starting(StartAnnounce(Job(ip, Manual, true, 0, forced, s.nextToken)))),
                         nextToken := s.nextToken + 1)
              else if selection.Manual? && ip != "" then s' == s.(threads := Moved(s, t, Starting(StartReset)))
              else s' == s.(threads := Moved(s, t, Loop(false, LoopLock)))
            case StartAnnounce(job) =>
              s' == s.(threads := Moved(s, t, Activate(job, ToStart, SwitchLock)),
                       sh := s.sh.(phase := Connecting, lastErr := None))
            case StartReset => true
  {
    hide RequestMove, LoopMove, ActivateMove, FailoverMove, ServiceMove, ShutdownMove, CandidateMove, WatchMove;
    assert s.canceled + {} == s.canceled && s.probed + {} == s.probed;
  }

  /** Giving up a manual selection, in Start and in a resume, clears all three of its fields and goes automatic. */
  lemma ResetGoesAutomatic(s: State, t: Tid, o: Oracle)
    requires IsAt(s, t, Starting(StartReset)) || IsAt(s, t, Request(ResumeReset))
    ensures Next'(s, t, o) ==
              s.(sh := s.sh.(selection := Auto, manualIP := "", manualProtocol := ""),
                 threads := Moved(s, t, if s.threads[t].pc.Starting? then Loop(false, LoopLock)
                                        else Request(SpawnAutomatic)))
  {
    hide LoopMove, ActivateMove, FailoverMove, ServiceMove, ShutdownMove, CandidateMove, WatchMove;
    assert s.canceled + {} == s.canceled && s.probed + {} == s.probed;
  }

  // ----- pausing and resuming -----

  /**
   SetDirectMode(true): unless paused already, traffic goes direct in this very step, the session is taken out and next
   closed, every pending operation is cancelled and outdated; the selection stays.
   */
  lemma PauseDoes(s: State, t: Tid, o: Oracle)
    requires IsAt(s, t, Request(PauseCall))
    ensures s.sh.paused ==> Next'(s, t, o) == s.(threads := s.threads - {t})
    ensures !s.sh.paused ==>
              Next'(s, t, o) ==
                s.(sh := s.sh.(session := None, directMode := true, paused := true, phase := Direct, lastErr := None,
                               generation := s.sh.generation + 1, connectAttempt := s.sh.connectAttempt + 1,
                               connectingIP := "", cancelConnect := None, cancelAutomatic := None),
                   canceled := s.canceled + Kept(s.sh),
                   threads := if s.sh.session.Some? then Moved(s, t, Request(PauseClose(s.sh.session.value)))
                              else s.threads - {t})
  {
    hide LoopMove, ActivateMove, FailoverMove, StartMove, ServiceMove, ShutdownMove, CandidateMove, WatchMove;
    assert s.canceled + {} == s.canceled && s.probed + {} == s.probed;
    assert Opt(s.sh.cancelAutomatic) + Opt(s.sh.cancelConnect) == Kept(s.sh);
  }

  /** SetDirectMode(false): unpauses and looks the selection up, staying direct; nothing when it was not paused. */
  lemma ResumeDoes(s: State, t: Tid, o: Oracle)
    requires IsAt(s, t, Request(ResumeCall))
    ensures !s.sh.paused ==> Next'(s, t, o) == s.(threads := s.threads - {t})
    ensures s.sh.paused ==>
              Next'(s, t, o) ==
                s.(sh := s.sh.(paused := false, phase := Connecting, lastErr := None),
                   threads := Moved(s, t, Request(ResumeLookup(s.sh.selection, s.sh.manualIP, s.sh.manualProtocol))))
  {
    hide LoopMove, ActivateMove, FailoverMove, StartMove, ServiceMove, ShutdownMove, CandidateMove, WatchMove;
    assert s.canceled + {} == s.canceled && s.probed + {} == s.probed;
  }

  /** A resume without a manual selection, and the end of a reset, start an automatic switch unless Close has begun. */
  lemma ResumeGoesAutomatic(s: State, t: Tid, o: Oracle, selection: Selection, ip: Ip, forced: string)
    requires IsAt(s, t, Request(ResumeLookup(selection, ip, forced))) && (selection.Auto? || ip == "")
    ensures Next'(s, t, o) == s.(threads := Moved(s, t, Request(SpawnAutomatic)))
  {
    hide LoopMove, ActivateMove, FailoverMove, StartMove, ServiceMove, ShutdownMove, CandidateMove, WatchMove;
    assert s.canceled + {} == s.canceled && s.probed + {} == s.probed;
  }

  lemma AutomaticIsSpawned(s: State, t: Tid, o: Oracle)
    requires IsAt(s, t, Request(SpawnAutomatic))
    ensures s.closing ==> Next'(s, t, o) == s.(threads := s.threads - {t})
    ensures !s.closing ==>
              Next'(s, t, o) == s.(threads := (s.threads - {t})[s.nextTid := Thread(true, Loop(false, LoopLock))],
                                   nextTid := s.nextTid + 1)
  {
    hide LoopMove, ActivateMove, FailoverMove, StartMove, ServiceMove, ShutdownMove, CandidateMove, WatchMove;
    assert s.canceled + {} == s.canceled && s.probed + {} == s.probed;
  }

  // ----- a request for a node -----

  /**
   startCandidate: the request becomes the newest attempt, everything pending is cancelled, a pause ends, and the
   attempt asks for a health check.
   */
  lemma RequestDoes(s: State, t: Tid, o: Oracle, ip: Ip, selection: Selection, forced: string)
    requires IsAt(s, t, Request(Select(ip, selection, forced)))
    ensures var job := Job(ip, selection, true, s.sh.connectAttempt + 1, forced, s.nextToken);
            Next'(s, t, o) ==
              s.(sh := s.sh.(paused := false, cancelAutomatic := None, cancelConnect := Some(s.nextToken),
                             connectAttempt := s.sh.connectAttempt + 1, connectingIP := ip,
                             phase := Connecting, lastErr := None),
                 canceled := s.canceled + Kept(s.sh), nextToken := s.nextToken + 1,
                 threads := Moved(s, t, Request(SpawnCandidate(job))))
  {
    hide LoopMove, ActivateMove, FailoverMove, StartMove, ServiceMove, ShutdownMove, CandidateMove, WatchMove;
    assert s.probed + {} == s.probed;
    assert Opt(s.sh.cancelAutomatic) + Opt(s.sh.cancelConnect) == Kept(s.sh);
  }

  /** Its task is started, unless Close has begun; then the attempt ends with an error. */
  lemma CandidateIsSpawned(s: State, t: Tid, o: Oracle, job: Job)
    requires IsAt(s, t, Request(SpawnCandidate(job)))
    ensures s.closing ==> Next'(s, t, o) == s.(threads := Moved(s, t, Request(AbortCandidate(job))))
    ensures !s.closing ==>
              Next'(s, t, o) ==
                s.(threads := (s.threads - {t})[s.nextTid := Thread(true, Candidate(job, CandidateLock))],
                   nextTid := s.nextTid + 1)
  {
    hide LoopMove, ActivateMove, FailoverMove, StartMove, ServiceMove, ShutdownMove, CandidateMove, WatchMove;
    assert s.canceled + {} == s.canceled && s.probed + {} == s.probed;
  }

  /** What the end of an attempt leaves: only the newest one may clear the display and report its error. */
  function Reported(sh: Shared, attempt: nat, err: Option<string>): Shared {
    if sh.connectAttempt != attempt then sh
    else if err.None? then sh.(connectingIP := "", cancelConnect := None)
    else if sh.session.Some? then sh.(connectingIP := "", cancelConnect := None, phase := Connected, lastErr := err)
    else sh.(connectingIP := "", cancelConnect := None, phase := Failed, lastErr := err)
  }

  /** The task of a request takes autoMu, activates if it is still the newest, and reports. */
  lemma CandidateActs(s: State, t: Tid, o: Oracle, job: Job, c: CandidatePc)
    requires IsAt(s, t, Candidate(job, c))
    ensures var s' := Next'(s, t, o);
            match c
            case CandidateLock =>
              s' == s.(locks := s.locks.(auto := Some(t)), threads := Moved(s, t, Candidate(job, CandidateCheck)))
            case CandidateCheck =>
              if s.sh.connectAttempt == job.attempt
              then s' == s.(threads := Moved(s, t, Activate(job, ToCandidate, SwitchLock)))
              else s' == s.(threads := s.threads - {t}, locks := s.locks.(auto := None),
                            canceled := s.canceled + {job.ctx})
            case CandidateFinish(err) =>
              s' == s.(sh := Reported(s.sh, job.attempt, err), threads := s.threads - {t},
                       locks := s.locks.(auto := None), canceled := s.canceled + {job.ctx})
  {
    hide RequestMove, LoopMove, ActivateMove, FailoverMove, StartMove, ServiceMove, ShutdownMove, WatchMove;
    assert s.canceled + {} == s.canceled && s.probed + {} == s.probed;
  }

  lemma AbortReports(s: State, t: Tid, o: Oracle, job: Job)
    requires IsAt(s, t, Request(AbortCandidate(job)))
    ensures Next'(s, t, o) == s.(sh := Reported(s.sh, job.attempt, Some("VPN manager is shutting down")),
                                 threads := s.threads - {t}, canceled := s.canceled + {job.ctx})
  {
    hide LoopMove, ActivateMove, FailoverMove, StartMove, ServiceMove, ShutdownMove, CandidateMove, WatchMove;
    assert s.probed + {} == s.probed;
  }

  // ----- an activation -----

  /** Before its install an activation announces itself, opens a session, and probes it exactly when asked to. */
  lemma ActivationPrepares(s: State, t: Tid, o: Oracle, job: Job, ret: Ret, a: ActivatePc)
    requires IsAt(s, t, Activate(job, ret, a)) && Early(a)
    ensures var s', canceled := Next'(s, t, o), s.appDone || job.ctx in s.canceled;
            match a
            case SwitchLock =>
              s' == s.(locks := s.locks.(switch := Some(t)), threads := Moved(s, t, Activate(job, ret, Announce)))
            case Announce =>
              s' == s.(sh := if job.requireHealth then s.sh else s.sh.(phase := Connecting, lastErr := None),
                       threads := Moved(s, t, Activate(job, ret, Connect)))
            case Connect =>
              if o.ok then
                s' == s.(nextSid := s.nextSid + 1, nodeOf := s.nodeOf[s.nextSid := job.ip],
                         threads := Moved(s, t, Activate(job, ret, if job.requireHealth then Probe(s.nextSid)
                                                                   else Ready(s.nextSid))))
              else
                s' == s.(sh := if !job.requireHealth && !canceled
                               then s.sh.(phase := Failed, lastErr := Some(o.text)) else s.sh,
                         threads := Moved(s, t, Activate(job, ret, Unlock(false))))
            case Probe(sid) =>
              if o.ok then s' == s.(probed := s.probed + {sid}, threads := Moved(s, t, Activate(job, ret, Ready(sid))))
              else s' == s.(threads := Moved(s, t, Activate(job, ret, Discard(sid))))
            case Discard(sid) =>
              s' == s.(closes := s.closes + multiset{sid}, threads := Moved(s, t, Activate(job, ret, Connect)))
            case Ready(sid) =>
              s' == s.(threads :=
                Moved(s, t, Activate(job, ret, if canceled then CloseUnused(sid) else Installing(sid))))
            case _ => true
  {
    hide RequestMove, LoopMove, InstallMove, FailoverMove, StartMove, ServiceMove, ShutdownMove;
    hide CandidateMove, WatchMove;
    hide ReturnTo;
    assert s.canceled + {} == s.canceled && s.probed + {} == s.probed;
  }

  /**
   The installing step. In every reachable state it makes the session current if and only if connections are not paused
   and the activation either belongs to no request or to the newest one.
   */
  lemma InstallsIff(b: Boot, ls: seq<Label>, t: Tid, o: Oracle, job: Job, ret: Ret, sid: Sid)
    requires CanTake(Init(b), ls) && IsAt(Take(Init(b), ls), t, Activate(job, ret, Installing(sid)))
    ensures var s := Take(Init(b), ls);
            Next'(s, t, o).sh.session == Some(sid) <==>
              !s.sh.paused && (job.attempt == 0 || job.attempt == s.sh.connectAttempt)
  {
    hide CanTake, Take, Next';
    Reachable(b, ls);
    var s := Take(Init(b), ls);
    InstallDoes(s, t, o, job, ret, sid);
    NotYetInstalled(s, t, sid);
  }

  lemma NotYetInstalled(s: State, t: Tid, sid: Sid)
    requires Inv(s) && t in s.threads && ManagerGenerations.Unused(s.threads[t].pc) == Some(sid)
    ensures s.sh.session != Some(sid)
  {
    hide ManagerOwnership.Conserved;
  }

  /**
   What it does: the route, the node and the selection become those of the activation, at a new generation; the old
   node's row goes if it is stale; the session it replaces is closed next, or the session itself if it came too late.
   */
  lemma InstallDoes(s: State, t: Tid, o: Oracle, job: Job, ret: Ret, sid: Sid)
    requires IsAt(s, t, Activate(job, ret, Installing(sid)))
    ensures var may := !s.sh.paused && (job.attempt == 0 || job.attempt == s.sh.connectAttempt);
            var gen := s.sh.generation + 1;
            && (!may ==> Next'(s, t, o) == s.(threads := Moved(s, t, Activate(job, ret, CloseUnused(sid)))))
            && (may ==>
                 && Next'(s, t, o).sh ==
                      s.sh.(session := Some(sid), node := job.ip, protocol := o.text, selection := job.selection,
                            manualIP := if job.selection.Manual? then job.ip else "",
                            manualProtocol := if job.selection.Manual? then job.forced else "",
                            directMode := false, phase := Connected, lastErr := None, generation := gen)
                 && Next'(s, t, o).threads ==
                      Moved(s, t, Activate(job, ret, if s.sh.session.Some? then CloseOld(s.sh.session.value, sid, gen)
                                                     else SpawnWatcher(sid, gen)))
                 && Next'(s, t, o).db.lastRefresh == s.db.lastRefresh
                 && Next'(s, t, o).db.rows ==
                      (if s.sh.node != "" && s.sh.node != job.ip && s.sh.node in s.db.rows && s.db.lastRefresh.Some?
                          && s.db.rows[s.sh.node].refreshedAt != s.db.lastRefresh.value
                       then s.db.rows - {s.sh.node} else s.db.rows)
                 && Next'(s, t, o).locks == s.locks && Next'(s, t, o).closes == s.closes
                 && Next'(s, t, o).canceled == s.canceled && Next'(s, t, o).nextSid == s.nextSid
                 && Next'(s, t, o).nextTid == s.nextTid && Next'(s, t, o).nextToken == s.nextToken
                 && Next'(s, t, o).appDone == s.appDone
                 && Next'(s, t, o).probed == s.probed && Next'(s, t, o).closing == s.closing)
  {
    hide RequestMove, LoopMove, FailoverMove, StartMove, ServiceMove, ShutdownMove, CandidateMove, WatchMove;
    hide ActivateMove;
    InstallIsItsStep(s, t, job, ret, sid, o);
    assert s.canceled + {} == s.canceled && s.probed + {} == s.probed;
  }

  /** After its install an activation closes the replaced session and starts a watcher, unless Close has begun. */
  lemma ActivationConcludes(s: State, t: Tid, o: Oracle, job: Job, ret: Ret, a: ActivatePc)
    requires IsAt(s, t, Activate(job, ret, a)) && (a.CloseUnused? || a.CloseOld? || a.SpawnWatcher?)
    ensures var s' := Next'(s, t, o);
            match a
            case CloseUnused(sid) =>
              s' == s.(closes := s.closes + multiset{sid}, threads := Moved(s, t, Activate(job, ret, Unlock(false))))
            case CloseOld(previous, sid, gen) =>
              s' == s.(closes := s.closes + multiset{previous},
                       threads := Moved(s, t, Activate(job, ret, SpawnWatcher(sid, gen))))
            case SpawnWatcher(sid, gen) =>
              if s.closing then s' == s.(threads := Moved(s, t, Activate(job, ret, Unlock(true))))
              else
                s' == s.(threads := Moved(s, t, Activate(job, ret, Unlock(true)))
                           [s.nextTid := Thread(true, Watch(Waiting(sid, gen)))],
                         nextTid := s.nextTid + 1)
            case _ => true
  {
    hide RequestMove, LoopMove, InstallMove, FailoverMove, StartMove, ServiceMove, ShutdownMove;
    hide CandidateMove, WatchMove;
    hide ReturnTo;
    assert s.canceled + {} == s.canceled && s.probed + {} == s.probed;
  }

  /**
   An activation that returns gives switchMu back. Its candidate reports; Start falls back to automatic on an error; an
   automatic switch stops at a success or a cancellation, and otherwise marks the node and tries the next one.
   */
  lemma ActivationReturns(s: State, t: Tid, o: Oracle, job: Job, ret: Ret, ok: bool)
    requires IsAt(s, t, Activate(job, ret, Unlock(ok)))
    ensures var freed := s.(locks := s.locks.(switch := None));
            var s' := Next'(s, t, o);
            match ret
            case ToCandidate =>
              s' == freed.(threads := Moved(s, t, Candidate(job, CandidateFinish(if ok then None else Some(o.text)))))
            case ToStart => s' == freed.(threads := if ok then s.threads - {t} else Moved(s, t, Starting(StartReset)))
            case ToLoop(rest, tok, failover) =>
              if ok || s.appDone || tok in s.canceled
              then s' == freed.(threads := Moved(s, t, Loop(failover, LoopExit(tok))))
              else
                && s'.db.lastRefresh == s.db.lastRefresh && s'.db.rows.Keys == s.db.rows.Keys
                && (forall q :: q in s.db.rows ==>
                     s'.db.rows[q] == if q == job.ip
                                      then s.db.rows[q].(lastFailure := Some(o.now), failureReason := o.text)
                                      else s.db.rows[q])
                && s' == freed.(threads := Moved(s, t, Loop(failover, LoopNext(rest, tok))), db := s'.db)
  {
    hide RequestMove, LoopMove, InstallMove, FailoverMove, StartMove, ServiceMove, ShutdownMove;
    hide CandidateMove, WatchMove;
    assert s.canceled + {} == s.canceled && s.probed + {} == s.probed;
  }

  // ----- the automatic switch -----

  /**
   switchAutomatic keeps a cancel function while it runs and gives its locks back; a pause stops it before it begins.
   */
  lemma AutomaticBegins(s: State, t: Tid, o: Oracle, failover: bool, l: LoopPc)
    requires IsAt(s, t, Loop(failover, l)) && (l.LoopLock? || l.LoopEnter? || l.LoopExit?)
    ensures var s' := Next'(s, t, o);
            var given := s.locks.(auto := None, failover := if failover then None else s.locks.failover);
            match l
            case LoopLock =>
              s' == s.(locks := s.locks.(auto := Some(t)), threads := Moved(s, t, Loop(failover, LoopEnter)))
            case LoopEnter =>
              if s.sh.paused then s' == s.(threads := s.threads - {t}, locks := given)
              else s' == s.(sh := s.sh.(cancelAutomatic := Some(s.nextToken)), nextToken := s.nextToken + 1,
                            threads := Moved(s, t, Loop(failover, LoopNodes(s.nextToken))))
            case LoopExit(tok) =>
              s' == s.(sh := s.sh.(cancelAutomatic := None), threads := s.threads - {t}, locks := given,
                       canceled := s.canceled + {tok})
            case _ => true
  {
    hide RequestMove, ActivateMove, FailoverMove, StartMove, ServiceMove, ShutdownMove, CandidateMove, WatchMove;
    assert s.canceled + {} == s.canceled && s.probed + {} == s.probed;
  }

  /**
   It works through the ranked nodes in order, without a health check and for no request, until one installs or its
   context is cancelled. An error is shown when every node failed.
   */
  lemma AutomaticTries(s: State, t: Tid, o: Oracle, failover: bool, l: LoopPc)
    requires IsAt(s, t, Loop(failover, l)) && (l.LoopNodes? || l.LoopNext?)
    ensures var s' := Next'(s, t, o);
            match l
            case LoopNodes(tok) =>
              s' == s.(threads := Moved(s, t, Loop(failover, if o.ok && o.nodes != [] then LoopNext(o.nodes, tok)
                                                             else LoopExit(tok))))
            case LoopNext(rest, tok) =>
              if rest == [] then
                s' == s.(sh := s.sh.(phase := Failed, lastErr := Some(o.text)),
                         threads := Moved(s, t, Loop(failover, LoopExit(tok))))
              else if s.appDone || tok in s.canceled
              then s' == s.(threads := Moved(s, t, Loop(failover, LoopExit(tok))))
              else
                s' == s.(threads := Moved(s, t, Activate(Job(rest[0], Auto, false, 0, "", tok),
                                                         ToLoop(rest[1..], tok, failover), SwitchLock)))
            case _ => true
  {
    hide RequestMove, ActivateMove, FailoverMove, StartMove, ServiceMove, ShutdownMove, CandidateMove, WatchMove;
    hide Leave;
    assert s.canceled + {} == s.canceled && s.probed + {} == s.probed;
  }

  // ----- watchers and failovers -----

  /**
   A watcher whose session ended starts a failover of it if and only if the program runs on and the generation holds.
   */
  lemma WatcherActs(s: State, t: Tid, o: Oracle, sid: Sid, gen: nat)
    ensures IsAt(s, t, Watch(Waiting(sid, gen))) ==>
              Next'(s, t, o) == s.(threads := Moved(s, t, Watch(Ended(sid, gen))))
    ensures IsAt(s, t, Watch(Ended(sid, gen))) && !s.appDone && s.sh.generation == gen ==>
              Next'(s, t, o) == s.(threads := Moved(s, t, Failing(FailoverLock(Some(sid)))))
    ensures IsAt(s, t, Watch(Ended(sid, gen))) && (s.appDone || s.sh.generation != gen) ==>
              Next'(s, t, o) == s.(threads := s.threads - {t})
  {
    hide RequestMove, LoopMove, ActivateMove, FailoverMove, StartMove, ServiceMove, ShutdownMove, CandidateMove;
    assert s.canceled + {} == s.canceled && s.probed + {} == s.probed;
  }

  /**
   failover takes failoverMu and autoMu and then decides: it goes ahead if and only if connections are not paused and
   the session it names, if any, is the current one. Then the selection is automatic and the cause is shown; with
   direct fallback the session is taken out and closed and traffic goes direct at once. It marks the node and
   switches.
   */
  lemma FailoverActs(s: State, t: Tid, o: Oracle, f: FailoverPc)
    requires IsAt(s, t, Failing(f)) && !f.Mark?
    ensures var s' := Next'(s, t, o);
            match f
            case FailoverLock(expected) =>
              s' == s.(locks := s.locks.(failover := Some(t)), threads := Moved(s, t, Failing(AutoLock(expected))))
            case AutoLock(expected) =>
              s' == s.(locks := s.locks.(auto := Some(t)), threads := Moved(s, t, Failing(Decide(expected))))
            case Decide(expected) =>
              var automatic := s.sh.(selection := Auto, manualIP := "", manualProtocol := "", lastErr := Some(o.text));
              if s.sh.paused || (expected.Some? && s.sh.session != expected) then
                s' == s.(threads := s.threads - {t}, locks := s.locks.(auto := None, failover := None))
              else if o.flag then
                s' == s.(sh := automatic.(session := None, directMode := true, phase := Connecting,
                                          generation := s.sh.generation + 1),
                         threads := Moved(s, t, Failing(if s.sh.session.Some?
                                                        then CloseFailed(s.sh.session.value, s.sh.node, expected)
                                                        else Mark(s.sh.node, expected))))
              else s' == s.(sh := automatic, threads := Moved(s, t, Failing(Mark(s.sh.node, expected))))
            case CloseFailed(sid, ip, target) =>
              s' == s.(closes := s.closes + multiset{sid}, threads := Moved(s, t, Failing(Mark(ip, target))))
            case Mark(_, _) => true
  {
    hide RequestMove, LoopMove, ActivateMove, StartMove, ServiceMove, ShutdownMove, CandidateMove, WatchMove;
    assert s.canceled + {} == s.canceled && s.probed + {} == s.probed;
  }

  /** A failover that went ahead always goes on to an automatic switch, with both of its locks. */
  lemma FailoverSwitches(s: State, t: Tid, o: Oracle, ip: Ip, target: Option<Sid>)
    requires IsAt(s, t, Failing(Mark(ip, target)))
    ensures var s' := Next'(s, t, o);
            s' == s.(threads := Moved(s, t, Loop(true, LoopEnter)), db := s'.db) && (ip == "" ==> s'.db == s.db)
  {
    hide RequestMove, LoopMove, ActivateMove, StartMove, ServiceMove, ShutdownMove, CandidateMove, WatchMove;
    hide NodeTable.MarkFailure;
    assert s.canceled + {} == s.canceled && s.probed + {} == s.probed;
  }

  /** A health check fails the session it probed, and only when the probe failed. */
  lemma HealthCheckActs(s: State, t: Tid, o: Oracle)
    requires IsAt(s, t, Service(HealthCall))
    ensures Next'(s, t, o) ==
              if s.sh.session.Some? && !o.ok then s.(threads := Moved(s, t, Failing(FailoverLock(s.sh.session))))
              else s.(threads := s.threads - {t})
  {
    hide RequestMove, LoopMove, ActivateMove, FailoverMove, StartMove, ShutdownMove, CandidateMove, WatchMove;
    assert s.canceled + {} == s.canceled && s.probed + {} == s.probed;
  }

  /**
   After a refresh: nothing while paused; an automatic switch without a session; and, where the ranking is followed, an
   automatic switch for an automatic selection and a failover for a manual node whose row is gone.
   */
  lemma RefreshIsFollowed(s: State, t: Tid, o: Oracle, v: ServicePc)
    requires IsAt(s, t, Service(v)) && (v.RefreshedCall? || v.RefreshedLookup? || v.SpawnFailover?)
    ensures var s' := Next'(s, t, o);
            match v
            case RefreshedCall =>
              if !s.sh.paused && (s.sh.session.None? || (o.flag && s.sh.selection.Auto?))
              then s' == s.(threads := Moved(s, t, Request(SpawnAutomatic)))
              else if !s.sh.paused && o.flag && s.sh.node != ""
              then s' == s.(threads := Moved(s, t, Service(RefreshedLookup(s.sh.node))))
              else s' == s.(threads := s.threads - {t})
            case RefreshedLookup(ip) =>
              if o.ok && ip !in s.db.rows then s' == s.(threads := Moved(s, t, Service(SpawnFailover)))
              else s' == s.(threads := s.threads - {t})
            case SpawnFailover =>
              if s.closing then s' == s.(threads := s.threads - {t})
              else s' == s.(threads := (s.threads - {t})[s.nextTid := Thread(true, Failing(FailoverLock(None)))],
                            nextTid := s.nextTid + 1)
            case _ => true
  {
    hide RequestMove, LoopMove, ActivateMove, FailoverMove, StartMove, ShutdownMove, CandidateMove, WatchMove;
    assert s.canceled + {} == s.canceled && s.probed + {} == s.probed;
  }

  // ----- Close -----

  /** What a sweep of Close leaves of the session: none, at a new generation. */
  function SweptOnce(sh: Shared): Shared { sh.(session := None, generation := sh.generation + 1) }

  /**
   Close: no new tasks; the first sweep takes the session out, cancels and outdates what is pending, and closes the
   session; then it waits for the tasks; the second sweep closes what was installed meanwhile.
   */
  lemma CloseActs(s: State, t: Tid, o: Oracle, x: ClosePc)
    requires IsAt(s, t, Shutdown(x))
    ensures var s' := Next'(s, t, o);
            match x
            case CloseCall => s' == s.(closing := true, threads := Moved(s, t, Shutdown(FirstSweep)))
            case FirstSweep =>
              s' == s.(sh := SweptOnce(s.sh).(cancelConnect := None, cancelAutomatic := None, connectingIP := "",
                                              connectAttempt := s.sh.connectAttempt + 1),
                       canceled := s.canceled + Kept(s.sh), swept := true,
                       threads := Moved(s, t, Shutdown(if s.sh.session.Some? then CloseFirst(s.sh.session.value)
                                                       else AwaitTasks(None))))
            case CloseFirst(sid) =>
              s' == s.(closes := s.closes + multiset{sid}, threads := Moved(s, t, Shutdown(AwaitTasks(Some(sid)))))
            case AwaitTasks(first) => s' == s.(threads := Moved(s, t, Shutdown(SecondSweep(first))))
            case SecondSweep(first) =>
              s' == s.(sh := SweptOnce(s.sh),
                       threads := Moved(s, t, Shutdown(if s.sh.session.Some? && s.sh.session != first
                                                       then CloseLate(s.sh.session.value) else Returned)))
            case CloseLate(sid) =>
              s' == s.(closes := s.closes + multiset{sid}, threads := Moved(s, t, Shutdown(Returned)))
            case Returned => s' == s.(threads := s.threads - {t})
  {
    hide RequestMove, LoopMove, ActivateMove, FailoverMove, StartMove, ServiceMove, CandidateMove, WatchMove;
    assert s.canceled + {} == s.canceled && s.probed + {} == s.probed;
    assert Opt(s.sh.cancelAutomatic) + Opt(s.sh.cancelConnect) == Kept(s.sh);
  }

  // ----- a request and a failover carried through -----

  lemma Walk(s: State, ls: seq<Label>, t: Tid, o: Oracle) returns (ms: seq<Label>)
    requires CanTake(s, ls) && t in Take(s, ls).threads && CanRun(Take(s, ls), Take(s, ls).threads[t].pc, o.flag)
    ensures CanTake(s, ms) && Take(s, ms) == Next'(Take(s, ls), t, o)
  {
    hide CanRun, MoveOf, Commit;
    TakeOneMore(s, ls, Run(t, o));
    ms := ls + [Run(t, o)];
  }

  /** A driver that starts, a probe that succeeds, a lookup that answers. */
  function Good(text: string, nodes: seq<Ip>): Oracle { Oracle(true, true, nodes, text, 0) }

  /** Nothing stands in the way of the activation: its lock is free, its context lives, and it may install. */
  predicate Clear(s: State, job: Job) {
    && s.locks.switch.None? && !s.appDone && job.ctx !in s.canceled && !s.closing
    && !s.sh.paused && (job.attempt == 0 || job.attempt == s.sh.connectAttempt)
  }

  /** The state in which the activation has its session and is about to install it. */
  function Prepared(s: State, t: Tid, job: Job, ret: Ret): State
    requires t in s.threads
  {
    s.(locks := s.locks.(switch := Some(t)),
       sh := if job.requireHealth then s.sh else s.sh.(phase := Connecting, lastErr := None),
       nextSid := s.nextSid + 1, nodeOf := s.nodeOf[s.nextSid := job.ip],
       probed := if job.requireHealth then s.probed + {s.nextSid} else s.probed,
       threads := Moved(s, t, Activate(job, ret, Installing(s.nextSid))))
  }

  lemma Prepares(s: State, t: Tid, job: Job, ret: Ret, protocol: string) returns (ls: seq<Label>)
    requires IsAt(s, t, Activate(job, ret, SwitchLock)) && Clear(s, job)
    ensures CanTake(s, ls) && Take(s, ls) == Prepared(s, t, job, ret)
  {
    hide CanTake, Take, Next';
    var o := Good(protocol, []);
    EmptyRun(s);
    ls := Walk(s, [], t, o);
    ActivationPrepares(s, t, o, job, ret, SwitchLock);
    var s1 := Take(s, ls);
    ls := Walk(s, ls, t, o);
    ActivationPrepares(s1, t, o, job, ret, Announce);
    var s2 := Take(s, ls);
    ls := Walk(s, ls, t, o);
    ActivationPrepares(s2, t, o, job, ret, Connect);
    ls := Probes(s, ls, t, job, ret, s.nextSid);
    assert Take(s, ls).threads == Prepared(s, t, job, ret).threads;
  }

  lemma Probes(s: State, ls: seq<Label>, t: Tid, job: Job, ret: Ret, sid: Sid) returns (ms: seq<Label>)
    requires CanTake(s, ls)
    requires var c := Take(s, ls);
             && IsAt(c, t, Activate(job, ret, if job.requireHealth then Probe(sid) else Ready(sid)))
             && !c.appDone && job.ctx !in c.canceled
    ensures CanTake(s, ms)
    ensures var c := Take(s, ls);
            Take(s, ms) == c.(probed := if job.requireHealth then c.probed + {sid} else c.probed,
                              threads := Moved(c, t, Activate(job, ret, Installing(sid))))
  {
    hide CanTake, Take, Next';
    var o := Good("", []);
    var c := Take(s, ls);
    ms := ls;
    if job.requireHealth {
      ms := Walk(s, ms, t, o);
      ActivationPrepares(c, t, o, job, ret, Probe(sid));
    }
    var c' := Take(s, ms);
    ms := Walk(s, ms, t, o);
    ActivationPrepares(c', t, o, job, ret, Ready(sid));
    assert Take(s, ms).threads == Moved(c, t, Activate(job, ret, Installing(sid)));
  }

  /** The activation of thread t has installed its session and is about to return; a watcher of it runs. */
  predicate Done(s: State, s': State, t: Tid, job: Job, ret: Ret, sid: Sid, protocol: string) {
    && t in s.threads
    && s'.sh == s.sh.(session := Some(sid), node := job.ip, protocol := protocol, selection := job.selection,
                      manualIP := if job.selection.Manual? then job.ip else "",
                      manualProtocol := if job.selection.Manual? then job.forced else "",
                      directMode := false, phase := Connected, lastErr := None, generation := s.sh.generation + 1)
    && s'.threads == Moved(s, t, Activate(job, ret, Unlock(true)))
                       [s.nextTid := Thread(true, Watch(Waiting(sid, s.sh.generation + 1)))]
    && s'.locks == s.locks && s'.closes == s.closes && s'.canceled == s.canceled && s'.appDone == s.appDone
    && s'.nextTid == s.nextTid + 1 && s'.nextSid == s.nextSid && s'.nextToken == s.nextToken
    && s'.closing == s.closing && s'.probed == s.probed
  }

  lemma Installs(s: State, t: Tid, job: Job, ret: Ret, sid: Sid, protocol: string) returns (ls: seq<Label>)
    requires IsAt(s, t, Activate(job, ret, Installing(sid))) && s.sh.session.None? && !s.closing
    requires !s.sh.paused && (job.attempt == 0 || job.attempt == s.sh.connectAttempt)
    ensures CanTake(s, ls) && Done(s, Take(s, ls), t, job, ret, sid, protocol)
  {
    hide CanTake, Take, Next';
    var o := Good(protocol, []);
    EmptyRun(s);
    ls := Walk(s, [], t, o);
    InstallDoes(s, t, o, job, ret, sid);
    var s1 := Take(s, ls);
    ls := Walk(s, ls, t, o);
    ActivationConcludes(s1, t, o, job, ret, SpawnWatcher(sid, s.sh.generation + 1));
  }

  lemma {:induction false} Joined(s: State, ls: seq<Label>, ms: seq<Label>)
    requires CanTake(s, ls) && CanTake(Take(s, ls), ms)
    ensures CanTake(s, ls + ms) && Take(s, ls + ms) == Take(Take(s, ls), ms)
    decreases |ls|
  {
    hide Enabled, Next;
    if ls == [] {
      assert ls + ms == ms;
    } else {
      assert (ls + ms)[1..] == ls[1..] + ms;
      Joined(Next(s, ls[0]), ls[1..], ms);
    }
  }

  /** From its first step to its return, with nothing in its way, an activation installs a session to its node. */
  lemma Activates(s: State, t: Tid, job: Job, ret: Ret, protocol: string) returns (ls: seq<Label>)
    requires IsAt(s, t, Activate(job, ret, SwitchLock)) && Clear(s, job) && s.sh.session.None?
    ensures CanTake(s, ls) && Done(Prepared(s, t, job, ret), Take(s, ls), t, job, ret, s.nextSid, protocol)
  {
    hide CanTake, Take, Done;
    ls := Prepares(s, t, job, ret, protocol);
    var ms := Installs(Prepared(s, t, job, ret), t, job, ret, s.nextSid, protocol);
    Joined(s, ls, ms);
    ls := ls + ms;
  }

  /** A request was carried through: its node is the manual one, connected and probed, and nothing is pending. */
  predicate CarriedThrough(s: State, job: Job, protocol: string) {
    && s.sh.session.Some? && s.sh.session.value in s.probed
    && s.sh.node == job.ip && s.sh.protocol == protocol && s.sh.selection == job.selection
    && (job.selection.Manual? ==> s.sh.manualIP == job.ip && s.sh.manualProtocol == job.forced)
    && s.sh.phase == Connected && s.sh.connectingIP == "" && s.sh.cancelConnect.None? && !s.sh.directMode
    && s.locks == Locks(None, None, None)
  }

  /** The newest request, given its turn, a driver that starts and a probe that succeeds, is carried through. */
  lemma NewestRequestSucceeds(s: State, t: Tid, job: Job, protocol: string) returns (ls: seq<Label>)
    requires IsAt(s, t, Candidate(job, CandidateLock)) && Clear(s, job) && s.sh.session.None?
    requires s.locks == Locks(None, None, None) && t < s.nextTid
    requires job.requireHealth && job.attempt == s.sh.connectAttempt
    ensures CanTake(s, ls) && CarriedThrough(Take(s, ls), job, protocol)
    ensures Take(s, ls).sh.session == Some(s.nextSid)
    ensures IsAt(Take(s, ls), s.nextTid, Watch(Waiting(s.nextSid, s.sh.generation + 1)))
    ensures var s' := Take(s, ls);
            && s'.sh.generation == s.sh.generation + 1 && !s'.appDone && !s'.closing && !s'.sh.paused
            && s'.closes == s.closes && s'.canceled == s.canceled + {job.ctx}
            && s'.nextTid == s.nextTid + 1 && s'.nextToken == s.nextToken
  {
    hide CanTake, Take, Next', Clear, Prepared;
    ls := TakesItsTurn(s, t, job);
    var s2 := Take(s, ls);
    StaysClear(s, s2, job);
    PreparedIs(s2, t, job, ToCandidate);
    var ms := Activates(s2, t, job, ToCandidate, protocol);
    Joined(s, ls, ms);
    ls := ls + ms;
    var ns := Reports(Take(s, ls), t, job, protocol);
    Joined(s, ls, ns);
    ls := ls + ns;
  }

  lemma TakesItsTurn(s: State, t: Tid, job: Job) returns (ls: seq<Label>)
    requires IsAt(s, t, Candidate(job, CandidateLock)) && s.locks.auto.None? && job.attempt == s.sh.connectAttempt
    ensures CanTake(s, ls)
    ensures Take(s, ls) == s.(locks := s.locks.(auto := Some(t)),
                              threads := Moved(s, t, Activate(job, ToCandidate, SwitchLock)))
  {
    hide CanTake, Take, Next';
    var o := Good("", []);
    EmptyRun(s);
    ls := Walk(s, [], t, o);
    CandidateActs(s, t, o, job, CandidateLock);
    var s1 := Take(s, ls);
    ls := Walk(s, ls, t, o);
    CandidateActs(s1, t, o, job, CandidateCheck);
    assert Take(s, ls).threads == Moved(s, t, Activate(job, ToCandidate, SwitchLock));
  }

  lemma Reports(s: State, t: Tid, job: Job, text: string) returns (ls: seq<Label>)
    requires IsAt(s, t, Activate(job, ToCandidate, Unlock(true))) && s.sh.connectAttempt == job.attempt
    ensures CanTake(s, ls)
    ensures Take(s, ls) == s.(sh := s.sh.(connectingIP := "", cancelConnect := None),
                              locks := s.locks.(switch := None, auto := None),
                              threads := s.threads - {t}, canceled := s.canceled + {job.ctx})
  {
    hide CanTake, Take, Next';
    var o := Good(text, []);
    EmptyRun(s);
    ls := Walk(s, [], t, o);
    ActivationReturns(s, t, o, job, ToCandidate, true);
    var s1 := Take(s, ls);
    ls := Walk(s, ls, t, o);
    CandidateActs(s1, t, o, job, CandidateFinish(None));
    assert Take(s, ls).threads == s.threads - {t};
  }

  lemma StaysClear(s: State, s': State, job: Job)
    requires Clear(s, job) && s' == s.(locks := s'.locks, threads := s'.threads) && s'.locks.switch == s.locks.switch
    ensures Clear(s', job)
  {
  }

  /** A request of a user, from the start of the program to the moment its node is connected. */
  lemma ManualRequestIsConnected(b: Boot, ip: Ip, forced: string, protocol: string) returns (ls: seq<Label>)
    ensures CanTake(Init(b), ls)
    ensures var s := Take(Init(b), ls);
            && CarriedThrough(s, Job(ip, Manual, true, 1, forced, 0), protocol)
            && s.sh.session == Some(0) && s.sh.selection == Manual && s.sh.generation == 1 && Settled(s, 2, 0)
  {
    hide CanTake, Take, Next', CarriedThrough;
    ls := Requested(b, ip, forced);
    var s, job := Take(Init(b), ls), Job(ip, Manual, true, 1, forced, 0);
    RequestedIsClear(s, job);
    var ms := NewestRequestSucceeds(s, 1, job, protocol);
    Joined(Init(b), ls, ms);
    ls := ls + ms;
    hide CanTake, Take;
    IsCarried(Take(s, ms), job, protocol);
  }

  lemma IsCarried(s: State, job: Job, protocol: string)
    requires CarriedThrough(s, job, protocol)
    ensures s.sh.selection == job.selection && s.locks == Locks(None, None, None)
  {
  }

  /** The request has its task, and nothing else has happened. */
  predicate JustRequested(s: State, job: Job) {
    && IsAt(s, 1, Candidate(job, CandidateLock)) && s.nextTid == 2 && s.nextSid == 0
    && s.locks == Locks(None, None, None) && !s.appDone && !s.closing && s.canceled == {}
    && !s.sh.paused && s.sh.connectAttempt == 1 && s.sh.session.None? && s.sh.generation == 0 && s.nextToken == 1
  }

  lemma RequestedIsClear(s: State, job: Job)
    requires JustRequested(s, job) && job.attempt == 1
    ensures Clear(s, job)
  {
  }

  lemma Requested(b: Boot, ip: Ip, forced: string) returns (ls: seq<Label>)
    ensures CanTake(Init(b), ls) && JustRequested(Take(Init(b), ls), Job(ip, Manual, true, 1, forced, 0))
  {
    hide CanTake, Take, Next';
    var o, s, pc := Good("", []), Init(b), Request(Select(ip, Manual, forced));
    EmptyRun(s);
    TakeOneMore(s, [], Call(pc));
    ls := [] + [Call(pc)];
    var s1 := Take(s, ls);
    assert s1 == s.(threads := map[0 := Thread(false, pc)], nextTid := 1);
    ls := Walk(s, ls, 0, o);
    RequestDoes(s1, 0, o, ip, Manual, forced);
    assert s1.canceled + Kept(s1.sh) == {};
    var s2 := Take(s, ls);
    ls := Walk(s, ls, 0, o);
    CandidateIsSpawned(s2, 0, o, Job(ip, Manual, true, 1, forced, 0));
  }

  // ----- a session that dies -----

  /** The watcher of the installed session waits, and nothing else is under way. */
  predicate Settled(s: State, t: Tid, sid: Sid) {
    && IsAt(s, t, Watch(Waiting(sid, s.sh.generation))) && t < s.nextTid && s.sh.session == Some(sid)
    && s.locks == Locks(None, None, None) && !s.appDone && !s.closing && !s.sh.paused
    && (forall tok: Token :: tok in s.canceled ==> tok < s.nextToken)
  }

  /** Its session ends; with direct fallback the failover takes it out, goes automatic, and closes it. */
  function FellBack(s: State, t: Tid, sid: Sid, cause: string): State
    requires t in s.threads
  {
    s.(sh := s.sh.(selection := Auto, manualIP := "", manualProtocol := "", lastErr := Some(cause), session := None,
                   directMode := true, phase := Connecting, generation := s.sh.generation + 1),
       locks := s.locks.(failover := Some(t), auto := Some(t)), closes := s.closes + multiset{sid},
       threads := Moved(s, t, Failing(Mark(s.sh.node, Some(sid)))))
  }

  lemma FallsBack(s: State, t: Tid, sid: Sid, cause: string) returns (ls: seq<Label>)
    requires Settled(s, t, sid)
    ensures CanTake(s, ls) && Take(s, ls) == FellBack(s, t, sid, cause)
  {
    hide CanTake, Take, Next';
    var o, gen := Good(cause, []), s.sh.generation;
    EmptyRun(s);
    ls := Walk(s, [], t, o);
    WatcherActs(s, t, o, sid, gen);
    var s1 := Take(s, ls);
    ls := Walk(s, ls, t, o);
    WatcherActs(s1, t, o, sid, gen);
    var s2 := Take(s, ls);
    ls := Walk(s, ls, t, o);
    FailoverActs(s2, t, o, FailoverLock(Some(sid)));
    ls := FallsBackLocked(s, ls, t, sid, cause);
    assert Take(s, ls).threads == FellBack(s, t, sid, cause).threads;
  }

  lemma FallsBackLocked(s: State, ls: seq<Label>, t: Tid, sid: Sid, cause: string) returns (ms: seq<Label>)
    requires CanTake(s, ls)
    requires var c := Take(s, ls);
             IsAt(c, t, Failing(AutoLock(Some(sid)))) && c.locks.auto.None? && !c.sh.paused && c.sh.session == Some(sid)
    ensures CanTake(s, ms)
    ensures var c := Take(s, ls);
            Take(s, ms) == FellBack(c, t, sid, cause).(locks := c.locks.(auto := Some(t)))
  {
    hide CanTake, Take, Next';
    var o, c := Good(cause, []), Take(s, ls);
    ms := Walk(s, ls, t, o);
    FailoverActs(c, t, o, AutoLock(Some(sid)));
    var c1 := Take(s, ms);
    ms := Walk(s, ms, t, o);
    FailoverActs(c1, t, o, Decide(Some(sid)));
    var c2 := Take(s, ms);
    ms := Walk(s, ms, t, o);
    FailoverActs(c2, t, o, CloseFailed(sid, c.sh.node, Some(sid)));
    assert Take(s, ms).threads == FellBack(c, t, sid, cause).threads;
  }

  /** Then the switch is ready to activate the first node of the ranking. */
  lemma Switches(s: State, t: Tid, ip: Ip, failed: Ip, target: Option<Sid>) returns (ls: seq<Label>)
    requires IsAt(s, t, Failing(Mark(failed, target))) && !s.sh.paused && !s.appDone && s.nextToken !in s.canceled
    ensures CanTake(s, ls)
    ensures var s', job := Take(s, ls), Job(ip, Auto, false, 0, "", s.nextToken);
            s' == s.(threads := Moved(s, t, Activate(job, ToLoop([], s.nextToken, true), SwitchLock)), db := s'.db,
                     sh := s.sh.(cancelAutomatic := Some(s.nextToken)), nextToken := s.nextToken + 1)
  {
    hide CanTake, Take, Next';
    var o := Good("", [ip]);
    EmptyRun(s);
    ls := Walk(s, [], t, o);
    FailoverSwitches(s, t, o, failed, target);
    var s1 := Take(s, ls);
    ls := Walk(s, ls, t, o);
    AutomaticBegins(s1, t, o, true, LoopEnter);
    var s2 := Take(s, ls);
    ls := Walk(s, ls, t, o);
    AutomaticTries(s2, t, o, true, LoopNodes(s.nextToken));
    var s3 := Take(s, ls);
    ls := Walk(s, ls, t, o);
    AutomaticTries(s3, t, o, true, LoopNext([ip], s.nextToken));
    assert [ip][1..] == [];
    assert Take(s, ls).threads ==
      Moved(s, t, Activate(Job(ip, Auto, false, 0, "", s.nextToken), ToLoop([], s.nextToken, true), SwitchLock));
  }

  /**
   A session that dies is replaced: its watcher starts the failover, traffic goes direct, the session is closed, and the
   switch that follows connects the first node of the ranking, automatically selected and on a VPN route again.
   */
  lemma DyingSessionIsReplaced(s: State, t: Tid, sid: Sid, cause: string, ip: Ip, protocol: string)
    returns (ls: seq<Label>)
    requires Settled(s, t, sid)
    ensures CanTake(s, ls)
    ensures var s' := Take(s, ls);
            && s'.sh.session == Some(s.nextSid) && s'.sh.node == ip && s'.sh.protocol == protocol
            && s'.sh.selection == Auto && !s'.sh.directMode && s'.sh.phase == Connected
            && s'.closes == s.closes + multiset{sid}
  {
    hide CanTake, Take, Next', Prepared, FellBack, Clear;
    ls := FallsBack(s, t, sid, cause);
    FellBackIs(s, t, sid, cause);
    var s1 := FellBack(s, t, sid, cause);
    var ms := Switches(s1, t, ip, s.sh.node, Some(sid));
    Joined(s, ls, ms);
    ls := ls + ms;
    var s2, job := Take(s, ls), Job(ip, Auto, false, 0, "", s.nextToken);
    SwitchIsClear(s2, job);
    ms := Activates(s2, t, job, ToLoop([], s.nextToken, true), protocol);
    PreparedIs(s2, t, job, ToLoop([], s.nextToken, true));
    Joined(s, ls, ms);
    ls := ls + ms;
  }

  lemma FellBackIs(s: State, t: Tid, sid: Sid, cause: string)
    requires Settled(s, t, sid)
    ensures var c := FellBack(s, t, sid, cause);
            && IsAt(c, t, Failing(Mark(s.sh.node, Some(sid)))) && !c.sh.paused && !c.appDone && !c.closing
            && c.nextToken == s.nextToken && c.nextToken !in c.canceled && c.nextSid == s.nextSid
            && c.sh.session.None? && c.locks.switch.None? && c.closes == s.closes + multiset{sid}
  {
  }

  lemma PreparedIs(s: State, t: Tid, job: Job, ret: Ret)
    requires t in s.threads
    ensures var c := Prepared(s, t, job, ret);
            && c.closes == s.closes && c.nextTid == s.nextTid && c.nextToken == s.nextToken
            && c.nextSid == s.nextSid + 1 && c.appDone == s.appDone && c.closing == s.closing
            && c.canceled == s.canceled && c.locks == s.locks.(switch := Some(t))
            && c.sh == (if job.requireHealth then s.sh else s.sh.(phase := Connecting, lastErr := None))
            && (job.requireHealth ==> s.nextSid in c.probed) && t in c.threads
  {
  }

  lemma SwitchIsClear(s: State, job: Job)
    requires s.locks.switch.None? && !s.appDone && job.ctx !in s.canceled && !s.closing && !s.sh.paused
    requires job.attempt == 0
    ensures Clear(s, job)
  {
  }
}
