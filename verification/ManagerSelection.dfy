/**
 The manual selection and the node table under interleaving: pausing and resuming, the row of the active node, and the
 one row that can be stale.
 */
module ManagerSelection {
  import opened Basics
  import opened ManagerSections
  import opened ManagerThreads
  import opened ManagerGenerations
  import opened ManagerRequests
  import opened ManagerInvariant
  import opened ManagerTheorems
  import opened NodeStore
  import ManagerOwnership
  import ManagerLocking
  import NodeTable

  // ----- what a step does to the table and the selection -----

  /** The steps that are allowed to change a paused selection: a new request, a resume, or the fallback of Start. */
  predicate SelectionPc(pc: Pc) {
    match pc
    case Request(Select(_, _, _)) => true
    case Request(ResumeCall) => true
    case Request(ResumeReset) => true
    case Starting(StartReset) => true
    case _ => false
  }

  /** The thread is about to install a session to another node than the last one. */
  predicate Replaces(s: State, pc: Pc) {
    && pc.Activate? && pc.a.Installing? && MayInstall(s.sh, pc.job.attempt)
    && s.sh.node != "" && s.sh.node != pc.job.ip
  }

  /** Rows disappear only when an install leaves their node; other steps at most record a failure. */
  ghost predicate DbStep(s: State, pc: Pc, o: Oracle, m: Move) {
    if Replaces(s, pc) then m.db == NodeTable.DeleteIfStale(s.db, s.sh.node)
    else m.db == s.db || exists ip :: m.db == NodeTable.MarkFailure(s.db, ip, o.text, o.now)
  }

  /** No install happens while paused, and the selection changes only at the steps that may change it. */
  ghost predicate TableStep(s: State, pc: Pc, o: Oracle, m: Move) {
    && DbStep(s, pc, o, m)
    && (s.sh.paused && !SelectionPc(pc) ==>
         && m.installs.None? && m.sh.paused && m.sh.selection == s.sh.selection
         && m.sh.manualIP == s.sh.manualIP && m.sh.manualProtocol == s.sh.manualProtocol)
  }

  lemma RequestTable(s: State, r: RequestPc, o: Oracle)
    ensures TableStep(s, Request(r), o, RequestMove(s, r, o))
  {
  }

  lemma LoopTable(s: State, t: Tid, failover: bool, l: LoopPc, o: Oracle)
    ensures TableStep(s, Loop(failover, l), o, LoopMove(s, t, failover, l, o))
  {
  }

  lemma ActivateTable(s: State, t: Tid, job: Job, ret: Ret, a: ActivatePc, o: Oracle)
    ensures TableStep(s, Activate(job, ret, a), o, ActivateMove(s, t, job, ret, a, o))
  {
  }

  lemma FailingTable(s: State, t: Tid, f: FailoverPc, o: Oracle)
    ensures TableStep(s, Failing(f), o, FailoverMove(s, t, f, o))
  {
  }

  lemma ShutdownTable(s: State, x: ClosePc, o: Oracle)
    ensures TableStep(s, Shutdown(x), o, ShutdownMove(s, x))
  {
  }

  lemma StartingTable(s: State, b: StartPc, o: Oracle)
    ensures TableStep(s, Starting(b), o, StartMove(s, b, o))
  {
  }

  lemma ServiceTable(s: State, v: ServicePc, o: Oracle)
    ensures TableStep(s, Service(v), o, ServiceMove(s, v, o))
  {
  }

  lemma MovesTable(s: State, t: Tid, pc: Pc, o: Oracle)
    ensures TableStep(s, pc, o, MoveOf(s, t, pc, o))
  {
    hide RequestMove, LoopMove, ActivateMove, FailoverMove, ShutdownMove, StartMove, ServiceMove;
    match pc
    case Request(r) => RequestTable(s, r, o);
    case Loop(failover, l) => LoopTable(s, t, failover, l, o);
    case Activate(job, ret, a) => ActivateTable(s, t, job, ret, a, o);
    case Failing(f) => FailingTable(s, t, f, o);
    case Shutdown(x) => ShutdownTable(s, x, o);
    case Starting(b) => StartingTable(s, b, o);
    case Service(v) => ServiceTable(s, v, o);
    case Candidate(_, _) =>
    case Watch(_) =>
  }

  /**
   A step loses a row only as its install leaves the row's node, and only if that row is stale; none becomes stale.
   */
  lemma RowsAfter(s: State, pc: Pc, o: Oracle, m: Move)
    requires DbStep(s, pc, o, m)
    ensures forall ip :: ip in m.db.rows <==>
              ip in s.db.rows && !(Replaces(s, pc) && ip == s.sh.node && NodeTable.Stale(s.db, ip))
    ensures forall ip :: ip in m.db.rows ==> m.db.rows[ip].feed == s.db.rows[ip].feed
    ensures forall ip :: NodeTable.Stale(m.db, ip) ==> NodeTable.Stale(s.db, ip)
  {
    hide Replaces;
  }

  // ----- the row of a node along a run -----

  /** The downloaded columns of a row, if the table has it. */
  function FeedOf(db: NodeTable.Db, ip: Ip): Option<NodeTable.Feed> {
    if ip in db.rows then Some(db.rows[ip].feed) else None
  }

  /** What a downloaded list says about a node. */
  function FeedIn(nodes: seq<NodeTable.Node>, ip: Ip): Option<NodeTable.Feed> {
    if nodes == [] then None
    else if nodes[|nodes| - 1].ip == ip then Some(nodes[|nodes| - 1].feed)
    else FeedIn(nodes[..|nodes| - 1], ip)
  }

  lemma {:induction false} FeedInIs(nodes: seq<NodeTable.Node>, ip: Ip)
    requires NodeTable.DistinctIps(nodes)
    ensures FeedIn(nodes, ip).Some? <==> ip in NodeTable.Ips(nodes)
    ensures forall i :: 0 <= i < |nodes| && nodes[i].ip == ip ==> FeedIn(nodes, ip) == Some(nodes[i].feed)
  {
    if nodes != [] {
      var front, last := nodes[..|nodes| - 1], nodes[|nodes| - 1];
      assert nodes == front + [last];
      FeedInIs(front, ip);
      NodeTable.IpsAppend(front, last);
    }
  }

  /** The downloaded columns after the step, given those before: only a refresh that lists the node changes them. */
  function FeedAfter(s: State, l: Label, ip: Ip, feed: Option<NodeTable.Feed>): Option<NodeTable.Feed>
    requires Enabled(s, l)
  {
    match l
    case Refresh(nodes, _) =>
      if FeedIn(nodes, ip).Some? then FeedIn(nodes, ip)
      else if ip != "" && ip == Preserved(s.sh) then feed
      else None
    case Run(t, _) =>
      if Replaces(s, s.threads[t].pc) && ip == s.sh.node && NodeTable.Stale(s.db, ip) then None else feed
    case _ => feed
  }

  /** The downloaded columns at the end of the run: what its refreshes and node switches make of them. */
  function FeedAlong(s: State, ls: seq<Label>, ip: Ip, feed: Option<NodeTable.Feed>): Option<NodeTable.Feed>
    requires CanTake(s, ls)
    decreases |ls|
  {
    if ls == [] then feed else FeedAlong(Next(s, ls[0]), ls[1..], ip, FeedAfter(s, ls[0], ip, feed))
  }

  lemma RefreshFeeds(db: NodeTable.Db, nodes: seq<NodeTable.Node>, at: Time, preserve: Ip, ip: Ip)
    requires NodeTable.DistinctIps(nodes)
    ensures FeedOf(NodeTable.Replaced(db, nodes, at, preserve), ip) ==
              if FeedIn(nodes, ip).Some? then FeedIn(nodes, ip)
              else if ip != "" && ip == preserve then FeedOf(db, ip)
              else None
  {
    hide NodeTable.Replaced, NodeTable.DistinctIps;
    RefreshSemantics(db, nodes, at, preserve);
    FeedInIs(nodes, ip);
    if ip in NodeTable.Ips(nodes) {
      var i :| 0 <= i < |nodes| && nodes[i].ip == ip;
    }
  }

  lemma FeedStep(s: State, l: Label, ip: Ip)
    requires Enabled(s, l)
    ensures FeedOf(Next(s, l).db, ip) == FeedAfter(s, l, ip, FeedOf(s.db, ip))
  {
    hide MoveOf, ClosesAfter, NodesAfter, GensAfter, InstallsAfter, ThreadsAfter, Replaces, Preserved;
    hide NodeTable.Replaced, FeedIn;
    if l.Refresh? {
      RefreshFeeds(s.db, l.nodes, l.at, Preserved(s.sh), ip);
    } else if l.Run? {
      MovesTable(s, l.t, s.threads[l.t].pc, l.o);
      RowsAfter(s, s.threads[l.t].pc, l.o, MoveOf(s, l.t, s.threads[l.t].pc, l.o));
    }
  }

  /** Over any run, whether a row is in the table and what it says is decided by the refreshes and node switches. */
  lemma {:induction false} FeedRun(s: State, ls: seq<Label>, ip: Ip)
    requires CanTake(s, ls)
    ensures FeedOf(Take(s, ls).db, ip) == FeedAlong(s, ls, ip, FeedOf(s.db, ip))
    ensures Take(s, ls).drivers == s.drivers
    decreases |ls|
  {
    hide Next, Enabled, FeedAfter, FeedOf;
    if ls != [] {
      FeedStep(s, ls[0], ip);
      DriversStay(s, ls[0]);
      FeedRun(Next(s, ls[0]), ls[1..], ip);
    }
  }

  lemma DriversStay(s: State, l: Label)
    requires Enabled(s, l)
    ensures Next(s, l).drivers == s.drivers
  {
    hide MoveOf, ClosesAfter, NodesAfter, GensAfter, InstallsAfter, ThreadsAfter;
  }

  /** A refresh that omits the node without preserving it, or an install that leaves it while its row is stale. */
  predicate Loses(s: State, l: Label, ip: Ip)
    requires Enabled(s, l)
  {
    match l
    case Refresh(nodes, _) => ip !in NodeTable.Ips(nodes) && (ip == "" || ip != Preserved(s.sh))
    case Run(t, _) => Replaces(s, s.threads[t].pc) && ip == s.sh.node && NodeTable.Stale(s.db, ip)
    case _ => false
  }

  predicate SomeStepLoses(s: State, ls: seq<Label>, ip: Ip)
    requires CanTake(s, ls)
    decreases |ls|
  {
    ls != [] && (Loses(s, ls[0], ip) || SomeStepLoses(Next(s, ls[0]), ls[1..], ip))
  }

  lemma {:induction false} LossNeedsAStep(s: State, ls: seq<Label>, ip: Ip, feed: Option<NodeTable.Feed>)
    requires CanTake(s, ls) && feed.Some? && FeedAlong(s, ls, ip, feed).None?
    ensures SomeStepLoses(s, ls, ip)
    decreases |ls|
  {
    hide Next, Replaces, Preserved, CanRun;
    if ls != [] && !Loses(s, ls[0], ip) {
      if ls[0].Refresh? {
        FeedInIs(ls[0].nodes, ip);
      }
      assert FeedAfter(s, ls[0], ip, feed).Some?;
      LossNeedsAStep(Next(s, ls[0]), ls[1..], ip, FeedAfter(s, ls[0], ip, feed));
    }
  }

  // ----- pause, refresh, resume -----

  predicate Remembers(s: State, ip: Ip, forced: string) {
    && s.sh.paused && s.sh.selection.Manual? && s.sh.manualIP == ip && s.sh.manualProtocol == forced
    && ip in s.db.rows
  }

  predicate ChangesSelection(s: State, l: Label) { l.Run? && l.t in s.threads && SelectionPc(s.threads[l.t].pc) }

  predicate Undisturbed(s: State, ls: seq<Label>)
    requires CanTake(s, ls)
    decreases |ls|
  {
    ls == [] || (!ChangesSelection(s, ls[0]) && Undisturbed(Next(s, ls[0]), ls[1..]))
  }

  /** Pausing keeps the manual node and protocol; with a session that node is the active one. */
  lemma PauseRemembers(s: State, t: Tid, o: Oracle)
    requires Inv(s) && t in s.threads && s.threads[t].pc == Request(PauseCall) && !s.sh.paused
    requires s.sh.selection.Manual? && s.sh.manualIP in s.db.rows
    ensures Remembers(Next'(s, t, o), s.sh.manualIP, s.sh.manualProtocol)
    ensures s.sh.session.Some? ==> Remembers(Next'(s, t, o), s.sh.node, s.sh.manualProtocol)
    ensures Next'(s, t, o).db == s.db && Next'(s, t, o).drivers == s.drivers
  {
    hide ClosesAfter, NodesAfter, GensAfter, InstallsAfter;
    hide LoopMove, StartMove, ServiceMove, ShutdownMove, FailoverMove, ActivateMove, Inv;
    InvIsConsistent(s);
  }

  lemma PausedStep(s: State, l: Label, ip: Ip, forced: string)
    requires Consistent(s.sh, s.swept) && Enabled(s, l) && !ChangesSelection(s, l) && Remembers(s, ip, forced)
    requires ip != ""
    ensures Remembers(Next(s, l), ip, forced)
  {
    hide MoveOf, ClosesAfter, NodesAfter, GensAfter, InstallsAfter, ThreadsAfter, FeedIn;
    FeedStep(s, l, ip);
    if l.Run? {
      MovesTable(s, l.t, s.threads[l.t].pc, l.o);
    }
  }

  /** Refreshes, failovers, health checks and stray activations leave a paused manual selection and its row alone. */
  lemma {:induction false} PausedSelectionSurvives(s: State, ls: seq<Label>, ip: Ip, forced: string)
    requires Inv(s) && CanTake(s, ls) && Remembers(s, ip, forced) && Undisturbed(s, ls) && ip != ""
    ensures Remembers(Take(s, ls), ip, forced) && Inv(Take(s, ls))
    decreases |ls|
  {
    hide Inv, Next, Enabled, Remembers, ChangesSelection, Consistent;
    if ls != [] {
      InvIsConsistent(s);
      PausedStep(s, ls[0], ip, forced);
      StepKeepsInv(s, ls[0]);
      PausedSelectionSurvives(Next(s, ls[0]), ls[1..], ip, forced);
    }
  }

  lemma InvIsConsistent(s: State)
    requires Inv(s)
    ensures Consistent(s.sh, s.swept) && (forall t :: t in s.threads ==> t < s.nextTid)
  {
    hide Known, Pinned, Ordered, ManagerLocking.LocksMatch, Orderly, Consistent;
  }

  predicate StandsBy(ls: seq<Label>, t: Tid) { forall i :: 0 <= i < |ls| && ls[i].Run? ==> ls[i].t != t }

  lemma {:induction false} ThreadStands(s: State, ls: seq<Label>, t: Tid)
    requires Inv(s) && CanTake(s, ls) && t in s.threads && StandsBy(ls, t)
    ensures t in Take(s, ls).threads && Take(s, ls).threads[t] == s.threads[t]
    decreases |ls|
  {
    hide Inv, Next, Enabled;
    if ls != [] {
      OthersLeaveThread(s, ls[0], t);
      StepKeepsInv(s, ls[0]);
      assert forall i :: 0 <= i < |ls[1..]| ==> ls[1..][i] == ls[i + 1];
      ThreadStands(Next(s, ls[0]), ls[1..], t);
    }
  }

  lemma ResumeStep(s: State, t: Tid, o: Oracle, ip: Ip, forced: string)
    requires Remembers(s, ip, forced) && t in s.threads && s.threads[t].pc == Request(ResumeCall)
    ensures var s' := Next'(s, t, o);
            && t in s'.threads && s'.threads[t].pc == Request(ResumeLookup(Manual, ip, forced))
            && s'.sh == s.sh.(paused := false, phase := Connecting, lastErr := None)
            && s'.db == s.db && s'.drivers == s.drivers
  {
    hide ClosesAfter, NodesAfter, GensAfter, InstallsAfter;
    hide LoopMove, StartMove, ServiceMove, ShutdownMove, FailoverMove, ActivateMove;
  }

  predicate IsAt(s: State, t: Tid, pc: Pc) { t in s.threads && s.threads[t].pc == pc }

  /** The node can be asked for this protocol: its row offers it and a driver for it is registered. */
  predicate Allows(feed: Option<NodeTable.Feed>, drivers: set<string>, forced: string) {
    feed.Some? && (forced == "" || (forced in feed.value.protocols && forced in drivers))
  }

  lemma LookupStep(s: State, t: Tid, o: Oracle, ip: Ip, forced: string)
    requires t in s.threads && t < s.nextTid
    requires s.threads[t].pc == Request(ResumeLookup(Manual, ip, forced)) && ip != ""
    ensures var s' := Next'(s, t, o);
            var found := o.ok && ip in s.db.rows;
            && (IsAt(s', t, Request(Select(ip, Manual, forced))) <==>
                 found && Allows(FeedOf(s.db, ip), s.drivers, forced))
            && (IsAt(s', t, Request(ResumeReset)) <==> !found)
            && (found && !Allows(FeedOf(s.db, ip), s.drivers, forced) ==> s'.threads == s.threads - {t})
            && s'.sh == s.sh && s'.db == s.db
  {
    hide ClosesAfter, NodesAfter, GensAfter, InstallsAfter;
    hide LoopMove, StartMove, ServiceMove, ShutdownMove, FailoverMove, ActivateMove;
  }

  /**
   Pause, any undisturbed stretch with any number of refreshes, resume, and any stretch until the resuming thread looks
   the node up: it requests the same manual node with the same protocol if and only if the database answers, the row is
   still listed and it still allows the protocol. What the row says then is what the refreshes and node switches of the
   two stretches make of it. If the row is gone, a step of the second stretch lost it. The states are those before and
   after the pause, before and after the resume, and before the lookup.
   */
  lemma ResumeRetriesSelection(
    s: State, t: Tid, o: Oracle, s1: State, paused: seq<Label>, s2: State,
    u: Tid, o': Oracle, s3: State, window: seq<Label>, s4: State, o'': Oracle)
    requires Inv(s) && IsAt(s, t, Request(PauseCall)) && !s.sh.paused && s1 == Next'(s, t, o)
    requires s.sh.selection.Manual? && s.sh.manualIP != "" && s.sh.manualIP in s.db.rows
    requires CanTake(s1, paused) && Undisturbed(s1, paused) && s2 == Take(s1, paused)
    requires IsAt(s2, u, Request(ResumeCall)) && s3 == Next'(s2, u, o')
    requires CanTake(s3, window) && StandsBy(window, u) && s4 == Take(s3, window)
    ensures var ip, forced := s.sh.manualIP, s.sh.manualProtocol;
            var feed := FeedAlong(s3, window, ip, FeedAlong(s1, paused, ip, FeedOf(s.db, ip)));
            && IsAt(s4, u, Request(ResumeLookup(Manual, ip, forced)))
            && (IsAt(Next'(s4, u, o''), u, Request(Select(ip, Manual, forced))) <==>
                 o''.ok && Allows(feed, s.drivers, forced))
            && (IsAt(Next'(s4, u, o''), u, Request(ResumeReset)) <==> !(o''.ok && feed.Some?))
            && (feed.None? ==> SomeStepLoses(s3, window, ip))
  {
    hide Inv, Next', Next, Enabled, CanTake, Take, Remembers, Undisturbed, StandsBy, FeedAlong, SomeStepLoses, Allows;
    var ip, forced := s.sh.manualIP, s.sh.manualProtocol;
    StepOfKeepsInv(s, t, o);
    PauseRemembers(s, t, o);
    PausedSelectionSurvives(s1, paused, ip, forced);
    FeedRun(s1, paused, ip);
    ResumeStep(s2, u, o', ip, forced);
    StepOfKeepsInv(s2, u, o');
    Remembered(s2, ip, forced);
    ThreadStands(s3, window, u);
    FeedRun(s3, window, ip);
    RunsKeepInv(s3, window);
    InvIsConsistent(s4);
    LookupStep(s4, u, o'', ip, forced);
    if FeedOf(s4.db, ip).None? {
      LossNeedsAStep(s3, window, ip, FeedOf(s3.db, ip));
    }
    AllowsOnlyListed(FeedOf(s4.db, ip), s.drivers, forced);
  }

  lemma AllowsOnlyListed(feed: Option<NodeTable.Feed>, drivers: set<string>, forced: string)
    ensures Allows(feed, drivers, forced) ==> feed.Some?
  {
  }

  lemma Remembered(s: State, ip: Ip, forced: string)
    requires Remembers(s, ip, forced)
    ensures ip in s.db.rows
  {
  }

  /** A request that waits for nothing keeps the invariant by its step. */
  lemma StepOfKeepsInv(s: State, t: Tid, o: Oracle)
    requires Inv(s) && (IsAt(s, t, Request(PauseCall)) || IsAt(s, t, Request(ResumeCall)))
    ensures Inv(Next'(s, t, o))
  {
    hide Inv, MoveOf, Commit;
    StepKeepsInv(s, Run(t, o));
  }

  /**
   The window is real: in every paused manual state any refresh that comes between the resume and the lookup, and omits
   the node, makes the program forget the selection and turn automatic.
   */
  lemma RefreshInWindowForgets(
    s: State, t: Tid, o: Oracle, nodes: seq<NodeTable.Node>, at: Time, ip: Ip, forced: string)
    requires Inv(s) && Remembers(s, ip, forced) && ip != "" && IsAt(s, t, Request(ResumeCall))
    requires NodeTable.DistinctIps(nodes) && ip !in NodeTable.Ips(nodes)
    ensures var s1 := Next'(s, t, o);
            var s2 := Next(s1, Label.Refresh(nodes, at));
            && IsAt(s2, t, Request(ResumeLookup(Manual, ip, forced))) && ip !in s2.db.rows
            && IsAt(Next'(s2, t, o), t, Request(ResumeReset))
  {
    hide Inv, MoveOf, Commit, Next', FeedIn, NodeTable.Replaced, NodeTable.DistinctIps;
    StepOfKeepsInv(s, t, o);
    InvIsConsistent(s);
    ResumeStep(s, t, o, ip, forced);
    var s1 := Next'(s, t, o);
    InvIsConsistent(s1);
    FeedInIs(nodes, ip);
    FeedStep(s1, Label.Refresh(nodes, at), ip);
    var s2 := Next(s1, Label.Refresh(nodes, at));
    LookupStep(s2, t, o, ip, forced);
  }

  /** The selection is manual, nothing is installed or on its way to it, and the status says that it is connecting. */
  predicate Stalled(s: State, t: Tid, ip: Ip, forced: string) {
    && t !in s.threads && ip in s.db.rows
    && !s.sh.paused && s.sh.directMode && s.sh.session.None? && s.sh.phase == Connecting && s.sh.lastErr.None?
    && s.sh.selection.Manual? && s.sh.manualIP == ip && s.sh.manualProtocol == forced
  }

  /**
   No race is needed: when a refresh during the pause lists the node without the chosen protocol, resuming ends with no
   request, no fallback and no new thread, and the status stays at connecting.
   */
  lemma RelistingStallsResume(
    s: State, t: Tid, o: Oracle, nodes: seq<NodeTable.Node>, at: Time, s1: State, ip: Ip, forced: string)
    requires Inv(s) && Remembers(s, ip, forced) && ip != "" && IsAt(s, t, Request(ResumeCall)) && o.ok
    requires NodeTable.DistinctIps(nodes) && ip in NodeTable.Ips(nodes) && s1 == Next(s, Label.Refresh(nodes, at))
    requires forced != "" && !Allows(FeedIn(nodes, ip), s.drivers, forced)
    ensures Remembers(s1, ip, forced) && IsAt(s1, t, Request(ResumeCall)) && t in Next'(s1, t, o).threads
    ensures var s3 := Next'(Next'(s1, t, o), t, o);
            Stalled(s3, t, ip, forced) && s3.threads == s.threads - {t}
  {
    hide Inv, MoveOf, Commit, Next', FeedIn, NodeTable.Replaced, NodeTable.DistinctIps;
    InvIsConsistent(s);
    FeedInIs(nodes, ip);
    FeedStep(s, Label.Refresh(nodes, at), ip);
    StepKeepsInv(s, Label.Refresh(nodes, at));
    ResumeStep(s1, t, o, ip, forced);
    StepOfKeepsInv(s1, t, o);
    var s2 := Next'(s1, t, o);
    InvIsConsistent(s2);
    LookupStep(s2, t, o, ip, forced);
    ResumeKeepsOthers(s1, t, o);
  }

  lemma ResumeKeepsOthers(s: State, t: Tid, o: Oracle)
    requires IsAt(s, t, Request(ResumeCall))
    ensures forall u :: u != t ==> (u in Next'(s, t, o).threads <==> u in s.threads)
    ensures forall u :: u != t && u in s.threads ==> Next'(s, t, o).threads[u] == s.threads[u]
  {
    hide ClosesAfter, NodesAfter, GensAfter, InstallsAfter;
    hide LoopMove, StartMove, ServiceMove, ShutdownMove, FailoverMove, ActivateMove;
  }

  lemma PauseAndResumeCalls(ip: Ip, forced: string, db: NodeTable.Db, drivers: set<string>) returns (ls: seq<Label>)
    requires ip in db.rows
    ensures var b := Boot(Some((ip, forced)), db, drivers);
            && CanTake(Init(b), ls)
            && Remembers(Take(Init(b), ls), ip, forced) && IsAt(Take(Init(b), ls), 1, Request(ResumeCall))
  {
    hide CanTake, Take, ClosesAfter, NodesAfter, GensAfter, InstallsAfter;
    hide LoopMove, StartMove, ServiceMove, ShutdownMove, FailoverMove, ActivateMove;
    var s0 := Init(Boot(Some((ip, forced)), db, drivers));
    var o := Oracle(true, true, [], "", 0);
    EmptyRun(s0);
    TakeOneMore(s0, [], Call(Request(PauseCall)));
    TakeOneMore(s0, [] + [Call(Request(PauseCall))], Call(Request(ResumeCall)));
    ls := [] + [Call(Request(PauseCall))] + [Call(Request(ResumeCall))];
    TakeOneMore(s0, ls, Run(0, o));
    ls := ls + [Run(0, o)];
  }

  /** A run from the start of the program that loses a manual selection between a resume and its lookup. */
  lemma ResumeCanForget(ip: Ip, forced: string, db: NodeTable.Db, drivers: set<string>, at: Time)
    returns (ls: seq<Label>, o: Oracle)
    requires ip in db.rows && ip != ""
    ensures var b := Boot(Some((ip, forced)), db, drivers);
            && CanTake(Init(b), ls) && o.ok
            && var s := Take(Init(b), ls);
               && Remembers(s, ip, forced) && IsAt(s, 1, Request(ResumeCall))
               && IsAt(Next'(Next(Next'(s, 1, o), Label.Refresh([], at)), 1, o), 1, Request(ResumeReset))
  {
    hide CanTake, Take, Next', Next, Inv, Remembers;
    ls := PauseAndResumeCalls(ip, forced, db, drivers);
    o := Oracle(true, true, [], "", 0);
    var b := Boot(Some((ip, forced)), db, drivers);
    Reachable(b, ls);
    RefreshInWindowForgets(Take(Init(b), ls), 1, o, [], at, ip, forced);
  }

  /** And one that ends stalled, after a refresh that lists the node without its protocol. */
  lemma ResumeCanStall(
    ip: Ip, forced: string, feed: NodeTable.Feed, db: NodeTable.Db, drivers: set<string>, at: Time)
    returns (ls: seq<Label>, o: Oracle)
    requires ip in db.rows && ip != "" && forced != "" && forced !in feed.protocols
    ensures var b := Boot(Some((ip, forced)), db, drivers);
            && CanTake(Init(b), ls) && o.ok
            && var s := Take(Init(b), ls);
               && Remembers(s, ip, forced) && IsAt(s, 1, Request(ResumeCall))
               && var s1 := Next(s, Label.Refresh([NodeTable.Node(ip, feed)], at));
                  && 1 in s1.threads && 1 in Next'(s1, 1, o).threads
                  && Stalled(Next'(Next'(s1, 1, o), 1, o), 1, ip, forced)
  {
    hide CanTake, Take, Next', Next, Inv, Remembers, Stalled;
    ls := PauseAndResumeCalls(ip, forced, db, drivers);
    o := Oracle(true, true, [], "", 0);
    var b := Boot(Some((ip, forced)), db, drivers);
    Reachable(b, ls);
    var s, nodes := Take(Init(b), ls), [NodeTable.Node(ip, feed)];
    assert nodes[0].ip in NodeTable.Ips(nodes);
    RelistingStallsResume(s, 1, o, nodes, at, Next(s, Label.Refresh(nodes, at)), ip, forced);
  }

  // ----- the active row and the stale row -----

  lemma ActiveRowStep(s: State, l: Label)
    requires Inv(s) && Enabled(s, l) && s.sh.session.Some? && s.sh.node in s.db.rows && s.sh.node != ""
    requires Next(s, l).sh.session == s.sh.session
    ensures Next(s, l).sh.node == s.sh.node && s.sh.node in Next(s, l).db.rows
  {
    hide MoveOf, ClosesAfter, GensAfter, InstallsAfter, ThreadsAfter;
    FeedStep(s, l, s.sh.node);
    if l.Run? {
      var pc := s.threads[l.t].pc;
      MovesGeneration(s, l.t, pc, l.o);
      MovesKnown(s, l.t, pc, l.o);
      if Unused(pc).Some? {
        assert Unused(pc).value !in s.genOf;
      }
      if Replaces(s, pc) {
        ReplacingInstalls(s, l.t, pc, l.o);
      }
    }
  }

  lemma ReplacingInstalls(s: State, t: Tid, pc: Pc, o: Oracle)
    requires Replaces(s, pc)
    ensures Unused(pc).Some? && MoveOf(s, t, pc, o).sh.session == Unused(pc)
  {
  }

  /** The row of the active node stays in the table for as long as its session stays installed. */
  lemma {:induction false} ActiveRowStays(s: State, ls: seq<Label>)
    requires Inv(s) && CanTake(s, ls) && s.sh.session.Some? && s.sh.node in s.db.rows && s.sh.node != ""
    requires Take(s, ls).sh.session == s.sh.session
    ensures Take(s, ls).sh.node == s.sh.node && s.sh.node in Take(s, ls).db.rows
    decreases |ls|
  {
    hide Inv, Next, Enabled;
    if ls != [] {
      StepKeepsInv(s, ls[0]);
      SessionHolds(s, ls);
      ActiveRowStep(s, ls[0]);
      ActiveRowStays(Next(s, ls[0]), ls[1..]);
    }
  }

  /** A session that is installed at both ends of a run was installed all along. */
  lemma SessionHolds(s: State, ls: seq<Label>)
    requires Inv(s) && CanTake(s, ls) && ls != [] && s.sh.session.Some? && Take(s, ls).sh.session == s.sh.session
    ensures Next(s, ls[0]).sh.session == s.sh.session
  {
    hide Next, Enabled, ManagerOwnership.Conserved, ManagerLocking.LocksMatch, Consistent, Known, Ordered, Orderly;
    var s' := Next(s, ls[0]);
    StepKeepsInv(s, ls[0]);
    StepRemembersInstalls(s, ls[0], s.sh.session.value);
    if s'.sh.session != s.sh.session {
      SessionNeverReturns(s', ls[1..], s.sh.session.value);
    }
  }

  lemma StepRemembersInstalls(s: State, l: Label, x: Sid)
    requires Enabled(s, l) && x in s.genOf
    ensures x in Next(s, l).genOf
  {
    hide MoveOf, ClosesAfter, NodesAfter, InstallsAfter, ThreadsAfter;
  }

  /** Every row a thread's step loses is this stale one. */
  ghost predicate LosesOnly(s: State, q: Ip) {
    forall l, ip :: Enabled(s, l) && l.Run? && ip in s.db.rows && ip !in Next(s, l).db.rows ==>
      ip == q && NodeTable.Stale(s.db, ip) && ip == s.sh.node && Replaces(s, s.threads[l.t].pc)
  }

  lemma StaleAfter(s: State, l: Label, q: Ip)
    requires Enabled(s, l) && OnlyStale(s.db, q)
    ensures OnlyStale(Next(s, l).db, if l.Refresh? then Preserved(s.sh) else q)
  {
    hide MoveOf, ClosesAfter, NodesAfter, GensAfter, InstallsAfter, ThreadsAfter, Replaces, Preserved;
    if l.Refresh? {
      RefreshSemantics(s.db, l.nodes, l.at, Preserved(s.sh));
    } else if l.Run? {
      MovesTable(s, l.t, s.threads[l.t].pc, l.o);
      RowsAfter(s, s.threads[l.t].pc, l.o, MoveOf(s, l.t, s.threads[l.t].pc, l.o));
    }
  }

  lemma {:induction false} StaleRun(s: State, ls: seq<Label>, q: Ip) returns (q': Ip)
    requires CanTake(s, ls) && OnlyStale(s.db, q)
    ensures OnlyStale(Take(s, ls).db, q')
    decreases |ls|
  {
    hide Next, Enabled, OnlyStale, Preserved;
    if ls == [] {
      q' := q;
    } else {
      StaleAfter(s, ls[0], q);
      q' := StaleRun(Next(s, ls[0]), ls[1..], if ls[0].Refresh? then Preserved(s.sh) else q);
    }
  }

  lemma LossesAreStale(s: State, q: Ip)
    requires OnlyStale(s.db, q)
    ensures LosesOnly(s, q)
  {
    hide Next, Replaces, CanRun;
    forall l, ip | Enabled(s, l) && l.Run? && ip in s.db.rows && ip !in Next(s, l).db.rows
      ensures ip == q && NodeTable.Stale(s.db, ip) && ip == s.sh.node && Replaces(s, s.threads[l.t].pc)
    {
      FeedStep(s, l, ip);
    }
  }

  /**
   In every reachable state at most one row is stale, if at most one was at the start, and the only row any thread can
   remove from the table is that one, in the step that installs a session to another node.
   */
  lemma OneStaleRowInEveryRun(b: Boot, ls: seq<Label>, q: Ip)
    requires OnlyStale(b.db, q) && CanTake(Init(b), ls)
    ensures exists q' :: OnlyStale(Take(Init(b), ls).db, q') && LosesOnly(Take(Init(b), ls), q')
  {
    hide CanTake, Take, OnlyStale, LosesOnly;
    var q' := StaleRun(Init(b), ls, q);
    LossesAreStale(Take(Init(b), ls), q');
  }
}
