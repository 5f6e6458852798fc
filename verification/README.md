# ProxyGate: a verified model

ProxyGate carries SOCKS5 traffic through one VPN session while users, health checks, list refreshes and dying sessions
all try to change that session at once. This project models its stateful core in Dafny and proves what that core keeps
in every interleaving. `dafny verify dfyconfig.toml` checks it.

## How it is laid out

- **Session manager** (`internal/vpn/manager.go`). `ManagerSections` has the shared fields and one function for each
  critical section. `ManagerObject` is the `Manager` object: its methods update the fields in place and are proved equal
  to those functions, and `ConnectNode` and `Activate` are the loops of the source. `ManagerThreads` makes the same
  sections the steps of a transition system with any number of threads, four locks, cancellation, driver and probe
  oracles, refreshes and a two-phase close. `ManagerOwnership`, `ManagerLocking`, `ManagerGenerations` and
  `ManagerRequests` hold the parts of the invariant, `ManagerInvariant` joins them, and `ManagerTheorems` and
  `ManagerSelection` have the results. `ManagerSteps` says field by field what every operation does at each of its
  decision points, and carries a request and a failover through whole runs.
- **DNS cache** (`internal/vpn/dns_cache.go`, `internal/vpn/dns.go`). `DnsCache` is the cache and the coalesced lookups
  as tables and as a transition system with callers and a clock, `DnsCacheSteps` what each of its steps does;
  `DnsSession` is the object on the heap, where sharing of address slices is visible; `DnsResolver` is the plain resolver
  and the name of a query.
- **Speed tests** (`internal/service/speedtest`). `SpeedTest` is the protocol between callers, `Stop` and the worker with
  its inductive invariant, `SpeedTestTheorems` the results over runs, `SpeedTestService` the object whose methods take
  exactly the protocol's steps.
- **TCP relay** (`internal/socks5/relay.go`). `Relay` has the select loop with its lazily armed timers and a declarative
  account of how a relay with eagerly reset timers ends.
- **Node table** (`internal/store/store.go`, `internal/vpngate`). `NodeTable` and `NodeStore` are the table and its
  object; `NodeRefresh` is the way from a downloaded list to the stored table.
- **SOCKS5 messages** (`internal/socks5/server.go`). `Socks5Wire` has encoders, decoders and the datagram codec,
  `Socks5Server` the stream readers over an in-memory connection.

In every transition system a step is one critical section, one lock acquisition, one channel operation or one call to the
outside, and what the outside answers is part of the label. A run is any sequence of labels that are enabled in turn, so
the results hold for every schedule and every answer.

## Where the code and its promises differ

- The project's description promises a health check before every switch. Automatic switches make none. The exact
  condition is `ProbedIffRequired`; `AutomaticSwitchIsUnprobed` gives a run that installs a session never probed.
- Resuming is meant to restore the manual selection (`internal/vpn/manager.go:146-147`). Between the critical section of the
  resume and the lookup of the node the row is no longer preserved: a refresh in that window that omits the node drops the
  row, and the program turns automatic (`RefreshInWindowForgets`, with a run from the start in `ResumeCanForget`).
  No race is needed for the second way: when a refresh during the pause lists the node without the chosen protocol,
  `internal/vpn/manager.go:235-237` returns the validation error after the pause has been lifted. No connection is requested
  and no fallback started, and the status stays at "connecting" until the next request, failover or refresh
  (`RelistingStallsResume`, `ResumeCanStall`). Only a refresh that lists the node changes what its row offers (`FeedRun`).
  `ResumeRetriesSelection` has the exact condition over every run.
- A `Stop` of the speed-test service that times out frees the lifecycle lock while the worker winds down. A job queued in
  that window is accepted, never tested, and still reported as running after the next `Stop` returned nil
  (`StopCanStrandAJob`). `StopIsCleanIff` has the exact condition, told by what callers did; `LateNeedsTimeoutOrPanic` says
  that only a timed-out `Stop` or a panicking test opens the window.
- The cache key joins host and servers with `|`, and a host may contain that character. After a change of the configured
  servers two different questions can meet in one entry (`KeysCollide`). `KeyNamesQuery` has the exact condition for all
  hosts, `ListsConfused` for which lists it can happen; under one list it cannot (`KeyNamesHost`).
- Section 2 of RFC 1929 asks for a password of at least one byte; the program also takes an empty one, and so does the
  model.
- A reply for a bound address that is neither 4 nor 16 bytes long is truncated; `ReplyIsWellFormed` has the condition.
- A destination given by an IPv4-mapped IPv6 address keeps the network `tcp6` although its host is rendered as IPv4
  (`Conn.ReadRequest`).

## Model

| member | source | states |
|---|---|---|
| ManagerTheorems.SessionConservation | internal/vpn/manager.go:382-581 | in every reachable state each session a driver opened is in exactly one place (one thread's hands, installed, closed), and no session is closed twice |
| ManagerTheorems.CleanShutdown | internal/vpn/manager.go:725-773 | if Close starts beside background tasks only, then when it is about to return no other thread is left, none can start, nothing is installed and every session ever opened is closed exactly once, also one installed between the sweeps |
| ManagerTheorems.Progress | internal/vpn/manager.go:291-299 | deadlock freedom: while any thread is unfinished, other than watchers of the healthy installed session, some thread can step, including while Close waits |
| ManagerTheorems.GenerationPinsSession | internal/vpn/manager.go:557-558 | along any run the generation never falls, and an unchanged generation means an unchanged session |
| ManagerTheorems.WatcherFailsItsOwnSession | internal/vpn/manager.go:569-579 | a watcher that still sees its own generation starts a failover naming the installed session, never a newer one |
| ManagerTheorems.SessionNeverReturns | internal/vpn/manager.go:557-564 | a session that was installed and then removed or replaced is not current in any later state |
| ManagerTheorems.StaleFailoverIsSilent | internal/vpn/manager.go:616-630 | from any state in which the named session is gone, a failover that has not decided yet never writes shared state or table, closes or starts anything, in any continuation |
| ManagerTheorems.FailoverMarksItsSession | internal/vpn/manager.go:631-650 | a failover that names a session and goes ahead marks the node that very session was opened to: the failure columns of that row, and nothing else in the table |
| ManagerTheorems.SingleRoute | internal/vpn/manager.go:88-135 | until Close, generation 0 means no route, and later exactly one of "session installed" and "direct" holds; paused implies direct without a session |
| ManagerTheorems.DirectEndsWithInstall | internal/vpn/manager.go:189-242 | direct routing ends only in the step that installs a session, so resuming leaves no gap |
| ManagerTheorems.SelectionConsistent | internal/vpn/manager.go:542-550 | auto carries no manual choice; manual with a session names that session's node and that session passed its probe; the recorded node is the endpoint the session was opened to |
| ManagerTheorems.SwitchIsTransactional | internal/vpn/manager.go:382-412 | within an activation only the installing step writes the route, and from then on the activation cannot return an error |
| ManagerTheorems.FailedActivationNeverRouted | internal/vpn/manager.go:382-412 | over any stretch of a run, an activation that has not succeeded never wrote session, node, protocol, selection, direct mode or generation |
| ManagerTheorems.NewestRequestWins | internal/vpn/manager.go:270-311 | candidates install in strictly increasing attempt order; with no candidate outstanding nothing is shown as connecting and no cancel function is kept |
| ManagerTheorems.SupersededCandidateIsSilent | internal/vpn/manager.go:583-606 | no step of a superseded candidate writes the shared state: no install, no error, no connecting address |
| ManagerTheorems.SupersededNeverInstalls | internal/vpn/manager.go:534-539 | an attempt superseded by a newer request, a pause or Close does not install in any continuation |
| ManagerSelection.PauseRemembers | internal/vpn/manager.go:192-222 | pausing keeps the manual node and protocol; with a session that node is the active one |
| ManagerSelection.PausedSelectionSurvives | internal/vpn/manager.go:146-158 | over any run without a new request, resume or fallback of Start, refreshes, failovers, health checks and stray activations leave the paused selection and its row alone |
| ManagerSelection.ResumeRetriesSelection | internal/vpn/manager.go:189-242 | pause, any undisturbed stretch, resume, any stretch until the lookup: the same node and protocol are requested if and only if the database answers, the row is still listed, and it still offers the protocol with a driver registered; what the row then says is computed from the refreshes and node switches of the two stretches; if it is gone, one of the second stretch lost it |
| ManagerSelection.FeedRun | internal/vpn/manager.go:552-556 | over any run, whether a row is in the table and what its downloaded columns say is decided exactly by the refreshes that list the node and the refreshes and node switches that lose it; the drivers never change |
| ManagerSelection.RefreshInWindowForgets | internal/vpn/manager.go:229-240 | in every paused manual state any refresh that lands between the resume and the lookup and omits the node makes the program give up the selection |
| ManagerSelection.ResumeCanForget | internal/vpn/manager.go:229-240 | a run from the start of the program that reaches such a state and loses the selection |
| ManagerSelection.RelistingStallsResume | internal/vpn/manager.go:235-238 | in every paused manual state a refresh that lists the node without the chosen protocol makes a later resume end with no request, no fallback and no new thread, unpaused, direct, and shown as connecting |
| ManagerSelection.ResumeCanStall | internal/vpn/manager.go:235-238 | a run from the start of the program that ends so |
| ManagerSelection.ActiveRowStays | internal/vpn/manager.go:552-556 | over any run at whose end the session is still installed, the row of its node stayed in the table |
| ManagerSelection.OneStaleRowInEveryRun | internal/vpn/manager.go:552-556 | in every reachable state at most one row is stale, if at most one was at the start, and the only row any thread can remove is that one, as it installs a session to another node |
| ManagerTheorems.ProbedIffRequired | internal/vpn/manager.go:446-455 | a session reaches its install having passed a health probe if and only if the activation asked for one |
| ManagerTheorems.AutomaticSwitchIsUnprobed | README.md:23 | a concrete run that installs a session which was never probed, against the documented promise |
| ManagerSteps.InstallsIff | internal/vpn/manager.go:534-581 | in every reachable state the installing step makes its session current if and only if connections are not paused and the activation belongs to no request or to the newest one |
| ManagerSteps.InstallDoes | internal/vpn/manager.go:534-564 | then route, node, protocol and selection are those of the activation at a new generation, the old node's row goes if stale, and the replaced session is closed next; otherwise nothing changes and the new session is closed |
| ManagerSteps.NewestRequestSucceeds | internal/vpn/manager.go:291-301 | from any state in which the newest request has its turn with nothing in its way, a start and a probe that succeed lead to its session installed, probed, manual or automatic as asked, with nothing pending |
| ManagerSteps.ManualRequestIsConnected | internal/vpn/manager.go:181-187 | a run from the start of the program in which a user's request ends with its node connected and watched |
| ManagerSteps.DyingSessionIsReplaced | internal/vpn/manager.go:569-658 | from any settled state a dying session can be carried through its failover: out, closed, direct, and replaced by the first node of the ranking |
| ManagerSteps.StartDecides | internal/vpn/manager.go:70-86 | a saved manual node in the table is connected to with a probe and its saved protocol; everything else ends at an automatic switch |
| ManagerSteps.PauseDoes | internal/vpn/manager.go:191-222 | unless paused already, one step goes direct, takes the session out to be closed, cancels and outdates what is pending, and keeps the selection |
| ManagerSteps.RequestDoes | internal/vpn/manager.go:274-290 | a request becomes the newest attempt, cancels everything pending, ends a pause, and asks for a health check |
| ManagerSteps.CandidateActs | internal/vpn/manager.go:291-304 | a candidate activates only if still the newest when it has autoMu, and only the newest clears the display and reports its error |
| ManagerSteps.ActivationPrepares | internal/vpn/manager.go:382-403 | an activation opens its session to its node, probes it exactly when asked, discards one that fails, and goes on to install only with a live context |
| ManagerSteps.ActivationReturns | internal/vpn/manager.go:357-369 | an automatic switch stops at a success or a cancellation, and otherwise marks exactly that node and tries the next |
| ManagerSteps.AutomaticTries | internal/vpn/manager.go:348-380 | ranked nodes are activated in order, for no request and without a probe; an error is shown when all failed |
| ManagerSteps.WatcherActs | internal/vpn/manager.go:569-579 | the end of a session starts its failover if and only if the program runs on and the generation holds |
| ManagerSteps.FailoverActs | internal/vpn/manager.go:616-647 | a failover goes ahead if and only if not paused and the named session, if any, is current; what it then clears, shows, takes out and closes |
| ManagerSteps.RefreshIsFollowed | internal/vpn/manager.go:660-694 | what follows a refresh, by pause, session, configuration, selection and table |
| ManagerSteps.CloseActs | internal/vpn/manager.go:725-759 | the two sweeps of Close, what they take out, cancel and outdate, and what is closed after each |
| ManagerInvariant.RunsKeepInv | internal/vpn/manager.go:70-788 | along every run each step of every thread keeps the invariants of ownership, locks, generations, requests and shutdown together |
| ManagerOwnership.CommitConserves | internal/vpn/manager.go:395-407 | a step that moves sessions in one of five local ways keeps the global rule of one place per session |
| ManagerObject.Manager.PauseConnections | internal/vpn/manager.go:191-222 | the new state is Pause of the old one, the session it had is closed after it was removed, both pending operations are cancelled; a second pause changes nothing |
| ManagerObject.Manager.BeginAttempt | internal/vpn/manager.go:274-290 | the new state is BeginCandidate of the old one and every earlier pending operation is cancelled |
| ManagerObject.Manager.FinishConnectAttempt | internal/vpn/manager.go:589-606 | only the current attempt may report; an error leaves the session and says whether it still stands |
| ManagerObject.Manager.InstallSession | internal/vpn/manager.go:534-564 | installs exactly when not paused and not superseded, then closes exactly the replaced session |
| ManagerObject.Manager.FailSession | internal/vpn/manager.go:616-647 | acts exactly for the current or an unnamed session while not paused, and closes the session only with direct fallback |
| ManagerObject.Manager.ConnectNode | internal/vpn/manager.go:414-468 | for an IPv4 endpoint it tries the priority list or the valid forced protocol, otherwise nothing; returns a session exactly when some protocol is chosen; all earlier opened sessions are closed, in order |
| ManagerObject.Manager.Activate | internal/vpn/manager.go:382-412 | succeeds exactly when a protocol is chosen, the context lives and the attempt may install; an error leaves the route and closes everything opened; success closes the earlier sessions and the replaced one |
| ManagerObject.Manager.SweepAndClose | internal/vpn/manager.go:730-748 | the first sweep of Close removes and closes the installed session, cancels both pending operations and supersedes every candidate |
| ManagerObject.ChosenIsFirst | internal/vpn/manager.go:414-456 | for an IPv4 endpoint the protocol used is exactly the first of the priority list, or the forced one, that the node offers, has a driver, starts and, where required, passes its probe, with a live context up to it |
| DnsCache.CacheRefinesResolver | internal/vpn/dns_cache.go:72-142 | in every run every answer is the outcome of a completed lookup of the same key, from the cache only if it was a success read strictly before filing time plus TTL, otherwise given to a caller that asked before that lookup finished |
| DnsCache.TablesStayBounded | internal/vpn/dns_cache.go:84-102 | in every run at most 64 lookups and 256 entries, pending and cached keys disjoint, pending entries and running lookups one to one, and only successes with positive TTL cached |
| DnsCache.FinishedForGood | internal/vpn/dns_cache.go:138-141 | a lookup finishes once: its outcome never changes and it never runs again |
| DnsCache.StoreIsMinimal | internal/vpn/dns_cache.go:119-137 | storing keeps the capacity and drops only expired entries and, if still full, one entry that expires first |
| DnsCacheSteps.ResolveDecides | internal/vpn/dns_cache.go:84-103 | in every reachable open state a caller is answered from the cache exactly if its entry had not expired; otherwise it joins the lookup of its key, or starts one while fewer than 64 run, or is refused |
| DnsCacheSteps.FinishFiles | internal/vpn/dns_cache.go:114-142 | a lookup's outcome goes to those who wait and, exactly if it is a success with a positive TTL, to the cache for that TTL |
| DnsCacheSteps.DeliverHandsOver | internal/vpn/dns_cache.go:109-110 | a waiting caller leaves with exactly the outcome of the lookup it waited for |
| DnsCacheSteps.QueriesAreAnswered | internal/vpn/dns_cache.go:72-142 | a run in which one lookup answers two callers and the cache a third |
| DnsSession.CloneIPs | internal/vpn/dns_cache.go:144-150 | equal addresses in newly allocated arrays only |
| DnsSession.Session.Lookup | internal/vpn/dns_cache.go:84-90 | hits exactly the unexpired entries, and hands out arrays that are neither in the cache nor shared with anyone |
| DnsSession.Session.File | internal/vpn/dns_cache.go:119-137 | the cache becomes Store of the old one, without the expired entries and, if still full, the earliest, with a private copy of the answer that expires after its TTL |
| DnsSession.Session.Complete | internal/vpn/dns_cache.go:118-141 | the shared answer is published, and none of its arrays belongs to the cache; nothing is cached for an error or TTL 0 |
| DnsSession.Pending.Deliver | internal/vpn/dns_cache.go:109-110 | every waiting caller gets the shared answer in arrays of its own |
| DnsResolver.ReadResponse | internal/vpn/dns.go:110-121 | the addresses are the A records in order and the TTL is the least over all A and CNAME records (section 3.2.1 of RFC 1035) |
| DnsResolver.LookupIPv4 | internal/vpn/dns.go:27-48 | the answer of the first server in order that gives an address while the context lives; an error only if there is none |
| DnsResolver.NamesAgree | internal/vpn/dns_cache.go:76 | two host names are the same question exactly when they agree up to ASCII case and one trailing dot |
| DnsResolver.ARecordsAppend | internal/vpn/dns.go:123-130 | an A record gives its own address, other records none, and a list the addresses of its parts in order |
| DnsResolver.KeyNamesHost | internal/vpn/dns_cache.go:76-77 | for one server list two queries share a key exactly when they ask for the same normalised name |
| DnsResolver.KeysCollide | internal/vpn/dns_cache.go:77 | two different questions under two configured server lists that share a key |
| DnsResolver.KeyNamesQuery | internal/vpn/dns_cache.go:76-77 | for every two hosts and configured lists: the keys agree exactly when the shorter list ends the longer and the host asked of it reads as the other host followed by the missing servers |
| DnsResolver.ListsConfused | internal/config/config.go:160-178 | two different configured lists can be confused at all exactly when one is a proper suffix of the other and the servers it lacks are written in lower case |
| SpeedTest.RunKeepsInv | internal/service/speedtest/start.go:12-110 | along every run the steps of callers, Stop and worker keep ids, tokens, order and life cycle |
| SpeedTestTheorems.OneTokenPerRunningRecord | internal/service/speedtest/jobs.go:22-36 | a record is running only while exactly one job with its id exists, for its own node, in the channel, in the worker's hand or lost with an abandoned channel, the last only after a job came late |
| SpeedTestTheorems.TestsFollowRequests | internal/service/speedtest/start.go:41-60 | tests begin in request order, none twice, and all that waits comes later, with ids never above the counter |
| SpeedTestTheorems.StopLeavesNothingRunning | internal/service/speedtest/stop.go:16-19 | when Stop has joined the worker every record is final unless a job was queued behind the worker's last look |
| SpeedTestTheorems.LateNeedsTimeoutOrPanic | internal/service/speedtest/stop.go:20-22 | without a timed-out Stop and without a panicking test that never happens, so Stop leaves no running record |
| SpeedTestTheorems.StopIsCleanIff | internal/service/speedtest/stop.go:16-19 | for every run: Stop leaves no running record if and only if every job accepted after its worker's last look was cancelled, or failed by a recovered panic, before the join |
| SpeedTestTheorems.StopCanStrandAJob | internal/service/speedtest/stop.go:20-22 | a concrete run after which a record is running although Stop returned nil |
| SpeedTestTheorems.StopWaitsOnlyForTheWorker | internal/service/speedtest/start.go:41-50 | while Stop waits the worker can always move, and each of its moves brings close(done) nearer |
| SpeedTestTheorems.FinalResultsStay | internal/service/speedtest/start.go:72-79 | over any run a final result is replaced or removed only by a later QueueManual for that node |
| SpeedTestTheorems.RecordsNeverGoBack | internal/service/speedtest/start.go:72-79 | over any run a record stays, is settled under its own id, or is replaced by one with a larger id; an old job never overwrites a newer one |
| SpeedTestTheorems.RecordsShowTheirResult | internal/service/speedtest/start.go:63-98 | over any run a record shows exactly the result of the one step that settled its job: the outcome of its test, a cancellation, the drain of a stopped worker, or a recovered panic |
| SpeedTestTheorems.StepSettles | internal/service/speedtest/start.go:72-79 | those steps, each for its own job, settle a running record to their result, and no other step touches it |
| SpeedTestTheorems.RequestsAreTested | internal/service/speedtest/start.go:41-80 | a run in which a request is accepted, tested and reported with the measured speed |
| SpeedTestService.Service.Start | internal/service/speedtest/start.go:12-52 | starts exactly when there is no live worker, with an empty channel and the records untouched |
| SpeedTestService.Service.BeginStop | internal/service/speedtest/stop.go:8-15 | cancels the worker and waits exactly when there is a channel |
| SpeedTestService.Service.EndStop | internal/service/speedtest/stop.go:16-22 | after a join the channel is gone and every record final unless a job came late; after a timeout only the lock is freed |
| SpeedTestService.Service.Admit | internal/service/speedtest/jobs.go:11-20 | the first half of QueueManual goes on exactly when there is a channel whose worker has not closed done |
| SpeedTestService.Service.Enqueue | internal/service/speedtest/jobs.go:22-41 | the protocol's step, with the answer for each case; a full channel drops the node's record |
| SpeedTestService.Service.CancelManual | internal/service/speedtest/jobs.go:51-71 | a running record is canceled under its id and every other stays; reports the final result of a known node |
| SpeedTestService.Service.Wanted | internal/service/speedtest/start.go:54-61 | a job is tested exactly when its record still waits for that very job |
| SpeedTestService.Service.Conclude | internal/service/speedtest/start.go:72-79 | the outcome is recorded, unchanged, exactly if the record still waits for that very job |
| SpeedTestService.Service.FailRunning | internal/service/speedtest/start.go:100-110 | fails every running record and leaves every final one |
| SpeedTestService.Service.DropNext | internal/service/speedtest/start.go:82-98 | one turn of the draining loop is the protocol's two steps: the first job leaves the channel and is failed only if its record still waits for it |
| SpeedTestService.DrainFailsWhatWaits | internal/service/speedtest/start.go:82-98 | draining fails exactly the records whose own job was in the channel and leaves nothing there wanted |
| Relay.RelayTCP | internal/socks5/relay.go:26-89 | the lazily armed loop ends at the same instant, for the same reason and after the same events as one whose timers are reset on every byte; each firing that arms a timer again had seen progress since that timer was last armed; exactly one report of each copier is received on every exit |
| Relay.NothingHandledAfterTheEnd | internal/socks5/relay.go:56-87 | a relay ends no earlier than anything it handled, and a timeout no later than anything it did not |
| Relay.FiresOnTime | internal/socks5/relay.go:74-85 | a timer that fires with nothing remaining fires exactly at last progress plus the effective limit, the smaller of both after a half-close |
| Relay.EagerEndIsUnique | internal/socks5/relay.go:52-88 | the eager account determines how and when a relay ends |
| Relay.CutOnlyWithoutProgress | internal/socks5/relay.go:66-68 | a relay is cut by a timeout if and only if some stretch without progress exceeded the limit in force |
| Relay.RelaysEndAsPromised | internal/socks5/relay.go:52-88 | every handled event came within the idle timeout after the last progress before it, or the smaller half-close timeout once a direction had ended; a timeout comes at exactly that instant; an error, a cancelled context and the second end are told apart and end the relay at their own |
| Relay.Join | internal/socks5/relay.go:31-39 | makes exactly one receive for each copier that has not reported: it waits for no report that does not come and leaves none behind |
| NodeStore.Store.ReplaceNodes | internal/store/store.go:78-116 | succeeds exactly when the list has no duplicate address and nothing failed, leaving Replaced of the old table; otherwise the table is untouched |
| NodeStore.Store.DeleteNodeIfStale | internal/store/store.go:118-121 | removes the row exactly when it did not come from the last refresh |
| NodeStore.Store.MarkFailure | internal/store/store.go:165-168 | changes the failure columns of one row, or nothing |
| NodeStore.Store.SaveMeasurement | internal/store/store.go:170-173 | the three measurement columns of that row take the result; every other column and row stays |
| NodeStore.Store.SaveMeasurementFailure | internal/store/store.go:175-178 | that row shows a failed test without a speed; every other column and row stays |
| NodeStore.RefreshSemantics | internal/store/store.go:87-115 | the new table is the list plus the preserved row if the list lacks it; measurements and failures carry over per address; the only row that can be stale is the preserved one, exactly if its time differs |
| NodeStore.AtMostOneStale | internal/store/store.go:118-121 | over any run only the row preserved by the last refresh can be stale |
| NodeStore.SwitchDropsOnlyTheStaleRow | internal/vpn/manager.go:552-556 | after any run from an empty table a node switch removes a row exactly if it is stale, and then it is the preserved one |
| NodeStore.HistorySurvivesRefreshes | internal/store/store.go:87-107 | measurements and failures of a node survive any number of refreshes that list or preserve it |
| NodeStore.RowsShowTheLastResults | internal/store/store.go:87-178 | over any run that never loses the row, a node shows the last speed test and the last failure recorded for it, whatever else came in between |
| NodeRefresh.ParseCSV | internal/vpngate/client.go:90-122 | the result has exactly one node per address seen, the first of the best scored; an error exactly when no record yields a node |
| NodeRefresh.Filter | internal/vpngate/client.go:59-69 | keeps exactly the accepted nodes and their distinct addresses; fails exactly when the filter fails on some node |
| NodeRefresh.Refresher.Refresh | internal/vpngate/refresher.go:72-99 | refuses while another refresh runs; a list that reaches the store always fits its primary key; success replaces the table and triggers the follow-up once; failure changes nothing but the recorded error |
| Socks5Wire.GreetingRoundTrip | internal/socks5/server.go:449-460 | every well-formed greeting before any tail is recovered and exactly the tail is left (section 3 of RFC 1928) |
| Socks5Wire.GreetingExact | internal/socks5/server.go:449-460 | nothing but a well-formed greeting is accepted |
| Socks5Wire.LoginRoundTrip | internal/socks5/server.go:484-503 | the same for user name and password (section 2 of RFC 1929) |
| Socks5Wire.LoginExact | internal/socks5/server.go:484-503 | nothing but well-formed credentials are accepted |
| Socks5Wire.RequestRoundTrip | internal/socks5/server.go:515-559 | every well-formed request before any tail is recovered and exactly the tail is left (sections 4 and 5 of RFC 1928) |
| Socks5Wire.RequestExact | internal/socks5/server.go:515-559 | nothing but a well-formed request is accepted |
| Socks5Wire.ReplyIsWellFormed | internal/socks5/server.go:561-579 | a reply is complete exactly when there is no bound address or it is 4 or 16 bytes long, and then reads back as its status, the canonical address and the 16-bit port (section 6 of RFC 1928) |
| Socks5Wire.ParseAcceptsOnlyEncodings | internal/socks5/server.go:386-427 | a datagram is accepted exactly if it is the encoding of an address with a non-empty host, a port and a payload, unfragmented, and it reads as that address in canonical form, that port and that payload (section 7 of RFC 1928) |
| Socks5Wire.UdpRoundTrip | internal/socks5/server.go:429-447 | a response is made exactly for addresses of 4 or 16 bytes and reads back as canonical address, port modulo 65536 and the same payload |
| Socks5Wire.MessagesAreLaidOut | internal/socks5/server.go:386-579 | the encoders are the layouts of RFC 1928 sections 3, 4 and 7 and RFC 1929 section 2, byte by byte |
| Socks5Wire.MappedAddresses | internal/socks5/server.go:401-406 | an IPv6 address reads as IPv4 exactly if it is ten zero bytes, two bytes 255 and that address |
| Socks5Server.RequestOnlyAfterIntroduction | internal/socks5/server.go:449-513 | a request is read if and only if the required method was offered and, with a username configured, exactly those credentials were sent; it begins exactly after them |
| Socks5Server.ConnectsExactlyAsAsked | internal/socks5/server.go:114-128 | a destination is dialled if and only if the choice of method could be written and an introduced client asked for it in a well-formed command 1 |
| Socks5Server.AssociatesExactlyAsAsked | internal/socks5/server.go:125-129 | a UDP relay is opened if and only if the same holds with command 3 |
| Socks5Server.OtherCommandsAreTurnedDown | internal/socks5/server.go:130-133 | a request is turned down for its command if and only if it is well formed and its command is neither 1 nor 3 |
| Socks5Server.RejectsAndRefusals | internal/socks5/server.go:117-124 | a request is rejected if and only if an introduced client sends no well-formed one; none is read if and only if the client did not introduce itself or could not be told the method |
| Socks5Server.NegotiationSays | internal/socks5/server.go:461-512 | the bytes of the negotiation: the method or 255, then status 0 exactly for the configured strings and 1 otherwise |
| Socks5Server.NegotiationWaits | internal/socks5/server.go:449-503 | nothing is sent before a complete greeting, and only the method before a complete login |
| Socks5Server.Conn.Negotiate | internal/socks5/server.go:449-482 | succeeds exactly when the client introduced itself and the choice of method could be written, leaves the stream at the request, and sends the replies of the negotiation as far as writing succeeds |
| Socks5Server.Conn.Authenticate | internal/socks5/server.go:484-513 | succeeds exactly for the configured strings, whether or not the status can be written, and answers a complete message only |
| Socks5Server.Conn.ReadRequest | internal/socks5/server.go:515-559 | decodes one request, leaves exactly the rest of the stream, renders the address canonically |
| Socks5Server.Conn.WriteReply | internal/socks5/server.go:561-579 | writes exactly one reply |
| Socks5Server.Conn.Handle | internal/socks5/server.go:114-134 | the outcome and every message written are determined by the stream, the configured credentials and the point at which writing fails; a bad request is answered with status 8 and an unsupported command with 7 |

## Left out

- Attempt, generation and job counters: `uint64` in the source, unbounded here; wrap-around is not modelled.
- Four locks are modelled (`failoverMu`, `autoMu`, `switchMu` as locks, `mu` as atomic steps); `asyncMu`, held only for one flag and one counter, is part of the step that uses it, and a release is part of the step before it.
- Metadata rows of the selection: their writes are taken to succeed and only their restoration at the start is modelled.
- `PreservedIP` and `ReplaceNodes` are one step in `ManagerThreads`; in the source the address is sampled before the transaction begins.
- Contexts: any context may be cancelled at any time, which covers deadlines; the derivation of contexts from one another is not modelled, apart from the application's own.
- `lastHealth`, log messages, the exact text of joined errors, and `Status` as a view: no property hangs on them.
- `DeleteNodeIfStale` within an install always succeeds here; in the source it fails once the application's context is cancelled, its error is only logged and the stale row stays. `FeedRun`, `OneStaleRowInEveryRun` and `ResumeRetriesSelection` are stated for the working database.
- The ranking of nodes by the database: the list an automatic switch works through is an arbitrary answer of the outside.
- VPN drivers, health probes, downloads, DNS packing and sockets: oracles that answer success or failure.
- Relay.RelayTCP: a write and its timestamp are one step, and a timer is served at the instant it is due; scheduling delay between the two is not modelled. That each copier sends one report once the sockets are closed is taken from the operating system.
- DnsResolver.KeyOf: lower-casing covers ASCII letters; Unicode case folding is not modelled.
- `uint32` TTLs times one second stay within a duration, so `ReadResponse` returns the number of seconds.
- SpeedTestService.Service.FailPending: stated without other callers between the turns of its loop; `DropNext` and the transition system cover the interleaved form.
- SpeedTestService.Service.QueueManual: stated without other threads between its two halves; `Admit` and `Enqueue` cover the interleaved form.
- ManagerObject.Manager.Activate: stated for a run without interference; the interleaved form is the transition system.
- Socks5Server.Conn.Handle: a write succeeds or fails as a whole and none succeeds after one has failed; the connection is one byte sequence without deadlines.
- SOCKS5 hosts stay byte sequences tagged with their kind; the textual form of an address, where a domain name may read like an IPv4 address, is not modelled.
- The header search, quoting, row read errors and field conversion of the CSV reader, port and protocol detection, and the JavaScript filter: a parsed record and a verdict per node stand for them.
- SQLite, its schema migration, JSON columns and time formatting: the table is a map and times are integers.
- The socket loop of UDP ASSOCIATE, the web server, sessions and cookies, configuration, the user interface, build information and packaging: plumbing around what is modelled.
