/**
 The TCP relay of internal/socks5/relay.go: two copiers, one select loop, and two timers that are re-armed only when
 they fire. Time is counted from the start of the relay.
 */
module Relay {
  import opened Basics

  datatype Direction = Upstream | Downstream

  /** `Wrote` is a Write of either copier together with its timestamp; the rest is what the select loop receives. */
  datatype Happening =
    | Wrote(n: nat)
    | Ended(dir: Direction)
    | Broke(dir: Direction)
    | ContextDone

  /** `afterTimers` says which is served first when the event meets a timer due at the same instant. */
  datatype Event = Event(at: Time, what: Happening, afterTimers: bool)

  datatype Timer = Idle | HalfClose

  datatype Ending =
    | Finished(at: Time)
    | Canceled(at: Time)
    | Error(at: Time)
    | TimedOut(at: Time, timer: Timer)

  predicate Reports(e: Event) { e.what.Ended? || e.what.Broke? }

  /** Events come in order of time, and each copier reports once. */
  ghost predicate Schedule(events: seq<Event>) {
    && (forall i :: 0 <= i < |events| ==> 0 <= events[i].at)
    && (forall i, j :: 0 <= i < j < |events| ==> events[i].at <= events[j].at)
    && (forall i, j :: 0 <= i < j < |events| && Reports(events[i]) && Reports(events[j]) ==>
         events[i].what.dir != events[j].what.dir)
  }

  // ----- what the relay is for -----

  /** A write of at least one byte, or the end of one direction. */
  predicate IsProgress(e: Event) { e.what.Ended? || (e.what.Wrote? && e.what.n > 0) }

  /** The instant of the last progress, or the start. */
  function LastProgress(events: seq<Event>): Time {
    if events == [] then 0
    else if IsProgress(events[|events| - 1]) then events[|events| - 1].at
    else LastProgress(events[..|events| - 1])
  }

  function Progresses(events: seq<Event>): nat {
    if events == [] then 0
    else Progresses(events[..|events| - 1]) + (if IsProgress(events[|events| - 1]) then 1 else 0)
  }

  /** Progress made after the first direction ended. */
  function LateProgresses(events: seq<Event>): nat {
    if events == [] then 0
    else
      var front := events[..|events| - 1];
      LateProgresses(front) + (if IsProgress(events[|events| - 1]) && Ends(front) > 0 then 1 else 0)
  }

  function Ends(events: seq<Event>): nat {
    if events == [] then 0
    else Ends(events[..|events| - 1]) + (if events[|events| - 1].what.Ended? then 1 else 0)
  }

  /** How long the relay may go without progress. */
  function Limit(events: seq<Event>, idle: nat, half: nat): nat {
    if Ends(events) == 0 || idle < half then idle else half
  }

  /** The instant at which a timer reset on every byte would fire if nothing more happened. */
  function Due(events: seq<Event>, idle: nat, half: nat): Time {
    LastProgress(events) + Limit(events, idle, half)
  }

  predicate InTime(events: seq<Event>, k: nat, idle: nat, half: nat)
    requires k < |events|
  {
    var due := Due(events[..k], idle, half);
    events[k].at < due || (events[k].at == due && !events[k].afterTimers)
  }

  /** The event itself ends the relay. */
  predicate Final(events: seq<Event>, k: nat)
    requires k < |events|
  {
    events[k].what.ContextDone? || events[k].what.Broke? || (events[k].what.Ended? && Ends(events[..k]) > 0)
  }

  /** The relay is still there after its first k events. */
  ghost predicate Survives(events: seq<Event>, k: nat, idle: nat, half: nat)
    requires k <= |events|
  {
    forall i :: 0 <= i < k ==> InTime(events, i, idle, half) && !Final(events, i)
  }

  function EndOf(e: Event): Ending {
    if e.what.ContextDone? then Canceled(e.at) else if e.what.Broke? then Error(e.at) else Finished(e.at)
  }

  /** The timer that is blamed; when both are due together the select may take either. */
  function Blamed(events: seq<Event>, idle: nat, half: nat, halfFirst: bool): Timer {
    if Ends(events) > 0 && (half < idle || (half == idle && halfFirst)) then HalfClose else Idle
  }

  /** With timers reset on every byte, the relay handles k events and then ends like this. */
  ghost predicate EagerEnd(events: seq<Event>, k: nat, idle: nat, half: nat, halfFirst: bool, end: Ending) {
    && k <= |events| && Survives(events, k, idle, half)
    && if k < |events| && InTime(events, k, idle, half)
       then Final(events, k) && end == EndOf(events[k])
       else end == TimedOut(Due(events[..k], idle, half), Blamed(events[..k], idle, half, halfFirst))
  }

  /** Nothing survives the event at which the relay ends. */
  lemma StopsHere(events: seq<Event>, k: nat, idle: nat, half: nat, halfFirst: bool, end: Ending)
    requires EagerEnd(events, k, idle, half, halfFirst, end)
    ensures forall n :: k < n <= |events| ==> !Survives(events, n, idle, half)
  {
    forall n | k < n <= |events| ensures !Survives(events, n, idle, half) {
      assert !(InTime(events, k, idle, half) && !Final(events, k));
    }
  }

  /** There is only one way the relay can end. */
  lemma EagerEndIsUnique(
    events: seq<Event>, k: nat, k': nat, idle: nat, half: nat, halfFirst: bool, end: Ending, end': Ending)
    requires EagerEnd(events, k, idle, half, halfFirst, end)
    requires EagerEnd(events, k', idle, half, halfFirst, end')
    ensures k == k' && end == end'
  {
    StopsHere(events, k, idle, half, halfFirst, end);
    StopsHere(events, k', idle, half, halfFirst, end');
  }

  /** An active relay is never cut: it times out if and only if some gap without progress exceeded the limit. */
  lemma CutOnlyWithoutProgress(events: seq<Event>, k: nat, idle: nat, half: nat, halfFirst: bool, end: Ending)
    requires EagerEnd(events, k, idle, half, halfFirst, end)
    ensures !end.TimedOut? <==> exists j :: 0 <= j < |events| && Final(events, j)
                                  && forall i :: 0 <= i <= j ==> InTime(events, i, idle, half)
  {
    if !end.TimedOut? {
      assert Final(events, k);
    } else {
      StopsHere(events, k, idle, half, halfFirst, end);
      forall j | 0 <= j < |events| && Final(events, j)
        ensures exists i :: 0 <= i <= j && !InTime(events, i, idle, half)
      {
        assert j >= k;
        assert !InTime(events, k, idle, half);
      }
    }
  }

  /** Whatever has happened lies in the past of the instant at which the relay times out. */
  lemma {:induction false} DueIsAhead(events: seq<Event>, k: nat, idle: nat, half: nat)
    requires Schedule(events) && k <= |events| && Survives(events, k, idle, half)
    ensures forall i :: 0 <= i < k ==> events[i].at <= Due(events[..k], idle, half)
    ensures 0 <= LastProgress(events[..k])
    decreases k
  {
    if k > 0 {
      DueIsAhead(events, k - 1, idle, half);
      PrefixStep(events, k - 1);
      LastProgressIsPast(events, k);
      assert InTime(events, k - 1, idle, half);
    }
  }

  /** The relay ends no earlier than anything it handled: a timeout never overtakes an event that came before it. */
  lemma NothingHandledAfterTheEnd(events: seq<Event>, k: nat, idle: nat, half: nat, halfFirst: bool, end: Ending)
    requires Schedule(events) && EagerEnd(events, k, idle, half, halfFirst, end)
    ensures forall i :: 0 <= i < k ==> events[i].at <= end.at
    ensures end.TimedOut? ==> forall i :: k <= i < |events| ==> end.at <= events[i].at
  {
    hide InTime, Survives, Final;
    DueIsAhead(events, k, idle, half);
    if end.TimedOut? && k < |events| {
      TooLate(events, k, idle, half);
    }
  }

  lemma TooLate(events: seq<Event>, k: nat, idle: nat, half: nat)
    requires k < |events| && !InTime(events, k, idle, half)
    ensures Due(events[..k], idle, half) <= events[k].at
  {
  }

  // ----- the same account in terms of the events alone -----

  /** The last progress among the first k events was made at this instant, or there was none since the start at 0. */
  ghost predicate SilentSince(events: seq<Event>, k: nat, since: Time)
    requires k <= |events|
  {
    && (since == 0
        || exists i :: 0 <= i < k && events[i].at == since
                       && (events[i].what.Ended? || (events[i].what.Wrote? && events[i].what.n > 0)))
    && (forall i :: 0 <= i < k && (events[i].what.Ended? || (events[i].what.Wrote? && events[i].what.n > 0)) ==>
         events[i].at <= since)
  }

  ghost predicate HalfClosed(events: seq<Event>, k: nat)
    requires k <= |events|
  {
    exists i :: 0 <= i < k && events[i].what.Ended?
  }

  lemma {:induction false} LastProgressIs(events: seq<Event>, k: nat)
    requires Schedule(events) && k <= |events|
    ensures SilentSince(events, k, LastProgress(events[..k]))
    decreases k
  {
    LastProgressIsPast(events, k);
    if k > 0 {
      PrefixStep(events, k - 1);
      LastProgressIs(events, k - 1);
      LastProgressIsPast(events, k - 1);
      var since := LastProgress(events[..k - 1]);
      if !IsProgress(events[k - 1]) && since != 0 {
        var i :| 0 <= i < k - 1 && events[i].at == since
                 && (events[i].what.Ended? || (events[i].what.Wrote? && events[i].what.n > 0));
        assert events[i].at == LastProgress(events[..k]);
      }
      if IsProgress(events[k - 1]) {
        assert events[k - 1].at == LastProgress(events[..k]);
      }
    }
  }

  lemma {:induction false} EndsCount(events: seq<Event>, k: nat)
    requires k <= |events|
    ensures Ends(events[..k]) > 0 <==> HalfClosed(events, k)
    decreases k
  {
    if k > 0 {
      PrefixStep(events, k - 1);
      EndsCount(events, k - 1);
    }
  }

  /**
   What a relay that ends like this has been through. Every event it handled, and the one that ended it, came no later
   than the idle timeout after the last progress before it, or the half-close timeout where that is smaller and a
   direction had ended. A timeout came at exactly that instant, by the timer that is due first. An error, a cancelled
   context or the end of the second direction ends the relay at its own instant.
   */
  lemma RelaysEndAsPromised(
    events: seq<Event>, k: nat, idle: nat, half: nat, halfFirst: bool, end: Ending, i: nat, since: Time)
    requires Schedule(events) && EagerEnd(events, k, idle, half, halfFirst, end)
    requires i <= k && since == LastProgress(events[..i])
    ensures SilentSince(events, i, since)
    ensures i < k ==> events[i].at <= since + (if HalfClosed(events, i) && half < idle then half else idle)
    ensures i < k ==> !events[i].what.ContextDone? && !events[i].what.Broke?
                      && !(events[i].what.Ended? && HalfClosed(events, i))
    ensures i == k ==> end.at <= since + (if HalfClosed(events, k) && half < idle then half else idle)
    ensures i == k && end.TimedOut? ==>
              && end.at == since + (if HalfClosed(events, k) && half < idle then half else idle)
              && (end.timer.HalfClose? <==> HalfClosed(events, k) && (half < idle || (half == idle && halfFirst)))
    ensures i == k && !end.TimedOut? ==>
              && k < |events| && end.at == events[k].at
              && (end.Error? <==> events[k].what.Broke?)
              && (end.Canceled? <==> events[k].what.ContextDone?)
              && (end.Finished? <==> events[k].what.Ended? && HalfClosed(events, k))
  {
    hide Schedule, SilentSince, LastProgress, Ends, HalfClosed;
    LastProgressIs(events, i);
    EndsCount(events, i);
    if i < k {
      assert InTime(events, i, idle, half) && !Final(events, i);
    }
  }

  lemma PrefixStep(events: seq<Event>, k: nat)
    requires k < |events|
    ensures var e := events[k];
            && LastProgress(events[..k + 1])
                 == (if IsProgress(e) then e.at else LastProgress(events[..k]))
            && Ends(events[..k + 1]) == Ends(events[..k]) + (if e.what.Ended? then 1 else 0)
            && Progresses(events[..k + 1]) == Progresses(events[..k]) + (if IsProgress(e) then 1 else 0)
            && LateProgresses(events[..k + 1])
                 == LateProgresses(events[..k]) + (if IsProgress(e) && Ends(events[..k]) > 0 then 1 else 0)
  {
    assert events[..k + 1][..k] == events[..k];
  }

  lemma {:induction false} LastProgressIsPast(events: seq<Event>, k: nat)
    requires Schedule(events) && k <= |events|
    ensures 0 <= LastProgress(events[..k])
    ensures forall i :: k <= i < |events| ==> LastProgress(events[..k]) <= events[i].at
    decreases k
  {
    if k > 0 {
      PrefixStep(events, k - 1);
      LastProgressIsPast(events, k - 1);
    }
  }

  // ----- the lazily armed loop -----

  /**
   The variables of the select loop. `idleRearms` and `halfRearms` are history: for each firing that armed the timer
   again, how many events had been handled by then.
   */
  datatype Loop = Loop(
    last: Time, completed: nat, idleDue: Time, halfDue: Option<Time>, idleRearms: seq<nat>, halfRearms: seq<nat>)

  /** How much progress there had been when the timer was last armed again; none before the first time. */
  function Made(events: seq<Event>, rearms: seq<nat>): nat
    requires forall i :: 0 <= i < |rearms| ==> rearms[i] <= |events|
  {
    if rearms == [] then 0 else Progresses(events[..rearms[|rearms| - 1]])
  }

  function MadeLate(events: seq<Event>, rearms: seq<nat>): nat
    requires forall i :: 0 <= i < |rearms| ==> rearms[i] <= |events|
  {
    if rearms == [] then 0 else LateProgresses(events[..rearms[|rearms| - 1]])
  }

  /** Every firing that armed the idle timer again had seen progress since the one before it, or since the start. */
  predicate IdleSpaced(events: seq<Event>, rearms: seq<nat>) {
    && (forall i :: 0 <= i < |rearms| ==> rearms[i] <= |events|)
    && (forall i :: 0 <= i < |rearms| ==> Made(events, rearms[..i]) < Progresses(events[..rearms[i]]))
  }

  /** The same for the half-close timer, where only progress after the half-close counts. */
  predicate HalfSpaced(events: seq<Event>, rearms: seq<nat>) {
    && (forall i :: 0 <= i < |rearms| ==> rearms[i] <= |events|)
    && (forall i :: 0 <= i < |rearms| ==> MadeLate(events, rearms[..i]) < LateProgresses(events[..rearms[i]]))
  }

  /** The reports the select loop received among these events, in order. */
  function Reported(events: seq<Event>): seq<Direction> {
    if events == [] then []
    else
      var e := events[|events| - 1];
      Reported(events[..|events| - 1]) + (if Reports(e) then [e.what.dir] else [])
  }

  predicate Once(reports: seq<Direction>) { forall i, j :: 0 <= i < j < |reports| ==> reports[i] != reports[j] }

  /**
   The reports still to come once both sockets are closed: each copier that has not reported sends one, in some order.
   */
  function Outstanding(reports: seq<Direction>, upstreamFirst: bool): seq<Direction> {
    var up, down := if Upstream in reports then [] else [Upstream], if Downstream in reports then [] else [Downstream];
    if upstreamFirst then up + down else down + up
  }

  /**
   A timer may be armed for an instant that is too early, never for one that is too late. When it is too early there has
   been progress since it was last armed.
   */
  predicate Tracks(events: seq<Event>, k: nat, idle: nat, half: nat, v: Loop)
    requires k <= |events|
  {
    && v.last == LastProgress(events[..k])
    && v.completed == Ends(events[..k]) < 2
    && v.idleDue <= v.last + idle
    && IdleSpaced(events, v.idleRearms)
    && |v.idleRearms| <= Made(events, v.idleRearms)
    && Made(events, v.idleRearms) + (if v.idleDue < v.last + idle then 1 else 0) <= Progresses(events[..k])
    && (v.halfDue.Some? <==> v.completed == 1)
    && (v.halfDue.Some? ==> v.halfDue.value <= v.last + half)
    && HalfSpaced(events, v.halfRearms)
    && |v.halfRearms| <= MadeLate(events, v.halfRearms)
    && MadeLate(events, v.halfRearms) + (if v.halfDue.Some? && v.halfDue.value < v.last + half then 1 else 0)
         <= LateProgresses(events[..k])
  }

  predicate HalfNext(v: Loop, halfFirst: bool) {
    v.halfDue.Some? && (v.halfDue.value < v.idleDue || (v.halfDue.value == v.idleDue && halfFirst))
  }

  /** The timers that would fire without ending the relay. */
  function Stale(v: Loop, idle: nat, half: nat): nat {
    (if v.idleDue < v.last + idle then 1 else 0)
    + (if v.halfDue.Some? && v.halfDue.value < v.last + half then 1 else 0)
  }

  /** An event that comes before the armed timers is in time for the eager relay too. */
  lemma ServedInTime(events: seq<Event>, k: nat, idle: nat, half: nat, v: Loop, next: Time)
    requires k < |events| && Tracks(events, k, idle, half, v)
    requires next <= v.idleDue && (v.halfDue.Some? ==> next <= v.halfDue.value)
    requires events[k].at < next || (events[k].at == next && !events[k].afterTimers)
    ensures InTime(events, k, idle, half)
  {
  }

  /** Arming the idle timer again for what remains; only progress since it was last armed can leave a remainder. */
  lemma IdleAgain(events: seq<Event>, k: nat, idle: nat, half: nat, v: Loop)
    requires k <= |events| && Tracks(events, k, idle, half, v) && v.idleDue < v.last + idle
    ensures Tracks(events, k, idle, half, v.(idleDue := v.last + idle, idleRearms := v.idleRearms + [k]))
  {
    hide Progresses, LateProgresses, LastProgress, Ends, HalfSpaced, MadeLate;
    var rearms := v.idleRearms + [k];
    assert rearms[..|v.idleRearms|] == v.idleRearms;
    assert forall i :: 0 <= i < |v.idleRearms| ==> rearms[..i] == v.idleRearms[..i];
  }

  lemma HalfAgain(events: seq<Event>, k: nat, idle: nat, half: nat, v: Loop)
    requires k <= |events| && Tracks(events, k, idle, half, v)
    requires v.halfDue.Some? && v.halfDue.value < v.last + half
    ensures Tracks(events, k, idle, half, v.(halfDue := Some(v.last + half), halfRearms := v.halfRearms + [k]))
  {
    hide Progresses, LateProgresses, LastProgress, Ends, IdleSpaced, Made;
    var rearms := v.halfRearms + [k];
    assert rearms[..|v.halfRearms|] == v.halfRearms;
    assert forall i :: 0 <= i < |v.halfRearms| ==> rearms[..i] == v.halfRearms[..i];
  }

  lemma SurvivesOneMore(events: seq<Event>, k: nat, idle: nat, half: nat)
    requires k < |events| && Survives(events, k, idle, half) && InTime(events, k, idle, half) && !Final(events, k)
    ensures Survives(events, k + 1, idle, half)
  {
  }

  /** A timer that fires and finds nothing remaining fires exactly when the eager timer does. */
  lemma FiresOnTime(events: seq<Event>, k: nat, idle: nat, half: nat, halfFirst: bool, v: Loop)
    requires k <= |events| && Tracks(events, k, idle, half, v) && Survives(events, k, idle, half)
    requires var next := if HalfNext(v, halfFirst) then v.halfDue.value else v.idleDue;
             && (k < |events| ==> events[k].at > next || (events[k].at == next && events[k].afterTimers))
             && (if HalfNext(v, halfFirst) then next >= v.last + half else next >= v.last + idle)
    ensures HalfNext(v, halfFirst) ==>
              EagerEnd(events, k, idle, half, halfFirst, TimedOut(v.halfDue.value, HalfClose))
    ensures !HalfNext(v, halfFirst) ==>
              EagerEnd(events, k, idle, half, halfFirst, TimedOut(v.idleDue, Idle))
  {
    hide Survives;
  }

  lemma ReportedStep(events: seq<Event>, k: nat)
    requires Schedule(events) && k < |events|
    ensures Reported(events[..k + 1])
              == Reported(events[..k]) + (if Reports(events[k]) then [events[k].what.dir] else [])
    ensures Reports(events[k]) ==> events[k].what.dir !in Reported(events[..k])
  {
    assert events[..k + 1][..k] == events[..k];
    if Reports(events[k]) {
      ReportedBefore(events, k, k);
    }
  }

  lemma {:induction false} ReportedBefore(events: seq<Event>, k: nat, m: nat)
    requires Schedule(events) && k <= m < |events| && Reports(events[m])
    ensures events[m].what.dir !in Reported(events[..k])
    decreases k
  {
    if k > 0 {
      assert events[..k][..k - 1] == events[..k - 1];
      ReportedBefore(events, k - 1, m);
    }
  }

  /**
   relayTCP, from its two copiers' start to the return of its deferred join. Nothing is claimed about when a byte moves:
   the schedule is any the copiers and the context can produce.
   */
  method RelayTCP(events: seq<Event>, idle: nat, half: nat, halfFirst: bool, upstreamFirst: bool)
    returns (end: Ending, handled: nat, idleRearms: seq<nat>, halfRearms: seq<nat>, received: seq<Direction>)
    requires Schedule(events)
    ensures EagerEnd(events, handled, idle, half, halfFirst, end)
    ensures !end.TimedOut? ==>
              && handled < |events| && end.at == events[handled].at
              && (end.Error? <==> events[handled].what.Broke?)
              && (end.Canceled? <==> events[handled].what.ContextDone?)
              && (end.Finished? <==>
                   events[handled].what.Ended? && exists i :: 0 <= i < handled && events[i].what.Ended?)
    ensures IdleSpaced(events, idleRearms) && |idleRearms| <= Progresses(events[..handled])
    ensures HalfSpaced(events, halfRearms) && |halfRearms| <= LateProgresses(events[..handled])
    ensures received == [Upstream, Downstream] || received == [Downstream, Upstream]
  {
    hide Survives, InTime, EagerEnd, Final, Schedule, LastProgress, Ends, Progresses, LateProgresses, Reported;
    hide IdleSpaced, HalfSpaced, Made, MadeLate;
    var v := Loop(0, 0, idle, None, [], []);
    handled, received := 0, [];
    Begin(events, idle, half);
    while true
      invariant handled <= |events| && Survives(events, handled, idle, half)
      invariant Tracks(events, handled, idle, half, v)
      invariant received == Reported(events[..handled]) && |received| == v.completed && Once(received)
      decreases |events| - handled, Stale(v, idle, half)
    {
      var halfNext := HalfNext(v, halfFirst);
      var next := if halfNext then v.halfDue.value else v.idleDue;
      if handled < |events|
        && (events[handled].at < next || (events[handled].at == next && !events[handled].afterTimers)) {
        var e := events[handled];
        ServedInTime(events, handled, idle, half, v, next);
        ReportedStep(events, handled);
        if Reports(e) {
          received := received + [e.what.dir];
        }
        if e.what.ContextDone? || e.what.Broke? || (e.what.Ended? && v.completed == 1) {
          end := EndOf(e);
          EndsHere(events, handled, idle, half, halfFirst);
          EndsCount(events, handled);
          break;
        }
        GoesOn(events, handled, idle, half, v);
        if e.what.Ended? {
          v := v.(completed := 1, last := e.at, halfDue := Some(e.at + half));
        } else if e.what.n > 0 {
          v := v.(last := e.at);
        }
        handled := handled + 1;
      } else if halfNext {
        var remaining := half - (next - v.last);
        if remaining <= 0 {
          end := TimedOut(next, HalfClose);
          FiresOnTime(events, handled, idle, half, halfFirst, v);
          break;
        }
        HalfAgain(events, handled, idle, half, v);
        v := v.(halfDue := Some(next + remaining), halfRearms := v.halfRearms + [handled]);
      } else {
        var remaining := idle - (next - v.last);
        if remaining <= 0 {
          end := TimedOut(next, Idle);
          FiresOnTime(events, handled, idle, half, halfFirst, v);
          break;
        }
        IdleAgain(events, handled, idle, half, v);
        v := v.(idleDue := next + remaining, idleRearms := v.idleRearms + [handled]);
      }
    }
    idleRearms, halfRearms := v.idleRearms, v.halfRearms;
    received := Join(received, Outstanding(received, upstreamFirst));
  }

  /**
   The deferred join. It makes exactly one receive for every copier that has not reported, so it never waits for a
   report that does not come and leaves none behind.
   */
  method Join(reports: seq<Direction>, channel: seq<Direction>) returns (received: seq<Direction>)
    requires Once(reports) && exists first :: channel == Outstanding(reports, first)
    ensures received == reports + channel
    ensures received == [Upstream, Downstream] || received == [Downstream, Upstream]
  {
    OutstandingIsRest(reports);
    received := reports;
    var waiting := channel;
    while |received| < 2
      invariant |received| + |waiting| == 2 && received + waiting == reports + channel
      decreases |waiting|
    {
      received, waiting := received + [waiting[0]], waiting[1..];
    }
    assert received == reports + channel;
  }

  lemma OutstandingIsRest(reports: seq<Direction>)
    requires Once(reports)
    ensures forall first :: |reports| + |Outstanding(reports, first)| == 2
    ensures forall first :: var all := reports + Outstanding(reports, first);
                            all == [Upstream, Downstream] || all == [Downstream, Upstream]
  {
    TwoAtMost(reports);
    if |reports| == 1 {
      assert forall d :: d in reports <==> d == reports[0];
      assert Upstream in reports <==> Downstream !in reports;
    } else if |reports| == 2 {
      assert reports == [reports[0], reports[1]];
    }
  }

  lemma TwoAtMost(reports: seq<Direction>)
    ensures |reports| > 2 ==> !Once(reports)
  {
    if |reports| > 2 && reports[0] != reports[1] && reports[1] != reports[2] {
      assert reports[0] == reports[2];
    }
  }

  lemma Begin(events: seq<Event>, idle: nat, half: nat)
    ensures Survives(events, 0, idle, half)
    ensures Tracks(events, 0, idle, half, Loop(0, 0, idle, None, [], []))
    ensures Reported(events[..0]) == []
  {
  }

  lemma EndsHere(events: seq<Event>, k: nat, idle: nat, half: nat, halfFirst: bool)
    requires k < |events| && Survives(events, k, idle, half) && InTime(events, k, idle, half)
    requires var e := events[k]; e.what.ContextDone? || e.what.Broke? || (e.what.Ended? && Ends(events[..k]) == 1)
    ensures EagerEnd(events, k, idle, half, halfFirst, EndOf(events[k]))
  {
  }

  /** An event that does not end the relay moves the last progress and at most makes the armed timers too early. */
  lemma GoesOn(events: seq<Event>, k: nat, idle: nat, half: nat, v: Loop)
    requires Schedule(events) && k < |events| && Tracks(events, k, idle, half, v)
    requires Survives(events, k, idle, half) && InTime(events, k, idle, half)
    requires var e := events[k]; e.what.Wrote? || (e.what.Ended? && v.completed == 0)
    ensures Survives(events, k + 1, idle, half)
    ensures var e := events[k];
            Tracks(events, k + 1, idle, half,
                   if e.what.Ended? then v.(completed := 1, last := e.at, halfDue := Some(e.at + half))
                   else if e.what.n > 0 then v.(last := e.at) else v)
  {
    hide Survives, InTime;
    PrefixStep(events, k);
    LastProgressIsPast(events, k);
    SurvivesOneMore(events, k, idle, half);
  }
}
