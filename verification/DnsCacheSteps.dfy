/** What every step of the cache does, told by the two tables alone, and runs that end in an answer. */
module DnsCacheSteps {
  import opened Basics
  import opened DnsCache

  ghost predicate Reachable(s: State) {
    exists now, ls :: CanTake(Init(now), ls) && s == Take(Init(now), ls)
  }

  lemma ReachableInv(s: State)
    requires Reachable(s)
    ensures Inv(s)
  {
    hide Inv, Next, Enabled;
    var now, ls :| CanTake(Init(now), ls) && s == Take(Init(now), ls);
    InitHolds(now);
    RunKeeps(Init(now), ls);
  }

  lemma InitHolds(now: Time)
    ensures Inv(Init(now))
  {
  }

  /** The cache holds an answer that the caller may still use. */
  predicate Fresh(s: State, key: Key, at: Time) { key in s.tb.cache && at < s.tb.cache[key].expires }

  /**
   The decision of resolveIPv4 in every reachable state of an open session. A caller is answered from the cache at
   once if and only if its key has an entry that had not expired when the caller read the clock; the entry stays.
   Otherwise it waits for the lookup of its key that is under way; or else, with fewer than 64 under way, a new lookup
   of its key starts and it waits for that; or else it is refused.
   */
  lemma ResolveDecides(s: State, c: nat)
    requires Reachable(s) && !s.closed && c in s.callers && s.callers[c].Sampled?
    ensures var s', key, at := Next(s, Enter(c)), s.callers[c].key, s.callers[c].at;
            && s'.now == s.now && s'.tb.finished == s.tb.finished && s'.callers - {c} == s.callers - {c}
            && (if Fresh(s, key, at) then
                  && s'.tb == s.tb && c !in s'.callers
                  && var e := s.tb.cache[key].addresses;
                     s'.replies == s.replies + [Reply(key, at, Addresses(e.addresses), e.source, true)]
                else s'.tb.cache == s.tb.cache - {key} && s'.replies == s.replies)
            && (!Fresh(s, key, at) && key in s.tb.pending ==>
                 && c in s'.callers && s'.callers[c] == Waiting(key, at, s.tb.pending[key])
                 && s'.tb.pending == s.tb.pending && s'.tb.running == s.tb.running)
            && (!Fresh(s, key, at) && key !in s.tb.pending && |s.tb.pending| < 64 ==>
                 && c in s'.callers && s'.callers[c].Waiting?
                 && var id := s'.callers[c].id;
                    && s'.callers[c] == Waiting(key, at, id)
                    && id !in s.tb.running && id !in s.tb.finished
                    && s'.tb.running == s.tb.running[id := key] && s'.tb.pending == s.tb.pending[key := id])
            && (!Fresh(s, key, at) && key !in s.tb.pending && |s.tb.pending| == 64 ==>
                 c !in s'.callers && s'.tb.pending == s.tb.pending && s'.tb.running == s.tb.running)
            && |s.tb.pending| <= 64
  {
    hide Inv, TablesOk;
    ReachableInv(s);
    OpenTables(s);
  }

  lemma OpenTables(s: State)
    requires Inv(s)
    ensures |s.tb.pending| <= 64 && s.tb.nextId !in s.tb.running && s.tb.nextId !in s.tb.finished
  {
    hide CallersSound, RepliesSound;
    FreshId(s.tb);
  }

  /** A caller that comes after the session was closed gets nothing and starts nothing. */
  lemma ClosedSessionsResolveNothing(s: State, c: nat)
    requires s.closed && c in s.callers && s.callers[c].Sampled?
    ensures Next(s, Enter(c)) == s.(callers := s.callers - {c})
  {
  }

  /**
   The end of a lookup: its outcome is kept for those who wait, its key is no longer pending, and the outcome is
   cached from then on for exactly its TTL if it is a success with a positive TTL. An error or a TTL of 0 leaves the
   cache alone.
   */
  lemma FinishFiles(s: State, id: Id, outcome: Outcome, d: Time, victim: Key)
    requires Enabled(s, Finish(id, outcome, d, victim))
    ensures var s', key := Next(s, Finish(id, outcome, d, victim)), s.tb.running[id];
            && s'.tb.finished == s.tb.finished[id := Finished(key, outcome, s.now + d)]
            && s'.tb.running == s.tb.running - {id} && s'.tb.pending == s.tb.pending - {key}
            && s'.callers == s.callers && s'.replies == s.replies && s'.closed == s.closed
            && (if outcome.Resolved? && outcome.ttl > 0 then
                  && key in s'.tb.cache
                  && s'.tb.cache[key] == Entry(Traced(outcome.addresses, id), s.now + d + outcome.ttl)
                else s'.tb.cache == s.tb.cache)
  {
    hide Purge, Full, MayEvict;
  }

  /** A waiting caller leaves with exactly the outcome of the lookup it waited for. */
  lemma DeliverHandsOver(s: State, c: nat)
    requires Enabled(s, Deliver(c))
    ensures var s', w := Next(s, Deliver(c)), s.callers[c];
            var outcome := s.tb.finished[w.id].outcome;
            && s'.tb == s.tb && s'.callers == s.callers - {c} && |s'.replies| == |s.replies| + 1
            && s'.replies[..|s.replies|] == s.replies
            && var r := s'.replies[|s.replies|];
               && r.key == w.key && r.at == w.at && r.source == w.id && !r.cached
               && (outcome.Resolved? ==> r.answer == Addresses(outcome.addresses))
               && (outcome.Refused? ==> r.answer == Error(outcome.err))
  {
  }

  // ----- a query and its repetition -----

  /** Both callers wait for the one lookup. */
  function Asked(now: Time, key: Key): State {
    State(now, false, Tables(map[], map[key := 0], map[0 := key], map[], 1),
          map[0 := Waiting(key, now, 0), 1 := Waiting(key, now, 0)], 2, [])
  }

  function AskedOnce(now: Time, key: Key): State {
    State(now, false, Tables(map[], map[key := 0], map[0 := key], map[], 1), map[0 := Waiting(key, now, 0)], 1, [])
  }

  lemma FirstCaller(now: Time, key: Key)
    ensures var s := Init(now).(callers := map[0 := Sampled(key, now)], nextCaller := 1);
            && Next(Init(now), Call(key)) == s && Enabled(s, Enter(0)) && Next(s, Enter(0)) == AskedOnce(now, key)
  {
    var s := Init(now).(callers := map[0 := Sampled(key, now)], nextCaller := 1);
    assert s.tb.cache - {key} == map[];
    assert Next(s, Enter(0)).callers == AskedOnce(now, key).callers;
  }

  lemma SecondCaller(now: Time, key: Key)
    ensures var s := AskedOnce(now, key);
            var s' := s.(callers := s.callers[1 := Sampled(key, now)], nextCaller := 2);
            && Next(s, Call(key)) == s' && Enabled(s', Enter(1)) && Next(s', Enter(1)) == Asked(now, key)
  {
    var s := AskedOnce(now, key);
    var s' := s.(callers := s.callers[1 := Sampled(key, now)], nextCaller := 2);
    assert s'.tb.cache - {key} == map[];
    assert Next(s', Enter(1)).callers == Asked(now, key).callers;
  }

  /** The lookup is over and both callers have their answer. */
  function Served(now: Time, key: Key, addresses: Ips, ttl: Time): State {
    State(now, false,
          Tables(map[key := Entry(Traced(addresses, 0), now + ttl)], map[], map[],
                 map[0 := Finished(key, Resolved(addresses, ttl), now)], 1),
          map[], 2,
          [Reply(key, now, Addresses(addresses), 0, false), Reply(key, now, Addresses(addresses), 0, false)])
  }

  lemma LookupEnds(now: Time, key: Key, addresses: Ips, ttl: Time)
    requires ttl > 0
    ensures var l := Finish(0, Resolved(addresses, ttl), 0, key);
            && Enabled(Asked(now, key), l)
            && Next(Asked(now, key), l) ==
                 Served(now, key, addresses, ttl).(callers := Asked(now, key).callers, replies := [])
  {
    var none: map<Key, Entry<Traced>> := map[];
    assert Purge(none, now) == map[];
    assert map[key := 0] - {key} == map[];
    var one: map<Id, Key> := map[0 := key];
    assert one - {0} == map[];
  }

  lemma BothAreServed(now: Time, key: Key, addresses: Ips, ttl: Time)
    ensures var t := Served(now, key, addresses, ttl);
            var s := t.(callers := Asked(now, key).callers, replies := []);
            var s' := t.(callers := map[1 := Waiting(key, now, 0)], replies := t.replies[..1]);
            && Enabled(s, Deliver(0)) && Next(s, Deliver(0)) == s'
            && Enabled(s', Deliver(1)) && Next(s', Deliver(1)) == t
  {
    var t := Served(now, key, addresses, ttl);
    var s := t.(callers := Asked(now, key).callers, replies := []);
    var s' := t.(callers := map[1 := Waiting(key, now, 0)], replies := t.replies[..1]);
    assert s.callers - {0} == s'.callers;
    assert s'.callers - {1} == map[];
  }

  lemma ThirdCaller(now: Time, key: Key, addresses: Ips, ttl: Time)
    requires ttl > 0
    ensures var s := Served(now, key, addresses, ttl);
            var s' := s.(callers := map[2 := Sampled(key, now)], nextCaller := 3);
            && Next(s, Call(key)) == s' && Enabled(s', Enter(2))
            && Next(s', Enter(2)).replies == s.replies + [Reply(key, now, Addresses(addresses), 0, true)]
  {
  }

  /**
   Two callers ask for the same key, one lookup serves both, and a third is answered from the cache. The replies come in
   this order, all with the lookup's addresses.
   */
  lemma QueriesAreAnswered(now: Time, key: Key, addresses: Ips, ttl: Time) returns (ls: seq<Label>)
    requires ttl > 0
    ensures CanTake(Init(now), ls)
    ensures Take(Init(now), ls).replies ==
              [Reply(key, now, Addresses(addresses), 0, false), Reply(key, now, Addresses(addresses), 0, false),
               Reply(key, now, Addresses(addresses), 0, true)]
  {
    hide CanTake, Take, Next, Asked, AskedOnce;
    FirstCaller(now, key);
    SecondCaller(now, key);
    LookupEnds(now, key, addresses, ttl);
    BothAreServed(now, key, addresses, ttl);
    ThirdCaller(now, key, addresses, ttl);
    NoSteps(Init(now));
    ls := Append(Init(now), [], Call(key));
    ls := Append(Init(now), ls, Enter(0));
    ls := Append(Init(now), ls, Call(key));
    ls := Append(Init(now), ls, Enter(1));
    ls := Append(Init(now), ls, Finish(0, Resolved(addresses, ttl), 0, key));
    ls := Append(Init(now), ls, Deliver(0));
    ls := Append(Init(now), ls, Deliver(1));
    ls := Append(Init(now), ls, Call(key));
    ls := Append(Init(now), ls, Enter(2));
  }

  lemma NoSteps(s: State)
    ensures CanTake(s, []) && Take(s, []) == s
  {
  }

  lemma Append(s: State, ls: seq<Label>, l: Label) returns (ms: seq<Label>)
    requires CanTake(s, ls) && Enabled(Take(s, ls), l)
    ensures CanTake(s, ms) && Take(s, ms) == Next(Take(s, ls), l)
  {
    hide Next, Enabled;
    TakeOneMore(s, ls, l);
    ms := ls + [l];
  }

  lemma {:induction false} TakeOneMore(s: State, ls: seq<Label>, l: Label)
    requires CanTake(s, ls) && Enabled(Take(s, ls), l)
    ensures CanTake(s, ls + [l]) && Take(s, ls + [l]) == Next(Take(s, ls), l)
    decreases |ls|
  {
    hide Next, Enabled;
    if ls == [] {
      assert [l][1..] == [];
      NoSteps(Next(s, l));
    } else {
      TakeOneMore(Next(s, ls[0]), ls[1..], l);
      assert (ls + [l])[1..] == ls[1..] + [l];
    }
  }
}
