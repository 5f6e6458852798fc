/**
 The bounded TTL cache with coalesced lookups of internal/vpn/dns_cache.go, as functions on its two tables and as a
 transition system over callers, lookups and a clock.
 */
module DnsCache {
  import opened Basics

  const CACHE_CAPACITY := 256
  const LOOKUP_CAPACITY := 64

  /** The string "host|server|server..." that names a query. */
  datatype Key = Key(text: string)

  /** A list of addresses, each a string of bytes. */
  datatype Ips = Ips(list: seq<seq<Byte>>)

  datatype Entry<+A> = Entry(addresses: A, expires: Time)

  /** What a plain lookup through the session reports. */
  datatype Outcome = Resolved(addresses: Ips, ttl: Time) | Refused(err: string)

  predicate Cacheable(outcome: Outcome) { outcome.Resolved? && outcome.ttl > 0 }

  // ----- the cache table -----

  predicate Hit<A>(cache: map<Key, Entry<A>>, key: Key, at: Time) { key in cache && at < cache[key].expires }

  function Purge<A>(cache: map<Key, Entry<A>>, now: Time): map<Key, Entry<A>> {
    map k | k in cache && now < cache[k].expires :: cache[k]
  }

  /** An entry that expires no later than any other. */
  predicate Oldest<A>(cache: map<Key, Entry<A>>, key: Key) {
    key in cache && forall k :: k in cache ==> cache[key].expires <= cache[k].expires
  }

  predicate Full<A>(cache: map<Key, Entry<A>>, now: Time) { |Purge(cache, now)| >= CACHE_CAPACITY }

  predicate MayEvict<A>(cache: map<Key, Entry<A>>, now: Time, victim: Key) {
    Full(cache, now) ==> Oldest(Purge(cache, now), victim)
  }

  function Store<A>(cache: map<Key, Entry<A>>, now: Time, victim: Key, key: Key, entry: Entry<A>): map<Key, Entry<A>> {
    (if Full(cache, now) then Purge(cache, now) - {victim} else Purge(cache, now))[key := entry]
  }

  lemma {:induction false} CountKeys(small: set<Key>, large: set<Key>)
    requires small <= large
    ensures |small| <= |large|
  {
    assert large == small + (large - small);
    assert |small + (large - small)| == |small| + |large - small|;
  }

  lemma StoreSize<A>(cache: map<Key, Entry<A>>, now: Time, victim: Key, key: Key, entry: Entry<A>)
    requires |cache| <= CACHE_CAPACITY && MayEvict(cache, now, victim)
    ensures |Store(cache, now, victim, key, entry)| <= CACHE_CAPACITY
    ensures Full(cache, now) ==> |Purge(cache, now)| == CACHE_CAPACITY
  {
    var live := Purge(cache, now).Keys;
    assert live <= cache.Keys;
    CountKeys(live, cache.Keys);
    var kept := if Full(cache, now) then live - {victim} else live;
    assert |kept| < CACHE_CAPACITY;
    assert Store(cache, now, victim, key, entry).Keys == kept + {key};
  }

  /**
   Storing an answer keeps the cache within its capacity; it drops only entries that have expired and, when that does
   not make room, exactly one more, which expires first.
   */
  lemma StoreIsMinimal<A>(cache: map<Key, Entry<A>>, now: Time, victim: Key, key: Key, entry: Entry<A>)
    requires |cache| <= CACHE_CAPACITY && MayEvict(cache, now, victim)
    ensures var after := Store(cache, now, victim, key, entry);
            && |after| <= CACHE_CAPACITY
            && key in after && after[key] == entry
            && (forall k :: k in after && k != key ==> k in cache && now < cache[k].expires && after[k] == cache[k])
    ensures forall k :: k in cache && now < cache[k].expires && k !in Store(cache, now, victim, key, entry) ==>
              && k == victim
              && |Purge(cache, now)| == 256
              && (forall q :: q in cache && now < cache[q].expires ==> cache[k].expires <= cache[q].expires)
  {
    StoreSize(cache, now, victim, key, entry);
    forall k | k in cache && now < cache[k].expires && k !in Store(cache, now, victim, key, entry)
      ensures k == victim && Full(cache, now)
    {
      assert k in Purge(cache, now);
    }
    if Full(cache, now) {
      assert Oldest(Purge(cache, now), victim);
      forall q | q in cache && now < cache[q].expires && victim in cache
        ensures cache[victim].expires <= cache[q].expires
      {
        assert q in Purge(cache, now);
      }
    }
  }

  // ----- the two tables -----

  type Id = nat

  /** A cached answer together with the lookup it came from. */
  datatype Traced = Traced(addresses: Ips, source: Id)

  /** A finished lookup: `at` is when its answer was filed. */
  datatype Finished = Finished(key: Key, outcome: Outcome, at: Time)

  /** `running` has the lookup goroutines, `finished` the outcomes behind the closed `done` channels. */
  datatype Tables = Tables(
    cache: map<Key, Entry<Traced>>, pending: map<Key, Id>,
    running: map<Id, Key>, finished: map<Id, Finished>, nextId: Id)

  datatype Verdict = Answered(entry: Traced) | WaitFor(id: Id) | TooMany

  /** Registers a new lookup for a key that is neither cached nor pending. */
  function Launch(tb: Tables, key: Key): Tables {
    tb.(pending := tb.pending[key := tb.nextId], running := tb.running[tb.nextId := key], nextId := tb.nextId + 1)
  }

  function Forget(tb: Tables, key: Key): Tables { tb.(cache := tb.cache - {key}) }

  /** The critical section of resolveIPv4 for a caller that read the clock at `at`. */
  function Resolve(tb: Tables, key: Key, at: Time): (Tables, Verdict) {
    if Hit(tb.cache, key, at) then (tb, Answered(tb.cache[key].addresses))
    else if key in tb.pending then (Forget(tb, key), WaitFor(tb.pending[key]))
    else if |tb.pending| >= LOOKUP_CAPACITY then (Forget(tb, key), TooMany)
    else (Launch(Forget(tb, key), key), WaitFor(tb.nextId))
  }

  function FiledEntry(id: Id, outcome: Outcome, at: Time): Entry<Traced> {
    if outcome.Resolved? then Entry(Traced(outcome.addresses, id), at + outcome.ttl) else Entry(Traced(Ips([]), id), at)
  }

  /** The critical section at the end of lookup; it reads the clock at `now` and again at `at`. */
  function File(tb: Tables, id: Id, outcome: Outcome, now: Time, at: Time, victim: Key): Tables
    requires id in tb.running
  {
    var key := tb.running[id];
    Tables(
      if Cacheable(outcome) then Store(tb.cache, now, victim, key, FiledEntry(id, outcome, at)) else tb.cache,
      tb.pending - {key}, tb.running - {id}, tb.finished[id := Finished(key, outcome, at)], tb.nextId)
  }

  predicate PendingOk(tb: Tables, k: Key) {
    k in tb.pending && k !in tb.cache && tb.pending[k] in tb.running && tb.running[tb.pending[k]] == k
  }

  predicate RunningOk(tb: Tables, id: Id) {
    id in tb.running && id < tb.nextId && id !in tb.finished && tb.running[id] in tb.pending
      && tb.pending[tb.running[id]] == id
  }

  /** A cached entry is the answer of a finished lookup of its own key, with the expiry that answer asked for. */
  predicate Sound(finished: map<Id, Finished>, key: Key, e: Entry<Traced>) {
    && e.addresses.source in finished
    && var f := finished[e.addresses.source];
       f.key == key && Cacheable(f.outcome) && f.outcome.addresses == e.addresses.addresses
         && e.expires == f.at + f.outcome.ttl
  }

  /** One lookup at a time for a key, never one for a key that is cached, and only sound entries in the cache. */
  ghost predicate TablesOk(tb: Tables) {
    && (forall k :: k in tb.pending ==> PendingOk(tb, k))
    && (forall id :: id in tb.running ==> RunningOk(tb, id))
    && (forall id :: id in tb.finished ==> id < tb.nextId)
    && (forall k :: k in tb.cache ==> Sound(tb.finished, k, tb.cache[k]))
    && |tb.pending| <= LOOKUP_CAPACITY
    && |tb.cache| <= CACHE_CAPACITY
  }

  lemma ForgetKeeps(tb: Tables, key: Key)
    requires TablesOk(tb)
    ensures TablesOk(Forget(tb, key))
  {
    var tb' := Forget(tb, key);
    assert tb'.cache.Keys <= tb.cache.Keys;
    CountKeys(tb'.cache.Keys, tb.cache.Keys);
    forall k | k in tb'.pending ensures PendingOk(tb', k) {
      assert PendingOk(tb, k);
    }
    forall id | id in tb'.running ensures RunningOk(tb', id) {
      assert RunningOk(tb, id);
    }
  }

  lemma LaunchKeeps(tb: Tables, key: Key)
    requires TablesOk(tb) && key !in tb.pending && key !in tb.cache && |tb.pending| < LOOKUP_CAPACITY
    ensures TablesOk(Launch(tb, key))
  {
    var tb' := Launch(tb, key);
    assert tb'.pending.Keys == tb.pending.Keys + {key};
    forall k | k in tb'.pending ensures PendingOk(tb', k) {
      assert k != key ==> PendingOk(tb, k);
      assert k != key ==> RunningOk(tb, tb.pending[k]);
    }
    forall id | id in tb'.running ensures RunningOk(tb', id) {
      assert id != tb.nextId ==> RunningOk(tb, id);
    }
  }

  lemma PendingRuns(tb: Tables, key: Key)
    requires TablesOk(tb)
    ensures key in tb.pending ==> tb.pending[key] in tb.running && tb.running[tb.pending[key]] == key
  {
    assert key in tb.pending ==> PendingOk(tb, key);
  }

  lemma FreshId(tb: Tables)
    requires TablesOk(tb)
    ensures tb.nextId !in tb.running && tb.nextId !in tb.finished
  {
    assert tb.nextId in tb.running ==> RunningOk(tb, tb.nextId);
  }

  lemma RunningIsPending(tb: Tables, id: Id)
    requires TablesOk(tb) && id in tb.running
    ensures RunningOk(tb, id)
  {
  }

  lemma CachedIsSound(tb: Tables, key: Key)
    requires TablesOk(tb) && key in tb.cache
    ensures Sound(tb.finished, key, tb.cache[key])
  {
  }

  lemma LaunchAdds(tb: Tables, key: Key)
    ensures var tb' := Launch(tb, key);
            && tb'.finished == tb.finished
            && (forall id :: id in tb.running && id != tb.nextId ==>
                 id in tb'.running && tb'.running[id] == tb.running[id])
            && tb.nextId in tb'.running && tb'.running[tb.nextId] == key
  {
  }

  lemma ResolveKeeps(tb: Tables, key: Key, at: Time)
    requires TablesOk(tb)
    ensures var (tb', v) := Resolve(tb, key, at);
            && TablesOk(tb')
            && tb'.finished == tb.finished
            && (forall id :: id in tb.running ==> id in tb'.running && tb'.running[id] == tb.running[id])
            && (v.WaitFor? ==> v.id in tb'.running && tb'.running[v.id] == key)
  {
    hide TablesOk, PendingOk, RunningOk, Hit, Launch;
    PendingRuns(tb, key);
    FreshId(tb);
    ForgetKeeps(tb, key);
    LaunchAdds(Forget(tb, key), key);
    if !Hit(tb.cache, key, at) && key !in tb.pending && |tb.pending| < LOOKUP_CAPACITY {
      LaunchKeeps(Forget(tb, key), key);
    }
  }

  lemma StoreKeys<A>(cache: map<Key, Entry<A>>, now: Time, victim: Key, key: Key, entry: Entry<A>)
    ensures var after := Store(cache, now, victim, key, entry);
            && (forall k :: k in after ==> k == key || (k in cache && after[k] == cache[k]))
            && key in after && after[key] == entry
  {
  }

  lemma FileKeepsFlight(tb: Tables, id: Id, outcome: Outcome, now: Time, at: Time, victim: Key)
    requires TablesOk(tb) && id in tb.running
    ensures var tb' := File(tb, id, outcome, now, at, victim);
            && (forall k :: k in tb'.pending ==> PendingOk(tb', k))
            && (forall i :: i in tb'.running ==> RunningOk(tb', i))
            && |tb'.pending| <= LOOKUP_CAPACITY
  {
    hide Sound, Store;
    var tb', key := File(tb, id, outcome, now, at, victim), tb.running[id];
    assert RunningOk(tb, id);
    assert tb'.pending.Keys <= tb.pending.Keys;
    CountKeys(tb'.pending.Keys, tb.pending.Keys);
    StoreKeys(tb.cache, now, victim, key, FiledEntry(id, outcome, at));
    forall k | k in tb'.pending ensures PendingOk(tb', k) {
      assert PendingOk(tb, k);
    }
    forall i | i in tb'.running ensures RunningOk(tb', i) {
      assert RunningOk(tb, i);
    }
  }

  lemma FileKeepsCache(tb: Tables, id: Id, outcome: Outcome, now: Time, at: Time, victim: Key)
    requires TablesOk(tb) && id in tb.running && MayEvict(tb.cache, now, victim)
    ensures var tb' := File(tb, id, outcome, now, at, victim);
            && (forall k :: k in tb'.cache ==> Sound(tb'.finished, k, tb'.cache[k]))
            && |tb'.cache| <= CACHE_CAPACITY
  {
    var tb', key := File(tb, id, outcome, now, at, victim), tb.running[id];
    assert RunningOk(tb, id);
    StoreKeys(tb.cache, now, victim, key, FiledEntry(id, outcome, at));
    StoreSize(tb.cache, now, victim, key, FiledEntry(id, outcome, at));
    hide Store, PendingOk, RunningOk;
    forall k | k in tb'.cache ensures Sound(tb'.finished, k, tb'.cache[k]) {
      assert k in tb.cache && tb'.cache[k] == tb.cache[k] ==> Sound(tb.finished, k, tb.cache[k]);
    }
  }

  lemma FileKeeps(tb: Tables, id: Id, outcome: Outcome, now: Time, at: Time, victim: Key)
    requires TablesOk(tb) && id in tb.running && MayEvict(tb.cache, now, victim)
    ensures TablesOk(File(tb, id, outcome, now, at, victim))
  {
    hide Store, PendingOk, RunningOk, Sound, MayEvict, Cacheable;
    FileKeepsFlight(tb, id, outcome, now, at, victim);
    FileKeepsCache(tb, id, outcome, now, at, victim);
    FiledIds(tb, id);
  }

  lemma FiledIds(tb: Tables, id: Id)
    requires TablesOk(tb) && id in tb.running
    ensures id < tb.nextId
  {
    assert RunningOk(tb, id);
  }

  // ----- callers, lookups and the clock -----

  /** What resolveIPv4 returns: the addresses or an error. */
  datatype Answer = Addresses(addresses: Ips) | Error(err: string)

  function AnswerOf(outcome: Outcome): Answer {
    if outcome.Resolved? then Addresses(outcome.addresses) else Error(outcome.err)
  }

  /** resolveIPv4 reads the clock before it takes the lock, and may then wait for a lookup. */
  datatype Caller = Sampled(key: Key, at: Time) | Waiting(key: Key, at: Time, id: Id)

  /** An answer given to a caller that read the clock at `at`, from the cache or from the lookup it waited for. */
  datatype Reply = Reply(key: Key, at: Time, answer: Answer, source: Id, cached: bool)

  /** `replies` is history. */
  datatype State = State(
    now: Time, closed: bool, tb: Tables, callers: map<nat, Caller>, nextCaller: nat, replies: seq<Reply>)

  datatype Label =
    | Tick(d: Time)
    | Call(key: Key)
    | Enter(c: nat)
    | Deliver(c: nat)
    | Abandon(c: nat)                                             // cancelled, or the session was closed
    | Finish(id: Id, outcome: Outcome, d: Time, victim: Key)
    | CloseSession

  predicate Enabled(s: State, l: Label) {
    match l
    case Tick(d) => d >= 0
    case Call(_) => true
    case Enter(c) => c in s.callers && s.callers[c].Sampled?
    case Deliver(c) => c in s.callers && s.callers[c].Waiting? && s.callers[c].id in s.tb.finished
    case Abandon(c) => c in s.callers && s.callers[c].Waiting?
    case Finish(id, outcome, d, victim) => id in s.tb.running && d >= 0 && MayEvict(s.tb.cache, s.now, victim)
    case CloseSession => true
  }

  function Leave(s: State, c: nat): State { s.(callers := s.callers - {c}) }

  function EnterNext(s: State, c: nat): State
    requires c in s.callers
  {
    var key, at := s.callers[c].key, s.callers[c].at;
    if s.closed then Leave(s, c)
    else
      var (tb, v) := Resolve(s.tb, key, at);
      match v
      case Answered(e) =>
        Leave(s, c).(tb := tb, replies := s.replies + [Reply(key, at, Addresses(e.addresses), e.source, true)])
      case WaitFor(id) => s.(tb := tb, callers := s.callers[c := Waiting(key, at, id)])
      case TooMany => Leave(s, c).(tb := tb)
  }

  function Next(s: State, l: Label): State
    requires Enabled(s, l)
  {
    match l
    case Tick(d) => s.(now := s.now + d)
    case Call(key) => s.(callers := s.callers[s.nextCaller := Sampled(key, s.now)], nextCaller := s.nextCaller + 1)
    case Enter(c) => EnterNext(s, c)
    case Deliver(c) =>
      var w := s.callers[c];
      Leave(s, c).(replies := s.replies + [Reply(w.key, w.at, AnswerOf(s.tb.finished[w.id].outcome), w.id, false)])
    case Abandon(c) => Leave(s, c)
    case Finish(id, outcome, d, victim) =>
      s.(now := s.now + d, tb := File(s.tb, id, outcome, s.now, s.now + d, victim))
    case CloseSession => s.(closed := true)
  }

  function Init(now: Time): State { State(now, false, Tables(map[], map[], map[], map[], 0), map[], 0, []) }

  predicate CanTake(s: State, ls: seq<Label>)
    decreases |ls|
  {
    ls == [] || (Enabled(s, ls[0]) && CanTake(Next(s, ls[0]), ls[1..]))
  }

  function Take(s: State, ls: seq<Label>): State
    requires CanTake(s, ls)
    decreases |ls|
  {
    if ls == [] then s else Take(Next(s, ls[0]), ls[1..])
  }

  predicate CallerSound(tb: Tables, now: Time, w: Caller) {
    && w.at <= now
    && (w.Waiting? ==>
         if w.id in tb.running then tb.running[w.id] == w.key
         else w.id in tb.finished && tb.finished[w.id].key == w.key && w.at <= tb.finished[w.id].at)
  }

  /**
   A reply is the outcome of a finished lookup of the same key. One from the cache is a success that was read strictly
   before its filing time plus TTL; any other was handed to a caller that had asked before the lookup finished.
   */
  predicate ReplySound(finished: map<Id, Finished>, r: Reply) {
    && r.source in finished
    && var f := finished[r.source];
       && f.key == r.key
       && (f.outcome.Resolved? ==> r.answer == Addresses(f.outcome.addresses))
       && (f.outcome.Refused? ==> r.answer == Error(f.outcome.err))
       && (if r.cached then f.outcome.Resolved? && 0 < f.outcome.ttl && r.at < f.at + f.outcome.ttl else r.at <= f.at)
  }

  ghost predicate CallersSound(s: State) {
    forall c :: c in s.callers ==> c < s.nextCaller && CallerSound(s.tb, s.now, s.callers[c])
  }

  ghost predicate RepliesSound(s: State) {
    forall i :: 0 <= i < |s.replies| ==> ReplySound(s.tb.finished, s.replies[i])
  }

  ghost predicate Inv(s: State) { TablesOk(s.tb) && CallersSound(s) && RepliesSound(s) }

  /** What resolveIPv4 decides for a caller that read the clock at `at`. */
  lemma VerdictIsSound(tb: Tables, key: Key, at: Time)
    requires TablesOk(tb)
    ensures var (tb', v) := Resolve(tb, key, at);
            && (v.Answered? ==>
                 ReplySound(tb.finished, Reply(key, at, Addresses(v.entry.addresses), v.entry.source, true)))
            && (v.WaitFor? ==> v.id in tb'.running && tb'.running[v.id] == key)
  {
    hide TablesOk, Forget, Launch;
    if Hit(tb.cache, key, at) {
      CachedIsSound(tb, key);
    } else {
      hide Resolve;
      ResolveKeeps(tb, key, at);
      MissHasNoAnswer(tb, key, at);
    }
  }

  lemma MissHasNoAnswer(tb: Tables, key: Key, at: Time)
    requires !Hit(tb.cache, key, at)
    ensures !Resolve(tb, key, at).1.Answered?
  {
  }

  lemma CallerAfterResolve(tb: Tables, key: Key, at: Time, now: Time, w: Caller)
    requires TablesOk(tb) && CallerSound(tb, now, w)
    ensures CallerSound(Resolve(tb, key, at).0, now, w)
  {
    hide TablesOk, Resolve;
    ResolveKeeps(tb, key, at);
    NewIdsAreFresh(tb, key, at);
  }

  lemma EnterKeeps(s: State, c: nat)
    requires Inv(s) && Enabled(s, Enter(c))
    ensures Inv(EnterNext(s, c))
  {
    hide TablesOk, Resolve, ReplySound, MayEvict;
    var key, at := s.callers[c].key, s.callers[c].at;
    ResolveKeeps(s.tb, key, at);
    VerdictIsSound(s.tb, key, at);
    var s' := EnterNext(s, c);
    forall d | d in s'.callers ensures d < s'.nextCaller && CallerSound(s'.tb, s'.now, s'.callers[d]) {
      CallerAfterResolve(s.tb, key, at, s.now, s.callers[d]);
    }
  }

  /** A lookup that is running after resolveIPv4 was running before, or is new and has not finished. */
  lemma NewIdsAreFresh(tb: Tables, key: Key, at: Time)
    requires TablesOk(tb)
    ensures forall id :: id in Resolve(tb, key, at).0.running ==> id in tb.running || id !in tb.finished
  {
  }

  lemma CallerAfterFile(tb: Tables, id: Id, outcome: Outcome, now: Time, at: Time, victim: Key, w: Caller)
    requires RunningOk(tb, id) && now <= at && CallerSound(tb, now, w)
    ensures CallerSound(File(tb, id, outcome, now, at, victim), at, w)
  {
    hide Store;
  }

  lemma ReplyAfterFile(tb: Tables, id: Id, outcome: Outcome, now: Time, at: Time, victim: Key, r: Reply)
    requires RunningOk(tb, id) && ReplySound(tb.finished, r)
    ensures ReplySound(File(tb, id, outcome, now, at, victim).finished, r)
  {
    hide Store;
  }

  lemma FinishKeepsCallers(s: State, id: Id, outcome: Outcome, d: Time, victim: Key)
    requires CallersSound(s) && RunningOk(s.tb, id) && Enabled(s, Finish(id, outcome, d, victim))
    ensures CallersSound(Next(s, Finish(id, outcome, d, victim)))
  {
    hide EnterNext, MayEvict, File, CallerSound, RunningOk;
    forall c | c in s.callers
      ensures CallerSound(File(s.tb, id, outcome, s.now, s.now + d, victim), s.now + d, s.callers[c])
    {
      CallerAfterFile(s.tb, id, outcome, s.now, s.now + d, victim, s.callers[c]);
    }
  }

  lemma FinishKeepsReplies(s: State, id: Id, outcome: Outcome, d: Time, victim: Key)
    requires RepliesSound(s) && RunningOk(s.tb, id) && Enabled(s, Finish(id, outcome, d, victim))
    ensures RepliesSound(Next(s, Finish(id, outcome, d, victim)))
  {
    hide EnterNext, MayEvict, File, ReplySound, RunningOk;
    forall i | 0 <= i < |s.replies|
      ensures ReplySound(File(s.tb, id, outcome, s.now, s.now + d, victim).finished, s.replies[i])
    {
      ReplyAfterFile(s.tb, id, outcome, s.now, s.now + d, victim, s.replies[i]);
    }
  }

  lemma FinishKeeps(s: State, id: Id, outcome: Outcome, d: Time, victim: Key)
    requires Inv(s) && Enabled(s, Finish(id, outcome, d, victim))
    ensures Inv(Next(s, Finish(id, outcome, d, victim)))
  {
    hide EnterNext, TablesOk, File, CallersSound, RepliesSound, RunningOk, MayEvict;
    RunningIsPending(s.tb, id);
    FileKeeps(s.tb, id, outcome, s.now, s.now + d, victim);
    FinishKeepsCallers(s, id, outcome, d, victim);
    FinishKeepsReplies(s, id, outcome, d, victim);
  }

  lemma StepKeeps(s: State, l: Label)
    requires Inv(s) && Enabled(s, l)
    ensures Inv(Next(s, l))
  {
    hide TablesOk, EnterNext, File, MayEvict;
    match l
    case Enter(c) => EnterKeeps(s, c);
    case Finish(id, outcome, d, victim) => FinishKeeps(s, id, outcome, d, victim);
    case Deliver(c) => NotRunning(s, s.callers[c].id);
    case _ =>
  }

  lemma {:induction false} RunKeeps(s: State, ls: seq<Label>)
    requires Inv(s) && CanTake(s, ls)
    ensures Inv(Take(s, ls))
    decreases |ls|
  {
    hide Inv, Next, Enabled;
    if ls != [] {
      StepKeeps(s, ls[0]);
      RunKeeps(Next(s, ls[0]), ls[1..]);
    }
  }

  /** In every run every reply agrees with a plain lookup of the same key through the same session. */
  lemma CacheRefinesResolver(now: Time, ls: seq<Label>)
    requires CanTake(Init(now), ls)
    ensures var s := Take(Init(now), ls); forall i :: 0 <= i < |s.replies| ==> ReplySound(s.tb.finished, s.replies[i])
  {
    RunKeeps(Init(now), ls);
  }

  /**
   In every run lookups are single-flight, both tables stay bounded, and only successes with a positive TTL are
   cached.
   */
  lemma TablesStayBounded(now: Time, ls: seq<Label>)
    requires CanTake(Init(now), ls)
    ensures var tb := Take(Init(now), ls).tb;
            && |tb.pending| <= 64 && |tb.cache| <= 256
            && (forall k :: k in tb.pending ==>
                 k !in tb.cache && tb.pending[k] in tb.running && tb.running[tb.pending[k]] == k)
            && (forall id :: id in tb.running ==> tb.running[id] in tb.pending && tb.pending[tb.running[id]] == id)
            && (forall k :: k in tb.cache ==>
                 tb.cache[k].addresses.source in tb.finished
                   && Cacheable(tb.finished[tb.cache[k].addresses.source].outcome))
  {
    hide Take, CanTake, PendingOk, RunningOk, Sound;
    RunKeeps(Init(now), ls);
    FlightSpelledOut(Take(Init(now), ls).tb);
  }

  lemma FlightSpelledOut(tb: Tables)
    requires TablesOk(tb)
    ensures forall k :: k in tb.pending ==>
              k !in tb.cache && tb.pending[k] in tb.running && tb.running[tb.pending[k]] == k
    ensures forall id :: id in tb.running ==> tb.running[id] in tb.pending && tb.pending[tb.running[id]] == id
    ensures forall k :: k in tb.cache ==>
              tb.cache[k].addresses.source in tb.finished
                && Cacheable(tb.finished[tb.cache[k].addresses.source].outcome)
  {
    forall k | k in tb.pending ensures k !in tb.cache && tb.pending[k] in tb.running && tb.running[tb.pending[k]] == k {
      assert PendingOk(tb, k);
    }
    forall id | id in tb.running ensures tb.running[id] in tb.pending && tb.pending[tb.running[id]] == id {
      assert RunningOk(tb, id);
    }
  }

  lemma FinishedStep(s: State, l: Label, id: Id)
    requires Inv(s) && Enabled(s, l) && id in s.tb.finished
    ensures id in Next(s, l).tb.finished && Next(s, l).tb.finished[id] == s.tb.finished[id]
  {
    hide TablesOk, CallersSound, RepliesSound, Hit, Store, MayEvict, Launch, Forget;
    if l.Finish? {
      RunningIsPending(s.tb, l.id);
    } else if l.Enter? {
      ResolveKeeps(s.tb, s.callers[l.c].key, s.callers[l.c].at);
    }
  }

  /** A lookup finishes once: its outcome never changes and it never runs again. */
  lemma {:induction false} FinishedForGood(s: State, ls: seq<Label>, id: Id)
    requires Inv(s) && CanTake(s, ls) && id in s.tb.finished
    ensures id in Take(s, ls).tb.finished && Take(s, ls).tb.finished[id] == s.tb.finished[id]
    ensures id !in Take(s, ls).tb.running
    decreases |ls|
  {
    hide Next, Enabled, Inv;
    if ls == [] {
      NotRunning(s, id);
    } else {
      FinishedStep(s, ls[0], id);
      StepKeeps(s, ls[0]);
      FinishedForGood(Next(s, ls[0]), ls[1..], id);
    }
  }

  lemma NotRunning(s: State, id: Id)
    requires Inv(s) && id in s.tb.finished
    ensures id !in s.tb.running
  {
    assert id in s.tb.running ==> RunningOk(s.tb, id);
  }
}
