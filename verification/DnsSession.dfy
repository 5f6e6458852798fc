/**
 The dnsSession object of internal/vpn/dns_cache.go: the cache table updated in place, with addresses as byte arrays on
 the heap, so that sharing between the cache and its callers is visible.
 */
module DnsSession {
  import opened Basics
  import opened DnsCache

  type Address = array<Byte>

  function Contents(addresses: seq<Address>): Ips
    reads addresses
  {
    Ips(seq(|addresses|, i requires 0 <= i < |addresses| reads addresses => addresses[i][..]))
  }

  /** cloneIPs: equal addresses in arrays nobody else has. */
  method CloneIPs(addresses: seq<Address>) returns (copies: seq<Address>)
    ensures |copies| == |addresses|
    ensures forall i :: 0 <= i < |copies| ==> fresh(copies[i]) && copies[i][..] == addresses[i][..]
    ensures Contents(copies) == Contents(addresses)
  {
    copies := [];
    for i := 0 to |addresses|
      invariant |copies| == i
      invariant forall j :: 0 <= j < i ==> fresh(copies[j]) && copies[j][..] == addresses[j][..]
    {
      var address := addresses[i];
      var copy := new Byte[address.Length](k requires 0 <= k < address.Length reads address => address[k]);
      copies := copies + [copy];
    }
  }

  class Session {
    var cache: map<Key, Entry<seq<Address>>>
    ghost var owned: set<Address>

    ghost predicate Valid()
      reads this
    {
      && |cache| <= CACHE_CAPACITY
      && Owns(cache, owned)
    }

    /** The cache as values: what every later answer depends on. */
    ghost function View(): map<Key, Entry<Ips>>
      requires Valid()
      reads this, owned
    {
      map k | k in cache :: Entry(Contents(cache[k].addresses), cache[k].expires)
    }

    constructor ()
      ensures Valid() && View() == map[] && owned == {}
    {
      cache, owned := map[], {};
    }

    /** The cache part of resolveIPv4: a live entry is copied out, an expired one dropped. */
    method Lookup(key: Key, now: Time) returns (hit: bool, addresses: seq<Address>)
      requires Valid()
      modifies `cache
      ensures Valid()
      ensures hit <==> key in old(View()) && now < old(View())[key].expires
      ensures hit ==> View() == old(View()) && Contents(addresses) == old(View())[key].addresses
      ensures forall i :: 0 <= i < |addresses| ==> fresh(addresses[i]) && addresses[i] !in owned
      ensures !hit ==> View() == old(View()) - {key} && addresses == []
    {
      addresses := [];
      if key in cache {
        if now < cache[key].expires {
          addresses := CloneIPs(cache[key].addresses);
          return true, addresses;
        }
        CountKeys((cache - {key}).Keys, cache.Keys);
        cache := cache - {key};
      }
      return false, [];
    }

    /** Drops the entries that have expired, visiting the map in no particular order. */
    method DropExpired(now: Time)
      requires |cache| <= CACHE_CAPACITY
      modifies `cache
      ensures cache == Purge(old(cache), now)
      ensures forall k :: k in cache <==> k in old(cache) && now < old(cache)[k].expires
      ensures forall k :: k in cache ==> cache[k] == old(cache)[k]
    {
      var keys := cache.Keys;
      while keys != {}
        invariant keys <= old(cache).Keys
        invariant forall k :: k in cache <==> k in old(cache) && (k in keys || now < old(cache)[k].expires)
        invariant forall k :: k in cache ==> cache[k] == old(cache)[k]
        decreases |keys|
      {
        var key :| key in keys;
        if !(now < cache[key].expires) {
          cache := cache - {key};
        }
        keys := keys - {key};
      }
    }

    /** The entry that expires first, whatever the order of the visit. */
    method FindOldest() returns (key: Key)
      requires cache != map[]
      ensures Oldest(cache, key)
      ensures key in cache && forall k :: k in cache ==> cache[key].expires <= cache[k].expires
    {
      var keys := cache.Keys;
      var oldest: Option<Key> := None;
      while keys != {}
        invariant keys <= cache.Keys
        invariant oldest.None? ==> keys == cache.Keys
        invariant oldest.Some? ==> oldest.value in cache
        invariant oldest.Some? ==>
                    forall k :: k in cache && k !in keys ==> cache[oldest.value].expires <= cache[k].expires
        decreases |keys|
      {
        var k :| k in keys;
        if oldest.None? || cache[k].expires < cache[oldest.value].expires {
          oldest := Some(k);
        }
        keys := keys - {k};
      }
      assert cache.Keys != {};
      return oldest.value;
    }

    /** Drops what has expired and, if that does not make room, the entry that expires first. */
    method MakeRoom(now: Time, key: Key) returns (victim: Key)
      requires |cache| <= CACHE_CAPACITY
      modifies `cache
      ensures MayEvict(old(cache), now, victim)
      ensures cache == if Full(old(cache), now) then Purge(old(cache), now) - {victim} else Purge(old(cache), now)
      ensures forall k :: k in cache ==> k in old(cache) && cache[k] == old(cache)[k]
    {
      DropExpired(now);
      victim := key;
      if |cache| >= CACHE_CAPACITY {
        victim := FindOldest();
        cache := cache - {victim};
      }
    }

    /** Takes the copies into the cache and into its ownership. */
    method Adopt(key: Key, copies: seq<Address>, expires: Time)
      requires Owns(cache, owned) && |cache[key := Entry(copies, expires)]| <= CACHE_CAPACITY
      modifies this
      ensures Valid()
      ensures cache == old(cache)[key := Entry(copies, expires)]
      ensures owned == old(owned) + set i | 0 <= i < |copies| :: copies[i]
    {
      owned := owned + set i | 0 <= i < |copies| :: copies[i];
      cache := cache[key := Entry(copies, expires)];
    }

    /** The cache part of lookup: makes room, then stores a private copy of the answer. */
    method File(key: Key, addresses: seq<Address>, ttl: Time, now: Time, at: Time) returns (victim: Key)
      requires Valid() && ttl > 0
      modifies this
      ensures Valid()
      ensures MayEvict(old(cache), now, victim)
      ensures key in cache && Contents(cache[key].addresses) == Contents(addresses) && cache[key].expires == at + ttl
      ensures cache == Store(old(cache), now, victim, key, cache[key])
      ensures forall i :: 0 <= i < |cache[key].addresses| ==> fresh(cache[key].addresses[i])
      ensures old(owned) <= owned && fresh(owned - old(owned))
    {
      hide Full, Purge, MayEvict, Contents;
      ghost var before := cache;
      victim := MakeRoom(now, key);
      var copies := CloneIPs(addresses);
      StoreSize(before, now, victim, key, Entry(copies, at + ttl));
      StoreKeys(before, now, victim, key, Entry(copies, at + ttl));
      Adopt(key, copies, at + ttl);
    }

    /** The end of lookup: the answer is filed if it may be cached, and the waiting callers are let through. */
    method Complete(key: Key, p: Pending, answer: Option<seq<Address>>, ttl: Time, now: Time, at: Time)
      requires Valid() && !p.done
      requires answer.Some? ==> forall i :: 0 <= i < |answer.value| ==> answer.value[i] !in owned
      modifies this, p
      ensures Valid()
      ensures p.done && p.answer == answer
      ensures answer.Some? ==> forall i :: 0 <= i < |answer.value| ==> answer.value[i] !in owned
      ensures answer.None? || ttl <= 0 ==> cache == old(cache)
      ensures answer.Some? && ttl > 0 ==>
                key in cache && cache[key].expires == at + ttl
                  && Contents(cache[key].addresses) == Contents(answer.value)
    {
      if answer.Some? && ttl > 0 {
        var victim := File(key, answer.value, ttl, now, at);
      }
      p.answer, p.done := answer, true;
    }
  }

  /** A dnsLookup: what the callers that wait for the same key share. */
  class Pending {
    var done: bool
    var answer: Option<seq<Address>>

    constructor ()
      ensures !done && answer == None
    {
      done, answer := false, None;
    }

    /** What one waiting caller is given: its own arrays, shared neither with the cache nor with any other caller. */
    method Deliver() returns (addresses: Option<seq<Address>>)
      requires done
      ensures addresses.Some? <==> answer.Some?
      ensures addresses.Some? ==>
                && Contents(addresses.value) == Contents(answer.value)
                && forall i :: 0 <= i < |addresses.value| ==> fresh(addresses.value[i])
    {
      addresses := None;
      if answer.Some? {
        var copies := CloneIPs(answer.value);
        addresses := Some(copies);
      }
    }
  }

  /** Every address in the cache belongs to the session. */
  ghost predicate Owns(cache: map<Key, Entry<seq<Address>>>, owned: set<Address>) {
    forall k, i :: k in cache && 0 <= i < |cache[k].addresses| ==> cache[k].addresses[i] in owned
  }
}
