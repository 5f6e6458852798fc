/** The plain resolver of internal/vpn/dns.go that the cache stands in for, and the name of a query. */
module DnsResolver {
  import opened Basics
  import opened DnsCache

  const MAX_TTL := 0xFFFF_FFFF

  /** One answer record: its TTL in seconds and, for an A record, the address. */
  datatype Record = A(ttl: nat, address: seq<Byte>) | Cname(ttl: nat) | Other(ttl: nat)

  /** The addresses of the A records, in order. */
  function ARecords(records: seq<Record>): seq<seq<Byte>> {
    if records == [] then []
    else (if records[0].A? then [records[0].address] else []) + ARecords(records[1..])
  }

  predicate Limits(r: Record) { r.A? || r.Cname? }

  /**
   The TTL of a response: the least among its A and CNAME records, which a response without any leaves at the maximum.
   */
  ghost predicate IsTtl(records: seq<Record>, ttl: nat) {
    && ttl <= MAX_TTL
    && (forall i :: 0 <= i < |records| && Limits(records[i]) ==> ttl <= records[i].ttl)
    && (ttl == MAX_TTL || exists i :: 0 <= i < |records| && Limits(records[i]) && records[i].ttl == ttl)
  }

  method AppendARecords(addresses: seq<seq<Byte>>, records: seq<Record>) returns (result: seq<seq<Byte>>)
    ensures result == addresses + ARecords(records)
  {
    result := addresses;
    for i := 0 to |records|
      invariant result == addresses + ARecords(records[..i])
    {
      assert records[..i + 1] == records[..i] + [records[i]];
      ARecordsAppend(records[..i], [records[i]]);
      if records[i].A? {
        result := result + [records[i].address];
      }
    }
    assert records[..|records|] == records;
  }

  /** The tail of querySessionA: the addresses and the TTL of a well-formed response. */
  method ReadResponse(records: seq<Record>) returns (addresses: seq<seq<Byte>>, ttl: nat)
    requires forall i :: 0 <= i < |records| ==> records[i].ttl <= MAX_TTL
    ensures addresses == ARecords(records)
    ensures IsTtl(records, ttl)
    ensures forall i :: 0 <= i < |records| && (records[i].A? || records[i].Cname?) ==> ttl <= records[i].ttl
    ensures addresses != [] ==> exists i :: 0 <= i < |records| && Limits(records[i]) && records[i].ttl == ttl
  {
    addresses := AppendARecords([], records);
    ttl := MAX_TTL;
    for i := 0 to |records|
      invariant IsTtl(records[..i], ttl)
    {
      assert records[..i + 1] == records[..i] + [records[i]];
      if (records[i].A? || records[i].Cname?) && records[i].ttl < ttl {
        ttl := records[i].ttl;
        assert records[..i + 1][i] == records[i];
      } else if ttl < MAX_TTL {
        var j :| 0 <= j < i && Limits(records[..i][j]) && records[..i][j].ttl == ttl;
        assert records[..i + 1][j] == records[j];
      }
    }
    assert records[..|records|] == records;
    if addresses != [] {
      var i := SomeARecord(records);
    }
  }

  lemma {:induction false} SomeARecord(records: seq<Record>) returns (i: nat)
    requires ARecords(records) != []
    ensures i < |records| && records[i].A?
  {
    if records[0].A? {
      i := 0;
    } else {
      i := SomeARecord(records[1..]);
      i := i + 1;
    }
  }

  /** The addresses of a list of records are those of its parts, in order; an A record gives its own, others none. */
  lemma {:induction false} ARecordsAppend(left: seq<Record>, right: seq<Record>)
    ensures ARecords(left + right) == ARecords(left) + ARecords(right)
    ensures ARecords([]) == []
    ensures forall ttl, address :: ARecords([A(ttl, address)]) == [address]
    ensures forall ttl :: ARecords([Cname(ttl)]) == [] && ARecords([Other(ttl)]) == []
  {
    if left == [] {
      assert left + right == right;
    } else {
      ARecordsAppend(left[1..], right);
      assert (left + right)[1..] == left[1..] + right;
    }
  }

  /** What asking one server brings: whether the context is alive before and after, and the response if one came. */
  datatype Query = Query(liveBefore: bool, liveAfter: bool, response: Option<(seq<seq<Byte>>, Time)>)

  predicate Useful(q: Query) { q.response.Some? && q.response.value.0 != [] }

  /** The servers that are asked before this one all failed while the context stayed alive. */
  ghost predicate ReachedInVain(queries: seq<Query>, k: nat)
    requires k <= |queries|
  {
    forall j :: 0 <= j < k ==> queries[j].liveBefore && queries[j].liveAfter && !Useful(queries[j])
  }

  /**
   lookupSessionIPv4: the answer of the first server in order that gives an address, asked while the context lives.
   */
  method LookupIPv4(queries: seq<Query>) returns (outcome: Outcome, used: nat)
    ensures outcome.Resolved? ==>
              && used < |queries| && ReachedInVain(queries, used) && queries[used].liveBefore && Useful(queries[used])
              && outcome == Resolved(Ips(queries[used].response.value.0), queries[used].response.value.1)
    ensures outcome.Resolved? ==>
              && outcome.addresses.list != []
              && queries[used].response == Some((outcome.addresses.list, outcome.ttl))
              && forall j :: 0 <= j < used ==> queries[j].response.None? || queries[j].response.value.0 == []
    ensures outcome.Refused? ==>
              forall k :: 0 <= k < |queries| && ReachedInVain(queries, k) && queries[k].liveBefore ==>
                !Useful(queries[k])
  {
    used := 0;
    while used < |queries|
      invariant used <= |queries| && ReachedInVain(queries, used)
    {
      var q := queries[used];
      if !q.liveBefore {
        return Refused("context canceled"), used;
      }
      if q.response.Some? && q.response.value.0 != [] {
        return Resolved(Ips(q.response.value.0), q.response.value.1), used;
      }
      if !q.liveAfter {
        break;
      }
      used := used + 1;
    }
    return Refused("no server answered"), used;
  }

  // ----- the name of a query -----

  function Lower(c: char): char {
    if 'A' <= c <= 'Z' then (c - 'A') + 'a' else c
  }

  function TrimDot(host: string): string {
    if host != "" && host[|host| - 1] == '.' then host[..|host| - 1] else host
  }

  function Normalize(host: string): string {
    seq(|TrimDot(host)|, i requires 0 <= i < |TrimDot(host)| => Lower(TrimDot(host)[i]))
  }

  /** The same letter, or the two cases of one ASCII letter. */
  predicate SameLetter(c: char, d: char) {
    c == d || ('A' <= c <= 'Z' && d as int == c as int + 32) || ('A' <= d <= 'Z' && c as int == d as int + 32)
  }

  /** Two host names are the same question exactly when they agree up to ASCII case and one trailing dot. */
  lemma NamesAgree(host: string, host': string)
    ensures Normalize(host) == Normalize(host') <==>
              var h := if host != "" && host[|host| - 1] == '.' then host[..|host| - 1] else host;
              var h' := if host' != "" && host'[|host'| - 1] == '.' then host'[..|host'| - 1] else host';
              |h| == |h'| && forall i :: 0 <= i < |h| ==> SameLetter(h[i], h'[i])
  {
    var h, h' := TrimDot(host), TrimDot(host');
    LowerAgrees();
    if Normalize(host) == Normalize(host') {
      assert |Normalize(host)| == |h| && |Normalize(host')| == |h'|;
      forall i | 0 <= i < |h| ensures SameLetter(h[i], h'[i]) {
        assert Lower(h[i]) == Normalize(host)[i] == Normalize(host')[i] == Lower(h'[i]);
      }
    }
  }

  lemma LowerAgrees()
    ensures forall c, d :: Lower(c) == Lower(d) <==> SameLetter(c, d)
  {
  }

  /** strings.Join(servers, "|"). */
  function Join(servers: seq<string>): string {
    if servers == [] then "" else if |servers| == 1 then servers[0] else servers[0] + "|" + Join(servers[1..])
  }

  function KeyOf(host: string, servers: seq<string>): Key { Key(Normalize(host) + "|" + Join(servers)) }

  /** With one server list, as within one configuration, queries share a key exactly when they ask for the same name. */
  lemma KeyNamesHost(host: string, host': string, servers: seq<string>)
    ensures KeyOf(host, servers) == KeyOf(host', servers) <==> Normalize(host) == Normalize(host')
  {
    var h, h', tail := Normalize(host), Normalize(host'), "|" + Join(servers);
    assert h + "|" + Join(servers) == h + tail;
    assert h' + "|" + Join(servers) == h' + tail;
    if h + tail == h' + tail {
      assert |h| == |h'|;
      assert h == (h + tail)[..|h|] == (h' + tail)[..|h'|] == h';
    }
  }

  predicate NoBar(s: string) { forall i :: 0 <= i < |s| ==> s[i] != '|' }

  ghost predicate NoBars(servers: seq<string>) { forall i :: 0 <= i < |servers| ==> NoBar(servers[i]) }

  /** A server list the configuration accepts is not empty, and no literal address and port contains the separator. */
  ghost predicate Configured(servers: seq<string>) { servers != [] && NoBars(servers) }

  /** The host and then every server, each after a separator. */
  function Spelled(host: string, servers: seq<string>): string {
    if servers == [] then host
    else Spelled(host, servers[..|servers| - 1]) + "|" + servers[|servers| - 1]
  }

  /** The text of a key is the spelling of its parts, and a spelling can be split before any server. */
  lemma {:induction false} SpelledIsJoined(host: string, servers: seq<string>)
    requires servers != []
    ensures Spelled(host, servers) == host + "|" + Join(servers)
  {
    if |servers| == 1 {
      assert Spelled(host, []) == host;
    } else {
      var last := |servers| - 1;
      SpelledIsJoined(host, servers[..last]);
      JoinLast(servers);
      assert host + "|" + (Join(servers[..last]) + "|" + servers[last])
          == host + "|" + Join(servers[..last]) + "|" + servers[last];
    }
  }

  lemma {:induction false} JoinLast(servers: seq<string>)
    requires |servers| > 1
    ensures Join(servers) == Join(servers[..|servers| - 1]) + "|" + servers[|servers| - 1]
  {
    var last := |servers| - 1;
    if |servers| > 2 {
      JoinLast(servers[1..]);
      assert servers[1..][..last - 1] == servers[..last][1..];
      assert servers[0] + "|" + (Join(servers[..last][1..]) + "|" + servers[last])
          == servers[0] + "|" + Join(servers[..last][1..]) + "|" + servers[last];
    } else {
      assert Join(servers[1..]) == servers[1] && Join(servers[..1]) == servers[0];
    }
  }

  /** Text after the last bar determines the part before it and the part after it. */
  lemma LastBar(a: string, x: string, b: string, y: string)
    requires NoBar(x) && NoBar(y) && a + "|" + x == b + "|" + y
    ensures a == b && x == y
  {
    var t := a + "|" + x;
    assert t[|a|] == '|' && t[|b|] == '|';
    assert forall k :: |a| < k < |t| ==> t[k] == x[k - |a| - 1];
    assert forall k :: |b| < k < |t| ==> t[k] == y[k - |b| - 1];
    assert a == t[..|a|] && x == t[|a| + 1..];
    assert b == t[..|b|] && y == t[|b| + 1..];
  }

  /** Spellings agree exactly when the shorter list ends the longer one and the host takes up the rest. */
  lemma {:induction false} SpellingsAgree(host: string, servers: seq<string>, host': string, servers': seq<string>)
    requires NoBars(servers) && NoBars(servers') && |servers| <= |servers'|
    ensures var n := |servers'| - |servers|;
            Spelled(host, servers) == Spelled(host', servers')
            <==> servers == servers'[n..] && host == Spelled(host', servers'[..n])
  {
    var n := |servers'| - |servers|;
    if servers == [] {
      assert servers'[..n] == servers';
    } else {
      var front, last := servers[..|servers| - 1], servers[|servers| - 1];
      var front', last' := servers'[..|servers'| - 1], servers'[|servers'| - 1];
      SpellingsAgree(host, front, host', front');
      if Spelled(host, servers) == Spelled(host', servers') {
        LastBar(Spelled(host, front), last, Spelled(host', front'), last');
      }
      assert servers == front + [last] && servers'[n..] == front'[n..] + [last'];
      assert front'[..n] == servers'[..n];
    }
  }

  /**
   Exactly when two queries share a key, for every host and any two configured lists: the shorter list ends the longer
   one, and the host asked of the shorter reads as the other host followed by the servers that are missing.
   */
  lemma KeyNamesQuery(host: string, servers: seq<string>, host': string, servers': seq<string>)
    requires Configured(servers) && Configured(servers') && |servers| <= |servers'|
    ensures var n := |servers'| - |servers|;
            KeyOf(host, servers) == KeyOf(host', servers')
            <==> servers == servers'[n..]
                 && Normalize(host) ==
                    (if n == 0 then Normalize(host') else Normalize(host') + "|" + Join(servers'[..n]))
  {
    var h, h', n := Normalize(host), Normalize(host'), |servers'| - |servers|;
    SpelledIsJoined(h, servers);
    SpelledIsJoined(h', servers');
    SpellingsAgree(h, servers, h', servers');
    if n > 0 {
      SpelledIsJoined(h', servers'[..n]);
    }
  }

  predicate IsLower(s: string) { forall i :: 0 <= i < |s| ==> Lower(s[i]) == s[i] }

  /**
   Exactly which two configured lists can be confused at all: one must be a proper suffix of the other, and the servers
   it lacks must be written in lower case, as every address in digits is.
   */
  lemma ListsConfused(servers: seq<string>, servers': seq<string>)
    requires Configured(servers) && Configured(servers') && |servers| <= |servers'| && servers != servers'
    ensures (exists host, host' :: KeyOf(host, servers) == KeyOf(host', servers'))
            <==> var n := |servers'| - |servers|; n > 0 && servers == servers'[n..] && IsLower(Join(servers'[..n]))
  {
    var n := |servers'| - |servers|;
    var missing := Join(servers'[..n]);
    forall host, host' | KeyOf(host, servers) == KeyOf(host', servers')
      ensures n > 0 && servers == servers'[n..] && IsLower(missing)
    {
      KeyNamesQuery(host, servers, host', servers');
      assert servers'[0..] == servers';
      NormalizedIsLower(host, Normalize(host') + "|", missing);
    }
    if n > 0 && servers == servers'[n..] && IsLower(missing) {
      var host := "a|" + missing + ".";
      assert TrimDot(host) == "a|" + missing;
      assert Normalize(host) == "a|" + missing;
      assert Normalize("a") == "a";
      KeyNamesQuery(host, servers, "a", servers');
      assert KeyOf(host, servers) == KeyOf("a", servers');
    }
  }

  lemma NormalizedIsLower(host: string, front: string, back: string)
    ensures Normalize(host) == front + back ==> IsLower(back)
  {
    if Normalize(host) == front + back {
      forall i | 0 <= i < |back| ensures Lower(back[i]) == back[i] {
        assert back[i] == Normalize(host)[|front| + i];
      }
    }
  }

  /** So after a change of the configuration two different questions can meet in one entry. */
  lemma KeysCollide()
    ensures KeyOf("a|1.1.1.1:53", ["8.8.8.8:53"]) == KeyOf("a", ["1.1.1.1:53", "8.8.8.8:53"])
    ensures Normalize("a|1.1.1.1:53") != Normalize("a")
    ensures Configured(["8.8.8.8:53"]) && Configured(["1.1.1.1:53", "8.8.8.8:53"])
  {
    hide Normalize;
    var servers := ["1.1.1.1:53", "8.8.8.8:53"];
    LiteralNames();
    assert servers[..1] == ["1.1.1.1:53"] && servers[1..] == ["8.8.8.8:53"];
    KeyNamesQuery("a|1.1.1.1:53", ["8.8.8.8:53"], "a", servers);
  }

  lemma LiteralNames()
    ensures Normalize("a|1.1.1.1:53") == "a|1.1.1.1:53" && Normalize("a") == "a"
  {
  }
}
