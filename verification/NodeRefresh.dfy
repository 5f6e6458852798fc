/**
 From a downloaded list to a stored table: the de-duplication and filter of internal/vpngate/client.go and the Refresher
 of internal/vpngate/refresher.go.
 */
module NodeRefresh {
  import opened Basics
  import opened NodeTable
  import opened NodeStore

  /**
   One CSV record: its number of fields, whether its first field starts with '*', and what parseRecord makes of it.
   */
  datatype Record = Record(fields: nat, starred: bool, parsed: Option<Node>)

  /** The record yields a node: enough fields, not a comment, an IPv4 address and at least one protocol. */
  predicate Yields(r: Record) {
    14 <= r.fields && !r.starred && r.parsed.Some? && r.parsed.value.feed.protocols != []
  }

  /** The first of the best-scored nodes with its address. */
  ghost predicate Best(records: seq<Record>, k: nat) {
    && k < |records| && Yields(records[k])
    && forall j ::
         0 <= j < |records| && Yields(records[j]) && records[j].parsed.value.ip == records[k].parsed.value.ip ==>
         && records[j].parsed.value.feed.score <= records[k].parsed.value.feed.score
         && (j < k ==> records[j].parsed.value.feed.score < records[k].parsed.value.feed.score)
  }

  ghost predicate Listed(records: seq<Record>, node: Node) {
    exists k: nat :: Best(records, k) && records[k].parsed.value == node
  }

  /** The de-duplication of ParseCSV: the result, in any order, is the best node of every address, and nothing else. */
  method ParseCSV(records: seq<Record>) returns (nodes: Option<seq<Node>>)
    ensures nodes.None? <==> forall i :: 0 <= i < |records| ==> !Yields(records[i])
    ensures forall i :: 0 <= i < |records| ==>
              (Yields(records[i]) <==>
                 && 14 <= records[i].fields && !records[i].starred
                 && records[i].parsed.Some? && |records[i].parsed.value.feed.protocols| > 0)
    ensures nodes.None? ==> forall n :: !Listed(records, n)
    ensures nodes.Some? ==> DistinctIps(nodes.value)
    ensures nodes.Some? ==> forall n :: n in nodes.value <==> Listed(records, n)
    ensures nodes.Some? ==>
              forall i :: 0 <= i < |records| && Yields(records[i]) ==> records[i].parsed.value.ip in Ips(nodes.value)
  {
    var unique: map<Ip, Node> := map[];
    ghost var winner: map<Ip, nat> := map[];
    for i := 0 to |records|
      invariant Winners(records[..i], unique, winner)
    {
      assert records[..i + 1][..i] == records[..i];
      var r := records[i];
      WinnersStep(records, i, unique, winner);
      if 14 <= r.fields && !r.starred && r.parsed.Some? && r.parsed.value.feed.protocols != [] {
        var node := r.parsed.value;
        if node.ip !in unique || node.feed.score > unique[node.ip].feed.score {
          unique := unique[node.ip := node];
          winner := winner[node.ip := i];
        }
      }
    }
    assert records[..|records|] == records;
    var result := Values(unique);
    OneWinner(records, unique, winner, result);
    if result == [] {
      return None;
    }
    return Some(result);
  }

  /** The map holds, for every address seen, its best node so far. */
  ghost predicate Winners(records: seq<Record>, unique: map<Ip, Node>, winner: map<Ip, nat>) {
    && unique.Keys == winner.Keys
    && (forall ip :: ip in winner ==>
         Best(records, winner[ip]) && records[winner[ip]].parsed.value == unique[ip] && unique[ip].ip == ip)
    && (forall j :: 0 <= j < |records| && Yields(records[j]) ==> records[j].parsed.value.ip in unique)
  }

  lemma WinnersStep(records: seq<Record>, i: nat, unique: map<Ip, Node>, winner: map<Ip, nat>)
    requires i < |records| && Winners(records[..i], unique, winner)
    ensures var r := records[i];
            if !Yields(r) then Winners(records[..i + 1], unique, winner)
            else
              var n := r.parsed.value;
              if n.ip !in unique || n.feed.score > unique[n.ip].feed.score
              then Winners(records[..i + 1], unique[n.ip := n], winner[n.ip := i])
              else Winners(records[..i + 1], unique, winner)
  {
    var now := records[..i + 1];
    assert now[..i] == records[..i];
    assert forall j :: 0 <= j < i ==> now[j] == records[..i][j];
  }

  /** A Go map is ranged over in any order; this is one. */
  method Values(unique: map<Ip, Node>) returns (nodes: seq<Node>)
    requires forall ip :: ip in unique ==> unique[ip].ip == ip
    ensures DistinctIps(nodes) && Ips(nodes) == unique.Keys
    ensures forall i :: 0 <= i < |nodes| ==> nodes[i].ip in unique && nodes[i] == unique[nodes[i].ip]
  {
    nodes := [];
    var left := unique.Keys;
    while left != {}
      invariant left <= unique.Keys
      invariant DistinctIps(nodes) && Ips(nodes) == unique.Keys - left
      invariant forall i :: 0 <= i < |nodes| ==> nodes[i].ip in unique && nodes[i] == unique[nodes[i].ip]
      decreases |left|
    {
      var ip :| ip in left;
      NewIp(nodes, unique[ip]);
      nodes := nodes + [unique[ip]];
      left := left - {ip};
    }
  }

  lemma NewIp(nodes: seq<Node>, node: Node)
    requires DistinctIps(nodes) && node.ip !in Ips(nodes)
    ensures DistinctIps(nodes + [node]) && Ips(nodes + [node]) == Ips(nodes) + {node.ip}
  {
    IpsAppend(nodes, node);
    forall i | 0 <= i < |nodes| ensures nodes[i].ip != node.ip {
      assert nodes[i].ip in Ips(nodes);
    }
  }

  lemma OneWinner(records: seq<Record>, unique: map<Ip, Node>, winner: map<Ip, nat>, nodes: seq<Node>)
    requires Winners(records, unique, winner) && Ips(nodes) == unique.Keys
    requires forall i :: 0 <= i < |nodes| ==> nodes[i].ip in unique && nodes[i] == unique[nodes[i].ip]
    ensures forall n :: n in nodes <==> Listed(records, n)
    ensures nodes == [] <==> unique == map[]
    ensures unique == map[] <==> forall i :: 0 <= i < |records| ==> !Yields(records[i])
  {
    forall n | n in nodes ensures Listed(records, n) {
      assert Best(records, winner[n.ip]);
    }
    forall n | Listed(records, n) ensures n in nodes {
      var k: nat :| Best(records, k) && records[k].parsed.value == n;
      assert n.ip in unique && Best(records, winner[n.ip]);
      assert records[winner[n.ip]].parsed.value.ip == n.ip;
      assert winner[n.ip] == k;
      var i :| 0 <= i < |nodes| && nodes[i].ip == n.ip;
    }
    if unique != map[] {
      var ip :| ip in unique;
      assert Yields(records[winner[ip]]);
      assert ip in Ips(nodes);
    }
    if nodes != [] {
      assert nodes[0].ip in unique;
    }
  }

  /** The user's filter on one node: keep it, drop it, or fail. */
  datatype Verdict = Keep | Skip | FilterError

  /** The filter loop of Fetch: the kept nodes in order, or an error as soon as the filter fails on one. */
  method Filter(nodes: seq<Node>, verdict: Node -> Verdict) returns (kept: Option<seq<Node>>)
    ensures kept.None? <==> exists n :: n in nodes && verdict(n).FilterError?
    ensures kept.Some? ==> forall n :: n in kept.value <==> n in nodes && verdict(n).Keep?
    ensures kept.Some? && DistinctIps(nodes) ==> DistinctIps(kept.value)
  {
    var filtered: seq<Node> := [];
    for i := 0 to |nodes|
      invariant forall j :: 0 <= j < i ==> !verdict(nodes[j]).FilterError?
      invariant forall n :: n in filtered <==> n in nodes[..i] && verdict(n).Keep?
      invariant DistinctIps(nodes) ==> DistinctIps(filtered)
    {
      assert nodes[..i + 1] == nodes[..i] + [nodes[i]];
      match verdict(nodes[i])
      case FilterError =>
        return None;
      case Skip =>
      case Keep =>
        forall j | 0 <= j < |filtered| && DistinctIps(nodes) ensures filtered[j].ip != nodes[i].ip {
          assert filtered[j] in nodes[..i];
        }
        filtered := filtered + [nodes[i]];
    }
    assert nodes[..|nodes|] == nodes;
    return Some(filtered);
  }

  datatype Error = AlreadyRunning | Download | NoNodes | BadFilter | Database

  class Refresher {
    const store: Store
    /** mu, taken with TryLock. */
    var busy: bool
    var running: bool
    var lastErr: Option<Error>
    /** How often the follow-up ran. */
    var followUps: nat

    constructor (store: Store)
      ensures this.store == store && !busy && !running && lastErr == None && followUps == 0
    {
      this.store, busy, running, lastErr, followUps := store, false, false, None, 0;
    }

    /**
     Refresh. `body` is the downloaded list if the download succeeded, `fault` a database failure. A list that reaches
     the store always fits: only the database itself can make ReplaceNodes fail.
     */
    method Refresh(body: Option<seq<Record>>, verdict: Node -> Verdict, now: Time, activeIP: Ip, fault: bool)
      returns (err: Option<Error>, ghost nodes: seq<Node>)
      modifies this, store
      ensures err == Some(AlreadyRunning) <==> old(busy)
      ensures old(busy) ==> lastErr == old(lastErr) && running == old(running)
      ensures !old(busy) ==> !running && lastErr == err
      ensures busy == old(busy)
      ensures err.None? <==>
                && !old(busy) && body.Some? && !fault
                && (exists n :: Listed(body.value, n))
                && (forall n :: Listed(body.value, n) ==> !verdict(n).FilterError?)
      ensures err.None? ==>
                && DistinctIps(nodes)
                && (forall n :: n in nodes <==> Listed(body.value, n) && verdict(n).Keep?)
                && store.Contents() == Replaced(old(store.Contents()), nodes, now, activeIP)
      ensures err.Some? ==> store.Contents() == old(store.Contents())
      ensures followUps == old(followUps) + (if err.None? then 1 else 0)
    {
      nodes := [];
      if busy {
        return Some(AlreadyRunning), [];
      }
      Begin();
      err, nodes := Work(body, verdict, now, activeIP, fault);
      End(err);
    }

    method Begin()
      modifies this`busy, this`running, this`lastErr
      ensures busy && running && lastErr == None
    {
      busy, running, lastErr := true, true, None;
    }

    method End(err: Option<Error>)
      modifies this`busy, this`running, this`lastErr, this`followUps
      ensures !busy && !running && lastErr == err
      ensures followUps == old(followUps) + (if err.None? then 1 else 0)
    {
      if err.None? {
        followUps := followUps + 1;
      }
      busy, running, lastErr := false, false, err;
    }

    /** What happens to the table between the two state changes. */
    method Work(body: Option<seq<Record>>, verdict: Node -> Verdict, now: Time, activeIP: Ip, fault: bool)
      returns (err: Option<Error>, ghost nodes: seq<Node>)
      modifies store
      ensures err != Some(AlreadyRunning)
      ensures err.None? <==>
                && body.Some? && !fault
                && (exists n :: Listed(body.value, n))
                && (forall n :: Listed(body.value, n) ==> !verdict(n).FilterError?)
      ensures err.None? ==>
                && DistinctIps(nodes)
                && (forall n :: n in nodes <==> Listed(body.value, n) && verdict(n).Keep?)
                && store.Contents() == Replaced(old(store.Contents()), nodes, now, activeIP)
      ensures err.Some? ==> store.Contents() == old(store.Contents())
    {
      nodes := [];
      if body.None? {
        return Some(Download), [];
      }
      var parsed := ParseCSV(body.value);
      if parsed.None? {
        return Some(NoNodes), [];
      }
      assert parsed.value != [] && Listed(body.value, parsed.value[0]);
      var kept := Filter(parsed.value, verdict);
      if kept.None? {
        return Some(BadFilter), [];
      }
      nodes := kept.value;
      var ok := store.ReplaceNodes(kept.value, now, activeIP, fault);
      err := if ok then None else Some(Database);
    }
  }
}
