/** The node table of internal/store/store.go as a value, and what each statement on it leaves behind. */
module NodeTable {
  import opened Basics

  /** The columns that come from the downloaded list. */
  datatype Feed = Feed(host: string, port: int, score: int, protocols: seq<string>)

  datatype Node = Node(ip: Ip, feed: Feed)

  /** One stored row: the downloaded columns, then what the program itself learned about the node. */
  datatype Row = Row(
    feed: Feed,
    measuredBps: int, measuredAt: Option<Time>, testFailed: bool,
    lastFailure: Option<Time>, failureReason: string,
    refreshedAt: Time)

  /** The nodes table keyed by its primary key, and the last_refresh metadata row. */
  datatype Db = Db(rows: map<Ip, Row>, lastRefresh: Option<Time>)

  /** A stored row is stale when it did not come from the last refresh; an absent last_refresh makes nothing stale. */
  predicate Stale(db: Db, ip: Ip) {
    ip in db.rows && db.lastRefresh.Some? && db.rows[ip].refreshedAt != db.lastRefresh.value
  }

  function DeleteIfStale(db: Db, ip: Ip): Db {
    if Stale(db, ip) then db.(rows := db.rows - {ip}) else db
  }

  function MarkFailure(db: Db, ip: Ip, reason: string, now: Time): Db {
    if ip in db.rows
    then db.(rows := db.rows[ip := db.rows[ip].(lastFailure := Some(now), failureReason := reason)])
    else db
  }

  /** A downloaded node stored at time t keeps the measurements and failures recorded for its address. */
  function Carry(rows: map<Ip, Row>, node: Node, t: Time): Row {
    if node.ip in rows then rows[node.ip].(feed := node.feed, refreshedAt := t)
    else Row(node.feed, 0, None, false, None, "", t)
  }

  predicate DistinctIps(nodes: seq<Node>) {
    forall i, j :: 0 <= i < j < |nodes| ==> nodes[i].ip != nodes[j].ip
  }

  function Ips(nodes: seq<Node>): set<Ip> {
    set i | 0 <= i < |nodes| :: nodes[i].ip
  }

  function Incoming(rows: map<Ip, Row>, nodes: seq<Node>, t: Time): map<Ip, Row> {
    if nodes == [] then map[]
    else Incoming(rows, nodes[..|nodes| - 1], t)[nodes[|nodes| - 1].ip := Carry(rows, nodes[|nodes| - 1], t)]
  }

  /** The table a successful ReplaceNodes leaves: the new nodes, plus the preserved row when the list lacks it. */
  function Replaced(db: Db, nodes: seq<Node>, t: Time, preserve: Ip): Db {
    var incoming := Incoming(db.rows, nodes, t);
    Db(if preserve != "" && preserve in db.rows && preserve !in incoming
       then incoming[preserve := db.rows[preserve]] else incoming,
       Some(t))
  }

  lemma {:induction false} IncomingIs(rows: map<Ip, Row>, nodes: seq<Node>, t: Time)
    requires DistinctIps(nodes)
    ensures Incoming(rows, nodes, t).Keys == Ips(nodes)
    ensures forall i :: 0 <= i < |nodes| ==> Incoming(rows, nodes, t)[nodes[i].ip] == Carry(rows, nodes[i], t)
  {
    if nodes != [] {
      hide Carry;
      var front, last := nodes[..|nodes| - 1], nodes[|nodes| - 1];
      assert nodes == front + [last];
      IncomingIs(rows, front, t);
      IpsAppend(front, last);
    }
  }

  lemma IpsAppend(nodes: seq<Node>, node: Node)
    ensures Ips(nodes + [node]) == Ips(nodes) + {node.ip}
  {
    var all := nodes + [node];
    assert forall i :: 0 <= i < |nodes| ==> all[i] == nodes[i];
    assert all[|nodes|] == node;
  }
}
