/** The Store object of internal/store/store.go, and what a run of its operations does to the node table. */
module NodeStore {
  import opened Basics
  import opened NodeTable

  datatype Entry = Entry(ip: Ip, row: Row)

  /** INSERT INTO nodes SELECT: refused as a whole when two entries share the primary key. */
  predicate UniqueKeys(entries: seq<Entry>) {
    forall i, j :: 0 <= i < j < |entries| ==> entries[i].ip != entries[j].ip
  }

  function Inserted(entries: seq<Entry>): map<Ip, Row> {
    if entries == [] then map[]
    else Inserted(entries[..|entries| - 1])[entries[|entries| - 1].ip := entries[|entries| - 1].row]
  }

  function Gathered(rows: map<Ip, Row>, nodes: seq<Node>, t: Time): seq<Entry> {
    seq(|nodes|, i requires 0 <= i < |nodes| => Entry(nodes[i].ip, Carry(rows, nodes[i], t)))
  }

  lemma {:induction false} InsertedIsIncoming(rows: map<Ip, Row>, nodes: seq<Node>, t: Time)
    ensures Inserted(Gathered(rows, nodes, t)) == Incoming(rows, nodes, t)
  {
    if nodes != [] {
      var front := nodes[..|nodes| - 1];
      assert Gathered(rows, nodes, t)[..|nodes| - 1] == Gathered(rows, front, t);
      InsertedIsIncoming(rows, front, t);
    }
  }

  lemma {:induction false} InsertedKeys(entries: seq<Entry>)
    ensures forall ip :: ip in Inserted(entries) <==> exists i :: 0 <= i < |entries| && entries[i].ip == ip
  {
    if entries != [] {
      var front := entries[..|entries| - 1];
      assert entries == front + [entries[|entries| - 1]];
      InsertedKeys(front);
      forall ip | ip in Inserted(entries) ensures exists i :: 0 <= i < |entries| && entries[i].ip == ip {
        if ip == entries[|entries| - 1].ip {
          assert entries[|entries| - 1].ip == ip;
        } else {
          assert ip in Inserted(front);
          var i :| 0 <= i < |front| && front[i].ip == ip;
          assert entries[i].ip == ip;
        }
      }
      forall i | 0 <= i < |entries| ensures entries[i].ip in Inserted(entries) {
        if i < |front| {
          assert front[i].ip in Inserted(front);
        }
      }
    }
  }

  class Store {
    var rows: map<Ip, Row>
    var lastRefresh: Option<Time>

    function Contents(): Db
      reads this
    {
      Db(rows, lastRefresh)
    }

    constructor ()
      ensures Contents() == Db(map[], None)
    {
      rows, lastRefresh := map[], None;
    }

    /** One transaction: it stores everything or, on a duplicate key or any failing statement, changes nothing. */
    method ReplaceNodes(nodes: seq<Node>, refreshedAt: Time, preserveIP: Ip, fault: bool) returns (ok: bool)
      modifies this
      ensures ok <==> DistinctIps(nodes) && !fault
      ensures Contents() == if ok then Replaced(old(Contents()), nodes, refreshedAt, preserveIP) else old(Contents())
    {
      var incoming: seq<Entry> := [];
      for i := 0 to |nodes|
        invariant |incoming| == i
        invariant incoming == Gathered(rows, nodes, refreshedAt)[..i]
      {
        var row :=
          if nodes[i].ip in rows then rows[nodes[i].ip].(feed := nodes[i].feed, refreshedAt := refreshedAt)
          else Row(nodes[i].feed, 0, None, false, None, "", refreshedAt);
        incoming := incoming + [Entry(nodes[i].ip, row)];
      }
      assert incoming == Gathered(rows, nodes, refreshedAt);
      ghost var listed := incoming;
      var present := Holds(incoming, preserveIP);
      if preserveIP != "" && preserveIP in rows && !present {
        incoming := incoming + [Entry(preserveIP, rows[preserveIP])];
        assert incoming[..|listed|] == listed;
      }
      InsertedIsIncoming(rows, nodes, refreshedAt);
      InsertedKeys(listed);
      PreservingKeepsKeys(nodes, listed, incoming);
      var table, unique := Insert(incoming);
      ok := unique && !fault;
      if ok {
        rows, lastRefresh := table, Some(refreshedAt);
      }
    }

    method DeleteNodeIfStale(ip: Ip)
      modifies this`rows
      ensures Contents() == DeleteIfStale(old(Contents()), ip)
      ensures rows == if ip in old(rows) && lastRefresh.Some? && old(rows)[ip].refreshedAt != lastRefresh.value
                      then old(rows) - {ip} else old(rows)
    {
      if ip in rows && lastRefresh.Some? && rows[ip].refreshedAt != lastRefresh.value {
        rows := rows - {ip};
      }
    }

    method MarkFailure(ip: Ip, reason: string, now: Time)
      modifies this`rows
      ensures Contents() == NodeTable.MarkFailure(old(Contents()), ip, reason, now)
      ensures rows.Keys == old(rows).Keys && lastRefresh == old(lastRefresh)
      ensures forall other :: other in rows && other != ip ==> rows[other] == old(rows)[other]
      ensures ip in rows ==> rows[ip] == old(rows)[ip].(lastFailure := Some(now), failureReason := reason)
    {
      if ip in rows {
        rows := rows[ip := rows[ip].(lastFailure := Some(now), failureReason := reason)];
      }
    }

    method SaveMeasurement(ip: Ip, bitsPerSecond: int, now: Time)
      modifies this`rows
      ensures rows.Keys == old(rows).Keys && lastRefresh == old(lastRefresh)
      ensures forall other :: other in rows && other != ip ==> rows[other] == old(rows)[other]
      ensures ip in rows ==>
                var row, was := rows[ip], old(rows)[ip];
                && row.measuredBps == bitsPerSecond && row.measuredAt == Some(now) && row.testFailed == false
                && row.feed == was.feed && row.refreshedAt == was.refreshedAt
                && row.lastFailure == was.lastFailure && row.failureReason == was.failureReason
      ensures Contents() == Measure(old(Contents()), ip, Some(bitsPerSecond), now)
    {
      if ip in rows {
        rows := rows[ip := rows[ip].(measuredBps := bitsPerSecond, measuredAt := Some(now), testFailed := false)];
      }
    }

    method SaveMeasurementFailure(ip: Ip, now: Time)
      modifies this`rows
      ensures rows.Keys == old(rows).Keys && lastRefresh == old(lastRefresh)
      ensures forall other :: other in rows && other != ip ==> rows[other] == old(rows)[other]
      ensures ip in rows ==>
                var row, was := rows[ip], old(rows)[ip];
                && row.measuredBps == 0 && row.measuredAt == Some(now) && row.testFailed == true
                && row.feed == was.feed && row.refreshedAt == was.refreshedAt
                && row.lastFailure == was.lastFailure && row.failureReason == was.failureReason
      ensures Contents() == Measure(old(Contents()), ip, None, now)
    {
      if ip in rows {
        rows := rows[ip := rows[ip].(measuredBps := 0, measuredAt := Some(now), testFailed := true)];
      }
    }
  }

  method Holds(entries: seq<Entry>, ip: Ip) returns (found: bool)
    ensures found <==> exists i :: 0 <= i < |entries| && entries[i].ip == ip
  {
    found := false;
    for i := 0 to |entries|
      invariant found <==> exists j :: 0 <= j < i && entries[j].ip == ip
    {
      found := found || entries[i].ip == ip;
    }
  }

  /** Row by row into an empty table with a primary key. */
  method Insert(entries: seq<Entry>) returns (table: map<Ip, Row>, ok: bool)
    ensures ok <==> UniqueKeys(entries)
    ensures ok ==> table == Inserted(entries)
  {
    table := map[];
    for i := 0 to |entries|
      invariant UniqueKeys(entries[..i]) && table == Inserted(entries[..i])
    {
      InsertedKeys(entries[..i]);
      assert entries[..i + 1][..i] == entries[..i];
      if entries[i].ip in table {
        var j :| 0 <= j < i && entries[..i][j].ip == entries[i].ip;
        assert entries[j].ip == entries[i].ip;
        return table, false;
      }
      forall j | 0 <= j < i ensures entries[j].ip != entries[i].ip {
        assert entries[..i][j].ip in table;
      }
      table := table[entries[i].ip := entries[i].row];
    }
    assert entries[..|entries|] == entries;
    ok := true;
  }

  /** The preserved row never causes a duplicate key: only the downloaded list can. */
  lemma PreservingKeepsKeys(nodes: seq<Node>, listed: seq<Entry>, all: seq<Entry>)
    requires |listed| == |nodes| && forall i :: 0 <= i < |nodes| ==> listed[i].ip == nodes[i].ip
    requires all == listed
             || exists e: Entry :: all == listed + [e] && forall i :: 0 <= i < |listed| ==> listed[i].ip != e.ip
    ensures UniqueKeys(all) <==> DistinctIps(nodes)
  {
    assert all == listed || (|all| == |listed| + 1 && all[..|listed|] == listed
                             && forall i :: 0 <= i < |listed| ==> listed[i].ip != all[|listed|].ip);
    assert forall i :: 0 <= i < |nodes| ==> all[i].ip == nodes[i].ip;
  }

  function Measure(db: Db, ip: Ip, bps: Option<int>, now: Time): Db {
    if ip in db.rows
    then db.(rows := db.rows[ip := db.rows[ip].(measuredBps := if bps.Some? then bps.value else 0,
                                                measuredAt := Some(now), testFailed := bps.None?)])
    else db
  }

  // ----- runs of the store -----

  datatype Op =
    | Refresh(nodes: seq<Node>, at: Time, preserve: Ip)
    | Drop(ip: Ip)
    | Fail(ip: Ip, reason: string, at: Time)
    | Saved(ip: Ip, bps: Option<int>, at: Time)

  function Apply(db: Db, op: Op): Db {
    match op
    case Refresh(nodes, at, preserve) => if DistinctIps(nodes) then Replaced(db, nodes, at, preserve) else db
    case Drop(ip) => DeleteIfStale(db, ip)
    case Fail(ip, reason, at) => NodeTable.MarkFailure(db, ip, reason, at)
    case Saved(ip, bps, at) => Measure(db, ip, bps, at)
  }

  function Run(db: Db, ops: seq<Op>): Db
    decreases |ops|
  {
    if ops == [] then db else Run(Apply(db, ops[0]), ops[1..])
  }

  /** What the last refresh was told to preserve. */
  function LastPreserved(preserved: Ip, ops: seq<Op>): Ip
    decreases |ops|
  {
    if ops == [] then preserved
    else LastPreserved(if ops[0].Refresh? && DistinctIps(ops[0].nodes) then ops[0].preserve else preserved, ops[1..])
  }

  ghost predicate OnlyStale(db: Db, ip: Ip) { forall other :: Stale(db, other) ==> other == ip }

  /** The whole table after a refresh: the listed nodes, and the preserved row unchanged if the list lacks it. */
  lemma RefreshSemantics(db: Db, nodes: seq<Node>, t: Time, preserve: Ip)
    requires DistinctIps(nodes)
    ensures var r := Replaced(db, nodes, t, preserve);
            var kept := preserve != "" && preserve in db.rows && preserve !in Ips(nodes);
            && r.lastRefresh == Some(t)
            && r.rows.Keys == Ips(nodes) + (if kept then {preserve} else {})
            && (kept ==> r.rows[preserve] == db.rows[preserve])
            && (forall i :: 0 <= i < |nodes| ==>
                 var row := r.rows[nodes[i].ip];
                 && row.feed == nodes[i].feed && row.refreshedAt == t
                 && (nodes[i].ip in db.rows ==>
                      var was := db.rows[nodes[i].ip];
                      && row.measuredBps == was.measuredBps && row.measuredAt == was.measuredAt
                      && row.testFailed == was.testFailed
                      && row.lastFailure == was.lastFailure && row.failureReason == was.failureReason)
                 && (nodes[i].ip !in db.rows ==>
                      && row.measuredBps == 0 && row.measuredAt.None? && !row.testFailed
                      && row.lastFailure.None? && row.failureReason == ""))
            && (forall ip :: Stale(r, ip) <==> kept && ip == preserve && db.rows[ip].refreshedAt != t)
  {
    IncomingIs(db.rows, nodes, t);
    var r := Replaced(db, nodes, t, preserve);
    forall i | 0 <= i < |nodes| ensures nodes[i].ip in r.rows && r.rows[nodes[i].ip] == Carry(db.rows, nodes[i], t) {
      assert nodes[i].ip in Ips(nodes);
    }
    forall ip | ip in r.rows && ip in Ips(nodes) ensures r.rows[ip].refreshedAt == t {
      var i :| 0 <= i < |nodes| && nodes[i].ip == ip;
    }
  }

  /** Nothing but a refresh adds or removes rows, other than dropping a stale one, and nothing else changes the feed. */
  lemma OtherOpsKeepTheList(db: Db, op: Op)
    requires !op.Refresh?
    ensures var r := Apply(db, op);
            && r.lastRefresh == db.lastRefresh && r.rows.Keys <= db.rows.Keys
            && (forall ip :: ip in db.rows && ip !in r.rows ==> op == Drop(ip) && Stale(db, ip))
            && (forall ip :: ip in r.rows ==>
                 r.rows[ip].feed == db.rows[ip].feed && r.rows[ip].refreshedAt == db.rows[ip].refreshedAt)
  {
  }

  lemma StaleStep(db: Db, op: Op, preserved: Ip)
    requires OnlyStale(db, preserved)
    ensures OnlyStale(Apply(db, op), if op.Refresh? && DistinctIps(op.nodes) then op.preserve else preserved)
  {
    hide DeleteIfStale, NodeTable.MarkFailure, Measure, Replaced;
    if op.Refresh? && DistinctIps(op.nodes) {
      RefreshSemantics(db, op.nodes, op.at, op.preserve);
    } else if !op.Refresh? {
      OtherOpsKeepTheList(db, op);
      assert forall ip :: Stale(Apply(db, op), ip) ==> Stale(db, ip);
    }
  }

  /** Over any run the only row that can be stale is the one the last refresh preserved. */
  lemma {:induction false} AtMostOneStale(db: Db, ops: seq<Op>, preserved: Ip)
    requires OnlyStale(db, preserved)
    ensures OnlyStale(Run(db, ops), LastPreserved(preserved, ops))
    decreases |ops|
  {
    if ops != [] {
      var next := if ops[0].Refresh? && DistinctIps(ops[0].nodes) then ops[0].preserve else preserved;
      StaleStep(db, ops[0], preserved);
      AtMostOneStale(Apply(db, ops[0]), ops[1..], next);
    }
  }

  /** So a node switch after any run from an empty table can drop the preserved row and no other. */
  lemma SwitchDropsOnlyTheStaleRow(ops: seq<Op>, ip: Ip)
    ensures var db := Run(Db(map[], None), ops);
            var after := DeleteIfStale(db, ip);
            && (forall other :: other in db.rows && other != LastPreserved("", ops) ==>
                 other in after.rows && after.rows[other] == db.rows[other])
            && (ip in db.rows && ip !in after.rows <==> Stale(db, ip))
  {
    AtMostOneStale(Db(map[], None), ops, "");
  }

  /** Measurements and failures of a node survive any number of refreshes as long as each lists or preserves it. */
  predicate AlwaysKept(db: Db, ops: seq<Op>, ip: Ip)
    decreases |ops|
  {
    ops != [] ==>
      && ops[0].Refresh?
      && (DistinctIps(ops[0].nodes) ==> ip in Ips(ops[0].nodes) || (ip != "" && ops[0].preserve == ip))
      && AlwaysKept(Apply(db, ops[0]), ops[1..], ip)
  }

  lemma {:induction false} HistorySurvivesRefreshes(db: Db, ops: seq<Op>, ip: Ip)
    requires ip in db.rows && AlwaysKept(db, ops, ip)
    ensures ip in Run(db, ops).rows
    ensures var row, was := Run(db, ops).rows[ip], db.rows[ip];
            && row.measuredBps == was.measuredBps && row.measuredAt == was.measuredAt
            && row.testFailed == was.testFailed
            && row.lastFailure == was.lastFailure && row.failureReason == was.failureReason
    decreases |ops|
  {
    if ops != [] {
      if DistinctIps(ops[0].nodes) {
        RefreshSemantics(db, ops[0].nodes, ops[0].at, ops[0].preserve);
        if ip in Ips(ops[0].nodes) {
          var i :| 0 <= i < |ops[0].nodes| && ops[0].nodes[i].ip == ip;
        }
      }
      HistorySurvivesRefreshes(Apply(db, ops[0]), ops[1..], ip);
    }
  }

  /** The row is there after every operation of the run. */
  predicate NeverLost(db: Db, ops: seq<Op>, ip: Ip)
    decreases |ops|
  {
    ip in db.rows && (ops != [] ==> NeverLost(Apply(db, ops[0]), ops[1..], ip))
  }

  /** What the program knows about a node: the last speed test, and the last failure. */
  datatype Knowledge = Knowledge(
    bps: int, measuredAt: Option<Time>, testFailed: bool, lastFailure: Option<Time>, reason: string)

  function KnowledgeOf(row: Row): Knowledge {
    Knowledge(row.measuredBps, row.measuredAt, row.testFailed, row.lastFailure, row.failureReason)
  }

  /** What the operations themselves report about a node, the later ones over the earlier. */
  function Learned(known: Knowledge, ops: seq<Op>, ip: Ip): Knowledge
    decreases |ops|
  {
    if ops == [] then known
    else
      var next :=
        match ops[0]
        case Saved(q, bps, at) =>
          if q != ip then known
          else known.(bps := if bps.Some? then bps.value else 0, measuredAt := Some(at), testFailed := bps.None?)
        case Fail(q, reason, at) => if q != ip then known else known.(lastFailure := Some(at), reason := reason)
        case _ => known;
      Learned(next, ops[1..], ip)
  }

  /**
   For as long as its row is never lost, a node shows the last speed test and the last failure recorded for it, whatever
   refreshes, node switches and other nodes' results came in between.
   */
  lemma {:induction false} RowsShowTheLastResults(db: Db, ops: seq<Op>, ip: Ip)
    requires NeverLost(db, ops, ip)
    ensures ip in Run(db, ops).rows
    ensures KnowledgeOf(Run(db, ops).rows[ip]) == Learned(KnowledgeOf(db.rows[ip]), ops, ip)
    decreases |ops|
  {
    if ops != [] {
      var op := ops[0];
      if op.Refresh? && DistinctIps(op.nodes) {
        RefreshSemantics(db, op.nodes, op.at, op.preserve);
        if ip in Ips(op.nodes) {
          var i :| 0 <= i < |op.nodes| && op.nodes[i].ip == ip;
        }
      }
      RowsShowTheLastResults(Apply(db, op), ops[1..], ip);
    }
  }
}
