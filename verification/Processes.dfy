/** The two process-tree closures: `descendants` of `scripts/ci/hang-watch.ts`
    grows a set in rounds, `tree` of `bench/lib/proc.ts` walks down with a stack.
    Both are measured against reachability through the parent relation. */
module Processes {

  datatype Row = Row(pid: int, ppid: int)

  // ---- Reachability

  ghost predicate HasRow(rows: seq<Row>, pid: int) {
    exists i :: 0 <= i < |rows| && rows[i].pid == pid
  }

  ghost predicate Path(rows: seq<Row>, path: seq<int>) {
    forall i :: 0 <= i < |path| - 1 ==> Row(path[i + 1], path[i]) in rows
  }

  /** `pid` is `root`, or runs under it through a chain of parents. */
  ghost predicate Reach(rows: seq<Row>, root: int, pid: int) {
    exists path :: |path| >= 1 && path[0] == root && path[|path| - 1] == pid && Path(rows, path)
  }

  lemma ReachRoot(rows: seq<Row>, root: int)
    ensures Reach(rows, root, root)
  {
    assert Path(rows, [root]) && [root][|[root]| - 1] == root;
  }

  lemma ReachStep(rows: seq<Row>, root: int, row: Row)
    requires Reach(rows, root, row.ppid) && row in rows
    ensures Reach(rows, root, row.pid)
  {
    var path :| |path| >= 1 && path[0] == root && path[|path| - 1] == row.ppid && Path(rows, path);
    var longer := path + [row.pid];
    assert Path(rows, longer) && longer[|longer| - 1] == row.pid;
  }

  /** A set that holds the root and every child of its members holds all that is reachable. */
  lemma {:induction false} ClosedHoldsPath(rows: seq<Row>, ids: set<int>, path: seq<int>)
    requires |path| >= 1 && path[0] in ids && Path(rows, path)
    requires forall row :: row in rows && row.ppid in ids ==> row.pid in ids
    ensures path[|path| - 1] in ids
  {
    if |path| > 1 {
      var n := |path| - 1;
      assert Row(path[n - 1 + 1], path[n - 1]) in rows;
      ClosedHoldsPath(rows, ids, path[..n]);
    }
  }

  lemma ClosedHoldsReach(rows: seq<Row>, root: int, ids: set<int>)
    requires root in ids
    requires forall row :: row in rows && row.ppid in ids ==> row.pid in ids
    ensures forall pid :: Reach(rows, root, pid) ==> pid in ids
  {
    forall pid | Reach(rows, root, pid) ensures pid in ids {
      var path :| |path| >= 1 && path[0] == root && path[|path| - 1] == pid && Path(rows, path);
      ClosedHoldsPath(rows, ids, path);
    }
  }

  // ---- descendants

  function Select(rows: seq<Row>, ids: set<int>): seq<Row> {
    if rows == [] then []
    else (if rows[0].pid in ids then [rows[0]] else []) + Select(rows[1..], ids)
  }

  ghost predicate AreReachable(rows: seq<Row>, root: int, ids: set<int>) {
    forall pid :: pid in ids <==> Reach(rows, root, pid)
  }

  /** The rows of `rows`, in order, whose process is reachable from `root`. */
  ghost predicate IsDescendants(rows: seq<Row>, root: int, r: seq<Row>) {
    exists ids: set<int> :: AreReachable(rows, root, ids) && r == Select(rows, ids)
  }

  method Descendants(rows: seq<Row>, root: int) returns (r: seq<Row>)
    ensures IsDescendants(rows, root, r)
  {
    var ids := {root};
    ghost var universe := {root} + set row | row in rows :: row.pid;
    ReachRoot(rows, root);
    var grew := true;
    while grew
      invariant root in ids && ids <= universe
      invariant forall pid :: pid in ids ==> Reach(rows, root, pid)
      invariant !grew ==> forall row :: row in rows && row.ppid in ids ==> row.pid in ids
      decreases universe - ids, grew
    {
      grew := false;
      ghost var before := ids;
      for k := 0 to |rows|
        invariant before <= ids <= universe && (grew <==> ids != before)
        invariant forall pid :: pid in ids ==> Reach(rows, root, pid)
        invariant !grew ==> forall i :: 0 <= i < k && rows[i].ppid in ids ==> rows[i].pid in ids
      {
        var row := rows[k];
        if row.pid !in ids && row.ppid in ids && row.pid != row.ppid {
          ReachStep(rows, root, row);
          ids := ids + {row.pid};
          grew := true;
        }
      }
    }
    ClosedHoldsReach(rows, root, ids);
    assert AreReachable(rows, root, ids);
    r := Select(rows, ids);
  }

  // ---- tree

  /** A `Map` from pid to process: its keys in insertion order, each a process's own pid. */
  datatype Table = Table(order: seq<int>, info: map<int, Row>) {
    ghost predicate Valid() {
      && (forall pid :: pid in order <==> pid in info)
      && (forall i, j :: 0 <= i < j < |order| ==> order[i] != order[j])
      && (forall pid :: pid in info ==> info[pid].pid == pid)
    }

    function RowAt(i: nat): Row
      requires Valid() && i < |order|
    {
      var pid := order[i];
      assert pid in order && pid in info;
      info[pid]
    }

    /** `table.values()`. */
    function Rows(): (rows: seq<Row>)
      requires Valid()
      ensures |rows| == |order|
    {
      seq(|order|, i requires 0 <= i < |order| => RowAt(i))
    }

    lemma RowsAreInfo()
      requires Valid()
      ensures forall row :: row in Rows() <==> row.pid in info && info[row.pid] == row
    {
      forall row ensures row in Rows() <==> row.pid in info && info[row.pid] == row {
        if row in Rows() {
          var i :| 0 <= i < |order| && Rows()[i] == row;
          assert order[i] in order;
        }
        if row.pid in info && info[row.pid] == row {
          assert row.pid in order;
          var i :| 0 <= i < |order| && order[i] == row.pid;
          assert Rows()[i] == row;
        }
      }
    }
  }

  function Kids(children: map<int, seq<int>>, pid: int): seq<int> {
    if pid in children then children[pid] else []
  }

  method Children(rows: seq<Row>) returns (children: map<int, seq<int>>)
    ensures forall pid, kid :: kid in Kids(children, pid) <==> Row(kid, pid) in rows
  {
    children := map[];
    for k := 0 to |rows|
      invariant forall pid, kid :: kid in Kids(children, pid) <==> Row(kid, pid) in rows[..k]
    {
      var info := rows[k];
      assert rows[..k + 1] == rows[..k] + [Row(info.pid, info.ppid)];
      var list := Kids(children, info.ppid);
      children := children[info.ppid := list + [info.pid]];
    }
    assert rows[..|rows|] == rows;
  }

  ghost predicate DistinctRows(rows: seq<Row>) {
    forall i, j :: 0 <= i < j < |rows| ==> rows[i].pid != rows[j].pid
  }

  /** Exactly the reachable processes that have a row, each once; none when the root has no row. */
  ghost predicate IsTree(rows: seq<Row>, root: int, r: seq<Row>) {
    && DistinctRows(r)
    && forall row :: row in r <==> HasRow(rows, root) && row in rows && Reach(rows, root, row.pid)
  }

  /** The rows found so far are those of the pids seen, each once. */
  ghost predicate FoundAre(rows: seq<Row>, seen: set<int>, found: seq<Row>) {
    DistinctRows(found) && forall row :: row in found <==> row in rows && row.pid in seen
  }

  lemma FoundPush(table: Table, rows: seq<Row>, seen: set<int>, found: seq<Row>, pid: int)
    requires table.Valid() && FoundAre(rows, seen, found) && pid !in seen
    requires forall row :: row in rows <==> row.pid in table.info && table.info[row.pid] == row
    ensures FoundAre(rows, seen + {pid}, if pid in table.info then found + [table.info[pid]] else found)
  {
    if pid in table.info {
      assert forall row <- found :: row.pid != pid;
    }
  }

  /** The root, or a process under a root that has a row. */
  ghost predicate Under(table: Table, root: int, pid: int)
    requires table.Valid()
  {
    Reach(table.Rows(), root, pid) && (pid == root || (pid in table.info && root in table.info))
  }

  lemma UnderStep(table: Table, root: int, pid: int, kid: int)
    requires table.Valid() && Under(table, root, pid) && pid in table.info && Row(kid, pid) in table.Rows()
    ensures Under(table, root, kid)
  {
    table.RowsAreInfo();
    ReachStep(table.Rows(), root, Row(kid, pid));
  }

  /** A walk that has seen the root and the children of all it has seen has found the tree. */
  lemma WalkIsTree(table: Table, root: int, seen: set<int>, found: seq<Row>)
    requires table.Valid() && root in seen && FoundAre(table.Rows(), seen, found)
    requires forall pid <- seen :: Under(table, root, pid)
    requires KidsCovered(table.Rows(), table.info.Keys, seen, [])
    ensures IsTree(table.Rows(), root, found)
  {
    var rows := table.Rows();
    table.RowsAreInfo();
    if root in table.info {
      assert table.info[root] in rows;
      ClosedHoldsReach(rows, root, seen);
    } else {
      assert !HasRow(rows, root);
    }
  }

  /** The children of what has been seen are seen, or wait on the stack. */
  ghost predicate KidsCovered(rows: seq<Row>, pids: set<int>, seen: set<int>, stack: seq<int>) {
    forall row :: row in rows && row.ppid in seen && row.ppid in pids ==> row.pid in seen || row.pid in stack
  }

  lemma KidsPush(rows: seq<Row>, pids: set<int>, seen: set<int>, rest: seq<int>, current: int, kids: seq<int>)
    requires KidsCovered(rows, pids, seen, rest + [current])
    requires current in pids ==> forall kid :: Row(kid, current) in rows ==> kid in kids
    ensures KidsCovered(rows, pids, seen + {current}, rest + kids)
  {
    forall row | row in rows && row.ppid in seen + {current} && row.ppid in pids
      ensures row.pid in seen + {current} || row.pid in rest + kids
    {
      assert row == Row(row.pid, row.ppid);
      assert row.ppid == current || row.pid in seen || row.pid in rest + [current];
    }
  }

  /** What has been seen and what waits is in the tree, and what has been found is what has been seen. */
  ghost predicate Walking(table: Table, root: int, seen: set<int>, found: seq<Row>, stack: seq<int>)
    requires table.Valid()
  {
    && (forall pid :: pid in seen || pid in stack ==> Under(table, root, pid))
    && (root in seen || root in stack)
    && FoundAre(table.Rows(), seen, found)
    && KidsCovered(table.Rows(), table.info.Keys, seen, stack)
  }

  lemma SkipSeen(table: Table, root: int, seen: set<int>, found: seq<Row>, rest: seq<int>, current: int)
    requires table.Valid() && Walking(table, root, seen, found, rest + [current]) && current in seen
    ensures Walking(table, root, seen, found, rest)
  {
    assert forall pid :: pid in rest + [current] <==> pid in rest || pid == current;
  }

  lemma VisitKeeps(table: Table, root: int, seen: set<int>, found: seq<Row>, rest: seq<int>, current: int,
                   kids: seq<int>)
    requires table.Valid() && Walking(table, root, seen, found, rest + [current]) && current !in seen
    requires forall kid :: kid in kids <==> current in table.info && Row(kid, current) in table.Rows()
    ensures Walking(table, root, seen + {current},
                    if current in table.info then found + [table.info[current]] else found, rest + kids)
  {
    table.RowsAreInfo();
    assert forall pid :: pid in rest + [current] <==> pid in rest || pid == current;
    FoundPush(table, table.Rows(), seen, found, current);
    KidsPush(table.Rows(), table.info.Keys, seen, rest, current, kids);
    forall kid | kid in kids ensures Under(table, root, kid) {
      UnderStep(table, root, current, kid);
    }
  }

  method Tree(root: int, table: Table) returns (found: seq<Row>)
    requires table.Valid()
    ensures IsTree(table.Rows(), root, found)
  {
    var children := Children(table.Rows());
    found := [];
    var seen: set<int> := {};
    var stack := [root];
    ReachRoot(table.Rows(), root);
    assert Under(table, root, root);
    ghost var universe := {root} + table.info.Keys;
    while |stack| > 0
      invariant seen <= universe && Walking(table, root, seen, found, stack)
      decreases universe - seen, |stack|
    {
      var current := stack[|stack| - 1];
      ghost var before := stack;
      stack := stack[..|stack| - 1];
      assert before == stack + [current];
      if current in seen {
        SkipSeen(table, root, seen, found, stack, current);
        continue;
      }
      assert current in before && Under(table, root, current);
      var kids := if current in table.info then Kids(children, current) else [];
      VisitKeeps(table, root, seen, found, stack, current, kids);
      seen := seen + {current};
      if current !in table.info {
        assert stack + kids == stack;
        continue;
      }
      found := found + [table.info[current]];
      stack := stack + kids;
    }
    WalkIsTree(table, root, seen, found);
  }

  // ---- The two closures agree

  lemma {:induction false} SelectHolds(rows: seq<Row>, ids: set<int>, row: Row)
    ensures row in Select(rows, ids) <==> row in rows && row.pid in ids
  {
    if rows != [] {
      assert rows == [rows[0]] + rows[1..];
      SelectHolds(rows[1..], ids, row);
    }
  }

  lemma {:induction false} SelectDistinct(rows: seq<Row>, ids: set<int>)
    requires DistinctRows(rows)
    ensures DistinctRows(Select(rows, ids))
  {
    if rows != [] {
      SelectDistinct(rows[1..], ids);
      var rest := Select(rows[1..], ids);
      forall i | 0 <= i < |rest| ensures rest[i].pid != rows[0].pid {
        SelectHolds(rows[1..], ids, rest[i]);
        var j :| 0 <= j < |rows[1..]| && rows[1..][j] == rest[i];
        assert rows[1..][j] == rows[j + 1];
      }
    }
  }

  lemma {:induction false} DistinctCount(rows: seq<Row>, row: Row)
    requires DistinctRows(rows)
    ensures multiset(rows)[row] == if row in rows then 1 else 0
  {
    if rows != [] {
      assert rows == [rows[0]] + rows[1..];
      DistinctCount(rows[1..], row);
    }
  }

  lemma SameRows(a: seq<Row>, b: seq<Row>)
    requires DistinctRows(a) && DistinctRows(b)
    ensures multiset(a) == multiset(b) <==> forall row :: row in a <==> row in b
  {
    if forall row :: row in a <==> row in b {
      forall row ensures multiset(a)[row] == multiset(b)[row] {
        DistinctCount(a, row);
        DistinctCount(b, row);
      }
    }
    if multiset(a) == multiset(b) {
      forall row ensures row in a <==> row in b {
        assert row in a <==> row in multiset(a);
        assert row in b <==> row in multiset(b);
      }
    }
  }

  /** Where pids are distinct, `descendants` and `tree` list the same processes
      exactly when the root is listed itself or nothing names it as its parent. */
  lemma ClosuresAgree(rows: seq<Row>, root: int, d: seq<Row>, t: seq<Row>)
    requires DistinctRows(rows) && IsDescendants(rows, root, d) && IsTree(rows, root, t)
    ensures multiset(d) == multiset(t) <==> HasRow(rows, root) || forall row :: row in rows ==> row.ppid != root
  {
    var ids: set<int> :| AreReachable(rows, root, ids) && d == Select(rows, ids);
    SelectDistinct(rows, ids);
    SameRows(d, t);
    forall row ensures row in d <==> row in rows && Reach(rows, root, row.pid) {
      SelectHolds(rows, ids, row);
    }
    if !HasRow(rows, root) {
      if row :| row in rows && row.ppid == root {
        ReachRoot(rows, root);
        ReachStep(rows, root, row);
        assert row in d && row !in t;
      } else {
        ClosedHoldsReach(rows, root, {root});
      }
    }
  }
}
