/** The process-tree closures of benchmarks/isolation_baseline.py, benchmarks/memory_scaling.py and
    scripts/go_fixture_campaign.py: a loop that grows a set of pids until no row adds one. */
module ProcessTree {
  import opened Wrappers

  /** A row of ps. Nothing is assumed of a table: pids may repeat and parents may form cycles. */
  datatype Row = Row(pid: int, ppid: int, rss: int, cpu: real)

  datatype Sample = Sample(rssBytes: int, cpuSeconds: real)

  // ---------- reachability ----------

  predicate Edge(rows: seq<Row>, excluded: Option<int>, a: int, b: int) {
    excluded != Some(b) && exists k :: 0 <= k < |rows| && rows[k].ppid == a && rows[k].pid == b
  }

  ghost predicate IsPath(rows: seq<Row>, excluded: Option<int>, path: seq<int>) {
    |path| > 0 && forall i | 0 <= i < |path| - 1 :: Edge(rows, excluded, path[i], path[i + 1])
  }

  /** `pid` is the root, or a descendant of it along edges that never enter the excluded pid. */
  ghost predicate Reachable(rows: seq<Row>, excluded: Option<int>, root: int, pid: int) {
    exists path :: IsPath(rows, excluded, path) && path[0] == root && path[|path| - 1] == pid
  }

  function Pids(rows: seq<Row>): set<int> { set r | r in rows :: r.pid }

  function Children(rows: seq<Row>, excluded: Option<int>, selected: set<int>): set<int> {
    set r | r in rows && r.ppid in selected && excluded != Some(r.pid) :: r.pid
  }

  lemma RootReachable(rows: seq<Row>, excluded: Option<int>, root: int)
    ensures Reachable(rows, excluded, root, root)
  {
    assert IsPath(rows, excluded, [root]);
  }

  lemma ChildReachable(rows: seq<Row>, excluded: Option<int>, root: int, a: int, b: int)
    requires Reachable(rows, excluded, root, a) && Edge(rows, excluded, a, b)
    ensures Reachable(rows, excluded, root, b)
  {
    var path :| IsPath(rows, excluded, path) && path[0] == root && path[|path| - 1] == a;
    var longer := path + [b];
    assert forall i | 0 <= i < |longer| - 1 :: Edge(rows, excluded, longer[i], longer[i + 1]);
    assert IsPath(rows, excluded, longer);
  }

  /** A set that contains the root and all children of its members contains every path from the root. */
  lemma {:induction false} ClosedSetHoldsPath(rows: seq<Row>, excluded: Option<int>, closed: set<int>, path: seq<int>)
    requires IsPath(rows, excluded, path) && path[0] in closed
    requires Children(rows, excluded, closed) <= closed
    ensures path[|path| - 1] in closed
    decreases |path|
  {
    if |path| > 1 {
      assert Edge(rows, excluded, path[0], path[1]);
      assert path[1] in Children(rows, excluded, closed);
      var rest := path[1..];
      forall i | 0 <= i < |rest| - 1
        ensures Edge(rows, excluded, rest[i], rest[i + 1])
      {
        assert Edge(rows, excluded, path[i + 1], path[i + 1 + 1]);
      }
      ClosedSetHoldsPath(rows, excluded, closed, path[1..]);
    }
  }

  // ---------- the loop ----------

  /** The loop that all three scripts contain. */
  method Closure(rows: seq<Row>, root: int, excluded: Option<int>) returns (selected: set<int>)
    ensures forall pid :: pid in selected <==> Reachable(rows, excluded, root, pid)
  {
    selected := {root};
    RootReachable(rows, excluded, root);
    while true
      invariant root in selected
      invariant selected <= Pids(rows) + {root}
      invariant forall pid | pid in selected :: Reachable(rows, excluded, root, pid)
      decreases Pids(rows) + {root} - selected
    {
      var children := Children(rows, excluded, selected);
      if children <= selected { break; }
      forall pid | pid in children
        ensures Reachable(rows, excluded, root, pid)
      {
        var r :| r in rows && r.ppid in selected && excluded != Some(r.pid) && r.pid == pid;
        assert Edge(rows, excluded, r.ppid, pid);
        ChildReachable(rows, excluded, root, r.ppid, pid);
      }
      ghost var added :| added in children && added !in selected;
      assert added in Pids(rows) + {root} - selected;
      selected := selected + children;
    }
    forall pid | Reachable(rows, excluded, root, pid)
      ensures pid in selected
    {
      var path :| IsPath(rows, excluded, path) && path[0] == root && path[|path| - 1] == pid;
      ClosedSetHoldsPath(rows, excluded, selected, path);
    }
  }

  // ---------- the three results ----------

  /** Row k is the last one for its pid: the one a dictionary keeps. */
  predicate LastFor(rows: seq<Row>, k: nat, pid: int) {
    k < |rows| && rows[k].pid == pid && forall j | k < j < |rows| :: rows[j].pid != pid
  }

  /** isolation_baseline.py: samples of the descendants, without the parent and without the sampling process. */
  method DescendantValues(rows: seq<Row>, parent: int, excluded: int) returns (values: map<int, Sample>)
    ensures forall pid :: pid in values <==>
              pid != parent && pid != excluded && Reachable(rows, Some(excluded), parent, pid)
    ensures forall pid | pid in values ::
              exists k: nat :: LastFor(rows, k, pid) && values[pid] == Sample(rows[k].rss * 1024, rows[k].cpu)
  {
    var selected := Closure(rows, parent, Some(excluded));
    values := map[];
    for k := 0 to |rows|
      invariant forall pid :: pid in values <==>
                  pid in selected && pid != parent && pid != excluded && exists j :: 0 <= j < k && rows[j].pid == pid
      invariant forall pid | pid in values ::
                  exists j: nat :: LastFor(rows[..k], j, pid) && values[pid] == Sample(rows[j].rss * 1024, rows[j].cpu)
    {
      var r := rows[k];
      assert rows[..k + 1] == rows[..k] + [r];
      assert LastFor(rows[..k + 1], k, r.pid);
      assert forall pid, j: nat | pid != r.pid && LastFor(rows[..k], j, pid) :: LastFor(rows[..k + 1], j, pid);
      if r.pid in selected && r.pid != parent && r.pid != excluded {
        values := values[r.pid := Sample(r.rss * 1024, r.cpu)];
      }
    }
    assert rows[..|rows|] == rows;
    forall pid | pid in selected && pid != parent
      ensures exists j :: 0 <= j < |rows| && rows[j].pid == pid
    {
      ReachableHasRow(rows, Some(excluded), parent, pid);
    }
  }

  lemma ReachableHasRow(rows: seq<Row>, excluded: Option<int>, root: int, pid: int)
    requires Reachable(rows, excluded, root, pid) && pid != root
    ensures exists j :: 0 <= j < |rows| && rows[j].pid == pid
    ensures excluded != Some(pid)
  {
    var path :| IsPath(rows, excluded, path) && path[0] == root && path[|path| - 1] == pid;
    assert Edge(rows, excluded, path[|path| - 2], path[|path| - 2 + 1]);
  }

  /** memory_scaling.py: members are the selected rows other than its own. The sampling process needs no test of
      its own there: it is never selected, unless it is the parent. */
  method MemberValues(rows: seq<Row>, self: int, sampler: int) returns (values: map<int, int>)
    ensures forall pid :: pid in values <==>
              pid != self && pid != sampler && Reachable(rows, Some(sampler), self, pid)
    ensures forall pid | pid in values :: exists k: nat :: LastFor(rows, k, pid) && values[pid] == rows[k].rss * 1024
  {
    var selected := Closure(rows, self, Some(sampler));
    values := RssOf(rows, selected - {self});
    forall pid | pid in selected && pid != self
      ensures pid != sampler && exists j :: 0 <= j < |rows| && rows[j].pid == pid
    {
      ReachableHasRow(rows, Some(sampler), self, pid);
    }
  }

  /** go_fixture_campaign.py: the whole family with the root itself, nothing excluded. */
  method FamilyValues(rows: seq<Row>, root: int) returns (values: map<int, int>)
    ensures forall pid :: pid in values <==>
              Reachable(rows, None, root, pid) && exists j :: 0 <= j < |rows| && rows[j].pid == pid
    ensures forall pid | pid in values :: exists k: nat :: LastFor(rows, k, pid) && values[pid] == rows[k].rss * 1024
  {
    var family := Closure(rows, root, None);
    values := RssOf(rows, family);
  }

  method RssOf(rows: seq<Row>, wanted: set<int>) returns (values: map<int, int>)
    ensures forall pid :: pid in values <==> pid in wanted && exists j :: 0 <= j < |rows| && rows[j].pid == pid
    ensures forall pid | pid in values :: exists k: nat :: LastFor(rows, k, pid) && values[pid] == rows[k].rss * 1024
  {
    values := map[];
    for k := 0 to |rows|
      invariant forall pid :: pid in values <==> pid in wanted && exists j :: 0 <= j < k && rows[j].pid == pid
      invariant forall pid | pid in values ::
                  exists j: nat :: LastFor(rows[..k], j, pid) && values[pid] == rows[j].rss * 1024
    {
      var r := rows[k];
      assert rows[..k + 1] == rows[..k] + [r];
      assert LastFor(rows[..k + 1], k, r.pid);
      assert forall pid, j: nat | pid != r.pid && LastFor(rows[..k], j, pid) :: LastFor(rows[..k + 1], j, pid);
      if r.pid in wanted { values := values[r.pid := r.rss * 1024]; }
    }
    assert rows[..|rows|] == rows;
  }

  // ---------- when the exclusion matters ----------

  lemma LooseningKeepsPaths(rows: seq<Row>, excluded: int, root: int, pid: int)
    requires Reachable(rows, Some(excluded), root, pid)
    ensures Reachable(rows, None, root, pid)
  {
    var path :| IsPath(rows, Some(excluded), path) && path[0] == root && path[|path| - 1] == pid;
    forall i | 0 <= i < |path| - 1
      ensures Edge(rows, None, path[i], path[i + 1])
    {
      assert Edge(rows, Some(excluded), path[i], path[i + 1]);
    }
    assert IsPath(rows, None, path);
  }

  lemma {:induction false} PathAvoids(rows: seq<Row>, excluded: int, path: seq<int>)
    requires IsPath(rows, None, path)
    requires excluded == path[0] || !Reachable(rows, None, path[0], excluded)
    ensures Reachable(rows, Some(excluded), path[0], path[|path| - 1])
    decreases |path|
  {
    var last := path[|path| - 1];
    if last == path[0] {
      RootReachable(rows, Some(excluded), path[0]);
    } else {
      var shorter := path[..|path| - 1];
      forall i | 0 <= i < |shorter| - 1
        ensures Edge(rows, None, shorter[i], shorter[i + 1])
      {
        assert Edge(rows, None, path[i], path[i + 1]);
      }
      PathAvoids(rows, excluded, shorter);
      assert Edge(rows, None, path[|path| - 2], path[|path| - 2 + 1]);
      assert Reachable(rows, None, path[0], last);
      ChildReachable(rows, Some(excluded), path[0], path[|path| - 2], last);
    }
  }

  /** The copies of the loop with and without an exclusion compute the same set exactly when the excluded pid is
      the root or is no descendant of it. */
  lemma ExclusionIsIdleIff(rows: seq<Row>, root: int, excluded: int)
    ensures (forall pid :: Reachable(rows, Some(excluded), root, pid) <==> Reachable(rows, None, root, pid))
       <==> excluded == root || !Reachable(rows, None, root, excluded)
  {
    if excluded == root || !Reachable(rows, None, root, excluded) {
      forall pid
        ensures Reachable(rows, Some(excluded), root, pid) <==> Reachable(rows, None, root, pid)
      {
        if Reachable(rows, Some(excluded), root, pid) { LooseningKeepsPaths(rows, excluded, root, pid); }
        if Reachable(rows, None, root, pid) {
          var path :| IsPath(rows, None, path) && path[0] == root && path[|path| - 1] == pid;
          PathAvoids(rows, excluded, path);
        }
      }
    } else if Reachable(rows, Some(excluded), root, excluded) {
      ReachableHasRow(rows, Some(excluded), root, excluded);
    }
  }
}
