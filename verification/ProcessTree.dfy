/** Which processes belong to a managed browser: a depth-first walk over a process table that may
    contain parent cycles and repeated pids (internal/browser/managed.go). */
module ProcessTree {

  /** `matches` says that the command line names the managed profile and a fitting debugging port. */
  datatype Snapshot = Snapshot(pid: int, parent: int, matches: bool)

  datatype Role = Root | Descendant

  datatype Evidence = Evidence(pid: int, parent: int, root: int, role: Role)

  // ------------------------------------------------------------- what is to be found

  predicate InTable(table: seq<Snapshot>, pid: int) {
    exists s | s in table :: s.pid == pid
  }

  predicate IsChild(table: seq<Snapshot>, parent: int, pid: int) {
    exists s | s in table :: s.parent == parent && s.pid == pid
  }

  predicate IsRoot(table: seq<Snapshot>, pid: int) {
    exists s | s in table :: s.pid == pid && s.matches
  }

  /** A way down the table through positive pids. */
  ghost predicate Way(table: seq<Snapshot>, way: seq<int>) {
    && way != []
    && (forall i | 0 <= i < |way| :: way[i] > 0)
    && (forall i, k | 0 <= i < |way| - 1 && k == i + 1 :: IsChild(table, way[i], way[k]))
  }

  ghost predicate Reaches(table: seq<Snapshot>, from: int, pid: int) {
    exists way :: Way(table, way) && way[0] == from && way[|way| - 1] == pid
  }

  predicate Start(table: seq<Snapshot>, tracked: seq<int>, pid: int) {
    pid > 0 && (IsRoot(table, pid) || (pid in tracked && InTable(table, pid)))
  }

  ghost predicate Belongs(table: seq<Snapshot>, tracked: seq<int>, pid: int) {
    exists start :: Start(table, tracked, start) && Reaches(table, start, pid)
  }

  lemma ReachesSelf(table: seq<Snapshot>, pid: int)
    requires pid > 0
    ensures Reaches(table, pid, pid)
  {
    assert Way(table, [pid]) && [pid][0] == pid && [pid][|[pid]| - 1] == pid;
  }

  lemma ReachesChild(table: seq<Snapshot>, from: int, pid: int, child: int)
    requires Reaches(table, from, pid) && IsChild(table, pid, child) && child > 0
    ensures Reaches(table, from, child)
  {
    var way :| Way(table, way) && way[0] == from && way[|way| - 1] == pid;
    var longer := way + [child];
    assert Way(table, longer) && longer[0] == from && longer[|longer| - 1] == child;
  }

  /** `seen` leads nowhere but to itself and `also`. */
  ghost predicate Closed(table: seq<Snapshot>, seen: set<int>, also: set<int>) {
    forall pid, child | pid in seen && child > 0 && IsChild(table, pid, child) :: child in seen || child in also
  }

  /** What was closed before and what has been added since are closed together. */
  lemma ClosedJoins(table: seq<Snapshot>, first: set<int>, mid: set<int>, last: set<int>)
    requires first <= mid <= last
    requires Closed(table, mid - first, mid) && Closed(table, last - mid, last)
    ensures Closed(table, last - first, last)
  {
    forall pid, child | pid in last - first && child > 0 && IsChild(table, pid, child) ensures child in last {
      if pid in mid {
        assert pid in mid - first;
      }
    }
  }

  lemma ClosedOnTop(table: seq<Snapshot>, before: set<int>, after: set<int>)
    requires before <= after && Closed(table, before, {}) && Closed(table, after - before, after)
    ensures Closed(table, after, {})
  {
    forall pid, child | pid in after && child > 0 && IsChild(table, pid, child) ensures child in after {
      if pid in before {
        assert child in before;
      }
    }
  }

  lemma ClosedWith(table: seq<Snapshot>, some: set<int>, pid: int, seen: set<int>, below: seq<Snapshot>)
    requires Closed(table, some, seen) && below == Below(table, pid)
    requires forall j | 0 <= j < |below| :: below[j].pid > 0 ==> below[j].pid in seen
    ensures Closed(table, some + {pid}, seen)
  {
    BelowIsChildren(table, pid);
    forall child | child > 0 && IsChild(table, pid, child) ensures child in seen {
      var s :| s in table && s.parent == pid && s.pid == child;
      assert s in below;
    }
  }

  lemma {:induction false} ClosedHoldsWay(table: seq<Snapshot>, seen: set<int>, way: seq<int>)
    requires Closed(table, seen, {}) && Way(table, way) && way[0] in seen
    ensures way[|way| - 1] in seen
    decreases |way|
  {
    if |way| > 1 {
      assert IsChild(table, way[0], way[1]);
      ClosedHoldsWay(table, seen, way[1..]);
    }
  }

  // ------------------------------------------------------------------- the walk

  /** The snapshots with this parent, in table order. */
  function Below(table: seq<Snapshot>, parent: int): seq<Snapshot>
    decreases |table|
  {
    if table == [] then []
    else
      var last := table[|table| - 1];
      Below(table[..|table| - 1], parent) + if last.parent == parent then [last] else []
  }

  lemma {:induction false} BelowIsChildren(table: seq<Snapshot>, parent: int)
    ensures forall s :: s in Below(table, parent) <==> s in table && s.parent == parent
    decreases |table|
  {
    if table != [] {
      BelowIsChildren(table[..|table| - 1], parent);
      assert table == table[..|table| - 1] + [table[|table| - 1]];
    }
  }

  function Kids(children: map<int, seq<Snapshot>>, parent: int): seq<Snapshot> {
    if parent in children then children[parent] else []
  }

  method GroupByParent(table: seq<Snapshot>) returns (children: map<int, seq<Snapshot>>)
    ensures forall p :: Kids(children, p) == Below(table, p)
  {
    children := map[];
    var k := 0;
    while k < |table|
      invariant k <= |table|
      invariant forall p :: Kids(children, p) == Below(table[..k], p)
    {
      var s := table[k];
      assert table[..k + 1][..k] == table[..k] && table[..k + 1][k] == s;
      children := children[s.parent := Kids(children, s.parent) + [s]];
      k := k + 1;
    }
    assert table[..k] == table;
  }

  function Pids(evidence: seq<Evidence>): seq<int> {
    seq(|evidence|, k requires 0 <= k < |evidence| => evidence[k].pid)
  }

  ghost predicate Distinct(pids: seq<int>) {
    forall i, j | 0 <= i < j < |pids| :: pids[i] != pids[j]
  }

  class Walk {
    const table: seq<Snapshot>
    const children: map<int, seq<Snapshot>>
    var seen: set<int>
    var evidence: seq<Evidence>

    ghost function TablePids(): set<int> {
      set s | s in table :: s.pid
    }

    ghost predicate Valid()
      reads this
    {
      && (forall p :: Kids(children, p) == Below(table, p))
      && seen <= TablePids()
      && (forall p | p in seen :: p > 0 && p in Pids(evidence))
      && (forall p | p in Pids(evidence) :: p in seen)
      && Distinct(Pids(evidence))
      && (forall e | e in evidence :: Reaches(table, e.root, e.pid) && (e.role == Root ==> e.pid == e.root))
    }

    constructor (table: seq<Snapshot>, children: map<int, seq<Snapshot>>)
      requires forall p :: Kids(children, p) == Below(table, p)
      ensures this.table == table && Valid() && seen == {} && evidence == []
    {
      this.table, this.children, seen, evidence := table, children, {}, [];
    }

    method Note(s: Snapshot, root: int, role: Role)
      requires Valid() && s in table && s.pid > 0 && s.pid !in seen && Reaches(table, root, s.pid)
      requires role == Root ==> s.pid == root
      modifies this
      ensures Valid() && seen == old(seen) + {s.pid}
      ensures evidence == old(evidence) + [Evidence(s.pid, s.parent, root, role)]
    {
      seen := seen + {s.pid};
      evidence := evidence + [Evidence(s.pid, s.parent, root, role)];
      assert Pids(evidence) == old(Pids(evidence)) + [s.pid];
    }

    /** Visit a process and everything below it that was not seen yet. */
    method Visit(s: Snapshot, root: int, role: Role)
      requires Valid() && s in table && (s.pid > 0 ==> Reaches(table, root, s.pid)) && (role == Root ==> s.pid == root)
      modifies this
      ensures Valid() && old(seen) <= seen && (s.pid > 0 ==> s.pid in seen)
      ensures Closed(table, seen - old(seen), seen)
      ensures forall e | e in evidence :: e in old(evidence) || e.root == root
      decreases TablePids() - seen, 0
    {
      if s.pid <= 0 || s.pid in seen {
        return;
      }
      Note(s, root, role);
      VisitBelow(s.pid, root);
    }

    method VisitBelow(pid: int, root: int)
      requires Valid() && Reaches(table, root, pid)
      modifies this
      ensures Valid() && old(seen) <= seen
      ensures Closed(table, seen - old(seen) + {pid}, seen)
      ensures forall e | e in evidence :: e in old(evidence) || e.root == root
      decreases TablePids() - seen, 2
    {
      var below := Kids(children, pid);
      BelowIsChildren(table, pid);
      var k := 0;
      while k < |below|
        invariant k <= |below|
        invariant Valid() && old(seen) <= seen
        invariant forall j | 0 <= j < k :: below[j].pid > 0 ==> below[j].pid in seen
        invariant Closed(table, seen - old(seen), seen)
        invariant forall e | e in evidence :: e in old(evidence) || e.root == root
      {
        assert below[k] in below;
        ghost var mid := seen;
        VisitChild(pid, below[k], root);
        ClosedJoins(table, old(seen), mid, seen);
        k := k + 1;
      }
      ClosedWith(table, seen - old(seen), pid, seen, below);
    }

    method VisitChild(pid: int, child: Snapshot, root: int)
      requires Valid() && Reaches(table, root, pid) && child in table && child.parent == pid
      modifies this
      ensures Valid() && old(seen) <= seen && (child.pid > 0 ==> child.pid in seen)
      ensures Closed(table, seen - old(seen), seen)
      ensures forall e | e in evidence :: e in old(evidence) || e.root == root
      decreases TablePids() - seen, 1
    {
      if child.pid > 0 {
        assert IsChild(table, pid, child.pid);
        ReachesChild(table, root, pid, child.pid);
      }
      Visit(child, root, Descendant);
    }
  }

  /** Exactly the positive pids that can be reached from a matching process, or from a tracked one that
      still runs, each of them once, in whatever order the tracked ones are taken. */
  method ProcessTreeEvidence(table: seq<Snapshot>, tracked: seq<int>) returns (pids: seq<int>, evidence: seq<Evidence>)
    ensures Distinct(pids) && pids == Pids(evidence)
    ensures forall p :: p in pids <==> Belongs(table, tracked, p)
    ensures forall e | e in evidence :: Start(table, tracked, e.root) && Reaches(table, e.root, e.pid)
  {
    var children := GroupByParent(table);
    var walk := new Walk(table, children);
    WalkRoots(walk, tracked);
    WalkTracked(walk, tracked);
    evidence := walk.evidence;
    pids := Pids(evidence);
    forall p ensures p in pids <==> Belongs(table, tracked, p) {
      if p in pids {
        assert exists k :: 0 <= k < |evidence| && evidence[k].pid == p;
        var k :| 0 <= k < |evidence| && evidence[k].pid == p;
        assert evidence[k] in evidence;
      }
      if Belongs(table, tracked, p) {
        BelongingIsSeen(table, tracked, walk.seen, p);
      }
    }
  }

  lemma BelongingIsSeen(table: seq<Snapshot>, tracked: seq<int>, seen: set<int>, p: int)
    requires Closed(table, seen, {}) && Belongs(table, tracked, p)
    requires RootsSeen(table, |table|, seen)
    requires forall t | t > 0 && t in tracked && InTable(table, t) :: t in seen
    ensures p in seen
  {
    var start :| Start(table, tracked, start) && Reaches(table, start, p);
    var way :| Way(table, way) && way[0] == start && way[|way| - 1] == p;
    if IsRoot(table, start) {
      var s :| s in table && s.pid == start && s.matches;
      var j :| 0 <= j < |table| && table[j] == s;
    }
    ClosedHoldsWay(table, seen, way);
  }

  /** Every process is seen that the first `k` rows match. */
  ghost predicate RootsSeen(table: seq<Snapshot>, k: nat, seen: set<int>)
    requires k <= |table|
  {
    forall j | 0 <= j < k :: table[j].matches && table[j].pid > 0 ==> table[j].pid in seen
  }

  method WalkRoots(walk: Walk, ghost tracked: seq<int>)
    requires walk.Valid() && walk.seen == {} && walk.evidence == []
    modifies walk
    ensures walk.Valid() && Closed(walk.table, walk.seen, {}) && RootsSeen(walk.table, |walk.table|, walk.seen)
    ensures forall e | e in walk.evidence :: Start(walk.table, tracked, e.root)
  {
    var k := 0;
    while k < |walk.table|
      invariant k <= |walk.table|
      invariant walk.Valid() && Closed(walk.table, walk.seen, {}) && RootsSeen(walk.table, k, walk.seen)
      invariant forall e | e in walk.evidence :: Start(walk.table, tracked, e.root)
    {
      VisitRoot(walk, k, tracked);
      k := k + 1;
    }
  }

  method VisitRoot(walk: Walk, k: nat, ghost tracked: seq<int>)
    requires k < |walk.table| && walk.Valid() && Closed(walk.table, walk.seen, {})
    requires RootsSeen(walk.table, k, walk.seen)
    requires forall e | e in walk.evidence :: Start(walk.table, tracked, e.root)
    modifies walk
    ensures walk.Valid() && Closed(walk.table, walk.seen, {}) && old(walk.seen) <= walk.seen
    ensures RootsSeen(walk.table, k + 1, walk.seen)
    ensures forall e | e in walk.evidence :: Start(walk.table, tracked, e.root)
  {
    var s := walk.table[k];
    if s.matches && s.pid > 0 {
      ReachesSelf(walk.table, s.pid);
      assert IsRoot(walk.table, s.pid);
      walk.Visit(s, s.pid, Root);
      ClosedOnTop(walk.table, old(walk.seen), walk.seen);
    }
  }

  method LastWithPid(table: seq<Snapshot>, pid: int) returns (k: int)
    ensures -1 <= k < |table| && (k >= 0 <==> InTable(table, pid)) && (k >= 0 ==> table[k].pid == pid)
  {
    k := |table| - 1;
    while k >= 0 && table[k].pid != pid
      invariant -1 <= k < |table|
      invariant forall j | k < j < |table| :: table[j].pid != pid
    {
      k := k - 1;
    }
  }

  method WalkTracked(walk: Walk, tracked: seq<int>)
    requires walk.Valid() && Closed(walk.table, walk.seen, {})
    requires forall e | e in walk.evidence :: Start(walk.table, tracked, e.root)
    modifies walk
    ensures walk.Valid() && old(walk.seen) <= walk.seen && Closed(walk.table, walk.seen, {})
    ensures forall p | p > 0 && p in tracked && InTable(walk.table, p) :: p in walk.seen
    ensures forall e | e in walk.evidence :: Start(walk.table, tracked, e.root)
  {
    var k := 0;
    while k < |tracked|
      invariant k <= |tracked| && old(walk.seen) <= walk.seen
      invariant walk.Valid() && Closed(walk.table, walk.seen, {})
      invariant forall p | p > 0 && p in tracked[..k] && InTable(walk.table, p) :: p in walk.seen
      invariant forall e | e in walk.evidence :: Start(walk.table, tracked, e.root)
    {
      var pid := tracked[k];
      var row := LastWithPid(walk.table, pid);
      if pid > 0 && row >= 0 {
        ghost var before := walk.seen;
        ReachesSelf(walk.table, pid);
        walk.Visit(walk.table[row], pid, Descendant);
        ClosedOnTop(walk.table, before, walk.seen);
      }
      assert tracked[..k + 1] == tracked[..k] + [pid];
      k := k + 1;
    }
  }
}
