/** Compaction of the process history: which terminal rows a registry may forget
    (internal/browser/managed.go). */
module Compaction {
  import opened Basics
  import opened Registry

  /** Times and ages in nanoseconds. */
  const DEFAULT_RETENTION := 24 * 3600 * 1_000_000_000
  const DEFAULT_TAIL := 8

  datatype Reason =
    | ActiveGeneration
    | LiveProcess
    | MissingIdentity
    | NotTerminal(lifecycle: Lifecycle)
    | MissingTime
    | FutureTime

  datatype Context = Context(live: set<int>, active: GenerationId, now: int, retention: int, tail: int)

  /** A row that may be forgotten, by its place in the registry. */
  datatype Item = Item(index: nat, time: int)

  datatype Fate = InFuture | Kept | Forgotten

  datatype Summary = Summary(lifecycles: multiset<Lifecycle>, skipped: multiset<Reason>, retained: nat, compacted: nat)

  function Retention(c: Context): int {
    if c.retention <= 0 then DEFAULT_RETENTION else c.retention
  }

  function Tail(c: Context): int {
    if c.tail <= 0 then DEFAULT_TAIL else c.tail
  }

  /** Why a row is not even looked at, if so. */
  function Skip(c: Context, r: Row): Option<Reason> {
    var g := GenerationOf(r);
    if g != NoGeneration && g == c.active then Some(ActiveGeneration)
    else if r.pid in c.live && (c.active == NoGeneration || g == c.active) then Some(LiveProcess)
    else if g == NoGeneration then Some(MissingIdentity)
    else if LifecycleOf(r) != IsExited && LifecycleOf(r) != IsSuperseded then Some(NotTerminal(LifecycleOf(r)))
    else if TimeOf(r) == ZERO_TIME then Some(MissingTime)
    else None
  }

  /** A row may be forgotten when it is of a known generation that is not the active one, does not
      belong to a live process while none is known to be active, is in a terminal state, and has a time. */
  lemma SkipsNoneExactly(c: Context, r: Row)
    ensures Skip(c, r) == None <==>
              && GenerationOf(r) != NoGeneration && GenerationOf(r) != c.active
              && (c.active == NoGeneration ==> r.pid !in c.live)
              && (|| r.state == Exited || r.state == Stopped || r.state == Reaped || r.state == LaunchFailed
                  || r.state == Superseded)
              && TimeOf(r) != ZERO_TIME
  {
    LifecycleTells(r);
  }

  /** Why any other row is not looked at: the first of these that applies. */
  lemma SkipTells(c: Context, r: Row)
    ensures
      var g := GenerationOf(r);
      && (Skip(c, r) == Some(ActiveGeneration) <==> g != NoGeneration && g == c.active)
      && (Skip(c, r) == Some(LiveProcess) <==> r.pid in c.live && c.active == NoGeneration)
      && (Skip(c, r) == Some(MissingIdentity) <==> g == NoGeneration && !(r.pid in c.live && c.active == NoGeneration))
  {
  }

  function Candidates(c: Context, rows: seq<Row>): seq<Item>
    decreases |rows|
  {
    if rows == [] then []
    else
      var k := |rows| - 1;
      Candidates(c, rows[..k]) + if Skip(c, rows[k]) == None then [Item(k, TimeOf(rows[k]))] else []
  }

  // ------------------------------------------------- the stable order, newest first

  /** Put a later item behind every one that is as new. */
  function Insert(x: Item, sorted: seq<Item>): seq<Item>
    decreases |sorted|
  {
    if sorted == [] || sorted[0].time < x.time then [x] + sorted else [sorted[0]] + Insert(x, sorted[1..])
  }

  function NewestFirst(items: seq<Item>): seq<Item>
    decreases |items|
  {
    if items == [] then [] else Insert(items[|items| - 1], NewestFirst(items[..|items| - 1]))
  }

  ghost predicate Descending(s: seq<Item>) {
    forall i, j | 0 <= i < j < |s| :: s[i].time >= s[j].time
  }

  lemma {:induction false} InsertMembers(x: Item, s: seq<Item>)
    ensures forall y :: y in Insert(x, s) <==> y == x || y in s
    ensures |Insert(x, s)| == |s| + 1
    decreases |s|
  {
    if s != [] && s[0].time >= x.time {
      InsertMembers(x, s[1..]);
    }
  }

  lemma {:induction false} InsertDescends(x: Item, s: seq<Item>)
    requires Descending(s)
    ensures Descending(Insert(x, s))
    decreases |s|
  {
    if s != [] && s[0].time >= x.time {
      InsertDescends(x, s[1..]);
      InsertMembers(x, s[1..]);
      var rest := Insert(x, s[1..]);
      forall k | 0 <= k < |rest| ensures s[0].time >= rest[k].time {
        assert rest[k] in rest;
      }
    }
  }

  /** Sorting keeps the candidates and puts newer ones first. */
  lemma {:induction false} NewestFirstSorts(items: seq<Item>)
    ensures Descending(NewestFirst(items)) && |NewestFirst(items)| == |items|
    ensures forall x :: x in NewestFirst(items) <==> x in items
    decreases |items|
  {
    if items != [] {
      var k := |items| - 1;
      NewestFirstSorts(items[..k]);
      InsertDescends(items[k], NewestFirst(items[..k]));
      InsertMembers(items[k], NewestFirst(items[..k]));
      assert items == items[..k] + [items[k]];
    }
  }

  // ------------------------------------------------------------- what is forgotten

  function FateOf(c: Context, rank: nat, time: int): Fate {
    if c.now < time then InFuture
    else if rank >= Tail(c) || c.now - time > Retention(c) then Forgotten
    else Kept
  }

  /** Along the newest-first list the future comes first, then what is kept, then what is forgotten. */
  lemma FatesInOrder(c: Context, s: seq<Item>, i: nat, j: nat)
    requires Descending(s) && i < j < |s|
    ensures FateOf(c, i, s[i].time) == Forgotten ==> FateOf(c, j, s[j].time) == Forgotten
    ensures FateOf(c, j, s[j].time) == InFuture ==> FateOf(c, i, s[i].time) == InFuture
  {
  }

  /** How many candidates survive: the length of the part that is not forgotten. */
  function Survivors(c: Context, s: seq<Item>): (n: nat)
    ensures n <= |s|
    ensures forall k | 0 <= k < n :: FateOf(c, k, s[k].time) != Forgotten
    ensures n < |s| ==> FateOf(c, n, s[n].time) == Forgotten
  {
    SurvivorsFrom(c, s, 0)
  }

  function SurvivorsFrom(c: Context, s: seq<Item>, from: nat): (n: nat)
    requires from <= |s|
    ensures from <= n <= |s|
    ensures forall k | from <= k < n :: FateOf(c, k, s[k].time) != Forgotten
    ensures n < |s| ==> FateOf(c, n, s[n].time) == Forgotten
    decreases |s| - from
  {
    if from == |s| || FateOf(c, from, s[from].time) == Forgotten then from else SurvivorsFrom(c, s, from + 1)
  }

  /** The places of the rows with this fate among the first `n` of the sorted list. */
  function PlacesWith(c: Context, s: seq<Item>, n: nat, fate: Fate): set<nat>
    requires n <= |s|
  {
    set k | 0 <= k < n && FateOf(c, k, s[k].time) == fate :: s[k].index
  }

  function ForgottenPlaces(c: Context, s: seq<Item>, n: nat): set<nat>
    requires n <= |s|
  {
    PlacesWith(c, s, n, Forgotten)
  }

  function Without(rows: seq<Row>, places: set<nat>): seq<Row>
    decreases |rows|
  {
    if rows == [] then []
    else
      var k := |rows| - 1;
      Without(rows[..k], places) + if k in places then [] else [rows[k]]
  }

  function Compacted(c: Context, rows: seq<Row>): seq<Row> {
    var sorted := NewestFirst(Candidates(c, rows));
    Without(rows, ForgottenPlaces(c, sorted, |sorted|))
  }

  // ------------------------------------------------------------ forgetting twice

  function Times(items: seq<Item>): seq<int> {
    seq(|items|, k requires 0 <= k < |items| => items[k].time)
  }

  /** The items whose place is not given. */
  function Drop(items: seq<Item>, places: set<nat>): seq<Item>
    decreases |items|
  {
    if items == [] then []
    else (if items[0].index in places then [] else [items[0]]) + Drop(items[1..], places)
  }

  lemma {:induction false} DropAppend(items: seq<Item>, x: Item, places: set<nat>)
    ensures Drop(items + [x], places) == Drop(items, places) + if x.index in places then [] else [x]
    decreases |items|
  {
    if items == [] {
      assert [x][1..] == [];
    } else {
      assert (items + [x])[1..] == items[1..] + [x];
      DropAppend(items[1..], x, places);
    }
  }

  lemma {:induction false} DropMembers(items: seq<Item>, places: set<nat>)
    ensures forall y | y in Drop(items, places) :: y in items
    decreases |items|
  {
    if items != [] {
      DropMembers(items[1..], places);
    }
  }

  lemma {:induction false} DropInsert(x: Item, s: seq<Item>, places: set<nat>)
    requires Descending(s)
    ensures Drop(Insert(x, s), places) == if x.index in places then Drop(s, places) else Insert(x, Drop(s, places))
    decreases |s|
  {
    if s == [] {
      assert [x][1..] == [];
    } else if s[0].time < x.time {
      assert ([x] + s)[1..] == s;
      DropMembers(s, places);
      var kept := Drop(s, places);
      assert kept != [] ==> kept[0] in s;
    } else {
      DropInsert(x, s[1..], places);
      assert ([s[0]] + Insert(x, s[1..]))[1..] == Insert(x, s[1..]);
      DropInsertFront(x, s, places);
    }
  }

  lemma DropInsertFront(x: Item, s: seq<Item>, places: set<nat>)
    requires Descending(s) && s != [] && s[0].time >= x.time
    ensures
      (if s[0].index in places then [] else [s[0]]) + Insert(x, Drop(s[1..], places)) == Insert(x, Drop(s, places))
  {
    if s[0].index !in places {
      assert ([s[0]] + Drop(s[1..], places))[1..] == Drop(s[1..], places);
    } else {
      assert Drop(s, places) == Drop(s[1..], places);
    }
  }

  lemma SortAppend(items: seq<Item>, x: Item)
    ensures NewestFirst(items + [x]) == Insert(x, NewestFirst(items))
  {
    assert (items + [x])[..|items|] == items;
  }

  lemma {:induction false} DropSorted(items: seq<Item>, places: set<nat>)
    ensures NewestFirst(Drop(items, places)) == Drop(NewestFirst(items), places)
    decreases |items|
  {
    if items != [] {
      var k := |items| - 1;
      assert items == items[..k] + [items[k]];
      DropAppend(items[..k], items[k], places);
      DropSorted(items[..k], places);
      NewestFirstSorts(items[..k]);
      DropInsert(items[k], NewestFirst(items[..k]), places);
      SortAppend(items[..k], items[k]);
      SortAppend(Drop(items[..k], places), items[k]);
      assert items[k].index in places ==> Drop(items, places) == Drop(items[..k], places);
    }
  }

  lemma {:induction false} TimesInsert(x: Item, y: Item, a: seq<Item>, b: seq<Item>)
    requires x.time == y.time && Times(a) == Times(b)
    ensures Times(Insert(x, a)) == Times(Insert(y, b))
    decreases |a|
  {
    assert |a| == |Times(a)| == |b|;
    if a != [] {
      assert a[0].time == Times(a)[0] == b[0].time;
      TimesTail(a);
      TimesTail(b);
      if a[0].time >= x.time {
        TimesInsert(x, y, a[1..], b[1..]);
        TimesAppend([a[0]], Insert(x, a[1..]));
        TimesAppend([b[0]], Insert(y, b[1..]));
      } else {
        TimesAppend([x], a);
        TimesAppend([y], b);
      }
    }
  }

  lemma TimesAppend(a: seq<Item>, b: seq<Item>)
    ensures Times(a + b) == Times(a) + Times(b)
  {
  }

  lemma TimesTail(a: seq<Item>)
    requires a != []
    ensures Times(a[1..]) == Times(a)[1..] && Times(a[..|a| - 1]) == Times(a)[..|a| - 1]
  {
  }

  lemma {:induction false} TimesSort(a: seq<Item>, b: seq<Item>)
    requires Times(a) == Times(b)
    ensures Times(NewestFirst(a)) == Times(NewestFirst(b))
    decreases |a|
  {
    assert |a| == |Times(a)| == |b|;
    if a != [] {
      TimesTail(a);
      TimesTail(b);
      TimesSort(a[..|a| - 1], b[..|b| - 1]);
      assert a[|a| - 1].time == Times(a)[|a| - 1] == b[|b| - 1].time;
      TimesInsert(a[|a| - 1], b[|b| - 1], NewestFirst(a[..|a| - 1]), NewestFirst(b[..|b| - 1]));
    }
  }

  /** Forgetting rows leaves exactly the other candidates. */
  lemma {:induction false} CandidatesWithout(c: Context, rows: seq<Row>, places: set<nat>)
    ensures Times(Candidates(c, Without(rows, places))) == Times(Drop(Candidates(c, rows), places))
    decreases |rows|
  {
    if rows != [] {
      var k := |rows| - 1;
      CandidatesWithout(c, rows[..k], places);
      var rest := Without(rows[..k], places);
      var x := Item(k, TimeOf(rows[k]));
      DropAppend(Candidates(c, rows[..k]), x, places);
      if k in places {
        assert Without(rows, places) == rest;
      } else {
        assert (rest + [rows[k]])[..|rest|] == rest;
        TimesAppend(Candidates(c, rest), [Item(|rest|, TimeOf(rows[k]))]);
        TimesAppend(Drop(Candidates(c, rows[..k]), places), [x]);
      }
      if Skip(c, rows[k]) != None {
        assert Candidates(c, rows) == Candidates(c, rows[..k]);
        assert k !in places ==> Candidates(c, rest + [rows[k]]) == Candidates(c, rest);
      } else {
        assert k in places ==> Drop(Candidates(c, rows), places) == Drop(Candidates(c, rows[..k]), places);
      }
    }
  }

  ghost predicate DistinctPlaces(s: seq<Item>, bound: nat) {
    && (forall i | 0 <= i < |s| :: s[i].index < bound)
    && (forall i, j | 0 <= i < j < |s| :: s[i].index != s[j].index)
  }

  lemma {:induction false} InsertDistinct(x: Item, s: seq<Item>)
    requires DistinctPlaces(s, x.index)
    ensures DistinctPlaces(Insert(x, s), x.index + 1)
    decreases |s|
  {
    if s != [] && s[0].time >= x.time {
      InsertDistinct(x, s[1..]);
      InsertMembers(x, s[1..]);
      var rest := Insert(x, s[1..]);
      forall k | 0 <= k < |rest| ensures rest[k].index != s[0].index {
        assert rest[k] in rest;
      }
    }
  }

  lemma {:induction false} CandidatesDistinct(c: Context, rows: seq<Row>)
    ensures DistinctPlaces(NewestFirst(Candidates(c, rows)), |rows|)
    decreases |rows|
  {
    if rows != [] {
      var k := |rows| - 1;
      CandidatesDistinct(c, rows[..k]);
      if Skip(c, rows[k]) == None {
        var x := Item(k, TimeOf(rows[k]));
        var before := Candidates(c, rows[..k]);
        SortAppend(before, x);
        InsertDistinct(x, NewestFirst(before));
      } else {
        assert Candidates(c, rows) == Candidates(c, rows[..k]);
      }
    }
  }

  lemma {:induction false} DropSuffix(s: seq<Item>, n: nat, places: set<nat>)
    requires n <= |s|
    requires forall k | 0 <= k < |s| :: s[k].index in places <==> n <= k
    ensures Drop(s, places) == s[..n]
    decreases |s|
  {
    if s != [] {
      if n > 0 {
        DropSuffix(s[1..], n - 1, places);
        assert s[..n] == [s[0]] + s[1..][..n - 1];
      } else {
        DropSuffix(s[1..], 0, places);
      }
    }
  }

  /** What is forgotten is the tail end of the newest-first list. */
  lemma ForgottenIsSuffix(c: Context, rows: seq<Row>, s: seq<Item>)
    requires s == NewestFirst(Candidates(c, rows))
    ensures
      forall k | 0 <= k < |s| :: s[k].index in ForgottenPlaces(c, s, |s|) <==> Survivors(c, s) <= k
  {
    var n := Survivors(c, s);
    NewestFirstSorts(Candidates(c, rows));
    CandidatesDistinct(c, rows);
    forall k | 0 <= k < |s| ensures s[k].index in ForgottenPlaces(c, s, |s|) <==> n <= k {
      if n < k {
        FatesInOrder(c, s, n, k);
      }
    }
  }

  lemma {:induction false} WithoutNothing(rows: seq<Row>)
    ensures Without(rows, {}) == rows
    decreases |rows|
  {
    if rows != [] {
      WithoutNothing(rows[..|rows| - 1]);
    }
  }

  /** Compacting what was just compacted forgets nothing more. */
  lemma CompactionIsIdempotent(c: Context, rows: seq<Row>)
    ensures Compacted(c, Compacted(c, rows)) == Compacted(c, rows)
  {
    var s := NewestFirst(Candidates(c, rows));
    var places := ForgottenPlaces(c, s, |s|);
    var n := Survivors(c, s);
    ForgottenIsSuffix(c, rows, s);
    DropSuffix(s, n, places);
    var again := Candidates(c, Compacted(c, rows));
    CandidatesWithout(c, rows, places);
    DropSorted(Candidates(c, rows), places);
    TimesSort(again, Drop(Candidates(c, rows), places));
    var t := NewestFirst(again);
    assert Times(t) == Times(s[..n]) && |t| == |Times(t)| == n;
    forall k | 0 <= k < n ensures FateOf(c, k, t[k].time) != Forgotten {
      assert t[k].time == Times(t)[k] == Times(s[..n])[k] == s[k].time;
    }
    assert ForgottenPlaces(c, t, |t|) == {};
    WithoutNothing(Compacted(c, rows));
  }

  // ------------------------------------------------- what compaction may and may not do

  /** Newest first, and earlier rows first among equals. */
  predicate Before(a: Item, b: Item) {
    a.time > b.time || (a.time == b.time && a.index < b.index)
  }

  ghost predicate Ordered(s: seq<Item>) {
    forall i, j | 0 <= i < j < |s| :: Before(s[i], s[j])
  }

  lemma {:induction false} InsertOrdered(x: Item, s: seq<Item>)
    requires Ordered(s) && DistinctPlaces(s, x.index)
    ensures Ordered(Insert(x, s))
    decreases |s|
  {
    if s != [] && s[0].time >= x.time {
      InsertOrdered(x, s[1..]);
      InsertMembers(x, s[1..]);
      var rest := Insert(x, s[1..]);
      forall k | 0 <= k < |rest| ensures Before(s[0], rest[k]) {
        assert rest[k] in rest;
      }
    }
  }

  lemma {:induction false} CandidatesAre(c: Context, rows: seq<Row>)
    ensures
      forall x :: x in Candidates(c, rows) <==>
                  x.index < |rows| && Skip(c, rows[x.index]) == None && x.time == TimeOf(rows[x.index])
    decreases |rows|
  {
    if rows != [] {
      CandidatesAre(c, rows[..|rows| - 1]);
    }
  }

  lemma {:induction false} CandidatesOrdered(c: Context, rows: seq<Row>)
    ensures Ordered(NewestFirst(Candidates(c, rows)))
    decreases |rows|
  {
    if rows != [] {
      var k := |rows| - 1;
      var before := Candidates(c, rows[..k]);
      CandidatesOrdered(c, rows[..k]);
      CandidatesDistinct(c, rows[..k]);
      if Skip(c, rows[k]) == None {
        SortAppend(before, Item(k, TimeOf(rows[k])));
        InsertOrdered(Item(k, TimeOf(rows[k])), NewestFirst(before));
      } else {
        assert Candidates(c, rows) == before;
      }
    }
  }

  /** The sorted list holds exactly the candidates, in this order. */
  lemma SortedCandidates(c: Context, rows: seq<Row>)
    ensures
      var s := NewestFirst(Candidates(c, rows));
      && Ordered(s) && DistinctPlaces(s, |rows|)
      && (forall x :: x in s <==> x.index < |rows| && Skip(c, rows[x.index]) == None && x.time == TimeOf(rows[x.index]))
  {
    CandidatesOrdered(c, rows);
    CandidatesDistinct(c, rows);
    CandidatesAre(c, rows);
    NewestFirstSorts(Candidates(c, rows));
  }

  /** The places compaction forgets. */
  function Places(c: Context, rows: seq<Row>): set<nat> {
    var s := NewestFirst(Candidates(c, rows));
    ForgottenPlaces(c, s, |s|)
  }

  /** Only a terminal row with an identity and a past time is ever forgotten: never one of the active
      generation and, when there is none, never one of a live process. */
  lemma OnlyTerminalIsForgotten(c: Context, rows: seq<Row>, p: nat)
    requires p in Places(c, rows)
    ensures p < |rows| && Skip(c, rows[p]) == None && TimeOf(rows[p]) <= c.now
    ensures GenerationOf(rows[p]) != NoGeneration && GenerationOf(rows[p]) != c.active
    ensures c.active == NoGeneration ==> rows[p].pid !in c.live
    ensures LifecycleOf(rows[p]) == IsExited || LifecycleOf(rows[p]) == IsSuperseded
  {
    var s := NewestFirst(Candidates(c, rows));
    SortedCandidates(c, rows);
    var k :| 0 <= k < |s| && FateOf(c, k, s[k].time) == Forgotten && s[k].index == p;
    assert s[k] in s;
  }

  predicate IsCandidate(c: Context, rows: seq<Row>, p: nat) {
    p < |rows| && Skip(c, rows[p]) == None
  }

  /** What is kept is a newest-first prefix of the terminal rows: it comes before whatever is
      forgotten, is no older than the retention, and whatever is forgotten while young enough has a
      full tail of candidates before it. */
  lemma NewestAreKept(c: Context, rows: seq<Row>, kept: nat, gone: nat)
    requires IsCandidate(c, rows, kept) && kept !in Places(c, rows) && TimeOf(rows[kept]) <= c.now
    requires gone < |rows|
    ensures c.now - TimeOf(rows[kept]) <= Retention(c)
    ensures gone in Places(c, rows) ==> Before(Item(kept, TimeOf(rows[kept])), Item(gone, TimeOf(rows[gone])))
  {
    var s := NewestFirst(Candidates(c, rows));
    SortedCandidates(c, rows);
    var x := Item(kept, TimeOf(rows[kept]));
    assert x in s;
    var i :| 0 <= i < |s| && s[i] == x;
    if gone in Places(c, rows) {
      var j :| 0 <= j < |s| && FateOf(c, j, s[j].time) == Forgotten && s[j].index == gone;
      assert s[j] in s;
      NewestFirstSorts(Candidates(c, rows));
      NotBehindForgotten(c, s, i, j);
    }
  }

  lemma NotBehindForgotten(c: Context, s: seq<Item>, i: nat, j: nat)
    requires Descending(s) && i < |s| && j < |s|
    requires FateOf(c, i, s[i].time) == Kept && FateOf(c, j, s[j].time) == Forgotten
    ensures i < j
  {
  }

  lemma ForgottenForCause(c: Context, rows: seq<Row>, gone: nat)
    requires gone < |rows| && gone in Places(c, rows) && c.now - TimeOf(rows[gone]) <= Retention(c)
    ensures
      var s := NewestFirst(Candidates(c, rows));
      && Tail(c) < |s|
      && (forall k | 0 <= k < Tail(c) :: Before(s[k], Item(gone, TimeOf(rows[gone]))))
  {
    var s := NewestFirst(Candidates(c, rows));
    SortedCandidates(c, rows);
    var j :| 0 <= j < |s| && FateOf(c, j, s[j].time) == Forgotten && s[j].index == gone;
    assert s[j] in s;
  }

  /** The candidates that come before a row, newest first and ties by place. */
  function Ahead(c: Context, rows: seq<Row>, p: nat): set<nat>
    requires p < |rows|
  {
    set q: nat | q < |rows| && IsCandidate(c, rows, q) && Before(Item(q, TimeOf(rows[q])), Item(p, TimeOf(rows[p])))
  }

  function FirstPlaces(s: seq<Item>, n: nat): set<nat>
    requires n <= |s|
  {
    set k | 0 <= k < n :: s[k].index
  }

  lemma {:induction false} FirstPlacesCounted(s: seq<Item>, n: nat)
    requires n <= |s| && forall i, j | 0 <= i < j < |s| :: s[i].index != s[j].index
    ensures |FirstPlaces(s, n)| == n
  {
    if n > 0 {
      FirstPlacesCounted(s, n - 1);
      assert FirstPlaces(s, n) == FirstPlaces(s, n - 1) + {s[n - 1].index};
      assert s[n - 1].index !in FirstPlaces(s, n - 1);
    }
  }

  /** The rank of a candidate in the sorted list is the number of candidates before it. */
  lemma RankIsAhead(c: Context, rows: seq<Row>, p: nat, rank: nat)
    requires
      var s := NewestFirst(Candidates(c, rows));
      rank < |s| && s[rank].index == p
    ensures p < |rows| && |Ahead(c, rows, p)| == rank
  {
    var s := NewestFirst(Candidates(c, rows));
    SortedCandidates(c, rows);
    assert s[rank] in s;
    forall q: nat ensures q in Ahead(c, rows, p) <==> q in FirstPlaces(s, rank) {
      if q in Ahead(c, rows, p) {
        assert Item(q, TimeOf(rows[q])) in s;
        var k :| 0 <= k < |s| && s[k] == Item(q, TimeOf(rows[q]));
        assert k < rank;
      }
      if q in FirstPlaces(s, rank) {
        var k :| 0 <= k < rank && s[k].index == q;
        assert s[k] in s;
      }
    }
    assert Ahead(c, rows, p) == FirstPlaces(s, rank);
    FirstPlacesCounted(s, rank);
  }

  /** A candidate of the past is forgotten exactly when it is older than the retention or has a full
      tail of candidates before it. */
  lemma ForgottenExactly(c: Context, rows: seq<Row>, p: nat)
    requires IsCandidate(c, rows, p) && TimeOf(rows[p]) <= c.now
    ensures p in Places(c, rows) <==> c.now - TimeOf(rows[p]) > Retention(c) || |Ahead(c, rows, p)| >= Tail(c)
  {
    var s := NewestFirst(Candidates(c, rows));
    SortedCandidates(c, rows);
    assert Item(p, TimeOf(rows[p])) in s;
    var rank :| 0 <= rank < |s| && s[rank] == Item(p, TimeOf(rows[p]));
    RankIsAhead(c, rows, p, rank);
    if p in Places(c, rows) {
      var j :| 0 <= j < |s| && FateOf(c, j, s[j].time) == Forgotten && s[j].index == p;
      assert j == rank;
    }
  }

  // ------------------------------------------------------------------ the counts

  function Lifecycles(rows: seq<Row>): multiset<Lifecycle>
    decreases |rows|
  {
    if rows == [] then multiset{}
    else Lifecycles(rows[..|rows| - 1]) + multiset{LifecycleOf(rows[|rows| - 1])}
  }

  /** The reasons of the rows that are not looked at. */
  function Skips(c: Context, rows: seq<Row>): multiset<Reason>
    decreases |rows|
  {
    if rows == [] then multiset{}
    else
      var skip := Skip(c, rows[|rows| - 1]);
      Skips(c, rows[..|rows| - 1]) + if skip.Some? then multiset{skip.value} else multiset{}
  }

  /** How many of the first `n` candidates have this fate. */
  function FateCount(c: Context, s: seq<Item>, n: nat, fate: Fate): nat
    requires n <= |s|
  {
    if n == 0 then 0
    else FateCount(c, s, n - 1, fate) + if FateOf(c, n - 1, s[n - 1].time) == fate then 1 else 0
  }

  /** The report: each row under its lifecycle, each skipped row under its reason, future ones included,
      and the other candidates as kept or forgotten. */
  function Tally(c: Context, rows: seq<Row>): Summary {
    var s := NewestFirst(Candidates(c, rows));
    var skipped := Skips(c, rows);
    Summary(Lifecycles(rows), skipped[FutureTime := skipped[FutureTime] + FateCount(c, s, |s|, InFuture)],
            FateCount(c, s, |s|, Kept), FateCount(c, s, |s|, Forgotten))
  }

  // ----------------------------------------------------------------- the method

  lemma {:induction false} InsertAt(x: Item, s: seq<Item>, place: nat)
    requires place <= |s| && forall j | 0 <= j < place :: s[j].time >= x.time
    requires place < |s| ==> s[place].time < x.time
    ensures Insert(x, s) == s[..place] + [x] + s[place..]
    decreases |s|
  {
    if place > 0 {
      InsertAt(x, s[1..], place - 1);
      assert s[..place] == [s[0]] + s[1..][..place - 1];
    }
  }

  method InsertItem(x: Item, sorted: seq<Item>) returns (r: seq<Item>)
    ensures r == Insert(x, sorted)
  {
    var place := 0;
    while place < |sorted| && sorted[place].time >= x.time
      invariant place <= |sorted| && forall j | 0 <= j < place :: sorted[j].time >= x.time
    {
      place := place + 1;
    }
    InsertAt(x, sorted, place);
    r := sorted[..place] + [x] + sorted[place..];
  }

  method SortNewestFirst(items: seq<Item>) returns (sorted: seq<Item>)
    ensures sorted == NewestFirst(items)
  {
    sorted := [];
    var k := 0;
    while k < |items|
      invariant k <= |items| && sorted == NewestFirst(items[..k])
    {
      SortAppend(items[..k], items[k]);
      assert items[..k + 1] == items[..k] + [items[k]];
      sorted := InsertItem(items[k], sorted);
      k := k + 1;
    }
    assert items[..k] == items;
  }

  /** One more row: counted, and either skipped for a reason or a candidate. */
  lemma CollectsOne(c: Context, rows: seq<Row>, k: nat)
    requires k < |rows|
    ensures Lifecycles(rows[..k + 1]) == Lifecycles(rows[..k]) + multiset{LifecycleOf(rows[k])}
    ensures
      var skip := Skip(c, rows[k]);
      if skip.Some? then
        && Skips(c, rows[..k + 1]) == Skips(c, rows[..k]) + multiset{skip.value}
        && Candidates(c, rows[..k + 1]) == Candidates(c, rows[..k])
      else
        && Skips(c, rows[..k + 1]) == Skips(c, rows[..k])
        && Candidates(c, rows[..k + 1]) == Candidates(c, rows[..k]) + [Item(k, TimeOf(rows[k]))]
  {
    assert rows[..k + 1][..k] == rows[..k] && rows[..k + 1][k] == rows[k];
  }

  method CollectCandidates(c: Context, rows: seq<Row>)
    returns (items: seq<Item>, lifecycles: multiset<Lifecycle>, skipped: multiset<Reason>)
    ensures items == Candidates(c, rows) && lifecycles == Lifecycles(rows) && skipped == Skips(c, rows)
  {
    items, lifecycles, skipped := [], multiset{}, multiset{};
    var k := 0;
    while k < |rows|
      invariant k <= |rows| && items == Candidates(c, rows[..k])
      invariant lifecycles == Lifecycles(rows[..k]) && skipped == Skips(c, rows[..k])
    {
      var r := rows[k];
      CollectsOne(c, rows, k);
      lifecycles := lifecycles + multiset{LifecycleOf(r)};
      var skip := Skip(c, r);
      if skip.Some? {
        skipped := skipped + multiset{skip.value};
      } else {
        items := items + [Item(k, TimeOf(r))];
      }
      k := k + 1;
    }
    assert rows[..k] == rows;
  }

  lemma OneMoreWith(c: Context, s: seq<Item>, n: nat, fate: Fate)
    requires n < |s|
    ensures
      PlacesWith(c, s, n + 1, fate)
      == PlacesWith(c, s, n, fate) + if FateOf(c, n, s[n].time) == fate then {s[n].index} else {}
  {
  }

  method RankCandidates(c: Context, s: seq<Item>)
    returns (places: set<nat>, future: nat, retained: nat, compacted: nat)
    ensures places == ForgottenPlaces(c, s, |s|)
    ensures future == FateCount(c, s, |s|, InFuture) && retained == FateCount(c, s, |s|, Kept)
    ensures compacted == FateCount(c, s, |s|, Forgotten)
  {
    places, future, retained, compacted := {}, 0, 0, 0;
    var rank := 0;
    while rank < |s|
      invariant rank <= |s| && places == ForgottenPlaces(c, s, rank)
      invariant future == FateCount(c, s, rank, InFuture) && retained == FateCount(c, s, rank, Kept)
      invariant compacted == FateCount(c, s, rank, Forgotten)
    {
      OneMoreWith(c, s, rank, Forgotten);
      var age := c.now - s[rank].time;
      if age < 0 {
        future := future + 1;
      } else if rank >= Tail(c) || age > Retention(c) {
        places := places + {s[rank].index};
        compacted := compacted + 1;
      } else {
        retained := retained + 1;
      }
      rank := rank + 1;
    }
  }

  /** Every row has one lifecycle, and is skipped for one reason or a candidate. */
  lemma {:induction false} RowsCounted(c: Context, rows: seq<Row>)
    ensures |Lifecycles(rows)| == |rows| && |Skips(c, rows)| + |Candidates(c, rows)| == |rows|
    decreases |rows|
  {
    if rows != [] {
      RowsCounted(c, rows[..|rows| - 1]);
    }
  }

  /** Every candidate has one fate. */
  lemma {:induction false} FatesCounted(c: Context, s: seq<Item>, n: nat)
    requires n <= |s|
    ensures FateCount(c, s, n, InFuture) + FateCount(c, s, n, Kept) + FateCount(c, s, n, Forgotten) == n
  {
    if n > 0 {
      FatesCounted(c, s, n - 1);
    }
  }

  lemma {:induction false} FateIsCounted(c: Context, s: seq<Item>, n: nat, fate: Fate)
    requires n <= |s| && forall i, j | 0 <= i < j < |s| :: s[i].index != s[j].index
    ensures |PlacesWith(c, s, n, fate)| == FateCount(c, s, n, fate)
  {
    if n > 0 {
      FateIsCounted(c, s, n - 1, fate);
      OneMoreWith(c, s, n - 1, fate);
      assert s[n - 1].index !in PlacesWith(c, s, n - 1, fate);
    }
  }

  lemma {:induction false} NoneSkippedAsFuture(c: Context, rows: seq<Row>)
    ensures Skips(c, rows)[FutureTime] == 0
    decreases |rows|
  {
    if rows != [] {
      NoneSkippedAsFuture(c, rows[..|rows| - 1]);
    }
  }

  function FuturePlaces(c: Context, rows: seq<Row>): set<nat> {
    set p: nat | p < |rows| && IsCandidate(c, rows, p) && TimeOf(rows[p]) > c.now
  }

  function KeptPlaces(c: Context, rows: seq<Row>): set<nat> {
    set p: nat | p < |rows| && IsCandidate(c, rows, p) && TimeOf(rows[p]) <= c.now && p !in Places(c, rows)
  }

  lemma PlacesMean(c: Context, rows: seq<Row>)
    ensures
      var s := NewestFirst(Candidates(c, rows));
      PlacesWith(c, s, |s|, InFuture) == FuturePlaces(c, rows) && PlacesWith(c, s, |s|, Kept) == KeptPlaces(c, rows)
  {
    var s := NewestFirst(Candidates(c, rows));
    SortedCandidates(c, rows);
    forall p: nat
      ensures p in PlacesWith(c, s, |s|, InFuture) <==> p in FuturePlaces(c, rows)
      ensures p in PlacesWith(c, s, |s|, Kept) <==> p in KeptPlaces(c, rows)
    {
      if k :| 0 <= k < |s| && s[k].index == p {
        assert s[k] in s;
        assert forall j | 0 <= j < |s| && s[j].index == p :: j == k;
      } else {
        assert p < |rows| && IsCandidate(c, rows, p) ==> Item(p, TimeOf(rows[p])) in s;
      }
    }
  }

  /** The report counts the candidates from the future, the ones kept and the ones forgotten. */
  lemma TallyMeans(c: Context, rows: seq<Row>)
    ensures
      var summary := Tally(c, rows);
      && summary.skipped[FutureTime] == |FuturePlaces(c, rows)|
      && summary.retained == |KeptPlaces(c, rows)|
      && summary.compacted == |Places(c, rows)|
  {
    var s := NewestFirst(Candidates(c, rows));
    SortedCandidates(c, rows);
    NoneSkippedAsFuture(c, rows);
    PlacesMean(c, rows);
    FateIsCounted(c, s, |s|, InFuture);
    FateIsCounted(c, s, |s|, Kept);
    FateIsCounted(c, s, |s|, Forgotten);
  }

  /** The report accounts for every row exactly once. */
  lemma TallyCounts(c: Context, rows: seq<Row>)
    ensures
      var summary := Tally(c, rows);
      && |summary.lifecycles| == |rows|
      && |summary.skipped| + summary.retained + summary.compacted == |rows|
      && |Places(c, rows)| == summary.compacted
  {
    var s := NewestFirst(Candidates(c, rows));
    RowsCounted(c, rows);
    SortedCandidates(c, rows);
    NewestFirstSorts(Candidates(c, rows));
    FatesCounted(c, s, |s|);
    FateIsCounted(c, s, |s|, Forgotten);
  }

  lemma {:induction false} WithoutCounts(rows: seq<Row>, places: set<nat>)
    requires forall p | p in places :: p < |rows|
    ensures |Without(rows, places)| == |rows| - |places|
    decreases |rows|
  {
    if rows == [] {
      assert places == {};
    } else {
      var k: nat := |rows| - 1;
      WithoutCounts(rows[..k], places - {k});
      WithoutIgnores(rows[..k], places, k);
    }
  }

  lemma {:induction false} WithoutIgnores(rows: seq<Row>, places: set<nat>, k: nat)
    requires |rows| <= k
    ensures Without(rows, places - {k}) == Without(rows, places)
    decreases |rows|
  {
    if rows != [] {
      WithoutIgnores(rows[..|rows| - 1], places, k);
    }
  }

  method FilterRows(rows: seq<Row>, places: set<nat>) returns (kept: seq<Row>)
    ensures kept == Without(rows, places)
  {
    kept := [];
    var k := 0;
    while k < |rows|
      invariant k <= |rows| && kept == Without(rows[..k], places)
    {
      assert rows[..k + 1][..k] == rows[..k];
      if k !in places {
        kept := kept + [rows[k]];
      }
      k := k + 1;
    }
    assert rows[..k] == rows;
  }

  /** Forget what may be forgotten, and account for every row exactly once. */
  method Compact(t: Table, c: Context) returns (summary: Summary)
    modifies t
    ensures t.rows == Compacted(c, old(t.rows)) && summary == Tally(c, old(t.rows))
    ensures |t.rows| == |old(t.rows)| - summary.compacted
    ensures |summary.skipped| + summary.retained + summary.compacted == |old(t.rows)|
    ensures |summary.lifecycles| == |old(t.rows)|
  {
    var items, lifecycles, skipped := CollectCandidates(c, t.rows);
    var sorted := SortNewestFirst(items);
    SortedCandidates(c, t.rows);
    NewestFirstSorts(items);
    TallyCounts(c, t.rows);
    var places, future, retained, compacted := RankCandidates(c, sorted);
    WithoutCounts(t.rows, places);
    t.rows := FilterRows(t.rows, places);
    summary := Summary(lifecycles, skipped[FutureTime := skipped[FutureTime] + future], retained, compacted);
  }
}
