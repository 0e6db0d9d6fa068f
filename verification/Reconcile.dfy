/** Bringing the registry in line with the processes that really run, and stopping the extra ones
    (internal/browser/managed.go). */
module Reconcile {
  import opened Basics
  import opened Registry
  import opened Compaction

  // --------------------------------------------------------------- the listed pids

  ghost predicate Ascending(pids: seq<int>) {
    forall i, j | 0 <= i < j < |pids| :: pids[i] < pids[j]
  }

  function InsertPid(pid: int, pids: seq<int>): seq<int>
    decreases |pids|
  {
    if pids == [] || pid < pids[0] then [pid] + pids
    else if pid == pids[0] then pids
    else [pids[0]] + InsertPid(pid, pids[1..])
  }

  lemma {:induction false} InsertPidSorts(pid: int, pids: seq<int>)
    requires Ascending(pids)
    ensures Ascending(InsertPid(pid, pids))
    ensures forall p :: p in InsertPid(pid, pids) <==> p == pid || p in pids
    decreases |pids|
  {
    if pids != [] && pid > pids[0] {
      InsertPidSorts(pid, pids[1..]);
      var rest := InsertPid(pid, pids[1..]);
      forall k | 0 <= k < |rest| ensures pids[0] < rest[k] {
        assert rest[k] in rest;
      }
    }
  }

  /** The positive pids, each once, in order. */
  method UniqueSortedPids(listed: seq<int>) returns (pids: seq<int>)
    ensures Ascending(pids) && forall p :: p in pids <==> p in listed && p > 0
  {
    pids := [];
    var k := 0;
    while k < |listed|
      invariant k <= |listed| && Ascending(pids)
      invariant forall p :: p in pids <==> p in listed[..k] && p > 0
    {
      assert listed[..k + 1] == listed[..k] + [listed[k]];
      if listed[k] > 0 {
        InsertPidSorts(listed[k], pids);
        pids := InsertPid(listed[k], pids);
      }
      k := k + 1;
    }
  }

  // ------------------------------------------------------------------- identity

  /** A start identity strong enough to tell a process from a later one with its pid. */
  predicate Strong(s: Stamp) {
    s.Token? && ((|s.text| >= 5 && s.text[..5] == "proc:") || (|s.text| >= 3 && s.text[..3] == "ps:"))
  }

  predicate Ours(r: Row, profile: string) {
    r.pid > 0 && r.mode == HEADLESS && r.dir == profile
  }

  predicate Expects(r: Row, profile: string, pid: int, identity: string) {
    Ours(r, profile) && r.pid == pid && r.processStart == Token(identity) && Strong(r.processStart)
  }

  /** Some row says who the process of this pid must be. */
  ghost predicate Claimed(rows: seq<Row>, profile: string, pid: int) {
    exists r, identity :: r in rows && Expects(r, profile, pid, identity)
  }

  /** The pid is not claimed, or it is who some row says. */
  ghost predicate Verified(rows: seq<Row>, profile: string, probe: map<int, string>, pid: int) {
    !Claimed(rows, profile, pid) || (pid in probe && exists r :: r in rows && Expects(r, profile, pid, probe[pid]))
  }

  method ExpectedIdentities(rows: seq<Row>, profile: string, pid: int) returns (expected: set<string>)
    ensures forall identity :: identity in expected <==> exists r :: r in rows && Expects(r, profile, pid, identity)
  {
    expected := {};
    var k := 0;
    while k < |rows|
      invariant k <= |rows|
      invariant forall identity ::
                  identity in expected <==> exists j :: 0 <= j < k && Expects(rows[j], profile, pid, identity)
    {
      var r := rows[k];
      if Ours(r, profile) && r.pid == pid && Strong(r.processStart) {
        assert Expects(rows[k], profile, pid, r.processStart.text);
        expected := expected + {r.processStart.text};
      }
      k := k + 1;
    }
    forall identity ensures identity in expected <==> exists r :: r in rows && Expects(r, profile, pid, identity) {
      if r :| r in rows && Expects(r, profile, pid, identity) {
        var j :| 0 <= j < |rows| && rows[j] == r;
      }
    }
  }

  /** The pids whose identity holds, or None when one that is claimed cannot be asked. */
  method FilterIdentity(rows: seq<Row>, profile: string, listed: seq<int>, probe: map<int, string>)
    returns (live: Option<seq<int>>)
    requires Ascending(listed)
    ensures live.None? <==> exists p :: p in listed && Claimed(rows, profile, p) && p !in probe
    ensures live.Some? ==> Ascending(live.value)
    ensures live.Some? ==> forall p :: p in live.value <==> p in listed && Verified(rows, profile, probe, p)
  {
    var kept: seq<int> := [];
    var k := 0;
    while k < |listed|
      invariant k <= |listed| && Ascending(kept)
      invariant forall p | p in listed[..k] :: Claimed(rows, profile, p) ==> p in probe
      invariant forall p :: p in kept <==> p in listed[..k] && Verified(rows, profile, probe, p)
    {
      var pid := listed[k];
      assert listed[..k + 1] == listed[..k] + [pid];
      var expected := ExpectedIdentities(rows, profile, pid);
      ExpectedMeansClaimed(rows, profile, pid, expected);
      if expected != {} && pid !in probe {
        return None;
      }
      if expected == {} || probe[pid] in expected {
        forall j | 0 <= j < |kept| ensures kept[j] < pid {
          assert kept[j] in kept && kept[j] in listed[..k];
        }
        kept := kept + [pid];
      }
      k := k + 1;
    }
    assert listed[..k] == listed;
    live := Some(kept);
  }

  lemma ExpectedMeansClaimed(rows: seq<Row>, profile: string, pid: int, expected: set<string>)
    requires forall identity :: identity in expected <==> exists r :: r in rows && Expects(r, profile, pid, identity)
    ensures expected != {} <==> Claimed(rows, profile, pid)
  {
    if expected != {} {
      var identity :| identity in expected;
    }
    if Claimed(rows, profile, pid) {
      var r, identity :| r in rows && Expects(r, profile, pid, identity);
      assert identity in expected;
    }
  }

  // ------------------------------------------------------------------- row states

  datatype View = View(profile: string, live: set<int>, active: GenerationId, now: int)

  /** The state of one of our rows, given which processes live. */
  function Refreshed(v: View, r: Row): Row {
    var g := GenerationOf(r);
    var gone := r.(exitedAt := if r.exitedAt == Blank then Instant(v.now) else r.exitedAt);
    if !Ours(r, v.profile) then r
    else if r.pid in v.live && (v.active == NoGeneration || g == v.active)
    then r.(state := Live, lastSeenAt := Instant(v.now), exitedAt := Blank)
    else if r.pid in v.live && g != NoGeneration then gone.(state := Superseded)
    else if g == NoGeneration then r.(state := Indeterminate)
    else if r.state != Reaped then gone.(state := Exited)
    else r
  }

  /** The exit time a row keeps, or gets when it has none. */
  predicate KeepsExit(was: Stamp, after: Stamp, now: int) {
    (was != Blank ==> after == was) && (was == Blank ==> after == Instant(now))
  }

  /** One of our rows is called live exactly when its process is, under the active generation if there
      is one. A row of another generation of a live pid is superseded, one without a generation cannot
      be told, one whose process is gone has exited, or stays reaped. No generation ever changes. */
  lemma RefreshTells(v: View, r: Row)
    ensures GenerationOf(Refreshed(v, r)) == GenerationOf(r) && Refreshed(v, r).pid == r.pid
    ensures Ours(r, v.profile) ==>
              (Refreshed(v, r).state == Live <==>
                 r.pid in v.live && (v.active == NoGeneration || GenerationOf(r) == v.active))
    ensures Ours(r, v.profile) && r.pid in v.live && (v.active == NoGeneration || GenerationOf(r) == v.active) ==>
              Refreshed(v, r) == r.(state := Live, lastSeenAt := Instant(v.now), exitedAt := Blank)
    ensures
      Ours(r, v.profile) && GenerationOf(r) == NoGeneration && (r.pid in v.live ==> v.active != NoGeneration) ==>
        Refreshed(v, r) == r.(state := Indeterminate)
    ensures
      var g, after := GenerationOf(r), Refreshed(v, r);
      Ours(r, v.profile) && g != NoGeneration ==>
        && (r.pid in v.live && v.active != NoGeneration && g != v.active ==>
              after == r.(state := Superseded, exitedAt := after.exitedAt)
              && KeepsExit(r.exitedAt, after.exitedAt, v.now))
        && (r.pid !in v.live && r.state != Reaped ==>
              after == r.(state := Exited, exitedAt := after.exitedAt)
              && KeepsExit(r.exitedAt, after.exitedAt, v.now))
        && (r.pid !in v.live && r.state == Reaped ==> after == r)
    ensures !Ours(r, v.profile) ==> Refreshed(v, r) == r
  {
  }

  function RefreshedRows(v: View, rows: seq<Row>): seq<Row> {
    seq(|rows|, k requires 0 <= k < |rows| => Refreshed(v, rows[k]))
  }

  lemma RefreshKeepsUnique(v: View, rows: seq<Row>)
    requires UniqueGenerations(rows)
    ensures UniqueGenerations(RefreshedRows(v, rows))
  {
    forall k | 0 <= k < |rows| ensures GenerationOf(RefreshedRows(v, rows)[k]) == GenerationOf(rows[k]) {
      RefreshTells(v, rows[k]);
    }
  }

  method RefreshStates(t: Table, v: View)
    modifies t
    ensures t.rows == RefreshedRows(v, old(t.rows))
  {
    ghost var after := RefreshedRows(v, t.rows);
    var k := 0;
    while k < |t.rows|
      invariant k <= |t.rows| == |after| == |old(t.rows)|
      invariant t.rows == after[..k] + old(t.rows)[k..]
    {
      assert after[..k + 1] == after[..k] + [Refreshed(v, t.rows[k])];
      t.rows := t.rows[k := Refreshed(v, t.rows[k])];
      k := k + 1;
    }
  }

  function UnregisteredRow(pid: int, profile: string, now: int): Row {
    Row(NoGeneration, pid, HEADLESS, profile, "", Blank, Instant(now), Blank, LiveUnregistered,
        Blank, "", "", Blank, "")
  }

  /** The rows once every process without one has been given one. */
  function Registered(rows: seq<Row>, pids: seq<int>, profile: string, now: int): seq<Row>
    decreases |pids|
  {
    if pids == [] then rows
    else
      var k := |pids| - 1;
      var before := Registered(rows, pids[..k], profile, now);
      if PidAt(before, pids[k], 0) == |before| then Upserted(before, UnregisteredRow(pids[k], profile, now)) else before
  }

  /** Every row that was not there is that of a live process without one, with nothing else known. */
  lemma {:induction false} RegisteredRows(rows: seq<Row>, pids: seq<int>, profile: string, now: int, k: nat)
    requires forall p | p in pids :: p > 0
    requires |rows| <= k < |Registered(rows, pids, profile, now)|
    ensures
      var r := Registered(rows, pids, profile, now)[k];
      && r.pid in pids && (forall old_ | old_ in rows :: old_.pid != r.pid)
      && r.mode == "headless" && r.dir == profile && r.state == LiveUnregistered && r.lastSeenAt == Instant(now)
      && GenerationOf(r) == NoGeneration && r.exitedAt == Blank && r.cleanupAt == Blank
    decreases |pids|
  {
    var n := |pids| - 1;
    if n >= 0 {
      var before := Registered(rows, pids[..n], profile, now);
      assert pids == pids[..n] + [pids[n]];
      assert forall p | p in pids[..n] :: p in pids;
      RegisteredHoldsAll(rows, pids[..n], profile, now);
      if k < |before| {
        RegisteredRows(rows, pids[..n], profile, now, k);
      } else {
        forall old_ | old_ in rows ensures old_.pid != pids[n] {
          var j :| 0 <= j < |rows| && rows[j] == old_;
          assert before[j] == old_;
        }
      }
    }
  }

  lemma {:induction false} RegisteredHoldsAll(rows: seq<Row>, pids: seq<int>, profile: string, now: int)
    requires forall p | p in pids :: p > 0
    ensures rows <= Registered(rows, pids, profile, now)
    ensures forall p | p in pids :: exists r :: r in Registered(rows, pids, profile, now) && r.pid == p
    ensures UniqueGenerations(rows) ==> UniqueGenerations(Registered(rows, pids, profile, now))
    decreases |pids|
  {
    if pids != [] {
      var k := |pids| - 1;
      var before := Registered(rows, pids[..k], profile, now);
      assert pids == pids[..k] + [pids[k]] && pids[k] in pids;
      assert forall p | p in pids[..k] :: p in pids;
      RegisteredHoldsAll(rows, pids[..k], profile, now);
      if PidAt(before, pids[k], 0) == |before| {
        var r := UnregisteredRow(pids[k], profile, now);
        if UniqueGenerations(before) {
          UpsertKeepsUnique(before, r);
        }
        assert Upserted(before, r) == before + [Stamped(r)];
      } else {
        assert before[PidAt(before, pids[k], 0)] in before;
      }
    }
  }

  method EnterUnregistered(t: Table, live: seq<int>, profile: string, now: int)
    modifies t
    ensures t.rows == Registered(old(t.rows), live, profile, now)
  {
    var k := 0;
    while k < |live|
      invariant k <= |live| && t.rows == Registered(old(t.rows), live[..k], profile, now)
    {
      assert live[..k + 1][..k] == live[..k];
      var at := t.FindPid(live[k]);
      if at == |t.rows| {
        t.Upsert(UnregisteredRow(live[k], profile, now));
      }
      k := k + 1;
    }
    assert live[..k] == live;
  }

  // --------------------------------------------------------------------- reaping

  /** Nothing that lives is newer than some row of `pid`. */
  ghost predicate NewestLive(rows: seq<Row>, live: seq<int>, pid: int) {
    exists r :: r in rows && r.pid == pid && forall other | other in rows && other.pid in live :: !Newer(other, r)
  }

  method PidToRetain(rows: seq<Row>, live: seq<int>) returns (pid: int)
    requires live != [] && forall p | p in live :: p > 0
    requires forall p | p in live :: exists r :: r in rows && r.pid == p
    ensures pid in live && NewestLive(rows, live, pid)
  {
    var best: Option<nat> := None;
    var k := 0;
    while k < |rows|
      invariant k <= |rows|
      invariant best == None ==> forall j | 0 <= j < k :: rows[j].pid !in live
      invariant best.Some? ==> best.value < k && rows[best.value].pid in live
      invariant best.Some? ==> forall j | 0 <= j < k && rows[j].pid in live :: !Newer(rows[j], rows[best.value])
    {
      if rows[k].pid in live && (best == None || Newer(rows[k], rows[best.value])) {
        best := Some(k);
      }
      k := k + 1;
    }
    assert best.Some? by {
      var first := live[0];
      assert first in live;
      var r :| r in rows && r.pid == first;
      var j :| 0 <= j < |rows| && rows[j] == r;
    }
    pid := rows[best.value].pid;
    assert rows[best.value] in rows;
  }

  function Others(pids: seq<int>, retained: int): seq<int>
    decreases |pids|
  {
    if pids == [] then []
    else
      var k := |pids| - 1;
      Others(pids[..k], retained) + if pids[k] == retained then [] else [pids[k]]
  }

  function Those(pids: seq<int>, wanted: set<int>, in_: bool): seq<int>
    decreases |pids|
  {
    if pids == [] then []
    else
      var k := |pids| - 1;
      Those(pids[..k], wanted, in_) + if (pids[k] in wanted) == in_ then [pids[k]] else []
  }

  /** The rows once the outcome of each signal has been noted. */
  function MarkedAll(rows: seq<Row>, pids: seq<int>, refusing: set<int>, now: int): seq<Row>
    decreases |pids|
  {
    if pids == [] then rows
    else
      var k := |pids| - 1;
      var before := MarkedAll(rows, pids[..k], refusing, now);
      if pids[k] in refusing then MarkedRows(before, pids[k], SignalFailed, now, "refused")
      else MarkedRows(before, pids[k], Reaped, now, "duplicate")
  }

  /** What the signals leave in the registry: the newest row of each process that was stopped says so,
      with its exit time; the newest row of each one that refused says that, and keeps its exit time;
      every other row is as it was. */
  ghost predicate Noted(before: seq<Row>, after: seq<Row>, reaped: set<int>, failed: set<int>, now: int) {
    && |after| == |before|
    && forall k | 0 <= k < |before| ::
         var pid := before[k].pid;
         if NewestOf(before, pid, |before|) == Some(k) && pid in reaped
         then NotesStopped(before[k], after[k], now, "duplicate")
         else if NewestOf(before, pid, |before|) == Some(k) && pid in failed
         then NotesRefusal(before[k], after[k], now, "refused")
         else after[k] == before[k]
  }

  /** Marking one more process changes its newest row, and no other. */
  lemma MarkedOneMore(rows: seq<Row>, before: seq<Row>, reaped: set<int>, failed: set<int>, pid: int,
                      state: RunState, now: int, reason: string, k: nat)
    requires Noted(rows, before, reaped, failed, now) && pid !in reaped && pid !in failed && k < |rows|
    ensures
      var after := MarkedRows(before, pid, state, now, reason);
      && |after| == |rows|
      && (NewestOf(rows, pid, |rows|) != Some(k) ==> after[k] == before[k])
      && (NewestOf(rows, pid, |rows|) == Some(k) ==>
            && rows[k].pid == pid && before[k] == rows[k]
            && (state == Reaped ==> NotesStopped(rows[k], after[k], now, reason))
            && (state == SignalFailed ==> NotesRefusal(rows[k], after[k], now, reason)))
  {
    NewestIgnoresOthers(rows, before, pid, |rows|);
    MarksNewest(before, pid, state, now, reason, k);
  }

  lemma NotedStopped(rows: seq<Row>, before: seq<Row>, reaped: set<int>, failed: set<int>, pid: int, now: int)
    requires Noted(rows, before, reaped, failed, now) && pid !in reaped && pid !in failed
    ensures Noted(rows, MarkedRows(before, pid, Reaped, now, "duplicate"), reaped + {pid}, failed, now)
  {
    MarkKeepsUnique(before, pid, Reaped, now, "duplicate");
    forall k | 0 <= k < |rows|
      ensures
        var after := MarkedRows(before, pid, Reaped, now, "duplicate")[k];
        if NewestOf(rows, pid, |rows|) == Some(k)
        then rows[k].pid == pid && NotesStopped(rows[k], after, now, "duplicate") else after == before[k]
    {
      MarkedOneMore(rows, before, reaped, failed, pid, Reaped, now, "duplicate", k);
    }
  }

  lemma NotedRefusal(rows: seq<Row>, before: seq<Row>, reaped: set<int>, failed: set<int>, pid: int, now: int)
    requires Noted(rows, before, reaped, failed, now) && pid !in reaped && pid !in failed
    ensures Noted(rows, MarkedRows(before, pid, SignalFailed, now, "refused"), reaped, failed + {pid}, now)
  {
    MarkKeepsUnique(before, pid, SignalFailed, now, "refused");
    forall k | 0 <= k < |rows|
      ensures
        var after := MarkedRows(before, pid, SignalFailed, now, "refused")[k];
        if NewestOf(rows, pid, |rows|) == Some(k)
        then rows[k].pid == pid && NotesRefusal(rows[k], after, now, "refused") else after == before[k]
    {
      MarkedOneMore(rows, before, reaped, failed, pid, SignalFailed, now, "refused", k);
    }
  }

  lemma {:induction false} MarkingNotes(rows: seq<Row>, pids: seq<int>, refusing: set<int>, now: int)
    requires Ascending(pids)
    ensures
      Noted(rows, MarkedAll(rows, pids, refusing, now),
            Members(Those(pids, refusing, false)), Members(Those(pids, refusing, true)), now)
    decreases |pids|
  {
    if pids != [] {
      var k := |pids| - 1;
      MarkingNotes(rows, pids[..k], refusing, now);
      ThoseAre(pids[..k], refusing, false);
      ThoseAre(pids[..k], refusing, true);
      var reaped, failed := Those(pids[..k], refusing, false), Those(pids[..k], refusing, true);
      assert forall p | p in pids[..k] :: p < pids[k];
      if pids[k] in refusing {
        NotedRefusal(rows, MarkedAll(rows, pids[..k], refusing, now), Members(reaped), Members(failed), pids[k], now);
      } else {
        NotedStopped(rows, MarkedAll(rows, pids[..k], refusing, now), Members(reaped), Members(failed), pids[k], now);
      }
      assert Members(reaped + [pids[k]]) == Members(reaped) + {pids[k]};
      assert Members(failed + [pids[k]]) == Members(failed) + {pids[k]};
      assert reaped + [] == reaped && failed + [] == failed;
    }
  }

  lemma MarkKeepsUnique(rows: seq<Row>, pid: int, state: RunState, at: int, reason: string)
    ensures |MarkedRows(rows, pid, state, at, reason)| == |rows|
    ensures UniqueGenerations(rows) ==> UniqueGenerations(MarkedRows(rows, pid, state, at, reason))
  {
    NewestIsNewest(rows, pid, |rows|);
    forall k | 0 <= k < |rows|
      ensures GenerationOf(MarkedRows(rows, pid, state, at, reason)[k]) == GenerationOf(rows[k])
    {
    }
  }

  lemma {:induction false} MarkingKeepsUnique(rows: seq<Row>, pids: seq<int>, refusing: set<int>, now: int)
    ensures UniqueGenerations(rows) ==> UniqueGenerations(MarkedAll(rows, pids, refusing, now))
    decreases |pids|
  {
    if pids != [] {
      var k := |pids| - 1;
      var before := MarkedAll(rows, pids[..k], refusing, now);
      MarkingKeepsUnique(rows, pids[..k], refusing, now);
      MarkKeepsUnique(before, pids[k], SignalFailed, now, "refused");
      MarkKeepsUnique(before, pids[k], Reaped, now, "duplicate");
    }
  }

  /** Signal every live process but one, in order, and note on its row how that went. */
  method SignalOthers(t: Table, live: seq<int>, retained: int, refusing: set<int>, now: int)
    returns (signalled: seq<int>, reaped: seq<int>, failed: seq<int>)
    modifies t
    ensures signalled == Others(live, retained)
    ensures reaped == Those(signalled, refusing, false) && failed == Those(signalled, refusing, true)
    ensures t.rows == MarkedAll(old(t.rows), signalled, refusing, now)
  {
    signalled, reaped, failed := [], [], [];
    var k := 0;
    while k < |live|
      invariant k <= |live| && signalled == Others(live[..k], retained)
      invariant reaped == Those(signalled, refusing, false) && failed == Those(signalled, refusing, true)
      invariant t.rows == MarkedAll(old(t.rows), signalled, refusing, now)
    {
      var pid := live[k];
      assert live[..k + 1][..k] == live[..k];
      if pid != retained {
        assert (signalled + [pid])[..|signalled|] == signalled;
        signalled := signalled + [pid];
        if pid in refusing {
          failed := failed + [pid];
          t.MarkCleanup(pid, SignalFailed, now, "refused");
        } else {
          reaped := reaped + [pid];
          t.MarkCleanup(pid, Reaped, now, "duplicate");
        }
      }
      k := k + 1;
    }
    assert live[..k] == live;
  }

  lemma {:induction false} OthersAre(pids: seq<int>, retained: int)
    requires Ascending(pids)
    ensures Ascending(Others(pids, retained))
    ensures forall p :: p in Others(pids, retained) <==> p in pids && p != retained
    ensures |Others(pids, retained)| == |pids| - if retained in pids then 1 else 0
    decreases |pids|
  {
    if pids != [] {
      var k := |pids| - 1;
      OthersAre(pids[..k], retained);
      assert pids == pids[..k] + [pids[k]];
      assert forall p | p in pids[..k] :: p < pids[k];
      forall j | 0 <= j < |Others(pids[..k], retained)| ensures Others(pids[..k], retained)[j] < pids[k] {
        assert Others(pids[..k], retained)[j] in Others(pids[..k], retained);
      }
    }
  }

  lemma {:induction false} ThoseAre(pids: seq<int>, wanted: set<int>, in_: bool)
    requires Ascending(pids)
    ensures Ascending(Those(pids, wanted, in_))
    ensures forall p :: p in Those(pids, wanted, in_) <==> p in pids && (p in wanted) == in_
    decreases |pids|
  {
    if pids != [] {
      var k := |pids| - 1;
      ThoseAre(pids[..k], wanted, in_);
      assert pids == pids[..k] + [pids[k]];
      assert forall p | p in pids[..k] :: p < pids[k];
      forall j | 0 <= j < |Those(pids[..k], wanted, in_)| ensures Those(pids[..k], wanted, in_)[j] < pids[k] {
        assert Those(pids[..k], wanted, in_)[j] in Those(pids[..k], wanted, in_);
      }
    }
  }

  function Members(pids: seq<int>): set<int> {
    set p | p in pids
  }

  lemma {:induction false} CountMembers(pids: seq<int>)
    requires Ascending(pids)
    ensures |Members(pids)| == |pids|
    decreases |pids|
  {
    if pids != [] {
      var k := |pids| - 1;
      CountMembers(pids[..k]);
      assert Members(pids) == Members(pids[..k]) + {pids[k]};
      assert forall p | p in pids[..k] :: p < pids[k];
    }
  }

  /** After signalling, the one retained and the ones that refused are left. */
  lemma LeftAliveAre(live: seq<int>, retained: int, refusing: set<int>)
    requires Ascending(live) && retained in live
    ensures
      var signalled := Others(live, retained);
      Members(live) - Members(Those(signalled, refusing, false))
      == {retained} + Members(Those(signalled, refusing, true))
  {
    var signalled := Others(live, retained);
    OthersAre(live, retained);
    ThoseAre(signalled, refusing, true);
    ThoseAre(signalled, refusing, false);
    var gone, failed := Those(signalled, refusing, false), Those(signalled, refusing, true);
    forall p ensures p in Members(live) - Members(gone) <==> p in {retained} + Members(failed) {
      if p in live && p != retained {
        assert p in signalled;
      }
    }
  }

  lemma LeftAlive(live: seq<int>, retained: int, refusing: set<int>)
    requires Ascending(live) && retained in live
    ensures
      var signalled := Others(live, retained);
      var failed := Those(signalled, refusing, true);
      var left := Members(live) - Members(Those(signalled, refusing, false));
      left == {retained} + Members(failed) && |left| == 1 + |failed|
  {
    var signalled := Others(live, retained);
    var failed := Those(signalled, refusing, true);
    OthersAre(live, retained);
    ThoseAre(signalled, refusing, true);
    CountMembers(failed);
    LeftAliveAre(live, retained, refusing);
    assert retained !in Members(failed);
  }

  // ------------------------------------------------------------------ reconciling

  datatype Verdict = Healthy | ReapedExtras | OverBudget | Degraded | Failed

  /** What one reconciliation is given: the options, the metadata row of the running browser if it is
      ours, what the process lister and the identity probe answer, and which signals fail. */
  datatype Inputs = Inputs(
    profile: string,
    metadata: Option<Row>,
    activePid: int,
    reapExtras: bool,
    now: int,
    retention: int,
    tail: int,
    listed: Option<seq<int>>,
    probe: map<int, string>,
    refusing: set<int>)

  datatype Report = Report(
    verdict: Verdict,
    activePid: int,
    live: set<int>,
    signalled: seq<int>,
    reaped: seq<int>,
    failed: seq<int>,
    history: Option<Summary>)

  function Judge(live: set<int>, reaped: seq<int>, failed: seq<int>): Verdict {
    if failed != [] then Degraded
    else if |live| > 1 then OverBudget
    else if reaped != [] then ReapedExtras
    else Healthy
  }

  /** Keep one live process, the active one if it lives and one with the newest row otherwise, and
      signal all the others. */
  method ReapExtras(t: Table, live: seq<int>, active: int, refusing: set<int>, now: int)
    returns (retained: int, signalled: seq<int>, reaped: seq<int>, failed: seq<int>)
    requires |live| > 1 && Ascending(live) && forall p | p in live :: p > 0
    requires forall p | p in live :: exists r :: r in t.rows && r.pid == p
    modifies t
    ensures retained in live && (active in live ==> retained == active)
    ensures active !in live ==> NewestLive(old(t.rows), live, retained)
    ensures signalled == Others(live, retained) && retained !in signalled
    ensures reaped == Those(signalled, refusing, false) && failed == Those(signalled, refusing, true)
    ensures t.rows == MarkedAll(old(t.rows), signalled, refusing, now)
    ensures Noted(old(t.rows), t.rows, Members(reaped), Members(failed), now)
  {
    retained := active;
    if active <= 0 || active !in live {
      retained := PidToRetain(t.rows, live);
    }
    OthersAre(live, retained);
    MarkingNotes(t.rows, Others(live, retained), refusing, now);
    signalled, reaped, failed := SignalOthers(t, live, retained, refusing, now);
  }

  /** The generation of the active process, if its metadata is at hand and it lives. */
  function ActiveGenerationOf(inputs: Inputs, activePid: int, live: seq<int>): GenerationId {
    if inputs.metadata.Some? && inputs.metadata.value.pid == activePid && activePid > 0 && activePid in live
    then GenerationOf(inputs.metadata.value) else NoGeneration
  }

  /** The pid taken as active: the caller's, or the metadata's when the caller has none. */
  function ActivePidOf(inputs: Inputs): int {
    if inputs.activePid <= 0 && inputs.metadata.Some? && Ours(inputs.metadata.value, inputs.profile)
    then inputs.metadata.value.pid else inputs.activePid
  }

  /** A pid given by the caller is the active one, or else that of the running browser's metadata, when
      they are of our profile. Its generation is known only while it lives. */
  lemma ActiveIsKnown(inputs: Inputs, live: seq<int>)
    ensures inputs.activePid > 0 ==> ActivePidOf(inputs) == inputs.activePid
    ensures inputs.activePid <= 0 && inputs.metadata.Some? && Ours(inputs.metadata.value, inputs.profile) ==>
              ActivePidOf(inputs) == inputs.metadata.value.pid > 0
    ensures
      var pid := ActivePidOf(inputs);
      var g := ActiveGenerationOf(inputs, pid, live);
      && (pid !in live || inputs.metadata.None? ==> g == NoGeneration)
      && (pid in live && pid > 0 && inputs.metadata.Some? && inputs.metadata.value.pid == pid ==>
            g == GenerationOf(inputs.metadata.value))
  {
  }

  /** What is verified to live before anything is signalled. */
  ghost predicate VerifiedLive(inputs: Inputs, rows: seq<Row>, live: seq<int>) {
    && inputs.listed.Some?
    && Ascending(live)
    && (forall p :: p in live <==> p in inputs.listed.value && p > 0 && Verified(rows, inputs.profile, inputs.probe, p))
  }

  /** The processes could not be listed, or one that some row claims could not be asked who it is. */
  ghost predicate CannotTell(inputs: Inputs, rows: seq<Row>) {
    || inputs.listed.None?
    || exists p: int :: p in inputs.listed.value && p > 0 && Claimed(rows, inputs.profile, p) && p !in inputs.probe
  }

  /** List the live processes, keep those whose identity holds, or fail. */
  method FindLive(inputs: Inputs, rows: seq<Row>) returns (live: Option<seq<int>>)
    ensures live.None? <==> CannotTell(inputs, rows)
    ensures live.Some? ==> VerifiedLive(inputs, rows, live.value)
  {
    if inputs.listed == None {
      return None;
    }
    var pids := UniqueSortedPids(inputs.listed.value);
    live := FilterIdentity(rows, inputs.profile, pids, inputs.probe);
  }

  function ViewOf(inputs: Inputs, live: seq<int>): View {
    View(inputs.profile, Members(live), ActiveGenerationOf(inputs, ActivePidOf(inputs), live), inputs.now)
  }

  /** The rows before anything is signalled. */
  function Surveyed(inputs: Inputs, rows: seq<Row>, live: seq<int>): seq<Row> {
    RefreshedRows(ViewOf(inputs, live), Registered(rows, live, inputs.profile, inputs.now))
  }

  lemma SurveyHoldsAll(inputs: Inputs, rows: seq<Row>, live: seq<int>)
    requires forall p | p in live :: p > 0
    ensures forall p | p in live :: exists r :: r in Surveyed(inputs, rows, live) && r.pid == p
    ensures UniqueGenerations(rows) ==> UniqueGenerations(Surveyed(inputs, rows, live))
  {
    var entered := Registered(rows, live, inputs.profile, inputs.now);
    var v := ViewOf(inputs, live);
    RegisteredHoldsAll(rows, live, inputs.profile, inputs.now);
    if UniqueGenerations(entered) {
      RefreshKeepsUnique(v, entered);
    }
    forall p | p in live ensures exists r :: r in RefreshedRows(v, entered) && r.pid == p {
      var r :| r in entered && r.pid == p;
      var k :| 0 <= k < |entered| && entered[k] == r;
      RefreshTells(v, r);
      assert RefreshedRows(v, entered)[k] in RefreshedRows(v, entered) && RefreshedRows(v, entered)[k].pid == p;
    }
  }

  function CompactionOf(inputs: Inputs, live: seq<int>, report: Report): Context {
    Context(report.live, ViewOf(inputs, live).active, inputs.now, inputs.retention, inputs.tail)
  }

  /** The rows a reconciliation leaves. */
  function FinalRows(inputs: Inputs, rows: seq<Row>, live: seq<int>, report: Report): seq<Row> {
    Compacted(CompactionOf(inputs, live, report),
              MarkedAll(Surveyed(inputs, rows, live), report.signalled, inputs.refusing, inputs.now))
  }

  /** Generations stay unique through all of it. */
  lemma ReconciliationKeepsUnique(inputs: Inputs, rows: seq<Row>, live: seq<int>, report: Report)
    requires UniqueGenerations(rows) && forall p | p in live :: p > 0
    ensures UniqueGenerations(FinalRows(inputs, rows, live, report))
  {
    var c := CompactionOf(inputs, live, report);
    var marked := MarkedAll(Surveyed(inputs, rows, live), report.signalled, inputs.refusing, inputs.now);
    SurveyHoldsAll(inputs, rows, live);
    MarkingKeepsUnique(Surveyed(inputs, rows, live), report.signalled, inputs.refusing, inputs.now);
    WithoutUnique(marked, Places(c, marked));
  }

  /** What the verdict means. */
  predicate Judged(report: Report) {
    && (report.verdict == Degraded <==> report.failed != [])
    && (report.verdict == OverBudget <==> report.failed == [] && |report.live| > 1)
    && (report.verdict == ReapedExtras <==> report.failed == [] && |report.live| <= 1 && report.reaped != [])
    && (report.verdict == Healthy <==> report.failed == [] && |report.live| <= 1 && report.reaped == [])
  }

  /** What is promised about the processes. `live` are the verified ones, `rows` what was known of them. */
  ghost predicate Settled(inputs: Inputs, rows: seq<Row>, live: seq<int>, report: Report) {
    && Judged(report)
    && (if inputs.reapExtras && |live| > 1 then
          && report.activePid in live
          && (ActivePidOf(inputs) in live ==> report.activePid == ActivePidOf(inputs))
          && (ActivePidOf(inputs) !in live ==> NewestLive(rows, live, report.activePid))
          && report.signalled == Others(live, report.activePid)
          && report.live == {report.activePid} + Members(report.failed) && |report.live| == 1 + |report.failed|
          && report.reaped == Those(report.signalled, inputs.refusing, false)
          && report.failed == Those(report.signalled, inputs.refusing, true)
        else
          && report.activePid == ActivePidOf(inputs)
          && report.signalled == [] && report.reaped == [] && report.failed == [] && report.live == Members(live))
  }

  lemma JudgeMeans(report: Report)
    requires report.verdict == Judge(report.live, report.reaped, report.failed)
    ensures Judged(report)
  {
  }

  /** The whole reconciliation of a loaded registry. */
  method ReconcileProcesses(t: Table, inputs: Inputs)
    returns (report: Report, ghost live: seq<int>, ghost entered: seq<Row>, ghost marked: seq<Row>)
    modifies t
    ensures entered == if inputs.metadata.Some? && Ours(inputs.metadata.value, inputs.profile)
                       then Upserted(old(t.rows), inputs.metadata.value) else old(t.rows)
    ensures report.verdict == Failed <==> CannotTell(inputs, entered)
    ensures report.verdict == Failed ==> report.signalled == [] && t.rows == entered
    ensures report.verdict != Failed ==>
              && VerifiedLive(inputs, entered, live)
              && Settled(inputs, Surveyed(inputs, entered, live), live, report)
              && Noted(Surveyed(inputs, entered, live), marked, Members(report.reaped), Members(report.failed),
                       inputs.now)
              && t.rows == Compacted(CompactionOf(inputs, live, report), marked)
              && t.rows == FinalRows(inputs, entered, live, report)
              && report.history == Some(Tally(CompactionOf(inputs, live, report), marked))
    ensures report.verdict == Healthy || report.verdict == ReapedExtras ==> |report.live| <= 1
  {
    if inputs.metadata.Some? && Ours(inputs.metadata.value, inputs.profile) {
      t.Upsert(inputs.metadata.value);
    }
    entered, marked, live := t.rows, t.rows, [];
    report := Report(Failed, ActivePidOf(inputs), {}, [], [], [], None);
    var found := FindLive(inputs, t.rows);
    if found == None {
      return;
    }
    live := found.value;
    var pids := found.value;
    EnterUnregistered(t, pids, inputs.profile, inputs.now);
    RefreshStates(t, ViewOf(inputs, pids));
    report := StopExtras(t, inputs, pids, entered);
    marked := t.rows;
    var c := Context(report.live, ViewOf(inputs, pids).active, inputs.now, inputs.retention, inputs.tail);
    var history := Compact(t, c);
    report := report.(history := Some(history));
  }

  /** Stop the extra processes if that is wanted, and judge what is left. */
  method StopExtras(t: Table, inputs: Inputs, pids: seq<int>, ghost entered: seq<Row>) returns (report: Report)
    requires Ascending(pids) && (forall p | p in pids :: p > 0) && t.rows == Surveyed(inputs, entered, pids)
    modifies t
    ensures report.verdict != Failed && Settled(inputs, old(t.rows), pids, report)
    ensures t.rows == MarkedAll(old(t.rows), report.signalled, inputs.refusing, inputs.now)
    ensures Noted(old(t.rows), t.rows, Members(report.reaped), Members(report.failed), inputs.now)
  {
    var activePid := ActivePidOf(inputs);
    var signalled, reaped, failed := [], [], [];
    var alive := Members(pids);
    if inputs.reapExtras && |pids| > 1 {
      SurveyHoldsAll(inputs, entered, pids);
      var retained;
      retained, signalled, reaped, failed := ReapExtras(t, pids, activePid, inputs.refusing, inputs.now);
      LeftAlive(pids, retained, inputs.refusing);
      alive := alive - Members(reaped);
      if activePid !in pids {
        activePid := retained;
      }
    }
    report := Report(Judge(alive, reaped, failed), activePid, alive, signalled, reaped, failed, None);
    JudgeMeans(report);
  }

  lemma {:induction false} WithoutUnique(rows: seq<Row>, places: set<nat>)
    ensures forall r | r in Without(rows, places) :: r in rows
    ensures UniqueGenerations(rows) ==> UniqueGenerations(Without(rows, places))
    decreases |rows|
  {
    if rows != [] {
      var k := |rows| - 1;
      WithoutUnique(rows[..k], places);
      var rest := Without(rows[..k], places);
      forall j | 0 <= j < |rest| && UniqueGenerations(rows) && GenerationOf(rest[j]) != NoGeneration
        ensures GenerationOf(rest[j]) != GenerationOf(rows[k])
      {
        assert rest[j] in rest;
        var i :| 0 <= i < k && rows[i] == rest[j];
      }
    }
  }
}
