/** The rows of the managed-process registry and how a launch is entered
    (internal/browser/managed.go). Text values are taken as already trimmed. */
module Registry {
  import opened Basics

  /** A time field: blank, an RFC 3339 time, or other text such as a process identity. */
  datatype Stamp = Blank | Instant(time: int) | Token(text: string)

  /** Go's zero time, which counts as no time at all. */
  const ZERO_TIME := 0

  /** A generation id: absent, written in the row, or the hash of who the process is. */
  datatype GenerationId =
    | NoGeneration
    | Named(text: string)
    | Hashed(pid: int, start: Stamp, marker: string, dir: string)

  datatype RunState =
    | NoState
    | Live
    | Metadata
    | LiveUnregistered
    | Exited
    | Stopped
    | Reaped
    | LaunchFailed
    | SignalFailed
    | Superseded
    | Indeterminate
    | OtherState(text: string)

  datatype Lifecycle = IsActive | IsExited | IsSuperseded | IsIndeterminate | IsUnknown

  datatype Row = Row(
    generation: GenerationId,
    pid: int,
    mode: string,
    dir: string,
    port: string,
    startedAt: Stamp,
    lastSeenAt: Stamp,
    exitedAt: Stamp,
    state: RunState,
    cleanupAt: Stamp,
    cleanupReason: string,
    marker: string,
    processStart: Stamp,
    seed: string)

  const HEADLESS := "headless"

  function GenerationOf(r: Row): GenerationId {
    if r.generation != NoGeneration then r.generation
    else if r.pid <= 0 || r.processStart == Blank || r.marker == "" then NoGeneration
    else Hashed(r.pid, r.processStart, r.marker, r.dir)
  }

  function LifecycleOf(r: Row): Lifecycle {
    match r.state
    case Live => IsActive
    case Metadata => IsActive
    case Exited => IsExited
    case Stopped => IsExited
    case Reaped => IsExited
    case LaunchFailed => IsExited
    case Superseded => IsSuperseded
    case SignalFailed => IsIndeterminate
    case LiveUnregistered => IsIndeterminate
    case NoState => IsIndeterminate
    case Indeterminate => IsUnknown
    case OtherState(_) => IsUnknown
  }

  function FirstInstant(stamps: seq<Stamp>): int
    decreases |stamps|
  {
    if stamps == [] then ZERO_TIME
    else if stamps[0].Instant? then stamps[0].time
    else FirstInstant(stamps[1..])
  }

  /** The latest thing known to have happened to a row, by the first field that holds a time. */
  function TimeOf(r: Row): int {
    FirstInstant([r.cleanupAt, r.exitedAt, r.lastSeenAt, r.processStart, r.startedAt])
  }

  predicate Newer(a: Row, b: Row) {
    if TimeOf(a) != ZERO_TIME || TimeOf(b) != ZERO_TIME then TimeOf(a) > TimeOf(b) else a.pid > b.pid
  }

  /** Which states count as over, and why. */
  lemma LifecycleTells(r: Row)
    ensures LifecycleOf(r) == IsActive <==> r.state == Live || r.state == Metadata
    ensures LifecycleOf(r) == IsExited <==>
              r.state == Exited || r.state == Stopped || r.state == Reaped || r.state == LaunchFailed
    ensures LifecycleOf(r) == IsSuperseded <==> r.state == Superseded
    ensures LifecycleOf(r) == IsIndeterminate <==>
              r.state == SignalFailed || r.state == LiveUnregistered || r.state == NoState
  {
  }

  lemma FirstIsKnown(stamp: Stamp, rest: seq<Stamp>)
    ensures FirstInstant([stamp] + rest) == if stamp.Instant? then stamp.time else FirstInstant(rest)
  {
    assert ([stamp] + rest)[1..] == rest;
  }

  /** A row's time is its cleanup time if it has one, or else its exit time, and so on. */
  lemma TimeIsFirstKnown(r: Row)
    ensures r.cleanupAt.Instant? ==> TimeOf(r) == r.cleanupAt.time
    ensures !r.cleanupAt.Instant? && r.exitedAt.Instant? ==> TimeOf(r) == r.exitedAt.time
    ensures !r.cleanupAt.Instant? && !r.exitedAt.Instant? && r.lastSeenAt.Instant? ==> TimeOf(r) == r.lastSeenAt.time
    ensures !r.cleanupAt.Instant? && !r.exitedAt.Instant? && !r.lastSeenAt.Instant? ==>
              TimeOf(r) == if r.processStart.Instant? then r.processStart.time
                           else if r.startedAt.Instant? then r.startedAt.time else ZERO_TIME
  {
    FirstIsKnown(r.startedAt, []);
    FirstIsKnown(r.processStart, [r.startedAt] + []);
    FirstIsKnown(r.lastSeenAt, [r.processStart] + ([r.startedAt] + []));
    FirstIsKnown(r.exitedAt, [r.lastSeenAt] + ([r.processStart] + ([r.startedAt] + [])));
    FirstIsKnown(r.cleanupAt, [r.exitedAt] + ([r.lastSeenAt] + ([r.processStart] + ([r.startedAt] + []))));
    assert [r.cleanupAt, r.exitedAt, r.lastSeenAt, r.processStart, r.startedAt]
        == [r.cleanupAt] + ([r.exitedAt] + ([r.lastSeenAt] + ([r.processStart] + ([r.startedAt] + []))));
  }

  /** Of two rows the one with the later time is newer; among rows without a time, the larger pid. */
  lemma NewerTells(a: Row, b: Row)
    ensures TimeOf(a) > TimeOf(b) ==> Newer(a, b) && !Newer(b, a)
    ensures TimeOf(a) == ZERO_TIME == TimeOf(b) ==> (Newer(a, b) <==> a.pid > b.pid)
    ensures TimeOf(a) == TimeOf(b) != ZERO_TIME ==> !Newer(a, b)
  {
  }

  /** A row has a generation when one is written in it, or its process, start and marker are known. */
  lemma GenerationTells(r: Row)
    ensures GenerationOf(r) == NoGeneration <==>
              r.generation == NoGeneration && (r.pid <= 0 || r.processStart == Blank || r.marker == "")
    ensures r.generation != NoGeneration ==> GenerationOf(r) == r.generation
    ensures r.generation == NoGeneration && GenerationOf(r) != NoGeneration ==>
              GenerationOf(r) == Hashed(r.pid, r.processStart, r.marker, r.dir)
  {
  }

  // --------------------------------------------------------------- looking rows up

  /** The first row of a generation at or after `from`, or the number of rows. */
  function GenerationAt(rows: seq<Row>, g: GenerationId, from: nat): (k: nat)
    requires from <= |rows|
    ensures from <= k <= |rows|
    ensures forall j | from <= j < k :: GenerationOf(rows[j]) != g
    ensures k < |rows| ==> GenerationOf(rows[k]) == g
    decreases |rows| - from
  {
    if from == |rows| || GenerationOf(rows[from]) == g then from else GenerationAt(rows, g, from + 1)
  }

  function PidAt(rows: seq<Row>, pid: int, from: nat): (k: nat)
    requires from <= |rows|
    ensures from <= k <= |rows|
    ensures forall j | from <= j < k :: rows[j].pid != pid
    ensures k < |rows| ==> rows[k].pid == pid
    decreases |rows| - from
  {
    if from == |rows| || rows[from].pid == pid then from else PidAt(rows, pid, from + 1)
  }

  // ------------------------------------------------------------------ entering rows

  function Stamped(r: Row): Row {
    r.(mode := if r.mode == "" then HEADLESS else r.mode, generation := GenerationOf(r))
  }

  function OrOld(value: string, old_: string): string {
    if value == "" then old_ else value
  }

  function OrOldStamp(value: Stamp, old_: Stamp): Stamp {
    if value == Blank then old_ else value
  }

  /** A new row takes over what it leaves blank, except the generation id. */
  function Merged(was: Row, r: Row): Row {
    r.(mode := OrOld(r.mode, was.mode), dir := OrOld(r.dir, was.dir), port := OrOld(r.port, was.port),
       startedAt := OrOldStamp(r.startedAt, was.startedAt), lastSeenAt := OrOldStamp(r.lastSeenAt, was.lastSeenAt),
       exitedAt := OrOldStamp(r.exitedAt, was.exitedAt), state := if r.state == NoState then was.state else r.state,
       cleanupAt := OrOldStamp(r.cleanupAt, was.cleanupAt), cleanupReason := OrOld(r.cleanupReason, was.cleanupReason),
       marker := OrOld(r.marker, was.marker), processStart := OrOldStamp(r.processStart, was.processStart),
       seed := OrOld(r.seed, was.seed))
  }

  function PlaceOf(rows: seq<Row>, r: Row): nat {
    if GenerationOf(r) != NoGeneration then GenerationAt(rows, GenerationOf(r), 0) else PidAt(rows, r.pid, 0)
  }

  function Upserted(rows: seq<Row>, r: Row): seq<Row> {
    if r.pid <= 0 then rows
    else
      var k := PlaceOf(rows, r);
      if k >= |rows| then rows + [Stamped(r)] else rows[k := Merged(rows[k], Stamped(r))]
  }

  /** `after` is the first of two values that is not blank. */
  predicate TextOver(value: string, was: string, after: string) {
    (value != "" ==> after == value) && (value == "" ==> after == was)
  }

  predicate StampOver(value: Stamp, was: Stamp, after: Stamp) {
    (value != Blank ==> after == value) && (value == Blank ==> after == was)
  }

  /** The row a new one is entered over is the first of its generation or, when it has none, the first
      of its pid; every field the new row gives is the new row's, and each one it leaves blank is the
      old one's, except the pid, the generation and the mode, which are the new row's in any case. */
  lemma EntersOverFirst(rows: seq<Row>, r: Row)
    requires r.pid > 0
    ensures
      var k := PlaceOf(rows, r);
      var after := Upserted(rows, r);
      var g := GenerationOf(r);
      && k < |after|
      && after[k].pid == r.pid && after[k].generation == g
      && after[k].mode == (if r.mode == "" then "headless" else r.mode)
      && (forall j | 0 <= j < k ::
            && rows[j] == after[j]
            && if g != NoGeneration then GenerationOf(rows[j]) != g else rows[j].pid != r.pid)
      && (k == |rows| ==>
            after == rows + [after[k]] && after[k] == r.(mode := after[k].mode, generation := after[k].generation))
      && (k < |rows| ==>
            var was, now := rows[k], after[k];
            && |after| == |rows| && (forall j | k < j < |rows| :: after[j] == rows[j])
            && (if g != NoGeneration then GenerationOf(was) == g else was.pid == r.pid)
            && TextOver(r.dir, was.dir, now.dir) && TextOver(r.port, was.port, now.port)
            && StampOver(r.startedAt, was.startedAt, now.startedAt)
            && StampOver(r.lastSeenAt, was.lastSeenAt, now.lastSeenAt)
            && StampOver(r.exitedAt, was.exitedAt, now.exitedAt)
            && now.state == (if r.state != NoState then r.state else was.state)
            && StampOver(r.cleanupAt, was.cleanupAt, now.cleanupAt)
            && TextOver(r.cleanupReason, was.cleanupReason, now.cleanupReason)
            && TextOver(r.marker, was.marker, now.marker)
            && StampOver(r.processStart, was.processStart, now.processStart)
            && TextOver(r.seed, was.seed, now.seed))
  {
  }

  ghost predicate UniqueGenerations(rows: seq<Row>) {
    forall i, j | 0 <= i < j < |rows| && GenerationOf(rows[i]) != NoGeneration ::
      GenerationOf(rows[i]) != GenerationOf(rows[j])
  }

  /** What a caller can check: the row knows its generation, or its pid is new. */
  predicate MayEnter(rows: seq<Row>, r: Row) {
    GenerationOf(r) != NoGeneration || PidAt(rows, r.pid, 0) == |rows|
  }

  /** Entering such a row keeps generations unique, gives its generation exactly one row, and leaves
      every other row as it was. */
  lemma UpsertKeepsUnique(rows: seq<Row>, r: Row)
    requires UniqueGenerations(rows) && MayEnter(rows, r)
    ensures UniqueGenerations(Upserted(rows, r))
    ensures |rows| <= |Upserted(rows, r)| <= |rows| + 1
    ensures forall k | 0 <= k < |rows| && k != PlaceOf(rows, r) :: Upserted(rows, r)[k] == rows[k]
    ensures r.pid > 0 ==>
              var k := PlaceOf(rows, r);
              && k < |Upserted(rows, r)| && Upserted(rows, r)[k].pid == r.pid
              && GenerationOf(Upserted(rows, r)[k]) == GenerationOf(r)
  {
    var k := PlaceOf(rows, r);
    assert GenerationOf(Stamped(r)) == GenerationOf(r);
    assert k < |rows| ==> GenerationOf(Merged(rows[k], Stamped(r))) == GenerationOf(rows[k]);
  }

  /** The row is entered over another of its pid, and what the merge makes of the two is a generation
      that some third row already has. */
  predicate Clash(rows: seq<Row>, r: Row) {
    !MayEnter(rows, r)
    && var k := PlaceOf(rows, r);
       k < |rows|
       && var g := GenerationOf(Merged(rows[k], Stamped(r)));
          g != NoGeneration && exists j | 0 <= j < |rows| && j != k :: GenerationOf(rows[j]) == g
  }

  /** Entering a row keeps generations unique exactly when there is no such clash. */
  lemma UpsertKeepsUniqueExactly(rows: seq<Row>, r: Row)
    requires UniqueGenerations(rows) && r.pid > 0
    ensures UniqueGenerations(Upserted(rows, r)) <==> !Clash(rows, r)
  {
    var k := PlaceOf(rows, r);
    if MayEnter(rows, r) {
      UpsertKeepsUnique(rows, r);
    } else {
      var g := GenerationOf(Merged(rows[k], Stamped(r)));
      var after := Upserted(rows, r);
      assert forall j | 0 <= j < |rows| :: after[j] == if j == k then Merged(rows[k], Stamped(r)) else rows[j];
      if Clash(rows, r) {
        var j :| 0 <= j < |rows| && j != k && GenerationOf(rows[j]) == g;
        assert GenerationOf(after[j]) == GenerationOf(after[k]) == g;
      }
    }
  }

  function PlainRow(pid: int): Row {
    Row(NoGeneration, pid, HEADLESS, "", "", Blank, Blank, Blank, NoState, Blank, "", "", Blank, "")
  }

  function HashedRow(pid: int): Row {
    PlainRow(pid).(marker := "m", processStart := Token("proc:1"))
  }

  /** Two rows of one process, the first under a written generation and the second under the hash: a
      row of that pid without a generation drops the first's id and leaves the hash twice. */
  lemma BlankUpsertDuplicates(pid: int)
    requires pid > 0
    ensures
      var rows := [HashedRow(pid).(generation := Named("g")), HashedRow(pid)];
      && UniqueGenerations(rows) && Clash(rows, PlainRow(pid))
      && Upserted(rows, PlainRow(pid)) == [HashedRow(pid), HashedRow(pid)]
      && !UniqueGenerations(Upserted(rows, PlainRow(pid)))
  {
    var rows := [HashedRow(pid).(generation := Named("g")), HashedRow(pid)];
    assert GenerationOf(rows[1]) == Hashed(pid, Token("proc:1"), "m", "");
    assert PlaceOf(rows, PlainRow(pid)) == 0;
    assert GenerationOf(Merged(rows[0], Stamped(PlainRow(pid)))) == GenerationOf(rows[1]);
    UpsertKeepsUniqueExactly(rows, PlainRow(pid));
  }

  /** The newest row of a pid among the first `n`, or None. */
  function NewestOf(rows: seq<Row>, pid: int, n: nat): Option<nat>
    requires n <= |rows|
    decreases n
  {
    if n == 0 then None
    else
      var best := NewestOf(rows, pid, n - 1);
      if rows[n - 1].pid != pid then best
      else if best == None || (best.value < |rows| && Newer(rows[n - 1], rows[best.value])) then Some(n - 1)
      else best
  }

  function Marked(r: Row, state: RunState, at: int, reason: string): Row {
    r.(state := state, cleanupAt := Instant(at), cleanupReason := reason,
       exitedAt := if state == Reaped then Instant(at) else r.exitedAt)
  }

  function MarkedRows(rows: seq<Row>, pid: int, state: RunState, at: int, reason: string): seq<Row> {
    match NewestOf(rows, pid, |rows|)
    case None => rows
    case Some(k) => if k < |rows| then rows[k := Marked(rows[k], state, at, reason)] else rows
  }

  /** NewestOf finds a row of the pid exactly when there is one, and none of its rows is newer. */
  lemma {:induction false} NewestIsNewest(rows: seq<Row>, pid: int, n: nat)
    requires n <= |rows|
    ensures NewestOf(rows, pid, n) == None <==> forall j | 0 <= j < n :: rows[j].pid != pid
    ensures NewestOf(rows, pid, n).Some? ==>
              var k := NewestOf(rows, pid, n).value;
              && k < n && rows[k].pid == pid
              && (forall j | 0 <= j < n && rows[j].pid == pid :: !Newer(rows[j], rows[k]))
    decreases n
  {
    if n > 0 {
      NewestIsNewest(rows, pid, n - 1);
    }
  }

  /** A row once its process was stopped, or would not be. */
  predicate NotesStopped(was: Row, after: Row, at: int, reason: string) {
    after == was.(state := Reaped, exitedAt := Instant(at), cleanupAt := Instant(at), cleanupReason := reason)
  }

  predicate NotesRefusal(was: Row, after: Row, at: int, reason: string) {
    after == was.(state := SignalFailed, cleanupAt := Instant(at), cleanupReason := reason)
  }

  /** Marking touches the newest row of the pid alone: a reaped one gets an exit time, a process that
      refused keeps the one it has. */
  lemma MarksNewest(rows: seq<Row>, pid: int, state: RunState, at: int, reason: string, k: nat)
    requires k < |rows|
    ensures
      var after := MarkedRows(rows, pid, state, at, reason);
      && |after| == |rows|
      && (NewestOf(rows, pid, |rows|) != Some(k) ==> after[k] == rows[k])
      && (NewestOf(rows, pid, |rows|) == Some(k) ==>
            && rows[k].pid == pid
            && (state == Reaped ==> NotesStopped(rows[k], after[k], at, reason))
            && (state == SignalFailed ==> NotesRefusal(rows[k], after[k], at, reason)))
  {
    NewestIsNewest(rows, pid, |rows|);
  }

  /** Which row of a pid is the newest depends on the rows of that pid alone. */
  lemma {:induction false} NewestIgnoresOthers(rows: seq<Row>, after: seq<Row>, pid: int, n: nat)
    requires n <= |rows| == |after|
    requires forall k | 0 <= k < |rows| :: after[k].pid == rows[k].pid && (rows[k].pid == pid ==> after[k] == rows[k])
    ensures NewestOf(after, pid, n) == NewestOf(rows, pid, n)
    decreases n
  {
    if n > 0 {
      NewestIgnoresOthers(rows, after, pid, n - 1);
      NewestIsNewest(rows, pid, n - 1);
    }
  }

  /** The registry file's rows, updated in place. */
  class Table {
    var rows: seq<Row>

    constructor (rows: seq<Row>)
      ensures this.rows == rows
    {
      this.rows := rows;
    }

    method FindGeneration(g: GenerationId) returns (k: nat)
      ensures k == GenerationAt(rows, g, 0)
    {
      k := 0;
      while k < |rows| && GenerationOf(rows[k]) != g
        invariant k <= |rows| && GenerationAt(rows, g, k) == GenerationAt(rows, g, 0)
      {
        k := k + 1;
      }
    }

    method FindPid(pid: int) returns (k: nat)
      ensures k == PidAt(rows, pid, 0)
    {
      k := 0;
      while k < |rows| && rows[k].pid != pid
        invariant k <= |rows| && PidAt(rows, pid, k) == PidAt(rows, pid, 0)
      {
        k := k + 1;
      }
    }

    method Upsert(r: Row)
      modifies this
      ensures rows == Upserted(old(rows), r)
      ensures old(UniqueGenerations(rows) && MayEnter(rows, r)) ==> UniqueGenerations(rows)
      ensures old(UniqueGenerations(rows)) && r.pid > 0 ==> (UniqueGenerations(rows) <==> !old(Clash(rows, r)))
    {
      if UniqueGenerations(rows) && r.pid > 0 {
        UpsertKeepsUniqueExactly(rows, r);
      }
      if r.pid <= 0 {
        return;
      }
      var stamped := r.(mode := OrOld(r.mode, HEADLESS), generation := GenerationOf(r));
      var k;
      if stamped.generation != NoGeneration {
        k := FindGeneration(stamped.generation);
      } else {
        k := FindPid(r.pid);
      }
      if k == |rows| {
        rows := rows + [stamped];
      } else {
        rows := rows[k := Merged(rows[k], stamped)];
      }
    }

    /** Note on a process's newest row how its cleanup went. */
    method MarkCleanup(pid: int, state: RunState, at: int, reason: string)
      modifies this
      ensures rows == MarkedRows(old(rows), pid, state, at, reason)
      ensures |rows| == |old(rows)| && forall k | 0 <= k < |rows| :: GenerationOf(rows[k]) == GenerationOf(old(rows)[k])
    {
      var best: Option<nat> := None;
      var k := 0;
      while k < |rows|
        invariant k <= |rows| && best == NewestOf(rows, pid, k) && (best.Some? ==> best.value < k)
      {
        if rows[k].pid == pid {
          if best == None {
            best := Some(k);
          } else if Newer(rows[k], rows[best.value]) {
            best := Some(k);
          }
        }
        k := k + 1;
      }
      if best.Some? {
        rows := rows[best.value := Marked(rows[best.value], state, at, reason)];
      }
    }
  }
}
