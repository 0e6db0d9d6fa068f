/** The gate that keeps repair work from starting right after the machine woke up
    (internal/availability/availability.go). Times and durations are nanoseconds. */
module Availability {
  import opened Basics
  import opened Journal

  const SECOND := 1_000_000_000
  const DEFAULT_THRESHOLD := 120 * SECOND
  const DEFAULT_COOLDOWN := 120 * SECOND

  /** What the state file holds; None is Go's zero time. */
  datatype Memory = Memory(last: Option<int>, until: Option<int>)

  const Nothing := Memory(None, None)

  datatype Options = Options(threshold: int, cooldown: int)

  /** One check: its time, and what it finds of the desktop, the lock and file, the network and the
      storage. */
  datatype Tick = Tick(at: int, desktop: bool, readable: bool, online: bool, fault: Fault)

  datatype Verdict =
    | DesktopUnavailable
    | Unreadable
    | Unwritable
    | ClockChanged
    | Suspended
    | CoolingDown
    | Offline
    | Ready

  datatype Result = Result(verdict: Verdict, gapSeconds: int, retryAfterSeconds: int)

  function Threshold(o: Options): int {
    if o.threshold <= 0 then DEFAULT_THRESHOLD else o.threshold
  }

  function Cooldown(o: Options): int {
    if o.cooldown <= 0 then DEFAULT_COOLDOWN else o.cooldown
  }

  /** Go's division truncates toward zero. */
  function Truncated(a: int, b: int): int
    requires b > 0
  {
    if a >= 0 then a / b else -(-a / b)
  }

  /** Go's time.Sub stops at the largest 64-bit duration. */
  function SecondsUntil(now: int, until: int): int {
    if until <= now then 0
    else
      var seconds := Truncated(Wrap(Min(until - now, INT64_HALF - 1) + SECOND - 1), SECOND);
      if seconds < 1 then 1 else seconds
  }

  predicate GapAt(o: Options, m: Memory, at: int) {
    m.last.Some? && at - m.last.value > Threshold(o)
  }

  /** The memory a check wants to keep, and its answer if it can. */
  function Decide(o: Options, m: Memory, t: Tick): (Memory, Result) {
    var fresh_ := Memory(Some(t.at), Some(t.at + Cooldown(o)));
    if m.last.Some? && t.at < m.last.value
    then (fresh_, Result(ClockChanged, 0, SecondsUntil(t.at, t.at + Cooldown(o))))
    else if GapAt(o, m, t.at)
    then (fresh_, Result(Suspended, (t.at - m.last.value) / SECOND, SecondsUntil(t.at, t.at + Cooldown(o))))
    else if m.until.Some? && m.until.value > t.at
    then (m.(last := Some(t.at)), Result(CoolingDown, 0, SecondsUntil(t.at, m.until.value)))
    else (Memory(Some(t.at), None), Result(if t.online then Ready else Offline, 0, 0))
  }

  /** One check against the state file. A save can fail before or after it takes effect. */
  function Checked(o: Options, m: Memory, t: Tick): (Memory, Result) {
    if !t.desktop then (m, Result(DesktopUnavailable, 0, 0))
    else if !t.readable then (m, Result(Unreadable, 0, 0))
    else
      var (next, answer) := Decide(o, m, t);
      (if t.fault == FailsBefore then m else next, if t.fault == Lands then answer else Result(Unwritable, 0, 0))
  }

  /** What a check answers and leaves behind when nothing fails. A clock that went back, or a gap since the
      last observation, suppresses for the cooldown; a suppression that is not over is kept; otherwise the
      network decides. */
  predicate Answers(o: Options, before: Memory, t: Tick, after: Memory, r: Result) {
    var back := before.last.Some? && t.at < before.last.value;
    var slept := before.last.Some? && t.at - before.last.value > Threshold(o);
    var cooling := before.until.Some? && t.at < before.until.value;
    && after.last == Some(t.at)
    && (r.verdict == ClockChanged <==> back)
    && (r.verdict == Suspended <==> slept)
    && (r.verdict == CoolingDown <==> !back && !slept && cooling)
    && (r.verdict == Offline <==> !back && !slept && !cooling && !t.online)
    && (r.verdict == Ready <==> !back && !slept && !cooling && t.online)
    && (back || slept ==> after.until == Some(t.at + Cooldown(o)))
    && (!back && !slept ==> after.until == if cooling then before.until else None)
    && r.gapSeconds == (if slept then (t.at - before.last.value) / SECOND else 0)
    && r.retryAfterSeconds == (if after.until.Some? then SecondsUntil(t.at, after.until.value) else 0)
  }

  predicate Allowed(r: Result) {
    r.verdict == Ready
  }

  class Gate {
    const options: Options
    var file: Memory

    constructor (options: Options)
      ensures this.options == options && file == Nothing
    {
      this.options := options;
      file := Nothing;
    }

    method Save(next: Memory, fault: Fault) returns (ok: bool)
      modifies this
      ensures file == (if fault == FailsBefore then old(file) else next) && ok == (fault == Lands)
    {
      if fault != FailsBefore {
        file := next;
      }
      ok := fault == Lands;
    }

    method Check(t: Tick) returns (r: Result)
      modifies this
      ensures (file, r) == Checked(options, old(file), t)
      ensures r.verdict == DesktopUnavailable <==> !t.desktop
      ensures r.verdict == Unreadable <==> t.desktop && !t.readable
      ensures r.verdict == Unwritable <==> t.desktop && t.readable && t.fault != Lands
      ensures !t.desktop || !t.readable || t.fault == FailsBefore ==> file == old(file)
      ensures t.desktop && t.readable && t.fault == Lands ==> Answers(options, old(file), t, file, r)
      ensures Allowed(r) ==>
                && t.online && t.desktop && !GapAt(options, old(file), t.at)
                && (old(file).until.Some? ==> old(file).until.value <= t.at)
                && file == Memory(Some(t.at), None)
    {
      if !t.desktop {
        return Result(DesktopUnavailable, 0, 0);
      }
      if !t.readable {
        return Result(Unreadable, 0, 0);
      }
      var state := file;
      var cooldown := if options.cooldown <= 0 then DEFAULT_COOLDOWN else options.cooldown;
      var threshold := if options.threshold <= 0 then DEFAULT_THRESHOLD else options.threshold;
      r := Result(Ready, 0, 0);
      var decided := false;
      if state.last.Some? {
        var gap := t.at - state.last.value;
        if gap < 0 {
          r := r.(verdict := ClockChanged);
          decided := true;
        } else if gap > threshold {
          r := r.(verdict := Suspended, gapSeconds := gap / SECOND);
          decided := true;
        }
      }
      if decided {
        state := Memory(Some(t.at), Some(t.at + cooldown));
        r := r.(retryAfterSeconds := SecondsUntil(t.at, state.until.value));
      } else if state.until.Some? && state.until.value > t.at {
        state := state.(last := Some(t.at));
        r := r.(verdict := CoolingDown, retryAfterSeconds := SecondsUntil(t.at, state.until.value));
      } else {
        state := Memory(Some(t.at), None);
        r := r.(verdict := if t.online then Ready else Offline);
      }
      var ok := Save(state, t.fault);
      if !ok {
        r := Result(Unwritable, 0, 0);
      }
    }
  }

  // ------------------------------------------------------------------ whole runs

  /** The state file after a run of checks. */
  function After(o: Options, m: Memory, ticks: seq<Tick>): Memory
    decreases |ticks|
  {
    if ticks == [] then m
    else
      var k := |ticks| - 1;
      Checked(o, After(o, m, ticks[..k]), ticks[k]).0
  }

  /** The answer of check `k` of a run. */
  function AnswerAt(o: Options, ticks: seq<Tick>, k: nat): Result
    requires k < |ticks|
  {
    Checked(o, After(o, Nothing, ticks[..k]), ticks[k]).1
  }

  /** Check `k` looked at the state file and saw that the machine had slept, whether or not it could
      record that. */
  predicate DetectsGap(o: Options, ticks: seq<Tick>, k: nat)
    requires k < |ticks|
  {
    ticks[k].desktop && ticks[k].readable && GapAt(o, After(o, Nothing, ticks[..k]), ticks[k].at)
  }

  /** Check `k` left its own time in the state file. */
  predicate Records(ticks: seq<Tick>, k: nat)
    requires k < |ticks|
  {
    ticks[k].desktop && ticks[k].readable && ticks[k].fault != FailsBefore
  }

  ghost predicate ClockRuns(ticks: seq<Tick>) {
    forall i, j | 0 <= i <= j < |ticks| :: ticks[i].at <= ticks[j].at
  }

  lemma {:induction false} LastIsRecorded(o: Options, ticks: seq<Tick>)
    requires ClockRuns(ticks)
    ensures
      var m := After(o, Nothing, ticks);
      && (m.last.Some? ==> |ticks| > 0 && m.last.value <= ticks[|ticks| - 1].at)
      && (forall j | 0 <= j < |ticks| && Records(ticks, j) :: m.last.Some? && ticks[j].at <= m.last.value)
      && (m.last.Some? ==> exists j :: 0 <= j < |ticks| && Records(ticks, j) && ticks[j].at == m.last.value)
    decreases |ticks|
  {
    if ticks != [] {
      var k := |ticks| - 1;
      var init := ticks[..k];
      LastIsRecorded(o, init);
      assert forall j | 0 <= j < k :: Records(init, j) == Records(ticks, j);
      if Records(ticks, k) {
        assert After(o, Nothing, ticks).last == Some(ticks[k].at);
      } else {
        assert After(o, Nothing, ticks) == After(o, Nothing, init);
      }
    }
  }

  /** A detected gap is not lost: it is either still there to be seen, or suppresses long enough, or has
      done so. */
  ghost predicate GapRemembered(o: Options, m: Memory, detected: int, now: int) {
    || GapAt(o, m, detected)
    || (m.until.Some? && m.until.value >= detected + Cooldown(o))
    || now >= detected + Cooldown(o)
  }

  lemma CheckRemembers(o: Options, m: Memory, t: Tick, detected: int)
    requires detected <= t.at && (m.last.Some? ==> m.last.value <= t.at)
    requires GapRemembered(o, m, detected, t.at)
    ensures GapRemembered(o, Checked(o, m, t).0, detected, t.at)
  {
  }

  lemma {:induction false} GapIsRemembered(o: Options, ticks: seq<Tick>, j: nat)
    requires ClockRuns(ticks) && j < |ticks| && DetectsGap(o, ticks, j)
    ensures GapRemembered(o, After(o, Nothing, ticks), ticks[j].at, ticks[|ticks| - 1].at)
    decreases |ticks|
  {
    var k := |ticks| - 1;
    var init := ticks[..k];
    LastIsRecorded(o, init);
    if j < k {
      assert ticks[..j] == init[..j];
      GapIsRemembered(o, init, j);
    }
    CheckRemembers(o, After(o, Nothing, init), ticks[k], ticks[j].at);
  }

  /** Over any run, save failures included: when a check allows repair work, no check of the last
      cooldown period, itself included, saw a gap, and the previous recorded observation is no older
      than the threshold. */
  lemma AllowedIsSafe(o: Options, ticks: seq<Tick>, k: nat, j: nat)
    requires ClockRuns(ticks) && j <= k < |ticks| && Allowed(AnswerAt(o, ticks, k))
    ensures DetectsGap(o, ticks, j) ==> ticks[j].at <= ticks[k].at - Cooldown(o)
    ensures j < k && Records(ticks, j) ==>
              exists i :: j <= i < k && Records(ticks, i) && ticks[k].at - ticks[i].at <= Threshold(o)
  {
    var init := ticks[..k];
    var m := After(o, Nothing, init);
    LastIsRecorded(o, init);
    if j < k {
      assert ticks[..j] == init[..j];
      if DetectsGap(o, ticks, j) {
        GapIsRemembered(o, init, j);
      }
      if Records(ticks, j) {
        NewestRecorded(o, init, j);
        var i :| j <= i < k && Records(init, i) && m.last == Some(init[i].at);
        assert Records(ticks, i);
      }
    }
  }

  lemma {:induction false} NewestRecorded(o: Options, ticks: seq<Tick>, j: nat)
    requires j < |ticks| && Records(ticks, j)
    ensures exists i :: j <= i < |ticks| && Records(ticks, i) && After(o, Nothing, ticks).last == Some(ticks[i].at)
    decreases |ticks|
  {
    var k := |ticks| - 1;
    if !Records(ticks, k) {
      var init := ticks[..k];
      assert Records(init, j);
      NewestRecorded(o, init, j);
      var i :| j <= i < k && Records(init, i) && After(o, Nothing, init).last == Some(init[i].at);
      assert Records(ticks, i);
    }
  }

  /** Undisturbed checks at regular intervals, from a memory that is no older than one interval. */
  ghost predicate Regular(o: Options, from: int, ticks: seq<Tick>) {
    && (forall k | 0 <= k < |ticks| ::
          ticks[k].desktop && ticks[k].readable && ticks[k].online && ticks[k].fault == Lands)
    && (ticks != [] ==> from <= ticks[0].at <= from + Threshold(o))
    && (forall k, n | 0 <= k < |ticks| - 1 && n == k + 1 :: ticks[k].at <= ticks[n].at <= ticks[k].at + Threshold(o))
  }

  lemma {:induction false} RegularMemory(o: Options, m: Memory, ticks: seq<Tick>)
    requires m.last.Some? && m.until.Some? && Regular(o, m.last.value, ticks)
    ensures
      var last := if ticks == [] then m.last.value else ticks[|ticks| - 1].at;
      After(o, m, ticks) == Memory(Some(last), if ticks != [] && m.until.value <= last then None else m.until)
    decreases |ticks|
  {
    if ticks != [] {
      var k := |ticks| - 1;
      RegularMemory(o, m, ticks[..k]);
      assert k > 0 ==> ticks[k - 1].at <= ticks[k].at;
    }
  }

  /** Suppression ends when it says: regular online checks are refused before that time, and allowed
      from the first check at or after it. */
  lemma SuppressionEndsOnTime(o: Options, m: Memory, ticks: seq<Tick>, k: nat)
    requires m.last.Some? && m.until.Some? && Regular(o, m.last.value, ticks) && k < |ticks|
    ensures Allowed(Checked(o, After(o, m, ticks[..k]), ticks[k]).1) <==> ticks[k].at >= m.until.value
  {
    RegularMemory(o, m, ticks[..k]);
    assert k > 0 ==> ticks[k - 1].at <= ticks[k].at <= ticks[k - 1].at + Threshold(o);
  }

  /** In particular after a clock that went back, or a gap: regular online checks are refused for the
      cooldown, and allowed from the first one at its end. */
  lemma DisturbanceSuppresses(o: Options, m: Memory, t: Tick, ticks: seq<Tick>, k: nat)
    requires t.desktop && t.readable && t.fault == Lands && m.last.Some?
    requires t.at < m.last.value || t.at - m.last.value > Threshold(o)
    requires Regular(o, t.at, ticks) && k < |ticks|
    ensures !Allowed(Checked(o, m, t).1)
    ensures
      Allowed(Checked(o, After(o, Checked(o, m, t).0, ticks[..k]), ticks[k]).1) <==> ticks[k].at >= t.at + Cooldown(o)
  {
    SuppressionEndsOnTime(o, Checked(o, m, t).0, ticks, k);
  }

  /** The announced number of seconds is the exact ceiling of the time to wait, except where adding
      the rounding term leaves 64 bits. */
  lemma RetryIsCeiling(now: int, until: int)
    requires now < until
    ensures
      var s := SecondsUntil(now, until);
      ((s - 1) * SECOND < until - now <= s * SECOND) <==> until - now + SECOND - 1 < INT64_HALF
  {
    var d := until - now;
    if d + SECOND - 1 < INT64_HALF {
      assert Wrap(d + SECOND - 1) == d + SECOND - 1;
    } else {
      var sum := Min(d, INT64_HALF - 1) + SECOND - 1;
      assert INT64_HALF <= sum < INT64_HALF + SECOND;
      assert Wrap(sum) == sum - INT64_SPAN < 0;
    }
  }
}
