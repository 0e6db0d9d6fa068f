/** The bounded queue of browser events and its readers (internal/cdp/client.go).

    Every section of the source that holds the event lock is one step, so a sequence of steps is an
    interleaving of the read loop with any number of readers and drains. */
module EventQueue {
  import opened Basics

  const MAX_BUFFERED := 500

  datatype Event = Event(session: string, name: string, params: string)

  /** A reader that found nothing sleeps on the notification channel it was handed. Channels are
      numbered; all but the newest are closed. */
  datatype Wait = Wait(session: string, exact: bool, channel: nat)

  /** Events are named by their place in `arrived`. */
  datatype Queue = Queue(
    arrived: seq<Event>,
    buf: seq<nat>,
    delivered: seq<nat>,
    dropped: seq<nat>,
    channel: nat,
    waiting: map<nat, Wait>)

  const Empty := Queue([], [], [], [], 0, map[])

  datatype Op =
    | Arrive(event: Event)
    | Read(reader: nat, session: string, exact: bool)
    | Wake(reader: nat)
    | GiveUp(reader: nat)
    | DrainAll
    | DrainSession(session: string)

  predicate Wanted(e: Event, session: string, exact: bool) {
    !exact || e.session == session
  }

  /** The event a place names. */
  function At(arrived: seq<Event>, n: nat): Event {
    if n < |arrived| then arrived[n] else Event("", "", "")
  }

  predicate Known(q: Queue) {
    forall k | 0 <= k < |q.buf| :: q.buf[k] < |q.arrived|
  }

  /** The first place in the buffer that holds an event the reader wants, or the buffer's length. */
  function FirstWanted(q: Queue, session: string, exact: bool, from: nat): (k: nat)
    requires from <= |q.buf|
    ensures from <= k <= |q.buf|
    ensures forall j | from <= j < k :: !Wanted(At(q.arrived, q.buf[j]), session, exact)
    ensures k < |q.buf| ==> Wanted(At(q.arrived, q.buf[k]), session, exact)
    decreases |q.buf| - from
  {
    if from == |q.buf| || Wanted(At(q.arrived, q.buf[from]), session, exact) then from
    else FirstWanted(q, session, exact, from + 1)
  }

  function DoArrive(q: Queue, e: Event): Queue {
    if e.name == "" then q
    else
      var grown := q.buf + [|q.arrived|];
      var cut := if |grown| > MAX_BUFFERED then |grown| - MAX_BUFFERED else 0;
      q.(arrived := q.arrived + [e], buf := grown[cut..], dropped := q.dropped + grown[..cut], channel := q.channel + 1)
  }

  /** Take the first wanted event, or go to sleep. */
  function DoRead(q: Queue, reader: nat, session: string, exact: bool): Queue {
    var k := FirstWanted(q, session, exact, 0);
    if k == |q.buf| then q.(waiting := q.waiting[reader := Wait(session, exact, q.channel)])
    else
      q.(buf := q.buf[..k] + q.buf[k + 1..], delivered := q.delivered + [q.buf[k]], waiting := q.waiting - {reader})
  }

  /** The buffered events of one session, or of all the others, in order. */
  function Select(q: Queue, buf: seq<nat>, session: string, own: bool): seq<nat>
    decreases |buf|
  {
    if buf == [] then []
    else
      (if (At(q.arrived, buf[0]).session == session) == own then [buf[0]] else []) + Select(q, buf[1..], session, own)
  }

  function Apply(q: Queue, op: Op): Queue {
    match op
    case Arrive(e) => DoArrive(q, e)
    case Read(r, session, exact) => if r in q.waiting then q else DoRead(q, r, session, exact)
    case Wake(r) =>
      if r !in q.waiting || q.waiting[r].channel == q.channel then q
      else DoRead(q, r, q.waiting[r].session, q.waiting[r].exact)
    case GiveUp(r) => q.(waiting := q.waiting - {r})
    case DrainAll => q.(buf := [], delivered := q.delivered + q.buf)
    case DrainSession(session) =>
      q.(buf := Select(q, q.buf, session, false), delivered := q.delivered + Select(q, q.buf, session, true))
  }

  // ------------------------------------------------------------ what every step keeps

  ghost predicate Increasing(s: seq<nat>) {
    forall i, j | 0 <= i < j < |s| :: s[i] < s[j]
  }

  ghost predicate SameSession(q: Queue, a: nat, b: nat) {
    At(q.arrived, a).session == At(q.arrived, b).session
  }

  ghost predicate Distinct(s: seq<nat>) {
    forall i, j | 0 <= i < j < |s| :: s[i] != s[j]
  }

  /** Buffered, delivered and dropped events together are the arrived ones, each of them once. */
  ghost predicate EachOnce(q: Queue) {
    && |q.buf| + |q.delivered| + |q.dropped| == |q.arrived|
    && Distinct(q.delivered)
    && (forall n | n in q.delivered :: n < |q.arrived| && n !in q.buf && n !in q.dropped)
    && (forall n | n in q.dropped :: n < |q.arrived| && n !in q.buf)
    && (forall n: nat | n < |q.arrived| :: n in q.buf || n in q.delivered || n in q.dropped)
  }

  /** Within each session, every event of `early` arrived before every one of `late`. */
  ghost predicate Precedes(q: Queue, early: seq<nat>, late: seq<nat>) {
    forall a, b | a in early && b in late :: SameSession(q, a, b) ==> a < b
  }

  /** Deliveries follow the arrivals session by session, and what is buffered comes after them. */
  ghost predicate InOrder(q: Queue) {
    && Increasing(q.buf)
    && (forall i, j | 0 <= i < j < |q.delivered| ::
          SameSession(q, q.delivered[i], q.delivered[j]) ==> q.delivered[i] < q.delivered[j])
    && Precedes(q, q.delivered, q.buf)
  }

  /** Only the oldest event is dropped, and only once so many later ones have arrived. */
  ghost predicate DroppedByOverflow(q: Queue) {
    && Increasing(q.dropped)
    && (forall d | d in q.dropped :: d + MAX_BUFFERED < |q.arrived|)
    && (forall d, b | d in q.dropped && b in q.buf :: d < b)
  }

  /** A reader still asleep on the newest channel has nothing to read. */
  ghost predicate NoLostWakeup(q: Queue) {
    && (forall r | r in q.waiting :: q.waiting[r].channel <= q.channel)
    && (forall r, b | r in q.waiting && q.waiting[r].channel == q.channel && b in q.buf ::
          !Wanted(At(q.arrived, b), q.waiting[r].session, q.waiting[r].exact))
  }

  ghost predicate Inv(q: Queue) {
    && |q.buf| <= MAX_BUFFERED
    && Known(q)
    && EachOnce(q)
    && InOrder(q)
    && DroppedByOverflow(q)
    && NoLostWakeup(q)
  }

  // Arrivals.

  lemma {:induction false} Spread(s: seq<nat>, k: nat)
    requires Increasing(s) && k < |s|
    ensures s[k] >= s[0] + k
  {
    if k > 0 {
      Spread(s, k - 1);
    }
  }

  /** `all` is dealt out between `taken` and `rest`. */
  ghost predicate Dealt(all: seq<nat>, taken: seq<nat>, rest: seq<nat>) {
    && |taken| + |rest| == |all|
    && (forall n | n in all :: n in taken || n in rest)
    && (forall n | n in taken :: n in all && n !in rest)
    && (forall n | n in rest :: n in all && n !in taken)
  }

  /** Either there is room, or the oldest event goes. */
  lemma ArriveShape(q: Queue, e: Event) returns (cut: seq<nat>)
    requires e.name != "" && |q.buf| <= MAX_BUFFERED && Known(q) && Increasing(q.buf)
    ensures
      var t := DoArrive(q, e);
      && |t.buf| <= MAX_BUFFERED && Known(t) && Increasing(t.buf)
      && t.dropped == q.dropped + cut
      && Dealt(q.buf + [|q.arrived|], cut, t.buf)
      && (cut != [] ==>
            && |cut| == 1 && q.buf != [] && cut[0] == q.buf[0] && cut[0] + MAX_BUFFERED <= |q.arrived|
            && forall b | b in t.buf :: cut[0] < b)
  {
    var t := DoArrive(q, e);
    var grown: seq<nat> := q.buf + [|q.arrived|];
    assert Increasing(grown);
    cut := [];
    if |q.buf| == MAX_BUFFERED {
      cut := [q.buf[0]];
      FirstOff(grown);
      Spread(grown, |q.buf|);
      assert grown[..1] == cut;
      assert t.buf == grown[1..];
    } else {
      assert t.buf == grown;
    }
  }

  lemma FirstOff(s: seq<nat>)
    requires Increasing(s) && s != []
    ensures Increasing(s[1..]) && Dealt(s, [s[0]], s[1..]) && forall b | b in s[1..] :: s[0] < b
  {
    forall b | b in s[1..] ensures s[0] < b && b in s {
      var k :| 1 <= k < |s| && s[k] == b;
    }
    forall b | b in s ensures b in [s[0]] || b in s[1..] {
      var k :| 0 <= k < |s| && s[k] == b;
      if k > 0 {
        assert s[1..][k - 1] == b;
      }
    }
  }

  lemma ArriveOnce(q: Queue, e: Event)
    requires Inv(q) && e.name != ""
    ensures EachOnce(DoArrive(q, e))
  {
    var cut := ArriveShape(q, e);
    var t := DoArrive(q, e);
    var grown: seq<nat> := q.buf + [|q.arrived|];
    assert forall n | n in grown :: n in q.buf || n == |q.arrived|;
    forall n: nat | n < |t.arrived| ensures n in t.buf || n in t.delivered || n in t.dropped {
      assert n in grown || n in q.delivered || n in q.dropped;
    }
  }

  lemma ArriveInOrder(q: Queue, e: Event)
    requires Inv(q) && e.name != ""
    ensures InOrder(DoArrive(q, e))
  {
    var cut := ArriveShape(q, e);
    var t := DoArrive(q, e);
    forall a, b | a in t.delivered && b in t.buf ensures SameSession(t, a, b) ==> a < b {
      assert b in q.buf + [|q.arrived|];
      assert b in q.buf ==> SameSession(t, a, b) == SameSession(q, a, b);
    }
    forall i, j | 0 <= i < j < |t.delivered| && SameSession(t, t.delivered[i], t.delivered[j])
      ensures t.delivered[i] < t.delivered[j]
    {
      assert t.delivered[i] in q.delivered && t.delivered[j] in q.delivered;
      assert SameSession(q, t.delivered[i], t.delivered[j]);
    }
  }

  lemma ArriveDropsOldest(q: Queue, e: Event)
    requires Inv(q) && e.name != ""
    ensures DroppedByOverflow(DoArrive(q, e))
  {
    var cut := ArriveShape(q, e);
    var t := DoArrive(q, e);
    forall d, b | d in t.dropped && b in t.buf ensures d < b {
      assert d in q.dropped || d in cut;
      assert b in q.buf + [|q.arrived|];
    }
    if cut != [] {
      assert forall i | 0 <= i < |q.dropped| :: q.dropped[i] in q.dropped && q.buf[0] in q.buf;
    }
  }

  lemma ArriveKeeps(q: Queue, e: Event)
    requires Inv(q)
    ensures Inv(DoArrive(q, e))
  {
    if e.name != "" {
      var cut := ArriveShape(q, e);
      ArriveOnce(q, e);
      ArriveInOrder(q, e);
      ArriveDropsOldest(q, e);
      ArriveWakes(q, e);
    }
  }

  lemma ArriveWakes(q: Queue, e: Event)
    requires Inv(q) && e.name != ""
    ensures NoLostWakeup(DoArrive(q, e))
  {
  }

  // Reads and drains: some buffered events are handed out, the rest stay.

  /** `t` is `q` after the events `taken` have left the buffer, in their order. */
  ghost predicate HandsOut(q: Queue, t: Queue, taken: seq<nat>) {
    && t.arrived == q.arrived && t.dropped == q.dropped && t.delivered == q.delivered + taken && t.channel == q.channel
    && Dealt(q.buf, taken, t.buf)
    && Increasing(taken) && Increasing(t.buf)
    && Precedes(q, taken, t.buf)
    && (forall r | r in t.waiting :: r in q.waiting && t.waiting[r] == q.waiting[r])
  }

  lemma HandOutInOrder(q: Queue, t: Queue, taken: seq<nat>)
    requires InOrder(q) && HandsOut(q, t, taken)
    ensures InOrder(t)
  {
    forall i, j | 0 <= i < j < |t.delivered| && SameSession(t, t.delivered[i], t.delivered[j])
      ensures t.delivered[i] < t.delivered[j]
    {
      if i >= |q.delivered| {
        assert t.delivered[i] == taken[i - |q.delivered|];
      } else if j >= |q.delivered| {
        assert t.delivered[i] in q.delivered && t.delivered[j] in taken;
        assert SameSession(q, t.delivered[i], t.delivered[j]);
      }
    }
    forall a, b | a in t.delivered && b in t.buf ensures SameSession(t, a, b) ==> a < b {
      assert a in q.delivered || a in taken;
      assert SameSession(t, a, b) == SameSession(q, a, b);
    }
  }

  lemma HandOutOnce(q: Queue, t: Queue, taken: seq<nat>)
    requires Known(q) && EachOnce(q) && HandsOut(q, t, taken)
    ensures EachOnce(t)
  {
    forall i, j | 0 <= i < j < |t.delivered| ensures t.delivered[i] != t.delivered[j] {
      if i >= |q.delivered| {
        assert t.delivered[i] == taken[i - |q.delivered|];
      } else if j >= |q.delivered| {
        assert t.delivered[i] in q.delivered && t.delivered[j] in taken;
      }
    }
    forall n | n in t.delivered ensures n < |t.arrived| && n !in t.buf && n !in t.dropped {
      assert n in q.delivered || n in taken;
      if n in q.buf {
        var k :| 0 <= k < |q.buf| && q.buf[k] == n;
      }
    }
  }

  lemma HandOutKeeps(q: Queue, t: Queue, taken: seq<nat>)
    requires Inv(q) && HandsOut(q, t, taken)
    ensures Inv(t)
  {
    HandOutInOrder(q, t, taken);
    HandOutOnce(q, t, taken);
    assert forall k | 0 <= k < |t.buf| :: t.buf[k] in t.buf && t.buf[k] in q.buf;
  }

  lemma RemoveOne(s: seq<nat>, k: nat)
    requires k < |s| && Increasing(s)
    ensures Dealt(s, [s[k]], s[..k] + s[k + 1..])
    ensures Increasing(s[..k] + s[k + 1..])
    ensures forall n | n in s[..k] + s[k + 1..] :: s[k] < n || n in s[..k]
  {
    assert s == s[..k] + [s[k]] + s[k + 1..];
  }

  /** The event a reader takes is the first of its session. */
  lemma ReadIsFirst(q: Queue, session: string, exact: bool)
    requires Known(q) && Increasing(q.buf)
    ensures
      var k := FirstWanted(q, session, exact, 0);
      k < |q.buf| ==> Precedes(q, [q.buf[k]], q.buf[..k] + q.buf[k + 1..])
  {
    var k := FirstWanted(q, session, exact, 0);
    if k < |q.buf| {
      RemoveOne(q.buf, k);
      forall b | b in q.buf[..k] + q.buf[k + 1..] ensures SameSession(q, q.buf[k], b) ==> q.buf[k] < b {
        if b in q.buf[..k] {
          var j :| 0 <= j < k && q.buf[j] == b;
        }
      }
    }
  }

  lemma ReadHandsOut(q: Queue, r: nat, session: string, exact: bool)
    requires Known(q) && Increasing(q.buf) && FirstWanted(q, session, exact, 0) < |q.buf|
    ensures HandsOut(q, DoRead(q, r, session, exact), [q.buf[FirstWanted(q, session, exact, 0)]])
  {
    RemoveOne(q.buf, FirstWanted(q, session, exact, 0));
    ReadIsFirst(q, session, exact);
  }

  lemma ReadKeeps(q: Queue, r: nat, session: string, exact: bool)
    requires Inv(q)
    ensures Inv(DoRead(q, r, session, exact))
  {
    var k := FirstWanted(q, session, exact, 0);
    if k < |q.buf| {
      ReadHandsOut(q, r, session, exact);
      HandOutKeeps(q, DoRead(q, r, session, exact), [q.buf[k]]);
    } else {
      SleepKeeps(q, r, session, exact);
    }
  }

  lemma SleepKeeps(q: Queue, r: nat, session: string, exact: bool)
    requires Inv(q) && FirstWanted(q, session, exact, 0) == |q.buf|
    ensures Inv(DoRead(q, r, session, exact))
  {
  }

  lemma {:induction false} SelectSplits(q: Queue, buf: seq<nat>, session: string)
    ensures |Select(q, buf, session, true)| + |Select(q, buf, session, false)| == |buf|
    ensures forall n | n in buf :: n in Select(q, buf, session, true) || n in Select(q, buf, session, false)
    decreases |buf|
  {
    if buf != [] {
      SelectSplits(q, buf[1..], session);
      assert buf == [buf[0]] + buf[1..];
    }
  }

  lemma {:induction false} SelectMembers(q: Queue, buf: seq<nat>, session: string, own: bool)
    ensures forall n | n in Select(q, buf, session, own) :: n in buf && (At(q.arrived, n).session == session) == own
    decreases |buf|
  {
    if buf != [] {
      SelectMembers(q, buf[1..], session, own);
    }
  }

  lemma {:induction false} SelectIncreasing(q: Queue, buf: seq<nat>, session: string, own: bool)
    requires Increasing(buf)
    ensures Increasing(Select(q, buf, session, own))
    decreases |buf|
  {
    if buf != [] {
      SelectIncreasing(q, buf[1..], session, own);
      SelectMembers(q, buf[1..], session, own);
      Ahead(buf[0], Select(q, buf[1..], session, own), buf);
    }
  }

  lemma Ahead(first: nat, rest: seq<nat>, buf: seq<nat>)
    requires Increasing(buf) && buf != [] && first == buf[0]
    requires Increasing(rest) && forall n | n in rest :: n in buf[1..]
    ensures Increasing([first] + rest)
  {
    forall k | 0 <= k < |rest| ensures first < rest[k] {
      assert rest[k] in buf[1..];
    }
  }

  lemma DrainAllKeeps(q: Queue)
    requires Inv(q)
    ensures Inv(Apply(q, DrainAll))
  {
    HandOutKeeps(q, Apply(q, DrainAll), q.buf);
  }

  lemma DrainSessionKeeps(q: Queue, session: string)
    requires Inv(q)
    ensures Inv(Apply(q, DrainSession(session)))
  {
    SelectSplits(q, q.buf, session);
    SelectIncreasing(q, q.buf, session, true);
    SelectIncreasing(q, q.buf, session, false);
    SelectMembers(q, q.buf, session, true);
    SelectMembers(q, q.buf, session, false);
    HandOutKeeps(q, Apply(q, DrainSession(session)), Select(q, q.buf, session, true));
  }

  lemma ApplyKeeps(q: Queue, op: Op)
    requires Inv(q)
    ensures Inv(Apply(q, op))
  {
    match op
    case Arrive(e) => ArriveKeeps(q, e);
    case Read(r, session, exact) => ReadKeeps(q, r, session, exact);
    case Wake(r) =>
      if r in q.waiting {
        ReadKeeps(q, r, q.waiting[r].session, q.waiting[r].exact);
      }
    case GiveUp(r) =>
    case DrainAll => DrainAllKeeps(q);
    case DrainSession(session) => DrainSessionKeeps(q, session);
  }

  // ------------------------------------------------------------------ whole runs

  function Run(q: Queue, ops: seq<Op>): Queue
    decreases |ops|
  {
    if ops == [] then q else Run(Apply(q, ops[0]), ops[1..])
  }

  lemma {:induction false} RunKeeps(q: Queue, ops: seq<Op>)
    requires Inv(q)
    ensures Inv(Run(q, ops))
    decreases |ops|
  {
    if ops != [] {
      ApplyKeeps(q, ops[0]);
      RunKeeps(Apply(q, ops[0]), ops[1..]);
    }
  }

  /** The queue after a whole interleaving. */
  function After(ops: seq<Op>): Queue {
    Run(Empty, ops)
  }

  lemma {:induction false} RunSnoc(q: Queue, ops: seq<Op>, op: Op)
    ensures Run(q, ops + [op]) == Apply(Run(q, ops), op)
    decreases |ops|
  {
    if ops == [] {
      assert [op][1..] == [];
    } else {
      assert (ops + [op])[1..] == ops[1..] + [op];
      RunSnoc(Apply(q, ops[0]), ops[1..], op);
    }
  }

  /** The events the read loop handed to the queue, in order. */
  function Arrivals(ops: seq<Op>): seq<Event>
    decreases |ops|
  {
    if ops == [] then []
    else (if ops[0].Arrive? && ops[0].event.name != "" then [ops[0].event] else []) + Arrivals(ops[1..])
  }

  lemma OnlyArriveAdds(q: Queue, op: Op)
    ensures Apply(q, op).arrived == q.arrived + if op.Arrive? && op.event.name != "" then [op.event] else []
  {
  }

  lemma {:induction false} ArrivedIsArrivals(q: Queue, ops: seq<Op>)
    ensures Run(q, ops).arrived == q.arrived + Arrivals(ops)
    decreases |ops|
  {
    if ops != [] {
      var t, first := Apply(q, ops[0]), if ops[0].Arrive? && ops[0].event.name != "" then [ops[0].event] else [];
      OnlyArriveAdds(q, ops[0]);
      ArrivedIsArrivals(t, ops[1..]);
      assert q.arrived + (first + Arrivals(ops[1..])) == t.arrived + Arrivals(ops[1..]);
    }
  }

  /** Conservation over any interleaving: each event is delivered, dropped or buffered, exactly once. */
  lemma NothingLostOrDoubled(ops: seq<Op>, n: nat)
    requires n < |Arrivals(ops)|
    ensures
      var q := After(ops);
      && q.arrived == Arrivals(ops)
      && |q.delivered| + |q.dropped| + |q.buf| == |Arrivals(ops)| && |q.buf| <= MAX_BUFFERED
      && (n in q.delivered || n in q.dropped || n in q.buf)
      && !(n in q.delivered && n in q.dropped) && !(n in q.delivered && n in q.buf) && !(n in q.dropped && n in q.buf)
      && Distinct(q.delivered) && Distinct(q.dropped) && Distinct(q.buf)
  {
    ArrivedIsArrivals(Empty, ops);
    RunKeeps(Empty, ops);
  }

  /** Each session is read as a first-in first-out queue. */
  lemma SessionsAreFifo(ops: seq<Op>, i: nat, j: nat, b: nat)
    ensures
      var q := After(ops);
      && (i < j < |q.delivered| && SameSession(q, q.delivered[i], q.delivered[j]) ==> q.delivered[i] < q.delivered[j])
      && (i < |q.delivered| && b < |q.buf| && SameSession(q, q.delivered[i], q.buf[b]) ==> q.delivered[i] < q.buf[b])
  {
    var q := After(ops);
    RunKeeps(Empty, ops);
    assert i < |q.delivered| && b < |q.buf| ==> q.delivered[i] in q.delivered && q.buf[b] in q.buf;
  }

  /** An event is lost only after five hundred later ones have arrived, and never before an older one. */
  lemma LossIsOverflow(ops: seq<Op>, i: nat)
    ensures
      var q := After(ops);
      i < |q.dropped| ==>
        && q.dropped[i] + MAX_BUFFERED < |Arrivals(ops)|
        && (forall b | b in q.buf :: q.dropped[i] < b)
        && (forall j | i < j < |q.dropped| :: q.dropped[i] < q.dropped[j])
  {
    ArrivedIsArrivals(Empty, ops);
    RunKeeps(Empty, ops);
    var q := After(ops);
    assert i < |q.dropped| ==> q.dropped[i] in q.dropped;
  }

  /** A named event arrives and finds the buffer full. */
  predicate Overflows(q: Queue, op: Op) {
    op.Arrive? && op.event.name != "" && |q.buf| == MAX_BUFFERED
  }

  lemma DropsOnOverflow(q: Queue, op: Op)
    requires |q.buf| <= MAX_BUFFERED
    ensures Apply(q, op).dropped == q.dropped + if Overflows(q, op) then [q.buf[0]] else []
  {
    if op.Arrive? && op.event.name != "" {
      var grown := q.buf + [|q.arrived|];
      assert |q.buf| == MAX_BUFFERED ==> grown[..1] == [q.buf[0]];
      assert grown[..0] == [];
    }
  }

  /** At any point of any run, a step drops an event exactly when a named event arrives at a full buffer,
      and then it drops the oldest buffered one and no other. */
  lemma DropsExactlyOnOverflow(ops: seq<Op>, op: Op)
    ensures
      var q, t := After(ops), After(ops + [op]);
      && (t.dropped != q.dropped <==> Overflows(q, op))
      && t.dropped == q.dropped + if Overflows(q, op) then [q.buf[0]] else []
  {
    RunKeeps(Empty, ops);
    RunSnoc(Empty, ops, op);
    DropsOnOverflow(After(ops), op);
  }

  /** So every dropped event was, when it went, the oldest of five hundred still undelivered. */
  lemma {:induction false} DroppedWasOldest(ops: seq<Op>, i: nat)
    requires i < |After(ops).dropped|
    ensures
      exists k :: 0 <= k < |ops| &&
        var q := After(ops[..k]);
        Overflows(q, ops[k]) && |q.dropped| == i && q.buf[0] == After(ops).dropped[i]
    decreases |ops|
  {
    var n := |ops| - 1;
    assert ops == ops[..n] + [ops[n]];
    DropsExactlyOnOverflow(ops[..n], ops[n]);
    if i < |After(ops[..n]).dropped| {
      DroppedWasOldest(ops[..n], i);
      var k :| 0 <= k < n && Overflows(After(ops[..n][..k]), ops[..n][k]) && |After(ops[..n][..k]).dropped| == i
               && After(ops[..n][..k]).buf[0] == After(ops[..n]).dropped[i];
      assert ops[..n][..k] == ops[..k];
    }
  }

  /** A sleeping reader for whom something is buffered has been notified, and gets it when it wakes. */
  lemma SleepersAreWoken(ops: seq<Op>, r: nat, b: nat)
    ensures
      var q := After(ops);
      r in q.waiting && b in q.buf && Wanted(At(q.arrived, b), q.waiting[r].session, q.waiting[r].exact) ==>
        && q.waiting[r].channel < q.channel
        && (var t := Apply(q, Wake(r));
            && r !in t.waiting && |t.delivered| == |q.delivered| + 1
            && Wanted(At(q.arrived, t.delivered[|q.delivered|]), q.waiting[r].session, q.waiting[r].exact))
  {
    var q := After(ops);
    RunKeeps(Empty, ops);
    if r in q.waiting && b in q.buf && Wanted(At(q.arrived, b), q.waiting[r].session, q.waiting[r].exact) {
      var k := FirstWanted(q, q.waiting[r].session, q.waiting[r].exact, 0);
      var j :| 0 <= j < |q.buf| && q.buf[j] == b;
      assert k <= j;
    }
  }

  // --------------------------------------------------------- the buffer in place

  lemma {:induction false} SelectAppend(q: Queue, buf: seq<nat>, n: nat, session: string, own: bool)
    ensures
      Select(q, buf + [n], session, own)
      == Select(q, buf, session, own) + if (At(q.arrived, n).session == session) == own then [n] else []
    decreases |buf|
  {
    if buf == [] {
      assert [n][1..] == [];
    } else {
      assert (buf + [n])[1..] == buf[1..] + [n];
      SelectAppend(q, buf[1..], n, session, own);
    }
  }

  function Named(arrived: seq<Event>, names: seq<nat>): seq<Event> {
    seq(|names|, k requires 0 <= k < |names| => At(arrived, names[k]))
  }

  /** The event half of a client. The buffer is a slice of an array that is cut at the front, shifted
      in place and, when it is full, moved to a larger array. */
  class EventBuffer {
    var data: array<Event>
    var start: nat
    var len: nat
    var notify: nat
    ghost var ops: seq<Op>
    ghost var q: Queue

    ghost predicate Valid()
      reads this, data
    {
      && start + len <= data.Length
      && q == After(ops)
      && notify == q.channel
      && data[start..start + len] == Named(q.arrived, q.buf)
    }

    /** What is buffered, oldest first. */
    ghost function Held(): seq<Event>
      requires start + len <= data.Length
      reads this, data
    {
      data[start..start + len]
    }

    constructor ()
      ensures Valid() && fresh(data) && ops == [] && Held() == []
    {
      data := new Event[0];
      start, len, notify, q, ops := 0, 0, 0, Empty, [];
      new;
        assert data[0..0] == Named([], []);
    }

    ghost method Advance(op: Op)
      requires q == After(ops)
      modifies this`q, this`ops
      ensures ops == old(ops) + [op] && q == After(ops) == Apply(old(q), op)
    {
      RunSnoc(Empty, ops, op);
      q, ops := Apply(q, op), ops + [op];
    }

    method Grow()
      requires start + len <= data.Length
      modifies this`data, this`start
      ensures fresh(data) && start + len < data.Length
      ensures data[start..start + len] == old(data[start..start + len])
    {
      var bigger := new Event[2 * len + 1](_ => Event("", "", ""));
      var k := 0;
      while k < len
        invariant k <= len && data == old(data) && start == old(start)
        invariant bigger[..k] == data[start..start + k]
      {
        bigger[k] := data[start + k];
        k := k + 1;
      }
      assert bigger[0..len] == data[start..start + len];
      data, start := bigger, 0;
    }

    /** A full buffer loses its oldest event to a new one. */
    static function Buffered(held: seq<Event>, e: Event): seq<Event> {
      if |held| < MAX_BUFFERED then held + [e] else held[1..] + [e]
    }

    method Append(e: Event)
      requires start + len <= data.Length
      modifies this`data, this`start, this`len, data
      ensures start + len <= data.Length && len == old(len) + 1 && Held() == old(Held()) + [e]
      ensures data == old(data) || fresh(data)
    {
      if start + len == data.Length {
        Grow();
      }
      data[start + len] := e;
      len := len + 1;
    }

    method Store(e: Event)
      requires start + len <= data.Length && len <= MAX_BUFFERED
      modifies this`data, this`start, this`len, data
      ensures start + len <= data.Length && Held() == Buffered(old(Held()), e)
      ensures data == old(data) || fresh(data)
    {
      ghost var held := Held();
      assert |held| == len;
      Append(e);
      if len > MAX_BUFFERED {
        assert data[start + 1..start + len] == (held + [e])[1..] == held[1..] + [e];
        start, len := start + (len - MAX_BUFFERED), MAX_BUFFERED;
      }
    }

    lemma NeverOverfull()
      requires Valid()
      ensures |Held()| == len == |q.buf| <= MAX_BUFFERED
    {
      RunKeeps(Empty, ops);
      assert len == |Named(q.arrived, q.buf)|;
    }

    /** What the buffer holds once an event has arrived. */
    lemma ArrivalNamed(e: Event)
      requires Valid() && e.name != ""
      ensures Buffered(Held(), e) == Named(DoArrive(q, e).arrived, DoArrive(q, e).buf)
    {
      RunKeeps(Empty, ops);
      NeverOverfull();
    }

    /** Append an event, dropping the oldest when there are too many, and wake every sleeping reader. */
    method BufferEvent(e: Event)
      requires Valid()
      modifies this, data
      ensures Valid() && ops == old(ops) + (if e.name == "" then [] else [Arrive(e)])
      ensures e.name == "" ==> Held() == old(Held())
      ensures e.name != "" && |old(Held())| < 500 ==> Held() == old(Held()) + [e]
      ensures e.name != "" && |old(Held())| >= 500 ==> |old(Held())| == 500 && Held() == old(Held())[1..] + [e]
      ensures e.name != "" ==> notify > old(notify)
      ensures data == old(data) || fresh(data)
    {
      if e.name != "" {
        ArrivalNamed(e);
        NeverOverfull();
        Store(e);
        notify := notify + 1;
        Advance(Arrive(e));
      }
    }

    method Find(session: string, exact: bool) returns (index: nat)
      requires Valid()
      ensures index == FirstWanted(q, session, exact, 0) && len == |q.buf|
      ensures index < len ==> Wanted(data[start + index], session, exact)
    {
      assert len == |Named(q.arrived, q.buf)|;
      index := 0;
      while index < len && exact && data[start + index].session != session
        invariant index <= len
        invariant FirstWanted(q, session, exact, index) == FirstWanted(q, session, exact, 0)
      {
        Slice(index);
        index := index + 1;
      }
      if index < len {
        Slice(index);
      }
    }

    lemma Slice(k: nat)
      requires Valid() && k < |q.buf|
      ensures k < len && data[start + k] == At(q.arrived, q.buf[k])
    {
      assert data[start..start + len][k] == Named(q.arrived, q.buf)[k];
    }

    /** `was` with the places from `index` up to `k` overwritten by their right neighbours. */
    static function Shifted(was: seq<Event>, index: nat, k: nat): seq<Event>
      requires index <= k < |was|
    {
      was[..index] + was[index + 1..k + 1] + was[k..]
    }

    static lemma ShiftOneMore(was: seq<Event>, index: nat, k: nat)
      requires index <= k && k + 1 < |was|
      ensures Shifted(was, index, k)[k := was[k + 1]] == Shifted(was, index, k + 1)
      ensures Shifted(was, index, k)[k + 1] == was[k + 1]
    {
      assert was[index + 1..k + 2] == was[index + 1..k + 1] + [was[k + 1]];
    }

    method CopyDown(ghost was: seq<Event>, ghost index: nat, k: nat)
      requires index <= k && k + 1 < len && start + len <= data.Length && |was| == len
      requires data[start..start + len] == Shifted(was, index, k)
      modifies data
      ensures data[start..start + len] == Shifted(was, index, k + 1)
    {
      ShiftOneMore(was, index, k);
      assert data[start + k + 1] == data[start..start + len][k + 1];
      data[start + k] := data[start + k + 1];
      assert data[start..start + len] == Shifted(was, index, k)[k := was[k + 1]];
    }

    /** Shift what follows `index` one place to the front. */
    method ShiftDown(ghost was: seq<Event>, index: nat)
      requires index < len && start + len <= data.Length && was == data[start..start + len]
      modifies data
      ensures data[start..start + len] == Shifted(was, index, len - 1)
    {
      var k := index;
      assert Shifted(was, index, index) == was;
      while k + 1 < len
        invariant index <= k < len
        invariant data[start..start + len] == Shifted(was, index, k)
      {
        CopyDown(was, index, k);
        k := k + 1;
      }
    }

    method Remove(index: nat)
      requires index < len && start + len <= data.Length
      modifies this`len, data
      ensures len == old(len) - 1
      ensures data[start..start + len] == old(data[start..start + len][..index] + data[start..start + len][index + 1..])
    {
      ghost var was := data[start..start + len];
      ShiftDown(was, index);
      assert data[start..start + len - 1] == Shifted(was, index, len - 1)[..len - 1];
      data[start + len - 1] := Event("", "", "");
      len := len - 1;
    }

    lemma RemovedNamed(before: Queue, k: nat)
      requires k < |before.buf|
      ensures
        Named(before.arrived, before.buf[..k] + before.buf[k + 1..])
        == Named(before.arrived, before.buf)[..k] + Named(before.arrived, before.buf)[k + 1..]
    {
    }

    method Take(index: nat) returns (e: Event)
      requires Valid() && index < |q.buf|
      modifies this`len, data
      ensures e == At(q.arrived, q.buf[index])
      ensures start + len <= data.Length
      ensures data[start..start + len] == Named(q.arrived, q.buf[..index] + q.buf[index + 1..])
    {
      Slice(index);
      e := data[start + index];
      Remove(index);
      RemovedNamed(q, index);
    }

    method TakeFirst(session: string, exact: bool) returns (event: Option<Event>, ghost place: nat)
      requires Valid()
      modifies this`len, data
      ensures start + len <= data.Length
      ensures place == FirstWanted(q, session, exact, 0) && |old(Held())| == |q.buf|
      ensures forall j | 0 <= j < place :: exact && old(Held())[j].session != session
      ensures event == if place < |q.buf| then Some(At(q.arrived, q.buf[place])) else None
      ensures event.Some? ==> Wanted(event.value, session, exact) && event == Some(old(Held())[place])
      ensures Held() == if event.None? then old(Held()) else old(Held())[..place] + old(Held())[place + 1..]
      ensures Held() == Named(q.arrived, if event.None? then q.buf else q.buf[..place] + q.buf[place + 1..])
    {
      var index := Find(session, exact);
      place := index;
      assert Held() == Named(q.arrived, q.buf);
      event := None;
      if index < len {
        RemovedNamed(q, index);
        var e := Take(index);
        event := Some(e);
      }
    }

    /** One turn of a reader under the lock: take the first event it wants, or be told which channel
        to sleep on. A turn is a fresh read, or the wake-up of a reader whose channel was closed. */
    method PopEventOrWait(ghost reader: nat, session: string, exact: bool)
      returns (event: Option<Event>, channel: nat, ghost place: nat)
      requires Valid()
      requires reader in q.waiting ==>
                 q.waiting[reader].channel < q.channel
                 && q.waiting[reader].session == session && q.waiting[reader].exact == exact
      modifies this, data
      ensures Valid() && data == old(data)
      ensures ops == old(ops) + [if reader in old(q.waiting) then Wake(reader) else Read(reader, session, exact)]
      ensures place <= |old(Held())| && forall j | 0 <= j < place :: exact && old(Held())[j].session != session
      ensures event.None? ==> place == |old(Held())| && Held() == old(Held())
      ensures event.Some? ==>
                && place < |old(Held())| && event == Some(old(Held())[place])
                && (exact ==> event.value.session == session)
                && Held() == old(Held())[..place] + old(Held())[place + 1..]
      ensures event.None? ==>
                reader in q.waiting && q.waiting[reader] == Wait(session, exact, channel) && channel == q.channel
      ensures event.Some? ==>
                && Wanted(event.value, session, exact)
                && |q.delivered| == |old(q.delivered)| + 1
                && event == Some(At(q.arrived, q.delivered[|old(q.delivered)|]))
    {
      channel := notify;
      event, place := TakeFirst(session, exact);
      Turn(q, reader, session, exact);
      Advance(if reader in q.waiting then Wake(reader) else Read(reader, session, exact));
    }

    static lemma Turn(q: Queue, reader: nat, session: string, exact: bool)
      requires reader in q.waiting ==>
                 q.waiting[reader].channel < q.channel
                 && q.waiting[reader].session == session && q.waiting[reader].exact == exact
      ensures
        Apply(q, if reader in q.waiting then Wake(reader) else Read(reader, session, exact))
        == DoRead(q, reader, session, exact)
    {
    }

    /** Everything buffered, in order. */
    method DrainEvents() returns (events: seq<Event>)
      requires Valid()
      modifies this
      ensures Valid() && (data == old(data) || fresh(data)) && ops == old(ops) + [DrainAll]
      ensures events == old(Held()) && Held() == []
      ensures |q.delivered| == |old(q.delivered)| + |events|
      ensures events == Named(q.arrived, q.delivered[|old(q.delivered)|..])
    {
      events := data[start..start + len];
      if len > 0 {
        data, start, len := new Event[0], 0, 0;
      }
      Advance(DrainAll);
      assert q.delivered[|old(q.delivered)|..] == old(q.buf);
    }

    /** The events of `names` that belong to a session, or to none of it. */
    ghost predicate Picked(events: seq<Event>, k: nat, session: string, own: bool)
      requires k <= |q.buf|
      reads this
    {
      events == Named(q.arrived, Select(q, q.buf[..k], session, own))
    }

    lemma PickNext(events: seq<Event>, k: nat, session: string, own: bool)
      requires k < |q.buf| && Picked(events, k, session, own)
      ensures
        var e := At(q.arrived, q.buf[k]);
        Picked(events + if (e.session == session) == own then [e] else [], k + 1, session, own)
    {
      SelectAppend(q, q.buf[..k], q.buf[k], session, own);
      assert q.buf[..k + 1] == q.buf[..k] + [q.buf[k]];
    }

    lemma PickedTells(events: seq<Event>, session: string, own: bool)
      requires Valid() && len == |q.buf| && Picked(events, len, session, own)
      ensures forall e | e in events :: (e.session == session) == own
      ensures forall k | 0 <= k < len && (Held()[k].session == session) == own :: Held()[k] in events
    {
      var names := Select(q, q.buf, session, own);
      assert q.buf[..len] == q.buf;
      SelectMembers(q, q.buf, session, own);
      SelectMembers(q, q.buf, session, !own);
      SelectSplits(q, q.buf, session);
      forall e | e in events ensures (e.session == session) == own {
        var j :| 0 <= j < |events| && events[j] == e;
        assert names[j] in names;
      }
      forall k | 0 <= k < len && (Held()[k].session == session) == own ensures Held()[k] in events {
        assert Held()[k] == At(q.arrived, q.buf[k]);
        assert q.buf[k] in names;
        var j :| 0 <= j < |names| && names[j] == q.buf[k];
        assert events[j] == Held()[k];
      }
    }

    lemma PartsTell(matched: seq<Event>, retained: seq<Event>, session: string)
      requires Valid() && len == |q.buf|
      requires Picked(matched, len, session, true) && Picked(retained, len, session, false)
      ensures forall e | e in matched :: e.session == session
      ensures forall e | e in retained :: e.session != session
      ensures forall e | e in Held() :: e in if e.session == session then matched else retained
      ensures |matched| + |retained| == |Held()|
    {
      PickedTells(matched, session, true);
      PickedTells(retained, session, false);
      assert q.buf[..len] == q.buf;
      SelectSplits(q, q.buf, session);
    }

    method Partition(session: string) returns (matched: seq<Event>, retained: seq<Event>)
      requires Valid()
      ensures len == |q.buf| && Picked(matched, len, session, true) && Picked(retained, len, session, false)
    {
      assert len == |Named(q.arrived, q.buf)|;
      matched, retained := [], [];
      var k := 0;
      while k < len
        invariant k <= len
        invariant Picked(matched, k, session, true) && Picked(retained, k, session, false)
      {
        Slice(k);
        PickNext(matched, k, session, true);
        PickNext(retained, k, session, false);
        var e := data[start + k];
        var own, other := if e.session == session then [e] else [], if e.session == session then [] else [e];
        matched, retained, k := matched + own, retained + other, k + 1;
      }
    }

    /** Everything buffered for one session, in order; the rest moves to a new array. */
    method DrainSessionEvents(session: string) returns (matched: seq<Event>)
      requires Valid()
      modifies this
      ensures Valid() && (data == old(data) || fresh(data)) && ops == old(ops) + [DrainSession(session)]
      ensures forall e | e in matched :: e.session == session
      ensures forall e | e in Held() :: e.session != session
      ensures forall e | e in old(Held()) :: e in if e.session == session then matched else Held()
      ensures |matched| + |Held()| == |old(Held())|
      ensures |q.delivered| == |old(q.delivered)| + |matched|
      ensures matched == Named(q.arrived, q.delivered[|old(q.delivered)|..])
    {
      var retained;
      matched, retained := Partition(session);
      PartsTell(matched, retained, session);
      assert q.buf[..len] == q.buf;
      Advance(DrainSession(session));
      data := new Event[|retained|](k requires 0 <= k < |retained| => retained[k]);
      start, len := 0, |retained|;
      assert data[0..len] == retained;
      assert q.delivered[|old(q.delivered)|..] == Select(old(q), old(q.buf), session, true);
    }
  }
}
