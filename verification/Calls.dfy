/** Commands and their replies over one shared connection (internal/cdp/client.go).

    Every step is one section of the source that another goroutine cannot split: an atomic add, an
    allocation, a section under the pending lock, or one channel operation. A sequence of steps is an
    interleaving of the read loop with any number of callers, their timeouts and the failure of the
    transport. Callers, command ids and reply channels are three separate kinds of name; that they
    belong together is proved, not built in. */
module Calls {
  import opened Basics

  /** What a reply channel carries: a response from the browser, or the error that ended the transport.
      `asker` only records whose request the browser answered, if anyone's; the id is all it sends. */
  datatype Message = Response(id: nat, asker: Option<nat>, body: string) | Lost(reason: string)

  datatype Result = Got(message: Message) | Refused | GaveUp

  /** Where one CallSession stands. Leaving callers have failed but are still to be unregistered. */
  datatype Stage = Numbered | Registering | Queued | Holding | Writing | Waiting | Leaving | Ended(result: Result)

  /** One CallSession: the id it drew, the channel it made, and where it stands. */
  datatype Caller = Caller(id: nat, channel: nat, stage: Stage)

  /** A response on its way into the channel that was taken out of the table for it. */
  datatype Delivery = Delivery(channel: nat, message: Message)

  /** `pending` is the table of channels by id, `slots` the contents of the one-slot channels, `hand` what
      the read loop is about to send, and `writer` the caller with the write token. The last four fields
      only record history: who drew an id, who made a channel, who has begun to write, and one entry for
      every message put into a channel. */
  datatype Calls = Calls(
    next: nat,
    made: nat,
    callers: map<nat, Caller>,
    pending: map<nat, nat>,
    slots: map<nat, Message>,
    hand: Option<Delivery>,
    down: bool,
    writer: Option<nat>,
    drawnBy: map<nat, nat>,
    madeBy: map<nat, nat>,
    asked: set<nat>,
    fills: multiset<nat>)

  const Fresh := Calls(0, 0, map[], map[], map[], None, false, None, map[], map[], {}, multiset{})

  /** Channel 0 stands for none; made ones start at 1. */
  const NO_CHANNEL := 0

  datatype Act =
    | Draw(caller: nat)
    | MakeChannel(caller: nat)
    | Register(caller: nat)
    | GiveUpQueued(caller: nat)
    | SeeDown(caller: nat)
    | TakeToken(caller: nat)
    | CheckToken(caller: nat, expired: bool)
    | Write(caller: nat, ok: bool)
    | Receive(caller: nat)
    | GiveUpWaiting(caller: nat)
    | Unregister(caller: nat)
    | Read(message: Message)
    | Deliver
    | Fail(reason: string)

  predicate At(s: Calls, c: nat, stage: Stage) {
    c in s.callers && s.callers[c].stage == stage
  }

  function Goto(s: Calls, c: nat, stage: Stage): Calls
    requires c in s.callers
  {
    s.(callers := s.callers[c := s.callers[c].(stage := stage)])
  }

  /** A response that answers somebody's request carries that request's id. */
  predicate Truthful(s: Calls, m: Message) {
    m.Response? && m.asker.Some? ==>
      m.asker.value in s.asked && m.asker.value in s.callers && s.callers[m.asker.value].id == m.id
  }

  /** The channels once everyone in the table has been sent the error. */
  function Answered(slots: map<nat, Message>, pending: map<nat, nat>, reason: string): map<nat, Message> {
    map ch | ch in slots.Keys + pending.Values :: if ch in pending.Values then Lost(reason) else slots[ch]
  }

  /** The whole table is answered with the error and emptied, in one section. */
  function Failed(s: Calls, reason: string): Calls {
    s.(down := true,
       slots := Answered(s.slots, s.pending, reason),
       fills := s.fills + multiset(s.pending.Values),
       pending := map[])
  }

  function Apply(s: Calls, a: Act): Calls {
    match a
    case Draw(c) =>
      if c in s.callers then s
      else
        s.(next := s.next + 1,
           callers := s.callers[c := Caller(s.next + 1, NO_CHANNEL, Numbered)],
           drawnBy := s.drawnBy[s.next + 1 := c])
    case MakeChannel(c) =>
      if !At(s, c, Numbered) then s
      else
        s.(made := s.made + 1,
           callers := s.callers[c := s.callers[c].(channel := s.made + 1, stage := Registering)],
           madeBy := s.madeBy[s.made + 1 := c])
    case Register(c) =>
      if !At(s, c, Registering) then s
      else if s.down then Goto(s, c, Ended(Refused))
      else Goto(s, c, Queued).(pending := s.pending[s.callers[c].id := s.callers[c].channel])
    case GiveUpQueued(c) => if At(s, c, Queued) then Goto(s, c, Leaving) else s
    case SeeDown(c) => if At(s, c, Queued) && s.down then Goto(s, c, Leaving) else s
    case TakeToken(c) =>
      if At(s, c, Queued) && s.writer == None then Goto(s, c, Holding).(writer := Some(c)) else s
    case CheckToken(c, expired) =>
      if !At(s, c, Holding) then s
      else if s.down || expired then Goto(s, c, Leaving).(writer := None)
      else Goto(s, c, Writing).(asked := s.asked + {c})
    case Write(c, ok) =>
      if At(s, c, Writing) then Goto(s, c, if ok then Waiting else Leaving).(writer := None) else s
    case Receive(c) =>
      if At(s, c, Waiting) && s.callers[c].channel in s.slots
      then Goto(s, c, Ended(Got(s.slots[s.callers[c].channel]))).(slots := s.slots - {s.callers[c].channel})
      else s
    case GiveUpWaiting(c) => if At(s, c, Waiting) then Goto(s, c, Leaving) else s
    case Unregister(c) =>
      if At(s, c, Leaving) then Goto(s, c, Ended(GaveUp)).(pending := s.pending - {s.callers[c].id}) else s
    case Read(m) =>
      if s.down || s.hand != None || !m.Response? || m.id !in s.pending || !Truthful(s, m) then s
      else s.(pending := s.pending - {m.id}, hand := Some(Delivery(s.pending[m.id], m)))
    case Deliver =>
      if s.hand == None || s.hand.value.channel in s.slots then s
      else
        s.(slots := s.slots[s.hand.value.channel := s.hand.value.message], hand := None,
           fills := s.fills + multiset{s.hand.value.channel})
    case Fail(reason) => if s.down || s.hand != None then s else Failed(s, reason)
  }

  function Run(s: Calls, acts: seq<Act>): Calls
    decreases |acts|
  {
    if acts == [] then s else Run(Apply(s, acts[0]), acts[1..])
  }

  // ------------------------------------------------------------ what every step keeps

  /** Registered and not yet over. */
  predicate Live(stage: Stage) {
    stage != Numbered && stage != Registering && !stage.Ended?
  }

  predicate InHand(s: Calls, ch: nat) {
    s.hand.Some? && s.hand.value.channel == ch
  }

  /** A response belongs to the caller whose id it carries, and answers nobody else's request. */
  predicate Own(c: nat, id: nat, m: Message) {
    m.Response? ==> m.id == id && (m.asker.Some? ==> m.asker.value == c)
  }

  /** No two callers share an id, and no two share a channel. */
  ghost predicate Named(s: Calls) {
    && (forall c | c in s.callers ::
          && 1 <= s.callers[c].id <= s.next
          && s.callers[c].id in s.drawnBy && s.drawnBy[s.callers[c].id] == c)
    && (forall c | c in s.callers && s.callers[c].stage != Numbered ::
          && 1 <= s.callers[c].channel <= s.made
          && s.callers[c].channel in s.madeBy && s.madeBy[s.callers[c].channel] == c)
    && (forall id | id in s.drawnBy :: 1 <= id <= s.next)
    && (forall ch | ch in s.madeBy :: 1 <= ch <= s.made)
  }

  predicate IdKnown(s: Calls, id: nat) {
    id in s.drawnBy && s.drawnBy[id] in s.callers && s.callers[s.drawnBy[id]].id == id
    && s.callers[s.drawnBy[id]].stage != Numbered
  }

  predicate ChannelKnown(s: Calls, ch: nat) {
    ch in s.madeBy && s.madeBy[ch] in s.callers && s.callers[s.madeBy[ch]].channel == ch
    && s.callers[s.madeBy[ch]].stage != Numbered
  }

  /** Nothing is in the table, in a channel or in the loop's hand that no caller is behind. */
  ghost predicate Anchored(s: Calls) {
    && (forall id | id in s.pending :: IdKnown(s, id))
    && (forall ch | ch in s.slots :: ChannelKnown(s, ch))
    && (s.hand.Some? ==> s.hand.value.message.Response? && ChannelKnown(s, s.hand.value.channel))
    && (forall ch | ch in s.fills :: ChannelKnown(s, ch))
  }

  /** Where the channel of a caller is: in the table under its id, in the loop's hand, filled, or none
      of these; never in two places, and filled at most once. */
  predicate Placed(s: Calls, c: nat, r: Caller) {
    && (r.id in s.pending ==>
          && s.pending[r.id] == r.channel && Live(r.stage)
          && r.channel !in s.slots && !InHand(s, r.channel) && s.fills[r.channel] == 0)
    && (r.stage != Numbered ==>
          && (r.channel in s.slots ==>
                && r.stage != Registering && !InHand(s, r.channel)
                && s.fills[r.channel] == 1 && Own(c, r.id, s.slots[r.channel]))
          && (InHand(s, r.channel) ==>
                r.stage != Registering && s.fills[r.channel] == 0 && Own(c, r.id, s.hand.value.message))
          && (r.stage == Registering ==> s.fills[r.channel] == 0)
          && s.fills[r.channel] <= 1)
    && (Live(r.stage) && r.stage != Leaving ==>
          r.id in s.pending || r.channel in s.slots || InHand(s, r.channel))
    && (r.stage.Ended? && r.stage.result.Got? ==> Own(c, r.id, r.stage.result.message))
    && (r.stage == Holding || r.stage == Writing <==> s.writer == Some(c))
  }

  ghost predicate AllPlaced(s: Calls) {
    forall c | c in s.callers :: Placed(s, c, s.callers[c])
  }

  ghost predicate Inv(s: Calls) {
    && Named(s)
    && Anchored(s)
    && AllPlaced(s)
    && (s.writer.Some? ==> s.writer.value in s.callers)
    && (s.down ==> s.pending == map[] && s.hand == None)
  }

  /** The two states differ only in what concerns this id, this channel and this caller. */
  ghost predicate SameElsewhere(s: Calls, t: Calls, c: nat, id: nat, ch: nat) {
    && (forall i: nat | i != id ::
          (i in t.pending <==> i in s.pending) && (i in s.pending ==> t.pending[i] == s.pending[i]))
    && (forall k: nat | k != ch :: (k in t.slots <==> k in s.slots) && (k in s.slots ==> t.slots[k] == s.slots[k]))
    && (forall k: nat | k != ch :: t.fills[k] == s.fills[k])
    && (t.hand == s.hand || ((s.hand == None || InHand(s, ch)) && (t.hand == None || InHand(t, ch))))
    && (t.writer == s.writer
        || ((s.writer == None || s.writer == Some(c)) && (t.writer == None || t.writer == Some(c))))
  }

  lemma OtherStaysPlaced(s: Calls, t: Calls, c: nat, d: nat)
    requires Named(s) && AllPlaced(s) && c in s.callers && d in s.callers && d != c
    requires s.callers[c].stage != Numbered
    requires SameElsewhere(s, t, c, s.callers[c].id, s.callers[c].channel)
    ensures Placed(t, d, s.callers[d])
  {
    assert s.callers[d].id != s.callers[c].id;
    assert s.callers[d].stage != Numbered ==> s.callers[d].channel != s.callers[c].channel;
  }

  /** A step of one registering or registered caller, or on its behalf. */
  lemma OneMoves(s: Calls, t: Calls, c: nat, r: Caller)
    requires Inv(s) && c in s.callers && s.callers[c].stage != Numbered
    requires t.callers == s.callers[c := r] && r.id == s.callers[c].id && r.channel == s.callers[c].channel
    requires r.stage != Numbered
    requires t.next == s.next && t.made == s.made && t.drawnBy == s.drawnBy && t.madeBy == s.madeBy
    requires SameElsewhere(s, t, c, r.id, r.channel)
    requires Placed(t, c, r)
    requires t.hand.Some? ==> t.hand.value.message.Response?
    requires t.writer.Some? ==> t.writer.value in t.callers
    requires t.down ==> t.pending == map[] && t.hand == None
    ensures Inv(t)
  {
    forall d | d in t.callers ensures Placed(t, d, t.callers[d]) {
      if d != c {
        OtherStaysPlaced(s, t, c, d);
      }
    }
    AnchorsHold(s, t, c, r);
  }

  lemma AnchorsHold(s: Calls, t: Calls, c: nat, r: Caller)
    requires Named(s) && Anchored(s) && c in s.callers && s.callers[c].stage != Numbered && r.stage != Numbered
    requires t.callers == s.callers[c := r] && r.id == s.callers[c].id && r.channel == s.callers[c].channel
    requires t.drawnBy == s.drawnBy && t.madeBy == s.madeBy
    requires SameElsewhere(s, t, c, r.id, r.channel)
    requires t.hand.Some? ==> t.hand.value.message.Response?
    ensures Anchored(t)
  {
    assert IdKnown(t, r.id) && ChannelKnown(t, r.channel);
    forall id | id in t.pending ensures IdKnown(t, id) {
      assert id != r.id ==> IdKnown(s, id);
    }
    forall ch | ch in t.slots ensures ChannelKnown(t, ch) {
      assert ch != r.channel ==> ChannelKnown(s, ch);
    }
    forall ch | ch in t.fills ensures ChannelKnown(t, ch) {
      assert ch != r.channel ==> ch in s.fills && ChannelKnown(s, ch);
    }
  }

  lemma DrawPlaces(s: Calls, c: nat, d: nat)
    requires Inv(s) && c !in s.callers && d in Apply(s, Draw(c)).callers
    ensures Placed(Apply(s, Draw(c)), d, Apply(s, Draw(c)).callers[d])
  {
    if d == c {
      var id: nat := s.next + 1;
      assert !IdKnown(s, id);
    } else {
      assert Placed(s, d, s.callers[d]);
    }
  }

  lemma DrawNames(s: Calls, c: nat)
    requires Named(s) && c !in s.callers
    ensures Named(Apply(s, Draw(c)))
  {
  }

  lemma DrawKeeps(s: Calls, c: nat)
    requires Inv(s)
    ensures Inv(Apply(s, Draw(c)))
  {
    var t := Apply(s, Draw(c));
    if c !in s.callers {
      forall d | d in t.callers ensures Placed(t, d, t.callers[d]) {
        DrawPlaces(s, c, d);
      }
      DrawNames(s, c);
      NewCallerAnchors(s, t, c);
    }
  }

  /** A caller that only just drew its id, or made its channel, moves nobody's anchor. */
  lemma NewCallerAnchors(s: Calls, t: Calls, c: nat)
    requires Anchored(s) && (c in s.callers ==> s.callers[c].stage == Numbered)
    requires c in t.callers && t.callers == s.callers[c := t.callers[c]]
    requires t.pending == s.pending && t.slots == s.slots && t.hand == s.hand && t.fills == s.fills
    requires forall id | id in s.drawnBy :: id in t.drawnBy && t.drawnBy[id] == s.drawnBy[id]
    requires forall ch | ch in s.madeBy :: ch in t.madeBy && t.madeBy[ch] == s.madeBy[ch]
    ensures Anchored(t)
  {
    forall id | id in t.pending ensures IdKnown(t, id) {
      assert IdKnown(s, id);
    }
    forall ch | ch in t.slots || ch in t.fills ensures ChannelKnown(t, ch) {
      assert ChannelKnown(s, ch);
    }
  }

  lemma NewChannelPlaces(s: Calls, c: nat, d: nat)
    requires Inv(s) && At(s, c, Numbered) && d in s.callers
    ensures Placed(Apply(s, MakeChannel(c)), d, Apply(s, MakeChannel(c)).callers[d])
  {
    var ch: nat := s.made + 1;
    assert !ChannelKnown(s, ch);
    assert Placed(s, d, s.callers[d]);
    assert ch !in s.slots && !InHand(s, ch) && ch !in s.fills;
  }

  lemma NewChannelNames(s: Calls, c: nat)
    requires Named(s) && At(s, c, Numbered)
    ensures Named(Apply(s, MakeChannel(c)))
  {
  }

  lemma MakeChannelKeeps(s: Calls, c: nat)
    requires Inv(s)
    ensures Inv(Apply(s, MakeChannel(c)))
  {
    var t := Apply(s, MakeChannel(c));
    if At(s, c, Numbered) {
      forall d | d in t.callers ensures Placed(t, d, t.callers[d]) {
        NewChannelPlaces(s, c, d);
      }
      NewChannelNames(s, c);
      NewCallerAnchors(s, t, c);
    }
  }

  lemma RegisterKeeps(s: Calls, c: nat)
    requires Inv(s)
    ensures Inv(Apply(s, Register(c)))
  {
    var t := Apply(s, Register(c));
    if At(s, c, Registering) {
      assert Placed(s, c, s.callers[c]);
      OneMoves(s, t, c, t.callers[c]);
    }
  }

  /** A caller that only moves on, without or with the token. */
  lemma GotoKeeps(s: Calls, t: Calls, c: nat, to: Stage, writer: Option<nat>)
    requires Inv(s) && c in s.callers && Live(s.callers[c].stage) && Live(to)
    requires to == Leaving || s.callers[c].stage != Leaving
    requires t == Goto(s, c, to).(writer := writer, asked := t.asked)
    requires
      if s.callers[c].stage == Holding || s.callers[c].stage == Writing || to == Holding || to == Writing then
        && (s.writer == None || s.writer == Some(c))
        && writer == if to == Holding || to == Writing then Some(c) else None
      else writer == s.writer
    ensures Inv(t)
  {
    assert Placed(s, c, s.callers[c]);
    OneMoves(s, t, c, t.callers[c]);
  }

  lemma WaitKeeps(s: Calls, a: Act)
    requires Inv(s) && (a.GiveUpQueued? || a.SeeDown? || a.GiveUpWaiting?)
    ensures Inv(Apply(s, a))
  {
    var t, c := Apply(s, a), a.caller;
    if t != s {
      GotoKeeps(s, t, c, Leaving, s.writer);
    }
  }

  lemma TakeTokenKeeps(s: Calls, c: nat)
    requires Inv(s)
    ensures Inv(Apply(s, TakeToken(c)))
  {
    if At(s, c, Queued) && s.writer == None {
      GotoKeeps(s, Goto(s, c, Holding).(writer := Some(c)), c, Holding, Some(c));
    }
  }

  lemma ReleaseKeeps(s: Calls, c: nat)
    requires Inv(s) && At(s, c, Holding)
    ensures Inv(Goto(s, c, Leaving).(writer := None))
  {
    assert Placed(s, c, s.callers[c]);
    GotoKeeps(s, Goto(s, c, Leaving).(writer := None), c, Leaving, None);
  }

  lemma KeepTokenKeeps(s: Calls, c: nat)
    requires Inv(s) && At(s, c, Holding)
    ensures Inv(Goto(s, c, Writing).(asked := s.asked + {c}))
  {
    assert Placed(s, c, s.callers[c]);
    GotoKeeps(s, Goto(s, c, Writing).(asked := s.asked + {c}), c, Writing, Some(c));
  }

  lemma CheckTokenKeeps(s: Calls, c: nat, expired: bool)
    requires Inv(s)
    ensures Inv(Apply(s, CheckToken(c, expired)))
  {
    if At(s, c, Holding) {
      if s.down || expired {
        assert Apply(s, CheckToken(c, expired)) == Goto(s, c, Leaving).(writer := None);
        ReleaseKeeps(s, c);
      } else {
        assert Apply(s, CheckToken(c, expired)) == Goto(s, c, Writing).(asked := s.asked + {c});
        KeepTokenKeeps(s, c);
      }
    }
  }

  lemma WriteKeeps(s: Calls, c: nat, ok: bool)
    requires Inv(s)
    ensures Inv(Apply(s, Write(c, ok)))
  {
    if At(s, c, Writing) {
      assert Placed(s, c, s.callers[c]);
      var to := if ok then Waiting else Leaving;
      GotoKeeps(s, Goto(s, c, to).(writer := None), c, to, None);
    }
  }

  lemma ReceiveKeeps(s: Calls, c: nat)
    requires Inv(s)
    ensures Inv(Apply(s, Receive(c)))
  {
    var t := Apply(s, Receive(c));
    if At(s, c, Waiting) && s.callers[c].channel in s.slots {
      assert Placed(s, c, s.callers[c]);
      OneMoves(s, t, c, t.callers[c]);
    }
  }

  lemma UnregisterKeeps(s: Calls, c: nat)
    requires Inv(s)
    ensures Inv(Apply(s, Unregister(c)))
  {
    var t := Apply(s, Unregister(c));
    if At(s, c, Leaving) {
      assert Placed(s, c, s.callers[c]);
      OneMoves(s, t, c, t.callers[c]);
    }
  }

  /** A response is taken on behalf of the one caller that drew its id. */
  lemma ReadKeeps(s: Calls, m: Message)
    requires Inv(s)
    ensures Inv(Apply(s, Read(m)))
  {
    var t := Apply(s, Read(m));
    if t != s {
      assert IdKnown(s, m.id);
      var c := s.drawnBy[m.id];
      assert Placed(s, c, s.callers[c]);
      assert t.callers == s.callers[c := s.callers[c]];
      OneMoves(s, t, c, s.callers[c]);
    }
  }

  lemma DeliverKeeps(s: Calls)
    requires Inv(s)
    ensures Inv(Apply(s, Deliver))
  {
    var t := Apply(s, Deliver);
    if t != s {
      assert ChannelKnown(s, s.hand.value.channel);
      var c := s.madeBy[s.hand.value.channel];
      assert Placed(s, c, s.callers[c]);
      assert t.callers == s.callers[c := s.callers[c]];
      OneMoves(s, t, c, s.callers[c]);
    }
  }

  lemma FailKeeps(s: Calls, reason: string)
    requires Inv(s) && s.hand == None
    ensures Inv(Failed(s, reason))
  {
    var t := Failed(s, reason);
    forall ch | ch in s.pending.Values ensures ChannelKnown(s, ch) && ch !in s.slots && ch !in s.fills {
      PendingChannel(s, ch);
    }
    forall ch | ch in t.slots || ch in t.fills ensures ChannelKnown(t, ch) {
      assert ChannelKnown(s, ch);
    }
    forall c | c in t.callers ensures Placed(t, c, t.callers[c]) {
      assert Placed(s, c, s.callers[c]);
      FailPlaces(s, reason, c);
    }
  }

  lemma PendingChannel(s: Calls, ch: nat)
    requires Inv(s) && ch in s.pending.Values
    ensures ChannelKnown(s, ch) && ch !in s.slots && ch !in s.fills && !InHand(s, ch)
    ensures s.callers[s.madeBy[ch]].id in s.pending && s.pending[s.callers[s.madeBy[ch]].id] == ch
  {
    var id :| id in s.pending && s.pending[id] == ch;
    assert IdKnown(s, id);
    var c := s.drawnBy[id];
    assert Placed(s, c, s.callers[c]);
  }

  lemma FailPlaces(s: Calls, reason: string, c: nat)
    requires Inv(s) && s.hand == None && c in s.callers
    ensures Placed(Failed(s, reason), c, s.callers[c])
  {
    var r := s.callers[c];
    assert Placed(s, c, r);
    if r.id in s.pending {
      assert r.channel in s.pending.Values;
    } else if r.stage != Numbered && r.channel in s.pending.Values {
      PendingChannel(s, r.channel);
    }
  }

  lemma ApplyKeeps(s: Calls, a: Act)
    requires Inv(s)
    ensures Inv(Apply(s, a))
  {
    match a
    case Draw(c) => DrawKeeps(s, c);
    case MakeChannel(c) => MakeChannelKeeps(s, c);
    case Register(c) => RegisterKeeps(s, c);
    case Receive(c) => ReceiveKeeps(s, c);
    case Unregister(c) => UnregisterKeeps(s, c);
    case Read(m) => ReadKeeps(s, m);
    case Deliver => DeliverKeeps(s);
    case Fail(reason) =>
      if !s.down && s.hand == None {
        FailKeeps(s, reason);
      }
    case TakeToken(c) => TakeTokenKeeps(s, c);
    case CheckToken(c, expired) => CheckTokenKeeps(s, c, expired);
    case Write(c, ok) => WriteKeeps(s, c, ok);
    case _ => WaitKeeps(s, a);
  }

  lemma {:induction false} RunKeeps(s: Calls, acts: seq<Act>)
    requires Inv(s)
    ensures Inv(Run(s, acts))
    decreases |acts|
  {
    if acts != [] {
      ApplyKeeps(s, acts[0]);
      RunKeeps(Apply(s, acts[0]), acts[1..]);
    }
  }

  // ------------------------------------------------------------------ whole runs

  /** A caller returns only a response with its own id, to its own request, or the transport's error. */
  lemma OwnReplyOnly(acts: seq<Act>, c: nat, m: Message)
    requires At(Run(Fresh, acts), c, Ended(Got(m)))
    ensures Own(c, Run(Fresh, acts).callers[c].id, m)
  {
    RunKeeps(Fresh, acts);
    assert Placed(Run(Fresh, acts), c, Run(Fresh, acts).callers[c]);
  }

  /** Ids are never reused, and neither are channels. */
  lemma NamesAreNew(acts: seq<Act>, c: nat, d: nat)
    ensures
      var s := Run(Fresh, acts);
      c in s.callers && d in s.callers && c != d ==>
        && s.callers[c].id != s.callers[d].id
        && (s.callers[c].stage != Numbered && s.callers[d].stage != Numbered ==>
              s.callers[c].channel != s.callers[d].channel)
  {
    RunKeeps(Fresh, acts);
  }

  lemma DrawnIdIsNew(acts: seq<Act>, c: nat, d: nat)
    requires c !in Run(Fresh, acts).callers
    ensures
      var s := Run(Fresh, acts);
      var t := Apply(s, Draw(c));
      c in t.callers && (d in s.callers ==> s.callers[d].id < t.callers[c].id)
  {
    RunKeeps(Fresh, acts);
  }

  /** Nothing is ever put twice into one reply channel. */
  lemma AtMostOneReply(acts: seq<Act>, ch: nat)
    ensures Run(Fresh, acts).fills[ch] <= 1
  {
    RunKeeps(Fresh, acts);
    var s := Run(Fresh, acts);
    if ch in s.fills {
      assert ChannelKnown(s, ch);
      assert Placed(s, s.madeBy[ch], s.callers[s.madeBy[ch]]);
    }
  }

  lemma HandFindsRoom(s: Calls)
    requires Inv(s) && s.hand.Some?
    ensures s.hand.value.channel !in s.slots
  {
    var ch := s.hand.value.channel;
    assert ChannelKnown(s, ch);
    assert Placed(s, s.madeBy[ch], s.callers[s.madeBy[ch]]);
  }

  /** The channel in the table was made by the caller that drew the id. */
  lemma PendingIsOneCallers(s: Calls, id: nat)
    requires Inv(s) && id in s.pending
    ensures s.pending[id] !in s.slots
    ensures id in s.drawnBy && s.pending[id] in s.madeBy && s.madeBy[s.pending[id]] == s.drawnBy[id]
  {
    assert IdKnown(s, id);
    assert Placed(s, s.drawnBy[id], s.callers[s.drawnBy[id]]);
  }

  /** The read loop never has to wait for room in a reply channel: neither for the response it is about
      to send, nor for the error it sends to everyone, each on a channel of its own. */
  lemma LoopNeverBlocks(acts: seq<Act>)
    ensures
      var s := Run(Fresh, acts);
      && (s.hand.Some? ==> s.hand.value.channel !in s.slots && Apply(s, Deliver).hand == None)
      && (forall id | id in s.pending :: s.pending[id] !in s.slots)
      && (forall id, other | id in s.pending && other in s.pending && id != other :: s.pending[id] != s.pending[other])
  {
    RunKeeps(Fresh, acts);
    var s := Run(Fresh, acts);
    if s.hand.Some? {
      HandFindsRoom(s);
    }
    forall id | id in s.pending ensures s.pending[id] !in s.slots && s.madeBy[s.pending[id]] == s.drawnBy[id] {
      PendingIsOneCallers(s, id);
    }
    forall id, other | id in s.pending && other in s.pending && id != other ensures s.pending[id] != s.pending[other] {
      assert IdKnown(s, id) && IdKnown(s, other);
    }
  }

  lemma {:induction false} StaysDown(s: Calls, acts: seq<Act>)
    requires s.down
    ensures Run(s, acts).down
    decreases |acts|
  {
    if acts != [] {
      StaysDown(Apply(s, acts[0]), acts[1..]);
    }
  }

  /** From the failure of the transport on nothing is ever registered, and every caller that waits for
      its answer finds one in its channel. */
  lemma NobodyWaitsForever(before: seq<Act>, after: seq<Act>, c: nat)
    requires Run(Fresh, before).down
    ensures
      var s := Run(Run(Fresh, before), after);
      && s.down && s.pending == map[]
      && (At(s, c, Waiting) ==>
            var ch := s.callers[c].channel;
            ch in s.slots && At(Apply(s, Receive(c)), c, Ended(Got(s.slots[ch]))))
      && (At(s, c, Queued) ==> At(Apply(s, SeeDown(c)), c, Leaving))
  {
    RunKeeps(Fresh, before);
    RunKeeps(Run(Fresh, before), after);
    StaysDown(Run(Fresh, before), after);
    WaiterIsAnswered(Run(Run(Fresh, before), after), c);
  }

  lemma WaiterIsAnswered(s: Calls, c: nat)
    requires Inv(s) && s.down
    ensures At(s, c, Waiting) ==>
              var ch := s.callers[c].channel;
              ch in s.slots && At(Apply(s, Receive(c)), c, Ended(Got(s.slots[ch])))
    ensures At(s, c, Queued) ==> At(Apply(s, SeeDown(c)), c, Leaving)
  {
    assert c in s.callers ==> Placed(s, c, s.callers[c]);
  }

  /** At most one caller writes at a time, and a free token means that nobody does. */
  lemma OneWriter(acts: seq<Act>, a: nat, b: nat)
    ensures
      var s := Run(Fresh, acts);
      && (At(s, a, Writing) && At(s, b, Writing) ==> a == b)
      && (s.writer == None ==> !At(s, a, Writing) && !At(s, a, Holding))
      && (s.writer.Some? ==> At(s, s.writer.value, Writing) || At(s, s.writer.value, Holding))
  {
    RunKeeps(Fresh, acts);
    var s := Run(Fresh, acts);
    assert a in s.callers ==> Placed(s, a, s.callers[a]);
    assert b in s.callers ==> Placed(s, b, s.callers[b]);
    if s.writer.Some? {
      assert Placed(s, s.writer.value, s.callers[s.writer.value]);
    }
  }

  // ---------------------------------------------------------- the client object

  /** Everything that is not a step of caller `c` itself. */
  predicate Foreign(a: Act, c: nat) {
    match a
    case Read(_) => true
    case Deliver => true
    case Fail(_) => true
    case _ => a.caller != c
  }

  lemma ForeignLeaves(s: Calls, a: Act, c: nat)
    requires c in s.callers && Foreign(a, c)
    ensures c in Apply(s, a).callers && Apply(s, a).callers[c] == s.callers[c]
  {
    match a
    case Draw(_) =>
    case MakeChannel(_) =>
    case Register(_) =>
    case CheckToken(_, _) =>
    case Receive(_) =>
    case Unregister(_) =>
    case _ =>
  }

  lemma {:induction false} RunSnoc(s: Calls, acts: seq<Act>, a: Act)
    ensures Run(s, acts + [a]) == Apply(Run(s, acts), a)
    decreases |acts|
  {
    if acts == [] {
      assert [a][1..] == [];
    } else {
      assert (acts + [a])[1..] == acts[1..] + [a];
      RunSnoc(Apply(s, acts[0]), acts[1..], a);
    }
  }

  lemma {:induction false} RunJoin(s: Calls, a: seq<Act>, b: seq<Act>)
    ensures Run(s, a + b) == Run(Run(s, a), b)
    decreases |a|
  {
    if a == [] {
      assert a + b == b;
    } else {
      assert (a + b)[1..] == a[1..] + b;
      RunJoin(Apply(s, a[0]), a[1..], b);
    }
  }

  /** A response that is read while its id is in the table ends up in the channel of the caller that
      drew the id. */
  lemma ReplyArrives(acts: seq<Act>, c: nat, m: Message)
    requires
      var s := Run(Fresh, acts);
      && c in s.callers && s.callers[c].id in s.pending && s.hand == None && !s.down
      && m.Response? && m.id == s.callers[c].id && Truthful(s, m)
    ensures
      var s := Run(Fresh, acts);
      var t := Apply(Apply(s, Read(m)), Deliver);
      && t.callers == s.callers && t.callers[c].channel in t.slots && t.slots[t.callers[c].channel] == m
      && m.id !in t.pending && t.hand == None
  {
    RunKeeps(Fresh, acts);
    var s := Run(Fresh, acts);
    ChannelOfId(s, c);
    DeliversTo(s, m, s.callers[c].channel);
  }

  lemma DeliversTo(s: Calls, m: Message, ch: nat)
    requires s.hand == None && !s.down && m.Response? && Truthful(s, m)
    requires m.id in s.pending && s.pending[m.id] == ch && ch !in s.slots
    ensures
      var t := Apply(Apply(s, Read(m)), Deliver);
      t.callers == s.callers && t.slots == s.slots[ch := m] && m.id !in t.pending && t.hand == None
  {
  }

  lemma ChannelOfId(s: Calls, c: nat)
    requires AllPlaced(s) && c in s.callers && s.callers[c].id in s.pending
    ensures s.pending[s.callers[c].id] == s.callers[c].channel && s.callers[c].channel !in s.slots
  {
    assert Placed(s, c, s.callers[c]);
  }

  ghost predicate AllForeign(acts: seq<Act>, c: nat) {
    forall a | a in acts :: Foreign(a, c)
  }

  /** What happens around one CallSession: what the others do before each of its steps, and how its
      context, the write and its last wait turn out. */
  datatype CallScript = CallScript(
    making: seq<Act>,
    registering: seq<Act>,
    queueing: seq<Act>,
    cancelled: bool,
    holding: seq<Act>,
    expired: bool,
    writing: seq<Act>,
    written: bool,
    waiting: seq<Act>,
    impatient: bool,
    leaving: seq<Act>)

  ghost predicate ScriptForeign(script: CallScript, c: nat) {
    && AllForeign(script.making, c) && AllForeign(script.registering, c)
    && AllForeign(script.queueing, c) && AllForeign(script.holding, c)
    && AllForeign(script.writing, c) && AllForeign(script.waiting, c) && AllForeign(script.leaving, c)
  }

  /** The state in which a new call finds out whether the transport is up. */
  function AtRegistration(s: Calls, c: nat, script: CallScript): Calls {
    Run(Apply(Run(Apply(s, Draw(c)), script.making), MakeChannel(c)), script.registering)
  }

  /** The state in which a registered call asks for the write token. */
  function AtQueue(s: Calls, c: nat, script: CallScript): Calls {
    Run(Apply(AtRegistration(s, c, script), Register(c)), script.queueing)
  }

  /** The state in which a call that has the token looks whether it is still worth making. */
  function AtToken(queued: Calls, c: nat, script: CallScript): Calls {
    Run(Apply(queued, TakeToken(c)), script.holding)
  }

  /** The state at the end of the wait of a call whose command has been written. */
  function AtWaitsEnd(queued: Calls, c: nat, script: CallScript): Calls {
    var writing := Run(Apply(AtToken(queued, c, script), CheckToken(c, false)), script.writing);
    Run(Apply(writing, Write(c, true)), script.waiting)
  }

  /** The fields of a client, beside the machine of all its goroutines and the steps they have taken. */
  class Client {
    var next: nat
    var made: nat
    var pending: map<nat, nat>
    var slots: map<nat, Message>
    var down: bool
    var token: bool
    var sys: Calls
    ghost var acts: seq<Act>

    ghost predicate Valid()
      reads this
    {
      && sys == Run(Fresh, acts)
      && next == sys.next && made == sys.made
      && pending == sys.pending
      && slots == sys.slots
      && down == sys.down
      && token == (sys.writer == None)
    }

    constructor ()
      ensures Valid() && acts == []
    {
      next, made, pending, slots, down, token, sys, acts := 0, 0, map[], map[], false, true, Fresh, [];
    }

    method Step(a: Act)
      requires sys == Run(Fresh, acts)
      modifies this`sys, this`acts
      ensures sys == Run(Fresh, acts) == Apply(old(sys), a) && acts == old(acts) + [a]
    {
      RunSnoc(Fresh, acts, a);
      sys := Apply(sys, a);
      acts := acts + [a];
    }

    method StepForeign(a: Act, c: nat)
      requires sys == Run(Fresh, acts) && c in sys.callers && Foreign(a, c)
      modifies this`sys, this`acts
      ensures sys == Run(Fresh, acts) && acts == old(acts) + [a]
      ensures c in sys.callers && sys.callers[c] == old(sys).callers[c]
    {
      ForeignLeaves(sys, a, c);
      Step(a);
    }

    /** The other goroutines run for a while. */
    method Others(batch: seq<Act>, c: nat)
      requires Valid() && c in sys.callers && AllForeign(batch, c)
      modifies this
      ensures Valid() && acts == old(acts) + batch && sys == Run(old(sys), batch)
      ensures c in sys.callers && sys.callers[c] == old(sys).callers[c]
    {
      ghost var caller := sys.callers[c];
      var k := 0;
      while k < |batch|
        invariant k <= |batch| && sys == Run(Fresh, acts) && acts == old(acts) + batch[..k]
        invariant c in sys.callers && sys.callers[c] == caller
      {
        assert batch[..k + 1] == batch[..k] + [batch[k]];
        StepForeign(batch[k], c);
        k := k + 1;
      }
      assert batch[..k] == batch;
      RunJoin(Fresh, old(acts), batch);
      next, made, pending, slots := sys.next, sys.made, sys.pending, sys.slots;
      down, token := sys.down, sys.writer == None;
    }

    /** A new id, larger than any drawn before. */
    method NewID(c: nat) returns (id: nat)
      requires Valid() && c !in sys.callers
      modifies this
      ensures Valid() && acts == old(acts) + [Draw(c)] && sys == Apply(old(sys), Draw(c))
      ensures c in sys.callers && sys.callers[c] == Caller(id, NO_CHANNEL, Numbered)
      ensures forall d | d in old(sys).callers :: old(sys).callers[d].id < id
    {
      forall d | d in sys.callers ensures sys.callers[d].id < next + 1 {
        DrawnIdIsNew(acts, c, d);
      }
      next := next + 1;
      id := next;
      Step(Draw(c));
    }

    /** A new one-slot channel. */
    method NewChannel(c: nat) returns (ch: nat)
      requires Valid() && At(sys, c, Numbered)
      modifies this
      ensures Valid() && acts == old(acts) + [MakeChannel(c)] && sys == Apply(old(sys), MakeChannel(c))
      ensures c in sys.callers && sys.callers[c] == Caller(old(sys).callers[c].id, ch, Registering)
    {
      made := made + 1;
      ch := made;
      Step(MakeChannel(c));
    }

    method AddPending(c: nat, id: nat, ch: nat) returns (ok: bool)
      requires Valid() && c in sys.callers && sys.callers[c] == Caller(id, ch, Registering)
      modifies this
      ensures Valid() && acts == old(acts) + [Register(c)] && sys == Apply(old(sys), Register(c))
      ensures ok == !down && pending == if ok then old(pending)[id := ch] else old(pending)
      ensures c in sys.callers && sys.callers[c] == Caller(id, ch, if ok then Queued else Ended(Refused))
    {
      ok := !down;
      if ok {
        pending := pending[id := ch];
      }
      Step(Register(c));
    }

    method RemovePending(c: nat, id: nat)
      requires Valid() && At(sys, c, Leaving) && sys.callers[c].id == id
      modifies this
      ensures Valid() && acts == old(acts) + [Unregister(c)]
      ensures id !in pending && At(sys, c, Ended(GaveUp)) && sys.callers[c].id == id
    {
      pending := pending - {id};
      Step(Unregister(c));
    }

    /** One response in the read loop: look its id up and take the channel out of the table. */
    method TakeChannel(m: Message) returns (ch: Option<nat>)
      requires Valid() && m.Response? && Truthful(sys, m) && sys.hand == None && !down
      modifies this
      ensures Valid() && acts == old(acts) + [Read(m)]
      ensures ch == if m.id in old(pending) then Some(old(pending)[m.id]) else None
      ensures m.id !in pending && sys.hand == if ch.Some? then Some(Delivery(ch.value, m)) else None
    {
      ch := if m.id in pending then Some(pending[m.id]) else None;
      pending := pending - {m.id};
      Step(Read(m));
    }

    /** And send it there: the channel has room. */
    method Send(ch: nat, m: Message)
      requires Valid() && sys.hand == Some(Delivery(ch, m))
      modifies this
      ensures Valid() && acts == old(acts) + [Deliver]
      ensures sys.hand == None && ch !in old(slots) && slots == old(slots)[ch := m]
    {
      LoopNeverBlocks(acts);
      slots := slots[ch := m];
      Step(Deliver);
    }

    /** Every channel in the table has room, and none is there under two ids. */
    static predicate Roomy(slots: map<nat, Message>, pending: map<nat, nat>) {
      && (forall id | id in pending :: pending[id] !in slots)
      && (forall id, other | id in pending && other in pending && id != other :: pending[id] != pending[other])
    }

    /** Send the error to every channel in the table. */
    method AnswerAll(reason: string)
      requires Roomy(slots, pending)
      modifies this`pending, this`slots
      ensures pending == map[] && slots == Answered(old(slots), old(pending), reason)
    {
      while pending != map[]
        invariant Roomy(slots, pending)
        invariant Answered(slots, pending, reason) == Answered(old(slots), old(pending), reason)
        decreases |pending|
      {
        var id: nat :| id in pending.Keys;
        AnswerOne(slots, pending, id, reason);
        slots, pending := slots[pending[id] := Lost(reason)], pending - {id};
      }
      AnswerNone(slots, reason);
    }

    static lemma ValuesWithout(pending: map<nat, nat>, id: nat)
      requires id in pending && forall other | other in pending && other != id :: pending[other] != pending[id]
      ensures (pending - {id}).Values == pending.Values - {pending[id]}
    {
      var rest := pending - {id};
      forall ch ensures ch in rest.Values <==> ch in pending.Values && ch != pending[id] {
        if ch in pending.Values && ch != pending[id] {
          var other :| other in pending && pending[other] == ch;
          assert other in rest && rest[other] == ch;
        }
      }
    }

    static lemma AnsweredStays(slots: map<nat, Message>, pending: map<nat, nat>, id: nat, reason: string)
      requires id in pending && (pending - {id}).Values == pending.Values - {pending[id]}
      ensures Answered(slots[pending[id] := Lost(reason)], pending - {id}, reason) == Answered(slots, pending, reason)
    {
    }

    static lemma AnswerOne(slots: map<nat, Message>, pending: map<nat, nat>, id: nat, reason: string)
      requires id in pending && Roomy(slots, pending)
      ensures
        var slots', rest := slots[pending[id] := Lost(reason)], pending - {id};
        Roomy(slots', rest) && |rest| < |pending| && Answered(slots', rest, reason) == Answered(slots, pending, reason)
    {
      ValuesWithout(pending, id);
      AnsweredStays(slots, pending, id, reason);
      assert (pending - {id}).Keys == pending.Keys - {id};
    }

    static lemma AnswerNone(slots: map<nat, Message>, reason: string)
      ensures Answered(slots, map[], reason) == slots
    {
    }

    lemma TableIsRoomy()
      requires Valid()
      ensures Roomy(slots, pending)
    {
      LoopNeverBlocks(acts);
    }

    method StepFail(reason: string)
      requires sys == Run(Fresh, acts) && sys.hand == None && !sys.down
      modifies this`sys, this`acts
      ensures sys == Run(Fresh, acts) == Failed(old(sys), reason) && acts == old(acts) + [Fail(reason)]
    {
      Step(Fail(reason));
    }

    /** Answer everyone in the table with the error. No send finds its channel full. */
    method FailPending(reason: string)
      requires Valid() && sys.hand == None && !down
      modifies this
      ensures Valid() && acts == old(acts) + [Fail(reason)]
      ensures down && pending == map[]
      ensures forall ch | ch in old(pending).Values :: ch in slots && slots[ch] == Lost(reason)
      ensures forall ch | ch !in old(pending).Values :: ch in slots <==> ch in old(slots)
      ensures forall ch | ch in old(slots) ::
                ch in slots && (ch !in old(pending).Values ==> slots[ch] == old(slots)[ch])
    {
      TableIsRoomy();
      down := true;
      AnswerAll(reason);
      StepFail(reason);
    }

    /** Wait for the write token, the end of the transport or the end of the caller's own patience. */
    method AcquireWrite(c: nat, script: CallScript) returns (ok: bool)
      requires Valid() && At(sys, c, Queued) && AllForeign(script.holding, c)
      modifies this
      ensures Valid() && c in sys.callers
      ensures sys.callers[c] == old(sys).callers[c].(stage := if ok then Writing else Leaving)
      ensures ok ==> !script.expired && !down
      ensures ok <==> !script.cancelled && old(token) && !script.expired && !AtToken(old(sys), c, script).down
      ensures ok ==> sys == Apply(AtToken(old(sys), c, script), Act.CheckToken(c, false))
    {
      if script.cancelled || !token {
        Step(if down && !script.cancelled then SeeDown(c) else GiveUpQueued(c));
        return false;
      }
      token := false;
      Step(TakeToken(c));
      Others(script.holding, c);
      ok := CheckToken(c, script.expired);
    }

    /** Holding the token, look once more whether the call is still worth making. */
    method CheckToken(c: nat, expired: bool) returns (ok: bool)
      requires Valid() && At(sys, c, Holding)
      modifies this
      ensures Valid() && c in sys.callers
      ensures sys.callers[c] == old(sys).callers[c].(stage := if ok then Writing else Leaving)
      ensures ok <==> !expired && !down
      ensures down == old(down) && sys == Apply(old(sys), Act.CheckToken(c, expired))
    {
      ok := !down && !expired;
      if !ok {
        token := true;
      }
      Step(Act.CheckToken(c, expired));
    }

    /** Write the command, if the connection takes it, and give the token back either way. */
    method WriteCommand(c: nat, written: bool)
      requires Valid() && At(sys, c, Writing)
      modifies this
      ensures Valid() && acts == old(acts) + [Write(c, written)] && token && c in sys.callers
      ensures sys == Apply(old(sys), Write(c, written))
      ensures sys.callers[c] == old(sys).callers[c].(stage := if written then Waiting else Leaving)
    {
      token := true;
      Step(Write(c, written));
    }

    /** What the caller's channel holds, unless its patience ends first. It is the caller's own. */
    method AwaitReply(c: nat, id: nat, ch: nat, impatient: bool) returns (m: Option<Message>)
      requires Valid() && c in sys.callers && sys.callers[c] == Caller(id, ch, Waiting)
      modifies this
      ensures Valid() && c in sys.callers
      ensures m == if ch in old(slots) && !impatient then Some(old(slots)[ch]) else None
      ensures sys.callers[c] == Caller(id, ch, if m.Some? then Ended(Got(m.value)) else Leaving)
      ensures m.Some? ==> Own(c, id, m.value)
    {
      if ch in slots && !impatient {
        m := Some(slots[ch]);
        slots := slots - {ch};
        Step(Receive(c));
        OwnReplyOnly(acts, c, m.value);
      } else {
        m := None;
        Step(GiveUpWaiting(c));
      }
    }

    /** One command from its id to its result, whatever the other goroutines do in between. It is refused
        exactly when the transport is down at its registration, and returns exactly what its own channel
        holds at the end of its wait. It gives up only when its context ends before it has the token or
        while it waits, the token is not free, the transport went down, or the write failed; or when
        nothing has come. */
    method CallSession(c: nat, script: CallScript) returns (id: nat, result: Result)
      requires Valid() && c !in sys.callers && ScriptForeign(script, c)
      modifies this
      ensures Valid() && At(sys, c, Ended(result)) && sys.callers[c].id == id
      ensures forall d | d in old(sys).callers :: old(sys).callers[d].id < id
      ensures result.Got? ==> Own(c, id, result.message)
      ensures result == Refused <==> AtRegistration(old(sys), c, script).down
      ensures
        var queued := AtQueue(old(sys), c, script);
        var waited := AtWaitsEnd(queued, c, script);
        result != Refused ==>
          && c in queued.callers && queued.callers[c].id == id
          && (result.Got? <==>
                && !script.cancelled && queued.writer == None
                && !script.expired && !AtToken(queued, c, script).down
                && script.written && !script.impatient && queued.callers[c].channel in waited.slots)
          && (result.Got? ==> result.message == waited.slots[queued.callers[c].channel])
    {
      id := NewID(c);
      Others(script.making, c);
      var ch := NewChannel(c);
      Others(script.registering, c);
      var registered := AddPending(c, id, ch);
      if !registered {
        return id, Refused;
      }
      Others(script.queueing, c);
      result := Exchange(c, id, ch, script);
    }

    /** The registered part of it: write, wait, and leave the table if nothing came. */
    method Exchange(c: nat, id: nat, ch: nat, script: CallScript) returns (result: Result)
      requires Valid() && c in sys.callers && sys.callers[c] == Caller(id, ch, Queued) && ScriptForeign(script, c)
      modifies this
      ensures Valid() && At(sys, c, Ended(result)) && sys.callers[c].id == id && result != Refused
      ensures result.Got? ==> Own(c, id, result.message)
      ensures
        var waited := AtWaitsEnd(old(sys), c, script);
        && (result.Got? <==>
              && !script.cancelled && old(token) && !script.expired && !AtToken(old(sys), c, script).down
              && script.written && !script.impatient && ch in waited.slots)
        && (result.Got? ==> result.message == waited.slots[ch])
    {
      var ok := AcquireWrite(c, script);
      if ok {
        Others(script.writing, c);
        WriteCommand(c, script.written);
        if script.written {
          Others(script.waiting, c);
          var m := AwaitReply(c, id, ch, script.impatient);
          if m.Some? {
            return Got(m.value);
          }
        }
      }
      Others(script.leaving, c);
      RemovePending(c, id);
      result := GaveUp;
    }
  }
}
