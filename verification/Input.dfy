/** Raw keyboard and mouse input and the three-way report on it (internal/browserflow/input.go). */
module Input {
  import opened Basics
  import opened Records
  import opened Protocol

  datatype Coordinate = NotANumber | Infinite | Finite(value: real)

  datatype Command =
    | Focus(selector: string)
    | KeyDown
    | KeyUp
    | MouseMoved(x: Coordinate, y: Coordinate)
    | MousePressed(x: Coordinate, y: Coordinate)
    | MouseReleased(x: Coordinate, y: Coordinate)

  /** What the focus script returned, once it could be evaluated at all. */
  datatype FocusReport = Unreadable | Focused(found: bool, focused: bool)

  predicate IsPress(c: Command) {
    c.KeyDown? || c.MousePressed?
  }

  /** How many irreversible commands were sent. */
  function Presses(sent: seq<Command>): nat
    decreases |sent|
  {
    if sent == [] then 0 else (if IsPress(sent[0]) then 1 else 0) + Presses(sent[1..])
  }

  /** An attached page. `confirmed` scripts which commands the browser confirms, in the order they
      are sent; a command that is not confirmed may or may not have reached the page. */
  class PageSession {
    const confirmed: seq<bool>
    var sent: seq<Command>

    constructor (confirmed: seq<bool>)
      ensures this.confirmed == confirmed && sent == []
    {
      this.confirmed := confirmed;
      sent := [];
    }

    predicate WillConfirm(k: nat)
      reads this
    {
      |sent| + k < |confirmed| && confirmed[|sent| + k]
    }

    method Exec(c: Command) returns (ok: bool)
      modifies this
      ensures sent == old(sent) + [c] && ok == old(WillConfirm(0))
    {
      ok := WillConfirm(0);
      sent := sent + [c];
    }
  }

  const NOTHING_SENT := Outcome(NotPerformed, false)
  const SENT := Outcome(Performed, true)
  const MAYBE_SENT := Outcome(Unknown, true)

  /** One Enter: unknown exactly when the key down was not confirmed. */
  method PressEnter(session: PageSession?) returns (o: Outcome, failed: bool)
    modifies if session == null then {} else {session}
    ensures session == null ==> o == NOTHING_SENT && failed
    ensures session != null ==>
              var down, up := old(session.WillConfirm(0)), old(session.WillConfirm(1));
              && session.sent == old(session.sent) + (if down then [KeyDown, KeyUp] else [KeyDown])
              && o == (if down then SENT else MAYBE_SENT)
              && failed == !(down && up)
  {
    if session == null {
      return NOTHING_SENT, true;
    }
    var down := session.Exec(KeyDown);
    if !down {
      return MAYBE_SENT, true;
    }
    var up := session.Exec(KeyUp);
    assert session.sent == old(session.sent) + [KeyDown, KeyUp];
    o, failed := SENT, !up;
  }

  /** Enter on one focused control. Whatever goes wrong before the key down is known not to have sent it. */
  method PressEnterOnSelector(session: PageSession?, selector: string, report: FocusReport)
    returns (o: Outcome, failed: bool)
    modifies if session == null then {} else {session}
    ensures session == null || selector == "" ==> o == NOTHING_SENT && failed
    ensures session != null ==>
              var focused := selector != "" && old(session.WillConfirm(0)) && report == Focused(true, true);
              var down, up := old(session.WillConfirm(1)), old(session.WillConfirm(2));
              && session.sent == old(session.sent) + (if selector == "" then []
                                                      else if !focused then [Focus(selector)]
                                                      else if down then [Focus(selector), KeyDown, KeyUp]
                                                      else [Focus(selector), KeyDown])
              && o == (if !focused then NOTHING_SENT else if down then SENT else MAYBE_SENT)
              && failed == !(focused && down && up)
  {
    if session == null || selector == "" {
      return NOTHING_SENT, true;
    }
    var evaluated := session.Exec(Focus(selector));
    if !evaluated || report != Focused(true, true) {
      return NOTHING_SENT, true;
    }
    o, failed := PressEnter(session);
  }

  predicate OnPage(c: Coordinate) {
    c.Finite? && c.value >= 0.0
  }

  function ClickEvents(x: Coordinate, y: Coordinate): seq<Command> {
    [MouseMoved(x, y), MousePressed(x, y), MouseReleased(x, y)]
  }

  /** One click. Commands stop at the first that is not confirmed, and the outcome is unknown exactly
      when that one is the press or comes after it. */
  method ClickPoint(session: PageSession?, x: Coordinate, y: Coordinate) returns (o: Outcome, failed: bool)
    modifies if session == null then {} else {session}
    ensures session == null || !OnPage(x) || !OnPage(y) ==> o == NOTHING_SENT && failed
    ensures session != null && !(OnPage(x) && OnPage(y)) ==> session.sent == old(session.sent)
    ensures session != null && OnPage(x) && OnPage(y) ==>
              var moved, pressed := old(session.WillConfirm(0)), old(session.WillConfirm(1));
              var released := old(session.WillConfirm(2));
              && session.sent
                 == old(session.sent) + ClickEvents(x, y)[..if !moved then 1 else if !pressed then 2 else 3]
              && o == (if !moved then NOTHING_SENT else if pressed && released then SENT else MAYBE_SENT)
              && failed == !(moved && pressed && released)
  {
    if session == null || !OnPage(x) || !OnPage(y) {
      return NOTHING_SENT, true;
    }
    var events := ClickEvents(x, y);
    var rawAttempted := false;
    var k := 0;
    while k < |events|
      invariant k <= |events|
      invariant session.sent == old(session.sent) + events[..k]
      invariant forall j | 0 <= j < k :: old(session.WillConfirm(j))
      invariant rawAttempted == (k > 1)
    {
      assert events[..k + 1] == events[..k] + [events[k]];
      if !events[k].MouseMoved? {
        rawAttempted := true;
      }
      var ok := session.Exec(events[k]);
      if !ok {
        return if rawAttempted then MAYBE_SENT else NOTHING_SENT, true;
      }
      k := k + 1;
    }
    o, failed := SENT, false;
  }

  /** One of the raw inputs above. */
  datatype RawInput = Enter | EnterOn(selector: string, report: FocusReport) | Click(x: Coordinate, y: Coordinate)

  /** Every helper keeps a dispatcher's promise: a valid report, one press at most, and none when it
      reports not performed. */
  method Perform(session: PageSession, input: RawInput) returns (o: Outcome, presses: nat)
    modifies session
    ensures old(session.sent) <= session.sent && presses == Presses(session.sent[|old(session.sent)|..])
    ensures ValidOutcome(o) && Honest(o, presses)
    ensures presses == if o.dispatch == NotPerformed then 0 else 1
  {
    ghost var before := session.sent;
    var failed;
    match input {
      case Enter => o, failed := PressEnter(session);
      case EnterOn(selector, report) => o, failed := PressEnterOnSelector(session, selector, report);
      case Click(x, y) => o, failed := ClickPoint(session, x, y);
    }
    presses := if o.dispatch == NotPerformed then 0 else 1;
    CountPresses(session.sent[|before|..]);
  }

  lemma CountPresses(sent: seq<Command>)
    requires |sent| <= 3 && (forall j | 0 <= j < |sent| :: IsPress(sent[j]) ==> j <= 1)
    ensures
      Presses(sent)
      == (if |sent| > 0 && IsPress(sent[0]) then 1 else 0) + (if |sent| > 1 && IsPress(sent[1]) then 1 else 0)
  {
    if |sent| > 1 {
      assert sent[1..][1..] == sent[2..];
      if |sent| > 2 {
        assert sent[2..][1..] == [];
      }
    }
  }
}
