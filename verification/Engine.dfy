/** The lease (internal/browserflow/engine.go). Each method is proved to move the machine of module
    Protocol by exactly the steps that stand for its code, so whatever every interleaving of those
    steps keeps, the methods keep. */
module Engine {
  import opened Basics
  import opened Records
  import opened Journal
  import opened Protocol
  import opened Frames
  import opened Input
  import opened Worlds
  import opened Cleanup

  /** The journal takes this record and says so. */
  predicate Accepts(cfg: Config, s: State, next: Record, fault: Fault) {
    SaveCell(cfg.rules, s.durable, next, fault).1
  }

  /** The lease in phase performed or unknown of an action, the two phases a dispatch can leave behind. */
  predicate Dispatched(r: Record) {
    r.phase == ActionPerformed || r.phase == ActionUnknown
  }

  /** What the record of a pending action says once the dispatcher has reported. */
  predicate Reported(m: Record, o: Outcome, now: int, cooldown: int, after: Record) {
    && after == m.(phase := after.phase, dispatch := o.dispatch, rawInputs := after.rawInputs,
                   retryAt := after.retryAt, lastError := after.lastError, updatedAt := now)
    && match o.dispatch
       case Performed =>
         after.phase == ActionPerformed && after.rawInputs == 1 && after.lastError == NoError && after.retryAt == None
       case NotPerformed =>
         && after.phase == Prepared && after.rawInputs == m.rawInputs
         && after.lastError == ActionNotPerformed && after.retryAt == None
       case Unknown =>
         && after.phase == ActionUnknown && after.rawInputs == 1
         && after.lastError == DispatchUnknown && after.retryAt == Some(now + cooldown)
       case Undispatched => false
  }

  /** A dispatcher's report is taken as it is when raw input was attempted exactly if it says that the
      action was performed or may have been, and as an unknown one otherwise. */
  predicate Taken(reply: Outcome, outcome: Outcome) {
    if reply.dispatch != Undispatched && (reply.rawAttempted <==> reply.dispatch != NotPerformed)
    then outcome == reply else outcome == Outcome(Unknown, true)
  }

  /** The record a dispatcher is called behind. */
  predicate Intent(m: Record, now: int, pending: Record) {
    pending == m.(phase := ActionPending, attempts := m.attempts + 1, pendingPersisted := true, updatedAt := now)
  }

  lemma ObservedIsReported(cfg: Config, m: Record, o: Outcome, now: int)
    requires ValidOutcome(o)
    ensures Reported(m, o, now, cfg.cooldown, ObservedRecord(cfg, m, o, now))
  {
  }

  /** A lease that may call its dispatcher. */
  predicate Ready(m: Record, closed: bool, maxAttempts: nat) {
    !closed && m.phase == Prepared && m.rawInputs == 0 && m.attempts < maxAttempts
  }

  lemma BeginDispatchStep(cfg: Config, s: State, m: Record, closed: bool, now: int, fault: Fault, pending: Record)
    requires s.owner == Holding(m, closed) && Intent(m, now, pending)
    ensures
      var t := Step(cfg, s, InLease(BeginDispatch(now, fault)));
      var (cell, ok) := SaveCell(cfg.rules, s.durable, pending, fault);
      if Ready(m, closed, cfg.maxAttempts) then
        && t.durable == cell && t.pages == s.pages
        && t.owner == (if ok then Dispatching(pending) else s.owner) && (!ok ==> t.calls == s.calls)
      else t == s
  {
  }

  lemma SettleDispatchStep(cfg: Config, s: State, m: Record, o: Outcome, now: int, fault: Fault)
    requires s.owner == Settling(m, o)
    ensures
      var observed := ObservedRecord(cfg, m, o, now);
      var t := Step(cfg, s, InLease(SettleDispatch(now, fault)));
      && t.durable == SaveCell(cfg.rules, s.durable, observed, fault).0 && t.pages == s.pages
      && t.owner == Holding(observed, false)
  {
  }

  /** The state once the dispatcher has reported, the others have acted, and the outcome was settled. */
  function AfterReport(cfg: Config, s: State, reply: Outcome, presses: nat, meanwhile: seq<Action>,
                       later: int, fault: Fault): State
  {
    var acted := Step(cfg, s, InLease(DispatcherReturns(reply, presses)));
    Step(cfg, Run(cfg, acted, meanwhile), InLease(SettleDispatch(later, fault)))
  }

  /** The lease Acquire hands out. */
  class Lease {
    const world: World
    var record: Record
    var closed: bool
    var inputLocked: bool

    ghost predicate Valid()
      reads this, world, world.journal
    {
      && world.Good()
      && world.sys.owner == Holding(record, closed)
      && (closed ==> !inputLocked)
    }

    constructor (world: World, record: Record, inputLocked: bool)
      requires world.Good() && world.sys.owner == Holding(record, false)
      ensures Valid() && this.world == world && this.record == record && !closed && this.inputLocked == inputLocked
    {
      this.world := world;
      this.record := record;
      closed := false;
      this.inputLocked := inputLocked;
    }

    /** Save a proposal; the memory follows only when the save reports success. */
    method Offer(next: Record, op: LeaseOp, now: int, fault: Fault) returns (ok: bool)
      requires Valid() && Propose(world.cfg.rules, record, closed, op) == Some(next)
      modifies this`record, world`sys, world.journal
      ensures Valid() && world.sys == Step(world.cfg, old(world.sys), InLease(Call(op, now, fault)))
      ensures if ok then record == next.(updatedAt := now) && world.sys.durable == Some(record)
              else record == old(record)
      ensures ok == Accepts(world.cfg, old(world.sys), next.(updatedAt := now), fault)
    {
      var stamped := next.(updatedAt := now);
      ok := world.Save(stamped, fault, InLease(Call(op, now, fault)));
      if ok {
        record := stamped;
      }
    }

    method BindInputFingerprint(fingerprint: string, now: int, fault: Fault) returns (ok: bool)
      requires Valid()
      modifies this`record, world`sys, world.journal
      ensures Valid()
      ensures
        world.sys
        == Step(world.cfg, old(world.sys), InLease(Call(LeaseOp.BindInputFingerprint(fingerprint), now, fault)))
      ensures
        var next := old(record).(inputFingerprint := fingerprint, updatedAt := now);
        && record == (if ok then next else old(record))
        && (ok <==> && !closed && old(record).phase == Attached && fingerprint != ""
                    && Records.Valid(world.cfg.rules, next) && Accepts(world.cfg, old(world.sys), next, fault))
    {
      if closed || record.phase != Attached || fingerprint == "" {
        return false;
      }
      var next := record.(inputFingerprint := fingerprint);
      if !Records.Valid(world.cfg.rules, next) {
        return false;
      }
      ok := Offer(next, LeaseOp.BindInputFingerprint(fingerprint), now, fault);
    }

    method MarkPrepared(now: int, fault: Fault) returns (ok: bool)
      requires Valid()
      modifies this`record, world`sys, world.journal
      ensures Valid()
      ensures world.sys == Step(world.cfg, old(world.sys), InLease(Call(LeaseOp.MarkPrepared, now, fault)))
      ensures
        var next := old(record).(phase := Prepared, lastError := NoError, updatedAt := now);
        && record == (if ok then next else old(record))
        && (ok <==> !closed && old(record).phase == Attached && Accepts(world.cfg, old(world.sys), next, fault))
    {
      if closed || record.phase != Attached {
        return false;
      }
      var next := record.(phase := Prepared, lastError := NoError);
      ok := Offer(next, LeaseOp.MarkPrepared, now, fault);
    }

    /** Make the intent durable before any raw input. */
    method PersistIntent(now: int, fault: Fault) returns (granted: bool, pending: Record)
      requires Valid()
      modifies world`sys, world.journal
      ensures world.Good() && world.sys == Step(world.cfg, old(world.sys), InLease(BeginDispatch(now, fault)))
      ensures Intent(record, now, pending)
      ensures granted ==> world.sys.owner == Dispatching(pending) && world.sys.durable == Some(pending)
      ensures granted <==>
                Ready(record, closed, world.cfg.maxAttempts) && Accepts(world.cfg, old(world.sys), pending, fault)
      ensures !granted ==> Valid() && world.sys.owner == old(world.sys).owner && world.sys.calls == old(world.sys).calls
    {
      pending := record.(phase := ActionPending, attempts := record.attempts + 1, pendingPersisted := true,
                         updatedAt := now);
      BeginDispatchStep(world.cfg, world.sys, record, closed, now, fault, pending);
      if closed || record.phase != Prepared || record.rawInputs != 0 || record.attempts >= world.cfg.maxAttempts {
        return false, pending;
      }
      granted := world.Save(pending, fault, InLease(BeginDispatch(now, fault)));
    }

    /** Record what the dispatcher reported; the memory keeps it even when the save fails. */
    method PersistOutcome(pending: Record, outcome: Outcome, now: int, fault: Fault) returns (saved: bool)
      requires world.Good() && world.sys.owner == Settling(pending, outcome)
      modifies this`record, world`sys, world.journal
      ensures world.Good() && world.sys.owner == Holding(record, false)
      ensures world.sys == Step(world.cfg, old(world.sys), InLease(SettleDispatch(now, fault)))
      ensures record == ObservedRecord(world.cfg, pending, outcome, now)
      ensures ValidOutcome(outcome) ==> Reported(pending, outcome, now, world.cfg.cooldown, record)
      ensures saved ==> world.sys.durable == Some(record)
      ensures saved == Accepts(world.cfg, old(world.sys), record, fault)
    {
      if ValidOutcome(outcome) {
        ObservedIsReported(world.cfg, pending, outcome, now);
      }
      SettleDispatchStep(world.cfg, world.sys, pending, outcome, now, fault);
      var observed := ObservedRecord(world.cfg, pending, outcome, now);
      saved := world.Save(observed, fault, InLease(SettleDispatch(now, fault)));
      record := observed;
    }

    /** The dispatcher's reply, its real presses and what other processes do while it runs are inputs.
        An outcome it should not have returned counts as unknown. */
    method Dispatch(reply: Outcome, presses: nat, meanwhile: seq<Action>,
                    now: int, fault: Fault, later: int, laterFault: Fault)
        returns (called: bool, pending: Record, outcome: Outcome, saved: bool)
      requires Valid() && Honest(reply, presses)
      requires AllForeign(meanwhile, ByOwner)
      modifies this`record, world`sys, world`pages, world.journal
      ensures Valid() && Intent(old(record), now, pending)
      ensures called <==>
                && Ready(old(record), old(closed), world.cfg.maxAttempts)
                && Accepts(world.cfg, old(world.sys), pending, fault)
      ensures !called ==>
                && world.sys == Step(world.cfg, old(world.sys), InLease(BeginDispatch(now, fault)))
                && record == old(record)
      ensures called ==>
                && Taken(reply, outcome)
                && Reported(pending, outcome, later, world.cfg.cooldown, record)
                && (saved ==> world.sys.durable == Some(record))
                && (var begun := Step(world.cfg, old(world.sys), InLease(BeginDispatch(now, fault)));
                    && begun.durable == Some(pending)
                    && world.sys == AfterReport(world.cfg, begun, reply, presses, meanwhile, later, laterFault))
    {
      called, pending := PersistIntent(now, fault);
      outcome, saved := reply, false;
      if called {
        outcome, saved := AwaitAndSettle(pending, reply, presses, meanwhile, later, laterFault);
      }
    }

    /** Let the dispatcher and the others act, and record the outcome. */
    method AwaitAndSettle(pending: Record, reply: Outcome, presses: nat, meanwhile: seq<Action>, later: int,
                          laterFault: Fault)
        returns (outcome: Outcome, saved: bool)
      requires world.Good() && world.sys.owner == Dispatching(pending) && !closed
      requires Honest(reply, presses) && AllForeign(meanwhile, ByOwner)
      modifies this`record, world`sys, world`pages, world.journal
      ensures Valid()
      ensures world.sys == AfterReport(world.cfg, old(world.sys), reply, presses, meanwhile, later, laterFault)
      ensures Taken(reply, outcome) && Reported(pending, outcome, later, world.cfg.cooldown, record)
      ensures saved ==> world.sys.durable == Some(record)
    {
      outcome := AwaitDispatcher(pending, reply, presses, meanwhile);
      saved := PersistOutcome(pending, outcome, later, laterFault);
    }

    /** Dispatch with one of the helpers of module Input: what reaches the page between the intent and
        the outcome is what the machine counts, one press at most. */
    method DispatchInput(input: RawInput, session: PageSession, meanwhile: seq<Action>,
                         now: int, fault: Fault, later: int, laterFault: Fault)
        returns (called: bool, pending: Record, outcome: Outcome, saved: bool, presses: nat, ghost sent: seq<Command>)
      requires Valid() && AllForeign(meanwhile, ByOwner)
      modifies this`record, world`sys, world`pages, world.journal, session
      ensures Valid() && Intent(old(record), now, pending)
      ensures session.sent == if called then old(session.sent) + sent else old(session.sent)
      ensures called <==>
                && Ready(old(record), old(closed), world.cfg.maxAttempts)
                && Accepts(world.cfg, old(world.sys), pending, fault)
      ensures !called ==>
                && record == old(record)
                && world.sys == Step(world.cfg, old(world.sys), InLease(BeginDispatch(now, fault)))
      ensures called ==>
                && Reported(pending, outcome, later, world.cfg.cooldown, record)
                && (saved ==> world.sys.durable == Some(record))
                && presses == Presses(sent) == (if outcome.dispatch == NotPerformed then 0 else 1)
                && (var begun := Step(world.cfg, old(world.sys), InLease(BeginDispatch(now, fault)));
                    && begun.durable == Some(pending)
                    && world.sys == AfterReport(world.cfg, begun, outcome, presses, meanwhile, later, laterFault))
    {
      called, pending := PersistIntent(now, fault);
      if called {
        outcome, saved, presses, sent := PressAndSettle(pending, input, session, meanwhile, later, laterFault);
      } else {
        outcome, saved, presses, sent := NOTHING_SENT, false, 0, [];
      }
    }

    /** The intent is durable: send the input, let the others act, and record the outcome. */
    method PressAndSettle(pending: Record, input: RawInput, session: PageSession, meanwhile: seq<Action>,
                          later: int, laterFault: Fault)
        returns (outcome: Outcome, saved: bool, presses: nat, ghost sent: seq<Command>)
      requires world.Good() && world.sys.owner == Dispatching(pending) && AllForeign(meanwhile, ByOwner) && !closed
      modifies this`record, world`sys, world`pages, world.journal, session
      ensures Valid()
      ensures session.sent == old(session.sent) + sent
      ensures presses == Presses(sent) == if outcome.dispatch == NotPerformed then 0 else 1
      ensures
        world.sys == AfterReport(world.cfg, old(world.sys), outcome, presses, meanwhile, later, laterFault)
      ensures Reported(pending, outcome, later, world.cfg.cooldown, record)
      ensures saved ==> world.sys.durable == Some(record)
    {
      outcome, presses, sent := PressAndAwait(pending, input, session, meanwhile);
      saved := PersistOutcome(pending, outcome, later, laterFault);
    }

    /** Send the input, then let the others act. */
    method PressAndAwait(pending: Record, input: RawInput, session: PageSession, meanwhile: seq<Action>)
        returns (outcome: Outcome, presses: nat, ghost sent: seq<Command>)
      requires world.Good() && world.sys.owner == Dispatching(pending) && AllForeign(meanwhile, ByOwner)
      modifies world`sys, world`pages, world.journal, session
      ensures world.Good() && ValidOutcome(outcome) && world.sys.owner == Settling(pending, outcome)
      ensures session.sent == old(session.sent) + sent
      ensures presses == Presses(sent) == if outcome.dispatch == NotPerformed then 0 else 1
      ensures
        var acted := Step(world.cfg, old(world.sys), InLease(DispatcherReturns(outcome, presses)));
        world.sys == Run(world.cfg, acted, meanwhile)
    {
      outcome, presses := Perform(session, input);
      sent := session.sent[|old(session.sent)|..];
      outcome := AwaitDispatcher(pending, outcome, presses, meanwhile);
    }

    method AwaitDispatcher(pending: Record, reply: Outcome, presses: nat, meanwhile: seq<Action>)
        returns (outcome: Outcome)
      requires world.Good() && world.sys.owner == Dispatching(pending)
      requires Honest(reply, presses) && AllForeign(meanwhile, ByOwner)
      modifies world`sys, world`pages, world.journal
      ensures world.Good() && outcome == Classified(reply) && world.sys.owner == Settling(pending, outcome)
      ensures ValidOutcome(outcome) && Taken(reply, outcome)
      ensures
        var acted := Step(world.cfg, old(world.sys), InLease(DispatcherReturns(reply, presses)));
        world.sys == Run(world.cfg, acted, meanwhile)
    {
      world.Move(InLease(DispatcherReturns(reply, presses)));
      outcome := reply;
      if !ValidOutcome(reply) {
        outcome := Outcome(Unknown, true);
      }
      world.Others(meanwhile, ByOwner);
    }

    method Acknowledge(conversation: string, now: int, fault: Fault) returns (ok: bool)
      requires Valid()
      modifies this`record, world`sys, world.journal
      ensures Valid()
      ensures world.sys == Step(world.cfg, old(world.sys), InLease(Call(LeaseOp.Acknowledge(conversation), now, fault)))
      ensures
        var next := old(record).(conversationID := conversation, retryAt := None, lastError := NoError,
                                 phase := Acknowledged, updatedAt := now,
                                 dispatch := if old(record).dispatch == Unknown then Performed
                                             else old(record).dispatch);
        && record == (if ok then next else old(record))
        && (ok <==> && conversation != "" && conversation in world.cfg.rules.safe && Dispatched(old(record))
                    && Accepts(world.cfg, old(world.sys), next, fault))
    {
      if conversation == "" || (record.phase != ActionPerformed && record.phase != ActionUnknown)
         || conversation !in world.cfg.rules.safe {
        return false;
      }
      var next := record.(conversationID := conversation, retryAt := None, lastError := NoError, phase := Acknowledged);
      if next.dispatch == Unknown {
        next := next.(dispatch := Performed);
      }
      ok := Offer(next, LeaseOp.Acknowledge(conversation), now, fault);
    }

    method ConfirmPostcondition(proof: string, now: int, fault: Fault) returns (ok: bool)
      requires Valid()
      modifies this`record, world`sys, world.journal
      ensures Valid()
      ensures
        world.sys == Step(world.cfg, old(world.sys), InLease(Call(LeaseOp.ConfirmPostcondition(proof), now, fault)))
      ensures
        var next := old(record).(dispatch := Performed, phase := ActionPerformed, postcondition := proof,
                                 retryAt := None, lastError := NoError, updatedAt := now);
        && record == (if ok then next else old(record))
        && (ok <==> && proof != "" && proof in world.cfg.rules.safe && Dispatched(old(record))
                    && Accepts(world.cfg, old(world.sys), next, fault))
    {
      if proof == "" || (record.phase != ActionPerformed && record.phase != ActionUnknown)
         || proof !in world.cfg.rules.safe {
        return false;
      }
      var next := record.(dispatch := Performed, phase := ActionPerformed, postcondition := proof,
                          retryAt := None, lastError := NoError);
      ok := Offer(next, LeaseOp.ConfirmPostcondition(proof), now, fault);
    }

    method BeginNextAction(name: string, now: int, fault: Fault) returns (ok: bool)
      requires Valid()
      modifies this`record, world`sys, world.journal
      ensures Valid()
      ensures world.sys == Step(world.cfg, old(world.sys), InLease(Call(LeaseOp.BeginNextAction(name), now, fault)))
      ensures
        var m := old(record);
        var archived := CompletedAction(m.actionName, m.dispatch, m.attempts, m.rawInputs, m.pendingPersisted, m.phase,
                                        m.postcondition);
        var next := m.(completed := m.completed + [archived], phase := Attached, actionName := name,
                       dispatch := Undispatched, attempts := 0, rawInputs := 0, pendingPersisted := false,
                       postcondition := "", retryAt := None, lastError := NoError, updatedAt := now);
        && record == (if ok then next else m)
        && (ok <==> && !closed && name in world.cfg.rules.identity && m.actionName != ""
                    && (m.phase == Terminal || m.phase == Incomplete)
                    && Accepts(world.cfg, old(world.sys), next, fault))
    {
      if closed || name !in world.cfg.rules.identity || record.actionName == ""
         || (record.phase != Terminal && record.phase != Incomplete) {
        return false;
      }
      var archived := CompletedAction(record.actionName, record.dispatch, record.attempts, record.rawInputs,
                                      record.pendingPersisted, record.phase, record.postcondition);
      var next := record.(completed := record.completed + [archived], phase := Attached, actionName := name,
                          dispatch := Undispatched, attempts := 0, rawInputs := 0, pendingPersisted := false,
                          postcondition := "", retryAt := None, lastError := NoError);
      ok := Offer(next, LeaseOp.BeginNextAction(name), now, fault);
    }

    method MarkTerminal(now: int, fault: Fault) returns (ok: bool)
      requires Valid()
      modifies this`record, world`sys, world.journal
      ensures Valid()
      ensures world.sys == Step(world.cfg, old(world.sys), InLease(Call(LeaseOp.MarkTerminal, now, fault)))
      ensures
        var next := old(record).(phase := Terminal, updatedAt := now);
        && record == (if ok then next else old(record))
        && (ok <==> && (|| old(record).phase == Prepared || old(record).phase == ActionPerformed
                        || old(record).phase == Acknowledged)
                    && Accepts(world.cfg, old(world.sys), next, fault))
    {
      if record.phase != Prepared && record.phase != ActionPerformed && record.phase != Acknowledged {
        return false;
      }
      ok := Offer(record.(phase := Terminal), LeaseOp.MarkTerminal, now, fault);
    }

    method MarkIncomplete(now: int, fault: Fault) returns (ok: bool)
      requires Valid()
      modifies this`record, world`sys, world.journal
      ensures Valid()
      ensures world.sys == Step(world.cfg, old(world.sys), InLease(Call(LeaseOp.MarkIncomplete, now, fault)))
      ensures
        var next := old(record).(phase := Incomplete, updatedAt := now);
        && record == (if ok then next else old(record))
        && (ok <==> && (old(record).phase == Prepared || old(record).phase == Acknowledged || Dispatched(old(record)))
                    && Accepts(world.cfg, old(world.sys), next, fault))
    {
      if record.phase != Prepared && record.phase != ActionPerformed && record.phase != Acknowledged
         && record.phase != ActionUnknown {
        return false;
      }
      ok := Offer(record.(phase := Incomplete), LeaseOp.MarkIncomplete, now, fault);
    }

    /** Give the keyboard and mouse back; doing it again changes nothing. */
    method ReleaseInput()
      requires Valid()
      modifies this`inputLocked
      ensures Valid() && !inputLocked
    {
      inputLocked := false;
    }

    /** Close the page; the lease is closed only once the page has been seen gone. */
    method Close(script: CleanScript) returns (gone: bool, saved: bool)
      requires Valid() && ScriptForeign(script, ByOwner)
      modifies this, world, world.journal
      ensures Valid() && closed == gone && !inputLocked
      ensures old(closed) ==> record == old(record) && world.sys == old(world.sys)
      ensures !old(closed) ==>
                && Concludes(old(record), LeaseClose, gone, record)
                && (saved ==> world.sys.durable == Some(record))
                && (script.tries != [] ==> record.targetID in world.sys.closeLog)
    {
      if closed {
        return true, true;
      }
      ReleaseInput();
      gone, saved := ClosePage(script);
    }

    method ClosePage(script: CleanScript) returns (gone: bool, saved: bool)
      requires Valid() && !closed && !inputLocked && ScriptForeign(script, ByOwner)
      modifies this`record, this`closed, world, world.journal
      ensures Valid() && closed == gone
      ensures Concludes(old(record), LeaseClose, gone, record)
      ensures saved ==> world.sys.durable == Some(record)
      ensures script.tries != [] ==> record.targetID in world.sys.closeLog
    {
      var c := StartCleaning(record, LeaseClose);
      world.Move(InLease(BeginClose));
      var final;
      gone, saved, final := SettleExactCleanup(world, ByOwner, c, true, script);
      ConcludesFromStart(record, LeaseClose, gone, final);
      record, closed := final, gone;
    }
  }
}
