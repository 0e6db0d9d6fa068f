/** When the methods of a lease succeed: the validator refuses nothing that the methods' own guards let
    through, except a second value for a field that is written once, and an action that cannot be archived. */
module Progress {
  import opened Basics
  import opened Records
  import opened Journal
  import opened Protocol
  import opened RunTheorems

  /** A field that may still be given this value. */
  predicate Free(field: string, value: string) {
    field == "" || field == value
  }

  /** What a caller of a lease method can check: the phase, the text, and that the value is not a second one. */
  predicate MayCall(rules: TextRules, m: Record, closed: bool, op: LeaseOp, now: int) {
    match op
    case BindInputFingerprint(fingerprint) =>
      && !closed && m.phase == Attached && fingerprint != "" && fingerprint in rules.safe && fingerprint in rules.digest
      && Free(m.inputFingerprint, fingerprint)
    case MarkPrepared => !closed && m.phase == Attached
    case Acknowledge(conversation) =>
      && conversation != "" && conversation in rules.safe && Free(m.conversationID, conversation)
      && (m.phase == ActionPerformed || m.phase == ActionUnknown)
    case ConfirmPostcondition(proof) =>
      && proof != "" && proof in rules.safe && Free(m.postcondition, proof)
      && (m.phase == ActionPerformed || m.phase == ActionUnknown)
    case BeginNextAction(name) =>
      && !closed && (m.phase == Terminal || m.phase == Incomplete) && MayBeginNext(rules, m, name, now)
    case MarkTerminal => m.phase == Prepared || m.phase == ActionPerformed || m.phase == Acknowledged
    case MarkIncomplete =>
      m.phase == Prepared || m.phase == ActionPerformed || m.phase == Acknowledged || m.phase == ActionUnknown
  }

  /** The method offers a record to the journal, and the journal takes it. */
  predicate Succeeds(rules: TextRules, m: Record, closed: bool, op: LeaseOp, now: int) {
    var offer := Propose(rules, m, closed, op);
    offer.Some? && ValidTransition(rules, m, offer.value.(updatedAt := now))
  }

  /** A lease in agreement with its journal. */
  predicate Agreed(rules: TextRules, m: Record, now: int) {
    && Valid(rules, m) && m.updatedAt <= now
    && (m.phase == ActionPerformed || m.phase == ActionUnknown ==> m.rawInputs == 1)
  }

  lemma BindSucceeds(rules: TextRules, m: Record, closed: bool, fingerprint: string, now: int)
    requires Agreed(rules, m, now)
    ensures
      var op := BindInputFingerprint(fingerprint);
      Succeeds(rules, m, closed, op, now) <==> MayCall(rules, m, closed, op, now)
  {
  }

  lemma PrepareSucceeds(rules: TextRules, m: Record, closed: bool, now: int)
    requires Agreed(rules, m, now)
    ensures Succeeds(rules, m, closed, MarkPrepared, now) <==> MayCall(rules, m, closed, MarkPrepared, now)
  {
  }

  lemma AcknowledgeSucceeds(rules: TextRules, m: Record, closed: bool, conversation: string, now: int)
    requires Agreed(rules, m, now)
    ensures
      var op := Acknowledge(conversation);
      Succeeds(rules, m, closed, op, now) <==> MayCall(rules, m, closed, op, now)
  {
  }

  lemma ConfirmSucceeds(rules: TextRules, m: Record, closed: bool, proof: string, now: int)
    requires Agreed(rules, m, now)
    ensures
      var op := ConfirmPostcondition(proof);
      Succeeds(rules, m, closed, op, now) <==> MayCall(rules, m, closed, op, now)
  {
  }

  lemma FinishSucceeds(rules: TextRules, m: Record, closed: bool, op: LeaseOp, now: int)
    requires Agreed(rules, m, now) && (op.MarkTerminal? || op.MarkIncomplete?)
    ensures Succeeds(rules, m, closed, op, now) <==> MayCall(rules, m, closed, op, now)
  {
  }

  lemma NextSucceeds(rules: TextRules, m: Record, closed: bool, name: string, now: int)
    requires Agreed(rules, m, now)
    ensures
      var op := BeginNextAction(name);
      Succeeds(rules, m, closed, op, now) <==> MayCall(rules, m, closed, op, now)
  {
    if (m.phase == Terminal || m.phase == Incomplete) && m.actionName != "" && name in rules.identity {
      NextActionAccepted(rules, m, name, now);
    }
  }

  lemma SucceedsExactly(rules: TextRules, m: Record, closed: bool, op: LeaseOp, now: int)
    requires Agreed(rules, m, now)
    ensures Succeeds(rules, m, closed, op, now) <==> MayCall(rules, m, closed, op, now)
  {
    match op
    case BindInputFingerprint(fingerprint) => BindSucceeds(rules, m, closed, fingerprint, now);
    case MarkPrepared => PrepareSucceeds(rules, m, closed, now);
    case Acknowledge(conversation) => AcknowledgeSucceeds(rules, m, closed, conversation, now);
    case ConfirmPostcondition(proof) => ConfirmSucceeds(rules, m, closed, proof, now);
    case BeginNextAction(name) => NextSucceeds(rules, m, closed, name, now);
    case MarkTerminal => FinishSucceeds(rules, m, closed, op, now);
    case MarkIncomplete => FinishSucceeds(rules, m, closed, op, now);
  }

  /** A lease in agreement with its journal, and a save that lands: the method changes the journal if and
      only if its caller could have known that it may. */
  lemma CallSucceedsExactly(cfg: Config, s: State, op: LeaseOp, now: int)
    requires s.owner.Holding? && s.durable == Some(s.owner.rec) && Agreed(cfg.rules, s.owner.rec, now)
    ensures
      var m := s.owner.rec;
      var t := LeaseStep(cfg, s, Call(op, now, Lands));
      if MayCall(cfg.rules, m, s.owner.closed, op, now) then
        && Propose(cfg.rules, m, s.owner.closed, op).Some?
        && t.durable == Some(Propose(cfg.rules, m, s.owner.closed, op).value.(updatedAt := now))
        && t.owner == Holding(t.durable.value, s.owner.closed)
      else t == s
  {
    SucceedsExactly(cfg.rules, s.owner.rec, s.owner.closed, op, now);
  }

  /** The intent to dispatch is always taken, and so is every outcome the dispatcher may report. */
  lemma DispatchSucceeds(cfg: Config, m: Record, o: Outcome, now: int, later: int)
    requires Valid(cfg.rules, m) && m.updatedAt <= now <= later
    requires m.phase == Prepared && m.rawInputs == 0 && m.dispatch != Performed && m.dispatch != Unknown
    ensures
      var pending := PendingRecord(m, now);
      && ValidTransition(cfg.rules, m, pending)
      && (ValidOutcome(o) ==> ValidTransition(cfg.rules, pending, ObservedRecord(cfg, pending, o, later)))
  {
  }
}
