/** At most one raw input per action slot, and a journal that never forgets one. */
module DispatchSafety {
  import opened Basics
  import opened Records
  import opened Journal
  import opened Protocol

  /** The journal can still tell that raw input may have been sent in slot `s`. */
  ghost predicate Evidence(d: Record, s: nat) {
    || (s < Slot(d) && d.completed[s].rawInputs == 1)
    || (s == Slot(d) && (d.phase == ActionPending || d.rawInputs == 1))
  }

  ghost function OwnerRecord(o: Owner): Option<Record> {
    match o
    case Absent => None
    case Acquiring(_, rec) => Some(rec)
    case Holding(rec, _) => Some(rec)
    case Dispatching(rec) => Some(rec)
    case Settling(rec, _) => Some(rec)
    case Cleaning(c) => Some(c.rec)
  }

  ghost function Copy(p: Recoverer): Option<Record> {
    match p
    case Searching(rec) => Some(rec)
    case SavingVerdict(rec, _) => Some(rec)
    case SavingEvidence(rec) => Some(rec)
    case Clearing(c, _) => Some(c.rec)
    case Answered(_, _) => None
  }

  /** The journal counts an attempt whose end the owner has not yet reported. */
  ghost predicate Unsettled(o: Owner, d: Record) {
    match o
    case Absent => false
    case Acquiring(_, _) => false
    case Holding(m, _) => Slot(m) == Slot(d) && m.attempts < d.attempts
    case Dispatching(m) => Slot(m) == Slot(d)
    case Settling(m, _) => Slot(m) == Slot(d)
    case Cleaning(c) => Slot(c.rec) == Slot(d) && c.rec.attempts < d.attempts
  }

  /** Raw input has been, or may yet be, sent for the attempt the journal is at. */
  ghost predicate Hot(s: State)
    requires s.durable.Some?
  {
    Slot(s.durable.value) in s.raw || Unsettled(s.owner, s.durable.value)
  }

  /** A recoverer's copy is too old to be accepted, or it admits the input. */
  ghost predicate CopyBehind(r: Record, d: Record, hot: bool) {
    || Slot(r) < Slot(d)
    || (&& Slot(r) == Slot(d)
        && r.attempts <= d.attempts
        && (hot && r.attempts == d.attempts ==> r.rawInputs == 1))
  }

  predicate PastActions(phase: Phase) {
    phase == Terminal || phase == Incomplete || phase == CleanupPending || phase == Closed
  }

  /** How far the owner's copy may trail the journal after a save that failed late. */
  ghost predicate OwnerBehind(o: Owner, m: Record, d: Record) {
    && Slot(m) <= Slot(d) <= Slot(m) + 1
    && (Slot(m) == Slot(d) ==> m.attempts <= d.attempts <= m.attempts + 1)
    && (Slot(m) < Slot(d) ==>
          && d.attempts == 0
          && PastActions(m.phase)
          && (o.Holding? || o.Cleaning?))
    && (o.Dispatching? || o.Settling? ==> Slot(m) == Slot(d) && m.attempts == d.attempts && m.rawInputs == 0)
    && (o.Acquiring? ==> Slot(d) == 0 && d.attempts == 0)
  }

  /** The owner's copy knows of every input sent in its slot. */
  ghost predicate OwnerRemembers(cfg: Config, o: Owner, m: Record, calls: multiset<nat>, raw: multiset<nat>) {
    && 0 <= m.attempts <= cfg.maxAttempts
    && calls[Slot(m)] == m.attempts
    && (forall s | s in calls :: s <= Slot(m))
    && (forall s | s in raw :: s <= Slot(m))
    && (Slot(m) in raw ==>
          match o
          case Holding(_, _) => m.rawInputs == 1
          case Cleaning(_) => m.rawInputs == 1
          case Settling(_, outcome) => outcome.rawAttempted
          case _ => false)
  }

  ghost predicate Untouched(s: State) {
    && s.owner == Absent
    && s.calls == multiset{} && s.raw == multiset{}
    && (forall i :: 0 <= i < |s.recoverers| ==> Copy(s.recoverers[i]).None?)
  }

  ghost predicate AtMostOnce(cfg: Config, s: State) {
    && (forall k :: s.raw[k] <= 1)
    && (forall k :: s.calls[k] <= cfg.maxAttempts)
  }

  ghost predicate JournalRemembers(cfg: Config, s: State)
    requires s.durable.Some?
  {
    var d := s.durable.value;
    && Valid(cfg.rules, d)
    && d.attempts <= cfg.maxAttempts
    && (forall k | k in s.raw :: k <= Slot(d) && (k < Slot(d) ==> d.completed[k].rawInputs == 1))
    && (Hot(s) ==> d.phase == ActionPending || d.rawInputs == 1)
    && (forall i :: 0 <= i < |s.recoverers| && Copy(s.recoverers[i]).Some? ==>
          CopyBehind(Copy(s.recoverers[i]).value, d, Hot(s)))
  }

  ghost predicate OwnerInvariant(cfg: Config, s: State)
    requires s.durable.Some?
  {
    s.owner != Absent ==>
      && OwnerBehind(s.owner, OwnerRecord(s.owner).value, s.durable.value)
      && OwnerRemembers(cfg, s.owner, OwnerRecord(s.owner).value, s.calls, s.raw)
  }

  ghost predicate Safe(cfg: Config, s: State) {
    && AtMostOnce(cfg, s)
    && if s.durable.None? then Untouched(s) else JournalRemembers(cfg, s) && OwnerInvariant(cfg, s)
  }

  lemma InitiallySafe(cfg: Config)
    ensures Safe(cfg, Initial)
  {
  }

  // ------------------------------------------------------------ Acquire

  lemma BeginKeepsSafe(cfg: Config, s: State, q: Request, now: int, fault: Fault)
    requires Safe(cfg, s)
    ensures Safe(cfg, DoBegin(cfg, s, q, now, fault))
  {
  }

  /** Nothing Acquire saves touches an attempt or leaves the first slot. */
  lemma AcquireSaveKeepsSafe(cfg: Config, s: State, rec: Record, fault: Fault, next: Owner)
    requires Safe(cfg, s) && s.owner.Acquiring?
    requires rec.attempts == s.owner.rec.attempts && rec.completed == s.owner.rec.completed
    requires next.Acquiring? ==> next.rec.attempts == rec.attempts && next.rec.completed == rec.completed
    requires next == Absent || next.Acquiring?
    ensures Safe(cfg, Save(cfg, s, rec, fault).0.(owner := next))
  {
  }

  /** Steps of Acquire that only move the owner on, with the same attempt and slot. */
  lemma OwnerMovesKeepsSafe(cfg: Config, s: State, t: State)
    requires Safe(cfg, s) && s.owner.Acquiring?
    requires t.owner.Acquiring? || t.owner.Holding? || t.owner.Cleaning?
    requires
      var rec := OwnerRecord(t.owner).value;
      rec.attempts == s.owner.rec.attempts && rec.completed == s.owner.rec.completed
    requires t.durable == s.durable && t.recoverers == s.recoverers && t.calls == s.calls && t.raw == s.raw
    ensures Safe(cfg, t)
  {
  }

  // -------------------------------------------------------------- Lease

  lemma ProposalKeepsAttempt(rules: TextRules, m: Record, closed: bool, op: LeaseOp)
    ensures
      var offer := Propose(rules, m, closed, op);
      offer.Some? ==>
        || (offer.value.completed == m.completed
            && offer.value.attempts == m.attempts && offer.value.rawInputs == m.rawInputs
            && m.phase != Terminal && m.phase != Incomplete && m.phase != CleanupPending && m.phase != Closed)
        || (op.BeginNextAction? && offer.value.completed == m.completed + [Archive(m)] && offer.value.attempts == 0
            && offer.value.rawInputs == 0 && offer.value.phase == Attached)
  {
  }

  /** What it takes for a save to change the journal. */
  lemma Accepted(cfg: Config, s: State, rec: Record, fault: Fault)
    requires Save(cfg, s, rec, fault).0.durable != s.durable || Save(cfg, s, rec, fault).1
    ensures s.durable.Some? && Save(cfg, s, rec, fault).0 == s.(durable := Some(rec))
    ensures ValidTransition(cfg.rules, s.durable.value, rec)
  {
  }

  /** The owner's record as it is, or changed in nothing that dispatch safety looks at. */
  predicate SameAttempt(a: Record, b: Record) {
    a.completed == b.completed && a.attempts == b.attempts && a.rawInputs == b.rawInputs
  }

  /** Between two calls the owner may change the rest of its copy. */
  lemma IdleMovesKeepsSafe(cfg: Config, s: State, next: Owner)
    requires Safe(cfg, s) && (s.owner.Holding? || s.owner.Cleaning?)
    requires next.Holding? || next.Cleaning?
    requires SameAttempt(OwnerRecord(next).value, OwnerRecord(s.owner).value)
    requires Slot(OwnerRecord(next).value) < Slot(s.durable.value) ==> PastActions(OwnerRecord(next).value.phase)
    ensures Safe(cfg, s.(owner := next))
  {
    assert Hot(s.(owner := next)) == Hot(s);
  }

  /** A save by the idle owner inside its slot: refused while the journal is an attempt ahead. */
  lemma OwnerSaveAccepted(cfg: Config, s: State, rec: Record)
    requires Safe(cfg, s) && (s.owner.Holding? || s.owner.Cleaning?)
    requires SameAttempt(rec, OwnerRecord(s.owner).value) && s.durable.Some?
    requires Valid(cfg.rules, rec) && ValidInSlot(s.durable.value, rec)
    requires s.durable.value.completed == rec.completed
    ensures Safe(cfg, s.(durable := Some(rec)))
  {
    var s' := s.(durable := Some(rec));
    assert s.durable.value.attempts == rec.attempts;
    assert Hot(s') ==> Hot(s);
  }

  lemma OwnerSaveKeepsSafe(cfg: Config, s: State, rec: Record, fault: Fault, next: Owner)
    requires Safe(cfg, s) && (s.owner.Holding? || s.owner.Cleaning?)
    requires next.Holding? || next.Cleaning?
    requires SameAttempt(rec, OwnerRecord(s.owner).value)
    requires Slot(rec) < Slot(s.durable.value) ==> PastActions(rec.phase)
    requires OwnerRecord(next) == Some(rec) || next == s.owner
    ensures Safe(cfg, Save(cfg, s, rec, fault).0.(owner := next))
  {
    var s1 := Save(cfg, s, rec, fault).0;
    if s1.durable != s.durable {
      Accepted(cfg, s, rec, fault);
      assert !ValidActionAdvance(s.durable.value, rec);
      OwnerSaveAccepted(cfg, s, rec);
    }
    IdleMovesKeepsSafe(cfg, s1, next);
  }

  /** A new attempt or a new slot: no copy of it exists yet, so none can contradict it. */
  lemma FreshAttempt(cfg: Config, s: State, rec: Record, next: Owner, calls: multiset<nat>)
    requires Safe(cfg, s) && s.durable.Some?
    requires Valid(cfg.rules, rec) && rec.attempts <= cfg.maxAttempts
    requires s.durable.value.completed <= rec.completed
    requires
      || Slot(s.durable.value) < Slot(rec)
      || (Slot(s.durable.value) == Slot(rec) && s.durable.value.attempts < rec.attempts)
    requires forall k | k in s.raw :: k < Slot(rec) && (k == Slot(s.durable.value) ==> rec.completed[k].rawInputs == 1)
    requires rec.phase == ActionPending || !Unsettled(next, rec)
    ensures JournalRemembers(cfg, s.(durable := Some(rec), owner := next, calls := calls))
  {
    var d := s.durable.value;
    forall k | k in s.raw ensures k < Slot(rec) && rec.completed[k].rawInputs == 1 {
      if k < Slot(d) {
        assert rec.completed[k] == d.completed[k];
      }
    }
  }

  lemma AdvanceAccepted(cfg: Config, s: State, rec: Record, next: Owner)
    requires Safe(cfg, s) && s.owner.Holding? && s.durable.Some?
    requires s.owner.rec.phase == Terminal || s.owner.rec.phase == Incomplete
    requires Valid(cfg.rules, rec) && rec.attempts == 0 && rec.rawInputs == 0
    requires Slot(rec) == Slot(s.owner.rec) + 1 && s.durable.value.completed <= rec.completed
    requires Slot(s.durable.value) < Slot(rec) ==> ValidActionAdvance(s.durable.value, rec)
    requires next == s.owner || (next.Holding? && next.rec == rec)
    ensures Safe(cfg, s.(durable := Some(rec), owner := next))
  {
    var d := s.durable.value;
    var s' := s.(durable := Some(rec), owner := next);
    assert s.calls[Slot(rec)] == 0 && Slot(rec) !in s.raw;
    if Slot(d) < Slot(rec) {
      FreshAttempt(cfg, s, rec, next, s.calls);
    }
  }

  lemma AdvanceSaveKeepsSafe(cfg: Config, s: State, rec: Record, fault: Fault)
    requires Safe(cfg, s) && s.owner.Holding?
    requires s.owner.rec.phase == Terminal || s.owner.rec.phase == Incomplete
    requires rec.completed == s.owner.rec.completed + [Archive(s.owner.rec)]
    requires rec.attempts == 0 && rec.rawInputs == 0 && rec.phase == Attached
    ensures
      var (s', ok) := Save(cfg, s, rec, fault);
      Safe(cfg, if ok then s'.(owner := Holding(rec, s.owner.closed)) else s')
  {
    var (s', ok) := Save(cfg, s, rec, fault);
    if s'.durable != s.durable || ok {
      Accepted(cfg, s, rec, fault);
      AdvanceAccepted(cfg, s, rec, if ok then Holding(rec, s.owner.closed) else s.owner);
    }
  }

  lemma AdvanceKeepsSafe(cfg: Config, s: State, op: LeaseOp, now: int, fault: Fault)
    requires Safe(cfg, s) && s.owner.Holding? && op.BeginNextAction?
    ensures Safe(cfg, DoCall(cfg, s, s.owner.rec, s.owner.closed, op, now, fault))
  {
    var m := s.owner.rec;
    var offer := Propose(cfg.rules, m, s.owner.closed, op);
    if offer.Some? {
      assert m.phase == Terminal || m.phase == Incomplete;
      ProposalKeepsAttempt(cfg.rules, m, s.owner.closed, op);
      AdvanceSaveKeepsSafe(cfg, s, offer.value.(updatedAt := now), fault);
    }
  }

  lemma CallKeepsSafe(cfg: Config, s: State, op: LeaseOp, now: int, fault: Fault)
    requires Safe(cfg, s) && s.owner.Holding?
    ensures Safe(cfg, DoCall(cfg, s, s.owner.rec, s.owner.closed, op, now, fault))
  {
    var m := s.owner.rec;
    var offer := Propose(cfg.rules, m, s.owner.closed, op);
    if offer.Some? {
      ProposalKeepsAttempt(cfg.rules, m, s.owner.closed, op);
      if op.BeginNextAction? {
        AdvanceKeepsSafe(cfg, s, op, now, fault);
      } else {
        var next := offer.value.(updatedAt := now);
        var ok := Save(cfg, s, next, fault).1;
        OwnerSaveKeepsSafe(cfg, s, next, fault, if ok then Holding(next, s.owner.closed) else s.owner);
      }
    }
  }

  lemma BeginAccepted(cfg: Config, s: State, rec: Record, ok: bool)
    requires Safe(cfg, s) && s.owner.Holding? && s.durable.Some? && MayDispatch(cfg, s.owner.rec, s.owner.closed)
    requires Valid(cfg.rules, rec) && rec.phase == ActionPending
    requires rec.completed == s.owner.rec.completed == s.durable.value.completed
    requires s.durable.value.attempts <= rec.attempts == s.owner.rec.attempts + 1 && rec.rawInputs == 0
    ensures
      Safe(cfg, if ok then s.(durable := Some(rec), owner := Dispatching(rec), calls := s.calls + multiset{Slot(rec)})
                else s.(durable := Some(rec)))
  {
    var d := s.durable.value;
    var next := if ok then Dispatching(rec) else s.owner;
    var calls := if ok then s.calls + multiset{Slot(rec)} else s.calls;
    assert Slot(rec) !in s.raw;
    if d.attempts < rec.attempts {
      FreshAttempt(cfg, s, rec, next, calls);
    } else {
      assert Hot(s);
    }
  }

  lemma BeginDispatchKeepsSafe(cfg: Config, s: State, now: int, fault: Fault)
    requires Safe(cfg, s) && s.owner.Holding? && MayDispatch(cfg, s.owner.rec, s.owner.closed)
    ensures Safe(cfg, DoBeginDispatch(cfg, s, s.owner.rec, now, fault))
  {
    var rec := PendingRecord(s.owner.rec, now);
    var (s', ok) := Save(cfg, s, rec, fault);
    if s'.durable != s.durable || ok {
      Accepted(cfg, s, rec, fault);
      BeginAccepted(cfg, s, rec, ok);
    }
  }

  lemma DispatcherReturnsKeepsSafe(cfg: Config, s: State, o: Outcome, presses: nat)
    requires Safe(cfg, s) && s.owner.Dispatching? && Honest(o, presses)
    ensures Safe(cfg, DoDispatcherReturns(s, s.owner.rec, o, presses))
  {
  }

  /** The outcome is remembered even when it cannot be saved, and it cools the attempt down. */
  lemma SettledInMemory(cfg: Config, s: State, observed: Record)
    requires Safe(cfg, s) && s.owner.Settling?
    requires observed.completed == s.owner.rec.completed && observed.attempts == s.owner.rec.attempts
    requires s.owner.outcome.rawAttempted ==> observed.rawInputs == 1
    ensures Safe(cfg, s.(owner := Holding(observed, false)))
  {
    assert Hot(s.(owner := Holding(observed, false))) ==> Hot(s);
  }

  lemma SettleAccepted(cfg: Config, s: State, observed: Record)
    requires Safe(cfg, s) && s.owner.Settling? && s.durable.Some?
    requires observed.completed == s.owner.rec.completed && observed.attempts == s.owner.rec.attempts
    requires s.owner.outcome.rawAttempted ==> observed.rawInputs == 1
    requires Valid(cfg.rules, observed) && ValidInSlot(s.durable.value, observed)
    requires s.durable.value.completed == observed.completed
    ensures Safe(cfg, s.(durable := Some(observed), owner := Holding(observed, false)))
  {
    var s' := s.(durable := Some(observed), owner := Holding(observed, false));
    assert Hot(s);
    assert Hot(s') ==> observed.rawInputs == 1;
  }

  lemma ObservedKeepsAttempt(cfg: Config, m: Record, o: Outcome, now: int)
    ensures
      var observed := ObservedRecord(cfg, m, o, now);
      && observed.completed == m.completed && observed.attempts == m.attempts
      && (o.rawAttempted ==> observed.rawInputs == 1)
  {
  }

  lemma SettleDispatchKeepsSafe(cfg: Config, s: State, now: int, fault: Fault)
    requires Safe(cfg, s) && s.owner.Settling?
    ensures Safe(cfg, DoSettleDispatch(cfg, s, s.owner.rec, s.owner.outcome, now, fault))
  {
    var observed := ObservedRecord(cfg, s.owner.rec, s.owner.outcome, now);
    ObservedKeepsAttempt(cfg, s.owner.rec, s.owner.outcome, now);
    if Save(cfg, s, observed, fault).0.durable != s.durable {
      Accepted(cfg, s, observed, fault);
      SettleAccepted(cfg, s, observed);
    } else {
      SettledInMemory(cfg, s, observed);
    }
  }

  /** Forgetting the owner (a crash, or the end of Acquire) only cools the state. */
  lemma LosingOwnerKeepsSafe(cfg: Config, s: State)
    requires Safe(cfg, s)
    ensures Safe(cfg, s.(owner := Absent))
  {
  }

  /** Pages, the create call and the close log play no part in dispatch safety. */
  lemma SafeIgnoresPages(cfg: Config, s: State, t: State)
    requires Safe(cfg, s)
    requires t.durable == s.durable && t.owner == s.owner && t.recoverers == s.recoverers
    requires t.calls == s.calls && t.raw == s.raw
    ensures Safe(cfg, t)
  {
  }

  lemma SeeingGoneMoves(cfg: Config, s: State, c: Cleaner, gone: bool)
    ensures
      var s' := DoOwnerCleans(cfg, s, c, SeeGone(gone));
      && s' == s.(owner := s'.owner)
      && (|| s'.owner == Absent
          || s'.owner == Cleaning(c)
          || (s'.owner.Cleaning?
              && SameAttempt(s'.owner.cleaner.rec, c.rec) && PastActions(s'.owner.cleaner.rec.phase)))
  {
  }

  lemma OwnerSeesGoneKeepsSafe(cfg: Config, s: State, gone: bool)
    requires Safe(cfg, s) && s.owner.Cleaning?
    ensures Safe(cfg, DoOwnerCleans(cfg, s, s.owner.cleaner, SeeGone(gone)))
  {
    SeeingGoneMoves(cfg, s, s.owner.cleaner, gone);
    var next := DoOwnerCleans(cfg, s, s.owner.cleaner, SeeGone(gone)).owner;
    if next == Absent {
      LosingOwnerKeepsSafe(cfg, s);
    } else {
      IdleMovesKeepsSafe(cfg, s, next);
    }
  }

  lemma SavingResultMoves(cfg: Config, s: State, c: Cleaner, now: int, fault: Fault)
    requires c.stage.SavingResult?
    ensures
      var rec := c.rec.(updatedAt := now);
      DoOwnerCleans(cfg, s, c, SaveResult(now, fault))
      == Save(cfg, s, rec, fault).0.(owner := if c.style == LeaseClose then Holding(rec, c.stage.gone) else Absent)
  {
  }

  lemma OwnerSavesResultKeepsSafe(cfg: Config, s: State, now: int, fault: Fault)
    requires Safe(cfg, s) && s.owner.Cleaning? && s.owner.cleaner.stage.SavingResult?
    ensures Safe(cfg, DoOwnerCleans(cfg, s, s.owner.cleaner, SaveResult(now, fault)))
  {
    var c := s.owner.cleaner;
    var rec := c.rec.(updatedAt := now);
    var held := Holding(rec, c.stage.gone);
    SavingResultMoves(cfg, s, c, now, fault);
    OwnerSaveKeepsSafe(cfg, s, rec, fault, held);
    if c.style != LeaseClose {
      LosingOwnerKeepsSafe(cfg, Save(cfg, s, rec, fault).0.(owner := held));
    }
  }

  lemma OwnerCleansKeepsSafe(cfg: Config, s: State, move: CleanMove)
    requires Safe(cfg, s) && s.owner.Cleaning?
    ensures Safe(cfg, DoOwnerCleans(cfg, s, s.owner.cleaner, move))
  {
    var c := s.owner.cleaner;
    match move
    case SavePending(now, fault) =>
      if c.stage.SavingPending? {
        OwnerSaveKeepsSafe(cfg, s, c.rec.(updatedAt := now), fault, DoOwnerCleans(cfg, s, c, move).owner);
      }
    case SendClose(_) => SafeIgnoresPages(cfg, s, DoOwnerCleans(cfg, s, c, move));
    case SeeGone(gone) => OwnerSeesGoneKeepsSafe(cfg, s, gone);
    case SaveResult(now, fault) =>
      if c.stage.SavingResult? {
        OwnerSavesResultKeepsSafe(cfg, s, now, fault);
      }
  }

  // ------------------------------------------------------------ Recover

  lemma RecoverKeepsSafe(cfg: Config, s: State, readable: bool, now: int)
    requires Safe(cfg, s)
    ensures Safe(cfg, DoRecover(cfg, s, readable, now))
  {
  }

  lemma CopyMovesKeepsSafe(cfg: Config, s: State, i: nat, t: State)
    requires Safe(cfg, s) && i < |s.recoverers| && Copy(s.recoverers[i]).Some?
    requires |t.recoverers| == |s.recoverers| && t.recoverers == s.recoverers[i := t.recoverers[i]]
    requires
      Copy(t.recoverers[i]).Some? ==>
        var copy := Copy(s.recoverers[i]).value;
        var kept := Copy(t.recoverers[i]).value;
        kept.completed == copy.completed && kept.attempts == copy.attempts
        && (kept.rawInputs == copy.rawInputs || kept.rawInputs == 1)
    requires t.durable == s.durable && t.owner == s.owner && t.calls == s.calls && t.raw == s.raw
    ensures Safe(cfg, t)
  {
  }

  /** A recoverer's copy is accepted only while it still admits every input sent. */
  lemma CopySaveAccepted(cfg: Config, s: State, i: nat, rec: Record)
    requires Safe(cfg, s) && i < |s.recoverers| && Copy(s.recoverers[i]).Some?
    requires SameAttempt(rec, Copy(s.recoverers[i]).value) && s.durable.Some?
    requires Valid(cfg.rules, rec) && ValidInSlot(s.durable.value, rec)
    requires s.durable.value.completed == rec.completed
    ensures Safe(cfg, s.(durable := Some(rec)))
  {
    assert CopyBehind(Copy(s.recoverers[i]).value, s.durable.value, Hot(s));
    assert Hot(s.(durable := Some(rec))) == Hot(s);
  }

  lemma CopySaveKeepsSafe(cfg: Config, s: State, i: nat, rec: Record, fault: Fault, next: Recoverer)
    requires Safe(cfg, s) && i < |s.recoverers| && Copy(s.recoverers[i]).Some?
    requires SameAttempt(rec, Copy(s.recoverers[i]).value)
    requires Copy(next).Some? ==> SameAttempt(Copy(next).value, rec)
    ensures Safe(cfg, Save(cfg, s, rec, fault).0.(recoverers := s.recoverers[i := next]))
  {
    var s1 := Save(cfg, s, rec, fault).0;
    if s1.durable != s.durable {
      Accepted(cfg, s, rec, fault);
      assert CopyBehind(Copy(s.recoverers[i]).value, s.durable.value, Hot(s));
      CopySaveAccepted(cfg, s, i, rec);
    }
    CopyMovesKeepsSafe(cfg, s1, i, s1.(recoverers := s.recoverers[i := next]));
  }

  /** Closing the page and watching it go save nothing. */
  lemma WatchingKeepsAttempt(cfg: Config, s: State, c: Cleaner, move: CleanMove)
    requires move.SavePending? ==> !c.stage.SavingPending?
    requires move.SaveResult? ==> !c.stage.SavingResult?
    ensures
      var (s', c', _) := Clean(cfg, s, c, move);
      && s' == s.(closeLog := s'.closeLog, pages := s'.pages)
      && SameAttempt(c'.rec, c.rec)
  {
  }

  lemma CleanSaves(cfg: Config, s: State, i: nat, c: Cleaner, evidence: bool, move: CleanMove)
    requires i < |s.recoverers|
    requires (move.SavePending? && c.stage.SavingPending?) || (move.SaveResult? && c.stage.SavingResult?)
    ensures
      var rec := c.rec.(updatedAt := move.now);
      var s' := DoRecovererCleans(cfg, s, i, c, evidence, move);
      && s' == Save(cfg, s, rec, move.fault).0.(recoverers := s'.recoverers)
      && s'.recoverers == s.recoverers[i := s'.recoverers[i]]
      && (Copy(s'.recoverers[i]).Some? ==> SameAttempt(Copy(s'.recoverers[i]).value, rec))
  {
  }

  lemma RecovererCleansKeepsSafe(cfg: Config, s: State, i: nat, c: Cleaner, evidence: bool, move: CleanMove)
    requires Safe(cfg, s) && i < |s.recoverers| && s.recoverers[i] == Clearing(c, evidence)
    ensures Safe(cfg, DoRecovererCleans(cfg, s, i, c, evidence, move))
  {
    if (move.SavePending? && c.stage.SavingPending?) || (move.SaveResult? && c.stage.SavingResult?) {
      var rec := c.rec.(updatedAt := move.now);
      var s' := DoRecovererCleans(cfg, s, i, c, evidence, move);
      CleanSaves(cfg, s, i, c, evidence, move);
      CopySaveKeepsSafe(cfg, s, i, rec, move.fault, s'.recoverers[i]);
    } else {
      WatchingKeepsAttempt(cfg, s, c, move);
      CopyMovesKeepsSafe(cfg, s, i, DoRecovererCleans(cfg, s, i, c, evidence, move));
    }
  }

  lemma SaveVerdictKeepsSafe(cfg: Config, s: State, i: nat, rec: Record, answer: CleanupState, now: int, fault: Fault)
    requires Safe(cfg, s) && i < |s.recoverers| && s.recoverers[i] == SavingVerdict(rec, answer)
    ensures Safe(cfg, DoSaveVerdict(cfg, s, i, rec, answer, now, fault))
  {
    CopySaveKeepsSafe(cfg, s, i, rec.(updatedAt := now), fault,
                      DoSaveVerdict(cfg, s, i, rec, answer, now, fault).recoverers[i]);
  }

  lemma SaveEvidenceKeepsSafe(cfg: Config, s: State, i: nat, rec: Record, now: int, fault: Fault)
    requires Safe(cfg, s) && i < |s.recoverers| && s.recoverers[i] == SavingEvidence(rec)
    ensures Safe(cfg, DoSaveEvidence(cfg, s, i, rec, now, fault))
  {
    CopySaveKeepsSafe(cfg, s, i, rec.(updatedAt := now), fault,
                      DoSaveEvidence(cfg, s, i, rec, now, fault).recoverers[i]);
  }

  lemma SearchesKeepsSafe(cfg: Config, s: State, i: nat, rec: Record, result: Search, now: int)
    requires Safe(cfg, s) && i < |s.recoverers| && s.recoverers[i] == Searching(rec)
    ensures Safe(cfg, DoRecovererSearches(cfg, s, i, rec, result, now))
  {
    CopyMovesKeepsSafe(cfg, s, i, DoRecovererSearches(cfg, s, i, rec, result, now));
  }

  lemma RecovererKeepsSafe(cfg: Config, s: State, i: nat, move: RecoverMove)
    requires Safe(cfg, s) && i < |s.recoverers|
    ensures Safe(cfg, RecoverStep(cfg, s, i, move))
  {
    var p := s.recoverers[i];
    match move
    case Searches(result, now) =>
      if p.Searching? {
        SearchesKeepsSafe(cfg, s, i, p.rec, result, now);
      }
    case SaveVerdict(now, fault) =>
      if p.SavingVerdict? {
        SaveVerdictKeepsSafe(cfg, s, i, p.rec, p.answer, now, fault);
      }
    case SaveEvidence(now, fault) =>
      if p.SavingEvidence? {
        SaveEvidenceKeepsSafe(cfg, s, i, p.rec, now, fault);
      }
    case Cleans(m) =>
      if p.Clearing? {
        RecovererCleansKeepsSafe(cfg, s, i, p.cleaner, p.evidenceSaved, m);
      }
  }

  // ---------------------------------------------------------- every step

  lemma CheckBudgetKeepsSafe(cfg: Config, s: State, verdict: BudgetVerdict, now: int, fault: Fault)
    requires Safe(cfg, s) && s.owner.Acquiring?
    ensures Safe(cfg, DoCheckBudget(cfg, s, s.owner.rec, verdict, now, fault))
  {
    var rec := s.owner.rec;
    var offer := match verdict
                 case WithinBudget => rec.(phase := BudgetChecked, updatedAt := now)
                 case BudgetUnknown => FailedRecord(rec, BudgetCheckFailed, now)
                 case OverBudget => FailedRecord(rec, BudgetExceeded, now);
    AcquireSaveKeepsSafe(cfg, s, offer, fault, DoCheckBudget(cfg, s, rec, verdict, now, fault).owner);
  }

  lemma TakeLockKeepsSafe(cfg: Config, s: State, locked: bool, now: int, fault: Fault)
    requires Safe(cfg, s) && s.owner.Acquiring?
    ensures Safe(cfg, DoTakeLock(cfg, s, s.owner.rec, locked, now, fault))
  {
    var rec := s.owner.rec;
    var offer := if locked then rec.(phase := TargetCreatePending, updatedAt := now)
                 else FailedRecord(rec, InputLockUnavailable, now);
    AcquireSaveKeepsSafe(cfg, s, offer, fault, DoTakeLock(cfg, s, rec, locked, now, fault).owner);
  }

  lemma SaveOwnedKeepsSafe(cfg: Config, s: State, rec: Record, retry: bool, now: int, fault: Fault)
    requires Safe(cfg, s) && s.owner.Acquiring? && s.owner.rec == rec
    ensures Safe(cfg, DoSaveOwned(cfg, s, rec, retry, now, fault))
  {
    AcquireSaveKeepsSafe(cfg, s, rec.(updatedAt := now), fault, DoSaveOwned(cfg, s, rec, retry, now, fault).owner);
  }

  lemma SaveAttachedKeepsSafe(cfg: Config, s: State, rec: Record, now: int, fault: Fault)
    requires Safe(cfg, s) && s.owner.Acquiring? && s.owner.rec == rec
    ensures Safe(cfg, DoSaveAttached(cfg, s, rec, now, fault))
  {
    AcquireSaveKeepsSafe(cfg, s, rec.(updatedAt := now), fault, DoSaveAttached(cfg, s, rec, now, fault).owner);
  }

  lemma AcquireSavesKeepSafe(cfg: Config, s: State, stage: AcquireStage, rec: Record, move: AcquireMove)
    requires Safe(cfg, s) && s.owner == Acquiring(stage, rec)
    requires move.CheckBudget? || move.TakeLock? || move.SaveFailure? || move.SaveOwned? || move.SaveAttached?
    ensures Safe(cfg, AcquireStep(cfg, s, stage, rec, move))
  {
    match move
    case CheckBudget(verdict, now, fault) => CheckBudgetKeepsSafe(cfg, s, verdict, now, fault);
    case TakeLock(locked, now, fault) => TakeLockKeepsSafe(cfg, s, locked, now, fault);
    case SaveFailure(now, fault) => AcquireSaveKeepsSafe(cfg, s, rec.(updatedAt := now), fault, Absent);
    case SaveOwned(now, fault) =>
      if stage.SavingOwned? {
        SaveOwnedKeepsSafe(cfg, s, rec, stage.retry, now, fault);
      }
    case SaveAttached(now, fault) => SaveAttachedKeepsSafe(cfg, s, rec, now, fault);
  }

  lemma CloseUnrecordedKeepsSafe(cfg: Config, s: State, rec: Record, move: CleanMove)
    requires Safe(cfg, s) && s.owner == Acquiring(ClosingUnrecorded, rec)
    ensures Safe(cfg, DoCloseUnrecorded(s, rec, move))
  {
    LosingOwnerKeepsSafe(cfg, s);
    SafeIgnoresPages(cfg, s.(owner := DoCloseUnrecorded(s, rec, move).owner), DoCloseUnrecorded(s, rec, move));
  }

  lemma CreateAnswersKeepsSafe(cfg: Config, s: State, rec: Record, ok: bool)
    requires Safe(cfg, s) && s.owner == Acquiring(AwaitingCreate, rec) && (ok ==> s.born.Some?)
    ensures Safe(cfg, DoCreateAnswers(s, rec, ok))
  {
    OwnerMovesKeepsSafe(cfg, s, DoCreateAnswers(s, rec, ok));
  }

  lemma OwnerSearchesKeepsSafe(cfg: Config, s: State, rec: Record, result: Search)
    requires Safe(cfg, s) && s.owner == Acquiring(Reconciling, rec)
    ensures Safe(cfg, DoOwnerSearches(cfg, s, rec, result))
  {
    OwnerMovesKeepsSafe(cfg, s, DoOwnerSearches(cfg, s, rec, result));
  }

  lemma PreserveAnswersKeepsSafe(cfg: Config, s: State, stage: AcquireStage, rec: Record, ok: bool)
    requires Safe(cfg, s) && s.owner == Acquiring(stage, rec)
    ensures Safe(cfg, DoPreserveAnswers(s, rec, ok))
  {
    OwnerMovesKeepsSafe(cfg, s, DoPreserveAnswers(s, rec, ok));
  }

  lemma AttachAnswersKeepsSafe(cfg: Config, s: State, stage: AcquireStage, rec: Record, session: string)
    requires Safe(cfg, s) && s.owner == Acquiring(stage, rec)
    ensures Safe(cfg, DoAttachAnswers(s, rec, session))
  {
    OwnerMovesKeepsSafe(cfg, s, DoAttachAnswers(s, rec, session));
  }

  lemma NavigateAnswersKeepsSafe(cfg: Config, s: State, stage: AcquireStage, rec: Record,
                                 ok: bool, landed: Option<string>)
    requires Safe(cfg, s) && s.owner == Acquiring(stage, rec)
    ensures Safe(cfg, DoNavigateAnswers(s, rec, ok, landed))
  {
    OwnerMovesKeepsSafe(cfg, s, DoNavigateAnswers(s, rec, ok, landed));
  }

  lemma AcquireMovesKeepSafe(cfg: Config, s: State, stage: AcquireStage, rec: Record, move: AcquireMove)
    requires Safe(cfg, s) && s.owner == Acquiring(stage, rec)
    requires move.SendCreate? || move.OwnerSearches? || move.CloseUnrecorded?
             || (move.CreateAnswers? && (move.ok ==> s.born.Some?))
    ensures Safe(cfg, AcquireStep(cfg, s, stage, rec, move))
  {
    match move
    case SendCreate => OwnerMovesKeepsSafe(cfg, s, s.(owner := Acquiring(AwaitingCreate, rec), requested := true));
    case CreateAnswers(ok) =>
      if stage == AwaitingCreate {
        CreateAnswersKeepsSafe(cfg, s, rec, ok);
      }
    case OwnerSearches(result) =>
      if stage == Reconciling {
        OwnerSearchesKeepsSafe(cfg, s, rec, result);
      }
    case CloseUnrecorded(m) =>
      if stage == ClosingUnrecorded {
        CloseUnrecordedKeepsSafe(cfg, s, rec, m);
      }
  }

  lemma AcquireKeepsSafe(cfg: Config, s: State, stage: AcquireStage, rec: Record, move: AcquireMove)
    requires Safe(cfg, s) && s.owner == Acquiring(stage, rec)
    requires move.CreateAnswers? && move.ok ==> s.born.Some?
    ensures Safe(cfg, AcquireStep(cfg, s, stage, rec, move))
  {
    if move.CheckBudget? || move.TakeLock? || move.SaveFailure? || move.SaveOwned? || move.SaveAttached? {
      AcquireSavesKeepSafe(cfg, s, stage, rec, move);
    } else if move.PreserveAnswers? {
      PreserveAnswersKeepsSafe(cfg, s, stage, rec, move.ok);
    } else if move.AttachAnswers? {
      AttachAnswersKeepsSafe(cfg, s, stage, rec, move.session);
    } else if move.NavigateAnswers? {
      NavigateAnswersKeepsSafe(cfg, s, stage, rec, move.ok, move.landed);
    } else {
      AcquireMovesKeepSafe(cfg, s, stage, rec, move);
    }
  }

  lemma LeaseKeepsSafe(cfg: Config, s: State, move: LeaseMove)
    requires Safe(cfg, s) && (move.DispatcherReturns? ==> Honest(move.outcome, move.presses))
    ensures Safe(cfg, LeaseStep(cfg, s, move))
  {
    if s.owner.Holding? {
      match move
      case Call(op, now, fault) => CallKeepsSafe(cfg, s, op, now, fault);
      case BeginDispatch(now, fault) =>
        if MayDispatch(cfg, s.owner.rec, s.owner.closed) {
          BeginDispatchKeepsSafe(cfg, s, now, fault);
        }
      case BeginClose =>
        var next := Cleaning(StartCleaning(s.owner.rec, LeaseClose));
        IdleMovesKeepsSafe(cfg, s, next);
      case _ =>
    } else if s.owner.Dispatching? && move.DispatcherReturns? {
      DispatcherReturnsKeepsSafe(cfg, s, move.outcome, move.presses);
    } else if s.owner.Settling? && move.SettleDispatch? {
      SettleDispatchKeepsSafe(cfg, s, move.now, move.fault);
    }
  }

  lemma WorldKeepsSafe(cfg: Config, s: State, move: WorldMove)
    requires Safe(cfg, s)
    ensures Safe(cfg, WorldStep(cfg, s, move))
  {
    SafeIgnoresPages(cfg, s, WorldStep(cfg, s, move));
  }

  lemma OwnerKeepsSafe(cfg: Config, s: State, a: Action)
    requires Safe(cfg, s) && Possible(cfg, s, a) && (a.InAcquire? || a.InLease? || a.OwnerCleans?)
    ensures Safe(cfg, Step(cfg, s, a))
  {
    match a
    case InAcquire(move) =>
      if s.owner.Acquiring? {
        AcquireKeepsSafe(cfg, s, s.owner.stage, s.owner.rec, move);
      }
    case InLease(move) => LeaseKeepsSafe(cfg, s, move);
    case OwnerCleans(move) =>
      if s.owner.Cleaning? {
        OwnerCleansKeepsSafe(cfg, s, move);
      }
  }

  lemma StepKeepsSafe(cfg: Config, s: State, a: Action)
    requires Safe(cfg, s)
    ensures Safe(cfg, Step(cfg, s, a))
  {
    if !Possible(cfg, s, a) {
      return;
    }
    match a
    case Begin(q, now, fault) => BeginKeepsSafe(cfg, s, q, now, fault);
    case OwnerCrashes => LosingOwnerKeepsSafe(cfg, s);
    case Recover(readable, now) => RecoverKeepsSafe(cfg, s, readable, now);
    case InRecover(i, move) =>
      if i < |s.recoverers| {
        RecovererKeepsSafe(cfg, s, i, move);
      }
    case InWorld(move) => WorldKeepsSafe(cfg, s, move);
    case _ => OwnerKeepsSafe(cfg, s, a);
  }

  lemma {:induction false} RunKeepsSafe(cfg: Config, s: State, acts: seq<Action>)
    requires Safe(cfg, s)
    ensures Safe(cfg, Run(cfg, s, acts))
    decreases |acts|
  {
    if acts != [] {
      StepKeepsSafe(cfg, s, acts[0]);
      RunKeepsSafe(cfg, Step(cfg, s, acts[0]), acts[1..]);
    }
  }
}
