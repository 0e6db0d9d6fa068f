/** What the journal says about a dispatch fits the phase it is in, in every run, and no recovery ever
    claims that an action was performed. */
module OutcomeSafety {
  import opened Basics
  import opened Records
  import opened Histories
  import opened Journal
  import opened Protocol
  import opened DispatchSafety
  import opened TargetSafety
  import opened Frames
  import opened RunTheorems

  // ------------------------------------------------------- the dispatch and the phase

  /** Nothing has been dispatched before the intent; a performed action has its dispatch, its error and
      its retry time settled; an unknown one says when to look again; and no finished action is unknown. */
  predicate Fits(r: Record) {
    match r.phase
    case Prepared => r.dispatch == Undispatched || (r.dispatch == NotPerformed && r.lastError == ActionNotPerformed)
    case ActionPending => r.dispatch == Undispatched || r.dispatch == NotPerformed
    case ActionPerformed => r.dispatch == Performed && r.lastError == NoError && r.retryAt == None
    case ActionUnknown =>
      && r.dispatch == Unknown && r.retryAt.Some?
      && (r.lastError == DispatchUnknown || r.lastError == AmbiguousAfterRestart)
    case Acknowledged => r.dispatch == Performed && r.lastError == NoError && r.retryAt == None
    case Terminal => r.dispatch != Unknown
    case Incomplete => true
    case CleanupPending => true
    case Closed => true
    case _ => r.dispatch == Undispatched
  }

  /** The same of the archived actions. */
  predicate Told(r: Record) {
    Fits(r) && forall a | a in r.completed :: a.completionPhase == Terminal ==> a.dispatch != Unknown
  }

  ghost predicate AllTold(s: State) {
    && (s.durable.Some? ==> Told(s.durable.value))
    && (OwnerRecord(s.owner).Some? ==> Told(OwnerRecord(s.owner).value))
    && (forall p | p in s.recoverers && Copy(p).Some? :: Told(Copy(p).value))
  }

  lemma SaveKeepsTold(cfg: Config, s: State, rec: Record, fault: Fault)
    requires AllTold(s) && Told(rec)
    ensures AllTold(Save(cfg, s, rec, fault).0)
  {
  }

  lemma OwnerKeepsTold(s: State, t: State)
    requires AllTold(s) && t.durable == s.durable && t.recoverers == s.recoverers
    requires OwnerRecord(t.owner).Some? ==> Told(OwnerRecord(t.owner).value)
    ensures AllTold(t)
  {
  }

  lemma CopyKeepsTold(s: State, i: nat, next: Recoverer)
    requires AllTold(s) && i < |s.recoverers| && (Copy(next).Some? ==> Told(Copy(next).value))
    ensures AllTold(s.(recoverers := s.recoverers[i := next]))
  {
    forall p | p in s.recoverers[i := next] && Copy(p).Some? ensures Told(Copy(p).value) {
      assert p == next || p in s.recoverers;
    }
  }

  lemma StampKeepsTold(r: Record, now: int)
    requires Told(r)
    ensures Told(r.(updatedAt := now))
  {
  }

  /** In a phase without a dispatch, or on the way to the end of the run, any such record is told. */
  lemma MovesOn(r: Record, next: Record)
    requires Told(r) && next.completed == r.completed
    requires
      || next.phase == CleanupPending || next.phase == Closed
      || (next.dispatch == Undispatched && !Late(next.phase))
    ensures Told(next)
  {
  }

  predicate Late(phase: Phase) {
    phase == ActionPerformed || phase == ActionUnknown || phase == Acknowledged
  }

  lemma ProposalIsTold(rules: TextRules, m: Record, closed: bool, op: LeaseOp)
    requires Told(m)
    ensures Propose(rules, m, closed, op).Some? ==> Told(Propose(rules, m, closed, op).value)
  {
  }

  lemma ObservedIsTold(cfg: Config, m: Record, o: Outcome, now: int)
    requires Told(m) && m.phase == ActionPending && ValidOutcome(o)
    ensures Told(ObservedRecord(cfg, m, o, now))
  {
  }

  // ------------------------------------------------------------------ every step

  /** A save of a told record by the owner, and what the owner is left with. */
  lemma OwnerSaveKeepsTold(cfg: Config, s: State, rec: Record, fault: Fault, next: Owner)
    requires AllTold(s) && Told(rec)
    requires next == s.owner || (OwnerRecord(next).Some? ==> OwnerRecord(next) == Some(rec))
    ensures AllTold(Save(cfg, s, rec, fault).0.(owner := next))
  {
    SaveKeepsTold(cfg, s, rec, fault);
    OwnerKeepsTold(Save(cfg, s, rec, fault).0, Save(cfg, s, rec, fault).0.(owner := next));
  }

  lemma CheckBudgetKeepsTold(cfg: Config, s: State, rec: Record, verdict: BudgetVerdict, now: int, fault: Fault)
    requires AllTold(s) && s.owner == Acquiring(CheckingBudget, rec) && rec.phase == Planned
    ensures AllTold(DoCheckBudget(cfg, s, rec, verdict, now, fault))
  {
    var offer := match verdict
                 case WithinBudget => rec.(phase := BudgetChecked, updatedAt := now)
                 case BudgetUnknown => FailedRecord(rec, BudgetCheckFailed, now)
                 case OverBudget => FailedRecord(rec, BudgetExceeded, now);
    MovesOn(rec, offer);
    OwnerSaveKeepsTold(cfg, s, offer, fault, DoCheckBudget(cfg, s, rec, verdict, now, fault).owner);
  }

  lemma TakeLockKeepsTold(cfg: Config, s: State, rec: Record, locked: bool, now: int, fault: Fault)
    requires AllTold(s) && s.owner == Acquiring(TakingLock, rec) && rec.phase == BudgetChecked
    ensures AllTold(DoTakeLock(cfg, s, rec, locked, now, fault))
  {
    var offer := if locked then rec.(phase := TargetCreatePending, updatedAt := now)
                 else FailedRecord(rec, InputLockUnavailable, now);
    MovesOn(rec, offer);
    OwnerSaveKeepsTold(cfg, s, offer, fault, DoTakeLock(cfg, s, rec, locked, now, fault).owner);
  }

  /** The saves of Acquire once the create call is out. */
  lemma LateSaveKeepsTold(cfg: Config, s: State, stage: AcquireStage, rec: Record, move: AcquireMove)
    requires AllTold(s) && s.owner == Acquiring(stage, rec)
    requires move.SaveFailure? || move.SaveOwned? || move.SaveAttached?
    ensures AllTold(AcquireStep(cfg, s, stage, rec, move))
  {
    var offer := rec.(updatedAt := move.now);
    StampKeepsTold(rec, move.now);
    if AcquireStep(cfg, s, stage, rec, move) != s {
      OwnerSaveKeepsTold(cfg, s, offer, move.fault, AcquireStep(cfg, s, stage, rec, move).owner);
    }
  }

  lemma SearchKeepsTold(cfg: Config, s: State, rec: Record, result: Search)
    requires AllTold(s) && s.owner == Acquiring(Reconciling, rec) && rec.phase == TargetCreatePending
    ensures AllTold(DoOwnerSearches(cfg, s, rec, result))
  {
    var t := DoOwnerSearches(cfg, s, rec, result);
    MovesOn(rec, OwnerRecord(t.owner).value);
    OwnerKeepsTold(s, t);
  }

  lemma AnswerKeepsTold(cfg: Config, s: State, stage: AcquireStage, rec: Record, move: AcquireMove)
    requires AllTold(s) && s.owner == Acquiring(stage, rec) && AcquirePlaced(s, stage, rec)
    requires move.SendCreate? || (move.CreateAnswers? && (move.ok ==> s.born.Some?)) || move.PreserveAnswers?
    ensures AllTold(AcquireStep(cfg, s, stage, rec, move))
  {
    var t := AcquireStep(cfg, s, stage, rec, move);
    if t != s {
      MovesOn(rec, OwnerRecord(t.owner).value);
      OwnerKeepsTold(s, t);
    }
  }

  lemma AttachKeepsTold(cfg: Config, s: State, rec: Record, session: string)
    requires AllTold(s) && s.owner == Acquiring(Attaching, rec) && rec.phase == TargetOwned
    ensures AllTold(DoAttachAnswers(s, rec, session))
  {
    if session != "" {
      var attached := rec.(sessionID := session, phase := Attached);
      MovesOn(rec, attached);
      OwnerKeepsTold(s, s.(owner := Acquiring(SavingAttached, attached)));
    } else {
      var failed := rec.(lastError := AttachFailed);
      MovesOn(rec, StartCleaning(failed, AfterAttachFailure).rec);
      OwnerKeepsTold(s, s.(owner := Cleaning(StartCleaning(failed, AfterAttachFailure))));
    }
  }

  lemma NavigateKeepsTold(cfg: Config, s: State, rec: Record, ok: bool, landed: Option<string>)
    requires AllTold(s) && s.owner == Acquiring(Navigating, rec) && rec.phase == Attached
    ensures AllTold(DoNavigateAnswers(s, rec, ok, landed))
  {
    var t := DoNavigateAnswers(s, rec, ok, landed);
    MovesOn(rec, OwnerRecord(t.owner).value);
    OwnerKeepsTold(s, t);
  }

  lemma AcquireKeepsTold(cfg: Config, s: State, stage: AcquireStage, rec: Record, move: AcquireMove)
    requires AllTold(s) && s.owner == Acquiring(stage, rec) && AcquirePlaced(s, stage, rec)
    requires move.CreateAnswers? && move.ok ==> s.born.Some?
    ensures AllTold(AcquireStep(cfg, s, stage, rec, move))
  {
    match move
    case CheckBudget(verdict, now, fault) =>
      if stage == CheckingBudget {
        CheckBudgetKeepsTold(cfg, s, rec, verdict, now, fault);
      }
    case TakeLock(locked, now, fault) =>
      if stage == TakingLock {
        TakeLockKeepsTold(cfg, s, rec, locked, now, fault);
      }
    case SaveFailure(_, _) => LateSaveKeepsTold(cfg, s, stage, rec, move);
    case SaveOwned(_, _) => LateSaveKeepsTold(cfg, s, stage, rec, move);
    case SaveAttached(_, _) => LateSaveKeepsTold(cfg, s, stage, rec, move);
    case OwnerSearches(result) =>
      if stage == Reconciling {
        SearchKeepsTold(cfg, s, rec, result);
      }
    case AttachAnswers(session) =>
      if stage == Attaching {
        AttachKeepsTold(cfg, s, rec, session);
      }
    case NavigateAnswers(ok, landed) =>
      if stage == Navigating {
        NavigateKeepsTold(cfg, s, rec, ok, landed);
      }
    case CloseUnrecorded(m) =>
      if stage == ClosingUnrecorded {
        OwnerKeepsTold(s, DoCloseUnrecorded(s, rec, m));
      }
    case _ => AnswerKeepsTold(cfg, s, stage, rec, move);
  }

  lemma CallKeepsTold(cfg: Config, s: State, m: Record, closed: bool, op: LeaseOp, now: int, fault: Fault)
    requires AllTold(s) && s.owner == Holding(m, closed)
    ensures AllTold(DoCall(cfg, s, m, closed, op, now, fault))
  {
    ProposalIsTold(cfg.rules, m, closed, op);
    if Propose(cfg.rules, m, closed, op).Some? {
      var offer := Propose(cfg.rules, m, closed, op).value;
      StampKeepsTold(offer, now);
      OwnerSaveKeepsTold(cfg, s, offer.(updatedAt := now), fault, DoCall(cfg, s, m, closed, op, now, fault).owner);
    }
  }

  lemma BeginKeepsTold(cfg: Config, s: State, m: Record, now: int, fault: Fault)
    requires AllTold(s) && s.owner == Holding(m, false) && m.phase == Prepared
    ensures AllTold(DoBeginDispatch(cfg, s, m, now, fault))
  {
    var t := DoBeginDispatch(cfg, s, m, now, fault);
    OwnerSaveKeepsTold(cfg, s, PendingRecord(m, now), fault, t.owner);
    OwnerKeepsTold(t.(calls := s.calls), t);
  }

  lemma SettleKeepsTold(cfg: Config, s: State, m: Record, o: Outcome, now: int, fault: Fault)
    requires AllTold(s) && s.owner == Settling(m, o) && m.phase == ActionPending && ValidOutcome(o)
    ensures AllTold(DoSettleDispatch(cfg, s, m, o, now, fault))
  {
    ObservedIsTold(cfg, m, o, now);
    var observed := ObservedRecord(cfg, m, o, now);
    OwnerSaveKeepsTold(cfg, s, observed, fault, Holding(observed, false));
  }

  lemma LeaseKeepsTold(cfg: Config, s: State, move: LeaseMove)
    requires AllTold(s) && OwnerPlaced(s)
    ensures AllTold(LeaseStep(cfg, s, move))
  {
    match move
    case Call(op, now, fault) =>
      if s.owner.Holding? {
        CallKeepsTold(cfg, s, s.owner.rec, s.owner.closed, op, now, fault);
      }
    case BeginDispatch(now, fault) =>
      if s.owner.Holding? && MayDispatch(cfg, s.owner.rec, s.owner.closed) {
        BeginKeepsTold(cfg, s, s.owner.rec, now, fault);
      }
    case DispatcherReturns(_, _) => OwnerKeepsTold(s, LeaseStep(cfg, s, move));
    case SettleDispatch(now, fault) =>
      if s.owner.Settling? {
        SettleKeepsTold(cfg, s, s.owner.rec, s.owner.outcome, now, fault);
      }
    case BeginClose =>
      if s.owner.Holding? {
        MovesOn(s.owner.rec, StartCleaning(s.owner.rec, LeaseClose).rec);
        OwnerKeepsTold(s, LeaseStep(cfg, s, move));
      }
  }

  /** A cleanup move saves nothing but a record on its way to the end. */
  lemma CleanKeepsTold(cfg: Config, s: State, c: Cleaner, move: CleanMove)
    requires AllTold(s) && Told(c.rec) && (c.rec.phase == CleanupPending || c.rec.phase == Closed)
    ensures
      var (t, c', _) := Clean(cfg, s, c, move);
      AllTold(t) && Told(c'.rec) && t.owner == s.owner && t.recoverers == s.recoverers
  {
    match move
    case SavePending(now, fault) =>
      StampKeepsTold(c.rec, now);
      SaveKeepsTold(cfg, s, c.rec.(updatedAt := now), fault);
    case SaveResult(now, fault) =>
      StampKeepsTold(c.rec, now);
      SaveKeepsTold(cfg, s, c.rec.(updatedAt := now), fault);
    case SendClose(_) => OwnerKeepsTold(s, Clean(cfg, s, c, move).0);
    case SeeGone(gone) => MovesOn(c.rec, Concluded(c.rec, c.style, gone));
  }

  lemma OwnerCleansKeepsTold(cfg: Config, s: State, c: Cleaner, move: CleanMove)
    requires AllTold(s) && s.owner == Cleaning(c) && (c.rec.phase == CleanupPending || c.rec.phase == Closed)
    ensures AllTold(DoOwnerCleans(cfg, s, c, move))
  {
    CleanKeepsTold(cfg, s, c, move);
    OwnerKeepsTold(Clean(cfg, s, c, move).0, DoOwnerCleans(cfg, s, c, move));
  }

  lemma RecoverTargetIsTold(cfg: Config, r: Record, now: int)
    requires Told(r)
    ensures Told(Copy(RecoverTarget(cfg, r, now)).value)
  {
    if r.phase != ActionPending {
      MovesOn(r, StartCleaning(r, Settle).rec);
    }
  }

  lemma RecoverKeepsTold(cfg: Config, s: State, readable: bool, now: int)
    requires AllTold(s)
    ensures AllTold(DoRecover(cfg, s, readable, now))
  {
    if LoadCell(cfg.rules, s.durable, readable).Some? {
      RecoverTargetIsTold(cfg, s.durable.value, now);
      var first := StartRecover(cfg, s.durable.value, now);
      forall p | p in s.recoverers + [first] && Copy(p).Some? ensures Told(Copy(p).value) {
        assert p == first || p in s.recoverers;
      }
    }
  }

  lemma CopySaveKeepsTold(cfg: Config, s: State, i: nat, rec: Record, fault: Fault, next: Recoverer)
    requires AllTold(s) && i < |s.recoverers| && Told(rec) && (Copy(next).Some? ==> Told(Copy(next).value))
    ensures AllTold(Save(cfg, s, rec, fault).0.(recoverers := s.recoverers[i := next]))
  {
    SaveKeepsTold(cfg, s, rec, fault);
    CopyKeepsTold(Save(cfg, s, rec, fault).0, i, next);
  }

  lemma FoundKeepsTold(cfg: Config, s: State, i: nat, r: Record, id: string, now: int)
    requires AllTold(s) && i < |s.recoverers| && Told(r) && MayHaveMarkerTarget(r)
    ensures
      var next := RecoverTarget(cfg, r.(targetID := id, lastError := CreateAmbiguous), now);
      AllTold(s.(recoverers := s.recoverers[i := next]))
  {
    var found := r.(targetID := id, lastError := CreateAmbiguous);
    MovesOn(r, found);
    RecoverTargetIsTold(cfg, found, now);
    CopyKeepsTold(s, i, RecoverTarget(cfg, found, now));
  }

  lemma VerdictKeepsTold(s: State, i: nat, r: Record, verdict: Record, answer: CleanupState)
    requires AllTold(s) && i < |s.recoverers| && Told(r) && MayHaveMarkerTarget(r)
    requires verdict == r.(phase := Failed, cleanup := verdict.cleanup, lastError := verdict.lastError)
    ensures AllTold(s.(recoverers := s.recoverers[i := SavingVerdict(verdict, answer)]))
  {
    MovesOn(r, verdict);
    CopyKeepsTold(s, i, SavingVerdict(verdict, answer));
  }

  lemma SearchesKeepsTold(cfg: Config, s: State, i: nat, r: Record, result: Search, now: int)
    requires AllTold(s) && i < |s.recoverers| && Told(r) && MayHaveMarkerTarget(r)
    ensures AllTold(DoRecovererSearches(cfg, s, i, r, result, now))
  {
    match result
    case Found(id) => FoundKeepsTold(cfg, s, i, r, id, now);
    case NothingFound =>
      var verdict := r.(phase := Failed, cleanup := CleanupNotRequired, lastError := CreateFailed);
      VerdictKeepsTold(s, i, r, verdict, CleanupNotRequired);
      OwnerKeepsTold(s.(recoverers := s.recoverers[i := SavingVerdict(verdict, CleanupNotRequired)]),
                     DoRecovererSearches(cfg, s, i, r, result, now));
    case SearchFailed =>
      var verdict := r.(phase := Failed, cleanup := CleanupFailed, lastError := ReconciliationFailed);
      VerdictKeepsTold(s, i, r, verdict, CleanupFailed);
  }

  lemma RecovererKeepsTold(cfg: Config, s: State, i: nat, move: RecoverMove)
    requires AllTold(s) && i < |s.recoverers| && RecovererPlaced(s, s.recoverers[i])
    ensures AllTold(RecoverStep(cfg, s, i, move))
  {
    var p := s.recoverers[i];
    assert p in s.recoverers;
    match move
    case Searches(result, now) =>
      if p.Searching? {
        SearchesKeepsTold(cfg, s, i, p.rec, result, now);
      }
    case SaveVerdict(now, fault) =>
      if p.SavingVerdict? {
        StampKeepsTold(p.rec, now);
        var next := DoSaveVerdict(cfg, s, i, p.rec, p.answer, now, fault).recoverers[i];
        CopySaveKeepsTold(cfg, s, i, p.rec.(updatedAt := now), fault, next);
      }
    case SaveEvidence(now, fault) =>
      if p.SavingEvidence? {
        EvidenceKeepsTold(cfg, s, i, p.rec, now, fault);
      }
    case Cleans(m) =>
      if p.Clearing? {
        RecovererCleansKeepsTold(cfg, s, i, p.cleaner, p.evidenceSaved, m);
      }
  }

  lemma EvidenceKeepsTold(cfg: Config, s: State, i: nat, r: Record, now: int, fault: Fault)
    requires AllTold(s) && i < |s.recoverers| && Told(r)
    ensures AllTold(DoSaveEvidence(cfg, s, i, r, now, fault))
  {
    var rec := r.(updatedAt := now);
    StampKeepsTold(r, now);
    MovesOn(rec, StartCleaning(rec, Settle).rec);
    CopySaveKeepsTold(cfg, s, i, rec, fault, DoSaveEvidence(cfg, s, i, r, now, fault).recoverers[i]);
  }

  lemma RecovererCleansKeepsTold(cfg: Config, s: State, i: nat, c: Cleaner, evidence: bool, move: CleanMove)
    requires AllTold(s) && i < |s.recoverers| && s.recoverers[i] == Clearing(c, evidence) && CleanerPlaced(s, c)
    ensures AllTold(DoRecovererCleans(cfg, s, i, c, evidence, move))
  {
    assert s.recoverers[i] in s.recoverers;
    CleanKeepsTold(cfg, s, c, move);
    CopyKeepsTold(Clean(cfg, s, c, move).0, i, DoRecovererCleans(cfg, s, i, c, evidence, move).recoverers[i]);
  }

  lemma PlannedIsTold(cfg: Config, s: State, q: Request, now: int, fault: Fault)
    requires AllTold(s)
    ensures AllTold(DoBegin(cfg, s, q, now, fault))
  {
  }

  lemma WorldKeepsTold(cfg: Config, s: State, move: WorldMove)
    requires AllTold(s)
    ensures AllTold(WorldStep(cfg, s, move))
  {
    OwnerKeepsTold(s, WorldStep(cfg, s, move));
  }

  lemma StepKeepsTold(cfg: Config, s: State, a: Action)
    requires AllTold(s) && Placed(cfg, s)
    ensures AllTold(Step(cfg, s, a))
  {
    if Possible(cfg, s, a) {
      match a
      case Begin(q, now, fault) => PlannedIsTold(cfg, s, q, now, fault);
      case InAcquire(move) =>
        if s.owner.Acquiring? {
          AcquireKeepsTold(cfg, s, s.owner.stage, s.owner.rec, move);
        }
      case InLease(move) => LeaseKeepsTold(cfg, s, move);
      case OwnerCleans(move) =>
        if s.owner.Cleaning? {
          OwnerCleansKeepsTold(cfg, s, s.owner.cleaner, move);
        }
      case OwnerCrashes => OwnerKeepsTold(s, Step(cfg, s, a));
      case Recover(readable, now) => RecoverKeepsTold(cfg, s, readable, now);
      case InRecover(i, move) =>
        if i < |s.recoverers| {
          RecovererKeepsTold(cfg, s, i, move);
        }
      case InWorld(move) => WorldKeepsTold(cfg, s, move);
    }
  }

  lemma {:induction false} RunKeepsTold(cfg: Config, s: State, acts: seq<Action>)
    requires AllTold(s) && Placed(cfg, s)
    ensures AllTold(Run(cfg, s, acts))
    decreases |acts|
  {
    if acts != [] {
      StepKeepsTold(cfg, s, acts[0]);
      StepKeepsPlaced(cfg, s, acts[0]);
      RunKeepsTold(cfg, Step(cfg, s, acts[0]), acts[1..]);
    }
  }

  /** In every reachable state the journal's dispatch fits its phase: a finished action is never unknown,
      archived or not; performed and acknowledged actions are performed ones without an open error; an
      unknown one has a time to look again. */
  lemma JournalFitsPhase(cfg: Config, acts: seq<Action>)
    ensures
      var d := Run(cfg, Initial, acts).durable;
      d.Some? ==>
        && (d.value.phase == Terminal ==> d.value.dispatch != Unknown)
        && (forall a | a in d.value.completed :: a.completionPhase == Terminal ==> a.dispatch != Unknown)
        && (d.value.phase == ActionPerformed || d.value.phase == Acknowledged ==>
              d.value.dispatch == Performed && d.value.lastError == NoError && d.value.retryAt == None)
        && (d.value.phase == ActionUnknown ==> d.value.dispatch == Unknown && d.value.retryAt.Some?)
        && (d.value.phase == Prepared || d.value.phase == ActionPending ==>
              d.value.dispatch == Undispatched || d.value.dispatch == NotPerformed)
  {
    InitiallyPlaced(cfg);
    RunKeepsTold(cfg, Initial, acts);
  }

  // ------------------------------------------------------- what a recovery may claim

  /** If this copy says performed, so does the journal of the same action. */
  predicate Backed(r: Record, d: Record) {
    r.dispatch == Performed ==> Slot(r) <= Slot(d) && SlotView(d, Slot(r)).dispatch == Performed
  }

  ghost predicate AllBacked(s: State) {
    forall p | p in s.recoverers && Copy(p).Some? :: s.durable.Some? && Backed(Copy(p).value, s.durable.value)
  }

  lemma LaterKeepsBacked(r: Record, d: Record, later: Record)
    requires Backed(r, d) && Later(d, later)
    ensures Backed(r, later)
  {
    if r.dispatch == Performed && Slot(r) < Slot(d) {
      assert SlotView(later, Slot(r)) == SlotView(d, Slot(r));
    }
  }

  /** A copy that says no more of a dispatch than `r` does. */
  predicate SaysNoMore(next: Record, r: Record) {
    next.completed == r.completed && (next.dispatch == Performed ==> r.dispatch == Performed)
  }

  /** Where the copies of a step come from: from the copies before it, or from the journal. */
  lemma CopiesComeFrom(cfg: Config, s: State, a: Action, k: nat)
    requires k < |Step(cfg, s, a).recoverers| && Copy(Step(cfg, s, a).recoverers[k]).Some?
    ensures
      var next := Copy(Step(cfg, s, a).recoverers[k]).value;
      || (k < |s.recoverers| && Copy(s.recoverers[k]).Some? && SaysNoMore(next, Copy(s.recoverers[k]).value))
      || (s.durable.Some? && SaysNoMore(next, s.durable.value) && Step(cfg, s, a).durable == s.durable)
  {
    if Possible(cfg, s, a) {
      if a.InRecover? && a.index < |s.recoverers| {
        RecoverLeavesOthers(cfg, s, a.index, a.recover);
        if k == a.index {
          CopyComesFrom(cfg, s, k, a.recover);
        }
      } else if !a.Recover? && !a.InRecover? {
        RecoverersUnchanged(cfg, s, a);
      }
    }
  }

  lemma CleanSaysNoMore(cfg: Config, s: State, c: Cleaner, move: CleanMove)
    ensures SaysNoMore(Clean(cfg, s, c, move).1.rec, c.rec)
  {
  }

  lemma RecoverTargetSaysNoMore(cfg: Config, r: Record, now: int)
    ensures SaysNoMore(Copy(RecoverTarget(cfg, r, now)).value, r)
  {
  }

  lemma SearchSaysNoMore(cfg: Config, s: State, i: nat, r: Record, result: Search, now: int)
    requires i < |s.recoverers|
    ensures
      var next := DoRecovererSearches(cfg, s, i, r, result, now).recoverers[i];
      Copy(next).Some? && SaysNoMore(Copy(next).value, r)
  {
    if result.Found? {
      RecoverTargetSaysNoMore(cfg, r.(targetID := result.id, lastError := CreateAmbiguous), now);
    }
  }

  lemma CopyComesFrom(cfg: Config, s: State, i: nat, move: RecoverMove)
    requires i < |s.recoverers| && Copy(RecoverStep(cfg, s, i, move).recoverers[i]).Some?
    ensures
      && Copy(s.recoverers[i]).Some?
      && SaysNoMore(Copy(RecoverStep(cfg, s, i, move).recoverers[i]).value, Copy(s.recoverers[i]).value)
  {
    var p := s.recoverers[i];
    match move
    case Searches(result, now) =>
      if p.Searching? {
        SearchSaysNoMore(cfg, s, i, p.rec, result, now);
      }
    case SaveVerdict(now, fault) =>
    case SaveEvidence(now, fault) =>
    case Cleans(m) =>
      if p.Clearing? {
        CleanSaysNoMore(cfg, s, p.cleaner, m);
      }
  }

  lemma StepKeepsBacked(cfg: Config, s: State, a: Action)
    requires AllBacked(s) && Placed(cfg, s)
    ensures AllBacked(Step(cfg, s, a))
  {
    var t := Step(cfg, s, a);
    StepReplaces(cfg, s, a);
    if s.durable.Some? && t.durable != s.durable {
      TransitionIsLater(cfg.rules, s.durable.value, t.durable.value);
    }
    forall p | p in t.recoverers && Copy(p).Some? ensures t.durable.Some? && Backed(Copy(p).value, t.durable.value) {
      var k :| 0 <= k < |t.recoverers| && t.recoverers[k] == p;
      CopiesComeFrom(cfg, s, a, k);
      if t.durable != s.durable {
        assert s.recoverers[k] in s.recoverers;
        LaterKeepsBacked(Copy(s.recoverers[k]).value, s.durable.value, t.durable.value);
      }
    }
  }

  lemma {:induction false} RunKeepsBacked(cfg: Config, s: State, acts: seq<Action>)
    requires AllBacked(s) && Placed(cfg, s)
    ensures AllBacked(Run(cfg, s, acts))
    decreases |acts|
  {
    if acts != [] {
      StepKeepsBacked(cfg, s, acts[0]);
      StepKeepsPlaced(cfg, s, acts[0]);
      RunKeepsBacked(cfg, Step(cfg, s, acts[0]), acts[1..]);
    }
  }

  /** The phases a recovery saves. */
  predicate RecoveryPhase(phase: Phase) {
    phase == Failed || phase == ActionUnknown || phase == CleanupPending || phase == Closed
  }

  /** The journal of `t` claims no more than that of `s`, and no less. */
  predicate ClaimsTheSame(s: Option<Record>, t: Option<Record>) {
    s.Some? ==>
      && t.Some?
      && (t.value.dispatch == Performed <==> s.value.dispatch == Performed)
      && (s.value.dispatch == Unknown ==> t.value.dispatch == Unknown)
      && t.value.completed == s.value.completed
  }

  lemma RecoverySave(cfg: Config, s: State, r: Record, rec: Record, fault: Fault)
    requires s.durable.Some? && Backed(r, s.durable.value) && SaysNoMore(rec, r) && RecoveryPhase(rec.phase)
    ensures ClaimsTheSame(s.durable, Save(cfg, s, rec, fault).0.durable)
  {
    if Save(cfg, s, rec, fault).0.durable != s.durable {
      Accepted(cfg, s, rec, fault);
    }
  }

  lemma CleanClaimsTheSame(cfg: Config, s: State, c: Cleaner, move: CleanMove)
    requires s.durable.Some? && Backed(c.rec, s.durable.value) && RecoveryPhase(c.rec.phase)
    ensures ClaimsTheSame(s.durable, Clean(cfg, s, c, move).0.durable)
  {
    match move
    case SavePending(now, fault) => RecoverySave(cfg, s, c.rec, c.rec.(updatedAt := now), fault);
    case SaveResult(now, fault) => RecoverySave(cfg, s, c.rec, c.rec.(updatedAt := now), fault);
    case SendClose(_) =>
    case SeeGone(_) =>
  }

  lemma StepClaimsTheSame(cfg: Config, s: State, i: nat, move: RecoverMove)
    requires s.durable.Some? && i < |s.recoverers| && RecovererPlaced(s, s.recoverers[i])
    requires Copy(s.recoverers[i]).Some? ==> Backed(Copy(s.recoverers[i]).value, s.durable.value)
    ensures ClaimsTheSame(s.durable, RecoverStep(cfg, s, i, move).durable)
  {
    var p := s.recoverers[i];
    match move
    case Searches(_, _) =>
    case SaveVerdict(now, fault) =>
      if p.SavingVerdict? {
        RecoverySave(cfg, s, p.rec, p.rec.(updatedAt := now), fault);
      }
    case SaveEvidence(now, fault) =>
      if p.SavingEvidence? {
        RecoverySave(cfg, s, p.rec, p.rec.(updatedAt := now), fault);
      }
    case Cleans(m) =>
      if p.Clearing? {
        CleanClaimsTheSame(cfg, s, p.cleaner, m);
      }
  }

  /** No step of a recovery, in any run, puts on record that an action was performed when the journal did
      not say so, or takes it back, or forgets that one is unknown. */
  lemma RecoverNeverClaims(cfg: Config, acts: seq<Action>, i: nat, move: RecoverMove)
    ensures
      var s := Run(cfg, Initial, acts);
      ClaimsTheSame(s.durable, Step(cfg, s, InRecover(i, move)).durable)
  {
    InitiallyPlaced(cfg);
    RunKeepsPlaced(cfg, Initial, acts);
    RunKeepsBacked(cfg, Initial, acts);
    var s := Run(cfg, Initial, acts);
    if s.durable.Some? && i < |s.recoverers| && Possible(cfg, s, InRecover(i, move)) {
      BackedStepClaims(cfg, s, i, move);
    }
  }

  lemma BackedStepClaims(cfg: Config, s: State, i: nat, move: RecoverMove)
    requires Placed(cfg, s) && AllBacked(s) && s.durable.Some? && i < |s.recoverers|
    ensures ClaimsTheSame(s.durable, RecoverStep(cfg, s, i, move).durable)
  {
    assert RecovererPlaced(s, s.recoverers[i]) && s.recoverers[i] in s.recoverers;
    StepClaimsTheSame(cfg, s, i, move);
  }
}
