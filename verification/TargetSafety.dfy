/** The run's page is never lost, and no other page is ever closed. */
module TargetSafety {
  import opened Basics
  import opened Records
  import opened Journal
  import opened Protocol

  /** The record names the page the run created. */
  ghost predicate Names(s: State, r: Record) {
    s.born == Some(r.targetID)
  }

  ghost predicate BornOpen(s: State) {
    s.born.Some? && s.born.value in s.pages
  }

  /** A record that says closed speaks of the run's page, and that page is gone. */
  ghost predicate ClosedIsTrue(s: State, r: Record) {
    r.phase == Closed ==> Names(s, r) && r.targetID !in s.pages
  }

  ghost predicate BeforeCreate(s: State, r: Record) {
    r.targetID == "" && s.born == None && !s.requested
  }

  ghost predicate JournalNames(s: State, r: Record) {
    Names(s, r) && s.durable.Some? && s.durable.value.targetID == r.targetID
  }

  /** How a search that brought no page goes on record. */
  ghost predicate IsVerdict(s: State, r: Record) {
    r.phase == Failed && ((s.missed && r.lastError == CreateFailed) || r.lastError == ReconciliationFailed)
  }

  /** The journal gives the run's page up: a Recover that starts now looks for no page. */
  predicate GivesUp(d: Record) {
    d.targetID == "" && d.phase == Failed && d.lastError == CreateFailed
  }

  ghost predicate AcquirePlaced(s: State, stage: AcquireStage, r: Record) {
    match stage
    case CheckingBudget => BeforeCreate(s, r) && r.phase == Planned
    case TakingLock => BeforeCreate(s, r) && r.phase == BudgetChecked
    case Sending => BeforeCreate(s, r) && r.phase == TargetCreatePending
    case AwaitingCreate => r.targetID == "" && r.phase == TargetCreatePending
    case Reconciling => r.targetID == "" && r.phase == TargetCreatePending
    case SavingFailure => r.targetID == "" && IsVerdict(s, r)
    case Preserving => Names(s, r) && r.phase == TargetCreatePending
    case SavingOwned(_) => Names(s, r) && r.phase == TargetOwned
    case Attaching => JournalNames(s, r) && r.phase == TargetOwned
    case SavingAttached => JournalNames(s, r) && r.phase == Attached
    case Navigating => JournalNames(s, r) && r.phase == Attached
    case ClosingUnrecorded => Names(s, r)
  }

  ghost predicate CleanerPlaced(s: State, c: Cleaner) {
    && Names(s, c.rec)
    && (c.rec.phase == CleanupPending || c.rec.phase == Closed)
    && ClosedIsTrue(s, c.rec)
    && (c.stage.SavingResult? && c.stage.gone ==> c.rec.targetID !in s.pages)
  }

  ghost predicate OwnerPlaced(s: State) {
    match s.owner
    case Absent => true
    case Acquiring(stage, r) => AcquirePlaced(s, stage, r)
    case Holding(m, _) => Names(s, m) && m.phase != ActionPending && ClosedIsTrue(s, m)
    case Dispatching(m) => Names(s, m) && m.phase == ActionPending
    case Settling(m, o) => Names(s, m) && m.phase == ActionPending && ValidOutcome(o)
    case Cleaning(c) => CleanerPlaced(s, c)
  }

  ghost predicate RecovererPlaced(s: State, p: Recoverer) {
    match p
    case Searching(r) => r.targetID == "" && MayHaveMarkerTarget(r)
    case SavingVerdict(r, answer) =>
      && r.targetID == "" && IsVerdict(s, r)
      && (answer == CleanupFailed || (answer == CleanupNotRequired && s.missed))
    case SavingEvidence(r) => Names(s, r) && r.phase == ActionUnknown
    case Clearing(c, _) => CleanerPlaced(s, c)
    case Answered(answer, _) => answer == CleanupClosed ==> s.born.Some? && s.born.value !in s.pages
  }

  /** The journal sends any later Recover to look for the run's page at its marker address. */
  ghost predicate JournalPointsToMarker(s: State) {
    s.durable.Some? && s.durable.value.targetID == "" && MayHaveMarkerTarget(s.durable.value)
  }

  ghost predicate MayStillCreate(s: State) {
    s.requested || (s.owner.Acquiring? && s.owner.stage == Sending)
  }

  ghost predicate PagesPlaced(cfg: Config, s: State) {
    && (s.born.Some? ==> s.born.value != "" && !s.requested)
    && (forall id | id in s.pages :: s.pages[id] == cfg.marker ==> s.born == Some(id))
    && (forall id | id in s.closeLog :: s.born == Some(id))
    && (BornOpen(s) ==>
          || (s.durable.Some? && s.durable.value.targetID == s.born.value)
          || s.pages[s.born.value] == cfg.marker)
  }

  ghost predicate JournalPlaced(cfg: Config, s: State) {
    match s.durable
    case None => s.born == None && !s.requested && s.owner == Absent
    case Some(d) => Valid(cfg.rules, d) && (d.targetID != "" ==> Names(s, d)) && ClosedIsTrue(s, d)
  }

  ghost predicate NotForgotten(s: State) {
    && (MayStillCreate(s) && !s.missed ==> JournalPointsToMarker(s))
    && (BornOpen(s) && !s.late && s.durable.Some? && s.durable.value.targetID == "" ==>
          !s.missed && JournalPointsToMarker(s))
    && ((MayStillCreate(s) || s.born.Some?) && s.durable.Some? && s.durable.value.targetID == "" ==>
          JournalPointsToMarker(s) || GivesUp(s.durable.value))
  }

  ghost predicate Placed(cfg: Config, s: State) {
    && PagesPlaced(cfg, s)
    && JournalPlaced(cfg, s)
    && NotForgotten(s)
    && OwnerPlaced(s)
    && (forall i :: 0 <= i < |s.recoverers| ==> RecovererPlaced(s, s.recoverers[i]))
  }

  /** A save that names no page but the run's own, and does not close the case on one. */
  lemma SaveKeepsPlaced(cfg: Config, s: State, rec: Record, fault: Fault)
    requires Placed(cfg, s)
    requires rec.targetID != "" ==> Names(s, rec)
    requires ClosedIsTrue(s, rec)
    requires rec.targetID == "" && !MayHaveMarkerTarget(rec) ==>
               (s.missed && GivesUp(rec)) || (BeforeCreate(s, rec) && !MayStillCreate(s))
    ensures Placed(cfg, Save(cfg, s, rec, fault).0)
  {
    var s' := Save(cfg, s, rec, fault).0;
    if s'.durable != s.durable {
      assert s' == s.(durable := Some(rec)) && WriteOnceFields(s.durable.value, rec) && Valid(cfg.rules, rec);
      AcceptedKeepsPlaced(cfg, s, rec);
    }
  }

  lemma AcceptedKeepsPlaced(cfg: Config, s: State, rec: Record)
    requires Placed(cfg, s) && s.durable.Some?
    requires Valid(cfg.rules, rec) && WriteOnceFields(s.durable.value, rec)
    requires rec.targetID != "" ==> Names(s, rec)
    requires ClosedIsTrue(s, rec)
    requires rec.targetID == "" && !MayHaveMarkerTarget(rec) ==>
               (s.missed && GivesUp(rec)) || (BeforeCreate(s, rec) && !MayStillCreate(s))
    ensures Placed(cfg, s.(durable := Some(rec)))
  {
    var s' := s.(durable := Some(rec));
    assert PagesPlaced(cfg, s');
    assert JournalPlaced(cfg, s');
    assert NotForgotten(s');
    assert OwnerPlaced(s');
    forall i | 0 <= i < |s.recoverers| ensures RecovererPlaced(s', s.recoverers[i]) {
      assert RecovererPlaced(s, s.recoverers[i]);
    }
  }

  lemma BeginKeepsPlaced(cfg: Config, s: State, q: Request, now: int, fault: Fault)
    requires Placed(cfg, s)
    ensures Placed(cfg, DoBegin(cfg, s, q, now, fault))
  {
  }

  /** Pages may come, go and move, as long as the run's page neither comes back nor leaves its marker
      before the journal names it. */
  lemma PagesKeepPlaced(cfg: Config, s: State, pages: map<string, string>)
    requires Placed(cfg, s)
    requires forall id | id in pages :: pages[id] == cfg.marker ==> s.born == Some(id)
    requires s.born.Some? && s.born.value in pages ==>
               && s.born.value in s.pages
               && (|| pages[s.born.value] == s.pages[s.born.value]
                   || (s.durable.Some? && s.durable.value.targetID == s.born.value))
    ensures Placed(cfg, s.(pages := pages))
  {
    var s' := s.(pages := pages);
    forall i | 0 <= i < |s.recoverers| ensures RecovererPlaced(s', s.recoverers[i]) {
      assert RecovererPlaced(s, s.recoverers[i]);
    }
  }

  lemma PageAppearsKeepsPlaced(cfg: Config, s: State, id: string)
    requires Placed(cfg, s) && s.requested && id != "" && id !in s.pages
    ensures Placed(cfg, WorldStep(cfg, s, PageAppears(id)))
  {
    var s' := WorldStep(cfg, s, PageAppears(id));
    forall i | 0 <= i < |s.recoverers| ensures RecovererPlaced(s', s.recoverers[i]) {
      assert RecovererPlaced(s, s.recoverers[i]);
    }
    assert PagesPlaced(cfg, s');
    assert NotForgotten(s');
  }

  lemma WorldKeepsPlaced(cfg: Config, s: State, move: WorldMove)
    requires Placed(cfg, s) && Possible(cfg, s, InWorld(move))
    ensures Placed(cfg, WorldStep(cfg, s, move))
  {
    match move
    case PageAppears(id) => PageAppearsKeepsPlaced(cfg, s, id);
    case UserOpens(id, url) => PagesKeepPlaced(cfg, s, s.pages[id := url]);
    case UserNavigates(id, url) => PagesKeepPlaced(cfg, s, s.pages[id := url]);
    case UserCloses(id) => PagesKeepPlaced(cfg, s, s.pages - {id});
  }

  /** A close command naming the run's page. */
  lemma CloseKeepsPlaced(cfg: Config, s: State, id: string, effective: bool)
    requires Placed(cfg, s) && s.born == Some(id)
    ensures Placed(cfg, s.(closeLog := s.closeLog + {id}, pages := if effective then s.pages - {id} else s.pages))
  {
    var s' := s.(closeLog := s.closeLog + {id});
    assert Placed(cfg, s') by {
      forall i | 0 <= i < |s.recoverers| ensures RecovererPlaced(s', s.recoverers[i]) {
        assert RecovererPlaced(s, s.recoverers[i]);
      }
    }
    PagesKeepPlaced(cfg, s', if effective then s.pages - {id} else s.pages);
  }

  lemma CleanKeepsPlaced(cfg: Config, s: State, c: Cleaner, move: CleanMove)
    requires Placed(cfg, s) && CleanerPlaced(s, c)
    ensures
      var (s', c', report) := Clean(cfg, s, c, move);
      && Placed(cfg, s') && CleanerPlaced(s', c')
      && s'.owner == s.owner && s'.recoverers == s.recoverers && s'.born == s.born
      && (report.Some? && report.value.0 ==> c'.rec.targetID !in s'.pages)
  {
    match (c.stage, move)
    case (SavingPending, SavePending(now, fault)) => SaveKeepsPlaced(cfg, s, c.rec.(updatedAt := now), fault);
    case (SavingResult(_, _), SaveResult(now, fault)) => SaveKeepsPlaced(cfg, s, c.rec.(updatedAt := now), fault);
    case (Closing(_), SendClose(effective)) => CloseKeepsPlaced(cfg, s, c.rec.targetID, effective);
    case _ =>
  }

  /** Handing the owner a new state is fine as long as that state is itself placed. */
  lemma OwnerKeepsPlaced(cfg: Config, s: State, next: Owner)
    requires Placed(cfg, s) && s.durable.Some?
    requires OwnerPlaced(s.(owner := next))
    requires next.Acquiring? && next.stage == Sending ==> JournalPointsToMarker(s)
    ensures Placed(cfg, s.(owner := next))
  {
    var s' := s.(owner := next);
    forall i | 0 <= i < |s.recoverers| ensures RecovererPlaced(s', s.recoverers[i]) {
      assert RecovererPlaced(s, s.recoverers[i]);
    }
  }

  lemma OwnerSaveKeepsPlaced(cfg: Config, s: State, rec: Record, fault: Fault, next: Owner)
    requires Placed(cfg, s) && s.durable.Some?
    requires Names(s, rec) && ClosedIsTrue(s, rec)
    requires OwnerPlaced(Save(cfg, s, rec, fault).0.(owner := next)) && !next.Acquiring?
    ensures Placed(cfg, Save(cfg, s, rec, fault).0.(owner := next))
  {
    SaveKeepsPlaced(cfg, s, rec, fault);
    OwnerKeepsPlaced(cfg, Save(cfg, s, rec, fault).0, next);
  }

  lemma ProposalKeepsTarget(rules: TextRules, m: Record, closed: bool, op: LeaseOp)
    ensures
      var offer := Propose(rules, m, closed, op);
      offer.Some? ==>
        offer.value.targetID == m.targetID && offer.value.phase != ActionPending && offer.value.phase != Closed
  {
  }

  lemma HoldingSaveKeepsPlaced(cfg: Config, s: State, rec: Record, closed: bool, fault: Fault)
    requires Placed(cfg, s) && s.durable.Some?
    requires Names(s, rec) && rec.phase != ActionPending && rec.phase != Closed
    ensures Placed(cfg, Save(cfg, s, rec, fault).0)
    ensures Placed(cfg, Save(cfg, s, rec, fault).0.(owner := Holding(rec, closed)))
  {
    SaveKeepsPlaced(cfg, s, rec, fault);
    OwnerKeepsPlaced(cfg, Save(cfg, s, rec, fault).0, Holding(rec, closed));
  }

  lemma CallKeepsPlaced(cfg: Config, s: State, m: Record, closed: bool, op: LeaseOp, now: int, fault: Fault)
    requires Placed(cfg, s) && s.owner == Holding(m, closed)
    ensures Placed(cfg, DoCall(cfg, s, m, closed, op, now, fault))
  {
    var offer := Propose(cfg.rules, m, closed, op);
    if offer.Some? {
      ProposalKeepsTarget(cfg.rules, m, closed, op);
      HoldingSaveKeepsPlaced(cfg, s, offer.value.(updatedAt := now), closed, fault);
    }
  }

  lemma BeginDispatchKeepsPlaced(cfg: Config, s: State, m: Record, now: int, fault: Fault)
    requires Placed(cfg, s) && s.owner == Holding(m, false)
    ensures Placed(cfg, DoBeginDispatch(cfg, s, m, now, fault))
  {
    var pending := PendingRecord(m, now);
    var (s1, ok) := Save(cfg, s, pending, fault);
    if ok {
      OwnerSaveKeepsPlaced(cfg, s, pending, fault, Dispatching(pending));
      PlacedIgnoresCounts(cfg, s1.(owner := Dispatching(pending)), DoBeginDispatch(cfg, s, m, now, fault));
    } else {
      SaveKeepsPlaced(cfg, s, pending, fault);
    }
  }

  lemma ReturnKeepsPlaced(cfg: Config, s: State, m: Record, o: Outcome, presses: nat)
    requires Placed(cfg, s) && s.owner == Dispatching(m)
    ensures Placed(cfg, DoDispatcherReturns(s, m, o, presses))
  {
    OwnerKeepsPlaced(cfg, s, Settling(m, Classified(o)));
    PlacedIgnoresCounts(cfg, s.(owner := Settling(m, Classified(o))), DoDispatcherReturns(s, m, o, presses));
  }

  lemma ObservedKeepsTarget(cfg: Config, m: Record, o: Outcome, now: int)
    requires ValidOutcome(o)
    ensures
      var observed := ObservedRecord(cfg, m, o, now);
      observed.targetID == m.targetID && observed.phase != ActionPending && observed.phase != Closed
  {
  }

  lemma SettleKeepsPlaced(cfg: Config, s: State, m: Record, o: Outcome, now: int, fault: Fault)
    requires Placed(cfg, s) && s.owner == Settling(m, o)
    ensures Placed(cfg, DoSettleDispatch(cfg, s, m, o, now, fault))
  {
    ObservedKeepsTarget(cfg, m, o, now);
    HoldingSaveKeepsPlaced(cfg, s, ObservedRecord(cfg, m, o, now), false, fault);
  }

  lemma BeginCloseKeepsPlaced(cfg: Config, s: State, m: Record)
    requires Placed(cfg, s) && s.owner == Holding(m, false)
    ensures Placed(cfg, s.(owner := Cleaning(StartCleaning(m, LeaseClose))))
  {
    OwnerKeepsPlaced(cfg, s, Cleaning(StartCleaning(m, LeaseClose)));
  }

  lemma LeaseKeepsPlaced(cfg: Config, s: State, move: LeaseMove)
    requires Placed(cfg, s)
    ensures Placed(cfg, LeaseStep(cfg, s, move))
  {
    match move
    case Call(op, now, fault) =>
      if s.owner.Holding? {
        CallKeepsPlaced(cfg, s, s.owner.rec, s.owner.closed, op, now, fault);
      }
    case BeginDispatch(now, fault) =>
      if s.owner.Holding? && MayDispatch(cfg, s.owner.rec, s.owner.closed) {
        BeginDispatchKeepsPlaced(cfg, s, s.owner.rec, now, fault);
      }
    case DispatcherReturns(o, presses) =>
      if s.owner.Dispatching? {
        ReturnKeepsPlaced(cfg, s, s.owner.rec, o, presses);
      }
    case SettleDispatch(now, fault) =>
      if s.owner.Settling? {
        SettleKeepsPlaced(cfg, s, s.owner.rec, s.owner.outcome, now, fault);
      }
    case BeginClose =>
      if s.owner.Holding? && !s.owner.closed {
        BeginCloseKeepsPlaced(cfg, s, s.owner.rec);
      }
  }

  lemma PlacedIgnoresCounts(cfg: Config, s: State, t: State)
    requires Placed(cfg, s) && t == s.(calls := t.calls, raw := t.raw)
    ensures Placed(cfg, t)
  {
    forall i | 0 <= i < |s.recoverers| ensures RecovererPlaced(t, s.recoverers[i]) {
      assert RecovererPlaced(s, s.recoverers[i]);
    }
  }

  // ---------------------------------------------------------------- Acquire

  /** Before the create call is sent nothing can be lost, whatever Acquire saves. */
  lemma EarlySaveKeepsPlaced(cfg: Config, s: State, rec: Record, fault: Fault, next: Owner)
    requires Placed(cfg, s) && s.owner.Acquiring? && (s.owner.stage == CheckingBudget || s.owner.stage == TakingLock)
    requires rec.targetID == ""
    requires rec.phase == BudgetChecked || rec.phase == TargetCreatePending || rec.phase == Failed
    requires
      || next == Absent
      || (next == Acquiring(TakingLock, rec) && rec.phase == BudgetChecked)
      || (next == Acquiring(Sending, rec) && rec.phase == TargetCreatePending && Save(cfg, s, rec, fault).1)
    ensures Placed(cfg, Save(cfg, s, rec, fault).0.(owner := next))
  {
    SaveKeepsPlaced(cfg, s, rec, fault);
    OwnerKeepsPlaced(cfg, Save(cfg, s, rec, fault).0, next);
  }

  lemma EarlyKeepsPlaced(cfg: Config, s: State, stage: AcquireStage, rec: Record, move: AcquireMove)
    requires Placed(cfg, s) && s.owner == Acquiring(stage, rec)
    requires (stage == CheckingBudget && move.CheckBudget?) || (stage == TakingLock && move.TakeLock?)
    ensures Placed(cfg, AcquireStep(cfg, s, stage, rec, move))
  {
    match move
    case CheckBudget(verdict, now, fault) =>
      var offer := match verdict
                   case WithinBudget => rec.(phase := BudgetChecked, updatedAt := now)
                   case BudgetUnknown => FailedRecord(rec, BudgetCheckFailed, now)
                   case OverBudget => FailedRecord(rec, BudgetExceeded, now);
      EarlySaveKeepsPlaced(cfg, s, offer, fault, AcquireStep(cfg, s, stage, rec, move).owner);
    case TakeLock(locked, now, fault) =>
      var offer := if locked then rec.(phase := TargetCreatePending, updatedAt := now)
                   else FailedRecord(rec, InputLockUnavailable, now);
      EarlySaveKeepsPlaced(cfg, s, offer, fault, AcquireStep(cfg, s, stage, rec, move).owner);
    case _ =>
  }

  lemma SendCreateKeepsPlaced(cfg: Config, s: State, rec: Record)
    requires Placed(cfg, s) && s.owner == Acquiring(Sending, rec)
    ensures Placed(cfg, s.(owner := Acquiring(AwaitingCreate, rec), requested := true))
  {
    var s' := s.(owner := Acquiring(AwaitingCreate, rec), requested := true);
    forall i | 0 <= i < |s.recoverers| ensures RecovererPlaced(s', s.recoverers[i]) {
      assert RecovererPlaced(s, s.recoverers[i]);
    }
  }

  /** A search that ends empty-handed proves that no unrecorded page is open. */
  lemma MissKeepsPlaced(cfg: Config, s: State)
    requires Placed(cfg, s) && TrueSearch(cfg, s, NothingFound)
    ensures Placed(cfg, s.(missed := true))
  {
    var s' := s.(missed := true);
    forall i | 0 <= i < |s.recoverers| ensures RecovererPlaced(s', s.recoverers[i]) {
      assert RecovererPlaced(s, s.recoverers[i]);
    }
  }

  lemma OwnerSearchesKeepsPlaced(cfg: Config, s: State, rec: Record, result: Search)
    requires Placed(cfg, s) && s.owner == Acquiring(Reconciling, rec) && TrueSearch(cfg, s, result)
    ensures Placed(cfg, DoOwnerSearches(cfg, s, rec, result))
  {
    var next := DoOwnerSearches(cfg, s, rec, result).owner;
    if result == NothingFound {
      MissKeepsPlaced(cfg, s);
      OwnerKeepsPlaced(cfg, s.(missed := true), next);
    } else {
      OwnerKeepsPlaced(cfg, s, next);
    }
  }

  lemma SaveFailureKeepsPlaced(cfg: Config, s: State, rec: Record, now: int, fault: Fault)
    requires Placed(cfg, s) && s.owner == Acquiring(SavingFailure, rec)
    ensures Placed(cfg, Save(cfg, s, rec.(updatedAt := now), fault).0.(owner := Absent))
  {
    SaveKeepsPlaced(cfg, s, rec.(updatedAt := now), fault);
    OwnerKeepsPlaced(cfg, Save(cfg, s, rec.(updatedAt := now), fault).0, Absent);
  }

  lemma NavigatedKeepsPlaced(cfg: Config, s: State, rec: Record, ok: bool)
    requires Placed(cfg, s) && s.owner == Acquiring(Navigating, rec)
    ensures Placed(cfg, DoNavigateAnswers(s, rec, ok, None))
  {
    if ok {
      OwnerKeepsPlaced(cfg, s, Holding(rec, false));
    } else {
      OwnerKeepsPlaced(cfg, s, Cleaning(StartCleaning(rec.(lastError := NavigationFailed), Settle)));
    }
  }

  lemma NavigateKeepsPlaced(cfg: Config, s: State, rec: Record, ok: bool, landed: Option<string>)
    requires Placed(cfg, s) && s.owner == Acquiring(Navigating, rec)
    ensures Placed(cfg, DoNavigateAnswers(s, rec, ok, landed))
  {
    var s1 := s.(pages := DoNavigateAnswers(s, rec, ok, landed).pages);
    if landed.Some? && rec.targetID in s.pages {
      PagesKeepPlaced(cfg, s, s.pages[rec.targetID := landed.value]);
    }
    NavigatedKeepsPlaced(cfg, s1, rec, ok);
  }

  lemma TargetSaveKeepsPlaced(cfg: Config, s: State, rec: Record, fault: Fault, next: Owner)
    requires Placed(cfg, s) && s.owner.Acquiring? && Names(s, rec) && rec.phase != Closed
    requires next.Acquiring? && next.rec == rec
    requires
      || (next.stage.SavingOwned? && rec.phase == TargetOwned)
      || next.stage == ClosingUnrecorded
      || (next.stage == Attaching && rec.phase == TargetOwned && Save(cfg, s, rec, fault).1)
      || (next.stage == Navigating && rec.phase == Attached && Save(cfg, s, rec, fault).1)
    ensures Placed(cfg, Save(cfg, s, rec, fault).0.(owner := next))
  {
    SaveKeepsPlaced(cfg, s, rec, fault);
    OwnerKeepsPlaced(cfg, Save(cfg, s, rec, fault).0, next);
  }

  lemma CreateAnswersKeepsPlaced(cfg: Config, s: State, rec: Record, ok: bool)
    requires Placed(cfg, s) && s.owner == Acquiring(AwaitingCreate, rec) && (ok ==> s.born.Some?)
    ensures Placed(cfg, DoCreateAnswers(s, rec, ok))
  {
    OwnerKeepsPlaced(cfg, s, DoCreateAnswers(s, rec, ok).owner);
  }

  lemma PreserveAnswersKeepsPlaced(cfg: Config, s: State, rec: Record, ok: bool)
    requires Placed(cfg, s) && s.owner == Acquiring(Preserving, rec)
    ensures Placed(cfg, DoPreserveAnswers(s, rec, ok))
  {
    OwnerKeepsPlaced(cfg, s, DoPreserveAnswers(s, rec, ok).owner);
  }

  lemma AttachAnswersKeepsPlaced(cfg: Config, s: State, rec: Record, session: string)
    requires Placed(cfg, s) && s.owner == Acquiring(Attaching, rec)
    ensures Placed(cfg, DoAttachAnswers(s, rec, session))
  {
    if session != "" {
      OwnerKeepsPlaced(cfg, s, Acquiring(SavingAttached, rec.(sessionID := session, phase := Attached)));
    } else {
      OwnerKeepsPlaced(cfg, s, Cleaning(StartCleaning(rec.(lastError := AttachFailed), AfterAttachFailure)));
    }
  }

  lemma OwnedKeepsPlaced(cfg: Config, s: State, stage: AcquireStage, rec: Record, move: AcquireMove)
    requires Placed(cfg, s) && s.owner == Acquiring(stage, rec)
    requires (stage.SavingOwned? && move.SaveOwned?) || (stage == SavingAttached && move.SaveAttached?)
    ensures Placed(cfg, AcquireStep(cfg, s, stage, rec, move))
  {
    TargetSaveKeepsPlaced(cfg, s, rec.(updatedAt := move.now), move.fault, AcquireStep(cfg, s, stage, rec, move).owner);
  }

  predicate HasPage(stage: AcquireStage) {
    stage == Preserving || stage.SavingOwned? || stage == Attaching || stage == SavingAttached
    || stage == Navigating || stage == ClosingUnrecorded
  }

  lemma WithoutPageKeepsPlaced(cfg: Config, s: State, stage: AcquireStage, rec: Record, move: AcquireMove)
    requires Placed(cfg, s) && s.owner == Acquiring(stage, rec) && Possible(cfg, s, InAcquire(move)) && !HasPage(stage)
    ensures Placed(cfg, AcquireStep(cfg, s, stage, rec, move))
  {
    match stage
    case CheckingBudget =>
      if move.CheckBudget? {
        EarlyKeepsPlaced(cfg, s, stage, rec, move);
      }
    case TakingLock =>
      if move.TakeLock? {
        EarlyKeepsPlaced(cfg, s, stage, rec, move);
      }
    case Sending =>
      if move.SendCreate? {
        SendCreateKeepsPlaced(cfg, s, rec);
      }
    case AwaitingCreate =>
      if move.CreateAnswers? {
        CreateAnswersKeepsPlaced(cfg, s, rec, move.ok);
      }
    case Reconciling =>
      if move.OwnerSearches? {
        OwnerSearchesKeepsPlaced(cfg, s, rec, move.result);
      }
    case SavingFailure =>
      if move.SaveFailure? {
        SaveFailureKeepsPlaced(cfg, s, rec, move.now, move.fault);
      }
  }

  lemma WithPageKeepsPlaced(cfg: Config, s: State, stage: AcquireStage, rec: Record, move: AcquireMove)
    requires Placed(cfg, s) && s.owner == Acquiring(stage, rec) && Possible(cfg, s, InAcquire(move)) && HasPage(stage)
    ensures Placed(cfg, AcquireStep(cfg, s, stage, rec, move))
  {
    match stage
    case Preserving =>
      if move.PreserveAnswers? {
        PreserveAnswersKeepsPlaced(cfg, s, rec, move.ok);
      }
    case SavingOwned(_) =>
      if move.SaveOwned? {
        OwnedKeepsPlaced(cfg, s, stage, rec, move);
      }
    case Attaching =>
      if move.AttachAnswers? {
        AttachAnswersKeepsPlaced(cfg, s, rec, move.session);
      }
    case SavingAttached =>
      if move.SaveAttached? {
        OwnedKeepsPlaced(cfg, s, stage, rec, move);
      }
    case Navigating =>
      if move.NavigateAnswers? {
        NavigateKeepsPlaced(cfg, s, rec, move.ok, move.landed);
      }
    case ClosingUnrecorded =>
      if move.CloseUnrecorded? {
        CloseUnrecordedKeepsPlaced(cfg, s, rec, move.move);
      }
  }

  lemma AcquireKeepsPlaced(cfg: Config, s: State, stage: AcquireStage, rec: Record, move: AcquireMove)
    requires Placed(cfg, s) && s.owner == Acquiring(stage, rec) && Possible(cfg, s, InAcquire(move))
    ensures Placed(cfg, AcquireStep(cfg, s, stage, rec, move))
  {
    if HasPage(stage) {
      WithPageKeepsPlaced(cfg, s, stage, rec, move);
    } else {
      WithoutPageKeepsPlaced(cfg, s, stage, rec, move);
    }
  }

  lemma CloseUnrecordedKeepsPlaced(cfg: Config, s: State, rec: Record, move: CleanMove)
    requires Placed(cfg, s) && s.owner == Acquiring(ClosingUnrecorded, rec)
    ensures Placed(cfg, DoCloseUnrecorded(s, rec, move))
  {
    match move
    case SendClose(effective) => CloseKeepsPlaced(cfg, s, rec.targetID, effective);
    case SeeGone(gone) => OwnerKeepsPlaced(cfg, s, Absent);
    case _ =>
  }

  // ---------------------------------------------------------------- Recover

  /** What a recoverer says is about the pages and the searches alone. */
  lemma SameViewKeepsRecoverer(s: State, t: State, p: Recoverer)
    requires RecovererPlaced(s, p)
    requires s.born == t.born && s.pages == t.pages && s.missed == t.missed
    ensures RecovererPlaced(t, p)
  {
  }

  lemma OtherParts(cfg: Config, s: State, recoverers: seq<Recoverer>)
    requires PagesPlaced(cfg, s) && JournalPlaced(cfg, s) && NotForgotten(s) && OwnerPlaced(s)
    ensures
      var t := s.(recoverers := recoverers);
      PagesPlaced(cfg, t) && JournalPlaced(cfg, t) && NotForgotten(t) && OwnerPlaced(t)
  {
  }

  lemma RecoverersKeepPlaced(cfg: Config, s: State, recoverers: seq<Recoverer>)
    requires Placed(cfg, s)
    requires forall k :: 0 <= k < |recoverers| ==> RecovererPlaced(s, recoverers[k])
    ensures Placed(cfg, s.(recoverers := recoverers))
  {
    OtherParts(cfg, s, recoverers);
    forall k | 0 <= k < |recoverers| ensures RecovererPlaced(s.(recoverers := recoverers), recoverers[k]) {
      SameViewKeepsRecoverer(s, s.(recoverers := recoverers), recoverers[k]);
    }
  }

  lemma CopyKeepsPlaced(cfg: Config, s: State, i: nat, next: Recoverer)
    requires Placed(cfg, s) && i < |s.recoverers| && RecovererPlaced(s, next)
    ensures Placed(cfg, s.(recoverers := s.recoverers[i := next]))
  {
    RecoverersKeepPlaced(cfg, s, s.recoverers[i := next]);
  }

  lemma RecoverKeepsPlaced(cfg: Config, s: State, readable: bool, now: int)
    requires Placed(cfg, s)
    ensures Placed(cfg, DoRecover(cfg, s, readable, now))
  {
    if LoadCell(cfg.rules, s.durable, readable).Some? {
      var first := StartRecover(cfg, s.durable.value, now);
      assert RecovererPlaced(s, first);
      RecoverersKeepPlaced(cfg, s, s.recoverers + [first]);
    }
  }

  lemma SearchesKeepsPlaced(cfg: Config, s: State, i: nat, rec: Record, result: Search, now: int)
    requires Placed(cfg, s) && i < |s.recoverers| && s.recoverers[i] == Searching(rec) && TrueSearch(cfg, s, result)
    ensures Placed(cfg, DoRecovererSearches(cfg, s, i, rec, result, now))
  {
    assert RecovererPlaced(s, s.recoverers[i]);
    var next := DoRecovererSearches(cfg, s, i, rec, result, now).recoverers[i];
    if result == NothingFound {
      MissKeepsPlaced(cfg, s);
      CopyKeepsPlaced(cfg, s.(missed := true), i, next);
    } else {
      CopyKeepsPlaced(cfg, s, i, next);
    }
  }

  lemma CopySaveKeepsPlaced(cfg: Config, s: State, i: nat, rec: Record, fault: Fault, next: Recoverer)
    requires Placed(cfg, s) && i < |s.recoverers| && RecovererPlaced(s, next)
    requires rec.targetID != "" ==> Names(s, rec)
    requires ClosedIsTrue(s, rec)
    requires rec.targetID == "" ==> MayHaveMarkerTarget(rec) || (s.missed && GivesUp(rec))
    ensures Placed(cfg, Save(cfg, s, rec, fault).0.(recoverers := s.recoverers[i := next]))
  {
    SaveKeepsPlaced(cfg, s, rec, fault);
    var s1 := Save(cfg, s, rec, fault).0;
    assert RecovererPlaced(s1, next);
    CopyKeepsPlaced(cfg, s1, i, next);
  }

  lemma RecovererCleansKeepsPlaced(cfg: Config, s: State, i: nat, c: Cleaner, evidence: bool, move: CleanMove)
    requires Placed(cfg, s) && i < |s.recoverers| && s.recoverers[i] == Clearing(c, evidence)
    ensures Placed(cfg, DoRecovererCleans(cfg, s, i, c, evidence, move))
  {
    assert RecovererPlaced(s, s.recoverers[i]);
    CleanKeepsPlaced(cfg, s, c, move);
    CopyKeepsPlaced(cfg, Clean(cfg, s, c, move).0, i, DoRecovererCleans(cfg, s, i, c, evidence, move).recoverers[i]);
  }

  lemma RecovererKeepsPlaced(cfg: Config, s: State, i: nat, move: RecoverMove)
    requires Placed(cfg, s) && i < |s.recoverers| && Possible(cfg, s, InRecover(i, move))
    ensures Placed(cfg, RecoverStep(cfg, s, i, move))
  {
    var p := s.recoverers[i];
    assert RecovererPlaced(s, p);
    match move
    case Searches(result, now) =>
      if p.Searching? {
        SearchesKeepsPlaced(cfg, s, i, p.rec, result, now);
      }
    case SaveVerdict(now, fault) =>
      if p.SavingVerdict? {
        var next := DoSaveVerdict(cfg, s, i, p.rec, p.answer, now, fault).recoverers[i];
        CopySaveKeepsPlaced(cfg, s, i, p.rec.(updatedAt := now), fault, next);
      }
    case SaveEvidence(now, fault) =>
      if p.SavingEvidence? {
        var next := DoSaveEvidence(cfg, s, i, p.rec, now, fault).recoverers[i];
        CopySaveKeepsPlaced(cfg, s, i, p.rec.(updatedAt := now), fault, next);
      }
    case Cleans(m) =>
      if p.Clearing? {
        RecovererCleansKeepsPlaced(cfg, s, i, p.cleaner, p.evidenceSaved, m);
      }
  }

  // ------------------------------------------------------------- every step

  lemma OwnerCleansKeepsPlaced(cfg: Config, s: State, c: Cleaner, move: CleanMove)
    requires Placed(cfg, s) && s.owner == Cleaning(c)
    ensures Placed(cfg, DoOwnerCleans(cfg, s, c, move))
  {
    CleanKeepsPlaced(cfg, s, c, move);
    OwnerKeepsPlaced(cfg, Clean(cfg, s, c, move).0, DoOwnerCleans(cfg, s, c, move).owner);
  }

  lemma InitiallyPlaced(cfg: Config)
    ensures Placed(cfg, Initial)
  {
  }

  lemma StepKeepsPlaced(cfg: Config, s: State, a: Action)
    requires Placed(cfg, s)
    ensures Placed(cfg, Step(cfg, s, a))
  {
    if Possible(cfg, s, a) {
      match a
      case Begin(q, now, fault) => BeginKeepsPlaced(cfg, s, q, now, fault);
      case InAcquire(move) =>
        if s.owner.Acquiring? {
          AcquireKeepsPlaced(cfg, s, s.owner.stage, s.owner.rec, move);
        }
      case InLease(move) => LeaseKeepsPlaced(cfg, s, move);
      case OwnerCleans(move) =>
        if s.owner.Cleaning? {
          OwnerCleansKeepsPlaced(cfg, s, s.owner.cleaner, move);
        }
      case OwnerCrashes =>
        if s.durable.Some? {
          OwnerKeepsPlaced(cfg, s, Absent);
        }
      case Recover(readable, now) => RecoverKeepsPlaced(cfg, s, readable, now);
      case InRecover(i, move) =>
        if i < |s.recoverers| {
          RecovererKeepsPlaced(cfg, s, i, move);
        }
      case InWorld(move) => WorldKeepsPlaced(cfg, s, move);
    }
  }

  lemma {:induction false} RunKeepsPlaced(cfg: Config, s: State, acts: seq<Action>)
    requires Placed(cfg, s)
    ensures Placed(cfg, Run(cfg, s, acts))
    decreases |acts|
  {
    if acts != [] {
      StepKeepsPlaced(cfg, s, acts[0]);
      RunKeepsPlaced(cfg, Step(cfg, s, acts[0]), acts[1..]);
    }
  }

  // ------------------------------------------------------- an answer of nothing

  /** The journal names a page that is open. */
  predicate NamesOpenPage(s: State) {
    s.durable.Some? && s.durable.value.targetID != "" && s.durable.value.targetID in s.pages
  }

  /** Why a Recover may answer that nothing needs cleaning: a search found nothing, or the journal
      speaks of no page. Without an error, the journal it leaves speaks of none. */
  predicate SeesNothing(s: State, clean: bool) {
    && (s.missed || (s.durable.Some? && s.durable.value.targetID == "" && !MayHaveMarkerTarget(s.durable.value)))
    && (clean ==> s.durable.Some? && s.durable.value.targetID == "")
  }

  lemma NothingSeenExactly(cfg: Config, s: State, clean: bool)
    requires Placed(cfg, s) && SeesNothing(s, clean) && !s.late
    ensures BornOpen(s) <==> !clean && NamesOpenPage(s)
    ensures BornOpen(s) ==> s.durable.value.targetID == s.born.value
  {
  }
}
