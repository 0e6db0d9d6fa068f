/** One browser run as a state machine whose steps are the code sections of
    internal/browserflow/engine.go between two points where another process can act.

    A state holds the durable record, the one process that called Acquire, any number of Recover
    calls with their own copies of the record, and the open browser pages. An action names the next
    section together with everything the outside world decides in it, so a sequence of actions is
    one interleaving, with every crash (a process that takes no further step) included. */
module Protocol {
  import opened Basics
  import opened Records
  import opened Journal

  datatype Config = Config(rules: TextRules, maxAttempts: nat, cooldown: int, marker: string)

  datatype Request = Request(runID: string, provider: string, operation: string, actionName: string, initialURL: string)

  datatype Outcome = Outcome(dispatch: Dispatch, rawAttempted: bool)

  /** The record-only Lease methods. */
  datatype LeaseOp =
    | BindInputFingerprint(fingerprint: string)
    | MarkPrepared
    | Acknowledge(conversation: string)
    | ConfirmPostcondition(proof: string)
    | BeginNextAction(name: string)
    | MarkTerminal
    | MarkIncomplete

  /** Where a cleanup of the exact target stands: Go's settleExactCleanup, Lease.Close, and the
      attach-failure path of Acquire differ only in the style. */
  datatype CleanStage = SavingPending | Closing(pendingSaved: bool) | SavingResult(gone: bool, pendingSaved: bool)
  datatype CleanStyle = Settle | LeaseClose | AfterAttachFailure
  datatype Cleaner = Cleaner(rec: Record, stage: CleanStage, style: CleanStyle)

  datatype AcquireStage =
    | CheckingBudget
    | TakingLock
    | Sending
    | AwaitingCreate
    | Reconciling
    | SavingFailure
    | Preserving
    | SavingOwned(retry: bool)
    | Attaching
    | SavingAttached
    | Navigating
    | ClosingUnrecorded

  /** The process that called Acquire: before, during, and with the lease it was given. */
  datatype Owner =
    | Absent
    | Acquiring(stage: AcquireStage, rec: Record)
    | Holding(rec: Record, closed: bool)
    | Dispatching(rec: Record)
    | Settling(rec: Record, outcome: Outcome)
    | Cleaning(cleaner: Cleaner)

  datatype Recoverer =
    | Searching(rec: Record)
    | SavingVerdict(rec: Record, answer: CleanupState)
    | SavingEvidence(rec: Record)
    | Clearing(cleaner: Cleaner, evidenceSaved: bool)
    | Answered(answer: CleanupState, clean: bool)

  datatype Search = Found(id: string) | NothingFound | SearchFailed

  datatype BudgetVerdict = WithinBudget | BudgetUnknown | OverBudget

  /** `born` is the page the run's create call made; `requested` says the call is still in flight.
      The last five fields only record history: whether a marker search has given up, whether the
      page appeared after that, one entry per dispatcher call and per raw input (by action slot),
      and the ids named by close commands. */
  datatype State = State(
    durable: Option<Record>,
    owner: Owner,
    recoverers: seq<Recoverer>,
    pages: map<string, string>,
    born: Option<string>,
    requested: bool,
    missed: bool,
    late: bool,
    calls: multiset<nat>,
    raw: multiset<nat>,
    closeLog: set<string>)

  const Initial := State(None, Absent, [], map[], None, false, false, false, multiset{}, multiset{}, {})

  datatype CleanMove =
    | SavePending(now: int, fault: Fault)
    | SendClose(effective: bool)
    | SeeGone(gone: bool)
    | SaveResult(now: int, fault: Fault)

  datatype AcquireMove =
    | CheckBudget(verdict: BudgetVerdict, now: int, fault: Fault)
    | TakeLock(locked: bool, now: int, fault: Fault)
    | SendCreate
    | CreateAnswers(ok: bool)
    | OwnerSearches(result: Search)
    | SaveFailure(now: int, fault: Fault)
    | PreserveAnswers(ok: bool)
    | SaveOwned(now: int, fault: Fault)
    | AttachAnswers(session: string)
    | SaveAttached(now: int, fault: Fault)
    | NavigateAnswers(ok: bool, landed: Option<string>)
    | CloseUnrecorded(move: CleanMove)

  datatype LeaseMove =
    | Call(op: LeaseOp, now: int, fault: Fault)
    | BeginDispatch(now: int, fault: Fault)
    | DispatcherReturns(outcome: Outcome, presses: nat)
    | SettleDispatch(now: int, fault: Fault)
    | BeginClose

  datatype RecoverMove =
    | Searches(result: Search, now: int)
    | SaveVerdict(now: int, fault: Fault)
    | SaveEvidence(now: int, fault: Fault)
    | Cleans(move: CleanMove)

  datatype WorldMove =
    | PageAppears(id: string)
    | UserOpens(id: string, url: string)
    | UserNavigates(id: string, url: string)
    | UserCloses(id: string)

  datatype Action =
    | Begin(request: Request, now: int, fault: Fault)
    | InAcquire(acquire: AcquireMove)
    | InLease(lease: LeaseMove)
    | OwnerCleans(clean: CleanMove)
    | OwnerCrashes
    | Recover(readable: bool, now: int)
    | InRecover(index: nat, recover: RecoverMove)
    | InWorld(world: WorldMove)

  // ---------------------------------------------------------------- Acquire

  predicate ValidRequest(rules: TextRules, q: Request) {
    && q.runID in rules.identity
    && q.provider in rules.identity
    && q.operation in rules.identity
    && (q.actionName != "" ==> q.actionName in rules.identity)
    && q.initialURL != ""
  }

  function PlannedRecord(q: Request, now: int): Record {
    Record(RECOVERY_SCHEMA, q.runID, q.provider, q.operation, Planned, q.actionName, Undispatched, 0, 0, false,
           "", "", "", "", "", [], CleanupNotRequired, None, NoError, now, now)
  }

  function FailedRecord(r: Record, class_: ErrorClass, now: int): Record {
    r.(phase := Failed, lastError := class_, updatedAt := now)
  }

  /** Go's engine.save: stamp the copy, then try to replace the durable record. */
  function Save(cfg: Config, s: State, rec: Record, fault: Fault): (State, bool) {
    var (cell, ok) := SaveCell(cfg.rules, s.durable, rec, fault);
    (s.(durable := cell), ok)
  }

  function DoBegin(cfg: Config, s: State, q: Request, now: int, fault: Fault): State {
    if !ValidRequest(cfg.rules, q) then s
    else
      var planned := PlannedRecord(q, now);
      var (cell, ok) := CreateCell(cfg.rules, s.durable, planned, fault);
      s.(durable := cell, owner := if ok then Acquiring(CheckingBudget, planned) else s.owner)
  }

  function DoCheckBudget(cfg: Config, s: State, rec: Record, verdict: BudgetVerdict, now: int, fault: Fault): State {
    match verdict
    case WithinBudget =>
      var next := rec.(phase := BudgetChecked, updatedAt := now);
      var (s', ok) := Save(cfg, s, next, fault);
      s'.(owner := if ok then Acquiring(TakingLock, next) else Absent)
    case BudgetUnknown =>
      Save(cfg, s, FailedRecord(rec, BudgetCheckFailed, now), fault).0.(owner := Absent)
    case OverBudget =>
      Save(cfg, s, FailedRecord(rec, BudgetExceeded, now), fault).0.(owner := Absent)
  }

  function DoTakeLock(cfg: Config, s: State, rec: Record, locked: bool, now: int, fault: Fault): State {
    if locked then
      var next := rec.(phase := TargetCreatePending, updatedAt := now);
      var (s', ok) := Save(cfg, s, next, fault);
      s'.(owner := if ok then Acquiring(Sending, next) else Absent)
    else
      Save(cfg, s, FailedRecord(rec, InputLockUnavailable, now), fault).0.(owner := Absent)
  }

  /** A marker search returns the only page at the marker address, or that there is none. */
  predicate TrueSearch(cfg: Config, s: State, result: Search) {
    match result
    case Found(id) =>
      && id in s.pages && s.pages[id] == cfg.marker
      && (forall other | other in s.pages :: s.pages[other] == cfg.marker ==> other == id)
    case NothingFound => forall id | id in s.pages :: s.pages[id] != cfg.marker
    case SearchFailed => true
  }

  function DoOwnerSearches(cfg: Config, s: State, rec: Record, result: Search): State {
    match result
    case Found(id) =>
      s.(owner := Cleaning(StartCleaning(rec.(targetID := id, lastError := CreateAmbiguous), Settle)))
    case NothingFound =>
      s.(owner := Acquiring(SavingFailure, rec.(phase := Failed, lastError := CreateFailed)), missed := true)
    case SearchFailed =>
      s.(owner := Acquiring(SavingFailure,
                            rec.(phase := Failed, cleanup := CleanupFailed, lastError := ReconciliationFailed)))
  }

  function DoCreateAnswers(s: State, rec: Record, ok: bool): State
    requires ok ==> s.born.Some?
  {
    s.(owner := if ok then Acquiring(Preserving, rec.(targetID := s.born.value)) else Acquiring(Reconciling, rec))
  }

  function DoPreserveAnswers(s: State, rec: Record, ok: bool): State {
    s.(owner := if ok then Acquiring(SavingOwned(false), rec.(cleanup := CleanupAwaited, phase := TargetOwned))
                else Cleaning(StartCleaning(rec, Settle)))
  }

  function DoSaveOwned(cfg: Config, s: State, rec: Record, retry: bool, now: int, fault: Fault): State {
    var next := rec.(updatedAt := now);
    var (s', ok) := Save(cfg, s, next, fault);
    s'.(owner := Acquiring(if ok then Attaching else if retry then ClosingUnrecorded else SavingOwned(true), next))
  }

  function DoAttachAnswers(s: State, rec: Record, session: string): State {
    if session != "" then
      s.(owner := Acquiring(SavingAttached, rec.(sessionID := session, phase := Attached)))
    else
      s.(owner := Cleaning(StartCleaning(rec.(lastError := AttachFailed), AfterAttachFailure)))
  }

  function DoSaveAttached(cfg: Config, s: State, rec: Record, now: int, fault: Fault): State {
    var next := rec.(updatedAt := now);
    var (s', ok) := Save(cfg, s, next, fault);
    s'.(owner := Acquiring(if ok then Navigating else ClosingUnrecorded, next))
  }

  function DoNavigateAnswers(s: State, rec: Record, ok: bool, landed: Option<string>): State {
    var pages := if landed.Some? && rec.targetID in s.pages then s.pages[rec.targetID := landed.value] else s.pages;
    s.(pages := pages,
       owner := if ok then Holding(rec, false)
                else Cleaning(StartCleaning(rec.(lastError := NavigationFailed), Settle)))
  }

  // ---------------------------------------------------------- exact cleanup

  function StartCleaning(rec: Record, style: CleanStyle): Cleaner {
    Cleaner(rec.(phase := CleanupPending, cleanup := CleanupAwaited), SavingPending, style)
  }

  /** The record that reports how the close attempt ended. */
  function Concluded(rec: Record, style: CleanStyle, gone: bool): Record {
    if gone then
      rec.(phase := Closed, cleanup := CleanupClosed,
           lastError := if style == LeaseClose || (style == Settle && rec.dispatch != Unknown) then NoError
                        else rec.lastError)
    else
      rec.(phase := CleanupPending, cleanup := CleanupFailed,
           lastError := if style == AfterAttachFailure then rec.lastError else CleanupUnsettled)
  }

  /** One move of a cleanup, with the report it ends in: the page is gone, and every save worked. */
  function Clean(cfg: Config, s: State, c: Cleaner, move: CleanMove): (State, Cleaner, Option<(bool, bool)>) {
    match move
    case SavePending(now, fault) =>
      if !c.stage.SavingPending? then (s, c, None)
      else
        var rec := c.rec.(updatedAt := now);
        var (s', ok) := Save(cfg, s, rec, fault);
        (s', Cleaner(rec, Closing(ok), c.style), None)
    case SendClose(effective) =>
      if !c.stage.Closing? then (s, c, None)
      else
        (s.(closeLog := s.closeLog + {c.rec.targetID},
            pages := if effective then s.pages - {c.rec.targetID} else s.pages), c, None)
    case SeeGone(gone) =>
      if !c.stage.Closing? || (gone && c.rec.targetID in s.pages) then (s, c, None)
      else
        var rec := Concluded(c.rec, c.style, gone);
        (s, Cleaner(rec, SavingResult(gone, c.stage.pendingSaved), c.style),
         if c.style == AfterAttachFailure && !c.stage.pendingSaved then Some((gone, false)) else None)
    case SaveResult(now, fault) =>
      if !c.stage.SavingResult? then (s, c, None)
      else
        var rec := c.rec.(updatedAt := now);
        var (s', ok) := Save(cfg, s, rec, fault);
        (s', Cleaner(rec, c.stage, c.style), Some((c.stage.gone, ok && c.stage.pendingSaved)))
  }

  function DoOwnerCleans(cfg: Config, s: State, c: Cleaner, move: CleanMove): State {
    var (s', c', report) := Clean(cfg, s, c, move);
    s'.(owner := if report.None? then Cleaning(c')
                 else if c.style == LeaseClose then Holding(c'.rec, report.value.0)
                 else Absent)
  }

  function DoCloseUnrecorded(s: State, rec: Record, move: CleanMove): State {
    match move
    case SendClose(effective) =>
      s.(closeLog := s.closeLog + {rec.targetID},
         pages := if effective then s.pages - {rec.targetID} else s.pages)
    case SeeGone(gone) => if gone && rec.targetID in s.pages then s else s.(owner := Absent)
    case _ => s
  }

  // ------------------------------------------------------------------ Lease

  /** The finished action archived, and a new one in its place. */
  function NextAction(m: Record, name: string): Record {
    m.(completed := m.completed + [Archive(m)], phase := Attached, actionName := name, dispatch := Undispatched,
       attempts := 0, rawInputs := 0, pendingPersisted := false, postcondition := "", retryAt := None,
       lastError := NoError)
  }

  /** The record a Lease method offers to the journal, or None when its own guards refuse. */
  function Propose(rules: TextRules, m: Record, closed: bool, op: LeaseOp): Option<Record> {
    match op
    case BindInputFingerprint(fingerprint) =>
      var next := m.(inputFingerprint := fingerprint);
      if closed || m.phase != Attached || fingerprint == "" || !Valid(rules, next) then None else Some(next)
    case MarkPrepared =>
      if closed || m.phase != Attached then None
      else Some(m.(phase := Prepared, lastError := NoError))
    case Acknowledge(conversation) =>
      if conversation == "" || (m.phase != ActionPerformed && m.phase != ActionUnknown) || conversation !in rules.safe
      then None
      else Some(m.(conversationID := conversation,
                   dispatch := if m.dispatch == Unknown then Performed else m.dispatch,
                   retryAt := None, lastError := NoError, phase := Acknowledged))
    case ConfirmPostcondition(proof) =>
      if proof == "" || (m.phase != ActionPerformed && m.phase != ActionUnknown) || proof !in rules.safe then None
      else Some(m.(dispatch := Performed, phase := ActionPerformed, postcondition := proof,
                   retryAt := None, lastError := NoError))
    case BeginNextAction(name) =>
      if closed || name !in rules.identity || m.actionName == "" || (m.phase != Terminal && m.phase != Incomplete)
      then None else Some(NextAction(m, name))
    case MarkTerminal =>
      if m.phase == Prepared || m.phase == ActionPerformed || m.phase == Acknowledged
      then Some(m.(phase := Terminal)) else None
    case MarkIncomplete =>
      if m.phase == Prepared || m.phase == ActionPerformed || m.phase == Acknowledged || m.phase == ActionUnknown
      then Some(m.(phase := Incomplete)) else None
  }

  function DoCall(cfg: Config, s: State, m: Record, closed: bool, op: LeaseOp, now: int, fault: Fault): State {
    match Propose(cfg.rules, m, closed, op)
    case None => s
    case Some(offer) =>
      var next := offer.(updatedAt := now);
      var (s', ok) := Save(cfg, s, next, fault);
      if ok then s'.(owner := Holding(next, closed)) else s'
  }

  predicate MayDispatch(cfg: Config, m: Record, closed: bool) {
    !closed && m.phase == Prepared && m.rawInputs == 0 && m.attempts < cfg.maxAttempts
  }

  function PendingRecord(m: Record, now: int): Record {
    m.(phase := ActionPending, attempts := m.attempts + 1, pendingPersisted := true, updatedAt := now)
  }

  function DoBeginDispatch(cfg: Config, s: State, m: Record, now: int, fault: Fault): State {
    var pending := PendingRecord(m, now);
    var (s', ok) := Save(cfg, s, pending, fault);
    if ok then s'.(owner := Dispatching(pending), calls := s.calls + multiset{Slot(m)}) else s'
  }

  predicate ValidOutcome(o: Outcome) {
    match o.dispatch
    case NotPerformed => !o.rawAttempted
    case Performed => o.rawAttempted
    case Unknown => o.rawAttempted
    case Undispatched => false
  }

  /** An outcome the dispatcher should not have returned counts as an unknown one. */
  function Classified(o: Outcome): Outcome {
    if ValidOutcome(o) then o else Outcome(Unknown, true)
  }

  /** What a dispatcher must respect: at most one press, and none when it reports not_performed. */
  predicate Honest(o: Outcome, presses: nat) {
    presses <= 1 && (ValidOutcome(o) && o.dispatch == NotPerformed ==> presses == 0)
  }

  function DoDispatcherReturns(s: State, m: Record, o: Outcome, presses: nat): State {
    s.(owner := Settling(m, Classified(o)),
       raw := if presses == 0 then s.raw else s.raw + multiset{Slot(m)})
  }

  function ObservedRecord(cfg: Config, m: Record, o: Outcome, now: int): Record {
    var base := m.(dispatch := o.dispatch, rawInputs := if o.rawAttempted then 1 else m.rawInputs,
                   retryAt := None, updatedAt := now);
    match o.dispatch
    case NotPerformed => base.(phase := Prepared, lastError := ActionNotPerformed)
    case Performed => base.(phase := ActionPerformed, lastError := NoError)
    case Unknown =>
      base.(phase := ActionUnknown, lastError := DispatchUnknown, retryAt := Some(now + cfg.cooldown))
    case Undispatched => base
  }

  /** The lease keeps the observed record in memory whether or not it could be saved. */
  function DoSettleDispatch(cfg: Config, s: State, m: Record, o: Outcome, now: int, fault: Fault): State {
    var observed := ObservedRecord(cfg, m, o, now);
    Save(cfg, s, observed, fault).0.(owner := Holding(observed, false))
  }

  // ---------------------------------------------------------------- Recover

  /** A record without a target whose target may still exist under its marker. */
  predicate MayHaveMarkerTarget(r: Record) {
    r.phase == TargetCreatePending || (r.phase == Failed && r.lastError == ReconciliationFailed)
  }

  function AmbiguousRecord(cfg: Config, r: Record, now: int): Record {
    r.(phase := ActionUnknown, dispatch := Unknown, rawInputs := 1, pendingPersisted := true,
       retryAt := Some(now + cfg.cooldown), lastError := AmbiguousAfterRestart)
  }

  function RecoverTarget(cfg: Config, r: Record, now: int): Recoverer {
    if r.phase == ActionPending then SavingEvidence(AmbiguousRecord(cfg, r, now))
    else Clearing(StartCleaning(r, Settle), true)
  }

  function StartRecover(cfg: Config, r: Record, now: int): Recoverer {
    if r.phase == Closed then Answered(CleanupClosed, true)
    else if r.targetID == "" && !MayHaveMarkerTarget(r) then Answered(CleanupNotRequired, true)
    else if r.targetID == "" then Searching(r)
    else RecoverTarget(cfg, r, now)
  }

  function DoRecover(cfg: Config, s: State, readable: bool, now: int): State {
    match LoadCell(cfg.rules, s.durable, readable)
    case None => s
    case Some(r) => s.(recoverers := s.recoverers + [StartRecover(cfg, r, now)])
  }

  function DoRecovererSearches(cfg: Config, s: State, i: nat, r: Record, result: Search, now: int): State
    requires i < |s.recoverers|
  {
    match result
    case Found(id) =>
      var next := RecoverTarget(cfg, r.(targetID := id, lastError := CreateAmbiguous), now);
      s.(recoverers := s.recoverers[i := next])
    case NothingFound =>
      var verdict := r.(phase := Failed, cleanup := CleanupNotRequired, lastError := CreateFailed);
      s.(recoverers := s.recoverers[i := SavingVerdict(verdict, CleanupNotRequired)], missed := true)
    case SearchFailed =>
      var verdict := r.(phase := Failed, cleanup := CleanupFailed, lastError := ReconciliationFailed);
      s.(recoverers := s.recoverers[i := SavingVerdict(verdict, CleanupFailed)])
  }

  function DoSaveVerdict(cfg: Config, s: State, i: nat, r: Record, answer: CleanupState, now: int, fault: Fault): State
    requires i < |s.recoverers|
  {
    var (s', ok) := Save(cfg, s, r.(updatedAt := now), fault);
    s'.(recoverers := s.recoverers[i := Answered(answer, ok && answer == CleanupNotRequired)])
  }

  function DoSaveEvidence(cfg: Config, s: State, i: nat, r: Record, now: int, fault: Fault): State
    requires i < |s.recoverers|
  {
    var rec := r.(updatedAt := now);
    var (s', ok) := Save(cfg, s, rec, fault);
    s'.(recoverers := s.recoverers[i := Clearing(StartCleaning(rec, Settle), ok)])
  }

  function DoRecovererCleans(cfg: Config, s: State, i: nat, c: Cleaner, evidence: bool, move: CleanMove): State
    requires i < |s.recoverers|
  {
    var (s', c', report) := Clean(cfg, s, c, move);
    var next := match report
                case None => Clearing(c', evidence)
                case Some((gone, saved)) =>
                  Answered(if gone then CleanupClosed else CleanupFailed, gone && saved && evidence);
    s'.(recoverers := s.recoverers[i := next])
  }

  // -------------------------------------------------------- browser and user

  /** What the world can do at all: truthful searches, honest dispatchers, no page but the run's own
      at its marker address, and nobody moving the run's page before the journal names it. */
  predicate Possible(cfg: Config, s: State, a: Action) {
    match a
    case InAcquire(OwnerSearches(result)) => TrueSearch(cfg, s, result)
    case InRecover(_, Searches(result, _)) => TrueSearch(cfg, s, result)
    case InAcquire(CreateAnswers(ok)) => ok ==> s.born.Some?
    case InLease(DispatcherReturns(o, presses)) => Honest(o, presses)
    case InWorld(PageAppears(id)) => s.requested && id != "" && id !in s.pages
    case InWorld(UserOpens(id, url)) => id !in s.pages && s.born != Some(id) && url != cfg.marker
    case InWorld(UserNavigates(id, url)) =>
      id in s.pages && url != cfg.marker && (s.born == Some(id) ==> s.durable.Some? && s.durable.value.targetID == id)
    case _ => true
  }

  function AcquireStep(cfg: Config, s: State, stage: AcquireStage, rec: Record, move: AcquireMove): State
    requires move.CreateAnswers? && move.ok ==> s.born.Some?
  {
    match move
    case CheckBudget(verdict, now, fault) =>
      if stage == CheckingBudget then DoCheckBudget(cfg, s, rec, verdict, now, fault) else s
    case TakeLock(locked, now, fault) =>
      if stage == TakingLock then DoTakeLock(cfg, s, rec, locked, now, fault) else s
    case SendCreate =>
      if stage == Sending then s.(owner := Acquiring(AwaitingCreate, rec), requested := true) else s
    case CreateAnswers(ok) =>
      if stage == AwaitingCreate then DoCreateAnswers(s, rec, ok) else s
    case OwnerSearches(result) =>
      if stage == Reconciling then DoOwnerSearches(cfg, s, rec, result) else s
    case SaveFailure(now, fault) =>
      if stage == SavingFailure then Save(cfg, s, rec.(updatedAt := now), fault).0.(owner := Absent) else s
    case PreserveAnswers(ok) =>
      if stage == Preserving then DoPreserveAnswers(s, rec, ok) else s
    case SaveOwned(now, fault) =>
      if stage.SavingOwned? then DoSaveOwned(cfg, s, rec, stage.retry, now, fault) else s
    case AttachAnswers(session) =>
      if stage == Attaching then DoAttachAnswers(s, rec, session) else s
    case SaveAttached(now, fault) =>
      if stage == SavingAttached then DoSaveAttached(cfg, s, rec, now, fault) else s
    case NavigateAnswers(ok, landed) =>
      if stage == Navigating then DoNavigateAnswers(s, rec, ok, landed) else s
    case CloseUnrecorded(m) =>
      if stage == ClosingUnrecorded then DoCloseUnrecorded(s, rec, m) else s
  }

  function LeaseStep(cfg: Config, s: State, move: LeaseMove): State {
    match move
    case Call(op, now, fault) =>
      if s.owner.Holding? then DoCall(cfg, s, s.owner.rec, s.owner.closed, op, now, fault) else s
    case BeginDispatch(now, fault) =>
      if s.owner.Holding? && MayDispatch(cfg, s.owner.rec, s.owner.closed)
      then DoBeginDispatch(cfg, s, s.owner.rec, now, fault) else s
    case DispatcherReturns(o, presses) =>
      if s.owner.Dispatching? then DoDispatcherReturns(s, s.owner.rec, o, presses) else s
    case SettleDispatch(now, fault) =>
      if s.owner.Settling? then DoSettleDispatch(cfg, s, s.owner.rec, s.owner.outcome, now, fault) else s
    case BeginClose =>
      if s.owner.Holding? && !s.owner.closed
      then s.(owner := Cleaning(StartCleaning(s.owner.rec, LeaseClose))) else s
  }

  function RecoverStep(cfg: Config, s: State, i: nat, move: RecoverMove): State
    requires i < |s.recoverers|
  {
    var p := s.recoverers[i];
    match move
    case Searches(result, now) =>
      if p.Searching? then DoRecovererSearches(cfg, s, i, p.rec, result, now) else s
    case SaveVerdict(now, fault) =>
      if p.SavingVerdict? then DoSaveVerdict(cfg, s, i, p.rec, p.answer, now, fault) else s
    case SaveEvidence(now, fault) =>
      if p.SavingEvidence? then DoSaveEvidence(cfg, s, i, p.rec, now, fault) else s
    case Cleans(m) =>
      if p.Clearing? then DoRecovererCleans(cfg, s, i, p.cleaner, p.evidenceSaved, m) else s
  }

  function WorldStep(cfg: Config, s: State, move: WorldMove): State {
    match move
    case PageAppears(id) =>
      s.(requested := false, born := Some(id), pages := s.pages[id := cfg.marker], late := s.late || s.missed)
    case UserOpens(id, url) => s.(pages := s.pages[id := url])
    case UserNavigates(id, url) => s.(pages := s.pages[id := url])
    case UserCloses(id) => s.(pages := s.pages - {id})
  }

  function Step(cfg: Config, s: State, a: Action): State {
    if !Possible(cfg, s, a) then s
    else match a
      case Begin(q, now, fault) => DoBegin(cfg, s, q, now, fault)
      case InAcquire(move) => if s.owner.Acquiring? then AcquireStep(cfg, s, s.owner.stage, s.owner.rec, move) else s
      case InLease(move) => LeaseStep(cfg, s, move)
      case OwnerCleans(move) => if s.owner.Cleaning? then DoOwnerCleans(cfg, s, s.owner.cleaner, move) else s
      case OwnerCrashes => s.(owner := Absent)
      case Recover(readable, now) => DoRecover(cfg, s, readable, now)
      case InRecover(i, move) => if i < |s.recoverers| then RecoverStep(cfg, s, i, move) else s
      case InWorld(move) => WorldStep(cfg, s, move)
  }

  /** The state after a whole interleaving. */
  function Run(cfg: Config, s: State, acts: seq<Action>): State
    decreases |acts|
  {
    if acts == [] then s else Run(cfg, Step(cfg, s, acts[0]), acts[1..])
  }
}
