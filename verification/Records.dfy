/** The recovery record of one browser run and the rules for replacing it
    (internal/browserflow/record.go). */
module Records {
  import opened Basics

  datatype Phase =
    | Planned
    | BudgetChecked
    | TargetCreatePending
    | TargetOwned
    | Attached
    | Prepared
    | ActionPending
    | ActionPerformed
    | ActionUnknown
    | Acknowledged
    | Terminal
    | Incomplete
    | CleanupPending
    | Closed
    | Failed

  datatype Dispatch = Undispatched | Performed | NotPerformed | Unknown

  datatype CleanupState = CleanupNotRequired | CleanupAwaited | CleanupClosed | CleanupFailed

  /** Every value the engine ever stores in last_error_class. */
  datatype ErrorClass =
    | NoError
    | BudgetCheckFailed
    | BudgetExceeded
    | InputLockUnavailable
    | CreateAmbiguous
    | CreateFailed
    | ReconciliationFailed
    | AttachFailed
    | NavigationFailed
    | ActionNotPerformed
    | DispatchUnknown
    | AmbiguousAfterRestart
    | CleanupUnsettled

  /** The character-class checks of the source. Everything below holds for any choice of them. */
  datatype TextRules = TextRules(identity: iset<string>, safe: iset<string>, digest: iset<string>)

  datatype CompletedAction = CompletedAction(
    name: string,
    dispatch: Dispatch,
    attempts: int,
    rawInputs: int,
    pendingPersisted: bool,
    completionPhase: Phase,
    postcondition: string)

  datatype Record = Record(
    schemaVersion: nat,
    runID: string,
    provider: string,
    operation: string,
    phase: Phase,
    actionName: string,
    dispatch: Dispatch,
    attempts: int,
    rawInputs: int,
    pendingPersisted: bool,
    targetID: string,
    sessionID: string,
    conversationID: string,
    inputFingerprint: string,
    postcondition: string,
    completed: seq<CompletedAction>,
    cleanup: CleanupState,
    retryAt: Option<int>,
    lastError: ErrorClass,
    createdAt: int,
    updatedAt: int)

  const RECOVERY_SCHEMA: nat := 1
  const MAX_COMPLETED := 16

  /** The index of the action slot a record is working on. */
  function Slot(r: Record): nat {
    |r.completed|
  }

  predicate AtOrAfterTarget(phase: Phase) {
    match phase
    case Planned => false
    case BudgetChecked => false
    case TargetCreatePending => false
    case Failed => false
    case _ => true
  }

  predicate RequiresSession(phase: Phase) {
    AtOrAfterTarget(phase) && phase != TargetOwned && phase != CleanupPending && phase != Closed
  }

  predicate RequiresPendingProof(phase: Phase) {
    phase == ActionPending || phase == ActionPerformed || phase == ActionUnknown || phase == Acknowledged
  }

  predicate DispatchMatchesRaw(dispatch: Dispatch, rawInputs: int) {
    && 0 <= rawInputs <= 1
    && (dispatch == NotPerformed ==> rawInputs == 0)
    && (dispatch == Performed || dispatch == Unknown ==> rawInputs == 1)
  }

  predicate SafeOrEmpty(rules: TextRules, value: string) {
    value != "" ==> value in rules.safe
  }

  predicate ValidCompleted(rules: TextRules, a: CompletedAction) {
    && a.name in rules.identity
    && a.dispatch != Undispatched
    && a.attempts >= 0
    && DispatchMatchesRaw(a.dispatch, a.rawInputs)
    && (a.completionPhase == Terminal || a.completionPhase == Incomplete)
    && SafeOrEmpty(rules, a.postcondition)
  }

  predicate ValidText(rules: TextRules, r: Record) {
    && r.runID in rules.identity
    && r.provider in rules.identity
    && r.operation in rules.identity
    && SafeOrEmpty(rules, r.actionName)
    && SafeOrEmpty(rules, r.targetID)
    && SafeOrEmpty(rules, r.sessionID)
    && SafeOrEmpty(rules, r.conversationID)
    && SafeOrEmpty(rules, r.inputFingerprint)
    && SafeOrEmpty(rules, r.postcondition)
    && (r.inputFingerprint != "" ==> r.inputFingerprint in rules.digest)
  }

  predicate Valid(rules: TextRules, r: Record) {
    && r.schemaVersion == RECOVERY_SCHEMA
    && ValidText(rules, r)
    && r.attempts >= 0
    && DispatchMatchesRaw(r.dispatch, r.rawInputs)
    && (AtOrAfterTarget(r.phase) ==> r.targetID != "")
    && (RequiresSession(r.phase) ==> r.sessionID != "")
    && (RequiresPendingProof(r.phase) ==> r.pendingPersisted)
    && (r.phase == Closed ==> r.cleanup == CleanupClosed)
    && (r.cleanup == CleanupClosed ==> r.targetID != "")
    && |r.completed| <= MAX_COMPLETED
    && (forall a | a in r.completed :: ValidCompleted(rules, a))
  }

  predicate AllowedTransition(from: Phase, to: Phase) {
    || from == to
    || (to == CleanupPending && from != Closed)
    || match from
       case Planned => to == BudgetChecked || to == Failed
       case BudgetChecked => to == TargetCreatePending || to == Failed
       case TargetCreatePending => to == TargetOwned || to == Failed
       case TargetOwned => to == Attached || to == Failed
       case Attached => to == Prepared || to == Failed
       case Prepared => to == ActionPending || to == Terminal || to == Incomplete || to == Failed
       case ActionPending => to == Prepared || to == ActionPerformed || to == ActionUnknown
       case ActionPerformed => to == Acknowledged || to == Terminal || to == Incomplete || to == Failed
       case ActionUnknown => to == ActionPerformed || to == Acknowledged || to == Incomplete || to == Failed
       case Acknowledged => to == Terminal || to == Incomplete || to == Failed
       case CleanupPending => to == Closed
       case Terminal => false
       case Incomplete => false
       case Failed => false
       case Closed => false
  }

  /** What BeginNextAction must archive for the action `r` has just completed. */
  function Archive(r: Record): CompletedAction {
    CompletedAction(r.actionName, r.dispatch, r.attempts, r.rawInputs, r.pendingPersisted, r.phase, r.postcondition)
  }

  predicate ValidActionAdvance(before: Record, after: Record) {
    && before.actionName != ""
    && (before.phase == Terminal || before.phase == Incomplete)
    && after.phase == Attached
    && after.actionName != ""
    && after.dispatch == Undispatched
    && after.attempts == 0
    && after.rawInputs == 0
    && !after.pendingPersisted
    && after.postcondition == ""
    && after.retryAt == None
    && after.lastError == NoError
    && |after.completed| == |before.completed| + 1
    && after.completed[|before.completed|] == Archive(before)
  }

  predicate WriteOnce(before: string, after: string) {
    before != "" ==> before == after
  }

  predicate SameIdentity(before: Record, after: Record) {
    && before.runID == after.runID
    && before.provider == after.provider
    && before.operation == after.operation
    && before.createdAt == after.createdAt
  }

  predicate WriteOnceFields(before: Record, after: Record) {
    && WriteOnce(before.targetID, after.targetID)
    && WriteOnce(before.sessionID, after.sessionID)
    && WriteOnce(before.conversationID, after.conversationID)
    && WriteOnce(before.inputFingerprint, after.inputFingerprint)
    && WriteOnce(before.postcondition, after.postcondition)
  }

  /** The only two ways an unknown dispatch may become a performed one. */
  predicate ResolvesUnknown(after: Record) {
    && after.dispatch == Performed
    && after.rawInputs == 1
    && after.pendingPersisted
    && (|| (after.phase == Acknowledged && after.conversationID != "")
        || (after.phase == ActionPerformed && after.postcondition != ""))
  }

  /** The checks that apply while the run stays in one action slot. */
  predicate ValidInSlot(before: Record, after: Record) {
    && |after.completed| == |before.completed|
    && after.actionName == before.actionName
    && before.attempts <= after.attempts
    && before.rawInputs <= after.rawInputs
    && (before.dispatch == Performed ==> after.dispatch == Performed)
    && (before.dispatch == Unknown && after.dispatch != Unknown ==> ResolvesUnknown(after))
    && AllowedTransition(before.phase, after.phase)
  }

  predicate ValidTransition(rules: TextRules, before: Record, after: Record) {
    && Valid(rules, after)
    && SameIdentity(before, after)
    && WriteOnceFields(before, after)
    && (before.inputFingerprint == "" && after.inputFingerprint != "" ==>
          before.phase == Attached && after.phase == Attached)
    && before.completed <= after.completed
    && (ValidActionAdvance(before, after) || ValidInSlot(before, after))
    && before.updatedAt <= after.updatedAt
  }
}
