/** How Acquire comes by a lease (internal/browserflow/engine.go): like the methods of module Engine, each
    method moves the machine of module Protocol by the steps that stand for its code. */
module Acquisition {
  import opened Basics
  import opened Records
  import opened Journal
  import opened Protocol
  import opened Frames
  import opened Worlds
  import opened Cleanup
  import opened Engine

  /** Everything the outside does around one Acquire call. */
  datatype AcquireScript = AcquireScript(
    createdAt: int,
    createFault: Fault,
    verdict: BudgetVerdict,
    checked: Moment,
    locked: bool,
    intent: Moment,
    sending: seq<Action>,
    creating: seq<Action>,
    answered: bool,
    search: seq<Poll>,
    failure: Moment,
    preserving: seq<Action>,
    preserved: bool,
    owned: Moment,
    ownedAgain: Moment,
    attaching: seq<Action>,
    session: string,
    attached: Moment,
    navigating: seq<Action>,
    navigated: bool,
    landed: Option<string>,
    tries: seq<CloseTry>,
    clean: CleanScript)

  ghost predicate AcquireForeign(script: AcquireScript) {
    && AllForeign(script.checked.meanwhile, ByOwner)
    && AllForeign(script.intent.meanwhile, ByOwner)
    && AllForeign(script.sending, ByOwner)
    && AllForeign(script.creating, ByOwner)
    && PollsForeign(script.search, ByOwner)
    && AllForeign(script.failure.meanwhile, ByOwner)
    && AllForeign(script.preserving, ByOwner)
    && AllForeign(script.owned.meanwhile, ByOwner)
    && AllForeign(script.ownedAgain.meanwhile, ByOwner)
    && AllForeign(script.attaching, ByOwner)
    && AllForeign(script.attached.meanwhile, ByOwner)
    && AllForeign(script.navigating, ByOwner)
    && TriesForeign(script.tries, ByOwner)
    && ScriptForeign(script.clean, ByOwner)
  }

  /** What a save in Acquire does to the journal and the pages, after the others had time to act. */
  ghost predicate SavedAfter(cfg: Config, s: State, moment: Moment, next: Record, t: State) {
    var before := Run(cfg, s, moment.meanwhile);
    t.durable == SaveCell(cfg.rules, before.durable, next, moment.fault).0 && t.pages == before.pages
  }

  ghost predicate AcceptsAfter(cfg: Config, s: State, moment: Moment, next: Record) {
    Accepts(cfg, Run(cfg, s, moment.meanwhile), next, moment.fault)
  }

  lemma CheckBudgetStep(cfg: Config, s: State, rec: Record, verdict: BudgetVerdict, now: int, fault: Fault,
                        next: Record)
    requires s.owner == Acquiring(CheckingBudget, rec)
    requires next == rec.(phase := if verdict == WithinBudget then BudgetChecked else Failed, updatedAt := now,
                          lastError := match verdict
                                       case WithinBudget => rec.lastError
                                       case BudgetUnknown => BudgetCheckFailed
                                       case OverBudget => BudgetExceeded)
    ensures
      var t := Step(cfg, s, InAcquire(AcquireMove.CheckBudget(verdict, now, fault)));
      var (cell, ok) := SaveCell(cfg.rules, s.durable, next, fault);
      && t.durable == cell && t.pages == s.pages
      && t.owner == if ok && verdict == WithinBudget then Acquiring(TakingLock, next) else Absent
  {
  }

  /** Check the browser's resource budget and record the verdict. */
  method CheckBudget(w: World, planned: Record, verdict: BudgetVerdict, moment: Moment)
    returns (ok: bool, record: Record)
    requires w.Good() && w.sys.owner == Acquiring(CheckingBudget, planned) && AllForeign(moment.meanwhile, ByOwner)
    modifies w`sys, w`pages, w.journal
    ensures w.Good() && w.sys.owner == if ok then Acquiring(TakingLock, record) else Absent
    ensures record == planned.(phase := if verdict == WithinBudget then BudgetChecked else Failed,
                               lastError := match verdict
                                            case WithinBudget => planned.lastError
                                            case BudgetUnknown => BudgetCheckFailed
                                            case OverBudget => BudgetExceeded,
                               updatedAt := moment.now)
    ensures SavedAfter(w.cfg, old(w.sys), moment, record, w.sys)
    ensures ok <==> verdict == WithinBudget && AcceptsAfter(w.cfg, old(w.sys), moment, record)
    ensures ok ==> w.sys.durable == Some(record)
  {
    w.Others(moment.meanwhile, ByOwner);
    record := match verdict
      case WithinBudget => planned.(phase := BudgetChecked, updatedAt := moment.now)
      case BudgetUnknown => planned.(phase := Failed, lastError := BudgetCheckFailed, updatedAt := moment.now)
      case OverBudget => planned.(phase := Failed, lastError := BudgetExceeded, updatedAt := moment.now);
    CheckBudgetStep(w.cfg, w.sys, planned, verdict, moment.now, moment.fault, record);
    ok := w.Save(record, moment.fault, InAcquire(AcquireMove.CheckBudget(verdict, moment.now, moment.fault)));
    ok := ok && verdict == WithinBudget;
  }

  lemma TakeLockStep(cfg: Config, s: State, rec: Record, locked: bool, now: int, fault: Fault, next: Record)
    requires s.owner == Acquiring(TakingLock, rec)
    requires next == rec.(phase := if locked then TargetCreatePending else Failed, updatedAt := now,
                          lastError := if locked then rec.lastError else InputLockUnavailable)
    ensures
      var t := Step(cfg, s, InAcquire(TakeLock(locked, now, fault)));
      var (cell, ok) := SaveCell(cfg.rules, s.durable, next, fault);
      && t.durable == cell && t.pages == s.pages
      && t.owner == if ok && locked then Acquiring(Sending, next) else Absent
  {
  }

  /** Take the input lock, then record the intent to create a page. */
  method RecordIntent(w: World, checked: Record, locked: bool, moment: Moment) returns (ok: bool, record: Record)
    requires w.Good() && w.sys.owner == Acquiring(TakingLock, checked) && AllForeign(moment.meanwhile, ByOwner)
    modifies w`sys, w`pages, w.journal
    ensures w.Good() && w.sys.owner == if ok then Acquiring(Sending, record) else Absent
    ensures record == checked.(phase := if locked then TargetCreatePending else Failed,
                               lastError := if locked then checked.lastError else InputLockUnavailable,
                               updatedAt := moment.now)
    ensures SavedAfter(w.cfg, old(w.sys), moment, record, w.sys)
    ensures ok <==> locked && AcceptsAfter(w.cfg, old(w.sys), moment, record)
    ensures ok ==> w.sys.durable == Some(record)
  {
    w.Others(moment.meanwhile, ByOwner);
    record := checked.(phase := TargetCreatePending, updatedAt := moment.now);
    if !locked {
      record := checked.(phase := Failed, lastError := InputLockUnavailable, updatedAt := moment.now);
    }
    TakeLockStep(w.cfg, w.sys, checked, locked, moment.now, moment.fault, record);
    ok := w.Save(record, moment.fault, InAcquire(TakeLock(locked, moment.now, moment.fault)));
    ok := ok && locked;
  }

  /** The record of a create call whose page was not found, or could not be looked for. */
  predicate Failing(intent: Record, result: Search, now: int, failed: Record) {
    if result == NothingFound then failed == intent.(phase := Failed, lastError := CreateFailed, updatedAt := now)
    else
      failed
      == intent.(phase := Failed, cleanup := CleanupFailed, lastError := ReconciliationFailed, updatedAt := now)
  }

  /** A page that was found has been asked to close, and a reported save is what the journal holds. */
  predicate Reconciled(s: State, intent: Record, script: AcquireScript, result: Search, saved: bool) {
    && (result.Found? && script.clean.tries != [] ==> result.id in s.closeLog)
    && (saved ==>
          && s.durable.Some?
          && var d := s.durable.value;
             if result.Found? then
               Concludes(intent.(targetID := result.id, lastError := CreateAmbiguous), Settle,
                         d.phase == Phase.Closed, d)
             else Failing(intent, result, script.failure.now, d))
  }

  /** Send the create command. When its answer is lost, look for the page and clean it up. */
  method CreateTarget(w: World, intent: Record, script: AcquireScript)
    returns (ok: bool, record: Record, result: Search, saved: bool)
    requires w.Good() && w.sys.owner == Acquiring(Sending, intent) && AcquireForeign(script)
    modifies w`sys, w`pages, w.journal
    ensures w.Good() && w.sys.owner == if ok then Acquiring(Preserving, record) else Absent
    ensures ok ==>
              && script.answered && w.sys.born == Some(record.targetID)
              && record == intent.(targetID := record.targetID)
    ensures
      var before := Run(w.cfg, Step(w.cfg, Run(w.cfg, old(w.sys), script.sending), InAcquire(SendCreate)),
                        script.creating);
      && (ok <==> script.answered && before.born.Some?)
      && (ok ==> w.sys.durable == before.durable && w.sys.born == before.born)
    ensures !ok ==> Reconciled(w.sys, intent, script, result, saved)
  {
    w.Others(script.sending, ByOwner);
    w.Move(InAcquire(SendCreate));
    w.Others(script.creating, ByOwner);
    var reply := w.CreateReply(script.answered);
    ok, record, result, saved := reply.Some?, intent, NothingFound, false;
    w.Move(InAcquire(CreateAnswers(ok)));
    if ok {
      record := intent.(targetID := reply.value);
    } else {
      ghost var before_, failed;
      result, saved, before_, failed := Reconcile(w, intent, script);
    }
  }

  lemma OwnerSearchesStep(cfg: Config, s: State, rec: Record, result: Search)
    requires s.owner == Acquiring(Reconciling, rec) && TrueSearch(cfg, s, result)
    ensures
      var t := Step(cfg, s, InAcquire(OwnerSearches(result)));
      && t.durable == s.durable && t.pages == s.pages
      && match result
         case Found(id) =>
           t.owner == Cleaning(StartCleaning(rec.(targetID := id, lastError := CreateAmbiguous), Settle))
         case NothingFound => t.owner == Acquiring(SavingFailure, rec.(phase := Failed, lastError := CreateFailed))
         case SearchFailed => t.owner == Acquiring(SavingFailure, Unresolved(rec))
  {
  }

  lemma SaveFailureStep(cfg: Config, s: State, rec: Record, now: int, fault: Fault)
    requires s.owner == Acquiring(SavingFailure, rec)
    ensures
      var t := Step(cfg, s, InAcquire(SaveFailure(now, fault)));
      && t.durable == SaveCell(cfg.rules, s.durable, rec.(updatedAt := now), fault).0 && t.pages == s.pages
      && t.owner == Absent
  {
  }

  /** The create call failed: its page may exist all the same. `before` is the state in which a failure
      is offered to the journal. */
  method Reconcile(w: World, intent: Record, script: AcquireScript)
    returns (result: Search, saved: bool, ghost before: State, ghost failed: Record)
    requires w.Good() && w.sys.owner == Acquiring(Reconciling, intent) && AcquireForeign(script)
    modifies w`sys, w`pages, w.journal
    ensures w.Good() && w.sys.owner == Absent && Reconciled(w.sys, intent, script, result, saved)
    ensures !result.Found? ==>
              && Failing(intent, result, script.failure.now, failed)
              && (w.sys.durable, saved) == SaveCell(w.cfg.rules, before.durable, failed, script.failure.fault)
  {
    result := FindMarkerTarget(w, ByOwner, script.search);
    OwnerSearchesStep(w.cfg, w.sys, intent, result);
    w.Move(InAcquire(OwnerSearches(result)));
    before, failed := w.sys, intent;
    if result.Found? {
      var found := intent.(targetID := result.id, lastError := CreateAmbiguous);
      var gone, final;
      gone, saved, final := SettleExactCleanup(w, ByOwner, StartCleaning(found, Settle), true, script.clean);
      ConcludesFromStart(found, Settle, gone, final);
    } else {
      var offer := intent.(phase := Failed, lastError := CreateFailed);
      if result == SearchFailed {
        offer := intent.(phase := Failed, cleanup := CleanupFailed, lastError := ReconciliationFailed);
      }
      failed := offer.(updatedAt := script.failure.now);
      saved, before := GiveUp(w, offer, script.failure);
    }
  }

  /** Record why there is no page. */
  method GiveUp(w: World, failed: Record, moment: Moment) returns (saved: bool, ghost before: State)
    requires w.Good() && w.sys.owner == Acquiring(SavingFailure, failed) && AllForeign(moment.meanwhile, ByOwner)
    modifies w`sys, w`pages, w.journal
    ensures w.Good() && w.sys.owner == Absent
    ensures (w.sys.durable, saved)
         == SaveCell(w.cfg.rules, before.durable, failed.(updatedAt := moment.now), moment.fault)
    ensures before == Run(w.cfg, old(w.sys), moment.meanwhile)
  {
    w.Others(moment.meanwhile, ByOwner);
    before := w.sys;
    SaveFailureStep(w.cfg, w.sys, failed, moment.now, moment.fault);
    saved := w.Save(failed.(updatedAt := moment.now), moment.fault, InAcquire(SaveFailure(moment.now, moment.fault)));
  }

  /** Keep the page from expiring, then record that the run owns it, trying the save twice. */
  method OwnTarget(w: World, created: Record, script: AcquireScript) returns (ok: bool, record: Record)
    requires w.Good() && w.sys.owner == Acquiring(Preserving, created) && AcquireForeign(script)
    modifies w`sys, w`pages, w.journal
    ensures w.Good() && w.sys.owner == if ok then Acquiring(Attaching, record) else Absent
    ensures ok ==>
              && script.preserved && w.sys.durable == Some(record)
              && record == created.(cleanup := CleanupAwaited, phase := TargetOwned, updatedAt := record.updatedAt)
    ensures
      var before := Step(w.cfg, Run(w.cfg, old(w.sys), script.preserving), InAcquire(PreserveAnswers(true)));
      var first := created.(cleanup := CleanupAwaited, phase := TargetOwned, updatedAt := script.owned.now);
      script.preserved && AcceptsAfter(w.cfg, before, script.owned, first) ==> ok && record == first
    ensures !ok && (if script.preserved then script.tries != [] else script.clean.tries != []) ==>
              created.targetID in w.sys.closeLog
    ensures !script.preserved ==> Concludes(created, Settle, record.phase == Phase.Closed, record)
  {
    w.Others(script.preserving, ByOwner);
    w.Move(InAcquire(PreserveAnswers(script.preserved)));
    record := created;
    if !script.preserved {
      var gone, saved, final := SettleExactCleanup(w, ByOwner, StartCleaning(created, Settle), true, script.clean);
      ConcludesFromStart(created, Settle, gone, final);
      return false, final;
    }
    record := created.(cleanup := CleanupAwaited, phase := TargetOwned);
    ok, record := SaveOwnership(w, record, false, script.owned);
    if !ok {
      ok, record := SaveOwnership(w, record, true, script.ownedAgain);
    }
    if !ok {
      CloseUnrecordedTarget(w, record, script.tries);
    }
  }

  method SaveOwnership(w: World, record: Record, retry: bool, moment: Moment) returns (ok: bool, stamped: Record)
    requires w.Good() && w.sys.owner == Acquiring(SavingOwned(retry), record) && AllForeign(moment.meanwhile, ByOwner)
    modifies w`sys, w`pages, w.journal
    ensures w.Good() && stamped == record.(updatedAt := moment.now)
    ensures w.sys.owner == Acquiring(if ok then Attaching else if retry then ClosingUnrecorded else SavingOwned(true),
                                     stamped)
    ensures ok ==> w.sys.durable == Some(stamped)
    ensures ok == AcceptsAfter(w.cfg, old(w.sys), moment, stamped)
  {
    w.Others(moment.meanwhile, ByOwner);
    stamped := record.(updatedAt := moment.now);
    ok := w.Save(stamped, moment.fault, InAcquire(SaveOwned(moment.now, moment.fault)));
  }

  /** Close a page the journal could not be told about. */
  method CloseUnrecordedTarget(w: World, record: Record, tries: seq<CloseTry>)
    requires w.Good() && w.sys.owner == Acquiring(ClosingUnrecorded, record) && TriesForeign(tries, ByOwner)
    modifies w`sys, w`pages, w.journal
    ensures w.Good() && w.sys.owner == Absent
    ensures tries != [] ==> record.targetID in w.sys.closeLog
  {
    var gone := CloseExactTarget(w, ByOwner, record.targetID, tries);
    HistoryGrows(w.cfg, w.sys, InAcquire(CloseUnrecorded(SeeGone(gone))));
    w.Move(InAcquire(CloseUnrecorded(SeeGone(gone))));
  }

  /** Attach to the page and record the session. */
  method AttachTarget(w: World, owned: Record, script: AcquireScript) returns (ok: bool, record: Record)
    requires w.Good() && w.sys.owner == Acquiring(Attaching, owned) && AcquireForeign(script)
    modifies w`sys, w`pages, w.journal
    ensures w.Good() && w.sys.owner == if ok then Acquiring(Navigating, record) else Absent
    ensures ok ==> script.session != "" && w.sys.durable == Some(record)
    ensures
      var before := Step(w.cfg, Run(w.cfg, old(w.sys), script.attaching), InAcquire(AttachAnswers(script.session)));
      var attached := owned.(sessionID := script.session, phase := Attached, updatedAt := script.attached.now);
      && (ok <==> script.session != "" && AcceptsAfter(w.cfg, before, script.attached, attached))
      && (ok ==> record == attached)
    ensures !ok && (if script.session != "" then script.tries != [] else script.clean.tries != []) ==>
              owned.targetID in w.sys.closeLog
    ensures script.session == "" ==>
              Concludes(owned.(lastError := AttachFailed), AfterAttachFailure, record.phase == Phase.Closed, record)
  {
    w.Others(script.attaching, ByOwner);
    w.Move(InAcquire(AttachAnswers(script.session)));
    record := owned;
    if script.session == "" {
      var failed := owned.(lastError := AttachFailed);
      var gone, saved, final;
      var c := StartCleaning(failed, AfterAttachFailure);
      gone, saved, final := SettleExactCleanup(w, ByOwner, c, true, script.clean);
      ConcludesFromStart(failed, AfterAttachFailure, gone, final);
      return false, final;
    }
    record := owned.(sessionID := script.session, phase := Attached);
    ok, record := SaveAttachment(w, record, script.attached);
    if !ok {
      CloseUnrecordedTarget(w, record, script.tries);
    }
  }

  method SaveAttachment(w: World, record: Record, moment: Moment) returns (ok: bool, stamped: Record)
    requires w.Good() && w.sys.owner == Acquiring(SavingAttached, record) && AllForeign(moment.meanwhile, ByOwner)
    modifies w`sys, w`pages, w.journal
    ensures w.Good() && stamped == record.(updatedAt := moment.now)
    ensures w.sys.owner == Acquiring(if ok then Navigating else ClosingUnrecorded, stamped)
    ensures ok ==> w.sys.durable == Some(stamped)
    ensures ok == AcceptsAfter(w.cfg, old(w.sys), moment, stamped)
  {
    w.Others(moment.meanwhile, ByOwner);
    stamped := record.(updatedAt := moment.now);
    ok := w.Save(stamped, moment.fault, InAcquire(SaveAttached(moment.now, moment.fault)));
  }

  /** Only now leave the marker address: the journal names the page. */
  method OpenInitialPage(w: World, attached: Record, script: AcquireScript) returns (ok: bool, record: Record)
    requires w.Good() && w.sys.owner == Acquiring(Navigating, attached) && AcquireForeign(script)
    modifies w`sys, w`pages, w.journal
    ensures w.Good() && w.sys.owner == if ok then Holding(attached, false) else Absent
    ensures ok == script.navigated && (ok ==> record == attached)
    ensures !ok ==> Concludes(attached.(lastError := NavigationFailed), Settle, record.phase == Phase.Closed, record)
    ensures ok && script.landed.Some? && attached.targetID in w.pages ==>
              w.pages[attached.targetID] == script.landed.value
    ensures !ok && script.clean.tries != [] ==> attached.targetID in w.sys.closeLog
  {
    w.Others(script.navigating, ByOwner);
    w.Navigate(attached.targetID, script.landed, InAcquire(NavigateAnswers(script.navigated, script.landed)));
    ok, record := script.navigated, attached;
    if !ok {
      var failed := attached.(lastError := NavigationFailed);
      var gone, saved, final := SettleExactCleanup(w, ByOwner, StartCleaning(failed, Settle), true, script.clean);
      ConcludesFromStart(failed, Settle, gone, final);
      record := final;
    }
  }

  // ------------------------------------------------------- when Acquire succeeds

  /** The way to the intent is free: there is no journal yet, the request passes, the budget allows it and
      the lock is to be had. */
  predicate FreeToIntend(cfg: Config, s: State, q: Request, script: AcquireScript) {
    && s.durable == None && ValidRequest(cfg.rules, q) && SafeOrEmpty(cfg.rules, q.actionName)
    && script.createFault == Lands && script.verdict == WithinBudget && script.locked
    && Quiet(script.checked, script.createdAt) && Quiet(script.intent, script.checked.now)
  }

  /** The page that appears, and nothing else happens, while the create call is on its way. */
  function PageOf(script: AcquireScript): Option<string> {
    if && |script.creating| == 1 && script.creating[0].InWorld? && script.creating[0].world.PageAppears?
    then Some(script.creating[0].world.id) else None
  }

  /** The way from the intent to an attached page is free: the page appears before the create call answers,
      its id and session pass, and every reply is favourable. */
  predicate FreeToOpen(cfg: Config, s: State, intent: Record, script: AcquireScript) {
    && script.sending == [] && PageOf(script).Some? && script.answered
    && PageOf(script).value != "" && PageOf(script).value in cfg.rules.safe && PageOf(script).value !in s.pages
    && script.preserving == [] && script.preserved && Quiet(script.owned, intent.updatedAt)
    && script.attaching == [] && script.session != "" && script.session in cfg.rules.safe
    && Quiet(script.attached, script.owned.now)
    && script.navigated
  }

  /** The journal of a run starts with the request, and with nothing done yet. */
  lemma PlannedIsPlain(q: Request, now: int)
    ensures
      var r := PlannedRecord(q, now);
      && r.schemaVersion == 1 && r.runID == q.runID && r.provider == q.provider && r.operation == q.operation
      && r.actionName == q.actionName && r.createdAt == now && r.updatedAt == now
      && r.phase == Planned && r.dispatch == Undispatched && r.attempts == 0 && r.rawInputs == 0
      && !r.pendingPersisted && r.completed == [] && r.cleanup == CleanupNotRequired
      && r.targetID == "" && r.sessionID == "" && r.conversationID == ""
      && r.inputFingerprint == "" && r.postcondition == "" && r.retryAt == None && r.lastError == NoError
  {
  }

  lemma PlannedIsValid(rules: TextRules, q: Request, now: int)
    requires ValidRequest(rules, q) && SafeOrEmpty(rules, q.actionName)
    ensures Valid(rules, PlannedRecord(q, now))
  {
  }

  /** Before there is a page, a record may move on along the phases. */
  lemma EarlyTransition(rules: TextRules, r: Record, phase: Phase, now: int)
    requires Valid(rules, r) && AllowedTransition(r.phase, phase) && !AtOrAfterTarget(phase) && r.updatedAt <= now
    ensures ValidTransition(rules, r, r.(phase := phase, updatedAt := now))
  {
  }

  /** An intent, or a page not yet attached, that nothing has been dispatched for. */
  predicate Untried(r: Record) {
    r.dispatch == Undispatched && r.rawInputs == 0 && r.cleanup != CleanupClosed
  }

  lemma OwnTransition(rules: TextRules, r: Record, id: string, now: int)
    requires Valid(rules, r) && r.phase == TargetCreatePending && r.targetID == "" && Untried(r)
    requires id != "" && id in rules.safe && r.updatedAt <= now
    ensures
      ValidTransition(rules, r, r.(targetID := id, cleanup := CleanupAwaited, phase := TargetOwned, updatedAt := now))
  {
  }

  lemma AttachTransition(rules: TextRules, r: Record, session: string, now: int)
    requires Valid(rules, r) && r.phase == TargetOwned && r.sessionID == "" && Untried(r)
    requires session != "" && session in rules.safe && r.updatedAt <= now
    ensures ValidTransition(rules, r, r.(sessionID := session, phase := Attached, updatedAt := now))
  {
  }

  /** Start the journal of the run. */
  method Plan(w: World, q: Request, script: AcquireScript) returns (ok: bool, record: Record)
    requires w.Good() && w.sys.owner == Absent
    modifies w`sys, w`pages, w.journal
    ensures w.Good() && w.sys.owner == if ok then Acquiring(CheckingBudget, record) else Absent
    ensures old(w.journal.cell).Some? ==> !ok && w.journal.cell == old(w.journal.cell)
    ensures record == PlannedRecord(q, script.createdAt) && w.sys.pages == old(w.sys).pages
    ensures ok ==> ValidRequest(w.cfg.rules, q) && w.sys.durable == Some(record) && Valid(w.cfg.rules, record)
    ensures FreeToIntend(w.cfg, old(w.sys), q, script) ==> ok
  {
    record := PlannedRecord(q, script.createdAt);
    ok := ValidRequest(w.cfg.rules, q);
    if ok {
      if SafeOrEmpty(w.cfg.rules, q.actionName) {
        PlannedIsValid(w.cfg.rules, q, script.createdAt);
      }
      ok := w.Create(record, script.createFault, Action.Begin(q, script.createdAt, script.createFault));
    }
  }

  /** From the request to the recorded intent to create a page. */
  method Intend(w: World, q: Request, script: AcquireScript) returns (ok: bool, record: Record)
    requires w.Good() && w.sys.owner == Absent && AcquireForeign(script)
    modifies w`sys, w`pages, w.journal
    ensures w.Good() && w.sys.owner == if ok then Acquiring(Sending, record) else Absent
    ensures old(w.journal.cell).Some? ==> !ok && w.journal.cell == old(w.journal.cell)
    ensures ok ==>
              && ValidRequest(w.cfg.rules, q) && script.verdict == WithinBudget && script.locked
              && w.sys.durable == Some(record) && Valid(w.cfg.rules, record)
              && record == PlannedRecord(q, script.createdAt).(phase := TargetCreatePending,
                                                               updatedAt := script.intent.now)
    ensures FreeToIntend(w.cfg, old(w.sys), q, script) ==> ok && w.sys.pages == old(w.sys).pages
  {
    ghost var free := FreeToIntend(w.cfg, w.sys, q, script);
    ok, record := Plan(w, q, script);
    if !ok {
      return;
    }
    if free {
      EarlyTransition(w.cfg.rules, record, BudgetChecked, script.checked.now);
    }
    ok, record := CheckBudget(w, record, script.verdict, script.checked);
    if !ok {
      return;
    }
    if free {
      EarlyTransition(w.cfg.rules, record, TargetCreatePending, script.intent.now);
    }
    ok, record := RecordIntent(w, record, script.locked, script.intent);
  }

  /** The page that the create call makes, when it appears before the call answers. */
  lemma PageComes(cfg: Config, s: State, intent: Record, script: AcquireScript)
    requires s.owner == Acquiring(Sending, intent) && FreeToOpen(cfg, s, intent, script)
    ensures
      var t := Run(cfg, Step(cfg, Run(cfg, s, script.sending), InAcquire(SendCreate)), script.creating);
      t.born == PageOf(script) && t.durable == s.durable
  {
    var sent := Step(cfg, s, InAcquire(SendCreate));
    assert script.creating == [InWorld(PageAppears(PageOf(script).value))] && script.creating[1..] == [];
    assert Run(cfg, sent, script.creating) == Run(cfg, Step(cfg, sent, script.creating[0]), []);
  }

  lemma QuietSave(cfg: Config, s: State, moment: Moment, next: Record)
    requires Quiet(moment, moment.now) && s.durable.Some? && ValidTransition(cfg.rules, s.durable.value, next)
    ensures AcceptsAfter(cfg, s, moment, next)
  {
  }

  /** Ownership can be recorded at once. */
  lemma OwnsAtOnce(cfg: Config, s: State, intent: Record, created: Record, id: string, script: AcquireScript)
    requires s.owner == Acquiring(Preserving, created) && s.durable == Some(intent)
    requires created == intent.(targetID := id)
    requires Valid(cfg.rules, intent) && intent.phase == TargetCreatePending && intent.targetID == "" && Untried(intent)
    requires id != "" && id in cfg.rules.safe && script.preserving == [] && Quiet(script.owned, intent.updatedAt)
    ensures
      var before := Step(cfg, Run(cfg, s, script.preserving), InAcquire(PreserveAnswers(true)));
      var first := created.(cleanup := CleanupAwaited, phase := TargetOwned, updatedAt := script.owned.now);
      AcceptsAfter(cfg, before, script.owned, first) && Valid(cfg.rules, first)
  {
    OwnTransition(cfg.rules, intent, id, script.owned.now);
    var before := Step(cfg, Run(cfg, s, script.preserving), InAcquire(PreserveAnswers(true)));
    assert before.durable == Some(intent);
    QuietSave(cfg, before, script.owned,
              created.(cleanup := CleanupAwaited, phase := TargetOwned, updatedAt := script.owned.now));
  }

  /** And so can the session. */
  lemma AttachesAtOnce(cfg: Config, s: State, owned: Record, script: AcquireScript)
    requires s.owner == Acquiring(Attaching, owned) && s.durable == Some(owned)
    requires Valid(cfg.rules, owned) && owned.phase == TargetOwned && owned.sessionID == "" && Untried(owned)
    requires script.session != "" && script.session in cfg.rules.safe && script.attaching == []
    requires Quiet(script.attached, owned.updatedAt)
    ensures
      var before := Step(cfg, Run(cfg, s, script.attaching), InAcquire(AttachAnswers(script.session)));
      var attached := owned.(sessionID := script.session, phase := Attached, updatedAt := script.attached.now);
      AcceptsAfter(cfg, before, script.attached, attached)
  {
    AttachTransition(cfg.rules, owned, script.session, script.attached.now);
    var before := Step(cfg, Run(cfg, s, script.attaching), InAcquire(AttachAnswers(script.session)));
    assert before.durable == Some(owned);
    QuietSave(cfg, before, script.attached,
              owned.(sessionID := script.session, phase := Attached, updatedAt := script.attached.now));
  }

  /** The record of an attached page, from the intent to create it. */
  predicate Opened(intent: Record, script: AcquireScript, record: Record) {
    record == intent.(targetID := record.targetID, sessionID := script.session, cleanup := CleanupAwaited,
                      phase := Attached, updatedAt := record.updatedAt)
  }

  /** From the intent to a page the journal owns. */
  method Obtain(w: World, intent: Record, script: AcquireScript) returns (ok: bool, record: Record)
    requires w.Good() && w.sys.owner == Acquiring(Sending, intent) && AcquireForeign(script)
    requires w.sys.durable == Some(intent) && Valid(w.cfg.rules, intent)
    requires intent.phase == TargetCreatePending && intent.targetID == "" && Untried(intent)
    modifies w`sys, w`pages, w.journal
    ensures w.Good() && w.sys.owner == if ok then Acquiring(Attaching, record) else Absent
    ensures ok ==>
              && script.answered && script.preserved && w.sys.durable == Some(record)
              && record == intent.(targetID := record.targetID, cleanup := CleanupAwaited, phase := TargetOwned,
                                   updatedAt := record.updatedAt)
    ensures FreeToOpen(w.cfg, old(w.sys), intent, script) ==>
              ok && record.updatedAt == script.owned.now && Valid(w.cfg.rules, record)
  {
    ghost var free := FreeToOpen(w.cfg, w.sys, intent, script);
    if free {
      PageComes(w.cfg, w.sys, intent, script);
    }
    var result, saved;
    ok, record, result, saved := CreateTarget(w, intent, script);
    if !ok {
      return;
    }
    if free {
      OwnsAtOnce(w.cfg, w.sys, intent, record, record.targetID, script);
    }
    ok, record := OwnTarget(w, record, script);
  }

  /** Attach to the page and send it to its address. */
  method Open(w: World, owned: Record, script: AcquireScript) returns (ok: bool, record: Record)
    requires w.Good() && w.sys.owner == Acquiring(Attaching, owned) && AcquireForeign(script)
    modifies w`sys, w`pages, w.journal
    ensures w.Good() && w.sys.owner == if ok then Holding(record, false) else Absent
    ensures ok ==>
              && script.session != "" && script.navigated
              && record == owned.(sessionID := script.session, phase := Attached, updatedAt := script.attached.now)
    ensures
      var before := Step(w.cfg, Run(w.cfg, old(w.sys), script.attaching), InAcquire(AttachAnswers(script.session)));
      var attached := owned.(sessionID := script.session, phase := Attached, updatedAt := script.attached.now);
      ok <==> script.navigated && script.session != "" && AcceptsAfter(w.cfg, before, script.attached, attached)
  {
    ok, record := AttachTarget(w, owned, script);
    if ok {
      ok, record := OpenInitialPage(w, record, script);
    }
  }

  /** Either a lease on an attached page, or nothing: no owner, and the input lock given back. A lease is
      given only after favourable replies, and always when nothing stands in the way. */
  method Acquire(w: World, q: Request, usesLock: bool, script: AcquireScript) returns (lease: Lease?, lockHeld: bool)
    requires w.Good() && w.sys.owner == Absent && AcquireForeign(script)
    modifies w`sys, w`pages, w.journal
    ensures w.Good() && lockHeld == (lease != null && usesLock)
    ensures lease == null ==> w.sys.owner == Absent
    ensures lease != null ==>
              && fresh(lease) && lease.world == w && lease.Valid()
              && lease.inputLocked == usesLock && !lease.closed
              && Opened(PlannedRecord(q, script.createdAt), script, lease.record)
    ensures old(w.journal.cell).Some? ==> lease == null && w.journal.cell == old(w.journal.cell)
    ensures lease != null ==>
              && ValidRequest(w.cfg.rules, q) && script.verdict == WithinBudget && script.locked
              && script.answered && script.preserved && script.session != "" && script.navigated
    ensures
      var intent := PlannedRecord(q, script.createdAt).(phase := TargetCreatePending, updatedAt := script.intent.now);
      FreeToIntend(w.cfg, old(w.sys), q, script) && FreeToOpen(w.cfg, old(w.sys), intent, script) ==> lease != null
  {
    ghost var before := w.sys;
    lease, lockHeld := null, false;
    var ok, record := Intend(w, q, script);
    if !ok {
      return;
    }
    ghost var free := FreeToIntend(w.cfg, before, q, script) && FreeToOpen(w.cfg, before, record, script);
    ok, record := Obtain(w, record, script);
    if !ok {
      return;
    }
    if free {
      AttachesAtOnce(w.cfg, w.sys, record, script);
    }
    ok, record := Open(w, record, script);
    if ok {
      lease := new Lease(w, record, usesLock);
      lockHeld := usesLock;
    }
  }
}
