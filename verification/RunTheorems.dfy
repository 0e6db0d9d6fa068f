/** What holds of every interleaving of one owner, any number of Recover calls, crashes, failing
    saves and a browser that only keeps to Protocol.Possible. */
module RunTheorems {
  import opened Basics
  import opened Records
  import opened Histories
  import opened Journal
  import opened Protocol
  import opened DispatchSafety
  import opened TargetSafety
  import opened Frames

  // ------------------------------------------------- input is sent at most once

  /** Per action slot: at most one raw input, and no more dispatcher calls than configured. */
  lemma InputAtMostOnce(cfg: Config, acts: seq<Action>, slot: nat)
    ensures Run(cfg, Initial, acts).raw[slot] <= 1
    ensures Run(cfg, Initial, acts).calls[slot] <= cfg.maxAttempts
  {
    InitiallySafe(cfg);
    RunKeepsSafe(cfg, Initial, acts);
  }

  /** Once input was sent in a slot, the journal says so or still says that it cannot tell. */
  lemma InputNeverForgotten(cfg: Config, acts: seq<Action>, slot: nat)
    requires slot in Run(cfg, Initial, acts).raw
    ensures
      var s := Run(cfg, Initial, acts);
      s.durable.Some? && Evidence(s.durable.value, slot)
  {
    InitiallySafe(cfg);
    RunKeepsSafe(cfg, Initial, acts);
  }

  // ------------------------------------------------------ one journal, one chain

  /** A step leaves the journal alone or makes one accepted replacement. */
  ghost predicate OneReplacement(cfg: Config, before: Option<Record>, after: Option<Record>) {
    || after == before
    || before.None?
    || (after.Some? && ValidTransition(cfg.rules, before.value, after.value))
  }

  ghost predicate NotPending(before: Option<Record>, after: Option<Record>) {
    after != before && after.Some? ==> after.value.phase != ActionPending
  }

  lemma CleanReplaces(cfg: Config, s: State, c: Cleaner, move: CleanMove)
    ensures OneReplacement(cfg, s.durable, Clean(cfg, s, c, move).0.durable)
    ensures c.rec.phase != ActionPending ==> NotPending(s.durable, Clean(cfg, s, c, move).0.durable)
  {
  }

  lemma SaveReplaces(cfg: Config, s: State, rec: Record, fault: Fault)
    requires rec.phase != ActionPending
    ensures OneReplacement(cfg, s.durable, Save(cfg, s, rec, fault).0.durable)
    ensures NotPending(s.durable, Save(cfg, s, rec, fault).0.durable)
  {
  }

  lemma CheckBudgetReplaces(cfg: Config, s: State, rec: Record, verdict: BudgetVerdict, now: int, fault: Fault)
    ensures OneReplacement(cfg, s.durable, DoCheckBudget(cfg, s, rec, verdict, now, fault).durable)
    ensures NotPending(s.durable, DoCheckBudget(cfg, s, rec, verdict, now, fault).durable)
  {
  }

  lemma TakeLockReplaces(cfg: Config, s: State, rec: Record, locked: bool, now: int, fault: Fault)
    ensures OneReplacement(cfg, s.durable, DoTakeLock(cfg, s, rec, locked, now, fault).durable)
    ensures NotPending(s.durable, DoTakeLock(cfg, s, rec, locked, now, fault).durable)
  {
  }

  lemma AcquireReplaces(cfg: Config, s: State, stage: AcquireStage, rec: Record, move: AcquireMove)
    requires s.owner == Acquiring(stage, rec) && AcquirePlaced(s, stage, rec)
    requires move.CreateAnswers? && move.ok ==> s.born.Some?
    ensures OneReplacement(cfg, s.durable, AcquireStep(cfg, s, stage, rec, move).durable)
    ensures NotPending(s.durable, AcquireStep(cfg, s, stage, rec, move).durable)
  {
    if move.CheckBudget? {
      CheckBudgetReplaces(cfg, s, rec, move.verdict, move.now, move.fault);
    } else if move.TakeLock? {
      TakeLockReplaces(cfg, s, rec, move.locked, move.now, move.fault);
    } else if (move.SaveFailure? && stage == SavingFailure) || (move.SaveOwned? && stage.SavingOwned?)
              || (move.SaveAttached? && stage == SavingAttached) {
      SaveReplaces(cfg, s, rec.(updatedAt := move.now), move.fault);
    } else {
      assert AcquireStep(cfg, s, stage, rec, move).durable == s.durable;
    }
  }

  lemma CallReplaces(cfg: Config, s: State, m: Record, closed: bool, op: LeaseOp, now: int, fault: Fault)
    ensures OneReplacement(cfg, s.durable, DoCall(cfg, s, m, closed, op, now, fault).durable)
    ensures NotPending(s.durable, DoCall(cfg, s, m, closed, op, now, fault).durable)
  {
    ProposalKeepsTarget(cfg.rules, m, closed, op);
  }

  lemma LeaseReplaces(cfg: Config, s: State, move: LeaseMove)
    requires OwnerPlaced(s)
    ensures OneReplacement(cfg, s.durable, LeaseStep(cfg, s, move).durable)
    ensures !move.BeginDispatch? ==> NotPending(s.durable, LeaseStep(cfg, s, move).durable)
  {
    if move.Call? && s.owner.Holding? {
      CallReplaces(cfg, s, s.owner.rec, s.owner.closed, move.op, move.now, move.fault);
    }
  }

  lemma RecoverReplaces(cfg: Config, s: State, i: nat, move: RecoverMove)
    requires i < |s.recoverers| && RecovererPlaced(s, s.recoverers[i])
    ensures OneReplacement(cfg, s.durable, RecoverStep(cfg, s, i, move).durable)
    ensures NotPending(s.durable, RecoverStep(cfg, s, i, move).durable)
  {
    var p := s.recoverers[i];
    if move.Cleans? && p.Clearing? {
      CleanReplaces(cfg, s, p.cleaner, move.move);
    }
  }

  lemma StepReplaces(cfg: Config, s: State, a: Action)
    requires Placed(cfg, s)
    ensures OneReplacement(cfg, s.durable, Step(cfg, s, a).durable)
    ensures !(a.InLease? && a.lease.BeginDispatch?) && s.durable.Some? ==>
              NotPending(s.durable, Step(cfg, s, a).durable)
  {
    if Possible(cfg, s, a) {
      match a
      case InAcquire(move) =>
        if s.owner.Acquiring? {
          AcquireReplaces(cfg, s, s.owner.stage, s.owner.rec, move);
        }
      case InLease(move) => LeaseReplaces(cfg, s, move);
      case OwnerCleans(move) =>
        if s.owner.Cleaning? {
          CleanReplaces(cfg, s, s.owner.cleaner, move);
        }
      case InRecover(i, move) =>
        if i < |s.recoverers| {
          RecoverReplaces(cfg, s, i, move);
        }
      case Begin(q, now, fault) =>
      case OwnerCrashes =>
      case Recover(readable, now) =>
      case InWorld(move) => assert WorldStep(cfg, s, move).durable == s.durable;
    }
  }

  lemma {:induction false} ChainFrom(cfg: Config, s: State, acts: seq<Action>)
    requires Placed(cfg, s)
    ensures CellExtends(s.durable, Run(cfg, s, acts).durable)
    decreases |acts|
  {
    if acts != [] {
      var s1 := Step(cfg, s, acts[0]);
      StepReplaces(cfg, s, acts[0]);
      StepKeepsPlaced(cfg, s, acts[0]);
      if s.durable.Some? && s1.durable != s.durable {
        TransitionIsLater(cfg.rules, s.durable.value, s1.durable.value);
      }
      ChainFrom(cfg, s1, acts[1..]);
      CellExtendsTransitive(s.durable, s1.durable, Run(cfg, s, acts).durable);
    }
  }

  /** From any point of any run to any later one, the journal keeps its past. */
  lemma JournalKeepsItsPast(cfg: Config, before: seq<Action>, after: seq<Action>)
    ensures
      var s := Run(cfg, Initial, before);
      CellExtends(s.durable, Run(cfg, s, after).durable)
  {
    InitiallyPlaced(cfg);
    RunKeepsPlaced(cfg, Initial, before);
    ChainFrom(cfg, Run(cfg, Initial, before), after);
  }

  lemma {:induction false} FenceFrom(cfg: Config, s: State, acts: seq<Action>)
    requires Placed(cfg, s) && s.durable.Some? && Fenced(s.durable.value.phase)
    ensures
      var t := Run(cfg, s, acts);
      && t.calls == s.calls
      && t.durable.Some? && Fenced(t.durable.value.phase)
      && (s.durable.value.dispatch == Unknown ==> t.durable.value.dispatch == Unknown)
    decreases |acts|
  {
    if acts != [] {
      var s1 := Step(cfg, s, acts[0]);
      StepReplaces(cfg, s, acts[0]);
      StepKeepsPlaced(cfg, s, acts[0]);
      if s1.durable != s.durable {
        TransitionIsLater(cfg.rules, s.durable.value, s1.durable.value);
      }
      FenceRefusesCall(cfg, s, acts[0]);
      FenceFrom(cfg, s1, acts[1..]);
    }
  }

  /** Fencing: once a journal says cleanup pending, closed or failed, no later dispatcher call starts
      anywhere, and an unknown dispatch stays unknown whatever late lease saves are offered. */
  lemma FenceStopsDispatch(cfg: Config, before: seq<Action>, after: seq<Action>)
    requires Run(cfg, Initial, before).durable.Some? && Fenced(Run(cfg, Initial, before).durable.value.phase)
    ensures
      var s := Run(cfg, Initial, before);
      var t := Run(cfg, s, after);
      && t.calls == s.calls
      && t.durable.Some? && Fenced(t.durable.value.phase)
      && (s.durable.value.dispatch == Unknown ==> t.durable.value.dispatch == Unknown)
  {
    InitiallyPlaced(cfg);
    RunKeepsPlaced(cfg, Initial, before);
    FenceFrom(cfg, Run(cfg, Initial, before), after);
  }

  lemma FenceRefusesIntent(cfg: Config, s: State, m: Record, now: int, fault: Fault)
    requires s.durable.Some? && Fenced(s.durable.value.phase)
    ensures DoBeginDispatch(cfg, s, m, now, fault) == s
  {
    assert !ValidTransition(cfg.rules, s.durable.value, PendingRecord(m, now));
  }

  lemma FenceRefusesCall(cfg: Config, s: State, a: Action)
    requires s.durable.Some? && Fenced(s.durable.value.phase)
    ensures Step(cfg, s, a).calls == s.calls
  {
    if a.InLease? && a.lease.BeginDispatch? && s.owner.Holding? {
      FenceRefusesIntent(cfg, s, s.owner.rec, a.lease.now, a.lease.fault);
    } else if a.InLease? {
      LeaseCallsOnlyByBegin(cfg, s, a.lease);
    } else if a.InAcquire? && s.owner.Acquiring? && Possible(cfg, s, a) {
      AcquireFrame(cfg, s, s.owner.stage, s.owner.rec, a.acquire);
    } else if a.InRecover? && a.index < |s.recoverers| {
      RecoverNeverCalls(cfg, s, a.index, a.recover);
    }
  }

  // ------------------------------------------------------------- termination

  /** How often a run changes the durable phase. */
  function PhaseChanges(cfg: Config, s: State, acts: seq<Action>): nat
    decreases |acts|
  {
    if acts == [] then 0
    else
      var s1 := Step(cfg, s, acts[0]);
      (if s.durable.Some? && s1.durable.Some? && s.durable.value.phase != s1.durable.value.phase then 1 else 0)
      + PhaseChanges(cfg, s1, acts[1..])
  }

  function Budget(s: State): int {
    if s.durable.None? then MEASURE_BOUND else Measure(s.durable.value)
  }

  lemma BeginPaysWithAnAttempt(cfg: Config, s: State, now: int, fault: Fault)
    requires Safe(cfg, s) && s.owner.Holding? && MayDispatch(cfg, s.owner.rec, s.owner.closed)
    requires s.durable.Some? && s.durable.value.phase == Prepared
    requires DoBeginDispatch(cfg, s, s.owner.rec, now, fault).durable != s.durable
    ensures s.durable.value.attempts < DoBeginDispatch(cfg, s, s.owner.rec, now, fault).durable.value.attempts
  {
    Accepted(cfg, s, PendingRecord(s.owner.rec, now), fault);
  }

  lemma StepPays(cfg: Config, s: State, a: Action)
    requires Safe(cfg, s) && Placed(cfg, s) && cfg.maxAttempts <= 2
    ensures
      var s1 := Step(cfg, s, a);
      && 0 <= Budget(s1) <= Budget(s)
      && (s.durable.Some? && s1.durable.Some? && s.durable.value.phase != s1.durable.value.phase ==>
            Budget(s1) < Budget(s))
  {
    var s1 := Step(cfg, s, a);
    StepReplaces(cfg, s, a);
    StepKeepsSafe(cfg, s, a);
    StepKeepsPlaced(cfg, s, a);
    if s.durable.Some? && s1.durable != s.durable {
      var d, d1 := s.durable.value, s1.durable.value;
      if d.phase == Prepared && d1.phase == ActionPending {
        BeginPaysWithAnAttempt(cfg, s, a.lease.now, a.lease.fault);
      }
      MeasureDecreases(cfg.rules, d, d1);
    }
  }

  lemma {:induction false} PhaseChangesPay(cfg: Config, s: State, acts: seq<Action>)
    requires Safe(cfg, s) && Placed(cfg, s) && cfg.maxAttempts <= 2
    ensures PhaseChanges(cfg, s, acts) + Budget(Run(cfg, s, acts)) <= Budget(s)
    ensures 0 <= Budget(Run(cfg, s, acts))
    decreases |acts|
  {
    if acts != [] {
      StepPays(cfg, s, acts[0]);
      StepKeepsSafe(cfg, s, acts[0]);
      StepKeepsPlaced(cfg, s, acts[0]);
      PhaseChangesPay(cfg, Step(cfg, s, acts[0]), acts[1..]);
    } else {
      assert s.durable.Some? ==> Valid(cfg.rules, s.durable.value) && s.durable.value.attempts <= 2;
    }
  }

  /** No run changes its durable phase for ever, despite the retry and next-action cycles. */
  lemma PhaseChangesAreBounded(cfg: Config, acts: seq<Action>)
    requires cfg.maxAttempts <= 2
    ensures PhaseChanges(cfg, Initial, acts) <= MEASURE_BOUND
  {
    InitiallySafe(cfg);
    InitiallyPlaced(cfg);
    PhaseChangesPay(cfg, Initial, acts);
  }

  // ----------------------------------------------------------- the run's page

  /** Whatever crashes, an open page of the run is named by the journal or still at its marker. */
  lemma PageAlwaysFindable(cfg: Config, acts: seq<Action>)
    ensures
      var s := Run(cfg, Initial, acts);
      && (forall id | id in s.closeLog :: s.born == Some(id))
      && (BornOpen(s) ==>
            && s.durable.Some?
            && (|| s.durable.value.targetID == s.born.value
                || (s.durable.value.targetID == "" && s.pages[s.born.value] == cfg.marker)))
      && (s.durable.Some? && s.durable.value.phase == Closed ==>
            s.born == Some(s.durable.value.targetID) && !BornOpen(s))
  {
    InitiallyPlaced(cfg);
    RunKeepsPlaced(cfg, Initial, acts);
  }

  /** A Recover that loads the journal now goes after exactly the run's page: by its id, or by a search
      that cannot bring another page and cannot come back without one. */
  ghost predicate GoesAfterPage(cfg: Config, s: State, now: int)
    requires s.durable.Some? && s.born.Some?
  {
    var d := s.durable.value;
    || (d.targetID == s.born.value && StartRecover(cfg, d, now) == RecoverTarget(cfg, d, now))
    || (&& StartRecover(cfg, d, now) == Searching(d)
        && (forall result :: TrueSearch(cfg, s, result) ==> result == Found(s.born.value) || result == SearchFailed))
  }

  lemma SearchFindsPage(cfg: Config, s: State, result: Search)
    requires BornOpen(s) && s.pages[s.born.value] == cfg.marker && TrueSearch(cfg, s, result)
    ensures result == Found(s.born.value) || result == SearchFailed
  {
  }

  /** While the run's page is open, a Recover that starts now leaves it exactly when the journal gives
      it up, which takes a page that appeared after a marker search had given up. */
  lemma PageLostExactly(cfg: Config, acts: seq<Action>, now: int)
    requires BornOpen(Run(cfg, Initial, acts))
    ensures
      var s := Run(cfg, Initial, acts);
      && s.durable.Some?
      && (GivesUp(s.durable.value) <==> StartRecover(cfg, s.durable.value, now) == Answered(CleanupNotRequired, true))
      && (GivesUp(s.durable.value) <==> !GoesAfterPage(cfg, s, now))
      && (GivesUp(s.durable.value) ==> s.late)
  {
    InitiallyPlaced(cfg);
    RunKeepsPlaced(cfg, Initial, acts);
    var s := Run(cfg, Initial, acts);
    if s.durable.value.targetID == "" {
      forall result | TrueSearch(cfg, s, result) ensures result == Found(s.born.value) || result == SearchFailed {
        SearchFindsPage(cfg, s, result);
      }
    }
  }

  /** If no page appears after a marker search has given up, a Recover that starts while the run's
      page is open goes after exactly that page. */
  lemma PageNeverForgotten(cfg: Config, acts: seq<Action>, now: int)
    requires BornOpen(Run(cfg, Initial, acts)) && !Run(cfg, Initial, acts).late
    ensures
      var s := Run(cfg, Initial, acts);
      s.durable.Some? && GoesAfterPage(cfg, s, now)
  {
    PageLostExactly(cfg, acts, now);
  }

  /** Recoverer `i` reaches a new answer in the step from `s` to `t`. */
  ghost predicate Answers(s: State, t: State, i: nat, answer: Recoverer) {
    i < |t.recoverers| && t.recoverers[i] == answer && (i < |s.recoverers| ==> s.recoverers[i] != answer)
  }

  lemma RecoverSeesNothing(cfg: Config, s: State, readable: bool, now: int, i: nat, clean: bool)
    ensures
      var t := DoRecover(cfg, s, readable, now);
      Answers(s, t, i, Answered(CleanupNotRequired, clean)) ==> SeesNothing(t, clean)
  {
  }

  lemma NotRequiredSeesNothing(cfg: Config, s: State, a: Action, i: nat, clean: bool)
    requires Placed(cfg, s)
    ensures Answers(s, Step(cfg, s, a), i, Answered(CleanupNotRequired, clean)) ==> SeesNothing(Step(cfg, s, a), clean)
  {
    if !Possible(cfg, s, a) {
    } else if a.InRecover? {
      if a.index < |s.recoverers| {
        AnswersItself(cfg, s, a.index, a.recover, i, clean);
      }
    } else if a.Recover? {
      RecoverSeesNothing(cfg, s, a.readable, a.now, i, clean);
    } else {
      RecoverersUnchanged(cfg, s, a);
    }
  }

  lemma AnswersItself(cfg: Config, s: State, k: nat, move: RecoverMove, i: nat, clean: bool)
    requires Placed(cfg, s) && k < |s.recoverers|
    ensures
      var t := RecoverStep(cfg, s, k, move);
      Answers(s, t, i, Answered(CleanupNotRequired, clean)) ==> SeesNothing(t, clean)
  {
    assert RecovererPlaced(s, s.recoverers[k]);
    RecoverLeavesOthers(cfg, s, k, move);
    if s.recoverers[k] != Answered(CleanupNotRequired, clean) {
      VerdictSeesNothing(cfg, s, k, move, clean);
    }
  }

  lemma VerdictSeesNothing(cfg: Config, s: State, i: nat, move: RecoverMove, clean: bool)
    requires i < |s.recoverers| && RecovererPlaced(s, s.recoverers[i])
    requires s.recoverers[i] != Answered(CleanupNotRequired, clean)
    ensures
      var t := RecoverStep(cfg, s, i, move);
      i < |t.recoverers| && t.recoverers[i] == Answered(CleanupNotRequired, clean) ==> SeesNothing(t, clean)
  {
    var p := s.recoverers[i];
    match move
    case Searches(result, now) =>
    case SaveVerdict(now, fault) =>
      if p.SavingVerdict? {
        SavedVerdictSeesNothing(cfg, s, p.rec.(updatedAt := now), fault);
      }
    case SaveEvidence(now, fault) =>
    case Cleans(m) =>
  }

  lemma SavedVerdictSeesNothing(cfg: Config, s: State, rec: Record, fault: Fault)
    requires rec.targetID == ""
    ensures
      var (s', ok) := Save(cfg, s, rec, fault);
      s.missed ==> SeesNothing(s', ok)
  {
  }

  /** When a Recover answers that nothing needs cleaning, with an error or without, the answer is wrong
      exactly when it comes with an error and the journal it leaves names an open page, the run's own. */
  lemma NotRequiredExactly(cfg: Config, before: seq<Action>, a: Action, i: nat, clean: bool)
    ensures
      var s := Run(cfg, Initial, before);
      var t := Step(cfg, s, a);
      Answers(s, t, i, Answered(CleanupNotRequired, clean)) && !t.late ==>
        && (BornOpen(t) <==> !clean && NamesOpenPage(t))
        && (BornOpen(t) ==> t.durable.value.targetID == t.born.value)
  {
    InitiallyPlaced(cfg);
    RunKeepsPlaced(cfg, Initial, before);
    var s := Run(cfg, Initial, before);
    var t := Step(cfg, s, a);
    StepKeepsPlaced(cfg, s, a);
    NotRequiredSeesNothing(cfg, s, a, i, clean);
    if SeesNothing(t, clean) && !t.late {
      NothingSeenExactly(cfg, t, clean);
    }
  }

  /** In particular, an answer without an error is right. */
  lemma AllClearIsTrue(cfg: Config, before: seq<Action>, a: Action, i: nat)
    ensures
      var s := Run(cfg, Initial, before);
      var t := Step(cfg, s, a);
      Answers(s, t, i, Answered(CleanupNotRequired, true)) && !t.late ==> !BornOpen(t)
  {
    NotRequiredExactly(cfg, before, a, i, true);
  }

  /** A Recover that reports the target closed tells the truth, whatever happened before or since. */
  lemma ClosedAnswerIsTrue(cfg: Config, acts: seq<Action>, i: nat)
    requires i < |Run(cfg, Initial, acts).recoverers|
    requires Run(cfg, Initial, acts).recoverers[i].Answered?
    requires Run(cfg, Initial, acts).recoverers[i].answer == CleanupClosed
    ensures Run(cfg, Initial, acts).born.Some? && !BornOpen(Run(cfg, Initial, acts))
  {
    InitiallyPlaced(cfg);
    RunKeepsPlaced(cfg, Initial, acts);
    assert RecovererPlaced(Run(cfg, Initial, acts), Run(cfg, Initial, acts).recoverers[i]);
  }

  // --------------------------------------------------- moving on to another action

  /** What a completed action must look like for the run to move on to an action called `name`. */
  predicate MayBeginNext(rules: TextRules, m: Record, name: string, now: int) {
    && m.actionName != "" && m.actionName in rules.identity
    && name != "" && name in rules.identity && name in rules.safe
    && m.postcondition == "" && m.dispatch != Undispatched
    && |m.completed| < MAX_COMPLETED && m.updatedAt <= now
  }

  lemma NextActionAccepted(rules: TextRules, m: Record, name: string, now: int)
    requires Valid(rules, m) && (m.phase == Terminal || m.phase == Incomplete)
    requires m.actionName != "" && name in rules.identity
    ensures ValidTransition(rules, m, NextAction(m, name).(updatedAt := now)) <==> MayBeginNext(rules, m, name, now)
  {
    var next := NextAction(m, name).(updatedAt := now);
    assert next.completed[|m.completed|] == Archive(m);
    assert m.completed <= next.completed;
    if ValidCompleted(rules, Archive(m)) {
      forall a | a in next.completed ensures ValidCompleted(rules, a) {
        assert a in m.completed || a == Archive(m);
      }
    }
  }

  /** When the lease and the journal agree, this is exactly when the next action can begin. In
      particular a slot confirmed by a postcondition, or never dispatched, is the run's last. */
  lemma NextActionExactly(cfg: Config, s: State, name: string, now: int)
    requires s.owner.Holding? && !s.owner.closed && s.durable == Some(s.owner.rec) && Valid(cfg.rules, s.owner.rec)
    requires s.owner.rec.phase == Terminal || s.owner.rec.phase == Incomplete
    ensures
      var m := s.owner.rec;
      var t := LeaseStep(cfg, s, Call(BeginNextAction(name), now, Lands));
      (t.owner.Holding? && Slot(t.owner.rec) == Slot(m) + 1) <==> MayBeginNext(cfg.rules, m, name, now)
  {
    var m := s.owner.rec;
    if m.actionName != "" && name in cfg.rules.identity {
      NextActionAccepted(cfg.rules, m, name, now);
    }
  }

  lemma {:induction false} PinnedFrom(cfg: Config, s: State, acts: seq<Action>)
    requires Placed(cfg, s) && s.durable.Some? && s.durable.value.postcondition != ""
    ensures
      var t := Run(cfg, s, acts);
      && t.durable.Some? && t.durable.value.completed == s.durable.value.completed
      && t.durable.value.postcondition == s.durable.value.postcondition
    decreases |acts|
  {
    if acts != [] {
      StepReplaces(cfg, s, acts[0]);
      StepKeepsPlaced(cfg, s, acts[0]);
      var s1 := Step(cfg, s, acts[0]);
      assert s1.durable.value.completed == s.durable.value.completed;
      PinnedFrom(cfg, s1, acts[1..]);
    }
  }

  /** A recorded postcondition keeps every later journal of the run in its slot. */
  lemma PostconditionPinsSlot(cfg: Config, before: seq<Action>, after: seq<Action>)
    requires Run(cfg, Initial, before).durable.Some? && Run(cfg, Initial, before).durable.value.postcondition != ""
    ensures
      var s := Run(cfg, Initial, before);
      var t := Run(cfg, s, after);
      && t.durable.Some? && t.durable.value.completed == s.durable.value.completed
      && t.durable.value.postcondition == s.durable.value.postcondition
  {
    InitiallyPlaced(cfg);
    RunKeepsPlaced(cfg, Initial, before);
    PinnedFrom(cfg, Run(cfg, Initial, before), after);
  }
}
