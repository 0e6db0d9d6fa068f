/** Two runs, step by step, that show where a Recover's answer can be wrong. */
module ConcreteRuns {
  import opened Basics
  import opened Records
  import opened Journal
  import opened Protocol
  import opened TargetSafety

  /** The inputs of a run. */
  datatype Scenario = Scenario(cfg: Config, q: Request, id: string, session: string, url: string)

  /** A request that is accepted, with an action name the validator lets through. */
  predicate Acceptable(x: Scenario) {
    ValidRequest(x.cfg.rules, x.q) && SafeOrEmpty(x.cfg.rules, x.q.actionName) && x.id != ""
  }

  /** Ids the validator lets through as well, and an initial address other than the marker. */
  predicate Usable(x: Scenario) {
    && Acceptable(x)
    && x.id in x.cfg.rules.safe
    && x.session != "" && x.session in x.cfg.rules.safe
    && x.url != x.cfg.marker
  }

  function RecordAt(x: Scenario, phase: Phase, error: ErrorClass): Record {
    PlannedRecord(x.q, 0).(phase := phase, lastError := error)
  }

  lemma {:induction false} RunAppend(cfg: Config, s: State, a: seq<Action>, b: seq<Action>)
    ensures Run(cfg, s, a + b) == Run(cfg, Run(cfg, s, a), b)
    decreases |a|
  {
    if a == [] {
      assert a + b == b;
    } else {
      assert (a + b)[1..] == a[1..] + b;
      RunAppend(cfg, Step(cfg, s, a[0]), a[1..], b);
    }
  }

  /** The steps lead from each state to the next. */
  lemma {:induction false} RunThrough(cfg: Config, states: seq<State>, acts: seq<Action>)
    requires |states| == |acts| + 1
    requires forall i, k :: 0 <= i < |acts| && k == i + 1 ==> Step(cfg, states[i], acts[i]) == states[k]
    ensures Run(cfg, states[0], acts) == states[|acts|]
    decreases |acts|
  {
    if acts != [] {
      RunThrough(cfg, states[1..], acts[1..]);
    }
  }

  // ------------------------------------------------ up to the intent to create a page

  function Intending(x: Scenario): seq<Action> {
    [Begin(x.q, 0, Lands),
     InAcquire(CheckBudget(WithinBudget, 0, Lands)),
     InAcquire(TakeLock(true, 0, Lands))]
  }

  function PlannedState(x: Scenario): State {
    var planned := RecordAt(x, Planned, NoError);
    Initial.(durable := Some(planned), owner := Acquiring(CheckingBudget, planned))
  }

  function CheckedState(x: Scenario): State {
    var checked := RecordAt(x, BudgetChecked, NoError);
    Initial.(durable := Some(checked), owner := Acquiring(TakingLock, checked))
  }

  function IntentState(x: Scenario): State {
    var intent := RecordAt(x, TargetCreatePending, NoError);
    Initial.(durable := Some(intent), owner := Acquiring(Sending, intent))
  }

  lemma EarlySave(x: Scenario, from: Phase, to: Phase, error: ErrorClass)
    requires Acceptable(x) && AllowedTransition(from, to) && !AtOrAfterTarget(to)
    ensures
      var next := RecordAt(x, to, error);
      SaveCell(x.cfg.rules, Some(RecordAt(x, from, NoError)), next.(updatedAt := 0), Lands) == (Some(next), true)
  {
    assert RecordAt(x, to, error).(updatedAt := 0) == RecordAt(x, to, error);
  }

  lemma Begins(x: Scenario)
    requires Acceptable(x)
    ensures Step(x.cfg, Initial, Intending(x)[0]) == PlannedState(x)
  {
    assert PlannedRecord(x.q, 0) == RecordAt(x, Planned, NoError);
  }

  lemma ChecksBudget(x: Scenario)
    requires Acceptable(x)
    ensures Step(x.cfg, PlannedState(x), Intending(x)[1]) == CheckedState(x)
  {
    EarlySave(x, Planned, BudgetChecked, NoError);
  }

  lemma RecordsIntent(x: Scenario)
    requires Acceptable(x)
    ensures Step(x.cfg, CheckedState(x), Intending(x)[2]) == IntentState(x)
  {
    EarlySave(x, BudgetChecked, TargetCreatePending, NoError);
  }

  lemma Intends(x: Scenario)
    requires Acceptable(x)
    ensures Run(x.cfg, Initial, Intending(x)) == IntentState(x)
  {
    Begins(x);
    ChecksBudget(x);
    RecordsIntent(x);
    RunThrough(x.cfg, [Initial, PlannedState(x), CheckedState(x), IntentState(x)], Intending(x));
  }

  // ---------------------------------------------------- a page that comes too late

  /** The create call times out, the reconcile window passes, and only then does the page appear. */
  function LateCreation(x: Scenario): seq<Action> {
    [InAcquire(SendCreate),
     InAcquire(CreateAnswers(false)),
     InAcquire(OwnerSearches(NothingFound)),
     InAcquire(SaveFailure(0, Lands)),
     InWorld(PageAppears(x.id))]
  }

  function LateStates(x: Scenario): seq<State> {
    var intent, failed := RecordAt(x, TargetCreatePending, NoError), RecordAt(x, Failed, CreateFailed);
    var sent := IntentState(x).(owner := Acquiring(AwaitingCreate, intent), requested := true);
    var over := sent.(durable := Some(failed), owner := Absent, missed := true);
    [IntentState(x),
     sent,
     sent.(owner := Acquiring(Reconciling, intent)),
     sent.(owner := Acquiring(SavingFailure, failed), missed := true),
     over,
     over.(requested := false, born := Some(x.id), pages := map[x.id := x.cfg.marker], late := true)]
  }

  lemma LateMoves(x: Scenario, i: nat)
    requires Acceptable(x) && (i < 3 || i == 4)
    ensures Step(x.cfg, LateStates(x)[i], LateCreation(x)[i]) == LateStates(x)[i + 1]
  {
  }

  lemma SaveFailureSteps(cfg: Config, s: State, rec: Record)
    ensures
      AcquireStep(cfg, s, SavingFailure, rec, SaveFailure(0, Lands))
      == s.(durable := SaveCell(cfg.rules, s.durable, rec.(updatedAt := 0), Lands).0, owner := Absent)
  {
  }

  lemma FailureSaves(x: Scenario, s: State)
    requires Acceptable(x)
    requires s.durable == Some(RecordAt(x, TargetCreatePending, NoError))
    ensures
      AcquireStep(x.cfg, s, SavingFailure, RecordAt(x, Failed, CreateFailed), SaveFailure(0, Lands))
      == s.(durable := Some(RecordAt(x, Failed, CreateFailed)), owner := Absent)
  {
    EarlySave(x, TargetCreatePending, Failed, CreateFailed);
    SaveFailureSteps(x.cfg, s, RecordAt(x, Failed, CreateFailed));
  }

  lemma LateFailure(x: Scenario)
    requires Acceptable(x)
    ensures Step(x.cfg, LateStates(x)[3], LateCreation(x)[3]) == LateStates(x)[4]
  {
    FailureSaves(x, LateStates(x)[3]);
  }

  /** Without the visibility assumption the page is lost: Recover finds nothing to clean up. */
  lemma LatePageIsForgotten(x: Scenario, now: int)
    requires Acceptable(x)
    ensures
      var s := Run(x.cfg, Initial, Intending(x) + LateCreation(x));
      && BornOpen(s) && s.late && s.durable.Some?
      && StartRecover(x.cfg, s.durable.value, now) == Answered(CleanupNotRequired, true)
  {
    Intends(x);
    RunAppend(x.cfg, Initial, Intending(x), LateCreation(x));
    var acts, states := LateCreation(x), LateStates(x);
    forall i, k | 0 <= i < |acts| && k == i + 1 ensures Step(x.cfg, states[i], acts[i]) == states[k] {
      if i == 3 {
        LateFailure(x);
      } else {
        LateMoves(x, i);
      }
    }
    RunThrough(x.cfg, states, acts);
  }

  // ------------------------------------------------- a verdict that comes too late

  /** A Recover loads the record just before the create call goes out, and searches for the page only
      when the owner has long taken it elsewhere. */
  function StaleVerdict(x: Scenario): seq<Action> {
    [Recover(true, 0),
     InAcquire(SendCreate),
     InWorld(PageAppears(x.id)),
     InAcquire(CreateAnswers(true)),
     InAcquire(PreserveAnswers(true)),
     InAcquire(SaveOwned(0, Lands)),
     InAcquire(AttachAnswers(x.session)),
     InAcquire(SaveAttached(0, Lands)),
     InAcquire(NavigateAnswers(true, Some(x.url))),
     InRecover(0, Searches(NothingFound, 0)),
     InRecover(0, SaveVerdict(0, Lands))]
  }

  function OwnedRecord(x: Scenario): Record {
    RecordAt(x, TargetOwned, NoError).(targetID := x.id, cleanup := CleanupAwaited)
  }

  function AttachedRecord(x: Scenario): Record {
    OwnedRecord(x).(sessionID := x.session, phase := Attached)
  }

  function StaleStates(x: Scenario): seq<State> {
    var intent, owned, attached := RecordAt(x, TargetCreatePending, NoError), OwnedRecord(x), AttachedRecord(x);
    var loaded := IntentState(x).(recoverers := [Searching(intent)]);
    var sent := loaded.(owner := Acquiring(AwaitingCreate, intent));
    var open := sent.(born := Some(x.id), pages := map[x.id := x.cfg.marker]);
    var done := open.(durable := Some(attached), pages := map[x.id := x.url], owner := Holding(attached, false));
    [IntentState(x),
     loaded,
     sent.(requested := true),
     open,
     open.(owner := Acquiring(Preserving, intent.(targetID := x.id))),
     open.(owner := Acquiring(SavingOwned(false), owned)),
     open.(durable := Some(owned), owner := Acquiring(Attaching, owned)),
     open.(durable := Some(owned), owner := Acquiring(SavingAttached, attached)),
     open.(durable := Some(attached), owner := Acquiring(Navigating, attached)),
     done,
     done.(missed := true, recoverers := [SavingVerdict(RecordAt(x, Failed, CreateFailed), CleanupNotRequired)]),
     done.(missed := true, recoverers := [Answered(CleanupNotRequired, false)])]
  }

  lemma StaleLoad(x: Scenario)
    requires Usable(x)
    ensures Step(x.cfg, StaleStates(x)[0], StaleVerdict(x)[0]) == StaleStates(x)[1]
  {
  }

  lemma StaleCreates(x: Scenario, i: nat)
    requires Usable(x) && 1 <= i < 5
    ensures Step(x.cfg, StaleStates(x)[i], StaleVerdict(x)[i]) == StaleStates(x)[i + 1]
  {
  }

  lemma OwnedSaves(x: Scenario)
    requires Usable(x)
    ensures
      SaveCell(x.cfg.rules, Some(RecordAt(x, TargetCreatePending, NoError)), OwnedRecord(x).(updatedAt := 0), Lands)
      == (Some(OwnedRecord(x)), true)
  {
    assert OwnedRecord(x).(updatedAt := 0) == OwnedRecord(x);
  }

  lemma AttachedSaves(x: Scenario)
    requires Usable(x)
    ensures
      SaveCell(x.cfg.rules, Some(OwnedRecord(x)), AttachedRecord(x).(updatedAt := 0), Lands)
      == (Some(AttachedRecord(x)), true)
  {
    assert AttachedRecord(x).(updatedAt := 0) == AttachedRecord(x);
  }

  lemma VerdictRefused(x: Scenario)
    requires Usable(x)
    ensures
      SaveCell(x.cfg.rules, Some(AttachedRecord(x)), RecordAt(x, Failed, CreateFailed).(updatedAt := 0), Lands)
      == (Some(AttachedRecord(x)), false)
  {
  }

  lemma SaveOwnedSteps(cfg: Config, s: State, rec: Record, retry: bool)
    requires s.owner == Acquiring(SavingOwned(retry), rec)
    ensures Step(cfg, s, InAcquire(SaveOwned(0, Lands))) == DoSaveOwned(cfg, s, rec, retry, 0, Lands)
  {
  }

  lemma SaveAttachedSteps(cfg: Config, s: State, rec: Record)
    requires s.owner == Acquiring(SavingAttached, rec)
    ensures Step(cfg, s, InAcquire(SaveAttached(0, Lands))) == DoSaveAttached(cfg, s, rec, 0, Lands)
  {
  }

  lemma StaleOwns(x: Scenario)
    requires Usable(x)
    ensures Step(x.cfg, StaleStates(x)[5], StaleVerdict(x)[5]) == StaleStates(x)[6]
  {
    var s, next := StaleStates(x)[5], OwnedRecord(x);
    OwnedSaves(x);
    SaveOwnedSteps(x.cfg, s, next, false);
  }

  lemma StaleAttaches(x: Scenario)
    requires Usable(x)
    ensures Step(x.cfg, StaleStates(x)[7], StaleVerdict(x)[7]) == StaleStates(x)[8]
  {
    var s, next := StaleStates(x)[7], AttachedRecord(x);
    AttachedSaves(x);
    SaveAttachedSteps(x.cfg, s, next);
  }

  lemma StaleLeaves(x: Scenario, i: nat)
    requires Usable(x) && (i == 6 || i == 8 || i == 9)
    ensures Step(x.cfg, StaleStates(x)[i], StaleVerdict(x)[i]) == StaleStates(x)[i + 1]
  {
  }

  lemma StaleRefusal(x: Scenario)
    requires Usable(x)
    ensures Step(x.cfg, StaleStates(x)[10], StaleVerdict(x)[10]) == StaleStates(x)[11]
  {
    var s, verdict := StaleStates(x)[10], RecordAt(x, Failed, CreateFailed);
    VerdictRefused(x);
    assert Step(x.cfg, s, StaleVerdict(x)[10]) == DoSaveVerdict(x.cfg, s, 0, verdict, CleanupNotRequired, 0, Lands);
  }

  lemma StaleRuns(x: Scenario)
    requires Usable(x)
    ensures Run(x.cfg, IntentState(x), StaleVerdict(x)) == StaleStates(x)[11]
  {
    var acts, states := StaleVerdict(x), StaleStates(x);
    forall i, k | 0 <= i < |acts| && k == i + 1 ensures Step(x.cfg, states[i], acts[i]) == states[k] {
      if i == 0 {
        StaleLoad(x);
      } else if i == 5 {
        StaleOwns(x);
      } else if i == 7 {
        StaleAttaches(x);
      } else if i == 10 {
        StaleRefusal(x);
      } else if i < 5 {
        StaleCreates(x, i);
      } else {
        StaleLeaves(x, i);
      }
    }
    RunThrough(x.cfg, states, acts);
  }

  /** With no crash, no failing storage and no late page, a Recover answers that nothing needs cleaning
      while the run's page is open and the journal names it. The answer comes with an error. */
  lemma StaleVerdictIsWrong(x: Scenario)
    requires Usable(x)
    ensures
      var s := Run(x.cfg, Initial, Intending(x) + StaleVerdict(x));
      && s.recoverers == [Answered(CleanupNotRequired, false)]
      && !s.late && BornOpen(s) && NamesOpenPage(s)
  {
    Intends(x);
    RunAppend(x.cfg, Initial, Intending(x), StaleVerdict(x));
    StaleRuns(x);
  }
}
