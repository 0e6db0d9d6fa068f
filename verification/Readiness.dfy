/** Waiting for login evidence through an initial load, reloads and a hard reload
    (internal/authreadiness/readiness.go and hydration.go). Times and durations are nanoseconds. */
module Readiness {
  import opened Basics

  const MINIMUM_ATTEMPTS := 3

  // --------------------------------------------------------------------- budgets

  /** The share of what remains that stage `attempt` of `attempts` may use. */
  function StageWait(attempts: nat, attempt: nat, remaining: int): int
    requires 1 <= attempt <= attempts && remaining > 0
  {
    var left := attempts - attempt + 1;
    if left > 1 then remaining / (left + 1) else remaining
  }

  /** Stages that start where the one before ended, each by its own deadline. */
  ghost predicate WithoutGaps(total: int, starts: seq<int>) {
    && starts != [] && starts[0] == 0
    && (forall k | 0 <= k < |starts| :: starts[k] < total)
    && (forall k, m | 0 <= k < |starts| - 1 && m == k + 1 ::
          starts[k] <= starts[m] <= starts[k] + StageWait(|starts|, m, total - starts[k]))
  }

  lemma Scale(f: int, a: int, b: int)
    requires f >= 0 && a >= b
    ensures f * a >= f * b
  {
  }

  lemma Swap(x: int, y: int, z: int)
    ensures x * (y * z) == y * (x * z)
  {
  }

  lemma Cancel(f: int, a: int, b: int)
    requires f > 0 && f * a >= f * b
    ensures a >= b
  {
  }

  lemma ShareLeaves(left: int, now: int, next: int)
    requires left >= 1 && next >= now - now / (left + 1)
    ensures (left + 1) * next >= left * now
  {
    var q := now / (left + 1);
    assert (left + 1) * q <= now;
    Scale(left + 1, next, now - q);
  }

  lemma ShareShrinks(shares: int, left: int, total: int, now: int, next: int)
    requires left >= 1 && shares >= 0
    requires next >= now - now / (left + 1)
    requires shares * now >= (left + 1) * total
    ensures shares * next >= left * total
  {
    ShareLeaves(left, now, next);
    Scale(shares, (left + 1) * next, left * now);
    Scale(left, shares * now, (left + 1) * total);
    Swap(shares, left + 1, next);
    Swap(shares, left, now);
    Swap(left, left + 1, total);
    Cancel(left + 1, shares * next, left * total);
  }

  /** Before stage k + 1 of n, at least (n - k + 1) shares of n + 1 are left, truncation included. */
  lemma {:induction false} SharesLeft(total: int, starts: seq<int>, k: nat)
    requires total > 0 && WithoutGaps(total, starts) && k < |starts|
    ensures (|starts| + 1) * (total - starts[k]) >= (|starts| - k + 1) * total
  {
    if k > 0 {
      SharesLeft(total, starts, k - 1);
      var now, next := total - starts[k - 1], total - starts[k];
      assert StageWait(|starts|, k, now) == now / (|starts| - k + 2);
      ShareShrinks(|starts| + 1, |starts| - k + 1, total, now, next);
    }
  }

  /** The hard reload starts with at least 2T / (n + 1) of the total wait T left, and no stage may run
      past T. */
  lemma HardReloadKeepsItsShare(total: int, starts: seq<int>, k: nat)
    requires total > 0 && WithoutGaps(total, starts) && k < |starts|
    ensures (|starts| + 1) * (total - starts[|starts| - 1]) >= 2 * total
    ensures starts[k] + StageWait(|starts|, k + 1, total - starts[k]) <= total
  {
    SharesLeft(total, starts, |starts| - 1);
  }

  // ---------------------------------------------------------------------- delays

  function PollDelay(interval: int, poll: int, remaining: int): int {
    if interval <= 0 || poll <= 0 || remaining <= 0 then 0
    else
      var delay := Wrap(interval * if poll > 4 then 4 else poll);
      if delay <= 0 || delay > remaining then remaining else delay
  }

  /** A stage but the last takes one share of as many as there are stages left and one; the last takes all. */
  lemma StageWaitIsShare(attempts: nat, attempt: nat, remaining: int)
    requires 1 <= attempt <= attempts && remaining > 0
    ensures
      var wait, shares := StageWait(attempts, attempt, remaining), attempts - attempt + 2;
      if attempt == attempts then wait == remaining else wait * shares <= remaining < (wait + 1) * shares
  {
  }

  /** Whatever the 64-bit product does, a delay is positive and stays within the stage; it is the
      linear back-off whenever that fits, and the rest of the stage when it does not. */
  lemma DelayStaysWithin(interval: int, poll: int, remaining: int)
    requires poll > 0
    ensures interval > 0 && remaining > 0 ==> 0 < PollDelay(interval, poll, remaining) <= remaining
    ensures interval > 0 && remaining > 0 && Int64(remaining) && interval * Min(poll, 4) <= remaining ==>
              PollDelay(interval, poll, remaining) == interval * Min(poll, 4)
    ensures interval > 0 && remaining > 0 && interval * Min(poll, 4) > remaining && Int64(interval * Min(poll, 4)) ==>
              PollDelay(interval, poll, remaining) == remaining
    ensures PollDelay(interval, poll, remaining) == 0 <==> interval <= 0 || remaining <= 0
  {
    if interval > 0 && remaining > 0 && interval * Min(poll, 4) <= remaining {
      assert interval * Min(poll, 4) > 0;
    }
  }

  // --------------------------------------------------------------- observations

  datatype Stage = NoStage | InitialLoad | Reload | HardReload

  datatype LastError = NoError | ObservationError | ObservationIncomplete

  datatype Result = Result(
    attempt: nat,
    stage: Stage,
    observed: bool,
    successes: nat,
    stageSuccesses: nat,
    lastError: LastError)

  const NoResult := Result(0, NoStage, false, 0, 0, NoError)

  predicate ObservationFailed(r: Result) {
    !r.observed && (r.lastError != NoError || r.stageSuccesses == 0)
  }

  predicate EvidenceAbsent(r: Result) {
    && !r.observed
    && r.attempt >= MINIMUM_ATTEMPTS
    && r.stage == HardReload
    && r.successes > 0
    && r.stageSuccesses > 0
    && r.lastError == NoError
  }

  predicate ExactlyOne(a: bool, b: bool, c: bool) {
    (a && !b && !c) || (!a && b && !c) || (!a && !b && c)
  }

  datatype Trouble = BadConfiguration | ContextDone | WaitExhausted | BudgetExhausted | ReloadFailed

  datatype Answer = Ready | NotReady | WindowExhausted | Broken(ready: bool)

  /** One observation: what it says, when it returns, and when the wait after it is over. `cancelled`
      means that the caller's context ends during that wait. */
  datatype Poll = Poll(answer: Answer, finished: int, cancelled: bool, resumed: int)

  /** One stage: when it starts, how its reload goes, when that is done, its observations, and whether
      the caller's context has ended before or after it. The list of observations ends when a context
      does. */
  datatype StageScript = StageScript(
    doneBefore: bool,
    started: int,
    reloads: bool,
    prepared: int,
    polls: seq<Poll>,
    doneAfter: bool)

  /** An error-free observation inside the stage. */
  predicate Sound(p: Poll, deadline: int) {
    p.finished < deadline && (p.answer == Ready || p.answer == NotReady)
  }

  predicate Positive(p: Poll, deadline: int) {
    p.finished < deadline && (p.answer == Ready || p.answer == Broken(true))
  }

  /** An observation that counts: it returned inside the stage and says something. */
  predicate Counts(p: Poll, deadline: int) {
    p.finished < deadline && p.answer != WindowExhausted
  }

  /** When the wait before observation `k` is over. */
  function ReadyFor(polls: seq<Poll>, prepared: int, k: nat): int
    requires k <= |polls|
  {
    if k == 0 then prepared else polls[k - 1].resumed
  }

  /** Observation `k` starts inside the stage and counts. */
  predicate CountsAt(polls: seq<Poll>, prepared: int, deadline: int, k: nat) {
    k < |polls| && ReadyFor(polls, prepared, k) < deadline && Counts(polls[k], deadline)
  }

  /** The observation after which a stage is left before its time. */
  predicate Leaves(p: Poll, deadline: int) {
    Positive(p, deadline) || p.cancelled
  }

  /** The first `n` observations are exactly the ones a stage counts: each one starts before the
      deadline and counts, only the last of them may end the stage, and no further one would count. */
  predicate Looked(polls: seq<Poll>, prepared: int, deadline: int, n: nat) {
    && n <= |polls|
    && (forall k | 0 <= k < n :: CountsAt(polls, prepared, deadline, k))
    && (forall k | 0 <= k < n - 1 :: !Leaves(polls[k], deadline))
    && (n < |polls| ==> (n > 0 && Leaves(polls[n - 1], deadline)) || !CountsAt(polls, prepared, deadline, n))
  }

  /** How many of the first `n` observations were error-free. */
  function SoundCount(polls: seq<Poll>, deadline: int, n: nat): nat
    requires n <= |polls|
  {
    if n == 0 then 0 else SoundCount(polls, deadline, n - 1) + if Sound(polls[n - 1], deadline) then 1 else 0
  }

  /** There is one exactly when some of them is. */
  lemma {:induction false} SoundCounted(polls: seq<Poll>, deadline: int, n: nat)
    requires n <= |polls|
    ensures SoundCount(polls, deadline, n) > 0 <==> exists k :: 0 <= k < n && Sound(polls[k], deadline)
  {
    if n > 0 {
      SoundCounted(polls, deadline, n - 1);
    }
  }

  /** One of the first `n` observations says ready. */
  ghost predicate SaidReady(polls: seq<Poll>, deadline: int, n: nat) {
    exists k :: 0 <= k < n <= |polls| && Positive(polls[k], deadline)
  }

  ghost predicate SaidSomething(polls: seq<Poll>, deadline: int, n: nat) {
    exists k :: 0 <= k < n <= |polls| && Sound(polls[k], deadline)
  }

  function StageAt(attempt: int, total: int): Stage {
    if attempt == 1 then InitialLoad else if attempt == total then HardReload else Reload
  }

  /** Which reload a position in the sequence calls for, and whether it went through. */
  method PrepareAttempt(hasReloader: bool, attempt: int, total: int, reloads: bool) returns (stage: Stage, ok: bool)
    ensures !hasReloader || attempt < 1 || attempt > total ==> !ok && stage == NoStage
    ensures hasReloader && 1 <= attempt <= total ==>
              && stage == StageAt(attempt, total)
              && ok == (attempt == 1 || reloads)
  {
    if !hasReloader || total < 1 || attempt < 1 || attempt > total {
      return NoStage, false;
    }
    if attempt == 1 {
      return InitialLoad, true;
    }
    if attempt == total {
      return HardReload, reloads;
    }
    return Reload, reloads;
  }

  /** What one observation that counts makes of the result. */
  method Account(before: Result, p: Poll, deadline: int) returns (r: Result)
    requires !before.observed && Counts(p, deadline)
    ensures r.observed <==> Positive(p, deadline)
    ensures r.attempt == before.attempt && r.stage == before.stage
    ensures r.successes - before.successes == r.stageSuccesses - before.stageSuccesses
    ensures r.stageSuccesses == before.stageSuccesses + if Sound(p, deadline) then 1 else 0
    ensures r.lastError == if p.answer.Broken? then ObservationError else NoError
  {
    r := before;
    if p.answer.Broken? {
      r := r.(lastError := ObservationError);
    } else {
      r := r.(successes := r.successes + 1, stageSuccesses := r.stageSuccesses + 1, lastError := NoError);
    }
    if p.answer == Ready || p.answer == Broken(true) {
      r := r.(observed := true);
    }
  }

  /** How long to wait after observation `poll`: some time, and no longer than the stage. */
  method Pause(interval: int, poll: nat, remaining: int) returns (delay: int)
    requires interval > 0 && poll > 0 && remaining > 0
    ensures 0 < delay <= remaining && delay == PollDelay(interval, poll, remaining)
  {
    DelayStaysWithin(interval, poll, remaining);
    delay := PollDelay(interval, poll, remaining);
  }

  /** The first `n` observations count, and none of them ends the stage. */
  predicate GoesOn(polls: seq<Poll>, prepared: int, deadline: int, n: nat) {
    && n <= |polls|
    && (forall k | 0 <= k < n :: CountsAt(polls, prepared, deadline, k))
    && (forall k | 0 <= k < n :: !Leaves(polls[k], deadline))
  }

  lemma GoesOnLooked(polls: seq<Poll>, prepared: int, deadline: int, n: nat)
    requires GoesOn(polls, prepared, deadline, n)
    requires n < |polls| ==> !CountsAt(polls, prepared, deadline, n)
    ensures Looked(polls, prepared, deadline, n) && !SaidReady(polls, deadline, n)
    ensures n > 0 ==> !polls[n - 1].cancelled
  {
  }

  lemma LeavesLooked(polls: seq<Poll>, prepared: int, deadline: int, n: nat)
    requires 0 < n <= |polls| && GoesOn(polls, prepared, deadline, n - 1)
    requires CountsAt(polls, prepared, deadline, n - 1)
    requires Leaves(polls[n - 1], deadline)
    ensures Looked(polls, prepared, deadline, n)
    ensures SaidReady(polls, deadline, n) <==> Positive(polls[n - 1], deadline)
  {
  }

  /** What is known of the result after the first `n` observations of a stage. */
  predicate Accounted(before: Result, r: Result, polls: seq<Poll>, deadline: int, n: nat)
    requires n <= |polls|
  {
    && r.attempt == before.attempt && r.stage == before.stage
    && r.successes == before.successes + r.stageSuccesses
    && r.stageSuccesses == SoundCount(polls, deadline, n)
    && r.lastError == if n > 0 && polls[n - 1].answer.Broken? then ObservationError else NoError
  }

  /** Observe until something is ready, the stage is over, or the caller gives up. The evidence is seen
      exactly when one of the observations the stage counts says so. */
  method ObserveStage(before: Result, polls: seq<Poll>, prepared: int, deadline: int, interval: int)
    returns (r: Result, cancelled: bool, looked: nat)
    requires !before.observed && before.stageSuccesses == 0 && before.lastError == NoError && interval > 0
    ensures Looked(polls, prepared, deadline, looked)
    ensures r.observed <==> SaidReady(polls, deadline, looked)
    ensures Accounted(before, r, polls, deadline, looked)
    ensures r.stageSuccesses > 0 <==> SaidSomething(polls, deadline, looked)
    ensures cancelled <==> !r.observed && looked > 0 && polls[looked - 1].cancelled
  {
    r, cancelled, looked := before, false, 0;
    var now := prepared;
    while looked < |polls| && now < deadline && Counts(polls[looked], deadline)
      invariant GoesOn(polls, prepared, deadline, looked) && now == ReadyFor(polls, prepared, looked)
      invariant Accounted(before, r, polls, deadline, looked) && !r.observed
    {
      var p := polls[looked];
      r := Account(r, p, deadline);
      looked := looked + 1;
      if r.observed || p.cancelled {
        LeavesLooked(polls, prepared, deadline, looked);
        SoundCounted(polls, deadline, looked);
        cancelled := !r.observed;
        return;
      }
      var _ := Pause(interval, looked, deadline - p.finished);
      now := p.resumed;
    }
    GoesOnLooked(polls, prepared, deadline, looked);
    SoundCounted(polls, deadline, looked);
  }

  /** The log of one stage: when it started, how long it might last, and how many observations counted. */
  datatype StageLog = StageLog(started: int, wait: int, looked: nat)

  predicate Budgeted(total: int, attempts: int, log: seq<StageLog>) {
    && |log| <= attempts
    && (forall k | 0 <= k < |log| ::
          && log[k].started < total
          && 0 < log[k].wait == StageWait(attempts, k + 1, total - log[k].started)
          && log[k].started + log[k].wait <= total)
  }

  /** When each stage begins as the one before ends, by its own deadline at the latest, the hard reload
      gets at least two of n + 1 shares of the total wait. */
  lemma HardReloadShare(total: int, attempts: nat, log: seq<StageLog>)
    requires Budgeted(total, attempts, log) && |log| == attempts > 0 && log[0].started == 0
    requires forall k, m | 0 <= k < attempts - 1 && m == k + 1 ::
               log[k].started <= log[m].started <= log[k].started + log[k].wait
    ensures (attempts + 1) * log[attempts - 1].wait >= 2 * total
  {
    var starts := seq(attempts, k requires 0 <= k < |log| => log[k].started);
    assert WithoutGaps(total, starts);
    HardReloadKeepsItsShare(total, starts, 0);
  }

  /** Stage `attempt` gets a share of the wait and its reload goes through. */
  predicate Begins(hasReloader: bool, attempt: nat, attempts: nat, total: int, s: StageScript)
    requires 1 <= attempt <= attempts
  {
    && !s.doneBefore && s.started < total && StageWait(attempts, attempt, total - s.started) > 0
    && hasReloader && (attempt == 1 || s.reloads)
  }

  /** What keeps stage `attempt` from beginning. */
  predicate Hindered(hasReloader: bool, attempt: nat, attempts: nat, total: int, s: StageScript, trouble: Trouble)
    requires 1 <= attempt <= attempts
  {
    match trouble
    case BadConfiguration => false
    case ContextDone => s.doneBefore
    case WaitExhausted => !s.doneBefore && s.started >= total
    case BudgetExhausted => !s.doneBefore && s.started < total && StageWait(attempts, attempt, total - s.started) == 0
    case ReloadFailed =>
      && !s.doneBefore && s.started < total && StageWait(attempts, attempt, total - s.started) > 0
      && !(hasReloader && (attempt == 1 || s.reloads))
  }

  /** Start stage `attempt`: find its share of the wait and reload as its place calls for. */
  method StartStage(r: Result, hasReloader: bool, attempt: nat, attempts: nat, total: int, s: StageScript)
    returns (next: Result, wait: int, trouble: Option<Trouble>)
    requires 1 <= attempt <= attempts && MINIMUM_ATTEMPTS <= attempts
    ensures trouble == None <==> Begins(hasReloader, attempt, attempts, total, s)
    ensures trouble.Some? ==> Hindered(hasReloader, attempt, attempts, total, s, trouble.value)
    ensures trouble == None ==>
              && 0 < wait == StageWait(attempts, attempt, total - s.started)
              && s.started + wait <= total
              && next == Result(attempt, StageAt(attempt, attempts), r.observed, r.successes, 0, NoError)
  {
    next, wait := r, 0;
    if s.doneBefore {
      return next, wait, Some(ContextDone);
    }
    var remaining := total - s.started;
    if remaining <= 0 {
      return next, wait, Some(WaitExhausted);
    }
    var left := attempts - attempt + 1;
    wait := remaining;
    if left > 1 {
      wait := remaining / (left + 1);
    }
    if wait <= 0 {
      return next, wait, Some(BudgetExhausted);
    }
    var stage, ok := PrepareAttempt(hasReloader, attempt, attempts, s.reloads);
    next := r.(attempt := attempt, stage := stage, stageSuccesses := 0, lastError := NoError);
    trouble := if ok then None else Some(ReloadFailed);
  }

  /** The observations counted in a stage, as its log says. */
  predicate LookedIn(s: StageScript, l: StageLog) {
    Looked(s.polls, s.prepared, l.started + l.wait, l.looked)
  }

  ghost predicate ReadyIn(s: StageScript, l: StageLog) {
    SaidReady(s.polls, l.started + l.wait, l.looked)
  }

  /** The last observation counted brought no error, and some observation did not. */
  ghost predicate SoundIn(s: StageScript, l: StageLog) {
    && SaidSomething(s.polls, l.started + l.wait, l.looked)
    && (0 < l.looked <= |s.polls| ==> !s.polls[l.looked - 1].answer.Broken?)
  }

  predicate GaveUpIn(s: StageScript, l: StageLog) {
    s.doneAfter || (0 < l.looked <= |s.polls| && s.polls[l.looked - 1].cancelled)
  }

  /** Stage `attempt` began, had its share, and counted the observations it should. */
  predicate StageRan(hasReloader: bool, attempt: int, attempts: int, total: int, s: StageScript, l: StageLog) {
    && 1 <= attempt <= attempts && Begins(hasReloader, attempt, attempts, total, s)
    && l.started == s.started && l.wait == StageWait(attempts, attempt, total - s.started)
    && l.started + l.wait <= total
    && LookedIn(s, l)
  }

  /** A stage that went on to the next one. */
  ghost predicate WentOn(s: StageScript, l: StageLog) {
    !ReadyIn(s, l) && !GaveUpIn(s, l)
  }

  /** Every stage logged ran, and every one but the last went on without evidence. */
  ghost predicate StagesRan(hasReloader: bool, attempts: int, total: int, script: seq<StageScript>,
                            log: seq<StageLog>)
  {
    && |log| <= |script| && |log| <= Max(attempts, 0)
    && (forall k | 0 <= k < |log| :: StageRan(hasReloader, k + 1, attempts, total, script[k], log[k]))
    && (forall k | 0 <= k < |log| - 1 :: WentOn(script[k], log[k]))
  }

  lemma StagesGrow(hasReloader: bool, attempts: int, total: int, script: seq<StageScript>, log: seq<StageLog>,
                   l: StageLog)
    requires StagesRan(hasReloader, attempts, total, script, log) && |log| < |script|
    requires log != [] ==> WentOn(script[|log| - 1], log[|log| - 1])
    requires StageRan(hasReloader, |log| + 1, attempts, total, script[|log|], l)
    ensures StagesRan(hasReloader, attempts, total, script, log + [l])
  {
  }

  lemma StagesBudgeted(hasReloader: bool, attempts: int, total: int, script: seq<StageScript>, log: seq<StageLog>)
    requires StagesRan(hasReloader, attempts, total, script, log)
    ensures Budgeted(total, Max(attempts, 0), log)
  {
    forall k | 0 <= k < |log|
      ensures
        && log[k].started < total
        && 0 < log[k].wait == StageWait(attempts, k + 1, total - log[k].started)
        && log[k].started + log[k].wait <= total
    {
      assert StageRan(hasReloader, k + 1, attempts, total, script[k], log[k]);
    }
  }

  /** What is known once a stage has ended without seeing evidence. */
  ghost predicate StageOver(r: Result, attempt: nat, attempts: nat, s: StageScript, l: StageLog) {
    && !r.observed && !ReadyIn(s, l) && !GaveUpIn(s, l)
    && r.attempt == attempt && r.stage == StageAt(attempt, attempts)
    && r.successes >= r.stageSuccesses
    && (r.stageSuccesses > 0 && r.lastError == NoError <==> SoundIn(s, l))
    && (r.stageSuccesses == 0 ==> r.lastError != NoError)
  }

  /** Why a wait ended with an error: the stage to come did not begin, or the caller was gone. */
  ghost predicate Troubled(hasReloader: bool, attempts: int, total: int, script: seq<StageScript>, log: seq<StageLog>,
                           trouble: Trouble)
  {
    || (&& |log| < attempts && |log| < |script|
        && Hindered(hasReloader, |log| + 1, attempts, total, script[|log|], trouble))
    || (trouble == ContextDone && |log| == |script| < attempts)
    || (&& trouble == ContextDone
        && 0 < |log| <= |script|
        && GaveUpIn(script[|log| - 1], log[|log| - 1]) && !ReadyIn(script[|log| - 1], log[|log| - 1]))
  }

  /** One stage, from its start to its end. */
  method RunStage(before: Result, hasReloader: bool, attempt: nat, attempts: nat, total: int, interval: int,
                  s: StageScript)
    returns (r: Result, l: StageLog, trouble: Option<Trouble>, gaveUp: bool)
    requires 1 <= attempt <= attempts && MINIMUM_ATTEMPTS <= attempts && interval > 0 && !before.observed
    ensures trouble == None <==> Begins(hasReloader, attempt, attempts, total, s)
    ensures trouble.Some? ==> Hindered(hasReloader, attempt, attempts, total, s, trouble.value)
    ensures trouble == None ==>
              && StageRan(hasReloader, attempt, attempts, total, s, l)
              && (r.observed <==> ReadyIn(s, l))
              && r.attempt == attempt && r.stage == StageAt(attempt, attempts)
              && (gaveUp <==> !ReadyIn(s, l) && GaveUpIn(s, l))
              && (!r.observed && !gaveUp ==> StageOver(r, attempt, attempts, s, l))
  {
    gaveUp := false;
    var wait;
    r, wait, trouble := StartStage(before, hasReloader, attempt, attempts, total, s);
    l := StageLog(s.started, wait, 0);
    if trouble != None {
      return;
    }
    var cancelled, looked;
    r, cancelled, looked := ObserveStage(r, s.polls, s.prepared, s.started + wait, interval);
    l := l.(looked := looked);
    gaveUp := !r.observed && (cancelled || s.doneAfter);
    if r.stageSuccesses == 0 && r.lastError == NoError && !r.observed && !gaveUp {
      r := r.(lastError := ObservationIncomplete);
    }
  }

  /** Run the stages until the evidence is seen, the caller gives up, or all are over. */
  method RunStages(hasReloader: bool, attempts: nat, total: int, interval: int, script: seq<StageScript>)
    returns (r: Result, trouble: Option<Trouble>, log: seq<StageLog>)
    requires attempts >= MINIMUM_ATTEMPTS && interval > 0
    ensures StagesRan(hasReloader, attempts, total, script, log) && trouble != Some(BadConfiguration)
    ensures trouble.Some? ==> Troubled(hasReloader, attempts, total, script, log, trouble.value)
    ensures trouble == None ==>
              && log != [] && (r.observed <==> ReadyIn(script[|log| - 1], log[|log| - 1]))
              && r.attempt == |log| && r.stage == StageAt(|log|, attempts)
    ensures trouble == None && !r.observed ==>
              |log| == attempts && StageOver(r, attempts, attempts, script[attempts - 1], log[attempts - 1])
  {
    r, trouble, log := NoResult, None, [];
    var attempt := 1;
    while attempt <= attempts
      invariant 1 <= attempt <= attempts + 1 && |log| == attempt - 1
      invariant trouble == None && !r.observed && StagesRan(hasReloader, attempts, total, script, log)
      invariant attempt > 1 ==> StageOver(r, attempt - 1, attempts, script[attempt - 2], log[attempt - 2])
    {
      if attempt > |script| {
        return r, Some(ContextDone), log;
      }
      var l, gaveUp;
      r, l, trouble, gaveUp := RunStage(r, hasReloader, attempt, attempts, total, interval, script[attempt - 1]);
      if trouble != None {
        return;
      }
      StagesGrow(hasReloader, attempts, total, script, log, l);
      log := log + [l];
      if r.observed {
        return;
      }
      if gaveUp {
        return r, Some(ContextDone), log;
      }
      attempt := attempt + 1;
    }
  }

  lemma OverMeans(r: Result, attempts: nat, s: StageScript, l: StageLog)
    requires attempts >= MINIMUM_ATTEMPTS && StageOver(r, attempts, attempts, s, l)
    ensures ExactlyOne(r.observed, ObservationFailed(r), EvidenceAbsent(r))
    ensures EvidenceAbsent(r) <==> SoundIn(s, l)
  {
  }

  /** A wait without error ends with exactly one verdict. The evidence is seen exactly when an observation
      counted in the last stage says so; no earlier one did. It is absent exactly when all stages ran, none
      of their observations said ready, and the hard reload's were not all errors and did not end in one. */
  method WaitForEvidence(hasReloader: bool, attempts: int, total: int, interval: int, hasObserver: bool,
                         script: seq<StageScript>)
    returns (r: Result, trouble: Option<Trouble>, log: seq<StageLog>)
    ensures trouble == Some(BadConfiguration) <==>
              attempts < MINIMUM_ATTEMPTS || total <= 0 || interval <= 0 || !hasObserver
    ensures trouble == Some(BadConfiguration) ==> r == NoResult && log == []
    ensures trouble != Some(BadConfiguration) ==> StagesRan(hasReloader, attempts, total, script, log)
    ensures trouble.Some? && trouble.value != BadConfiguration ==>
              Troubled(hasReloader, attempts, total, script, log, trouble.value)
    ensures trouble == None ==> ExactlyOne(r.observed, ObservationFailed(r), EvidenceAbsent(r))
    ensures trouble == None ==>
              && 0 < |log| <= attempts && r.attempt == |log| && r.stage == StageAt(|log|, attempts)
              && (r.observed <==> ReadyIn(script[|log| - 1], log[|log| - 1]))
              && (!r.observed ==> |log| == attempts)
              && (EvidenceAbsent(r) <==> !r.observed && SoundIn(script[|log| - 1], log[|log| - 1]))
    ensures Budgeted(total, Max(attempts, 0), log)
  {
    r, trouble, log := NoResult, None, [];
    if attempts < MINIMUM_ATTEMPTS || total <= 0 || interval <= 0 || !hasObserver {
      return r, Some(BadConfiguration), log;
    }
    r, trouble, log := RunStages(hasReloader, attempts, total, interval, script);
    StagesBudgeted(hasReloader, attempts, total, script, log);
    if trouble == None && !r.observed {
      OverMeans(r, attempts, script[|log| - 1], log[|log| - 1]);
    }
  }

  // ------------------------------------------------------------------- hydration

  /** In the first window an observation counts when it returns inside it, and only readiness without an
      error ends it early. */
  predicate Watched(polls: seq<Poll>, window: int, n: nat) {
    && n <= |polls|
    && (forall k | 0 <= k < n :: polls[k].finished < window)
    && (forall k | 0 <= k < n - 1 :: polls[k].answer != Ready && polls[k].resumed < window)
    && (n < |polls| ==>
          || (n > 0 && (polls[n - 1].answer == Ready || polls[n - 1].resumed >= window))
          || polls[n].finished >= window)
  }

  ghost predicate WatchedReady(polls: seq<Poll>, n: nat) {
    0 < n <= |polls| && polls[n - 1].answer == Ready
  }

  /** The undisturbed window before any reload: look until something is ready without an error. */
  method WatchInitialLoad(polls: seq<Poll>, window: int) returns (r: Result, looked: nat)
    ensures Watched(polls, window, looked)
    ensures r.observed <==> WatchedReady(polls, looked)
    ensures r.attempt == 1 && r.stage == InitialLoad
    ensures r.stageSuccesses == r.successes == SoundCount(polls, window, looked)
    ensures r.lastError == if looked > 0 && polls[looked - 1].answer != Ready && polls[looked - 1].answer != NotReady
                           then ObservationError else NoError
  {
    r, looked := Result(1, InitialLoad, false, 0, 0, NoError), 0;
    while looked < |polls|
      invariant looked <= |polls| && r.attempt == 1 && r.stage == InitialLoad && !r.observed
      invariant forall k | 0 <= k < looked ::
                  polls[k].finished < window && polls[k].resumed < window && polls[k].answer != Ready
      invariant r.stageSuccesses == r.successes == SoundCount(polls, window, looked)
      invariant r.lastError
             == if looked > 0 && polls[looked - 1].answer != Ready && polls[looked - 1].answer != NotReady
                               then ObservationError else NoError
    {
      var p := polls[looked];
      if p.finished >= window {
        return;
      }
      looked := looked + 1;
      if p.answer == Ready || p.answer == NotReady {
        r := r.(successes := r.successes + 1, stageSuccesses := r.stageSuccesses + 1, lastError := NoError);
      } else {
        r := r.(lastError := ObservationError);
      }
      if p.answer == Ready {
        r := r.(observed := true);
        return;
      }
      if p.resumed >= window {
        return;
      }
    }
  }

  /** A hydration window, then the reload sequence if nothing was seen in it: the evidence is seen exactly
      when an observation that counts says so, in the window without an error or in the last stage. */
  method WaitForHydration(hasReloader: bool, attempts: int, window: int, interval: int, hasObserver: bool,
                          first: seq<Poll>, cancelled: bool, script: seq<StageScript>)
    returns (r: Result, trouble: Option<Trouble>, log: seq<StageLog>, looked: nat)
    ensures trouble == Some(BadConfiguration) <==>
              !hasReloader || attempts < MINIMUM_ATTEMPTS || window <= 0 || interval <= 0 || !hasObserver
    ensures trouble != Some(BadConfiguration) ==> Watched(first, window, looked)
    ensures trouble != Some(BadConfiguration) && WatchedReady(first, looked) ==>
              trouble == None && r.observed && r.lastError == NoError && log == []
    ensures trouble != Some(BadConfiguration) && !WatchedReady(first, looked) ==>
              && StagesRan(hasReloader, attempts, window, script, log)
              && (cancelled ==> trouble == Some(ContextDone) && log == [])
              && (!cancelled && trouble.Some? ==>
                    Troubled(hasReloader, attempts, window, script, log, trouble.value))
              && (trouble == None ==>
                    && 0 < |log| <= attempts
                    && (r.observed <==> ReadyIn(script[|log| - 1], log[|log| - 1]))
                    && (!r.observed ==> |log| == attempts)
                    && (EvidenceAbsent(r) <==> !r.observed && SoundIn(script[|log| - 1], log[|log| - 1])))
    ensures trouble == None ==> ExactlyOne(r.observed, ObservationFailed(r), EvidenceAbsent(r))
    ensures Budgeted(window, Max(attempts, 0), log)
  {
    log, looked := [], 0;
    if !hasReloader || attempts < MINIMUM_ATTEMPTS || window <= 0 || interval <= 0 || !hasObserver {
      return NoResult, Some(BadConfiguration), [], 0;
    }
    var initial;
    initial, looked := WatchInitialLoad(first, window);
    if initial.observed {
      return initial, None, [], looked;
    }
    if cancelled {
      return initial, Some(ContextDone), [], looked;
    }
    r, trouble, log := WaitForEvidence(hasReloader, attempts, window, interval, hasObserver, script);
    r := r.(successes := r.successes + initial.successes);
  }
}
