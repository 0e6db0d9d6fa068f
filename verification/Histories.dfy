/** What a chain of accepted replacements can never undo. */
module Histories {
  import opened Basics
  import opened Records

  /** The phases from which no action may start any more. */
  predicate Fenced(phase: Phase) {
    phase == CleanupPending || phase == Closed || phase == Failed
  }

  /** Slot `s` as record `r` tells it: the archived entry, or the action in progress. */
  function SlotView(r: Record, s: nat): (view: CompletedAction)
    requires s <= Slot(r)
  {
    if s < Slot(r) then r.completed[s] else Archive(r)
  }

  predicate HasProof(r: Record) {
    r.conversationID != "" || r.postcondition != ""
  }

  /** `late` keeps what `early` says about the action slot `early` was working on. */
  ghost predicate SlotKept(early: Record, late: Record) {
    && Slot(early) <= Slot(late)
    && var view := SlotView(late, Slot(early));
       && early.attempts <= view.attempts
       && early.rawInputs <= view.rawInputs
       && (early.dispatch == Performed ==> view.dispatch == Performed)
       && (early.dispatch == Unknown && view.dispatch != Unknown ==> view.dispatch == Performed && HasProof(late))
  }

  /** A fenced run stays fenced in the same slot, and an unknown dispatch stays unknown there. */
  ghost predicate FenceKept(early: Record, late: Record) {
    Fenced(early.phase) ==>
      && Fenced(late.phase)
      && late.completed == early.completed
      && (early.dispatch == Unknown ==> late.dispatch == Unknown)
  }

  /** Everything that survives from an earlier record of a journal to any later one. */
  ghost predicate Later(early: Record, late: Record) {
    && SameIdentity(early, late)
    && WriteOnceFields(early, late)
    && early.completed <= late.completed
    && SlotKept(early, late)
    && FenceKept(early, late)
    && early.updatedAt <= late.updatedAt
  }

  lemma TransitionIsLater(rules: TextRules, before: Record, after: Record)
    requires ValidTransition(rules, before, after)
    ensures Later(before, after)
  {
    if ValidActionAdvance(before, after) {
      assert SlotView(after, Slot(before)) == Archive(before);
    } else {
      assert before.completed == after.completed;
    }
  }

  lemma LaterTransitive(a: Record, b: Record, c: Record)
    requires Later(a, b) && Later(b, c)
    ensures Later(a, c)
  {
    if Slot(a) < Slot(b) {
      assert SlotView(b, Slot(a)) == SlotView(c, Slot(a));
    }
  }

  /** A journal's successive records, each one an accepted replacement of the one before. */
  ghost predicate History(rules: TextRules, h: seq<Record>) {
    forall i, k :: 0 <= i < |h| - 1 && k == i + 1 ==> ValidTransition(rules, h[i], h[k])
  }

  lemma {:induction false} HistoryIsChain(rules: TextRules, h: seq<Record>, i: nat, j: nat)
    requires History(rules, h)
    requires i <= j < |h|
    ensures Later(h[i], h[j])
    decreases j - i
  {
    if i < j {
      HistoryIsChain(rules, h, i, j - 1);
      TransitionIsLater(rules, h[j - 1], h[j]);
      LaterTransitive(h[i], h[j - 1], h[j]);
    }
  }

  ghost predicate LexLeq(a: Record, b: Record) {
    || Slot(a) < Slot(b)
    || (Slot(a) == Slot(b) && a.attempts < b.attempts)
    || (Slot(a) == Slot(b) && a.attempts == b.attempts && a.rawInputs <= b.rawInputs)
  }

  /** (completed count, attempts, raw count) never goes back, and an unknown dispatch that was
      settled as performed carries its proof in every record from then on. */
  lemma HistoryNeverGoesBack(rules: TextRules, h: seq<Record>, i: nat, j: nat, k: nat)
    requires History(rules, h)
    requires i <= j <= k < |h|
    ensures LexLeq(h[i], h[k])
    ensures h[i].dispatch == Unknown && Slot(h[i]) == Slot(h[j]) && h[j].dispatch != Unknown ==>
              h[j].dispatch == Performed && HasProof(h[k])
  {
    HistoryIsChain(rules, h, i, k);
    HistoryIsChain(rules, h, i, j);
    HistoryIsChain(rules, h, j, k);
  }

  /** Order of the phases inside one attempt; only a new attempt moves up again. */
  function Rank(phase: Phase): nat {
    match phase
    case Planned => 14
    case BudgetChecked => 13
    case TargetCreatePending => 12
    case TargetOwned => 11
    case Attached => 10
    case ActionPending => 9
    case ActionUnknown => 8
    case ActionPerformed => 7
    case Acknowledged => 6
    case Prepared => 5
    case Terminal => 4
    case Incomplete => 3
    case Failed => 2
    case CleanupPending => 1
    case Closed => 0
  }

  const MEASURE_BOUND: int := MAX_COMPLETED * 45 + 45

  /** (16 - completed, 2 - attempts, rank), flattened. */
  function Measure(r: Record): int {
    (MAX_COMPLETED - |r.completed|) * 45 + (2 - r.attempts) * 15 + Rank(r.phase)
  }

  /** The validator alone lets one pair of phases repeat; a new attempt is what pays for it. */
  lemma MeasureDecreases(rules: TextRules, before: Record, after: Record)
    requires ValidTransition(rules, before, after)
    requires 0 <= before.attempts <= 2 && 0 <= after.attempts <= 2
    requires before.phase == Prepared && after.phase == ActionPending ==> before.attempts < after.attempts
    ensures Measure(after) <= Measure(before)
    ensures before.phase != after.phase ==> Measure(after) < Measure(before)
  {
  }
}
