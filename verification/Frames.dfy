/** What each kind of step leaves alone. */
module Frames {
  import opened Basics
  import opened Records
  import opened Journal
  import opened Protocol

  /** What a close command has named, and that a search has given up, stays on record. */
  predicate KeepsHistory(s: State, t: State) {
    s.closeLog <= t.closeLog && (s.missed ==> t.missed)
  }

  // Dispatcher calls are counted by BeginDispatch alone.

  lemma LeaseCallsOnlyByBegin(cfg: Config, s: State, move: LeaseMove)
    requires !(move.BeginDispatch? && s.owner.Holding?)
    ensures LeaseStep(cfg, s, move).calls == s.calls
  {
  }

  lemma AcquireFrame(cfg: Config, s: State, stage: AcquireStage, rec: Record, move: AcquireMove)
    requires move.CreateAnswers? && move.ok ==> s.born.Some?
    ensures
      var t := AcquireStep(cfg, s, stage, rec, move);
      t.calls == s.calls && t.recoverers == s.recoverers
  {
    match move
    case CheckBudget(verdict, _, _) =>
    case TakeLock(_, _, _) =>
    case SaveOwned(_, _) =>
    case CloseUnrecorded(_) =>
    case _ =>
  }

  lemma RecoverNeverCalls(cfg: Config, s: State, i: nat, move: RecoverMove)
    requires i < |s.recoverers|
    ensures RecoverStep(cfg, s, i, move).calls == s.calls
  {
  }

  // A process's own state is moved by its own steps alone.

  lemma LeaseLeavesRecoverers(cfg: Config, s: State, move: LeaseMove)
    ensures LeaseStep(cfg, s, move).recoverers == s.recoverers && KeepsHistory(s, LeaseStep(cfg, s, move))
  {
  }

  lemma RecoverersUnchanged(cfg: Config, s: State, a: Action)
    requires !a.InRecover? && !a.Recover?
    ensures Step(cfg, s, a).recoverers == s.recoverers
  {
    if a.InAcquire? && s.owner.Acquiring? && Possible(cfg, s, a) {
      AcquireFrame(cfg, s, s.owner.stage, s.owner.rec, a.acquire);
    } else if a.InLease? {
      LeaseLeavesRecoverers(cfg, s, a.lease);
    }
  }

  lemma CleanKeepsProcesses(cfg: Config, s: State, c: Cleaner, move: CleanMove)
    ensures
      var t := Clean(cfg, s, c, move).0;
      t.owner == s.owner && t.recoverers == s.recoverers
  {
  }

  lemma RecoverLeavesOthers(cfg: Config, s: State, i: nat, move: RecoverMove)
    requires i < |s.recoverers|
    ensures
      var t := RecoverStep(cfg, s, i, move);
      && t.owner == s.owner && |t.recoverers| == |s.recoverers|
      && (forall k | 0 <= k < |s.recoverers| && k != i :: t.recoverers[k] == s.recoverers[k])
  {
    match move
    case Cleans(m) =>
      if s.recoverers[i].Clearing? {
        CleanKeepsProcesses(cfg, s, s.recoverers[i].cleaner, m);
      }
    case _ =>
  }

  /** The owner, or one of the recoverers. */
  datatype Who = ByOwner | ByRecoverer(index: nat)

  predicate Foreign(a: Action, who: Who) {
    match who
    case ByOwner => a.Recover? || a.InRecover? || a.InWorld?
    case ByRecoverer(i) => !(a.InRecover? && a.index == i)
  }

  predicate SameLocal(s: State, t: State, who: Who) {
    match who
    case ByOwner => t.owner == s.owner
    case ByRecoverer(i) => i < |s.recoverers| ==> i < |t.recoverers| && t.recoverers[i] == s.recoverers[i]
  }

  lemma ForeignLeavesLocal(cfg: Config, s: State, a: Action, who: Who)
    requires Foreign(a, who)
    ensures SameLocal(s, Step(cfg, s, a), who)
  {
    if a.InRecover? {
      if a.index < |s.recoverers| {
        RecoverLeavesOthers(cfg, s, a.index, a.recover);
      }
    } else if who.ByRecoverer? && !a.Recover? {
      RecoverersUnchanged(cfg, s, a);
    }
  }

  lemma AcquireGrowsHistory(cfg: Config, s: State, stage: AcquireStage, rec: Record, move: AcquireMove)
    requires move.CreateAnswers? && move.ok ==> s.born.Some?
    ensures KeepsHistory(s, AcquireStep(cfg, s, stage, rec, move))
  {
  }

  lemma RecoverGrowsHistory(cfg: Config, s: State, i: nat, move: RecoverMove)
    requires i < |s.recoverers|
    ensures KeepsHistory(s, RecoverStep(cfg, s, i, move))
  {
  }

  lemma HistoryGrows(cfg: Config, s: State, a: Action)
    ensures KeepsHistory(s, Step(cfg, s, a))
  {
    match a
    case InAcquire(move) =>
      if s.owner.Acquiring? && Possible(cfg, s, a) {
        AcquireGrowsHistory(cfg, s, s.owner.stage, s.owner.rec, move);
      }
    case InLease(move) => LeaseLeavesRecoverers(cfg, s, move);
    case InRecover(i, move) =>
      if i < |s.recoverers| {
        RecoverGrowsHistory(cfg, s, i, move);
      }
    case _ =>
  }
}
