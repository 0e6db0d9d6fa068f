/** The run theorems carried over to the objects of modules Cleanup and Engine: whatever sequence of
    their methods is called, with whatever other processes do in between. */
module Guarantees {
  import opened Basics
  import opened Records
  import opened Journal
  import opened Protocol
  import opened DispatchSafety
  import opened TargetSafety
  import opened OutcomeSafety
  import opened RunTheorems
  import opened Frames
  import opened Worlds
  import opened Cleanup

  ghost predicate Sound(cfg: Config, s: State) {
    Safe(cfg, s) && Placed(cfg, s) && AllTold(s)
  }

  ghost function Soundness(cfg: Config): State -> bool {
    s => Sound(cfg, s)
  }

  /** A journal and a browser for one run, in which every method keeps the run sound. */
  method NewWorld(cfg: Config) returns (w: World)
    ensures fresh(w) && fresh(w.journal) && w.Good() && w.cfg == cfg && w.keeps == Soundness(cfg) && w.sys == Initial
  {
    InitiallySafe(cfg);
    InitiallyPlaced(cfg);
    forall s, a {:trigger Soundness(cfg)(Step(cfg, s, a))} | Soundness(cfg)(s) ensures Soundness(cfg)(Step(cfg, s, a)) {
      StepKeepsSafe(cfg, s, a);
      StepKeepsPlaced(cfg, s, a);
      StepKeepsTold(cfg, s, a);
    }
    w := new World(cfg, Soundness(cfg));
  }

  /** In the state any method leaves behind: one input per slot at most, never forgotten by the journal
      file; no page but the run's own was ever named for closing; a journal that says closed is right. */
  lemma WorldIsSound(w: World, slot: nat)
    requires w.Good() && w.keeps == Soundness(w.cfg)
    ensures w.sys.raw[slot] <= 1 && w.sys.calls[slot] <= w.cfg.maxAttempts
    ensures slot in w.sys.raw ==> w.journal.cell.Some? && Evidence(w.journal.cell.value, slot)
    ensures forall id | id in w.sys.closeLog :: w.sys.born == Some(id)
    ensures w.journal.cell.Some? && w.journal.cell.value.phase == Closed ==> w.journal.cell.value.targetID !in w.pages
    ensures w.journal.cell.Some? && w.journal.cell.value.phase == Terminal ==> w.journal.cell.value.dispatch != Unknown
  {
    assert w.keeps(w.sys);
    assert Sound(w.cfg, w.sys);
  }

  /** A Recover that answered closed has left the run's page closed. */
  lemma ClosedMeansClosed(w: World, i: nat, clean: bool)
    requires w.Good() && w.keeps == Soundness(w.cfg)
    requires i < |w.sys.recoverers| && w.sys.recoverers[i] == Answered(CleanupClosed, clean)
    ensures w.sys.born.Some? && w.sys.born.value !in w.pages
  {
    assert Sound(w.cfg, w.sys);
    assert RecovererPlaced(w.sys, w.sys.recoverers[i]);
  }

  /** A Recover in a sound run that answers that nothing needs cleaning is right unless it also reports
      an error and the journal names an open page, or the page came late. */
  method RecoverSoundly(w: World, script: RecoverScript) returns (answer: Option<CleanupState>, clean: bool)
    requires w.Good() && w.keeps == Soundness(w.cfg) && RecoverForeign(script, ByRecoverer(|w.sys.recoverers|))
    modifies w`sys, w`pages, w.journal
    ensures w.Good()
    ensures answer == Some(CleanupClosed) ==> !BornOpen(w.sys)
    ensures answer == Some(CleanupNotRequired) && !w.sys.late ==> (BornOpen(w.sys) <==> !clean && NamesOpenPage(w.sys))
  {
    answer, clean := Cleanup.Recover(w, script);
    assert Sound(w.cfg, w.sys);
    if answer == Some(CleanupClosed) {
      ClosedMeansClosed(w, |old(w.sys).recoverers|, clean);
    }
  }
}
