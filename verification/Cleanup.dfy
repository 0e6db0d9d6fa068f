/** Finding and closing exactly one page, and the Recover call (internal/browserflow/engine.go). */
module Cleanup {
  import opened Basics
  import opened Records
  import opened Journal
  import opened Protocol
  import opened TargetSafety
  import opened Frames
  import opened Worlds

  /** What surrounds one save: the doings of other processes before it, the clock and the storage. */
  datatype Moment = Moment(meanwhile: seq<Action>, now: int, fault: Fault)

  /** One listing of the open pages, after other processes had time to act. */
  datatype Poll = Poll(meanwhile: seq<Action>, listed: bool)

  /** One close command: whether it takes effect, whether it is refused, and the listings after it. */
  datatype CloseTry = CloseTry(meanwhile: seq<Action>, effective: bool, refused: bool, polls: seq<Poll>)

  datatype CleanScript = CleanScript(pending: Moment, tries: seq<CloseTry>, result: Moment)

  ghost predicate PollsForeign(polls: seq<Poll>, who: Who) {
    forall p | p in polls :: AllForeign(p.meanwhile, who)
  }

  ghost predicate TriesForeign(tries: seq<CloseTry>, who: Who) {
    forall t | t in tries :: AllForeign(t.meanwhile, who) && PollsForeign(t.polls, who)
  }

  ghost predicate ScriptForeign(script: CleanScript, who: Who) {
    && AllForeign(script.pending.meanwhile, who)
    && TriesForeign(script.tries, who)
    && AllForeign(script.result.meanwhile, who)
  }

  // ------------------------------------------------------------ own steps

  function CleanAction(who: Who, move: CleanMove): Action {
    match who
    case ByOwner => OwnerCleans(move)
    case ByRecoverer(i) => InRecover(i, Cleans(move))
  }

  /** Process `who` is at this point of a cleanup. */
  predicate CleaningAs(s: State, who: Who, c: Cleaner, evidence: bool) {
    match who
    case ByOwner => s.owner == Cleaning(c)
    case ByRecoverer(i) => i < |s.recoverers| && s.recoverers[i] == Clearing(c, evidence)
  }

  /** Process `who` has ended its cleanup with this report. */
  predicate CleanedAs(s: State, who: Who, c: Cleaner, evidence: bool, gone: bool, saved: bool) {
    match who
    case ByOwner => s.owner == if c.style == LeaseClose then Holding(c.rec, gone) else Absent
    case ByRecoverer(i) =>
      && i < |s.recoverers|
      && s.recoverers[i] == Answered(if gone then CleanupClosed else CleanupFailed, gone && saved && evidence)
  }

  /** Process `who` is about to close page `id`. */
  predicate ClosingAs(s: State, who: Who, id: string) {
    match who
    case ByOwner =>
      || (s.owner.Cleaning? && s.owner.cleaner.stage.Closing? && s.owner.cleaner.rec.targetID == id)
      || (s.owner.Acquiring? && s.owner.stage == ClosingUnrecorded && s.owner.rec.targetID == id)
    case ByRecoverer(i) =>
      && i < |s.recoverers|
      && s.recoverers[i].Clearing?
      && s.recoverers[i].cleaner.stage.Closing?
      && s.recoverers[i].cleaner.rec.targetID == id
  }

  function CloseAction(s: State, who: Who, effective: bool): Action {
    if who.ByOwner? && s.owner.Acquiring? then InAcquire(CloseUnrecorded(SendClose(effective)))
    else CleanAction(who, SendClose(effective))
  }

  lemma SendCloseStep(cfg: Config, s: State, who: Who, id: string, effective: bool)
    requires ClosingAs(s, who, id)
    ensures
      Step(cfg, s, CloseAction(s, who, effective))
      == s.(closeLog := s.closeLog + {id}, pages := if effective then s.pages - {id} else s.pages)
  {
    match who
    case ByOwner =>
    case ByRecoverer(i) =>
      assert s.recoverers[i := s.recoverers[i]] == s.recoverers;
  }

  lemma SavePendingStep(cfg: Config, s: State, who: Who, c: Cleaner, evidence: bool, now: int, fault: Fault)
    requires CleaningAs(s, who, c, evidence) && c.stage.SavingPending?
    ensures
      var rec := c.rec.(updatedAt := now);
      var (cell, ok) := SaveCell(cfg.rules, s.durable, rec, fault);
      var t := Step(cfg, s, CleanAction(who, SavePending(now, fault)));
      && t.durable == cell && t.pages == s.pages
      && CleaningAs(t, who, Cleaner(rec, Closing(ok), c.style), evidence)
  {
    match who
    case ByOwner =>
    case ByRecoverer(i) =>
  }

  /** An attach failure whose pending save failed too does not offer the result to the journal. */
  predicate EndsUnsaved(c: Cleaner) {
    c.style == AfterAttachFailure && c.stage == Closing(false)
  }

  lemma SeeGoneStep(cfg: Config, s: State, who: Who, c: Cleaner, evidence: bool, gone: bool)
    requires CleaningAs(s, who, c, evidence) && c.stage.Closing?
    requires gone ==> c.rec.targetID !in s.pages
    ensures
      var next := Cleaner(Concluded(c.rec, c.style, gone), SavingResult(gone, c.stage.pendingSaved), c.style);
      var t := Step(cfg, s, CleanAction(who, SeeGone(gone)));
      && t.durable == s.durable && t.pages == s.pages
      && (if EndsUnsaved(c) then CleanedAs(t, who, next, evidence, gone, false) else CleaningAs(t, who, next, evidence))
  {
    match who
    case ByOwner =>
    case ByRecoverer(i) =>
  }

  lemma SaveResultStep(cfg: Config, s: State, who: Who, c: Cleaner, evidence: bool, now: int, fault: Fault)
    requires CleaningAs(s, who, c, evidence) && c.stage.SavingResult?
    ensures
      var rec := c.rec.(updatedAt := now);
      var (cell, ok) := SaveCell(cfg.rules, s.durable, rec, fault);
      var t := Step(cfg, s, CleanAction(who, SaveResult(now, fault)));
      && t.durable == cell && t.pages == s.pages
      && CleanedAs(t, who, Cleaner(rec, c.stage, c.style), evidence, c.stage.gone, ok && c.stage.pendingSaved)
  {
    match who
    case ByOwner =>
    case ByRecoverer(i) =>
  }

  // ------------------------------------------------------- closing one page

  /** The state after watching for page `id` to disappear, and whether it was seen gone. */
  ghost function Watched(cfg: Config, s: State, id: string, polls: seq<Poll>): (State, bool)
    decreases |polls|
  {
    if polls == [] then (s, false)
    else
      var listed := Run(cfg, s, polls[0].meanwhile);
      if !polls[0].listed then (listed, false)
      else if id !in listed.pages then (listed, true)
      else Watched(cfg, listed, id, polls[1..])
  }

  method WaitTargetGone(w: World, who: Who, id: string, polls: seq<Poll>) returns (gone: bool)
    requires w.Good() && PollsForeign(polls, who)
    modifies w`sys, w`pages, w.journal
    ensures w.Good() && SameLocal(old(w.sys), w.sys, who) && KeepsHistory(old(w.sys), w.sys)
    ensures (w.sys, gone) == Watched(w.cfg, old(w.sys), id, polls)
    ensures gone ==> id !in w.pages
  {
    var k := 0;
    while k < |polls|
      invariant k <= |polls|
      invariant w.Good() && SameLocal(old(w.sys), w.sys, who) && KeepsHistory(old(w.sys), w.sys)
      invariant Watched(w.cfg, w.sys, id, polls[k..]) == Watched(w.cfg, old(w.sys), id, polls)
    {
      assert polls[k..][1..] == polls[k + 1..];
      w.Others(polls[k].meanwhile, who);
      if !polls[k].listed {
        return false;
      }
      if id !in w.pages {
        return true;
      }
      k := k + 1;
    }
    gone := false;
  }

  /** The state after one close command, and whether the page was then seen gone. */
  ghost function ClosedOnce(cfg: Config, s: State, who: Who, id: string, try: CloseTry): (State, bool) {
    var ready := Run(cfg, s, try.meanwhile);
    var sent := Step(cfg, ready, CloseAction(ready, who, try.effective));
    if try.refused && id !in sent.pages then (sent, true) else Watched(cfg, sent, id, try.polls)
  }

  /** The same after at most `attempts` close commands. */
  ghost function TriedToClose(cfg: Config, s: State, who: Who, id: string, tries: seq<CloseTry>, attempts: nat)
    : (State, bool)
    decreases attempts
  {
    if tries == [] || attempts == 0 then (s, false)
    else
      var (after, gone) := ClosedOnce(cfg, s, who, id, tries[0]);
      if gone then (after, true) else TriedToClose(cfg, after, who, id, tries[1..], attempts - 1)
  }

  /** Send one close command and watch. A refusal counts as gone only when the browser says that there
      is no such page; it says so truthfully. */
  method CloseOnce(w: World, who: Who, id: string, try: CloseTry) returns (gone: bool)
    requires w.Good() && ClosingAs(w.sys, who, id) && TriesForeign([try], who)
    modifies w`sys, w`pages, w.journal
    ensures w.Good() && SameLocal(old(w.sys), w.sys, who) && KeepsHistory(old(w.sys), w.sys)
    ensures (w.sys, gone) == ClosedOnce(w.cfg, old(w.sys), who, id, try)
    ensures (gone ==> id !in w.pages) && id in w.sys.closeLog
  {
    assert try in [try];
    w.Others(try.meanwhile, who);
    SendCloseStep(w.cfg, w.sys, who, id, try.effective);
    w.SendClose(id, try.effective, CloseAction(w.sys, who, try.effective));
    if try.refused && id !in w.pages {
      return true;
    }
    gone := WaitTargetGone(w, who, id, try.polls);
  }

  /** At most two close commands for page `id`, and for no other page. */
  method CloseExactTarget(w: World, who: Who, id: string, tries: seq<CloseTry>) returns (gone: bool)
    requires w.Good() && ClosingAs(w.sys, who, id) && TriesForeign(tries, who)
    modifies w`sys, w`pages, w.journal
    ensures w.Good() && SameLocal(old(w.sys), w.sys, who)
    ensures (w.sys, gone) == TriedToClose(w.cfg, old(w.sys), who, id, tries, 2)
    ensures gone ==> id !in w.pages
    ensures tries != [] ==> id in w.sys.closeLog
  {
    var attempt := 0;
    gone := false;
    while attempt < 2 && attempt < |tries|
      invariant attempt <= 2 && attempt <= |tries|
      invariant w.Good() && SameLocal(old(w.sys), w.sys, who) && ClosingAs(w.sys, who, id)
      invariant attempt > 0 ==> id in w.sys.closeLog
      invariant TriedToClose(w.cfg, w.sys, who, id, tries[attempt..], 2 - attempt)
             == TriedToClose(w.cfg, old(w.sys), who, id, tries, 2)
    {
      assert tries[attempt..][1..] == tries[attempt + 1..];
      gone := CloseOnce(w, who, id, tries[attempt]);
      if gone {
        return;
      }
      attempt := attempt + 1;
    }
  }

  // ------------------------------------------------------------ settling it

  /** How a cleanup leaves the record it was given: it says whether the page is gone, and its error class;
      what was dispatched, and everything else, stays. */
  predicate Concludes(rec: Record, style: CleanStyle, gone: bool, final: Record) {
    && final == rec.(phase := final.phase, cleanup := final.cleanup, lastError := final.lastError,
                     updatedAt := final.updatedAt)
    && final.phase == (if gone then Phase.Closed else CleanupPending)
    && final.cleanup == (if gone then CleanupClosed else CleanupFailed)
    && match style
       case LeaseClose => final.lastError == if gone then NoError else CleanupUnsettled
       case Settle =>
         final.lastError == if !gone then CleanupUnsettled
                            else if rec.dispatch == Unknown then rec.lastError else NoError
       case AfterAttachFailure => final.lastError == rec.lastError
  }

  /** Nobody interferes, and the save lands. */
  predicate Quiet(moment: Moment, notBefore: int) {
    moment.meanwhile == [] && moment.fault == Lands && notBefore <= moment.now
  }

  /** The first close command works and is seen to. */
  predicate ClosesAtOnce(tries: seq<CloseTry>) {
    && tries != [] && tries[0].meanwhile == [] && tries[0].effective
    && (tries[0].refused || (tries[0].polls != [] && tries[0].polls[0].meanwhile == [] && tries[0].polls[0].listed))
  }

  lemma GoneAtOnce(cfg: Config, s: State, who: Who, id: string, tries: seq<CloseTry>)
    requires ClosingAs(s, who, id) && ClosesAtOnce(tries)
    ensures
      var (t, gone) := TriedToClose(cfg, s, who, id, tries, 2);
      gone && t.durable == s.durable
  {
    SendCloseStep(cfg, s, who, id, true);
    assert Run(cfg, s, tries[0].meanwhile) == s;
    var sent := Step(cfg, s, CloseAction(s, who, true));
    assert !tries[0].refused ==> Run(cfg, sent, tries[0].polls[0].meanwhile) == sent;
    assert ClosedOnce(cfg, s, who, id, tries[0]) == (sent, true);
  }

  /** The journal takes this record, and says so when the save lands. */
  predicate Takes(cfg: Config, cell: Option<Record>, rec: Record) {
    SaveCell(cfg.rules, cell, rec, Lands) == (Some(rec), true)
  }

  predicate ConclusionTaken(cfg: Config, pending: Record, style: CleanStyle, now: int) {
    Takes(cfg, Some(pending), Concluded(pending, style, true).(updatedAt := now))
  }

  /** Nothing stands in the way of this cleanup: the journal takes the intent to clean up and its success. */
  predicate FreeToClean(cfg: Config, s: State, rec: Record, style: CleanStyle, script: CleanScript) {
    && Quiet(script.pending, rec.updatedAt) && ClosesAtOnce(script.tries) && Quiet(script.result, script.pending.now)
    && Takes(cfg, s.durable, rec.(updatedAt := script.pending.now))
    && ConclusionTaken(cfg, rec.(updatedAt := script.pending.now), style, script.result.now)
  }

  lemma ConcludedConcludes(rec: Record, style: CleanStyle, gone: bool, at: int)
    ensures Concludes(rec, style, gone, Concluded(rec, style, gone))
    ensures Concludes(rec, style, gone, Concluded(rec, style, gone).(updatedAt := at))
  {
  }

  lemma ConcludesFrom(rec: Record, at: int, style: CleanStyle, gone: bool, final: Record)
    requires Concludes(rec.(updatedAt := at), style, gone, final)
    ensures Concludes(rec, style, gone, final)
  {
  }

  lemma ConcludesFromStart(rec: Record, style: CleanStyle, gone: bool, final: Record)
    requires Concludes(StartCleaning(rec, style).rec, style, gone, final)
    ensures Concludes(rec, style, gone, final)
  {
  }

  /** Persist cleanup_pending, close the page, persist how that ended. */
  method SettleExactCleanup(w: World, who: Who, c: Cleaner, ghost evidence: bool, script: CleanScript)
    returns (gone: bool, saved: bool, final: Record)
    requires w.Good() && CleaningAs(w.sys, who, c, evidence) && c.stage.SavingPending? && ScriptForeign(script, who)
    modifies w`sys, w`pages, w.journal
    ensures w.Good() && CleanedAs(w.sys, who, c.(rec := final), evidence, gone, saved)
    ensures Concludes(c.rec, c.style, gone, final)
    ensures saved ==> w.sys.durable == Some(final)
    ensures FreeToClean(w.cfg, old(w.sys), c.rec, c.style, script) ==> gone && saved
    ensures script.tries != [] ==> c.rec.targetID in w.sys.closeLog
  {
    w.Others(script.pending.meanwhile, who);
    var pending := c.rec.(updatedAt := script.pending.now);
    SavePendingStep(w.cfg, w.sys, who, c, evidence, script.pending.now, script.pending.fault);
    var pendingSaved := w.Save(pending, script.pending.fault,
                               CleanAction(who, SavePending(script.pending.now, script.pending.fault)));
    var closing := Cleaner(pending, Closing(pendingSaved), c.style);
    gone, saved, final := CloseAndConclude(w, who, closing, evidence, script.tries, script.result);
    ConcludesFrom(c.rec, script.pending.now, c.style, gone, final);
  }

  /** Close the page, and persist how that ended. */
  method CloseAndConclude(w: World, who: Who, c: Cleaner, ghost evidence: bool, tries: seq<CloseTry>, moment: Moment)
    returns (gone: bool, saved: bool, final: Record)
    requires w.Good() && CleaningAs(w.sys, who, c, evidence) && c.stage.Closing?
    requires TriesForeign(tries, who) && AllForeign(moment.meanwhile, who)
    modifies w`sys, w`pages, w.journal
    ensures w.Good() && CleanedAs(w.sys, who, c.(rec := final), evidence, gone, saved)
    ensures Concludes(c.rec, c.style, gone, final)
    ensures saved ==> w.sys.durable == Some(final)
    ensures c.stage.pendingSaved && ClosesAtOnce(tries) ==> gone
    ensures c.stage.pendingSaved && ClosesAtOnce(tries) && Quiet(moment, moment.now) ==>
              old(w.sys).durable == Some(c.rec) && ConclusionTaken(w.cfg, c.rec, c.style, moment.now) ==> saved
    ensures tries != [] ==> c.rec.targetID in w.sys.closeLog
  {
    if ClosesAtOnce(tries) {
      GoneAtOnce(w.cfg, w.sys, who, c.rec.targetID, tries);
    }
    gone := CloseExactTarget(w, who, c.rec.targetID, tries);
    assert CleaningAs(w.sys, who, c, evidence);
    saved, final := Conclude(w, who, c, evidence, gone, moment);
  }

  method Conclude(w: World, who: Who, c: Cleaner, ghost evidence: bool, gone: bool, moment: Moment)
    returns (saved: bool, final: Record)
    requires w.Good() && CleaningAs(w.sys, who, c, evidence) && c.stage.Closing? && AllForeign(moment.meanwhile, who)
    requires gone ==> c.rec.targetID !in w.pages
    modifies w`sys, w`pages, w.journal
    ensures w.Good() && CleanedAs(w.sys, who, c.(rec := final), evidence, gone, saved)
    ensures Concludes(c.rec, c.style, gone, final)
    ensures saved ==> w.sys.durable == Some(final)
    ensures c.stage.pendingSaved && moment.meanwhile == [] ==>
              saved == SaveCell(w.cfg.rules, old(w.sys).durable,
                                Concluded(c.rec, c.style, gone).(updatedAt := moment.now), moment.fault).1
    ensures KeepsHistory(old(w.sys), w.sys)
  {
    final := Concluded(c.rec, c.style, gone);
    ConcludedConcludes(c.rec, c.style, gone, moment.now);
    SeeGoneStep(w.cfg, w.sys, who, c, evidence, gone);
    HistoryGrows(w.cfg, w.sys, CleanAction(who, SeeGone(gone)));
    w.Move(CleanAction(who, SeeGone(gone)));
    saved := false;
    if !EndsUnsaved(c) {
      var concluded := Cleaner(final, SavingResult(gone, c.stage.pendingSaved), c.style);
      saved, final := SaveConclusion(w, who, concluded, evidence, moment);
    }
  }

  method SaveConclusion(w: World, who: Who, c: Cleaner, ghost evidence: bool, moment: Moment)
    returns (saved: bool, final: Record)
    requires w.Good() && CleaningAs(w.sys, who, c, evidence) && c.stage.SavingResult?
    requires AllForeign(moment.meanwhile, who)
    modifies w`sys, w`pages, w.journal
    ensures w.Good() && CleanedAs(w.sys, who, c.(rec := final), evidence, c.stage.gone, saved)
    ensures final == c.rec.(updatedAt := moment.now)
    ensures saved ==> w.sys.durable == Some(final)
    ensures saved <==> c.stage.pendingSaved
                       && SaveCell(w.cfg.rules, Run(w.cfg, old(w.sys), moment.meanwhile).durable, final, moment.fault).1
    ensures KeepsHistory(old(w.sys), w.sys)
  {
    w.Others(moment.meanwhile, who);
    final := c.rec.(updatedAt := moment.now);
    SaveResultStep(w.cfg, w.sys, who, c, evidence, moment.now, moment.fault);
    HistoryGrows(w.cfg, w.sys, CleanAction(who, SaveResult(moment.now, moment.fault)));
    var ok := w.Save(final, moment.fault, CleanAction(who, SaveResult(moment.now, moment.fault)));
    saved := ok && c.stage.pendingSaved;
  }

  // ---------------------------------------------------- finding the page again

  function AtMarker(pages: map<string, string>, marker: string): set<string> {
    set id | id in pages && pages[id] == marker
  }

  /** What one listing of the pages says: one match is it, none may still come, more is a failure. */
  method Matching(pages: map<string, string>, marker: string) returns (result: Search)
    ensures result.Found? ==> AtMarker(pages, marker) == {result.id}
    ensures result.NothingFound? ==> AtMarker(pages, marker) == {}
    ensures result.SearchFailed? ==> |AtMarker(pages, marker)| > 1
  {
    var matches := AtMarker(pages, marker);
    if |matches| == 1 {
      var id :| id in matches;
      OnlyMember(matches, id);
      return Found(id);
    }
    result := if |matches| == 0 then NothingFound else SearchFailed;
  }

  lemma MatchIsTrue(cfg: Config, s: State, result: Search)
    requires result.Found? ==> AtMarker(s.pages, cfg.marker) == {result.id}
    requires result.NothingFound? ==> AtMarker(s.pages, cfg.marker) == {}
    ensures TrueSearch(cfg, s, result)
  {
    assert forall id | id in s.pages && s.pages[id] == cfg.marker :: id in AtMarker(s.pages, cfg.marker);
    assert result.Found? ==> result.id in AtMarker(s.pages, cfg.marker);
  }

  method ListOnce(w: World, who: Who, poll: Poll) returns (result: Search)
    requires w.Good() && AllForeign(poll.meanwhile, who)
    modifies w`sys, w`pages, w.journal
    ensures w.Good() && SameLocal(old(w.sys), w.sys, who) && TrueSearch(w.cfg, w.sys, result)
    ensures w.sys == Run(w.cfg, old(w.sys), poll.meanwhile)
    ensures result.Found? ==> poll.listed && AtMarker(w.pages, w.cfg.marker) == {result.id}
    ensures result == NothingFound ==> poll.listed && AtMarker(w.pages, w.cfg.marker) == {}
    ensures result == SearchFailed ==> !poll.listed || |AtMarker(w.pages, w.cfg.marker)| > 1
  {
    w.Others(poll.meanwhile, who);
    if !poll.listed {
      return SearchFailed;
    }
    result := Matching(w.pages, w.cfg.marker);
    MatchIsTrue(w.cfg, w.sys, result);
  }

  /** The state after looking for the run's page, and what was found: the page of the first listing that
      shows one at the marker, a failure when a listing fails or shows several, and nothing when every
      listing of the window shows none. */
  ghost function Searched(cfg: Config, s: State, polls: seq<Poll>): (State, Search)
    decreases |polls|
  {
    if polls == [] then (s, SearchFailed)
    else
      var listed := Run(cfg, s, polls[0].meanwhile);
      if !polls[0].listed || |AtMarker(listed.pages, cfg.marker)| > 1 then (listed, SearchFailed)
      else if |AtMarker(listed.pages, cfg.marker)| == 1 then
        var id :| id in AtMarker(listed.pages, cfg.marker);
        (listed, Found(id))
      else if |polls| == 1 then (listed, NothingFound)
      else Searched(cfg, listed, polls[1..])
  }

  /** Look for the one page at the run's marker. The last listing is the one after which the
      reconcile window is over. */
  method FindMarkerTarget(w: World, who: Who, polls: seq<Poll>) returns (result: Search)
    requires w.Good() && PollsForeign(polls, who)
    modifies w`sys, w`pages, w.journal
    ensures w.Good() && SameLocal(old(w.sys), w.sys, who) && TrueSearch(w.cfg, w.sys, result)
    ensures (w.sys, result) == Searched(w.cfg, old(w.sys), polls)
    ensures result == NothingFound ==> polls != [] && forall p | p in polls :: p.listed
    ensures
      result == SearchFailed ==>
        polls == [] || (exists p | p in polls :: !p.listed) || |AtMarker(w.pages, w.cfg.marker)| > 1
  {
    var k := 0;
    result := SearchFailed;
    while k < |polls|
      invariant k <= |polls|
      invariant w.Good() && SameLocal(old(w.sys), w.sys, who) && TrueSearch(w.cfg, w.sys, result)
      invariant forall j | 0 <= j < k :: polls[j].listed
      invariant result == if k == 0 then SearchFailed else NothingFound
      invariant if k < |polls| || k == 0 then Searched(w.cfg, w.sys, polls[k..]) == Searched(w.cfg, old(w.sys), polls)
                else (w.sys, NothingFound) == Searched(w.cfg, old(w.sys), polls)
    {
      assert polls[k..][1..] == polls[k + 1..];
      result := ListOnce(w, who, polls[k]);
      if result != NothingFound {
        return;
      }
      k := k + 1;
    }
  }

  lemma OnlyMember(s: set<string>, id: string)
    requires |s| == 1 && id in s
    ensures s == {id}
  {
    assert |s - {id}| == 0;
  }

  // ------------------------------------------------------------------ Recover

  /** Everything the outside does around one Recover call. */
  datatype RecoverScript = RecoverScript(
    readable: bool,
    loadedAt: int,
    search: seq<Poll>,
    searchedAt: int,
    verdict: Moment,
    evidence: Moment,
    clean: CleanScript)

  ghost predicate RecoverForeign(script: RecoverScript, who: Who) {
    && PollsForeign(script.search, who)
    && AllForeign(script.verdict.meanwhile, who)
    && AllForeign(script.evidence.meanwhile, who)
    && ScriptForeign(script.clean, who)
  }

  /** Recoverer `i` of the machine is at this point. */
  predicate IsAt(s: State, i: nat, p: Recoverer) {
    i < |s.recoverers| && s.recoverers[i] == p
  }

  lemma SearchesStep(cfg: Config, s: State, i: nat, r: Record, result: Search, now: int)
    requires IsAt(s, i, Searching(r)) && TrueSearch(cfg, s, result)
    ensures
      var t := Step(cfg, s, InRecover(i, Searches(result, now)));
      && t.durable == s.durable && t.pages == s.pages
      && match result
         case Found(id) => IsAt(t, i, RecoverTarget(cfg, r.(targetID := id, lastError := CreateAmbiguous), now))
         case NothingFound => IsAt(t, i, SavingVerdict(NoTarget(r), CleanupNotRequired)) && t.missed
         case SearchFailed => IsAt(t, i, SavingVerdict(Unresolved(r), CleanupFailed))
  {
  }

  function NoTarget(r: Record): Record {
    r.(phase := Failed, cleanup := CleanupNotRequired, lastError := CreateFailed)
  }

  function Unresolved(r: Record): Record {
    r.(phase := Failed, cleanup := CleanupFailed, lastError := ReconciliationFailed)
  }

  lemma SaveVerdictStep(cfg: Config, s: State, i: nat, r: Record, answer: CleanupState, now: int, fault: Fault)
    requires IsAt(s, i, SavingVerdict(r, answer))
    ensures
      var (cell, ok) := SaveCell(cfg.rules, s.durable, r.(updatedAt := now), fault);
      var t := Step(cfg, s, InRecover(i, SaveVerdict(now, fault)));
      && t.durable == cell && t.pages == s.pages && t.missed == s.missed
      && IsAt(t, i, Answered(answer, ok && answer == CleanupNotRequired))
  {
  }

  lemma SaveEvidenceStep(cfg: Config, s: State, i: nat, r: Record, now: int, fault: Fault)
    requires IsAt(s, i, SavingEvidence(r))
    ensures
      var rec := r.(updatedAt := now);
      var (cell, ok) := SaveCell(cfg.rules, s.durable, rec, fault);
      var t := Step(cfg, s, InRecover(i, SaveEvidence(now, fault)));
      && t.durable == cell && t.pages == s.pages
      && IsAt(t, i, Clearing(StartCleaning(rec, Settle), ok))
  {
  }

  /** What a clean recovery of a page leaves in the journal. An action that was pending is on record as
      unknown, one raw input included, and stays so; any other dispatch is as it was. */
  predicate Recovered(r: Record, at: int, cooldown: int, d: Record) {
    && d.phase == Phase.Closed && d.cleanup == CleanupClosed
    && (if r.phase == ActionPending then
          && d == r.(phase := d.phase, cleanup := d.cleanup, dispatch := Unknown, rawInputs := 1,
                     pendingPersisted := true, retryAt := Some(at + cooldown), lastError := AmbiguousAfterRestart,
                     updatedAt := d.updatedAt)
        else
          && d == r.(phase := d.phase, cleanup := d.cleanup, lastError := d.lastError, updatedAt := d.updatedAt)
          && d.lastError == if r.dispatch == Unknown then r.lastError else NoError)
  }

  /** A page that the journal names, and nothing that stands in the way of cleaning it up. */
  predicate FreeToRecover(rules: TextRules, r: Record, evidence: Moment, clean: CleanScript) {
    && Valid(rules, r) && r.targetID != "" && r.phase != Phase.Closed
    && (r.phase == ActionPending ==>
          r.dispatch != Performed && Quiet(evidence, r.updatedAt) && evidence.now <= clean.pending.now)
    && Quiet(clean.pending, r.updatedAt) && ClosesAtOnce(clean.tries) && Quiet(clean.result, clean.pending.now)
  }

  lemma CleanTransitions(rules: TextRules, r: Record, at: int, later: int)
    requires Valid(rules, r) && r.targetID != "" && r.phase != Phase.Closed && r.updatedAt <= at <= later
    ensures
      var pending := StartCleaning(r, Settle).rec;
      && ValidTransition(rules, r, pending.(updatedAt := at))
      && ValidTransition(rules, pending.(updatedAt := at), Concluded(pending, Settle, true).(updatedAt := later))
  {
    var pending := StartCleaning(r, Settle).rec.(updatedAt := at);
    assert Valid(rules, pending);
    ConclusionTransition(rules, pending, later);
  }

  lemma ConclusionTransition(rules: TextRules, pending: Record, later: int)
    requires Valid(rules, pending) && pending.phase == CleanupPending && pending.updatedAt <= later
    ensures ValidTransition(rules, pending, Concluded(pending, Settle, true).(updatedAt := later))
  {
  }

  lemma EvidenceTransition(rules: TextRules, r: Record, at: int, ambiguous: Record)
    requires Valid(rules, r) && r.phase == ActionPending && r.dispatch != Performed && r.updatedAt <= at
    requires ambiguous == r.(phase := ActionUnknown, dispatch := Unknown, rawInputs := 1, pendingPersisted := true,
                             retryAt := ambiguous.retryAt, lastError := AmbiguousAfterRestart, updatedAt := at)
    ensures ValidTransition(rules, r, ambiguous)
  {
  }

  /** What the journal says after a Recover that loaded `r` and reported no error. */
  predicate OnRecord(r: Record, script: RecoverScript, cooldown: int, answer: CleanupState, d: Record) {
    match answer
    case CleanupClosed =>
      if r.phase == Phase.Closed then d == r
      else if r.targetID != "" then Recovered(r, script.loadedAt, cooldown, d)
      else Recovered(r.(targetID := d.targetID, lastError := CreateAmbiguous), script.searchedAt, cooldown, d)
    case CleanupNotRequired =>
      if MayHaveMarkerTarget(r) then
        d == r.(phase := Phase.Failed, cleanup := CleanupNotRequired, lastError := CreateFailed,
                updatedAt := d.updatedAt)
      else d == r
    case _ => false
  }

  /** Load the record, find the page if the record does not name it, and close exactly that page.
      The answer is the one the machine's recoverer gives. That nothing needs cleaning is wrong, unless
      the page came late, exactly when it is said with an error and the journal names an open page. */
  method Recover(w: World, script: RecoverScript) returns (answer: Option<CleanupState>, clean: bool)
    requires w.Good() && RecoverForeign(script, ByRecoverer(|w.sys.recoverers|))
    modifies w`sys, w`pages, w.journal
    ensures w.Good()
    ensures answer.None? <==> LoadCell(w.cfg.rules, old(w.journal.cell), script.readable).None?
    ensures answer.None? ==> w.sys == old(w.sys) && !clean
    ensures answer.Some? ==> IsAt(w.sys, |old(w.sys).recoverers|, Answered(answer.value, clean))
    ensures answer.Some? && FreeToRecover(w.cfg.rules, old(w.journal.cell).value, script.evidence, script.clean) ==>
              answer == Some(CleanupClosed) && clean
    ensures clean ==> w.journal.cell.Some? && OnRecord(old(w.journal.cell).value, script, w.cfg.cooldown, answer.value,
                                                       w.journal.cell.value)
    ensures answer == Some(CleanupNotRequired) && Placed(w.cfg, w.sys) && !w.sys.late ==>
              (BornOpen(w.sys) <==> !clean && NamesOpenPage(w.sys))
  {
    answer, clean := LoadAndRecover(w, script);
    if answer == Some(CleanupNotRequired) && Placed(w.cfg, w.sys) && !w.sys.late {
      NothingSeenExactly(w.cfg, w.sys, clean);
    }
  }

  method LoadAndRecover(w: World, script: RecoverScript) returns (answer: Option<CleanupState>, clean: bool)
    requires w.Good() && RecoverForeign(script, ByRecoverer(|w.sys.recoverers|))
    modifies w`sys, w`pages, w.journal
    ensures w.Good()
    ensures answer.None? <==> LoadCell(w.cfg.rules, old(w.journal.cell), script.readable).None?
    ensures answer.None? ==> w.sys == old(w.sys) && !clean
    ensures answer.Some? ==> IsAt(w.sys, |old(w.sys).recoverers|, Answered(answer.value, clean))
    ensures answer.Some? && FreeToRecover(w.cfg.rules, old(w.journal.cell).value, script.evidence, script.clean) ==>
              answer == Some(CleanupClosed) && clean
    ensures clean ==> w.sys.durable.Some? && OnRecord(old(w.journal.cell).value, script, w.cfg.cooldown, answer.value,
                                                      w.sys.durable.value)
    ensures answer == Some(CleanupNotRequired) ==> SeesNothing(w.sys, clean)
  {
    var loaded := w.journal.Load(script.readable);
    var i := |w.sys.recoverers|;
    w.Move(Action.Recover(script.readable, script.loadedAt));
    if loaded.None? {
      return None, false;
    }
    var r := loaded.value;
    if r.phase == Phase.Closed {
      return Some(CleanupClosed), true;
    }
    if r.targetID != "" {
      answer, clean := RecoverPage(w, i, r, script.loadedAt, script.evidence, script.clean);
    } else if r.phase != TargetCreatePending && (r.phase != Failed || r.lastError != ReconciliationFailed) {
      answer, clean := Some(CleanupNotRequired), true;
    } else {
      answer, clean := SearchAndRecover(w, i, r, script);
    }
  }

  /** The record names no page: look for one at the marker. */
  method SearchAndRecover(w: World, i: nat, r: Record, script: RecoverScript)
    returns (answer: Option<CleanupState>, clean: bool)
    requires w.Good() && IsAt(w.sys, i, Searching(r)) && r.targetID == "" && RecoverForeign(script, ByRecoverer(i))
    requires MayHaveMarkerTarget(r)
    modifies w`sys, w`pages, w.journal
    ensures w.Good() && answer.Some? && IsAt(w.sys, i, Answered(answer.value, clean))
    ensures answer == Some(CleanupNotRequired) ==> SeesNothing(w.sys, clean)
    ensures clean ==> w.sys.durable.Some? && OnRecord(r, script, w.cfg.cooldown, answer.value, w.sys.durable.value)
  {
    var result := FindMarkerTarget(w, ByRecoverer(i), script.search);
    SearchesStep(w.cfg, w.sys, i, r, result, script.searchedAt);
    w.Move(InRecover(i, Searches(result, script.searchedAt)));
    match result {
      case Found(id) =>
        var next := r.(targetID := id, lastError := CreateAmbiguous);
        answer, clean := RecoverPage(w, i, next, script.searchedAt, script.evidence, script.clean);
      case NothingFound => answer, clean := Give(w, i, NoTarget(r), CleanupNotRequired, script.verdict);
      case SearchFailed => answer, clean := Give(w, i, Unresolved(r), CleanupFailed, script.verdict);
    }
  }

  /** Persist why there is no page to close. */
  method Give(w: World, i: nat, verdict: Record, state: CleanupState, moment: Moment)
    returns (answer: Option<CleanupState>, clean: bool)
    requires w.Good() && IsAt(w.sys, i, SavingVerdict(verdict, state)) && AllForeign(moment.meanwhile, ByRecoverer(i))
    modifies w`sys, w`pages, w.journal
    ensures w.Good() && answer == Some(state) && IsAt(w.sys, i, Answered(state, clean))
    ensures clean ==> state == CleanupNotRequired && w.sys.durable == Some(verdict.(updatedAt := moment.now))
    ensures old(w.sys).missed ==> w.sys.missed
  {
    w.Others(moment.meanwhile, ByRecoverer(i));
    SaveVerdictStep(w.cfg, w.sys, i, verdict, state, moment.now, moment.fault);
    var save := InRecover(i, SaveVerdict(moment.now, moment.fault));
    var ok := w.Save(verdict.(updatedAt := moment.now), moment.fault, save);
    answer, clean := Some(state), ok && state == CleanupNotRequired;
  }

  /** Put on record that a pending action may have been performed. */
  method KeepEvidence(w: World, i: nat, r: Record, at: int, moment: Moment) returns (next: Record, saved: bool)
    requires w.Good() && IsAt(w.sys, i, SavingEvidence(AmbiguousRecord(w.cfg, r, at)))
    requires AllForeign(moment.meanwhile, ByRecoverer(i))
    modifies w`sys, w`pages, w.journal
    ensures w.Good() && IsAt(w.sys, i, Clearing(StartCleaning(next, Settle), saved))
    ensures next == r.(phase := ActionUnknown, dispatch := Unknown, rawInputs := 1, pendingPersisted := true,
                       retryAt := Some(at + w.cfg.cooldown), lastError := AmbiguousAfterRestart,
                       updatedAt := moment.now)
    ensures saved ==> w.sys.durable == Some(next)
    ensures Quiet(moment, r.updatedAt) && Takes(w.cfg, old(w.sys).durable, next) ==> saved
  {
    w.Others(moment.meanwhile, ByRecoverer(i));
    var ambiguous := r.(phase := ActionUnknown, dispatch := Unknown, rawInputs := 1, pendingPersisted := true,
                        retryAt := Some(at + w.cfg.cooldown), lastError := AmbiguousAfterRestart);
    SaveEvidenceStep(w.cfg, w.sys, i, ambiguous, moment.now, moment.fault);
    next := ambiguous.(updatedAt := moment.now);
    saved := w.Save(next, moment.fault, InRecover(i, SaveEvidence(moment.now, moment.fault)));
  }

  /** Settle the page a record names. */
  method SettlePage(w: World, i: nat, r: Record, evidence: bool, script: CleanScript)
    returns (answer: Option<CleanupState>, clean: bool)
    requires w.Good() && IsAt(w.sys, i, Clearing(StartCleaning(r, Settle), evidence))
    requires ScriptForeign(script, ByRecoverer(i))
    modifies w`sys, w`pages, w.journal
    ensures w.Good() && answer.Some? && IsAt(w.sys, i, Answered(answer.value, clean))
    ensures answer == Some(CleanupClosed) || answer == Some(CleanupFailed)
    ensures clean ==>
              && answer == Some(CleanupClosed) && evidence
              && w.sys.durable.Some? && Concludes(r, Settle, true, w.sys.durable.value)
    ensures evidence && FreeToClean(w.cfg, old(w.sys), StartCleaning(r, Settle).rec, Settle, script) ==> clean
    ensures script.tries != [] ==> r.targetID in w.sys.closeLog
  {
    var gone, saved, final := SettleExactCleanup(w, ByRecoverer(i), StartCleaning(r, Settle), evidence, script);
    ConcludesFromStart(r, Settle, gone, final);
    answer, clean := Some(if gone then CleanupClosed else CleanupFailed), gone && saved && evidence;
  }

  /** The evidence of a pending action is taken, and the page can be cleaned up after it. */
  lemma FreesEvidence(cfg: Config, r: Record, at: int, moment: Moment, script: CleanScript, next: Record)
    requires FreeToRecover(cfg.rules, r, moment, script) && r.phase == ActionPending
    requires next == AmbiguousRecord(cfg, r, at).(updatedAt := moment.now)
    ensures Takes(cfg, Some(r), next) && Quiet(moment, r.updatedAt) && FreeToRecover(cfg.rules, next, moment, script)
  {
    EvidenceTransition(cfg.rules, r, moment.now, next);
  }

  lemma FreesCleaning(cfg: Config, s: State, r: Record, evidence: Moment, script: CleanScript)
    requires FreeToRecover(cfg.rules, r, evidence, script) && s.durable == Some(r)
    ensures FreeToClean(cfg, s, StartCleaning(r, Settle).rec, Settle, script)
  {
    CleanTransitions(cfg.rules, r, script.pending.now, script.result.now);
  }

  lemma ConcludesIsRecovered(cfg: Config, r: Record, at: int, now: int, d: Record)
    ensures r.phase != ActionPending && Concludes(r, Settle, true, d) ==> Recovered(r, at, cfg.cooldown, d)
    ensures r.phase == ActionPending && Concludes(AmbiguousRecord(cfg, r, at).(updatedAt := now), Settle, true, d) ==>
              Recovered(r, at, cfg.cooldown, d)
  {
  }

  /** Turn a pending action into an unknown one, then settle the page. */
  method RecoverPending(w: World, i: nat, r: Record, at: int, moment: Moment, script: CleanScript)
    returns (answer: Option<CleanupState>, clean: bool)
    requires w.Good() && IsAt(w.sys, i, SavingEvidence(AmbiguousRecord(w.cfg, r, at))) && r.phase == ActionPending
    requires AllForeign(moment.meanwhile, ByRecoverer(i)) && ScriptForeign(script, ByRecoverer(i))
    modifies w`sys, w`pages, w.journal
    ensures w.Good() && answer.Some? && IsAt(w.sys, i, Answered(answer.value, clean))
    ensures answer == Some(CleanupClosed) || answer == Some(CleanupFailed)
    ensures clean ==>
              && answer == Some(CleanupClosed)
              && w.sys.durable.Some? && Recovered(r, at, w.cfg.cooldown, w.sys.durable.value)
    ensures old(w.sys).durable == Some(r) && FreeToRecover(w.cfg.rules, r, moment, script) ==> clean
    ensures script.tries != [] ==> r.targetID in w.sys.closeLog
  {
    ghost var free := w.sys.durable == Some(r) && FreeToRecover(w.cfg.rules, r, moment, script);
    if free {
      FreesEvidence(w.cfg, r, at, moment, script, AmbiguousRecord(w.cfg, r, at).(updatedAt := moment.now));
    }
    var next, evidence := KeepEvidence(w, i, r, at, moment);
    if free {
      FreesCleaning(w.cfg, w.sys, next, moment, script);
    }
    answer, clean := SettlePage(w, i, next, evidence, script);
    if clean {
      ConcludesIsRecovered(w.cfg, r, at, moment.now, w.sys.durable.value);
    }
  }

  /** Settle the page the record names. */
  method RecoverPage(w: World, i: nat, r: Record, at: int, moment: Moment, script: CleanScript)
    returns (answer: Option<CleanupState>, clean: bool)
    requires w.Good() && IsAt(w.sys, i, RecoverTarget(w.cfg, r, at))
    requires AllForeign(moment.meanwhile, ByRecoverer(i)) && ScriptForeign(script, ByRecoverer(i))
    modifies w`sys, w`pages, w.journal
    ensures w.Good() && answer.Some? && IsAt(w.sys, i, Answered(answer.value, clean))
    ensures answer == Some(CleanupClosed) || answer == Some(CleanupFailed)
    ensures clean ==>
              && answer == Some(CleanupClosed)
              && w.sys.durable.Some? && Recovered(r, at, w.cfg.cooldown, w.sys.durable.value)
    ensures old(w.sys).durable == Some(r) && FreeToRecover(w.cfg.rules, r, moment, script) ==> clean
    ensures script.tries != [] ==> r.targetID in w.sys.closeLog
  {
    if r.phase == ActionPending {
      answer, clean := RecoverPending(w, i, r, at, moment, script);
    } else {
      if w.sys.durable == Some(r) && FreeToRecover(w.cfg.rules, r, moment, script) {
        FreesCleaning(w.cfg, w.sys, r, moment, script);
      }
      answer, clean := SettlePage(w, i, r, true, script);
      if clean {
        ConcludesIsRecovered(w.cfg, r, at, moment.now, w.sys.durable.value);
      }
    }
  }
}
