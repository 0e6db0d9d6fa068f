/** The journal and the browser a process works on, tied to the machine of module Protocol. */
module Worlds {
  import opened Basics
  import opened Records
  import opened Journal
  import opened Protocol
  import opened Frames

  ghost predicate AllForeign(acts: seq<Action>, who: Who) {
    forall a | a in acts :: Foreign(a, who)
  }

  /** The journal and the browser, beside the machine they belong to. The machine moves only by Step;
      `keeps` makes that visible to callers: it is any predicate that every step keeps, and Good says
      that it still holds. */
  class World {
    const cfg: Config
    const journal: FileJournal
    ghost const keeps: State -> bool
    var pages: map<string, string>
    var sys: State

    ghost predicate Good()
      reads this, journal
    {
      && journal.rules == cfg.rules
      && sys.durable == journal.cell
      && sys.pages == pages
      && keeps(sys)
      && (forall s, a {:trigger keeps(Step(cfg, s, a))} :: keeps(s) ==> keeps(Step(cfg, s, a)))
    }

    /** A world in which nothing has happened yet. */
    constructor (cfg: Config, ghost keeps: State -> bool)
      requires keeps(Initial)
      requires forall s, a {:trigger keeps(Step(cfg, s, a))} :: keeps(s) ==> keeps(Step(cfg, s, a))
      ensures Good() && sys == Initial && this.cfg == cfg && this.keeps == keeps && fresh(journal)
    {
      this.cfg := cfg;
      this.keeps := keeps;
      journal := new FileJournal(cfg.rules);
      pages := Initial.pages;
      sys := Initial;
    }

    /** Offer a record to the journal as action `a`. */
    method Save(rec: Record, fault: Fault, a: Action) returns (ok: bool)
      requires Good()
      requires Step(cfg, sys, a).durable == SaveCell(cfg.rules, sys.durable, rec, fault).0
      requires Step(cfg, sys, a).pages == sys.pages
      modifies this`sys, journal
      ensures Good() && sys == Step(cfg, old(sys), a)
      ensures ok == SaveCell(cfg.rules, old(sys).durable, rec, fault).1
    {
      ok := journal.Save(rec, fault);
      sys := Step(cfg, sys, a);
    }

    /** Start the journal of a new run as action `a`. */
    method Create(rec: Record, fault: Fault, a: Action) returns (ok: bool)
      requires Good()
      requires Step(cfg, sys, a).durable == CreateCell(cfg.rules, sys.durable, rec, fault).0
      requires Step(cfg, sys, a).pages == sys.pages
      modifies this`sys, journal
      ensures Good() && sys == Step(cfg, old(sys), a)
      ensures ok == CreateCell(cfg.rules, old(sys).durable, rec, fault).1
    {
      ok := journal.Create(rec, fault);
      sys := Step(cfg, sys, a);
    }

    /** A step that touches neither the journal nor the pages. */
    method Move(a: Action)
      requires Good()
      requires Step(cfg, sys, a).durable == sys.durable && Step(cfg, sys, a).pages == sys.pages
      modifies this`sys
      ensures Good() && sys == Step(cfg, old(sys), a)
    {
      sys := Step(cfg, sys, a);
    }

    /** What the browser answers to the create call, unless the answer is lost. */
    method CreateReply(answered: bool) returns (reply: Option<string>)
      ensures reply == if answered then sys.born else None
    {
      reply := if answered then sys.born else None;
    }

    /** A close command for one page, which the browser may or may not carry out. */
    method SendClose(id: string, effective: bool, a: Action)
      requires Good()
      requires Step(cfg, sys, a).durable == sys.durable
      requires Step(cfg, sys, a).pages == if effective then sys.pages - {id} else sys.pages
      modifies this`sys, this`pages
      ensures Good() && sys == Step(cfg, old(sys), a)
    {
      if effective {
        pages := pages - {id};
      }
      sys := Step(cfg, sys, a);
    }

    /** Send one page, if it is still open, to another address. */
    method Navigate(id: string, landed: Option<string>, a: Action)
      requires Good()
      requires Step(cfg, sys, a).durable == sys.durable
      requires Step(cfg, sys, a).pages
            == if landed.Some? && id in sys.pages then sys.pages[id := landed.value] else sys.pages
      modifies this`sys, this`pages
      ensures Good() && sys == Step(cfg, old(sys), a)
    {
      if landed.Some? && id in pages {
        pages := pages[id := landed.value];
      }
      sys := Step(cfg, sys, a);
    }

    /** Another process acts, on the same journal and the same browser. */
    method Foreigner(a: Action, who: Who)
      requires Good() && Foreign(a, who)
      modifies this`sys, this`pages, journal
      ensures Good() && sys == Step(cfg, old(sys), a) && SameLocal(old(sys), sys, who)
    {
      ForeignLeavesLocal(cfg, sys, a, who);
      sys := Step(cfg, sys, a);
      journal.cell := sys.durable;
      pages := sys.pages;
    }

    /** Other processes act for a while; the state of process `who` is out of their reach. */
    method Others(meanwhile: seq<Action>, who: Who)
      requires Good() && AllForeign(meanwhile, who)
      modifies this`sys, this`pages, journal
      ensures Good() && sys == Run(cfg, old(sys), meanwhile)
      ensures SameLocal(old(sys), sys, who) && KeepsHistory(old(sys), sys)
    {
      var i := 0;
      while i < |meanwhile|
        invariant i <= |meanwhile|
        invariant Good() && SameLocal(old(sys), sys, who) && KeepsHistory(old(sys), sys)
        invariant Run(cfg, sys, meanwhile[i..]) == Run(cfg, old(sys), meanwhile)
      {
        assert meanwhile[i..][1..] == meanwhile[i + 1..];
        HistoryGrows(cfg, sys, meanwhile[i]);
        Foreigner(meanwhile[i], who);
        i := i + 1;
      }
    }
  }
}
