/**
 * The collector's results do not depend on how deliveries interleave: they are a closed form of what arrived for each
 * publication sequence.
 */
module CollectorOrder {
  import opened Common
  import opened Ordered
  import opened CollectorModel
  import opened Tallies
  import opened CollectorLaws
  import opened CollectorRuns

  // What arrived for one sequence.

  function View(items: seq<Item>, s: int): seq<Arrival> {
    if items == [] then [] else
    var last := items[|items| - 1];
    View(items[..|items| - 1], s) + if last.sequence == s then [last.arrival] else []
  }

  function Sequences(items: seq<Item>): set<int> {
    set i | 0 <= i < |items| :: items[i].sequence
  }

  lemma {:induction false} ViewEmpty(items: seq<Item>, s: int)
    ensures View(items, s) == [] <==> s !in Sequences(items)
  {
    if items != [] {
      var front := items[..|items| - 1];
      ViewEmpty(front, s);
      SequencesStep(items);
    }
  }

  lemma SequencesStep(items: seq<Item>)
    requires items != []
    ensures Sequences(items) == Sequences(items[..|items| - 1]) + {items[|items| - 1].sequence}
  {
    var front := items[..|items| - 1];
    forall s | s in Sequences(items) ensures s in Sequences(front) + {items[|items| - 1].sequence} {
      var i :| 0 <= i < |items| && items[i].sequence == s;
      if i < |items| - 1 {
        assert front[i].sequence == s;
      }
    }
    forall s | s in Sequences(front) ensures s in Sequences(items) {
      var i :| 0 <= i < |front| && front[i].sequence == s;
      assert items[i].sequence == s;
    }
    assert items[|items| - 1].sequence in Sequences(items);
  }

  /** The collector restricted to one sequence. */
  function RunOne(cfg: Config, view: seq<Arrival>): Reaction {
    if view == [] then Reaction(None, EMPTY_BOOK) else
    var before := RunOne(cfg, view[..|view| - 1]);
    var r := React(cfg, before.pending, view[|view| - 1]);
    Reaction(r.pending, before.book.Plus(r.book))
  }

  /** One sequence on its own, with its batch finished at the end. */
  function Settled(cfg: Config, view: seq<Arrival>): Book {
    var r := RunOne(cfg, view);
    if r.pending.Some? then r.book.Plus(FinishBook(cfg, r.pending.value)) else r.book
  }

  ghost function Ledger(cfg: Config, items: seq<Item>, excluded: set<int>): map<int, Tally> {
    map s | s in Sequences(items) - excluded :: TallyOfBook(RunOne(cfg, View(items, s)).book)
  }

  ghost function Outcomes(cfg: Config, items: seq<Item>, excluded: set<int>): map<int, Tally> {
    map s | s in Sequences(items) - excluded :: TallyOfBook(Settled(cfg, View(items, s)))
  }

  /** The collector is the product of its sequences: pending batches agree one by one, and recordings add up. */
  ghost predicate IsProduct(cfg: Config, start: Core, core: Core, items: seq<Item>) {
    && core.accepting && core.excluded == start.excluded
    && (forall s :: s !in start.excluded ==> core.Lookup(s) == RunOne(cfg, View(items, s)).pending)
    && (forall s :: s in core.pending ==> s !in start.excluded)
    && TallyOf(core.total) == TallyOf(start.total).Plus(SumTally(Ledger(cfg, items, start.excluded)))
  }

  lemma ViewStep(items: seq<Item>, s: int)
    requires items != []
    ensures
      var last := items[|items| - 1];
      View(items, s) == View(items[..|items| - 1], s) + if last.sequence == s then [last.arrival] else []
  {
  }

  lemma RunOneStep(cfg: Config, view: seq<Arrival>, a: Arrival)
    ensures
      var before := RunOne(cfg, view);
      var r := React(cfg, before.pending, a);
      RunOne(cfg, view + [a]) == Reaction(r.pending, before.book.Plus(r.book))
  {
    assert (view + [a])[..|view|] == view;
  }

  lemma LedgerSame(cfg: Config, items: seq<Item>, excluded: set<int>)
    requires items != [] && items[|items| - 1].sequence in excluded
    ensures Ledger(cfg, items, excluded) == Ledger(cfg, items[..|items| - 1], excluded)
  {
    hide RunOne, TallyOfBook, View;
    var front := items[..|items| - 1];
    SequencesStep(items);
    forall s | s in Sequences(items) - excluded ensures View(items, s) == View(front, s) {
      ViewStep(items, s);
    }
  }

  lemma LedgerStep(cfg: Config, items: seq<Item>, excluded: set<int>)
    requires items != [] && items[|items| - 1].sequence !in excluded
    ensures
      var front, last := items[..|items| - 1], items[|items| - 1];
      var r := React(cfg, RunOne(cfg, View(front, last.sequence)).pending, last.arrival);
      var before := Ledger(cfg, front, excluded);
      Ledger(cfg, items, excluded)
      == before[last.sequence := Share(before, last.sequence).Plus(TallyOfBook(r.book))]
  {
    hide RunOne, TallyOfBook, View, React, Tally.Plus;
    var front, last := items[..|items| - 1], items[|items| - 1];
    var s := last.sequence;
    var r := React(cfg, RunOne(cfg, View(front, s)).pending, last.arrival);
    SequencesStep(items);
    forall t | t in Sequences(items) - excluded && t != s ensures View(items, t) == View(front, t) {
      ViewStep(items, t);
    }
    ViewStep(items, s);
    RunOneStep(cfg, View(front, s), last.arrival);
    TallyOfBooks(RunOne(cfg, View(front, s)).book, r.book);
    var before := Ledger(cfg, front, excluded);
    if s !in before {
      ViewEmpty(front, s);
      EmptyRun(cfg);
    }
  }

  lemma EmptyRun(cfg: Config)
    ensures RunOne(cfg, []) == Reaction(None, EMPTY_BOOK) && TallyOfBook(RunOne(cfg, []).book) == NO_TALLY
  {
    hide TallyOfBook;
    TallyOfEmpty();
  }

  lemma ProductStep(cfg: Config, start: Core, core: Core, items: seq<Item>)
    requires items != [] && IsProduct(cfg, start, core, items[..|items| - 1])
    ensures IsProduct(cfg, start, Process(cfg, core, items[|items| - 1]), items)
  {
    hide RunOne, View, React, Tally.Plus, TallyOf, Ledger, SumTally, Core.Record;
    var front, last := items[..|items| - 1], items[|items| - 1];
    var s := last.sequence;
    if s in start.excluded {
      LedgerSame(cfg, items, start.excluded);
      forall t | t !in start.excluded ensures View(items, t) == View(front, t) {
        ViewStep(items, t);
      }
    } else {
      var r := React(cfg, core.Lookup(s), last.arrival);
      LedgerStep(cfg, items, start.excluded);
      var before := Ledger(cfg, front, start.excluded);
      SumTallyAdd(before, s, TallyOfBook(r.book));
      TallyPlus(TallyOf(start.total), SumTally(before), TallyOfBook(r.book));
      RecordTally(core.Store(s, r.pending), r.book);
      RecordFrame(core.Store(s, r.pending), r.book);
      forall t | t !in start.excluded
        ensures core.Store(s, r.pending).Lookup(t) == RunOne(cfg, View(items, t)).pending
      {
        ViewStep(items, t);
        if t == s {
          RunOneStep(cfg, View(front, s), last.arrival);
        } else {
          assert View(items, t) == View(front, t);
        }
      }
    }
  }

  lemma RecordFrame(core: Core, b: Book)
    ensures core.Record(b).pending == core.pending && core.Record(b).accepting == core.accepting
         && core.Record(b).excluded == core.excluded
  {
  }

  /** From an empty accepting collector, any items leave it the product of their sequences. */
  lemma {:induction false} ProcessAllIsProduct(cfg: Config, start: Core, items: seq<Item>)
    requires start.accepting && start.pending == map[]
    ensures IsProduct(cfg, start, ProcessAll(cfg, start, items), items)
  {
    if items == [] {
      hide Tally.Plus, TallyOf, React;
      TallyPlus(TallyOf(start.total), NO_TALLY, NO_TALLY);
      assert Ledger(cfg, [], start.excluded) == map[];
    } else {
      hide IsProduct, Process;
      ProcessAllIsProduct(cfg, start, items[..|items| - 1]);
      ProductStep(cfg, start, ProcessAll(cfg, start, items[..|items| - 1]), items);
    }
  }

  // Finishing everything.

  /** The final window: every pending batch is finished. */
  function Flush(cfg: Config, core: Core): Core {
    Sweep(cfg, core, Ascending(core.pending.Keys), 0, true)
  }

  /** A ledger with the pending batches among `keys` finished. */
  ghost function Closing(cfg: Config, ledger: map<int, Tally>, pending: map<int, Batch>, keys: seq<int>): map<int, Tally> {
    map s | s in ledger ::
      if s in pending && s in keys then ledger[s].Plus(TallyOfBook(FinishBook(cfg, pending[s]))) else ledger[s]
  }

  lemma {:induction false} SweepTally(cfg: Config, core: Core, base: Tally, ledger: map<int, Tally>, keys: seq<int>,
                                      cutoff: int)
    requires core.pending.Keys <= ledger.Keys
    requires TallyOf(core.total) == base.Plus(SumTally(ledger))
    ensures TallyOf(Sweep(cfg, core, keys, cutoff, true).total)
         == base.Plus(SumTally(Closing(cfg, ledger, core.pending, keys)))
    decreases |keys|
  {
    hide Tally.Plus, TallyOf, SumTally, FinishBook, TallyOfBook, FinishAt;
    if keys == [] {
      assert Closing(cfg, ledger, core.pending, keys) == ledger;
    } else {
      var k, rest := keys[0], keys[1..];
      assert keys == [k] + rest;
      if k in core.pending {
        var t := TallyOfBook(FinishBook(cfg, core.pending[k]));
        var more := ledger[k := ledger[k].Plus(t)];
        FinishTally(cfg, core, k);
        SumTallyAdd(ledger, k, t);
        TallyPlus(base, SumTally(ledger), t);
        FinishPending(cfg, core, k);
        SweepTally(cfg, FinishAt(cfg, core, k), base, more, rest, cutoff);
        assert Closing(cfg, more, core.pending - {k}, rest) == Closing(cfg, ledger, core.pending, keys);
      } else {
        SweepTally(cfg, core, base, ledger, rest, cutoff);
        assert Closing(cfg, ledger, core.pending, rest) == Closing(cfg, ledger, core.pending, keys);
      }
    }
  }

  lemma FinishTally(cfg: Config, core: Core, k: int)
    requires k in core.pending
    ensures TallyOf(FinishAt(cfg, core, k).total)
         == TallyOf(core.total).Plus(TallyOfBook(FinishBook(cfg, core.pending[k])))
  {
    hide FinishBook, TallyOf, TallyOfBook, Core.Record;
    RecordTally(core.Store(k, None), FinishBook(cfg, core.pending[k]));
  }

  lemma SettledTally(cfg: Config, view: seq<Arrival>)
    ensures
      var r := RunOne(cfg, view);
      TallyOfBook(Settled(cfg, view)) ==
      if r.pending.Some? then TallyOfBook(r.book).Plus(TallyOfBook(FinishBook(cfg, r.pending.value)))
      else TallyOfBook(r.book)
  {
    hide RunOne, FinishBook, TallyOfBook, Book.Plus, Tally.Plus;
    var r := RunOne(cfg, view);
    if r.pending.Some? {
      TallyOfBooks(r.book, FinishBook(cfg, r.pending.value));
    }
  }

  lemma ClosingIsOutcomes(cfg: Config, start: Core, core: Core, items: seq<Item>, keys: seq<int>)
    requires IsProduct(cfg, start, core, items)
    requires forall s :: s in keys <==> s in core.pending
    ensures Closing(cfg, Ledger(cfg, items, start.excluded), core.pending, keys) == Outcomes(cfg, items, start.excluded)
  {
    hide RunOne, View, FinishBook, TallyOfBook, Settled, Tally.Plus, TallyOf, SumTally;
    var ledger := Ledger(cfg, items, start.excluded);
    forall s | s in ledger
      ensures Closing(cfg, ledger, core.pending, keys)[s] == TallyOfBook(Settled(cfg, View(items, s)))
    {
      SettledTally(cfg, View(items, s));
      assert core.Lookup(s) == RunOne(cfg, View(items, s)).pending;
    }
  }

  lemma PendingInLedger(cfg: Config, start: Core, core: Core, items: seq<Item>)
    requires IsProduct(cfg, start, core, items)
    ensures core.pending.Keys <= Ledger(cfg, items, start.excluded).Keys
  {
    hide View, TallyOfBook, TallyOf, SumTally, Tally.Plus, React;
    forall s | s in core.pending ensures s in Sequences(items) {
      ViewEmpty(items, s);
      assert core.Lookup(s) == RunOne(cfg, View(items, s)).pending;
    }
  }

  /** After the final window, the run has recorded exactly the sum of what each sequence gives on its own. */
  lemma FlushedTally(cfg: Config, start: Core, items: seq<Item>)
    requires start.accepting && start.pending == map[]
    ensures TallyOf(Flush(cfg, ProcessAll(cfg, start, items)).total)
         == TallyOf(start.total).Plus(SumTally(Outcomes(cfg, items, start.excluded)))
  {
    hide IsProduct, Sweep, Ascending, Outcomes, Closing, Tally.Plus, TallyOf, SumTally, ProcessAll, Ledger;
    var core := ProcessAll(cfg, start, items);
    var ledger := Ledger(cfg, items, start.excluded);
    var keys := Ascending(core.pending.Keys);
    ProcessAllIsProduct(cfg, start, items);
    PendingInLedger(cfg, start, core, items);
    ProductTally(cfg, start, core, items);
    SweepTally(cfg, core, TallyOf(start.total), ledger, keys, 0);
    forall s ensures s in keys <==> s in core.pending {
      AscendingMembers(core.pending.Keys, s);
    }
    ClosingIsOutcomes(cfg, start, core, items, keys);
  }

  lemma ProductTally(cfg: Config, start: Core, core: Core, items: seq<Item>)
    requires IsProduct(cfg, start, core, items)
    ensures TallyOf(core.total) == TallyOf(start.total).Plus(SumTally(Ledger(cfg, items, start.excluded)))
  {
    hide TallyOf, Tally.Plus, SumTally, Ledger, RunOne, View;
  }

  /** Only the order within each sequence can matter: interleaving and callback boundaries cannot. */
  lemma InterleavingIrrelevant(cfg: Config, start: Core, a: seq<Item>, b: seq<Item>)
    requires start.accepting && start.pending == map[]
    requires forall s :: View(a, s) == View(b, s)
    ensures TallyOf(Flush(cfg, ProcessAll(cfg, start, a)).total) == TallyOf(Flush(cfg, ProcessAll(cfg, start, b)).total)
  {
    hide Flush, Tally.Plus, TallyOf, SumTally, ProcessAll, Settled, TallyOfBook, View;
    FlushedTally(cfg, start, a);
    FlushedTally(cfg, start, b);
    forall s ensures s in Sequences(a) <==> s in Sequences(b) {
      ViewEmpty(a, s);
      ViewEmpty(b, s);
    }
    assert Outcomes(cfg, a, start.excluded) == Outcomes(cfg, b, start.excluded);
  }
}
