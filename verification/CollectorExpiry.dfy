/** Which pending batches a window report gives up, by what has arrived for their sequences. */
module CollectorExpiry {
  import opened Common
  import opened Events
  import opened CollectorModel
  import opened CollectorLaws
  import opened CollectorRuns

  // What has arrived for a pending sequence since its batch was opened.

  type Histories = map<int, seq<Arrival>>

  function Before(h: Histories, s: int): seq<Arrival> {
    if s in h then h[s] else []
  }

  /** An accepted arrival extends its sequence's history, or ends it when the batch is complete. */
  ghost function WithItem(cfg: Config, core: Core, h: Histories, item: Item): Histories {
    if !core.Accepts(item.sequence) then h
    else if item.sequence in Process(cfg, core, item).pending
    then h[item.sequence := Before(h, item.sequence) + [item.arrival]]
    else h - {item.sequence}
  }

  ghost function WithItems(cfg: Config, core: Core, h: Histories, items: seq<Item>): Histories {
    if items == [] then h else
    var front := items[..|items| - 1];
    WithItem(cfg, ProcessAll(cfg, core, front), WithItems(cfg, core, h, front), items[|items| - 1])
  }

  ghost function HistoriesOf(cfg: Config, steps: seq<Step>): Histories {
    if steps == [] then map[] else
    var front := steps[..|steps| - 1];
    var st, h := Run(cfg, front), HistoriesOf(cfg, front);
    match steps[|steps| - 1]
    case Notify(c) => if st.measuring then WithItems(cfg, st.core, h, ItemsOf(cfg, c.events, c.observed)) else h
    case BeginMeasurement => map[]
    case EndMeasurement => h
    case TakeWindow(_, _) => map s | s in h && s in Run(cfg, steps).core.pending :: h[s]
  }

  /** The publication time of the first marker. */
  function FirstMarker(view: seq<Arrival>): Option<int> {
    if view == [] then None
    else if view[0].Marker? then Some(view[0].timestamp)
    else FirstMarker(view[1..])
  }

  /** The time by which a sequence's age is judged: its marker's, or without one its first event's observation. */
  function AgeFrom(view: seq<Arrival>): int {
    match FirstMarker(view)
    case Some(timestamp) => timestamp
    case None => if view != [] && view[0].Event? then view[0].event.observed else 0
  }

  lemma {:induction false} FirstMarkerAppend(view: seq<Arrival>, a: Arrival)
    ensures FirstMarker(view + [a]) ==
      if FirstMarker(view).Some? then FirstMarker(view) else if a.Marker? then Some(a.timestamp) else None
  {
    if view == [] {
      assert (view + [a])[1..] == [];
    } else {
      FirstMarkerAppend(view[1..], a);
      assert (view + [a])[1..] == view[1..] + [a];
    }
  }

  /** A batch holds what its history says about its age. */
  predicate Tells(b: Batch, view: seq<Arrival>) {
    && view != [] && b.timestamp == FirstMarker(view)
    && (b.timestamp.None? ==> b.received > 0 && view[0].Event? && b.firstObserved == view[0].event.observed)
  }

  ghost predicate AllTell(pending: map<int, Batch>, h: Histories) {
    h.Keys == pending.Keys && forall s :: s in pending ==> Tells(pending[s], h[s])
  }

  lemma ReactTells(cfg: Config, pending: Option<Batch>, view: seq<Arrival>, a: Arrival)
    requires if pending.Some? then Tells(pending.value, view) else view == []
    ensures var r := React(cfg, pending, a); r.pending.Some? ==> Tells(r.pending.value, view + [a])
  {
    hide FinishBook, EmitBook, Book.Plus;
    FirstMarkerAppend(view, a);
    assert view != [] ==> (view + [a])[0] == view[0];
  }

  lemma ItemTells(cfg: Config, core: Core, h: Histories, item: Item)
    requires AllTell(core.pending, h)
    ensures AllTell(Process(cfg, core, item).pending, WithItem(cfg, core, h, item))
  {
    hide Tells, React;
    if core.Accepts(item.sequence) {
      ReactTells(cfg, core.Lookup(item.sequence), Before(h, item.sequence), item.arrival);
    }
  }

  lemma {:induction false} ItemsTell(cfg: Config, core: Core, h: Histories, items: seq<Item>)
    requires AllTell(core.pending, h)
    ensures AllTell(ProcessAll(cfg, core, items).pending, WithItems(cfg, core, h, items))
  {
    hide AllTell, Process, WithItem;
    if items != [] {
      ItemsTell(cfg, core, h, items[..|items| - 1]);
      ItemTells(cfg, ProcessAll(cfg, core, items[..|items| - 1]), WithItems(cfg, core, h, items[..|items| - 1]),
                items[|items| - 1]);
    }
  }

  /** In every run each pending sequence has a history, which tells its batch's age. */
  lemma {:induction false} RunTells(cfg: Config, steps: seq<Step>)
    ensures AllTell(Run(cfg, steps).core.pending, HistoriesOf(cfg, steps))
  {
    hide Tells, ProcessAll, Sweep, ItemsOf, ObserveTimes, SequencesIn, ProfilesIn, WithItems, Expired;
    if steps != [] {
      var front, step := steps[..|steps| - 1], steps[|steps| - 1];
      RunTells(cfg, front);
      var st := Run(cfg, front);
      match step
      case Notify(c) =>
        if st.measuring {
          ItemsTell(cfg, st.core, HistoriesOf(cfg, front), ItemsOf(cfg, c.events, c.observed));
        }
      case TakeWindow(now, expireAll) => WindowExpires(cfg, st, now, expireAll);
      case _ =>
    }
  }

  lemma ExpiredByAge(b: Batch, view: seq<Arrival>, cutoff: int, expireAll: bool)
    requires Tells(b, view)
    ensures Expired(b, cutoff, expireAll) <==> expireAll || AgeFrom(view) < cutoff
  {
  }

  lemma RunWindow(cfg: Config, steps: seq<Step>, step: Step)
    ensures Run(cfg, steps + [step]) == Next(cfg, Run(cfg, steps), step)
  {
    assert (steps + [step])[..|steps|] == steps;
    hide Next;
  }

  /** A window report says how many batches it kept. */
  lemma WindowPending(cfg: Config, st: State, now: int, expireAll: bool)
    ensures
      var w := Closed(cfg, st, TakeWindow(now, expireAll));
      w.Some? && w.value.pending == |Next(cfg, st, TakeWindow(now, expireAll)).core.pending|
  {
    hide Sweep;
  }

  /**
   * In every run, a window report keeps a pending sequence exactly when its marker's time, or the observation of its first
   * event while there is no marker, is at least the present minus the timeout; the final report keeps none. What it
   * keeps it leaves as it was, and it opens nothing.
   */
  lemma WindowKeeps(cfg: Config, steps: seq<Step>, now: int, expireAll: bool, s: int)
    ensures
      var before, after := Run(cfg, steps).core.pending, Run(cfg, steps + [TakeWindow(now, expireAll)]).core.pending;
      && (s in before <==> s in HistoriesOf(cfg, steps))
      && (s in after <==>
            s in before && !expireAll && AgeFrom(HistoriesOf(cfg, steps)[s]) >= now - cfg.timeoutMs * 1_000_000)
      && (s in after ==> after[s] == before[s])
  {
    hide Run, HistoriesOf, Expired, AgeFrom, Tells, Next;
    RunTells(cfg, steps);
    var st := Run(cfg, steps);
    RunWindow(cfg, steps, TakeWindow(now, expireAll));
    WindowExpires(cfg, st, now, expireAll);
    if s in st.core.pending {
      ExpiredByAge(st.core.pending[s], HistoriesOf(cfg, steps)[s], now - cfg.timeoutMs * NANOS_PER_MILLI, expireAll);
    }
  }
}
