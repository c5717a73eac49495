/** Whole server runs joined to the client's tracker: each symbol requested once gives a report that is accepted. */
module ServerSnapshots {
  import opened Events
  import opened History
  import opened GeneratorModel
  import opened GeneratorRuns
  import opened PublicationLaws
  import opened ServerStreams
  import opened SnapshotOrder
  import opened SnapshotProtocol
  import T = TrackerModel
  import L = TrackerLaws

  // Every symbol's stream is a snapshot followed by live events.

  /** Each symbol is requested once, while a task is active whose retained records for it are pairwise distinct. */
  ghost predicate FirstRequest(config: Config, s: Server, step: Step) {
    Subscribes(s, step) ==>
      var requests := s.commands[0].requests;
      && LateRequest(s, step)
      && (s.active.Some? ==>
            && DistinctRequests(requests)
            && forall i :: 0 <= i < |requests| ==>
                 && TsEvents(s.wire, requests[i].0) == []
                 && DistinctRecords(RetainedAll(LogOf(s.active.value.logs, requests[i].0), config.historyLimit).records))
  }

  ghost predicate FirstRequests(config: Config, s: Server, steps: seq<Step>) {
    if steps == [] then true else
    var front := steps[..|steps| - 1];
    FirstRequests(config, s, front) && FirstRequest(config, Run(config, s, front), steps[|steps| - 1])
  }

  /** Until sequences wrap around, the retained records are pairwise distinct. */
  lemma RisingDistinct(config: Config, steps: seq<Step>, now: int, symbol: string)
    requires
      var s := Run(config, Initial(now), steps);
      s.active.Some? && s.active.value.publications < config.maxSequence && s.active.value.publications < TICK_MODULUS
    ensures
      var s := Run(config, Initial(now), steps);
      DistinctRecords(RetainedAll(LogOf(s.active.value.logs, symbol), config.historyLimit).records)
  {
    hide Run, LogOf;
    var a := Run(config, Initial(now), steps).active.value;
    RunBooks(config, steps, now);
    assert Rising(LogOf(a.logs, symbol), a.publications);
    HistoryIsSuffix(LogOf(a.logs, symbol), config.historyLimit);
  }

  ghost predicate IsFeed(stream: seq<WireEvent>, symbol: string, r: Request) {
    DistinctRecords(r.history.records) && stream == Feed(symbol, r)
  }

  ghost predicate Fed(s: Server) {
    forall symbol ::
      && (TsEvents(s.wire, symbol) == [] || exists r :: IsFeed(TsEvents(s.wire, symbol), symbol, r))
      && (symbol in s.subscribed.timeAndSale ==> TsEvents(s.wire, symbol) != [])
  }

  lemma FeedContinues(symbol: string, r: Request, live: seq<Record>)
    ensures Feed(symbol, r) + LiveEvents(symbol, live) == Feed(symbol, r.(live := r.live + live))
  {
    hide SnapshotBlock, EventOf;
    assert LiveEvents(symbol, r.live) + LiveEvents(symbol, live) == LiveEvents(symbol, r.live + live);
  }

  lemma FeedStarts(symbol: string, h: History, fromTime: int)
    ensures SnapshotBlock(symbol, h, fromTime) == Feed(symbol, Request(h, fromTime, []))
    ensures SnapshotBlock(symbol, h, fromTime) != []
  {
    hide SnapshotBlock;
    assert LiveEvents(symbol, []) == [];
    BlockNonEmpty(symbol, h, fromTime);
  }

  lemma SubscribesFed(config: Config, s: Server, step: Step, symbol: string)
    requires Fed(s) && FirstRequest(config, s, step) && Subscribes(s, step) && s.active.Some?
    ensures
      var after := Next(config, s, step);
      && (TsEvents(after.wire, symbol) == [] || exists r :: IsFeed(TsEvents(after.wire, symbol), symbol, r))
      && (symbol in after.subscribed.timeAndSale ==> TsEvents(after.wire, symbol) != [])
  {
    hide Next, TsEvents, Appended, SnapshotEvents, RetainedAll, DistinctRecords, Feed, LogOf, SnapshotBlock, Updates;
    var after, more, requests := Next(config, s, step), Appended(config, s, step), s.commands[0].requests;
    WireGrows(config, s, step);
    var live := AppendedTs(config, s, step, symbol);
    AppendBegins(s.wire, more, symbol);
    var fromTime := SnapshotsTs(s.active.value.logs, config.historyLimit, requests, symbol);
    if symbol in after.subscribed.timeAndSale {
      SubscribedGrows(config, s, step, symbol);
    }
    if Asks(requests, symbol) {
      var h := RetainedAll(LogOf(s.active.value.logs, symbol), config.historyLimit);
      FeedStarts(symbol, h, fromTime);
      assert IsFeed(TsEvents(after.wire, symbol), symbol, Request(h, fromTime, []));
    }
  }

  lemma ContinuesFed(config: Config, s: Server, step: Step, symbol: string)
    requires Fed(s) && FirstRequest(config, s, step) && !(Subscribes(s, step) && s.active.Some?)
    ensures
      var after := Next(config, s, step);
      && (TsEvents(after.wire, symbol) == [] || exists r :: IsFeed(TsEvents(after.wire, symbol), symbol, r))
      && (symbol in after.subscribed.timeAndSale ==> TsEvents(after.wire, symbol) != [])
  {
    hide Next, TsEvents, Appended, DistinctRecords, Feed, Ticks, PublicationSlots, LogOf, RetainedAll;
    var after, more := Next(config, s, step), Appended(config, s, step);
    WireGrows(config, s, step);
    var live := AppendedTs(config, s, step, symbol);
    TsAppend(s.wire, more, symbol);
    if symbol in after.subscribed.timeAndSale {
      SubscribedGrows(config, s, step, symbol);
    }
    if TsEvents(s.wire, symbol) != [] {
      var r :| IsFeed(TsEvents(s.wire, symbol), symbol, r);
      FeedContinues(symbol, r, live);
      assert IsFeed(TsEvents(after.wire, symbol), symbol, r.(live := r.live + live));
    } else {
      assert symbol !in s.subscribed.timeAndSale;
      assert LiveEvents(symbol, []) == [];
    }
  }

  /** In every run that requests each symbol once, a symbol's stream is one snapshot followed by live events. */
  lemma {:induction false} RunFed(config: Config, now: int, steps: seq<Step>)
    requires FirstRequests(config, Initial(now), steps)
    ensures Fed(Run(config, Initial(now), steps))
  {
    hide Next, FirstRequest, Subscribes, TsEvents, IsFeed;
    if steps == [] {
      NothingFed(now);
    } else {
      var front, last := steps[..|steps| - 1], steps[|steps| - 1];
      RunFed(config, now, front);
      var s := Run(config, Initial(now), front);
      forall symbol
        ensures
          var after := Next(config, s, last);
          && (TsEvents(after.wire, symbol) == [] || exists r :: IsFeed(TsEvents(after.wire, symbol), symbol, r))
          && (symbol in after.subscribed.timeAndSale ==> TsEvents(after.wire, symbol) != [])
      {
        if Subscribes(s, last) && s.active.Some? {
          SubscribesFed(config, s, last, symbol);
        } else {
          ContinuesFed(config, s, last, symbol);
        }
      }
    }
  }

  lemma NothingFed(now: int)
    ensures Fed(Initial(now))
  {
  }

  // Server and client together.

  /** The symbols for which TimeAndSale events were published. */
  function TsSymbols(wire: seq<WireEvent>): set<string> {
    set e | e in wire && e.TimeAndSaleEvent? :: e.symbol
  }

  lemma {:induction false} TsSymbolsExact(wire: seq<WireEvent>, symbol: string)
    ensures symbol in TsSymbols(wire) <==> TsEvents(wire, symbol) != []
  {
    if wire != [] {
      var front, last := wire[..|wire| - 1], wire[|wire| - 1];
      TsSymbolsExact(front, symbol);
      assert wire == front + [last];
      assert TsSymbols(wire) == TsSymbols(front) + TsSymbols([last]);
    }
  }

  /** The client's callbacks carry every symbol's TimeAndSale events in wire order; symbols interleave freely. */
  ghost predicate Carries(callbacks: seq<L.Step>, wire: seq<WireEvent>) {
    forall symbol :: View(L.RunTicks(callbacks), symbol) == Ticking(TsEvents(wire, symbol))
  }

  ghost function FeedOf(stream: seq<WireEvent>, symbol: string): (r: Request)
    requires exists r :: IsFeed(stream, symbol, r)
    ensures IsFeed(stream, symbol, r)
  {
    var r :| IsFeed(stream, symbol, r);
    r
  }

  lemma {:induction false} Viewed(ticks: seq<T.Tick>, i: nat)
    requires i < |ticks|
    ensures View(ticks, ticks[i].symbol) != []
  {
    if i < |ticks| - 1 {
      Viewed(ticks[..|ticks| - 1], i);
    }
  }

  lemma CarriedDelivers(callbacks: seq<L.Step>, s: Server) returns (requests: map<string, Request>)
    requires Fed(s) && Carries(callbacks, s.wire)
    ensures requests.Keys == TsSymbols(s.wire) && Delivers(callbacks, requests)
  {
    hide TsEvents, TsSymbols, View, Ticking, Feed, DistinctRecords, L.RunTicks;
    forall symbol | symbol in TsSymbols(s.wire) ensures exists r :: IsFeed(TsEvents(s.wire, symbol), symbol, r) {
      TsSymbolsExact(s.wire, symbol);
    }
    requests := map symbol | symbol in TsSymbols(s.wire) :: FeedOf(TsEvents(s.wire, symbol), symbol);
    var ticks := L.RunTicks(callbacks);
    forall i | 0 <= i < |ticks| ensures ticks[i].symbol in requests {
      Viewed(ticks, i);
      TsSymbolsExact(s.wire, ticks[i].symbol);
      NoTicking();
    }
  }

  lemma NoTicking()
    ensures Ticking([]) == []
  {
  }

  /**
   * A server run that requests each symbol once, and a client that receives each symbol's events in order, always end
   * with a tracker report that passes the acceptance rule.
   */
  lemma ServerToTracker(config: Config, now: int, steps: seq<Step>, callbacks: seq<L.Step>, unsubscribed: bool)
    requires FirstRequests(config, Initial(now), steps)
    requires
      var wire := Run(config, Initial(now), steps).wire;
      FreshSubscription(callbacks, |TsSymbols(wire)|) && Carries(callbacks, wire)
    ensures
      var wire, st := Run(config, Initial(now), steps).wire, L.Run(T.INITIAL, callbacks);
      var c := st.track.counters;
      && c.completed == c.begins == c.ends + c.snips == st.expected == |TsSymbols(wire)|
      && c.duplicates == 0 && c.premature == 0
      && (IntegrityOk(st, unsubscribed) <==>
            TsSymbols(wire) != {} && st.clockAnomalies == 0 && (unsubscribed || st.liveLatencies != []))
  {
    hide Run, L.Run, TsSymbols, Carries, Delivers, FreshSubscription, Fed, IntegrityOk;
    RunFed(config, now, steps);
    var s := Run(config, Initial(now), steps);
    var requests := CarriedDelivers(callbacks, s);
    assert |requests| == |requests.Keys| == |TsSymbols(s.wire)|;
    SnapshotDelivery(callbacks, requests, unsubscribed);
  }

  // Until sequences wrap around.

  /** Each symbol is requested once, while a task is active whose publication numbers have not wrapped around. */
  ghost predicate FirstNumberedRequest(config: Config, s: Server, step: Step) {
    Subscribes(s, step) ==>
      var requests := s.commands[0].requests;
      && LateRequest(s, step)
      && (s.active.Some? ==>
            && DistinctRequests(requests)
            && s.active.value.publications < config.maxSequence && s.active.value.publications < TICK_MODULUS
            && forall i :: 0 <= i < |requests| ==> TsEvents(s.wire, requests[i].0) == [])
  }

  ghost predicate FirstNumberedRequests(config: Config, s: Server, steps: seq<Step>) {
    if steps == [] then true else
    var front := steps[..|steps| - 1];
    FirstNumberedRequests(config, s, front) && FirstNumberedRequest(config, Run(config, s, front), steps[|steps| - 1])
  }

  lemma {:induction false} NumberedAreDistinct(config: Config, now: int, steps: seq<Step>)
    requires FirstNumberedRequests(config, Initial(now), steps)
    ensures FirstRequests(config, Initial(now), steps)
  {
    hide Run, DistinctRecords, RetainedAll, LogOf, TsEvents, LateRequest;
    if steps != [] {
      var front, last := steps[..|steps| - 1], steps[|steps| - 1];
      NumberedAreDistinct(config, now, front);
      var s := Run(config, Initial(now), front);
      if Subscribes(s, last) && s.active.Some? {
        forall i | 0 <= i < |s.commands[0].requests|
          ensures DistinctRecords(RetainedAll(LogOf(s.active.value.logs, s.commands[0].requests[i].0),
                                              config.historyLimit).records)
        {
          RisingDistinct(config, front, now, s.commands[0].requests[i].0);
        }
      }
    }
  }

  /** Such a server run, received in order, always ends with a tracker report that passes the acceptance rule. */
  lemma NumberedServerToTracker(config: Config, now: int, steps: seq<Step>, callbacks: seq<L.Step>, unsubscribed: bool)
    requires FirstNumberedRequests(config, Initial(now), steps)
    requires
      var wire := Run(config, Initial(now), steps).wire;
      FreshSubscription(callbacks, |TsSymbols(wire)|) && Carries(callbacks, wire)
    ensures
      var wire, st := Run(config, Initial(now), steps).wire, L.Run(T.INITIAL, callbacks);
      var c := st.track.counters;
      && c.completed == c.begins == c.ends + c.snips == st.expected == |TsSymbols(wire)|
      && c.duplicates == 0 && c.premature == 0
      && (IntegrityOk(st, unsubscribed) <==>
            TsSymbols(wire) != {} && st.clockAnomalies == 0 && (unsubscribed || st.liveLatencies != []))
  {
    hide *;
    NumberedAreDistinct(config, now, steps);
    ServerToTracker(config, now, steps, callbacks, unsubscribed);
  }
}
