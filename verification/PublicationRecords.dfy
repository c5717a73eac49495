/** What all events of a publication share, how it ends, and how it is counted. */
module PublicationRecords {
  import opened Arithmetic
  import opened Common
  import opened Events
  import opened GeneratorLaws
  import opened GeneratorModel
  import opened GeneratorRuns
  import opened PublicationLaws
  import D = Decimal
  import Publication

  /** Publication number n, counted from 1, has a 32-bit tick, and its sequence and price are remainders of that. */
  lemma StampByNumber(config: Config, a: Active, nowNanos: nat)
    requires Counted(a)
    ensures
      var stamp, tick := NextStamp(config, a, nowNanos), (a.publications + 1) % 0x1_0000_0000;
      && stamp.nowNanos == nowNanos && stamp.sequence == tick % config.maxSequence
      && stamp.price == (100 + tick % 100) as real
  {
    hide SumTopics;
    NextTickNumber(a.publications);
  }

  /** In every run, this is how the active task's next publication is stamped. */
  lemma RunStamp(config: Config, now: int, steps: seq<Step>, nowNanos: nat)
    requires Run(config, Initial(now), steps).active.Some?
    ensures
      var a := Run(config, Initial(now), steps).active.value;
      var stamp, tick := NextStamp(config, a, nowNanos), (a.publications + 1) % 0x1_0000_0000;
      && stamp.nowNanos == nowNanos && stamp.sequence == tick % config.maxSequence
      && stamp.price == (100 + tick % 100) as real
  {
    hide Run, Counted, LogsRise, NextStamp;
    RunBooks(config, steps, now);
    StampByNumber(config, Run(config, Initial(now), steps).active.value, nowNanos);
  }

  /** An event of a publication other than its marker, with the fields that its kind has. */
  predicate Bears(e: WireEvent, stamp: Stamp) {
    match e
    case QuoteEvent(_, bidSize) => bidSize == Finite(stamp.sequence as real)
    case TradeEvent(_, sequence, timeNanos) => sequence == stamp.sequence && timeNanos == stamp.nowNanos
    case TradeEthEvent(_, sequence, timeNanos) => sequence == stamp.sequence && timeNanos == stamp.nowNanos
    case SummaryEvent(_, dayId) => dayId == stamp.sequence
    case TimeAndSaleEvent(_, timeNanos, sequence, price, flags) =>
      timeNanos == stamp.nowNanos && sequence == stamp.sequence && price == stamp.price
      && !flags.begin && !flags.end && !flags.snip && !flags.remove
    case _ => false
  }

  lemma {:induction false} EmittedBears(slots: seq<Slot>, stamp: Stamp, subscribed: set<string>)
    ensures forall i :: 0 <= i < |Emitted(slots, stamp, subscribed)| ==> Bears(Emitted(slots, stamp, subscribed)[i], stamp)
  {
    if slots != [] {
      EmittedBears(slots[..|slots| - 1], stamp, subscribed);
    }
  }

  /** A publication ends with its marker, whose text is its time; every event before it bears the same stamp. */
  lemma PublicationEnds(config: Config, a: Active, subscribed: set<string>, nowNanos: nat)
    ensures
      var events, stamp := PublicationEvents(config, a, subscribed, nowNanos), NextStamp(config, a, nowNanos);
      && events != []
      && events[|events| - 1] == TextMessage(stamp.sequence, "LATENCY_BATCH:" + D.ToString(nowNanos))
      && forall i :: 0 <= i < |events| - 1 ==> Bears(events[i], stamp)
  {
    hide FillSlots, PublicationSlots, Emitted, Bears, D.ToString;
    var slots, stamp := PublicationSlots(a.task, a.publications, config.random), NextStamp(config, a, nowNanos);
    FilledEvents(Draft([], a.logs, a.routes), slots, stamp, subscribed);
    EmittedBears(slots, stamp, subscribed);
    var emitted := Emitted(slots, stamp, subscribed);
    assert [] + emitted == emitted;
    assert PublicationEvents(config, a, subscribed, nowNanos) == emitted + [MarkerOf(stamp)];
  }

  /** A publication is counted under the kind of its last slot, and under no other. */
  lemma LastBlockCounted(config: Config, a: Active, subscribed: set<string>, nowNanos: nat, topic: Topic)
    ensures
      var slots := PublicationSlots(a.task, a.publications, config.random);
      && slots != []
      && Published(config, a, subscribed, nowNanos).lastBlocks.At(topic)
         == a.lastBlocks.At(topic) + if topic == Market(slots[|slots| - 1].kind) then 1 else 0
  {
    hide DraftOf, PublicationSlots, PerTopic.At, PerTopic.Put, LastKind;
    LastSlot(a.task, a.publications, config.random);
    PutOne(a.lastBlocks, Market(LastKind(a.task, a.publications, config.random)), topic);
  }

  lemma PutOne(n: PerTopic<nat>, t: Topic, topic: Topic)
    ensures n.Put(t, n.At(t) + 1).At(topic) == n.At(topic) + if topic == t then 1 else 0
  {
  }

  lemma LastSlot(t: Task, publications: nat, random: Publication.Random)
    ensures
      var slots := PublicationSlots(t, publications, random);
      slots != [] && slots[|slots| - 1].kind == LastKind(t, publications, random)
  {
    hide SlotAt, OrderOf;
    var order := OrderOf(t, publications, random);
    var pool := order[|order| - 1];
    assert t.pattern.items[pool].quantity > 0;
    BlockKind(t, publications, pool, random);
    var before, block := SlotsInOrder(t, publications, order[..|order| - 1], random), BlockSlots(t, publications, pool, random);
    assert (before + block)[|before + block| - 1] == block[|block| - 1];
  }

  // Block order.

  /** Without a seed the blocks come in the pattern's order. */
  lemma UnseededOrder(t: Task, publications: nat, random: Publication.Random)
    requires t.pattern.seed.None?
    ensures
      var order := OrderOf(t, publications, random);
      |order| == |t.pattern.items| && forall k :: 0 <= k < |order| ==> order[k] == k
  {
  }

  /** With a seed every order of the blocks is drawn by some random numbers, and the regional draws stay free. */
  lemma SeededOrdersReachAll(t: Task, publications: nat, target: seq<nat>, region: (nat, nat, nat, nat) -> nat)
    returns (random: Publication.Random)
    requires t.pattern.seed.Some? && multiset(target) == multiset(Publication.Iota(|t.pattern.items|))
    ensures OrderOf(t, publications, random) == target && random.region == region
  {
    hide Publication.Shuffled;
    var n := |t.pattern.items|;
    Publication.ShuffleReachesAll(Publication.Iota(n), target);
    var draw: nat -> nat :| Publication.Shuffled(Publication.Iota(n), n, draw) == target;
    random := Publication.Random((seed: nat, p: nat, i: nat) => draw(i), region);
    var drawn := (i: nat) => random.order(t.pattern.seed.value, publications, i);
    Publication.DrawsAgree(Publication.Iota(n), n, draw, drawn);
  }
}
