# Latency benchmark: a verified model

This project models the latency benchmark's two programs and the small languages between them, and proves what their
protocols promise.

A publisher (`latency_server`) repeatedly publishes a block of synthetic market events of each kind (Quote, Trade,
TradeETH, Summary, TimeAndSale) and then a marker that carries the publication time. A client (`latency_client`) gets
markers and events on separate subscriptions, in callbacks of any size, joins them by publication sequence, and accounts
for every publication as full, partial or empty. TimeAndSale symbols are requested separately: the publisher answers
with a HISTORY snapshot and goes on with live events, and the client's tracker checks the protocol.

The parts, bottom up:

- `Common`, `Arithmetic`, `Decimal`, `Ordered`: value types, quotients and remainders, decimal text, ordered maps.
- `Events`, `Markers`: the fields of published events that the programs read, and how the client reads sequences and
  timestamps off them.
- `TaskPattern`, `TaskParser`, `TaskRoundTrip`, `SymbolUniverse`: the task language, its printer and parser, and the
  symbols a task denotes. `TaskGrammar` says which texts are tasks, and `TaskDiagnosis` what each error means.
- `SourceTime`, `Statistics`, `PercentileLaws`: the three timestamp filters, percentiles, outliers and the comparison of
  runs.
- `WindowsQuoting`, `Csv`, `BenchmarkPlan`: the encoders of the runner and the analyser, and the rotating plan.
- `CollectorModel`, `Collector`: the client's collector as functions on values, and as the object that updates its
  fields, proved to follow those functions. `CollectorAlgebra`, `CollectorLaws`, `CollectorRuns` prove conservation over
  every run. `CollectorInputs`, `CollectorExpiry`, `CollectorSamples`, `SampleOrigins` and `CollectorEpisodes` tie what it
  keeps to what it heard: exclusions, callback statistics, source times, the age of pending batches, and every sample.
  `Tallies`, `CollectorOrder`, `CollectorClosedForm`, `CollectorExactness`, `CollectorTheorems` prove that results are a
  closed form of what arrived, and exactly when the order of arrivals is irrelevant.
- `TrackerModel`, `Tracker`, `TrackerLaws`, `TrackerMeasurements`: the client's time-series tracker, likewise; all it
  reports is read off the events of a run and their flags.
- `History`, `SnapshotProtocol`: the server's bounded histories and snapshot framing, composed with the tracker.
- `Publication`, `GeneratorModel`, `Generator`, `PublicationLaws`, `GeneratorLaws`, `GeneratorRuns`: block order,
  round-robin symbols, the command machine and the deadline scheduler. The model keeps every symbol's full log of
  records; the object keeps the bounded deques, proved to refine it. `CommandLaws`, `Announcements`, `RegionLaws`,
  `PublicationRecords` and `RunFairness` say what each command does and what whole runs publish.
- `ServerStreams`, `SnapshotOrder`, `EarlyRequests`: what a server run publishes for one TimeAndSale symbol, exactly when
  it starts with a snapshot, and what becomes of a request that comes too early.
- `SnapshotContinuity`: a snapshot and the live events after it are together, without a gap, what the server retains.
- `ServerSnapshots`, `RequestAnswers`, `WireWorth`, `EndToEnd`: whole server runs joined to the client. Any server run
  that requests each symbol once satisfies the tracker's acceptance rule, none that answers a symbol twice does, and any
  N publications heard losslessly are recorded as exactly N full ones, wherever in a run the client begins to measure.

Conventions. Clock readings, callback durations and random numbers are inputs: nothing is assumed about them except
where a lemma says so (`Steady` for a wall clock that does not go backwards, `NoBurst` for a steady clock). A double is a
real, or not finite. A TimeAndSale index is the pair of millisecond and sequence; how the event library packs them into
64 bits is not part of this model. The collector is serialised by its mutex and the generator by its worker thread, so
each callback, control call and loop pass is one atomic step. The largest publication sequence belongs to the event
library and is a parameter.

Where the code and the repository's own README.md differ, the model follows the code. README.md:677-678 says that a
Quote is correlated by the seconds of its exchange time; the code writes and reads the sequence as the bid size
(src/server.cpp:492, src/client.cpp:336-346). README.md:85-86 says that a task waits for the complete symbol set of every
market event type; the code does not wait for TimeAndSale (src/server.cpp:230-233). README.md:88 says that the marker
time is taken immediately before publishing; the code takes it before the events are prepared (src/server.cpp:450).

Some promises hold only under a condition, which is proved exact.

- The order of a sequence's arrivals is irrelevant exactly when one of these holds (`OrderIrrelevantIff`): no marker
  comes; the events cover the expected composition, match it exactly and come with one marker (or nothing is expected,
  no event comes, and there is any number of markers); or the events never cover it and the marker times agree, which
  they do when they are all equal, when no event comes, or when nothing was observed as late as any of them. Events in
  excess re-open a completed sequence (`OvershootMatters`), a second marker publishes it again (`RepetitionMatters`), and
  of two times the first is kept (`TimesMatter`). A whole delivery is likewise order-independent exactly when each of its
  sequences is (`DeliveryOrderIff`).
- In a run the first TimeAndSale event of every symbol begins a snapshot exactly when no publication updates a symbol
  that is subscribed although nothing was published for it (`FirstEventIff`). Subscribing is safe exactly when every
  added symbol has begun already or is requested while a task is active (`FirstEventBegins`). A request handled before
  that is not answered (`EarlyRequestUnanswered`); unless the symbol is requested again while a task is active, it never
  gets anything but live events, and a client that receives them counts all of them as premature (`EarlyIsPremature`).
  `EarlyRunPremature` is such a run.
- A snapshot misses nothing after the requested time exactly when every later record was kept and no record older than
  the requested time was retained after it (`MissesNothingIff`). With a wall clock that does not go backwards, every
  END-terminated snapshot misses nothing exactly when the history limit is positive (`EndGuarantee`). A clock that steps
  back, or a limit of zero, hides records behind an END (`StepBackHides`, `ZeroLimitHides`).
- A command line reaches the child unchanged exactly when the executable has no quote and, if it must be quoted, no
  trailing backslash (`CommandLineRoundTrip`).

## Model

| member | source | states |
|---|---|---|
| `CollectorObject.Collector.constructor` | src/client.cpp:295-318 | A new collector measures nothing, holds nothing and has recorded nothing. |
| `CollectorObject.Collector.EmitEvents` | src/client.cpp:384-405 | A batch with a marker turns every retained event into one sample or one clock anomaly, in order and in both accumulators, and retains none; without a marker nothing happens. |
| `CollectorObject.Collector.EmitOne` | src/client.cpp:389-402 | One retained event becomes a sample in the window and in its kind's whole-run list, or counts as negative in both, depending on the sign of its latency. |
| `CollectorObject.Collector.SettleKinds` | src/client.cpp:429-449 | The four-kind loop adds, in both accumulators, what was delivered, short and in excess of each kind, and reports whether all kinds match. |
| `CollectorObject.Collector.CountPublication` | src/client.cpp:451-461 | A marked publication counts as exactly one of full, empty and partial, in both accumulators. |
| `CollectorObject.Collector.SettleDelivery` | src/client.cpp:429-466 | A marked batch is settled by kind and as a publication, and counts as missing when it is incomplete and events are not conflated. |
| `CollectorObject.Collector.SampleBatch` | src/client.cpp:468-479 | A marked batch that received events yields one batch sample at its last observation, or one clock anomaly. |
| `CollectorObject.Collector.FinishUnmarked` | src/client.cpp:414-425 | A batch without a marker leaves its events uncorrelated and counts as missing unless events are conflated. |
| `CollectorObject.Collector.Finish` | src/client.cpp:411-482 | Finishing removes the batch and records exactly what the specification of a finished batch says. |
| `CollectorObject.Collector.EmitOrFinish` | src/client.cpp:499-504 | Once the marker is there, retained events are emitted, and the batch is finished exactly when its composition is the expected one. |
| `CollectorObject.Collector.AddEvent` | src/client.cpp:484-505 | A market event is one arrival for its sequence: refused, retained, emitted or completing. |
| `CollectorObject.Collector.AddMarker` | src/client.cpp:570-596 | A valid marker is one arrival for its sequence; only the first one fixes the time and counts the publication. |
| `CollectorObject.Collector.NoteProfiles` | src/client.cpp:530-534 | The symbols of all Profile events are remembered, measured or not. |
| `CollectorObject.Collector.ExcludeSequences` | src/client.cpp:540-554 | Before measurement exactly the sequences revealed by valid markers and described events are added to the excluded ones. |
| `CollectorObject.Collector.Correlate` | src/client.cpp:561-618 | One event is passed on as a marker, as a market event with its source time, or not at all. |
| `CollectorObject.Collector.CorrelateAll` | src/client.cpp:561-618 | A callback's events are processed one after the other, in order. |
| `CollectorObject.Collector.CountStats` | src/client.cpp:556-630 | Callback count, size and duration are recorded identically in the window and in the run. |
| `CollectorObject.Collector.MeasureEvents` | src/client.cpp:556-630 | While measuring, a notification changes the correlation state, source times and callback statistics, and nothing else. |
| `CollectorObject.Collector.HandleCallback` | src/client.cpp:518-631 | A notification takes the whole state to the one the specification gives, before and during measurement. |
| `CollectorObject.Collector.BeginMeasuring` | src/client.cpp:705-718 | Beginning clears the window and everything pending but keeps totals and exclusions. |
| `CollectorObject.Collector.EndMeasuring` | src/client.cpp:721-725 | Ending only stops accepting new sequences and source times. |
| `CollectorObject.Collector.FinishExpired` | src/client.cpp:744-761 | The iterate-and-erase loop finishes the expired batches in key order and no others. |
| `CollectorObject.Collector.ExtractWindow` | src/client.cpp:738-780 | The returned window is the accumulated one after expiry, and the next window starts empty. |
| `CollectorLaws.RunReachable` | src/client.cpp:384-516 | Every run, restarts included, keeps the per-kind balance, the reception law, the missing law and the shape of pending batches. |
| `CollectorRuns.Conservation` | src/client.cpp:384-505 | In every reachable state and for every kind: delivered + deficit = expected x finished + excess; published = expected x (finished + pending marked + marked dropped by restarts); accepted events = delivered + uncorrelated + pending + dropped by restarts; and missing is partial + empty + unmarked, or 0 under conflation. |
| `CollectorSamples.MarkerAccounted` | src/client.cpp:570-596 | A marker counts as first exactly when the sequence's batch has none; then the batch is pending marked or settled, and all its retained events became samples or anomalies. |
| `CollectorSamples.FinishAccounted` | src/client.cpp:411-482 | However a batch is finished, a marked one settles one publication and adds one sample or anomaly if it received events; an unmarked one adds neither. |
| `CollectorSamples.FirstMarkersSettle` | src/client.cpp:446-456 | In every run full + partial + empty + pending marked + marked dropped by restarts is the number of first markers accepted, and each of them announced the expected composition. |
| `CollectorSamples.SamplesAddUp` | src/client.cpp:384-482 | In every run event samples + batch samples + clock anomalies = events delivered + events received by pending marked batches + those dropped with such batches by restarts + settled publications that received any event. |
| `CollectorRuns.PendingShape` | src/client.cpp:384-505 | A pending batch with a marker holds no unemitted event and is not complete; an excluded sequence is never pending. |
| `CollectorRuns.NothingDropped` | src/client.cpp:705-718 | If measurement begins at most once, nothing pending is ever dropped by it. |
| `CollectorRuns.WindowsAddUp` | src/client.cpp:738-797 | At every state the windows handed out, those discarded when a measurement begins and the current one together equal the whole-run counters, and their samples by kind equal the per-kind latency lists. |
| `CollectorRuns.ExclusionFrozen` | src/client.cpp:540-554 | Once measuring, the excluded sequences never change. |
| `CollectorRuns.ExcludedInert` | src/client.cpp:510-516 | Arrivals of excluded sequences leave no trace: the state is as if they had not come. |
| `CollectorRuns.SequenceMatchesItem` | src/client.cpp:540-618 | The sequence under which an event is excluded is the one under which it would be correlated. |
| `CollectorRuns.SeenEarlyNeverPending` | src/client.cpp:484-554 | In every run a sequence revealed before measurement stays excluded, is never pending and is never accepted. |
| `CollectorRuns.PendingShrinks` | src/client.cpp:721-725 | After the end of measurement no notification or window can open a batch. |
| `CollectorRuns.SweepPending` | src/client.cpp:744-761 | A sweep removes exactly the expired batches and leaves the others untouched. |
| `CollectorRuns.WindowExpires` | src/client.cpp:738-761 | Taking a window leaves exactly the unexpired batches; the final window leaves none. |
| `CollectorExpiry.RunTells` | src/client.cpp:484-596 | In every run each pending sequence has a history of accepted arrivals, whose first marker is its batch's time and, while there is none, whose first event's observation is its age. |
| `CollectorExpiry.WindowKeeps` | src/client.cpp:738-761 | In every run a window report keeps a pending sequence exactly when its first marker's time, or without one its first event's observation, is at least the present minus the timeout; the final report keeps none, and what is kept is unchanged. |
| `CollectorExpiry.WindowPending` | src/client.cpp:763-771 | The report tells how many batches it kept. |
| `CollectorInputs.Phases` | src/client.cpp:705-725 | Measuring starts with the first begin and lasts; sequences and source times are accepted exactly between a begin and the next end. |
| `CollectorInputs.ItemMeans` | src/client.cpp:335-382 | What an event delivers to which sequence: a marker text its timestamp, a Quote by its bid size, a Trade or TradeETH by its sequence and with its millisecond, a Summary by its day, and nothing else. |
| `CollectorInputs.ItemsInOrder` | src/client.cpp:561-618 | A callback's events reach correlation in their order. |
| `CollectorInputs.ExcludedExactly` | src/client.cpp:540-554 | In every run the excluded sequences are exactly those that a marker or market event revealed before measuring. |
| `CollectorInputs.CallbacksCounted` | src/client.cpp:556-630 | In every run the callback counts are those of the notifications received while measuring, and sizes and durations those of the market ones among them, in order, for the window and for the run. |
| `CollectorInputs.SourceTimesHeard` | src/client.cpp:561-618 | In every run the source times observed are those of the Trade and TradeETH events heard since the last begin, until its end, in order. |
| `SampleOrigins.SamplesGenuine` | src/client.cpp:384-482 | In every run each recorded event latency is the observation of an event less the time of a marker, both heard for one sequence while measuring, under that event's kind and symbol; each batch latency is the time of an arrival less that of a marker of one sequence. |
| `CollectorOrder.ProcessAllIsProduct` | src/client.cpp:484-617 | The collector is the product of independent per-sequence collectors: pending batches agree one by one and recordings add up. |
| `CollectorOrder.FlushedTally` | src/client.cpp:738-797 | After the final window the run has recorded exactly the sum of what each sequence gives on its own. |
| `CollectorOrder.InterleavingIrrelevant` | src/client.cpp:484-617 | For all deliveries, only the order within each sequence can matter. |
| `CollectorClosedForm.SettledClosedForm` | src/client.cpp:384-505 | A sequence without a marker, or one that never covers the expected composition, or one that matches it exactly with a single marker, contributes a closed form of what arrived. |
| `CollectorClosedForm.ClosedFormPermute` | src/client.cpp:384-505 | With at most one marker that closed form does not depend on the order of arrivals. |
| `CollectorExactness.OrderIrrelevantIff` | src/client.cpp:484-505 | For every sequence of arrivals, all orders give the same results exactly when no marker comes; or the events cover the expected composition, match it exactly and come with a single marker (or nothing is expected and no event comes); or they never cover it and the choice of first marker does not matter. |
| `CollectorExactness.OvershootMatters` | src/client.cpp:484-505 | When a marker comes and the events cover and then exceed the expected composition, two orders differ, because a completed sequence is re-opened. |
| `CollectorExactness.RepetitionMatters` | src/client.cpp:570-596 | When a second marker comes for a sequence that matches a non-empty expected composition, two orders differ, because the second one publishes it again. |
| `CollectorExactness.TimesMatter` | src/client.cpp:577-587 | When a sequence never covers the expected composition and its marker times disagree, two orders differ, because the first time is kept. |
| `CollectorExactness.WithinExpectedOrderFree` | src/client.cpp:484-505 | At most one marker, and no kind beyond its expected count, make the order irrelevant. |
| `CollectorTheorems.FinalClosedForm` | src/client.cpp:484-617 | Counters and latency multisets after the final window are a sum of closed forms over the sequences seen. |
| `CollectorTheorems.OrderIndependence` | src/client.cpp:484-617 | If every accepted sequence's arrivals are order-free, reordering the whole delivery in any way changes nothing that is recorded. |
| `CollectorTheorems.DeliveryOrderIff` | src/client.cpp:484-617 | The order of a whole delivery is irrelevant exactly when every accepted sequence's arrivals are order-free. |
| `CollectorTheorems.LosslessDelivery` | src/client.cpp:411-482 | If every sequence that is not excluded arrives completely, in any order and chunking, all their publications are full and nothing is short, in excess, partial, empty, uncorrelated or missing. |
| `CollectorTheorems.CalmRun` | src/client.cpp:518-631 | Callback boundaries and reporting windows that expire nothing leave no trace in the correlation state. |
| `CollectorTheorems.MeasurementTally` | src/client.cpp:721-797 | A measurement ends with exactly what its delivered items are worth together. |
| `CollectorTheorems.MeasurementsAgree` | src/client.cpp:518-797 | Two measurements that deliver the same items, however interleaved, chunked and reported, end with the same counters and latency multisets. |
| `CollectorTheorems.BeginStarts` | src/client.cpp:705-718 | From any state, beginning a measurement gives the state these results start from. |
| `CollectorEpisodes.ReactContinues` | src/client.cpp:384-505 | Whatever arrives for a sequence, every event sample of an open batch keeps its publication time and was observed no later than the batch's last observation; if the batch ends, its latency is at least theirs. |
| `CollectorEpisodes.FinishDominated` | src/client.cpp:411-482 | However a batch is finished, its latency is at least every event latency recorded for it. |
| `CollectorEpisodes.BatchDominates` | src/client.cpp:468-479 | In every run, duplicates, further markers, re-opened, expired and restarted batches included, the recorded samples split into one episode per batch opened, and no event latency of an episode exceeds its batch latency. |
| `CollectorEpisodes.RecordedBatchDominates` | src/client.cpp:468-479 | Every recorded batch latency is the only one of its episode and at least each event latency of that episode, measured from the same publication time. |
| `SourceTime.SourceTimeMethodComparison.constructor` | src/core.cpp:438-453 | A new comparison has observed nothing. |
| `SourceTime.SourceTimeMethodComparison.Reset` | src/core.cpp:444-453 | Reset forgets everything observed. |
| `SourceTime.SourceTimeMethodComparison.Observe` | src/core.cpp:455-490 | One observation updates the three filters and their counters as specified. |
| `SourceTime.SeriesIdentifies` | src/core.cpp:455-475 | A series key determines kind and symbol. |
| `SourceTime.LatencyBrackets` | src/core.cpp:455-475 | A latency is the time since the source's millisecond in whole milliseconds, rounded down, and zero, counted as clamped, before it. |
| `SourceTime.FiltersSelect` | src/core.cpp:455-490 | Each filter accepts exactly the strict running maxima of its scope; accepted + rejected = all; clamps are counted where accepted. |
| `SourceTime.FiltersNest` | src/core.cpp:455-490 | As positions in the history, globally accepted observations are a subsequence of per-series accepted ones, and those of all. |
| `SourceTime.SelectedArePicked` | src/core.cpp:455-490 | What a filter has recorded are the latencies of the observations it accepted, in order. |
| `SourceTime.ClampsNest` | src/core.cpp:455-490 | Clamped latencies are counted least often by the global filter and most often by the unfiltered one. |
| `SourceTime.GlobalKeepsDistinctTimes` | src/core.cpp:478-490 | Global acceptances never exceed the number of distinct source timestamps. |
| `Markers.MarkerRoundTrip` | src/client.cpp:366-382 | The timestamp in a marker text is read back exactly when it is positive and fits in 64 bits. |
| `Markers.MarkerMeans` | src/client.cpp:366-382 | A text carries a timestamp exactly when it is the prefix and digits that denote a positive 64-bit number. |
| `Markers.EncodedMeans` | src/client.cpp:335-344 | A bid size encodes a sequence exactly when it is that whole number, strictly between 0 and the maximum. |
| `Markers.EncodedSequenceRoundTrip` | src/client.cpp:335-344 | A sequence written as a bid size is read back exactly when it lies strictly between 0 and the maximum. |
| `TrackerObject.TimeSeriesTracker.constructor` | src/client.cpp:840-857 | A new tracker has seen nothing. |
| `TrackerObject.TimeSeriesTracker.BeginSnapshot` | src/client.cpp:860-865 | Only the expected count and subscription time change. |
| `TrackerObject.TimeSeriesTracker.Snapshotted` | src/client.cpp:896-916 | A tick inside a snapshot is a removal, a new index or a duplicate, and may complete its symbol. |
| `TrackerObject.TimeSeriesTracker.Classify` | src/client.cpp:884-930 | One tick updates its symbol's state and the counters as specified. |
| `TrackerObject.TimeSeriesTracker.HandleTick` | src/client.cpp:875-947 | One event updates times, counters, symbol state and live latencies as specified. |
| `TrackerObject.TimeSeriesTracker.HandleTicks` | src/client.cpp:875-947 | A callback's events are handled in order, and it is noted whether any belongs to a snapshot. |
| `TrackerObject.TimeSeriesTracker.HandleCallback` | src/client.cpp:868-951 | A callback takes the whole state to the one the specification gives. |
| `TrackerObject.TimeSeriesTracker.SnapshotComplete` | src/client.cpp:972-976 | Complete means a positive expected count that has been reached. |
| `TrackerObject.TimeSeriesTracker.BeginMeasurement` | src/client.cpp:986-990 | Measuring starts with no live latency. |
| `TrackerObject.TimeSeriesTracker.EndMeasurement` | src/client.cpp:993-996 | Measuring stops and nothing else changes. |
| `TrackerLaws.FollowAllAccounted` | src/client.cpp:884-930 | Every event is counted once; duplicates and completions are what the per-symbol states show. |
| `TrackerLaws.CompletionPermanent` | src/client.cpp:911-921 | A complete symbol stays complete. |
| `TrackerLaws.RunTrack` | src/client.cpp:868-951 | Callback boundaries and clocks do not influence the counters. |
| `TrackerLaws.RunAccounted` | src/client.cpp:868-951 | In every run snapshot + removals + premature + live is the number of events, snapshot events are duplicates plus distinct indices, and the completed count is the number of complete symbols. |
| `TrackerLaws.CompletionTime` | src/client.cpp:917-920 | The completion time belongs to the callback in which the expected count is reached. |
| `TrackerLaws.CompletedOnce` | src/client.cpp:860-921 | After one subscription the completion time is set at most once, exactly when every symbol is complete. |
| `TrackerMeasurements.TickMeans` | src/client.cpp:876-908 | The tracker reads every TimeAndSale event with its symbol, flags and time; two events share an index exactly when they share millisecond and sequence. |
| `TrackerMeasurements.TicksInOrder` | src/client.cpp:875-880 | A callback's TimeAndSale events are read in their order. |
| `TrackerMeasurements.StateMeans` | src/client.cpp:884-921 | A symbol is started exactly when an event of it carried BEGIN, complete exactly when one carried END or SNIP, and its indices are those of its snapshot events so far. |
| `TrackerMeasurements.CountersMean` | src/client.cpp:884-930 | Each counter is the number of events whose flags and predecessors make them beginnings, snapshot events, repeated indices, removals, completions, live or premature. |
| `TrackerMeasurements.RunMeans` | src/client.cpp:868-951 | In every run the live latencies are how long after their own time the live events since measuring last began were observed, in order; the anomalies are those ever measured that were observed before it; the first times are those of the first event and the first live event. |
| `TrackerMeasurements.CompleteMeans` | src/client.cpp:972-976 | The snapshot is complete exactly when symbols are expected and at least that many have had an END or SNIP. |
| `History.HistoryIsSuffix` | src/server.cpp:358-367 | The bounded history is exactly the last min(n, limit) of the n retained records, and truncated exactly when n exceeds the limit. |
| `History.WalkBack` | src/server.cpp:400-409 | The backward walk collects records newest first up to the first one older than the requested time. |
| `History.BuildBlock` | src/server.cpp:378-433 | The published block of one request has the specified records and flags, with SNIP or a removal boundary at the end. |
| `History.WalkedIsNewest` | src/server.cpp:400-409 | With non-decreasing time the walk emits exactly the records at or after the requested time, newest first. |
| `History.EndsInSnip` | src/server.cpp:378-433 | Whatever the clock did, a snapshot ends in SNIP exactly when a truncated history starts after the requested time and its newest record is not older, and otherwise in END. |
| `History.BlockEnd` | src/server.cpp:378-433 | In terms of everything ever retained: a snapshot ends with SNIP on its last record, or with a removal at the requested time that carries END, and BEGIN as well if it is the only event. |
| `History.SteadySnip` | src/server.cpp:379-382 | With non-decreasing time, a snapshot ends in SNIP exactly when a truncated history starts after the requested time, and otherwise in END. |
| `History.WalkedMembers` | src/server.cpp:400-409 | Whatever the clock did, the backward walk meets exactly the records that no older one follows. |
| `History.MissesNothingIff` | src/server.cpp:357-409 | For every log, limit and request, whatever the clock did: a snapshot misses no record after the requested millisecond exactly when every such record was kept with no record older than the requested time after it. |
| `History.StepBackHides` | src/server.cpp:400-409 | A clock that steps back past the requested time hides a later record behind an END, although nothing was truncated. |
| `History.EndMissesNothing` | src/server.cpp:378-433 | With non-decreasing time and a positive limit, an END-terminated snapshot misses no record ever retained strictly after the requested millisecond. |
| `History.ZeroLimitHides` | src/server.cpp:358-367 | With a limit of zero a concrete END-terminated snapshot hides a later record. |
| `History.EndGuarantee` | src/server.cpp:358-433 | With non-decreasing time, the END guarantee holds for every log and request exactly when the history limit is positive, which the argument parser demands. |
| `SnapshotProtocol.BlockShape` | src/server.cpp:411-433 | In a published block only the first event carries BEGIN, only the last END or SNIP, and removals only close it. |
| `SnapshotProtocol.FeedWellFramed` | src/server.cpp:370-434 | A snapshot block followed by live events is a well-framed stream with distinct indices. |
| `SnapshotProtocol.StepInFrame` | src/client.cpp:884-930 | A tick of a well-framed stream is never premature and never a duplicate, and begins or completes its symbol exactly at the frame's ends. |
| `SnapshotProtocol.InterleavingClean` | src/client.cpp:868-951 | Whatever the interleaving of well-framed streams, begins and completions count the streams begun and completed, with no duplicate and no premature event. |
| `SnapshotProtocol.SnapshotDelivery` | src/monitoring.cpp:1208-1212 | Snapshot blocks and live events, in any interleaving that keeps each symbol's order and in any chunking, give completed = begins = ends + snips = requested and satisfy the acceptance rule, up to its conditions on clocks and live samples. |
| `SnapshotProtocol.IntegrityMeans` | src/monitoring.cpp:1208-1212 | A report that passes the acceptance rule accounts for every event as a distinct record, a removal or a live event. |
| `SnapshotOrder.NextFirstBegins` | src/server.cpp:512-524 | One step keeps all first TimeAndSale events snapshot beginnings exactly when it does not update a subscribed symbol for which nothing was published. |
| `SnapshotOrder.FirstEventIff` | src/server.cpp:512-524 | For every run: the first TimeAndSale event of every symbol begins a snapshot exactly when no publication updates a subscribed symbol for which nothing was published. |
| `SnapshotOrder.NextBeginFirst` | src/server.cpp:699-717 | One step leaves every subscribed symbol begun exactly when every symbol it adds has begun or is requested by it while a task is active. |
| `SnapshotOrder.FirstEventBegins` | src/server.cpp:699-717 | For every run: all subscribed symbols have begun in all of its states exactly when every subscription of the run meets that condition. |
| `EarlyRequests.EarlyRequestUnanswered` | src/server.cpp:712-716 | A request handled while no task is active subscribes the symbol but publishes no snapshot. |
| `EarlyRequests.UnansweredIsPremature` | src/client.cpp:884-930 | In every continuation that answers no request for it, such a symbol gets live events only; every client that receives them in order counts each as premature, never completes the symbol, and rejects the run if there is one. |
| `EarlyRequests.EarlyIsPremature` | src/server.cpp:699-717 | So an early request, unless repeated while a task is active, makes all of its symbol's events premature. |
| `EarlyRequests.EarlyRunPremature` | src/server.cpp:512-524 | A concrete run from the initial state: request, start, profile subscription, publication; its first TimeAndSale event begins no snapshot. |
| `ServerSnapshots.RisingDistinct` | src/server.cpp:446-452 | Until sequences wrap around, the retained records of a symbol are pairwise distinct. |
| `ServerSnapshots.RunFed` | src/server.cpp:702-716 | In every run that requests each symbol once, from a task whose retained records for it are then pairwise distinct, a symbol's stream is one snapshot followed by live events. |
| `ServerSnapshots.ServerToTracker` | src/server.cpp:370-434 | A run that requests each symbol once, its retained records then being pairwise distinct, received in per-symbol order by the client, always gives a tracker report with no duplicate and no premature event that passes the acceptance rule (if any symbol was sent, no clock anomaly occurred and live events were measured where required). |
| `ServerSnapshots.NumberedServerToTracker` | src/server.cpp:446-452 | The same for every run that requests each symbol once before the task's publication numbers wrap around, with nothing assumed about the retained records. |
| `SnapshotContinuity.LiveIsLogged` | src/server.cpp:512-524 | In every run, while a symbol stays subscribed, the task goes on and no further request for it is answered, its live events are exactly the records appended to its log, in order. |
| `SnapshotContinuity.AnsweredStream` | src/server.cpp:370-434 | In every run, from an answered request on, such a symbol's stream is the snapshot of what its log held then, followed by exactly the records appended since. |
| `SnapshotContinuity.NoGap` | src/server.cpp:378-433 | If the snapshot misses nothing, snapshot and live events carry exactly the records of the whole log after the requested millisecond. |
| `SnapshotContinuity.EndThenLive` | src/server.cpp:370-524 | In every run with a wall clock steady until the request and a positive limit: from an END-terminated snapshot on, the client gets exactly the records ever retained after the requested millisecond, before and since. |
| `RequestAnswers.OneBeginPerAnswer` | src/server.cpp:378-433 | Every run publishes exactly one BEGIN for each request it answers, also for a symbol added again after a removal. |
| `RequestAnswers.BeginsAreAnswers` | src/client.cpp:884-895 | For every run received in per-symbol order, the tracker's BEGIN count is the number of answered requests. |
| `RequestAnswers.AcceptedOnce` | src/server.cpp:702-716 | For every run received in per-symbol order, the report is accepted only if no symbol was answered twice and the answered symbols are exactly the completed ones, as many as expected. |
| `Publication.Shuffle` | src/server.cpp:456-464 | The in-place loop performs the specified Fisher-Yates pass. |
| `Publication.ArrangePools` | src/server.cpp:453-464 | The pool order is reset, and shuffled in place when the pattern has a seed. |
| `Publication.ShuffledPermutes` | src/server.cpp:456-464 | Shuffling only reorders. |
| `Publication.ShuffleReachesAll` | src/server.cpp:456-464 | Every reordering is the outcome of some random numbers. |
| `Publication.PoolOrderPermutes` | src/server.cpp:453-464 | Whatever is drawn, the order names every pool index exactly once. |
| `Publication.BlockPicksDistinct` | src/server.cpp:474-480 | The base symbols of one block are pairwise distinct. |
| `Publication.PicksRoundRobin` | src/server.cpp:474-480 | Of the base symbols picked for a pool by successive publications, the k-th is symbol k modulo the active count. |
| `Publication.Fairness` | src/server.cpp:474-480 | After any number of publications the base symbols have been picked for a pool equally often up to one. |
| `Publication.ResolveActiveSymbolCount` | src/server.cpp:198-214 | The configured or default count is accepted exactly when it lies between every quantity and the universe size. |
| `Publication.DefaultSuits` | src/server.cpp:198-214 | The default count always suits a valid pattern, and an accepted count is positive, so no remainder by zero can occur. |
| `Publication.MakeEventPools` | src/server.cpp:279-314 | Each item gets a pool of all record keys of the active base symbols, composite only for TimeAndSale. |
| `Publication.SlotInPool` | src/server.cpp:480-485 | The index source x count + base is in range and names the key of that base symbol at that source. |
| `RegionLaws.SlotKey` | src/server.cpp:479-485 | Slot i of a pool updates the record key of the base symbol at (publications x quantity + i) modulo the active count, at the source that the drawn number leaves modulo the number of sources. |
| `RegionLaws.CompositeKey` | src/server.cpp:479-485 | A TimeAndSale slot updates the composite record key. |
| `RegionLaws.RegionsReachAll` | src/server.cpp:481-485 | For every choice of a source for each market slot some random numbers publish exactly those record keys. |
| `RegionLaws.PublicationRegional` | src/server.cpp:487-491 | A publication counts as regional exactly the events it sends for record keys with a region suffix. |
| `RegionLaws.RunRegional` | src/server.cpp:487-491 | In every run, while a task stays active, its regional counter grows by the regional events that the wire gains. |
| `Publication.PoolSymbolsCovered` | src/server.cpp:279-314 | Pools use only symbols that the task requires subscriptions for. |
| `PublicationLaws.Composition` | src/server.cpp:470-528 | Whatever is drawn, a publication has exactly the pattern's quantity of every kind. |
| `PublicationLaws.PublicationSize` | src/server.cpp:470-528 | A publication fills exactly the pattern's event count. |
| `PublicationLaws.PublicationDistinct` | src/server.cpp:470-528 | No record key is used twice by a kind within a publication, so reusing event objects overwrites none. |
| `PublicationLaws.SlotRoundRobin` | src/server.cpp:474-485 | The slot at position k of a pool's run names base symbol k modulo the active count, at a source that is composite for TimeAndSale. |
| `PublicationLaws.PublishedLogs` | src/server.cpp:513-524 | A publication retains one record for each TimeAndSale symbol it updates, subscribed or not, and none for others. |
| `PublicationRecords.StampByNumber` | src/server.cpp:446-452 | Publication number n has tick n modulo 2^32; its sequence is the tick modulo the largest sequence and its price 100 plus the tick modulo 100. |
| `PublicationRecords.RunStamp` | src/server.cpp:446-452 | In every run the next publication is stamped so. |
| `PublicationRecords.PublicationEnds` | src/server.cpp:493-535 | A publication ends with its marker, whose text is its time, and every event before it bears the same sequence, time and price and no flag. |
| `PublicationRecords.LastBlockCounted` | src/server.cpp:465-467 | A publication is counted under the kind of its last slot and no other. |
| `PublicationRecords.UnseededOrder` | src/server.cpp:453-464 | Without a seed the blocks come in the pattern's order. |
| `PublicationRecords.SeededOrdersReachAll` | src/server.cpp:453-464 | With a seed every order of the blocks is drawn by some random numbers. |
| `ServerStreams.SentIsWire` | src/server.cpp:620-753 | In every run the wire only grows, by exactly what its passes send. |
| `RunFairness.SentFor` | src/server.cpp:470-529 | In every stretch of a run during which a task stays active, the events of one kind other than TimeAndSale sent for a base symbol, over all its record keys, are as many as its pool picked that symbol in the publications made. |
| `RunFairness.RunFair` | src/server.cpp:474-480 | In every such stretch, whatever commands, snapshots and clock readings lie between, the wire gains equally many events of a kind for any two active base symbols up to one. |
| `GeneratorObject.ActiveTask.constructor` | src/server.cpp:588-595 | A started task has its pools, an empty history and zero counters. |
| `GeneratorObject.ActiveTask.Retain` | src/server.cpp:358-367 | Pushing and popping the bounded deque refines appending to the symbol's full log. |
| `GeneratorObject.ActiveTask.AnswerRequests` | src/server.cpp:370-434 | The published snapshot events are those of the requests, in order, computed from the bounded histories. |
| `GeneratorObject.ActiveTask.PickSlot` | src/server.cpp:474-485 | The pooled event of a slot is the one of its base symbol and drawn source. |
| `GeneratorObject.ActiveTask.PublishSlot` | src/server.cpp:485-528 | One slot updates routes, retained records and the publication as specified; unsubscribed TimeAndSale is retained but not published. |
| `GeneratorObject.ActiveTask.PublishBlock` | src/server.cpp:470-528 | One pool's block fills its slots in round-robin order. |
| `GeneratorObject.ActiveTask.PublishBlocks` | src/server.cpp:469-529 | All blocks are filled in the arranged order. |
| `GeneratorObject.ActiveTask.Publish` | src/server.cpp:446-544 | A publication consists of its blocks and then its marker, and advances tick, counters, routes and retained records as specified. |
| `GeneratorObject.RequestsAreNamed` | src/server.cpp:791-817 | Every time-series request names a subscribed symbol, and time-series symbols are all requested. |
| `GeneratorObject.RequestsTakenOver` | src/server.cpp:791-817 | Each time-series symbol becomes one request with its own bound, and nothing else does. |
| `GeneratorObject.NamesTakenOver` | src/server.cpp:791-817 | The names subscribed are exactly those of the plain and the time-series symbols. |
| `GeneratorObject.Generator.constructor` | src/server.cpp:570-574 | A new generator has no command, subscription or task. |
| `GeneratorObject.Generator.EnqueueControl` | src/server.cpp:780-788 | A control command goes to the end of the queue. |
| `GeneratorObject.Generator.EnqueueSymbols` | src/server.cpp:791-817 | Subscribed names, and bounds of time-series symbols, go to the end of the queue; other symbols are ignored. |
| `GeneratorObject.Generator.EnqueueClosed` | src/server.cpp:820-828 | A closure goes to the end of the queue. |
| `GeneratorObject.Generator.AllContained` | src/server.cpp:216-222 | True exactly when every symbol is subscribed. |
| `GeneratorObject.Generator.SubscriptionsReady` | src/server.cpp:224-236 | True exactly when all profile symbols, and all market symbols of every kind but TimeAndSale, are subscribed. |
| `GeneratorObject.Generator.StartPending` | src/server.cpp:576-614 | A pending task starts exactly when it is ready and none is active; its Profile events are published first. |
| `GeneratorObject.Generator.MakeInitialEvents` | src/server.cpp:316-326 | One Profile event per universe symbol, in order. |
| `GeneratorObject.Generator.HandleStart` | src/server.cpp:660-687 | A start command makes a parsed, suitable task pending exactly when none is pending or active. |
| `GeneratorObject.Generator.HandleStop` | src/server.cpp:688-698 | A stop command clears the tasks with its text, or all of them when its text is empty. |
| `GeneratorObject.Generator.HandleSubscription` | src/server.cpp:699-717 | Subscribed symbols are added, removed or cleared, and time-series requests are answered while a task is active. |
| `GeneratorObject.Generator.HandleCommand` | src/server.cpp:654-735 | The oldest command is handled, and then a ready pending task is started. |
| `GeneratorObject.Generator.PublishDeadline` | src/server.cpp:739-751 | A due deadline publishes once, and deadlines already past are skipped and counted. |
| `GeneratorObject.Generator.Pass` | src/server.cpp:620-753 | One pass of the worker loop takes the whole state to the one the specification gives. |
| `GeneratorLaws.RunSound` | src/server.cpp:576-735 | In every run commands are handled in order, a task is never both pending and active, an active task was asked for and then fully subscribed, and no pending task is ready. |
| `GeneratorLaws.PassSound` | src/server.cpp:654-735 | Each pass handles at most the oldest command and leaves no ready task waiting. |
| `GeneratorLaws.PoolsCovered` | src/server.cpp:279-314 | For a properly started task, as `RunSound` proves every active task to be: after one and the same command following its request it was ready and every symbol that its Quote, Trade, TradeETH and Summary pools can publish was subscribed. |
| `CommandLaws.SubscribedMeans` | src/server.cpp:696-716 | A symbol is subscribed exactly when some command added it and no later one removed it or closed its subscription. |
| `CommandLaws.MarketSymbolsMean` | src/core.cpp:189-205 | The market symbols are exactly the record keys of all universe symbols at all sources. |
| `CommandLaws.ReadyMeans` | src/server.cpp:224-236 | A task is ready exactly when all its profile symbols, and all record keys of each of its kinds but TimeAndSale, are subscribed. |
| `CommandLaws.StopHandled` | src/server.cpp:685-695 | In every run a stop clears the tasks with its text, or all when it is empty, and changes nothing else. |
| `CommandLaws.StartHandled` | src/server.cpp:659-684 | In every run a start makes the task it denotes pending, or active with a fresh state and its first deadline at once if it is covered; it does nothing if a task is pending or active, or its text or the configured symbol count does not do. |
| `CommandLaws.ChangeHandled` | src/server.cpp:696-716 | In every run a subscription change starts the pending task exactly when it is then covered, and leaves an active one alone. |
| `Announcements.StartAnnounces` | src/server.cpp:316-326 | A pass that starts a task ends the wire with one Profile event per symbol of its universe, in order. |
| `Announcements.RunAnnounces` | src/server.cpp:576-614 | In every run the Profile events on the wire are those of the universes of the started tasks, in order, and no others. |
| `Announcements.ProfilesHeard` | src/client.cpp:530-534 | In every run the collector has received exactly the symbols of the Profile events it heard, measured or not. |
| `Announcements.FirstStartReceived` | src/client.cpp:800-814 | Once the first task has started, a client that hears its Profile events has received exactly its universe, as many symbols as it waits for. |
| `GeneratorLaws.RunOnSchedule` | src/server.cpp:739-751 | In every run the next deadline is the first one plus one period per publication made or deadline skipped. |
| `GeneratorLaws.SkippedExactly` | src/server.cpp:745-751 | Nothing is skipped exactly when the deadline is not overdue; once it is, publishing resumes at the first deadline strictly after now. |
| `GeneratorLaws.NoBurst` | src/server.cpp:739-751 | After a publication the next deadline lies between now and now plus one period. |
| `GeneratorLaws.PlannedPublications` | src/core.cpp:121-129 | In every run a publication made before start + T is among the batchCount(T) planned ones. |
| `GeneratorRuns.RunBooks` | src/server.cpp:446-544 | In every run routes add up to publications x events per batch, last-block counts to publications, ticks follow publications modulo 32 bits, and until wrap-around the retained sequences rise strictly. |
| `GeneratorRuns.RunInTime` | src/server.cpp:513-519 | With a steady wall clock every log stays in chronological order. |
| `GeneratorRuns.SnapshotsMissNothing` | src/server.cpp:370-434 | In every such run with a positive history limit an END-terminated snapshot misses no later record. |
| `EndToEnd.DescribesPublished` | src/client.cpp:335-364 | The client reads back the kind, symbol, sequence and source time that the server wrote, for every kind it correlates. |
| `EndToEnd.PublicationWorth` | src/server.cpp:446-535 | One publication is worth exactly the expected composition and one marker, at its own sequence and nowhere else. |
| `EndToEnd.SentWorth` | src/server.cpp:446-544 | Until the active task is stopped, a run's publications are exactly its consecutive sequences, each worth one complete publication, whatever snapshots, profiles and other commands lie between. |
| `EndToEnd.LosslessRun` | src/client.cpp:384-482 | Publications of any server run whose active task is not stopped meanwhile, numbered below the largest sequence, whose markers and market events are there once each, in any order and chunking, partly before the measurement: exactly the sequences not excluded when it began are recorded, all as full publications with nothing missing. |
| `EndToEnd.WholeRun` | src/client.cpp:384-482 | If none of them was excluded, N publications are recorded as exactly N full ones. |
| `EndToEnd.EarlyExcludes` | src/client.cpp:540-554 | Before measurement exactly the sequences of what is heard become excluded, whatever windows are taken meanwhile. |
| `EndToEnd.MeasuredFromAnywhere` | src/client.cpp:540-718 | A client that hears the run losslessly and begins to measure at any point, also within a publication, records as full exactly the publications of which it had heard nothing before. |
| `WireWorth.DeliveredWorth` | src/client.cpp:561-618 | Callback boundaries and observation times do not change what delivered events are worth. |
| `WireWorth.WorthPermute` | src/client.cpp:561-618 | Neither does their order. |
| `TaskPattern.PrintItems` | src/core.cpp:75-86 | The item list of the canonical text. |
| `TaskPattern.PrintPeriod` | src/core.cpp:88-97 | A period other than one second is printed in seconds when it is a whole number of them, else in milliseconds. |
| `TaskPattern.ToString` | src/core.cpp:75-115 | The printed text is the canonical text of the pattern. |
| `TaskPattern.BatchCountExact` | src/core.cpp:121-129 | The batch count of a duration is the number of publication times before its end. |
| `TaskParser.ReadItem` | src/core.cpp:263-300 | One item is read, or rejected at the specified position with the specified fault. |
| `TaskParser.ParsePattern` | src/core.cpp:252-316 | The scanning loop reads the item list, or stops at its first fault. |
| `TaskParser.ParseTaskText` | src/core.cpp:207-419 | The parser accepts and rejects as specified, with the specified position and fault. |
| `TaskRoundTrip.ParseSound` | src/core.cpp:207-419 | Every accepted text denotes a valid pattern. |
| `TaskRoundTrip.ParseToText` | src/core.cpp:75-419 | Printing a valid pattern and parsing the text gives the pattern back, for all patterns. |
| `TaskRoundTrip.ValidIffDenoted` | src/core.cpp:207-419 | The valid patterns are exactly those that some text denotes. |
| `TaskRoundTrip.CanonicalForms` | src/core.cpp:75-115 | Canonicalisation is idempotent, and two texts denote the same pattern exactly when their canonical forms are equal. |
| `TaskGrammar.SpellingParses` | src/core.cpp:207-419 | Every text of the task grammar within its bounds, leading zeros and all units included, is accepted and means what its parts denote. |
| `TaskGrammar.ParsedIsSpelled` | src/core.cpp:207-419 | Every accepted text is one of the grammar, within its bounds. |
| `TaskGrammar.DenotesIffSpelled` | src/core.cpp:207-419 | A text denotes a pattern exactly when it is a spelling of it. |
| `TaskGrammar.PrintedIsSpelled` | src/core.cpp:75-115 | Printing spells a pattern without leading zeros, in whole seconds where possible, and without the default period. |
| `TaskGrammar.LargestMeans` | src/core.cpp:65-73 | The universe is by default as large as the largest quantity. |
| `TaskDiagnosis.ItemsDiagnosed` | src/core.cpp:229-305 | An error among the items points at the item after those already read, and names what is wrong with it. |
| `TaskDiagnosis.Diagnosed` | src/core.cpp:207-419 | Every rejected text has the fault that the error names, at the position that it gives. |
| `TaskRoundTrip.DurationDenotes` | src/core.cpp:568-599 | Digits and a unit are accepted exactly when the value is positive and fits in 64 bits of milliseconds. |
| `TaskRoundTrip.DurationOnlyDenotes` | src/core.cpp:568-599 | Every accepted duration is digits and a unit. |
| `SymbolUniverse.GenerateSymbols` | src/core.cpp:160-177 | The zero-padded names of the universe, in order. |
| `SymbolUniverse.GenerateKeys` | src/server.cpp:285-298 | The composite names followed by one block of names per region. |
| `SymbolUniverse.GenerateMarketSymbols` | src/core.cpp:189-205 | The record keys of the whole universe. |
| `SymbolUniverse.NamesAligned` | src/core.cpp:20-23 | All names of a universe are equally long: two digits, or as many as its largest number needs. |
| `SymbolUniverse.NamesMean` | src/core.cpp:160-177 | A name is SYM and at least two digits that denote its position. |
| `SymbolUniverse.KeyMeans` | src/core.cpp:189-205 | A composite key is the name itself; a regional one adds an ampersand and the region's letter, A to Z. |
| `SymbolUniverse.KeysAt` | src/core.cpp:189-205 | Position source x n + i holds the key of name i at that source. |
| `SymbolUniverse.MarketSymbolsDistinct` | src/core.cpp:179-205 | Market symbols are duplicate-free and as many as marketSymbolCount says. |
| `SymbolUniverse.LeadingKeys` | src/server.cpp:279-298 | Keys over the leading names are among the keys over all of them. |
| `Statistics.PercentileMonotone` | src/core.cpp:496-516 | Percentiles stay within the data and grow with the requested percentile. |
| `PercentileLaws.StatisticsMean` | src/core.cpp:518-547 | Every statistic in terms of the values alone: the extremes, each percentile at its own rank, mean x count = sum, the threshold, and the number of values above it. |
| `PercentileLaws.PercentileRank` | src/core.cpp:496-516 | At least floor(p(n-1)) + 1 values are at most a percentile, and at least n - ceil(p(n-1)) at least it. |
| `PercentileLaws.PercentileUnique` | src/core.cpp:496-516 | A percentile is determined by the values, in whatever order they come: linear interpolation between the values of neighbouring ranks. |
| `Statistics.PercentilesOrdered` | src/core.cpp:518-547 | min <= q1 <= p50 <= q3 <= p90 <= p95 <= p99 <= p999 <= max. |
| `Statistics.CalculateStatistics` | src/core.cpp:518-547 | The statistics of the sorted values; empty input gives all zeros. |
| `Statistics.SumOf` | src/core.cpp:532-532 | The accumulated sum. |
| `Statistics.CountOutliers` | src/core.cpp:542-544 | The number of values above the threshold. |
| `Statistics.DescribeSorted` | src/core.cpp:529-544 | Every statistic of sorted values. |
| `Statistics.StatisticsIgnoreOrder` | src/core.cpp:518-547 | Statistics depend only on which values occur how often. |
| `Statistics.MeanBetween` | src/core.cpp:530-532 | The mean lies between minimum and maximum. |
| `Statistics.FewOutliers` | src/core.cpp:537-544 | At most ceil((n - 1) / 4) of n values can be outliers. |
| `Statistics.OutliersCounted` | src/core.cpp:542-551 | The outlier count is the number of input values the per-value rule calls outliers. |
| `Statistics.MedianIsHalfPercentile` | src/monitoring.cpp:1378-1388 | The run median is the interpolated 0.5 percentile for odd and even counts. |
| `Statistics.ComparisonAgrees` | src/monitoring.cpp:1378-1388 | Comparing runs and describing their values agree on extremes and median. |
| `WindowsQuoting.QuoteWindows` | src/runner.cpp:308-337 | The loop doubles backslashes exactly where a quote follows. |
| `WindowsQuoting.BuildCommandLine` | src/runner.cpp:350-355 | The quoted executable and arguments, separated by spaces. |
| `WindowsQuoting.WrittenVerbatim` | src/runner.cpp:308-312 | An argument is written as it is exactly when it is not empty and has no blank, tab or quote; otherwise it is quoted. |
| `WindowsQuoting.ArgumentsRoundTrip` | src/runner.cpp:308-355 | Parsing joined quoted arguments by Microsoft's rules returns the list, for all strings. |
| `WindowsQuoting.ProgramRoundTrip` | src/runner.cpp:350-350 | For every executable, the program-name rules read the quoted text back exactly when it has no quote and, if it must be quoted, no trailing backslash. |
| `WindowsQuoting.CommandLineRoundTrip` | src/runner.cpp:308-355 | The whole command line reaches the child unchanged exactly for such executables. |
| `Csv.EscapeField` | src/runner.cpp:115-131 | A field is wrapped in quotes with inner quotes doubled. |
| `Csv.WriteCsvValue` | src/monitoring.cpp:607-619 | The streaming writer appends the same escaped field. |
| `Csv.WriteColumn` | src/monitoring.cpp:622-642 | A column is comma-prefixed unless first, and empty when its value is absent. |
| `Csv.WriteRow` | src/monitoring.cpp:636-642 | A row is its columns joined with commas. |
| `Csv.FieldShape` | src/runner.cpp:115-131 | Every field is quoted, and is longer than its value by two and its quotes. |
| `Csv.RowJoins` | src/monitoring.cpp:622-642 | A row is its cells separated by commas: a quoted field for every value and nothing for an absent one. |
| `Csv.ParseCsvRow` | src/monitoring.cpp:286-316 | The scanning loop splits a line as the reference reader does. |
| `Csv.RowRoundTrip` | src/monitoring.cpp:286-316 | A written row reads back column by column exactly when it has a column, whatever commas, quotes or line breaks its fields hold. |
| `Csv.PlainLine` | src/monitoring.cpp:286-316 | A line without quotes is split at exactly its commas and loses exactly its carriage returns. |
| `BenchmarkPlan.BuildBenchmarkPlan` | src/runner.cpp:920-951 | The nested loops list every repetition's rotated profiles with their prefixes. |
| `BenchmarkPlan.PlanRotation` | src/runner.cpp:928-930 | In the plan each repetition runs every profile exactly once, at its rotated position. |
| `BenchmarkPlan.EveryProfileOnce` | src/runner.cpp:928-930 | The rotation is a bijection between positions and profiles. |
| `BenchmarkPlan.EveryPositionOnce` | src/runner.cpp:928-930 | Over n consecutive repetitions each profile takes each position exactly once. |
| `BenchmarkPlan.PrefixRoundTrip` | src/monitoring.cpp:1361-1376 | A generated prefix gives back name and repetition exactly when the name is non-empty and has no line break, even if it ends like "-r01". |
| `BenchmarkPlan.ProfileReads` | src/monitoring.cpp:1361-1376 | Any name, "-r" and representable number is read as that name and repetition. |
| `BenchmarkPlan.ProfileFallsBack` | src/monitoring.cpp:1361-1376 | Any other text is read as a name in repetition 1. |
| `BenchmarkPlan.PrefixesDistinct` | src/runner.cpp:938-938 | Distinct profile names give pairwise distinct prefixes over the whole plan. |

## Left out

- Event library: endpoints, subscriptions, transport and event classes; only the fields the code reads are modelled, and
  the wire is the sequence of published events.
- Threads: mutexes, condition variables, the yield loop, waits with a timeout, the stop flag and signals.
- Event object reuse: published events are values; that no object is used twice within a publication is proved
  (`PublicationLaws.PublicationDistinct`), aliasing across publications is not modelled.
- Prices and sizes of Quote, Trade, TradeETH and Summary: nothing reads them.
- Random numbers: the generator's mixing function and the combination of seed, publication and pool are arbitrary
  functions; only the reduction to a range is modelled.
- Floating-point rounding in statistics, percentiles and bid sizes.
- Wrap-around of 64-bit counters and of nanosecond arithmetic; the 32-bit tick does wrap in the model.
- Reporter, Markdown and CSV report layout, console output and logs, including the generator's timing summaries and the
  time at which a task was started for them.
- Error message texts: parse errors keep their position and a name for the fault.
- Column lookup in reports, log scraping, calendar and local time, directory scanning and git queries.
- Child processes, resource sampling, the legacy client and the delivery-only client.
- Command-line parsing and the key/value format of suite files, long but shallow.
- The symbol list of a single event kind, a leading part of the universe.
- The columns of a planned run other than profile, repetition and prefix: defaults copied from the suite.
- Artificial listener delay: it only moves the observation time, which is an input.
- Tracing of subscription counts and snapshot ranges.
- GeneratorLaws.PlannedPublications: bounds the publications made before a duration has passed from above; how many are
  made depends on clock readings.
- ServerSnapshots.ServerToTracker: covers runs that request each symbol once; a symbol answered again, after a removal or
  not, gets a second snapshot, and no such run can be accepted (`RequestAnswers.AcceptedOnce`). That its retained records
  are pairwise distinct follows until publication numbers wrap around (`ServerSnapshots.NumberedServerToTracker`).
- RunFairness.RunFair: counts Quote, Trade, TradeETH and Summary events; TimeAndSale events of unsubscribed symbols are
  retained but not published.
- EarlyRequests.EarlyRunPremature: one run of one pattern, with the configured active symbol count left out.
- EndToEnd.LosslessRun: covers publications numbered 1 to one less than the largest sequence; after the wrap-around the
  client would meet sequence 0, which it rejects on a Quote, and reused sequences.
