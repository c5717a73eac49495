/** How the client reads publication identities off the wire (src/client.cpp). */
module Markers {
  import opened Common
  import opened Events
  import D = Decimal

  const INT64_MAX := 0x7FFF_FFFF_FFFF_FFFF
  const MARKER_PREFIX := "LATENCY_BATCH:"

  /** Text of the timestamp marker that the server publishes. */
  function MarkerText(timeNanos: nat): string {
    MARKER_PREFIX + D.ToString(timeNanos)
  }

  /** The positive timestamp in a marker text; anything else, a negative number included, carries none. */
  function MarkerTimestamp(text: string): Option<int> {
    if !(MARKER_PREFIX <= text) then None else
    var number := text[|MARKER_PREFIX|..];
    match D.FromChars(number, INT64_MAX)
    case Number(value, length) => if length == |number| && value > 0 then Some(value) else None
    case _ => None
  }

  lemma MarkerRoundTrip(timeNanos: nat)
    ensures MarkerTimestamp(MarkerText(timeNanos)) == Some(timeNanos) <==> 0 < timeNanos <= INT64_MAX
  {
    var digits := D.ToString(timeNanos);
    assert MarkerText(timeNanos)[|MARKER_PREFIX|..] == digits && digits + "" == digits;
    if timeNanos <= INT64_MAX {
      D.FromCharsPrinted(timeNanos, "", INT64_MAX);
    }
  }

  /** What correlates a market event with its publication. */
  datatype Description = Description(kind: MarketKind, symbol: string, sequence: int, sourceMs: Option<int>)

  /** The sequence that a bid size encodes, if it encodes one. */
  function EncodedSequence(size: Double, maxSequence: int): Option<int> {
    if size.Finite? && 0.0 < size.value < maxSequence as real && size.value == size.value.Floor as real
    then Some(size.value.Floor) else None
  }

  function Describe(event: WireEvent, maxSequence: int): Option<Description> {
    match event
    case QuoteEvent(symbol, bidSize) =>
      var sequence := EncodedSequence(bidSize, maxSequence);
      if sequence.Some? then Some(Description(Quote, symbol, sequence.value, None)) else None
    case TradeEvent(symbol, sequence, timeNanos) =>
      Some(Description(Trade, symbol, sequence, Some(TruncDiv(timeNanos, NANOS_PER_MILLI))))
    case TradeEthEvent(symbol, sequence, timeNanos) =>
      Some(Description(TradeEth, symbol, sequence, Some(TruncDiv(timeNanos, NANOS_PER_MILLI))))
    case SummaryEvent(symbol, dayId) => Some(Description(Summary, symbol, dayId, None))
    case _ => None
  }

  /** A bid size encodes a sequence exactly when it is that number and lies strictly between 0 and the maximum. */
  lemma EncodedMeans(size: Double, maxSequence: int, n: int)
    ensures EncodedSequence(size, maxSequence) == Some(n) <==> 0 < n < maxSequence && size == Finite(n as real)
  {
  }

  /** A text is a marker exactly when it is the prefix and digits that denote a positive 64-bit number. */
  lemma MarkerMeans(text: string, timestamp: int)
    ensures MarkerTimestamp(text) == Some(timestamp) <==>
      exists digits :: IsMarker(text, digits, timestamp)
  {
    if MarkerTimestamp(text) == Some(timestamp) {
      var digits := text[|MARKER_PREFIX|..];
      assert digits[..|digits|] == digits && text == MARKER_PREFIX + digits;
      assert IsMarker(text, digits, timestamp);
    }
    if digits :| IsMarker(text, digits, timestamp) {
      assert text[|MARKER_PREFIX|..] == digits && digits + "" == digits;
      D.DigitPrefixOf(digits, "");
    }
  }

  predicate IsMarker(text: string, digits: string, timestamp: int) {
    && text == "LATENCY_BATCH:" + digits && digits != "" && D.AllDigits(digits)
    && D.Value(digits) == timestamp && 0 < timestamp <= 0x7FFF_FFFF_FFFF_FFFF
  }

  /** A sequence written as a bid size reads back exactly when it lies strictly between 0 and the maximum. */
  lemma EncodedSequenceRoundTrip(sequence: int, maxSequence: int)
    ensures EncodedSequence(Finite(sequence as real), maxSequence) == Some(sequence) <==> 0 < sequence < maxSequence
  {
  }
}
