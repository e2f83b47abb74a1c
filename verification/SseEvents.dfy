/** What the bytes of a stream mean, without the tracker's own functions: events between delimiters,
    lines between line ends, payloads after their spaces, and the events that end a stream badly. */
module SseEvents {
  import opened Prelude
  import opened ProxyLedgerSpec
  import opened SseSpec
  import opened SseProofs

  /** The bytes of an ASCII string. */
  function Ascii(s: string): Bytes
    requires forall i :: 0 <= i < |s| ==> s[i] as int < 128
  {
    seq(|s|, i requires 0 <= i < |s| => s[i] as int)
  }

  function Spaces(n: nat): Bytes {
    seq(n, _ => 32)
  }

  /** Lines joined by their line ends: CRLF where `wide`, LF elsewhere. */
  function Woven(lines: seq<Bytes>, wide: seq<bool>): Bytes
    requires |lines| == |wide| + 1
  {
    if wide == [] then lines[0]
    else lines[0] + LineEnd(wide[0]) + Woven(lines[1..], wide[1..])
  }

  function LineEnd(wide: bool): Bytes {
    if wide then [13, 10] else [10]
  }

  /** No line contains LF, and a CR before an LF belongs to the line end. */
  predicate Lines(lines: seq<Bytes>, wide: seq<bool>) {
    && |lines| == |wide| + 1
    && (forall i :: 0 <= i < |lines| ==> NoLf(lines[i]))
    && (forall i :: 0 <= i < |wide| && !wide[i] ==> !EndsInCr(lines[i]))
  }

  predicate NoLf(b: Bytes) {
    forall i :: 0 <= i < |b| ==> b[i] != 10
  }

  predicate EndsInCr(b: Bytes) {
    b != [] && b[|b|-1] == 13
  }

  function Narrow(n: nat): seq<bool> {
    seq(n, _ => false)
  }

  // ---- Lines -----------------------------------------------------------------------------

  lemma {:induction false} CrlfAfterLine(x: Bytes, rest: Bytes)
    requires NoLf(x) && (EndsInCr(x) ==> rest == [] || rest[0] != LF)
    ensures CrlfToLf(x + rest) == x + CrlfToLf(rest)
  {
    if x == [] {
      assert x + rest == rest;
    } else {
      assert (x + rest)[1..] == x[1..] + rest;
      assert x[1..] != [] ==> x[1..][|x|-2] == x[|x|-1];
      CrlfAfterLine(x[1..], rest);
    }
  }

  lemma CrlfAtLineEnd(wide: bool, rest: Bytes)
    ensures CrlfToLf(LineEnd(wide) + rest) == [LF] + CrlfToLf(rest)
  {
    var b := LineEnd(wide) + rest;
    assert b[|LineEnd(wide)|..] == rest;
  }

  /** CRLF line ends read as LF line ends. */
  lemma {:induction false} CrlfReadsAsLf(lines: seq<Bytes>, wide: seq<bool>)
    requires Lines(lines, wide)
    ensures CrlfToLf(Woven(lines, wide)) == Woven(lines, Narrow(|wide|))
    decreases |lines|
  {
    hide CrlfToLf;
    if wide == [] {
      CrlfAfterLine(lines[0], []);
      assert lines[0] + [] == lines[0];
      CrlfOfNothing();
    } else {
      var rest := Woven(lines[1..], wide[1..]);
      assert Woven(lines, wide) == lines[0] + (LineEnd(wide[0]) + rest);
      CrlfAfterLine(lines[0], LineEnd(wide[0]) + rest);
      CrlfAtLineEnd(wide[0], rest);
      CrlfReadsAsLf(lines[1..], wide[1..]);
      assert Narrow(|wide|)[1..] == Narrow(|wide[1..]|);
      assert lines[0] + ([LF] + CrlfToLf(rest)) == lines[0] + LineEnd(false) + CrlfToLf(rest);
    }
  }

  lemma CrlfOfNothing()
    ensures CrlfToLf([]) == []
  {
  }

  lemma {:induction false} SplitAfterLine(x: Bytes, rest: Bytes)
    requires NoLf(x)
    ensures SplitLf(x + [LF] + rest) == [x] + SplitLf(rest)
  {
    if x == [] {
      assert (x + [LF] + rest)[1..] == rest;
    } else {
      assert (x + [LF] + rest)[1..] == x[1..] + [LF] + rest;
      SplitAfterLine(x[1..], rest);
      assert [x[0]] + x[1..] == x;
    }
  }

  lemma {:induction false} SplitLast(x: Bytes)
    requires NoLf(x)
    ensures SplitLf(x) == [x]
  {
    if x != [] {
      SplitLast(x[1..]);
      assert [x[0]] + x[1..] == x;
    }
  }

  /** Splitting gives back exactly the lines, whatever their line ends. */
  lemma {:induction false} LinesAreSplit(lines: seq<Bytes>)
    requires |lines| > 0 && forall i :: 0 <= i < |lines| ==> NoLf(lines[i])
    ensures SplitLf(Woven(lines, Narrow(|lines| - 1))) == lines
    decreases |lines|
  {
    hide SplitLf;
    var wide := Narrow(|lines| - 1);
    if |lines| == 1 {
      SplitLast(lines[0]);
    } else {
      assert wide[1..] == Narrow(|lines| - 2);
      LinesAreSplit(lines[1..]);
      SplitAfterLine(lines[0], Woven(lines[1..], wide[1..]));
      assert lines == [lines[0]] + lines[1..];
    }
  }

  /** Every event is woven from lines in this way. */
  lemma {:induction false} EveryEventHasLines(e: Bytes) returns (lines: seq<Bytes>, wide: seq<bool>)
    ensures Lines(lines, wide) && Woven(lines, wide) == e
    decreases |e|
  {
    if i :| 0 <= i < |e| && e[i] == 10 {
      var k := FirstLf(e);
      var w := k > 0 && e[k-1] == 13;
      var x := e[..if w then k - 1 else k];
      var ls, ws := EveryEventHasLines(e[k+1..]);
      lines, wide := [x] + ls, [w] + ws;
      assert lines[1..] == ls && wide[1..] == ws;
      assert e == x + LineEnd(w) + e[k+1..];
    } else {
      lines, wide := [e], [];
    }
  }

  lemma {:induction false} FirstLf(e: Bytes) returns (k: nat)
    requires !NoLf(e)
    ensures k < |e| && e[k] == 10 && NoLf(e[..k])
    decreases |e|
  {
    if e[0] == 10 { k := 0; } else {
      var i :| 0 <= i < |e| && e[i] == 10;
      assert e[1..][i-1] == 10;
      var j := FirstLf(e[1..]);
      k := j + 1;
      forall m | 0 <= m < k ensures e[m] != 10 { if m > 0 { assert e[..k][m] == e[1..][..j][m-1]; } }
    }
  }

  // ---- Payloads --------------------------------------------------------------------------

  /** A data line: the field name, any number of spaces, and the payload. */
  function DataLine(spaces: nat, payload: Bytes): Bytes {
    Ascii("data:") + Spaces(spaces) + payload
  }

  predicate Payload(y: Bytes) {
    NoLf(y) && (y == [] || y[0] != 32)
  }

  lemma {:induction false} SpacesAreStripped(n: nat, y: Bytes)
    requires y == [] || y[0] != 32
    ensures StripSpaces(Spaces(n) + y) == y
  {
    if n == 0 {
      assert Spaces(0) + y == y;
    } else {
      assert (Spaces(n) + y)[1..] == Spaces(n - 1) + y;
      SpacesAreStripped(n - 1, y);
    }
  }

  lemma DataLineReads(n: nat, y: Bytes)
    requires y == [] || y[0] != 32
    ensures IsDataLine(DataLine(n, y)) && StripSpaces(DataLine(n, y)[5..]) == y
  {
    var line := DataLine(n, y);
    assert line[..5] == DATA_PREFIX && line[5..] == Spaces(n) + y;
    SpacesAreStripped(n, y);
  }

  lemma {:induction false} JoinIsWoven(ys: seq<Bytes>)
    requires |ys| > 0
    ensures JoinLf(ys) == Woven(ys, Narrow(|ys| - 1))
  {
    if |ys| > 1 {
      JoinIsWoven(ys[1..]);
      assert Narrow(|ys| - 1)[1..] == Narrow(|ys| - 2);
    }
  }

  lemma {:induction false} DataLinesRead(lines: seq<Bytes>, ns: seq<nat>, ys: seq<Bytes>)
    requires |lines| == |ns| == |ys|
    requires forall i :: 0 <= i < |ys| ==> Payload(ys[i]) && lines[i] == DataLine(ns[i], ys[i])
    ensures DataLines(lines) == Some(ys)
  {
    if lines != [] {
      DataLineReads(ns[0], ys[0]);
      DataLinesRead(lines[1..], ns[1..], ys[1..]);
      assert ys == [ys[0]] + ys[1..];
    }
  }

  lemma {:induction false} DataLinesMissing(lines: seq<Bytes>)
    ensures DataLines(lines).None? <==> exists i :: 0 <= i < |lines| && !(Ascii("data:") <= lines[i])
  {
    if lines != [] {
      assert IsDataLine(lines[0]) <==> Ascii("data:") <= lines[0];
      DataLinesMissing(lines[1..]);
      if i :| 0 <= i < |lines| && !(Ascii("data:") <= lines[i]) {
        if i > 0 { assert lines[1..][i-1] == lines[i]; }
      }
    }
  }

  lemma ItemOfLines(decode: Decoder, lines: seq<Bytes>, wide: seq<bool>)
    requires Lines(lines, wide)
    ensures SplitLf(CrlfToLf(Woven(lines, wide))) == lines
  {
    CrlfReadsAsLf(lines, wide);
    LinesAreSplit(lines);
  }

  /** An event is data exactly when every one of its lines starts with the field name. */
  lemma NonDataIff(decode: Decoder, lines: seq<Bytes>, wide: seq<bool>)
    requires Lines(lines, wide)
    ensures ItemOf(decode, Woven(lines, wide)).NonData? <==> exists i :: 0 <= i < |lines| && !(Ascii("data:") <= lines[i])
  {
    hide CrlfToLf, SplitLf, DataLines;
    ItemOfLines(decode, lines, wide);
    DataLinesMissing(lines);
  }

  /** Data lines with any spaces and any line ends: the payloads joined by LF are the mark, or go to the
      decoder. */
  lemma DataEventMeans(decode: Decoder, lines: seq<Bytes>, wide: seq<bool>, ns: seq<nat>, ys: seq<Bytes>)
    requires Lines(lines, wide) && |ns| == |ys| == |lines|
    requires forall i :: 0 <= i < |lines| ==> Payload(ys[i]) && lines[i] == DataLine(ns[i], ys[i])
    ensures var data := Woven(ys, Narrow(|wide|));
            ItemOf(decode, Woven(lines, wide)) == if data == Ascii("[DONE]") then DoneMark else Json(decode(data))
  {
    hide CrlfToLf, SplitLf, DataLines, JoinLf, DataLine, Payload, Lines, Woven;
    LineCount(lines, wide);
    ItemOfLines(decode, lines, wide);
    DataLinesRead(lines, ns, ys);
    JoinIsWoven(ys);
    MarkIsDone();
  }

  lemma LineCount(lines: seq<Bytes>, wide: seq<bool>)
    requires Lines(lines, wide)
    ensures |lines| == |wide| + 1
  {
  }

  lemma MarkIsDone()
    ensures DONE_MARK == Ascii("[DONE]")
  {
  }

  /** Every line that starts with the field name is one of those data lines. */
  lemma EveryDataLineHasAPayload(line: Bytes) returns (n: nat, y: Bytes)
    requires NoLf(line) && Ascii("data:") <= line
    ensures Payload(y) && line == DataLine(n, y)
  {
    n, y := SplitSpaces(line[5..]);
    assert line == Ascii("data:") + line[5..];
  }

  lemma {:induction false} SplitSpaces(b: Bytes) returns (n: nat, y: Bytes)
    requires NoLf(b)
    ensures b == Spaces(n) + y && Payload(y)
    decreases |b|
  {
    if b != [] && b[0] == 32 {
      n, y := SplitSpaces(b[1..]);
      n := n + 1;
      assert Spaces(n) == [32] + Spaces(n - 1);
      assert b == [32] + b[1..];
    } else {
      n, y := 0, b;
    }
  }

  // ---- What follows for one event --------------------------------------------------------

  /** Only the lines matter, not how they end. */
  lemma LineEndsDoNotMatter(decode: Decoder, lines: seq<Bytes>, wide: seq<bool>, other: seq<bool>)
    requires Lines(lines, wide) && Lines(lines, other)
    ensures ItemOf(decode, Woven(lines, wide)) == ItemOf(decode, Woven(lines, other))
  {
    ItemOfLines(decode, lines, wide);
    ItemOfLines(decode, lines, other);
  }

  lemma OneDataLine(decode: Decoder, n: nat, y: Bytes)
    requires Payload(y)
    ensures ItemOf(decode, DataLine(n, y)) == if y == Ascii("[DONE]") then DoneMark else Json(decode(y))
  {
    hide ItemOf;
    var line := DataLine(n, y);
    assert NoLf(line) by {
      forall i | 0 <= i < |line| ensures line[i] != 10 { if i >= 5 + n { assert line[i] == y[i - 5 - n]; } }
    }
    DataEventMeans(decode, [line], [], [n], [y]);
  }

  /** Spaces after the field name do not matter, and `[DONE]` after them is the mark. */
  lemma SpacesDoNotMatter(decode: Decoder, n: nat, x: Bytes)
    requires NoLf(x)
    ensures ItemOf(decode, DataLine(n, x)) == ItemOf(decode, DataLine(0, x))
    ensures ItemOf(decode, DataLine(n, x)).DoneMark? <==> exists m: nat :: x == Spaces(m) + Ascii("[DONE]")
  {
    hide ItemOf;
    var m, y := SplitSpaces(x);
    assert Spaces(n) + (Spaces(m) + y) == Spaces(n + m) + y;
    assert DataLine(n, x) == DataLine(n + m, y);
    assert DataLine(0, x) == DataLine(m, y);
    OneDataLine(decode, n + m, y);
    OneDataLine(decode, m, y);
    forall k: nat | x == Spaces(k) + Ascii("[DONE]") ensures y == Ascii("[DONE]") {
      SpacesAreStripped(k, Ascii("[DONE]"));
      SpacesAreStripped(m, y);
    }
  }

  // ---- Events ----------------------------------------------------------------------------

  function Delimiter(wide: bool): Bytes {
    if wide then [13, 10, 13, 10] else [10, 10]
  }

  /** Events, each followed by its delimiter, and a tail. */
  function Written(events: seq<Bytes>, wide: seq<bool>, tail: Bytes): Bytes
    requires |events| == |wide|
  {
    if events == [] then tail else events[0] + Delimiter(wide[0]) + Written(events[1..], wide[1..], tail)
  }

  /** No delimiter begins inside the event, even one that runs into its own. */
  predicate Undelimited(event: Bytes, wide: bool) {
    forall j :: 0 <= j < |event| ==> !DelimiterAt(event + Delimiter(wide), j)
  }

  lemma FirstEventOf(event: Bytes, wide: bool, rest: Bytes)
    requires Undelimited(event, wide)
    ensures Boundary(event + Delimiter(wide) + rest) == Some(|event|)
    ensures FirstCut(event + Delimiter(wide) + rest) == |event| + |Delimiter(wide)|
  {
    var b := event + Delimiter(wide);
    assert forall j :: 0 <= j < |Delimiter(wide)| ==> b[|event| + j] == Delimiter(wide)[j];
    assert DelimiterAt(b, |event|) && DelimiterSize(b, |event|) == |Delimiter(wide)|;
    EarliestIsUnique(b, |event|);
    BoundaryIsStable(b, rest);
  }

  /** The splitter finds exactly the written events, with either delimiter, and the tail. */
  lemma {:induction false} WrittenEventsAreFound(events: seq<Bytes>, wide: seq<bool>, tail: Bytes)
    requires |events| == |wide| && (forall i :: 0 <= i < |events| ==> Undelimited(events[i], wide[i]))
    requires Boundary(tail).None?
    ensures Events(Written(events, wide, tail)) == events && Tail(Written(events, wide, tail)) == tail
    decreases |events|
  {
    hide Undelimited;
    if events != [] {
      var rest := Written(events[1..], wide[1..], tail);
      FirstEventOf(events[0], wide[0], rest);
      WrittenEventsAreFound(events[1..], wide[1..], tail);
      var b := Written(events, wide, tail);
      assert b[..|events[0]|] == events[0] && b[FirstCut(b)..] == rest;
      assert events == [events[0]] + events[1..];
    }
  }

  // ---- The events that end a stream badly ------------------------------------------------

  /** Upstream says the response failed or stayed incomplete. */
  predicate Fails(item: Item, id: string) {
    && item.Json? && item.decoded.Message? && Names(item.decoded.response, id)
    && (item.decoded.kind == "response.failed" || item.decoded.kind == "response.incomplete")
  }

  /** Passing events, then one that fails, all within the size limit. */
  predicate FailsIn(decode: Decoder, maxEvent: int, events: seq<Bytes>, id: string) {
    && events != [] && |events[0]| <= maxEvent
    && (Fails(ItemOf(decode, events[0]), id)
        || (Passes(ItemOf(decode, events[0]), id) && FailsIn(decode, maxEvent, events[1..], id)))
  }

  /** An opened stream that fails. */
  predicate FailedStream(decode: Decoder, maxEvent: int, events: seq<Bytes>, id: string) {
    && events != [] && |events[0]| <= maxEvent && Opens(ItemOf(decode, events[0]), id)
    && FailsIn(decode, maxEvent, events[1..], id)
  }

  ghost predicate SomeResponseFails(decode: Decoder, maxEvent: int, b: Bytes) {
    exists id :: FailedStream(decode, maxEvent, Events(b), id)
  }

  predicate TerminalError(error: Option<SseError>) {
    error.Some? && error.value.TerminalFailure?
  }

  lemma ConsumeFails(t: Tracker, item: Item, wire: Bytes, id: string)
    requires t.created && !t.completed && t.responseId == Some(id) && ValidResponseId(id)
    ensures var c := Consume(t, item, wire);
            c.Raised? && c.error.TerminalFailure? <==> Fails(item, id)
  {
  }

  lemma ConsumeNeverFails(t: Tracker, item: Item, wire: Bytes)
    requires !t.created || t.completed
    ensures var c := Consume(t, item, wire); !(c.Raised? && c.error.TerminalFailure?)
    ensures t.completed && Consume(t, item, wire).Consumed? ==> Consume(t, item, wire).tracker.completed
  {
  }

  /** After the completion nothing is a terminal failure. */
  lemma {:induction false} ClosedNeverFails(decode: Decoder, t: Tracker)
    requires t.completed
    ensures !TerminalError(Drain(decode, t).error)
    decreases |t.buffer|
  {
    hide Consume, Drain, ItemOf;
    if Boundary(t.buffer).Some? {
      DrainUnfolds(decode, t);
      ConsumeNeverFails(t.(buffer := t.buffer[FirstCut(t.buffer)..]), ItemOf(decode, t.buffer[..Boundary(t.buffer).value]), t.buffer[..FirstCut(t.buffer)]);
      var c := FirstConsumed(decode, t);
      if c.Consumed? && Boundary(t.buffer).value <= t.maxEvent { ClosedNeverFails(decode, c.tracker); }
    } else {
      DrainStops(decode, t);
    }
  }

  lemma {:induction false} OpenStreamFails(decode: Decoder, t: Tracker, id: string)
    requires t.created && !t.completed && !t.done && t.responseId == Some(id) && ValidResponseId(id)
    ensures TerminalError(Drain(decode, t).error) <==> FailsIn(decode, t.maxEvent, Events(t.buffer), id)
    decreases |t.buffer|
  {
    hide Consume, Drain, ItemOf;
    if Boundary(t.buffer).Some? {
      DrainUnfolds(decode, t);
      var item := ItemOf(decode, t.buffer[..Boundary(t.buffer).value]);
      var rest, wire := t.buffer[FirstCut(t.buffer)..], t.buffer[..FirstCut(t.buffer)];
      assert Events(t.buffer)[0] == t.buffer[..Boundary(t.buffer).value] && Events(t.buffer)[1..] == Events(rest);
      ConsumeOpen(t.(buffer := rest), item, wire, id);
      ConsumeFails(t.(buffer := rest), item, wire, id);
      var c := FirstConsumed(decode, t);
      if c.Consumed? && Boundary(t.buffer).value <= t.maxEvent {
        if c.tracker.completed { ClosedNeverFails(decode, c.tracker); } else { OpenStreamFails(decode, c.tracker, id); }
      }
    } else {
      DrainStops(decode, t);
    }
  }

  /** A stream is reported as failed exactly when, after its opening and passing events, it says
      `response.failed` or `response.incomplete`. */
  lemma FailureIsReportedIff(decode: Decoder, maxEvent: int, b: Bytes)
    ensures TerminalError(Drain(decode, Fresh(maxEvent).(buffer := b)).error)
            <==> SomeResponseFails(decode, maxEvent, b)
  {
    hide Consume, Drain, ItemOf;
    var t := Fresh(maxEvent).(buffer := b);
    if Boundary(b).Some? {
      DrainUnfolds(decode, t);
      var item := ItemOf(decode, b[..Boundary(b).value]);
      var rest, wire := b[FirstCut(b)..], b[..FirstCut(b)];
      assert Events(b)[0] == b[..Boundary(b).value] && Events(b)[1..] == Events(rest);
      ConsumeFirst(t.(buffer := rest), item, wire);
      ConsumeNeverFails(t.(buffer := rest), item, wire);
      var c := FirstConsumed(decode, t);
      if c.Consumed? && Boundary(b).value <= maxEvent {
        var id := c.tracker.responseId.value;
        OpenStreamFails(decode, c.tracker, id);
        assert FailsIn(decode, maxEvent, Events(rest), id) <==> FailedStream(decode, maxEvent, Events(b), id);
        forall other | FailedStream(decode, maxEvent, Events(b), other) ensures other == id {}
      }
    } else {
      DrainStops(decode, t);
    }
  }

  /** The chunk after `before` brings the news, and the size guard lets it through. */
  ghost predicate SaysFailed(decode: Decoder, maxEvent: int, before: Bytes, chunk: Bytes) {
    && chunk != [] && !Oversized(maxEvent, Tail(before) + chunk)
    && SomeResponseFails(decode, maxEvent, before + chunk)
  }

  /** The same for one more chunk after a clean prefix. */
  lemma ChunkFailsIff(decode: Decoder, maxEvent: int, chunks: seq<Bytes>, chunk: Bytes)
    requires FeedAll(decode, Fresh(maxEvent), chunks).error.None?
    ensures TerminalError(Feed(decode, FeedAll(decode, Fresh(maxEvent), chunks).tracker, chunk).error)
            <==> SaysFailed(decode, maxEvent, Concat(chunks), chunk)
  {
    hide Consume, Drain, ItemOf, FeedAll, Feed, Oversized, Tail, SomeResponseFails;
    PrefixThenChunk(decode, maxEvent, chunks, chunk);
    FailureIsReportedIff(decode, maxEvent, Concat(chunks) + chunk);
  }

  /** Feeding a chunk after a clean prefix is draining the whole, once the guard lets it through. */
  lemma PrefixThenChunk(decode: Decoder, maxEvent: int, chunks: seq<Bytes>, chunk: Bytes)
    requires FeedAll(decode, Fresh(maxEvent), chunks).error.None?
    ensures Feed(decode, FeedAll(decode, Fresh(maxEvent), chunks).tracker, chunk).error
            == if chunk == [] then None
               else if Oversized(maxEvent, Tail(Concat(chunks)) + chunk) then Some(TOO_LARGE)
               else Drain(decode, Fresh(maxEvent).(buffer := Concat(chunks) + chunk)).error
  {
    hide Consume, Drain, ItemOf, FeedAll;
    FeedAllIsOnePass(decode, Fresh(maxEvent), chunks);
    var t := Fresh(maxEvent).(buffer := [] + Concat(chunks));
    assert t.buffer == Concat(chunks);
    DrainLeavesTail(decode, t);
    DrainSplits(decode, t, chunk);
    assert t.(buffer := t.buffer + chunk) == Fresh(maxEvent).(buffer := Concat(chunks) + chunk);
  }

  // ---- The end of a stream ---------------------------------------------------------------

  /** Only ASCII whitespace may follow the last event. */
  lemma TruncatedIff(t: Tracker)
    ensures FinishOf(t) == Unfinished("BROKER_PROXY_SSE_TRUNCATED")
            <==> exists i :: 0 <= i < |t.buffer| && t.buffer[i] !in Ascii(" \t\n\r") + [11, 12]
  {
    var ws := Ascii(" \t\n\r") + [11, 12];
    assert ws == [32, 9, 10, 13, 11, 12];
  }
}
