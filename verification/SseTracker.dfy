/** The tracker object, proved against the value model, and two streams on which the size guard
    depends on where the chunks were cut. */
module SseTracker {
  import opened Prelude
  import opened ProxyLedgerSpec
  import opened SseSpec
  import opened SseProofs
  import Events = SseEvents

  class SSECompletionTracker {
    const maxEvent: int
    const decode: Decoder
    var buffer: Bytes
    var responseId: Option<string>
    var input: Option<nat>
    var output: Option<nat>
    var created: bool
    var completed: bool
    var done: bool
    var terminal: Bytes

    function State(): Tracker
      reads this
    {
      Tracker(maxEvent, buffer, responseId, input, output, created, completed, done, terminal)
    }

    constructor (maxEvent: int, decode: Decoder)
      ensures this.maxEvent == maxEvent && this.decode == decode
      ensures State() == Fresh(maxEvent)
    {
      this.maxEvent, this.decode := maxEvent, decode;
      buffer, terminal := [], [];
      responseId, input, output := None, None, None;
      created, completed, done := false, false, false;
    }

    /** Read the lines of one event: each must be data, and the payloads are joined by LF. */
    method ReadItem(event: Bytes) returns (item: Item)
      ensures item == ItemOf(decode, event)
    {
      hide SplitLf, CrlfToLf, JoinLf, StripSpaces;
      var lines := SplitLf(CrlfToLf(event));
      var payloads, i := [], 0;
      assert lines[0..] == lines && forall r: seq<Bytes> :: payloads + r == r;
      while i < |lines|
        invariant 0 <= i <= |lines|
        invariant var rest := DataLines(lines[i..]);
                  DataLines(lines) == if rest.None? then None else Some(payloads + rest.value)
      {
        assert lines[i..][1..] == lines[i+1..];
        if !IsDataLine(lines[i]) {
          return NonData;
        }
        var payload := StripSpaces(lines[i][5..]);
        ghost var rest := DataLines(lines[i+1..]);
        if rest.Some? { assert payloads + ([payload] + rest.value) == (payloads + [payload]) + rest.value; }
        payloads := payloads + [payload];
        i := i + 1;
      }
      assert payloads + [] == payloads;
      var data := JoinLf(payloads);
      item := if data == DONE_MARK then DoneMark else Json(decode(data));
    }

    /** Interpret one complete event; on an error the fields written so far stay written. */
    method ConsumeEvent(event: Bytes, wire: Bytes) returns (forward: bool, error: Option<SseError>)
      modifies this
      ensures var c := Consume(old(State()), ItemOf(decode, event), wire);
              && (c.Consumed? ==> error.None? && forward == c.forward && State() == c.tracker)
              && (c.Raised? ==> error == Some(c.error) && State() == c.at)
    {
      forward := false;
      var item := ReadItem(event);
      if item.NonData? {
        return false, Some(StreamAmbiguous("BROKER_PROXY_SSE_NON_DATA_EVENT"));
      }
      if item.DoneMark? {
        if !completed || done {
          return false, Some(StreamAmbiguous("BROKER_PROXY_SSE_DONE_BEFORE_COMPLETE"));
        }
        done, terminal := true, terminal + wire;
        return false, None;
      }
      match item.decoded {
        case JsonInvalid => return false, Some(StreamAmbiguous("BROKER_PROXY_SSE_JSON_INVALID"));
        case NotAnEvent => return false, Some(StreamAmbiguous("BROKER_PROXY_SSE_EVENT_INVALID"));
        case Message(kind, response) =>
          forward, error := ConsumeMessage(kind, response, wire);
      }
    }

    method ConsumeMessage(kind: string, response: Option<ResponseField>, wire: Bytes)
      returns (forward: bool, error: Option<SseError>)
      modifies this
      ensures var c := Consume(old(State()), Json(Message(kind, response)), wire);
              && (c.Consumed? ==> error.None? && forward == c.forward && State() == c.tracker)
              && (c.Raised? ==> error == Some(c.error) && State() == c.at)
    {
      forward := false;
      if completed {
        return false, Some(StreamAmbiguous("BROKER_PROXY_SSE_EVENT_AFTER_COMPLETE"));
      }
      if response.Some? && !response.value.id.NoId? {
        var id := response.value.id;
        if id.BadId? || !SseSpec.ProxyLedgerSpec.ValidResponseId(id.id) || (responseId.Some? && responseId.value != id.id) {
          return false, Some(StreamAmbiguous("BROKER_PROXY_RESPONSE_ID_INVALID"));
        }
        responseId := Some(id.id);
      }
      if kind == "response.created" {
        if created || response.None? || responseId.None? {
          return false, Some(StreamAmbiguous("BROKER_PROXY_SSE_CREATED_INVALID"));
        }
        created := true;
        return true, None;
      }
      if !created {
        return false, Some(StreamAmbiguous("BROKER_PROXY_SSE_EVENT_BEFORE_CREATED"));
      }
      if kind == "response.failed" || kind == "response.incomplete" {
        return false, Some(TerminalFailure("BROKER_PROXY_UPSTREAM_TERMINAL_FAILURE"));
      }
      if kind == "response.completed" {
        if response.None? {
          return false, Some(StreamAmbiguous("BROKER_PROXY_SSE_COMPLETION_INVALID"));
        }
        match response.value.usage {
          case UsageMissing => return false, Some(StreamAmbiguous("BROKER_PROXY_SSE_USAGE_MISSING"));
          case UsageInvalid => return false, Some(StreamAmbiguous("BROKER_PROXY_SSE_USAGE_INVALID"));
          case Usage(i, o) =>
            input, output, completed, terminal := Some(i), Some(o), true, terminal + wire;
            return false, None;
        }
      }
      return true, None;
    }

    /** `bytes.find` for LF-LF (wide = false) or CRLF-CRLF (wide = true). */
    method Find(wide: bool) returns (at: int)
      ensures at == -1 ==> forall j :: 0 <= j ==> !(if wide then CrlfCrlfAt(buffer, j) else LfLfAt(buffer, j))
      ensures at != -1 ==> 0 <= at && (if wide then CrlfCrlfAt(buffer, at) else LfLfAt(buffer, at))
                           && forall j :: 0 <= j < at ==> !(if wide then CrlfCrlfAt(buffer, j) else LfLfAt(buffer, j))
    {
      at := 0;
      while at < |buffer|
        invariant 0 <= at <= |buffer|
        invariant forall j :: 0 <= j < at ==> !(if wide then CrlfCrlfAt(buffer, j) else LfLfAt(buffer, j))
      {
        if if wide then CrlfCrlfAt(buffer, at) else LfLfAt(buffer, at) {
          return;
        }
        at := at + 1;
      }
      at := -1;
    }

    /** The earlier of the two delimiters, as the loop of `feed` computes it. */
    method FindBoundary() returns (boundary: Option<nat>)
      ensures boundary == Boundary(buffer)
    {
      var lf := Find(false);
      var crlf := Find(true);
      if lf == -1 && crlf == -1 {
        return None;
      }
      var at := if lf == -1 || (crlf != -1 && crlf < lf) then crlf else lf;
      EarliestIsUnique(buffer, at);
      boundary := Some(at);
    }

    /** Feed one chunk.  A rejection discards the events collected from this chunk. */
    method Feed(chunk: Bytes) returns (forward: seq<Bytes>, error: Option<SseError>)
      modifies this
      ensures var fed := SseSpec.Feed(decode, old(State()), chunk);
              && State() == fed.tracker && error == fed.error
              && forward == (if error.None? then fed.forwarded else [])
    {
      if chunk == [] {
        return [], None;
      }
      buffer := buffer + chunk;
      var lf := Find(false);
      assert HasLfLf(buffer) <==> lf != -1 by {
        assert lf != -1 ==> LfLfAt(buffer, lf);
      }
      if |buffer| > maxEvent && lf == -1 {
        return [], Some(TOO_LARGE);
      }
      forward, error := DrainBuffer();
    }

    method DrainBuffer() returns (forward: seq<Bytes>, error: Option<SseError>)
      modifies this
      ensures var fed := Drain(decode, old(State()));
              && State() == fed.tracker && error == fed.error
              && forward == (if error.None? then fed.forwarded else [])
    {
      hide Consume, Drain, ItemOf;
      ghost var whole := Drain(decode, State());
      forward := [];
      var boundary := FindBoundary();
      while boundary.Some?
        invariant boundary == Boundary(buffer)
        invariant var rest := Drain(decode, State());
                  whole == Fed(rest.tracker, forward + rest.forwarded, rest.error)
        decreases |buffer|
      {
        var event;
        event, error := TakeEvent(boundary.value);
        if error.Some? {
          return [], error;
        }
        assert forward + (event + Drain(decode, State()).forwarded) == (forward + event) + Drain(decode, State()).forwarded;
        forward := forward + event;
        boundary := FindBoundary();
      }
      DrainStops(decode, State());
      assert forward + [] == forward;
      error := None;
    }

    /** Cut the event that ends at the boundary and interpret it. */
    method TakeEvent(boundary: nat) returns (forward: seq<Bytes>, error: Option<SseError>)
      requires Boundary(buffer) == Some(boundary)
      modifies this
      ensures var before, after := Drain(decode, old(State())), Drain(decode, State());
              && (error.Some? ==> before == Fed(State(), [], error))
              && (error.None? ==> before == Fed(after.tracker, forward + after.forwarded, after.error))
              && (error.None? ==> |buffer| < old(|buffer|))
    {
      hide Consume, Drain, ItemOf;
      DrainCases(decode, State());
      var size := if buffer[boundary] == CR then 4 else 2;
      var event, wire := buffer[..boundary], buffer[..boundary + size];
      buffer := buffer[boundary + size..];
      if |event| > maxEvent {
        return [], Some(TOO_LARGE);
      }
      ConsumeKeepsBuffer(State(), ItemOf(decode, event), wire);
      var passes;
      passes, error := ConsumeEvent(event, wire);
      forward := if passes then [wire] else [];
    }

    method Finish() returns (f: SseSpec.Finish)
      ensures f == FinishOf(State())
    {
      var i := 0;
      while i < |buffer|
        invariant 0 <= i <= |buffer|
        invariant forall j :: 0 <= j < i ==> Whitespace(buffer[j])
      {
        if !Whitespace(buffer[i]) {
          return Unfinished("BROKER_PROXY_SSE_TRUNCATED");
        }
        i := i + 1;
      }
      if !created || !completed || responseId.None? || input.None? || output.None? {
        return Unfinished("BROKER_PROXY_SSE_COMPLETION_MISSING");
      }
      f := Finished(responseId.value, input.value, output.value, terminal);
    }
  }

  /** One step of `Drain`, with every field of the outcome. */
  lemma DrainCases(decode: Decoder, t: Tracker)
    requires Boundary(t.buffer).Some?
    ensures var p := Boundary(t.buffer).value;
            var cut := p + DelimiterSize(t.buffer, p);
            && cut <= |t.buffer|
            && var rest := t.(buffer := t.buffer[cut..]);
               var c := Consume(rest, ItemOf(decode, t.buffer[..p]), t.buffer[..cut]);
               && (p > t.maxEvent ==> Drain(decode, t) == Fed(rest, [], Some(TOO_LARGE)))
               && (p <= t.maxEvent && c.Raised? ==> Drain(decode, t) == Fed(c.at, [], Some(c.error)))
               && (p <= t.maxEvent && c.Consumed? ==>
                     var next := Drain(decode, c.tracker);
                     Drain(decode, t) == Fed(next.tracker, (if c.forward then [t.buffer[..cut]] else []) + next.forwarded, next.error))
  {
    hide Consume, ItemOf;
    var p := Boundary(t.buffer).value;
    var cut := p + DelimiterSize(t.buffer, p);
    ConsumeKeepsBuffer(t.(buffer := t.buffer[cut..]), ItemOf(decode, t.buffer[..p]), t.buffer[..cut]);
  }

  // ---- Where the size guard and the chunks meet ------------------------------------------

  /** A one-line payload the decoder sees unchanged. */
  predicate Line(x: Bytes) {
    x != [] && x[0] != SPACE && x != DONE_MARK && forall i :: 0 <= i < |x| ==> x[i] != CR && x[i] != LF
  }

  function LineEvent(x: Bytes): Bytes {
    DATA_PREFIX + x
  }

  lemma LineEventItem(decode: Decoder, x: Bytes)
    requires Line(x)
    ensures ItemOf(decode, LineEvent(x)) == Json(decode(x))
  {
    assert LineEvent(x) == Events.DataLine(0, x);
    Events.OneDataLine(decode, 0, x);
  }

  /** Draining one line event and its delimiter, alone in the buffer. */
  lemma DrainLine(decode: Decoder, t: Tracker, x: Bytes, delimiter: Bytes)
    requires Line(x) && |LineEvent(x)| <= t.maxEvent
    requires delimiter == [LF, LF] || delimiter == [CR, LF, CR, LF]
    requires t.buffer == LineEvent(x) + delimiter
    requires Consume(t.(buffer := []), Json(decode(x)), t.buffer).Consumed?
    ensures Drain(decode, t).error.None? && Drain(decode, t).tracker == Consume(t.(buffer := []), Json(decode(x)), t.buffer).tracker
  {
    hide Consume, Drain, ItemOf;
    var e := LineEvent(x);
    forall j | 0 <= j < |e| ensures !DelimiterAt(t.buffer, j) { assert t.buffer[j] == e[j]; if j >= 5 { assert e[j] == x[j - 5]; } }
    assert forall j :: 0 <= j < |delimiter| ==> t.buffer[|e| + j] == delimiter[j];
    assert DelimiterAt(t.buffer, |e|) && DelimiterSize(t.buffer, |e|) == |delimiter|;
    EarliestIsUnique(t.buffer, |e|);
    assert t.buffer[..|e|] == e && t.buffer[..|t.buffer|] == t.buffer && t.buffer[|t.buffer|..] == [];
    LineEventItem(decode, x);
    ConsumeKeepsBuffer(t.(buffer := []), Json(decode(x)), t.buffer);
    DrainCases(decode, t);
    DrainStops(decode, Consume(t.(buffer := []), Json(decode(x)), t.buffer).tracker);
  }

  /** The first event of a stream, and an event that passes once the stream is open. */
  predicate Creates(decoded: Decoded) {
    && decoded.Message? && decoded.kind == "response.created" && decoded.response.Some?
    && decoded.response.value.id.GoodId? && ValidResponseId(decoded.response.value.id.id)
  }

  predicate PassesAnywhere(decoded: Decoded) {
    && decoded.Message? && decoded.response.None?
    && decoded.kind != "response.created" && decoded.kind != "response.completed"
    && decoded.kind != "response.failed" && decoded.kind != "response.incomplete"
  }

  lemma CreatedIsConsumed(maxEvent: int, decoded: Decoded, wire: Bytes)
    requires Creates(decoded)
    ensures Consume(Fresh(maxEvent), Json(decoded), wire)
            == Consumed(Fresh(maxEvent).(created := true, responseId := Some(decoded.response.value.id.id)), true)
  {
  }

  lemma PassIsConsumed(t: Tracker, decoded: Decoded, wire: Bytes)
    requires t.created && !t.completed && PassesAnywhere(decoded)
    ensures Consume(t, Json(decoded), wire) == Consumed(t, true)
  {
  }

  lemma FeedAllPair(decode: Decoder, t: Tracker, x: Bytes, y: Bytes)
    ensures FeedAll(decode, t, [x, y])
            == (var first := Feed(decode, t, x);
                var second := Feed(decode, first.tracker, y);
                if first.error.Some? then first else Fed(second.tracker, first.forwarded + second.forwarded, second.error))
  {
    hide Feed;
    var pair: seq<Bytes>, last: seq<Bytes> := [x, y], [y];
    assert pair[1..] == last && last[1..] == [];
    var first := Feed(decode, t, x);
    var second := Feed(decode, first.tracker, y);
    assert FeedAll(decode, second.tracker, []) == Fed(second.tracker, [], None);
    assert second.forwarded + [] == second.forwarded;
  }

  lemma FeedAllSingle(decode: Decoder, t: Tracker, x: Bytes)
    ensures FeedAll(decode, t, [x]) == Feed(decode, t, x)
  {
    hide Feed;
    var one: seq<Bytes> := [x];
    assert one[1..] == [];
    assert Feed(decode, t, x).forwarded + [] == Feed(decode, t, x).forwarded;
  }

  /** For every decoder and every limit a contract allows: a created event of exactly the permitted
      size passes in one chunk, and is rejected when the chunk ends inside its delimiter. */
  lemma GuardRejectsSplitDelimiter(decode: Decoder, m: int, x: Bytes)
    requires m >= 1024 && |x| == m - 5 && Line(x) && Creates(decode(x))
    ensures FeedAll(decode, Fresh(m), [LineEvent(x) + [LF, LF]]).error.None?
    ensures FeedAll(decode, Fresh(m), [LineEvent(x) + [LF], [LF]]).error == Some(TOO_LARGE)
  {
    hide Consume, Drain, ItemOf;
    var e := LineEvent(x);
    var whole, part := e + [LF, LF], e + [LF];
    var t := Fresh(m).(buffer := [] + whole);
    assert t.buffer == whole && LfLfAt(t.buffer, m);
    CreatedIsConsumed(m, decode(x), whole);
    assert Fresh(m) == t.(buffer := []);
    DrainLine(decode, t, x, [LF, LF]);
    FeedAllSingle(decode, Fresh(m), whole);
    assert [] + part == part;
    forall i | 0 <= i < |part| ensures !LfLfAt(part, i) { if 5 <= i < m { assert part[i] == x[i - 5]; } }
    FeedAllPair(decode, Fresh(m), part, [LF]);
  }

  /** The converse: two CRLF events that each fit are rejected in one chunk, because the guard looks
      for LF-LF only, and pass when fed one by one. */
  lemma GuardRejectsJoinedCrlfEvents(decode: Decoder, m: int, x: Bytes, y: Bytes)
    requires m >= 1024 && Line(x) && Line(y) && Creates(decode(x)) && PassesAnywhere(decode(y))
    requires |x| + 9 <= m && |y| + 9 <= m && |x| + |y| + 18 > m
    ensures var e, f := LineEvent(x) + [CR, LF, CR, LF], LineEvent(y) + [CR, LF, CR, LF];
            && FeedAll(decode, Fresh(m), [e + f]).error == Some(TOO_LARGE)
            && FeedAll(decode, Fresh(m), [e, f]).error.None?
  {
    hide Consume, Drain, ItemOf;
    var e, f := LineEvent(x) + [CR, LF, CR, LF], LineEvent(y) + [CR, LF, CR, LF];
    NoLfLf(x);
    NoLfLf(y);
    JoinedNoLfLf(e, f);
    assert [] + (e + f) == e + f;
    FeedAllSingle(decode, Fresh(m), e + f);
    var t := Fresh(m).(buffer := [] + e);
    assert t.buffer == e && Fresh(m) == t.(buffer := []);
    CreatedIsConsumed(m, decode(x), e);
    DrainLine(decode, t, x, [CR, LF, CR, LF]);
    var u := Drain(decode, t).tracker;
    var v := u.(buffer := [] + f);
    assert v.buffer == f && v.(buffer := []) == u;
    PassIsConsumed(u, decode(y), f);
    DrainLine(decode, v, y, [CR, LF, CR, LF]);
    assert Feed(decode, Fresh(m), e) == Drain(decode, t) && Feed(decode, u, f) == Drain(decode, v);
    FeedAllPair(decode, Fresh(m), e, f);
  }

  lemma NoLfLf(x: Bytes)
    requires Line(x)
    ensures forall i :: !LfLfAt(LineEvent(x) + [CR, LF, CR, LF], i)
  {
    var e := LineEvent(x) + [CR, LF, CR, LF];
    forall i | 0 <= i < |e| ensures !LfLfAt(e, i) { if 5 <= i < 5 + |x| { assert e[i] == x[i - 5]; } }
  }

  lemma JoinedNoLfLf(e: Bytes, f: Bytes)
    requires (forall i :: !LfLfAt(e, i)) && (forall i :: !LfLfAt(f, i)) && f != [] && f[0] != LF
    ensures !HasLfLf(e + f)
  {
    forall i | 0 <= i < |e + f| ensures !LfLfAt(e + f, i) {
      if i + 1 < |e| { assert !LfLfAt(e, i); } else if i >= |e| { assert !LfLfAt(f, i - |e|); }
    }
  }
}
