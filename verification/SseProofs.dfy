/** Chunking, conservation and the accepted grammar of the SSE completion tracker. */
module SseProofs {
  import opened Prelude
  import opened ProxyLedgerSpec
  import opened SseSpec

  // ---- Chunking does not matter ----------------------------------------------------------

  /** The earliest delimiter of a prefix stays earliest, with the same width, in every extension. */
  lemma BoundaryIsStable(b: Bytes, c: Bytes)
    requires Boundary(b).Some?
    ensures Boundary(b + c) == Boundary(b)
    ensures DelimiterSize(b + c, Boundary(b).value) == DelimiterSize(b, Boundary(b).value)
    ensures Boundary(b).value + DelimiterSize(b, Boundary(b).value) <= |b|
  {
    var p := Boundary(b).value;
    assert DelimiterAt(b + c, p);
    forall j | 0 <= j < p
      ensures !DelimiterAt(b + c, j)
    {
      assert !DelimiterAt(b, j);
      assert (b + c)[p+1] == b[p+1];
    }
    EarliestIsUnique(b + c, p);
  }

  lemma EarliestIsUnique(b: Bytes, p: nat)
    requires DelimiterAt(b, p) && forall j :: 0 <= j < p ==> !DelimiterAt(b, j)
    ensures Boundary(b) == Some(p)
  {
    var r := Boundary(b);
    assert r.Some? && !(r.value < p) && !(p < r.value);
  }

  lemma ConsumeIgnoresBuffer(t: Tracker, item: Item, wire: Bytes, b: Bytes)
    ensures var c, d := Consume(t, item, wire), Consume(t.(buffer := b), item, wire);
            && c.Consumed? == d.Consumed?
            && (c.Consumed? ==> d == Consumed(c.tracker.(buffer := b), c.forward))
            && (c.Raised? ==> d.error == c.error)
  {
    hide ConsumeKind;
    if item.Json? && item.decoded.Message? {
      var kind, response := item.decoded.kind, item.decoded.response;
      KindIgnoresBuffer(t, kind, response, wire, b);
      if response.Some? && response.value.id.GoodId? {
        KindIgnoresBuffer(t.(responseId := Some(response.value.id.id)), kind, response, wire, b);
      }
    }
  }

  lemma KindIgnoresBuffer(t: Tracker, kind: string, response: Option<ResponseField>, wire: Bytes, b: Bytes)
    ensures var c, d := ConsumeKind(t, kind, response, wire), ConsumeKind(t.(buffer := b), kind, response, wire);
            && c.Consumed? == d.Consumed?
            && (c.Consumed? ==> d == Consumed(c.tracker.(buffer := b), c.forward))
            && (c.Raised? ==> d.error == c.error)
  {
  }

  /** The first event of a non-empty drain, named. */
  function FirstCut(b: Bytes): nat
    requires Boundary(b).Some?
    ensures FirstCut(b) <= |b| && FirstCut(b) > Boundary(b).value
  {
    Boundary(b).value + DelimiterSize(b, Boundary(b).value)
  }

  function FirstConsumed(decode: Decoder, t: Tracker): Consumed
    requires Boundary(t.buffer).Some?
  {
    Consume(t.(buffer := t.buffer[FirstCut(t.buffer)..]), ItemOf(decode, t.buffer[..Boundary(t.buffer).value]), t.buffer[..FirstCut(t.buffer)])
  }

  /** A longer buffer starts with the same event and leaves the same rest, extended. */
  lemma FirstEventAgrees(decode: Decoder, t: Tracker, c: Bytes)
    requires Boundary(t.buffer).Some?
    ensures var u := t.(buffer := t.buffer + c);
            && Boundary(u.buffer) == Boundary(t.buffer) && FirstCut(u.buffer) == FirstCut(t.buffer)
            && u.buffer[..FirstCut(u.buffer)] == t.buffer[..FirstCut(t.buffer)]
            && FirstConsumed(decode, u).Consumed? == FirstConsumed(decode, t).Consumed?
            && (FirstConsumed(decode, t).Consumed? ==>
                  var x := FirstConsumed(decode, t);
                  FirstConsumed(decode, u) == Consumed(x.tracker.(buffer := x.tracker.buffer + c), x.forward))
            && (FirstConsumed(decode, t).Raised? ==> FirstConsumed(decode, u).error == FirstConsumed(decode, t).error)
  {
    BoundaryIsStable(t.buffer, c);
    var u := t.(buffer := t.buffer + c);
    var cut, p := FirstCut(t.buffer), Boundary(t.buffer).value;
    assert u.buffer[..p] == t.buffer[..p] && u.buffer[..cut] == t.buffer[..cut];
    assert u.buffer[cut..] == t.buffer[cut..] + c;
    var rest := t.(buffer := t.buffer[cut..]);
    var item, wire := ItemOf(decode, t.buffer[..p]), t.buffer[..cut];
    ConsumeIgnoresBuffer(rest, item, wire, t.buffer[cut..] + c);
    ConsumeKeepsBuffer(rest, item, wire);
  }

  lemma DrainUnfolds(decode: Decoder, t: Tracker)
    requires Boundary(t.buffer).Some?
    ensures var c := FirstConsumed(decode, t);
            && (Boundary(t.buffer).value > t.maxEvent ==> Drain(decode, t).error == Some(TOO_LARGE))
            && (Boundary(t.buffer).value <= t.maxEvent && c.Raised? ==> Drain(decode, t).error == Some(c.error))
            && (Boundary(t.buffer).value <= t.maxEvent && c.Consumed? ==>
                  var next := Drain(decode, c.tracker);
                  && Drain(decode, t) == Fed(next.tracker, (if c.forward then [t.buffer[..FirstCut(t.buffer)]] else []) + next.forwarded, next.error)
                  && c.tracker.buffer == t.buffer[FirstCut(t.buffer)..] && c.tracker.maxEvent == t.maxEvent)
  {
    ConsumeKeepsBuffer(t.(buffer := t.buffer[FirstCut(t.buffer)..]), ItemOf(decode, t.buffer[..Boundary(t.buffer).value]), t.buffer[..FirstCut(t.buffer)]);
  }

  /** Draining b and then the leftover with c appended is draining b + c. */
  lemma {:induction false} DrainSplits(decode: Decoder, t: Tracker, c: Bytes)
    ensures var d, whole := Drain(decode, t), Drain(decode, t.(buffer := t.buffer + c));
            && (d.error.Some? ==> whole.error == d.error)
            && (d.error.None? ==>
                  var e := Drain(decode, d.tracker.(buffer := d.tracker.buffer + c));
                  whole == Fed(e.tracker, d.forwarded + e.forwarded, e.error))
    decreases |t.buffer|
  {
    hide Consume, Drain;
    if Boundary(t.buffer).Some? {
      var u := t.(buffer := t.buffer + c);
      FirstEventAgrees(decode, t, c);
      DrainUnfolds(decode, t);
      DrainUnfolds(decode, u);
      var x := FirstConsumed(decode, t);
      if Boundary(t.buffer).value <= t.maxEvent && x.Consumed? {
        DrainSplits(decode, x.tracker, c);
        var head := if x.forward then [t.buffer[..FirstCut(t.buffer)]] else [];
        var d := Drain(decode, x.tracker);
        if d.error.None? {
          var e := Drain(decode, d.tracker.(buffer := d.tracker.buffer + c));
          assert head + (d.forwarded + e.forwarded) == (head + d.forwarded) + e.forwarded;
        }
      }
    } else {
      DrainStops(decode, t);
      var e := Drain(decode, t.(buffer := t.buffer + c));
      assert [] + e.forwarded == e.forwarded;
    }
  }

  lemma DrainStops(decode: Decoder, t: Tracker)
    requires Boundary(t.buffer).None?
    ensures Drain(decode, t) == Fed(t, [], None)
  {
  }

  lemma {:induction false} DrainEmptiesBuffer(decode: Decoder, t: Tracker)
    requires Drain(decode, t).error.None?
    ensures Boundary(Drain(decode, t).tracker.buffer).None? && Drain(decode, t).tracker.maxEvent == t.maxEvent
    decreases |t.buffer|
  {
    if Boundary(t.buffer).Some? {
      DrainUnfolds(decode, t);
      DrainEmptiesBuffer(decode, FirstConsumed(decode, t).tracker);
    }
  }

  /** What the size guard rejects: too long, and no LF-LF in sight. */
  predicate Oversized(maxEvent: int, b: Bytes) {
    |b| > maxEvent && !HasLfLf(b)
  }

  /** The guard stays silent on this split, after `b0`: each chunk, joined to the unfinished tail of
      the bytes before it, is short enough or holds an LF-LF. */
  predicate GuardSilent(maxEvent: int, b0: Bytes, chunks: seq<Bytes>) {
    forall k :: 0 <= k < |chunks| ==> SilentAt(maxEvent, b0, chunks, k)
  }

  predicate SilentAt(maxEvent: int, b0: Bytes, chunks: seq<Bytes>, k: nat)
    requires k < |chunks|
  {
    chunks[k] == [] || !Oversized(maxEvent, Tail(b0 + Concat(chunks[..k])) + chunks[k])
  }

  /** What a clean drain leaves is the tail of its bytes. */
  lemma {:induction false} DrainLeavesTail(decode: Decoder, t: Tracker)
    requires Drain(decode, t).error.None?
    ensures Drain(decode, t).tracker.buffer == Tail(t.buffer) && Drain(decode, t).tracker.maxEvent == t.maxEvent
    decreases |t.buffer|
  {
    hide Consume, Drain;
    if Boundary(t.buffer).Some? {
      DrainUnfolds(decode, t);
      DrainLeavesTail(decode, FirstConsumed(decode, t).tracker);
    } else {
      DrainStops(decode, t);
    }
  }

  /** Only the unfinished tail of a prefix matters to what follows. */
  lemma {:induction false} TailSplits(a: Bytes, b: Bytes)
    ensures Tail(a + b) == Tail(Tail(a) + b)
    decreases |a|
  {
    if Boundary(a).Some? {
      BoundaryIsStable(a, b);
      var cut := FirstCut(a);
      assert FirstCut(a + b) == cut && (a + b)[cut..] == a[cut..] + b;
      TailSplits(a[cut..], b);
    }
  }

  /** Silence on a split is silence at its first chunk and, from the tail it leaves, on the rest. */
  lemma SilenceUnfolds(maxEvent: int, b0: Bytes, chunks: seq<Bytes>)
    requires chunks != [] && Boundary(b0).None?
    ensures GuardSilent(maxEvent, b0, chunks)
            <==> && (chunks[0] == [] || !Oversized(maxEvent, b0 + chunks[0]))
                 && GuardSilent(maxEvent, Tail(b0 + chunks[0]), chunks[1..])
  {
    hide Oversized;
    var rest := chunks[1..];
    assert chunks[..0] == [] && b0 + [] == b0 && Tail(b0) == b0;
    assert SilentAt(maxEvent, b0, chunks, 0) <==> chunks[0] == [] || !Oversized(maxEvent, b0 + chunks[0]);
    forall k: nat | k < |rest|
      ensures SilentAt(maxEvent, Tail(b0 + chunks[0]), rest, k) <==> SilentAt(maxEvent, b0, chunks, k + 1)
    {
      assert chunks[..k+1] == [chunks[0]] + rest[..k];
      assert Concat(chunks[..k+1]) == chunks[0] + Concat(rest[..k]);
      assert b0 + Concat(chunks[..k+1]) == (b0 + chunks[0]) + Concat(rest[..k]);
      TailSplits(b0 + chunks[0], Concat(rest[..k]));
    }
    if GuardSilent(maxEvent, b0, chunks) {
      forall k: nat | k < |rest| ensures SilentAt(maxEvent, Tail(b0 + chunks[0]), rest, k) { assert SilentAt(maxEvent, b0, chunks, k + 1); }
    }
    if SilentAt(maxEvent, b0, chunks, 0) && GuardSilent(maxEvent, Tail(b0 + chunks[0]), rest) {
      forall k: nat | k < |chunks| ensures SilentAt(maxEvent, b0, chunks, k) {
        if k > 0 { assert SilentAt(maxEvent, Tail(b0 + chunks[0]), rest, k - 1); }
      }
    }
  }

  /** A run over any split equals one pass over the whole stream, and it raises exactly when that
      pass raises or the size guard fires at some chunk. */
  lemma {:induction false} FeedAllIsOnePass(decode: Decoder, t: Tracker, chunks: seq<Bytes>)
    requires Boundary(t.buffer).None?
    ensures var whole := Drain(decode, t.(buffer := t.buffer + Concat(chunks)));
            && (FeedAll(decode, t, chunks).error.None? ==> FeedAll(decode, t, chunks) == whole)
            && (FeedAll(decode, t, chunks).error.None? <==> whole.error.None? && GuardSilent(t.maxEvent, t.buffer, chunks))
    decreases |chunks|
  {
    hide Consume, Drain, GuardSilent;
    if chunks == [] {
      assert t.buffer + Concat(chunks) == t.buffer;
      DrainStops(decode, t);
      SilenceOfNothing(t.maxEvent, t.buffer);
    } else {
      var grown := t.(buffer := t.buffer + chunks[0]);
      var rest := Concat(chunks[1..]);
      assert t.buffer + Concat(chunks) == grown.buffer + rest;
      DrainSplits(decode, grown, rest);
      SilenceUnfolds(t.maxEvent, t.buffer, chunks);
      if chunks[0] == [] {
        assert grown == t;
        DrainStops(decode, t);
      }
      if Drain(decode, grown).error.None? {
        DrainEmptiesBuffer(decode, grown);
        DrainLeavesTail(decode, grown);
        FeedAllIsOnePass(decode, Drain(decode, grown).tracker, chunks[1..]);
      }
    }
  }

  lemma SilenceOfNothing(maxEvent: int, b0: Bytes)
    ensures GuardSilent(maxEvent, b0, [])
  {
  }

  /** Two splits of one stream that both pass leave the same tracker and forward the same events. */
  lemma ChunkingDoesNotMatter(decode: Decoder, maxEvent: int, xs: seq<Bytes>, ys: seq<Bytes>)
    requires Concat(xs) == Concat(ys)
    requires FeedAll(decode, Fresh(maxEvent), xs).error.None? && FeedAll(decode, Fresh(maxEvent), ys).error.None?
    ensures FeedAll(decode, Fresh(maxEvent), xs) == FeedAll(decode, Fresh(maxEvent), ys)
  {
    FeedAllIsOnePass(decode, Fresh(maxEvent), xs);
    FeedAllIsOnePass(decode, Fresh(maxEvent), ys);
  }

  // ---- Conservation ----------------------------------------------------------------------

  lemma ConsumeTerminal(t: Tracker, item: Item, wire: Bytes)
    requires Consume(t, item, wire).Consumed?
    ensures var c := Consume(t, item, wire);
            && (c.forward ==> !t.completed && c.tracker.terminal == t.terminal && c.tracker.completed == t.completed)
            && (!c.forward ==> c.tracker.terminal == t.terminal + wire && c.tracker.completed)
            && (t.completed ==> c.tracker.completed)
  {
  }

  lemma ForwardRegroups(wire: Bytes, rest: Bytes, forwarded: seq<Bytes>, terminal: Bytes, buffer: Bytes)
    requires rest == Concat(forwarded) + terminal + buffer
    ensures wire + rest == Concat([wire] + forwarded) + terminal + buffer
  {
    assert ([wire] + forwarded)[1..] == forwarded;
    assert wire + (Concat(forwarded) + terminal + buffer) == (wire + Concat(forwarded)) + terminal + buffer;
  }

  /** Forwarded events, then withheld bytes, then leftover: exactly the bytes, in order. */
  lemma {:induction false} DrainConserves(decode: Decoder, t: Tracker)
    requires Drain(decode, t).error.None?
    requires !t.completed ==> t.terminal == []
    ensures var d := Drain(decode, t);
            && (t.completed ==> d.forwarded == [] && d.tracker.completed)
            && (!d.tracker.completed ==> d.tracker.terminal == [])
            && t.terminal + t.buffer == Concat(d.forwarded) + d.tracker.terminal + d.tracker.buffer
    decreases |t.buffer|
  {
    hide Consume, Drain;
    if Boundary(t.buffer).Some? {
      DrainUnfolds(decode, t);
      var cut := FirstCut(t.buffer);
      var wire, c := t.buffer[..cut], FirstConsumed(decode, t);
      ConsumeTerminal(t.(buffer := t.buffer[cut..]), ItemOf(decode, t.buffer[..Boundary(t.buffer).value]), wire);
      DrainConserves(decode, c.tracker);
      var next := Drain(decode, c.tracker);
      assert t.buffer == wire + t.buffer[cut..];
      if c.forward {
        assert t.terminal + t.buffer == wire + (c.tracker.terminal + c.tracker.buffer);
        ForwardRegroups(wire, c.tracker.terminal + c.tracker.buffer, next.forwarded, next.tracker.terminal, next.tracker.buffer);
      } else {
        assert [] + next.forwarded == next.forwarded;
        assert t.terminal + t.buffer == (t.terminal + wire) + t.buffer[cut..];
      }
    } else {
      DrainStops(decode, t);
      assert Concat([]) + t.terminal + t.buffer == t.terminal + t.buffer;
    }
  }

  lemma StreamIsConserved(decode: Decoder, maxEvent: int, chunks: seq<Bytes>)
    requires FeedAll(decode, Fresh(maxEvent), chunks).error.None?
    ensures var r := FeedAll(decode, Fresh(maxEvent), chunks);
            Concat(r.forwarded) + r.tracker.terminal + r.tracker.buffer == Concat(chunks)
  {
    FeedAllIsOnePass(decode, Fresh(maxEvent), chunks);
    var t := Fresh(maxEvent).(buffer := [] + Concat(chunks));
    DrainConserves(decode, t);
    assert t.terminal + t.buffer == Concat(chunks);
  }

  // ---- Grammar ---------------------------------------------------------------------------

  /** One-shot splitter: the complete events of a byte string, and what follows the last one. */
  function Events(b: Bytes): seq<Bytes> {
    if Boundary(b).None? then [] else [b[..Boundary(b).value]] + Events(b[FirstCut(b)..])
  }

  function Tail(b: Bytes): Bytes {
    if Boundary(b).None? then b else Tail(b[FirstCut(b)..])
  }

  function Items(decode: Decoder, events: seq<Bytes>): seq<Item> {
    if events == [] then [] else [ItemOf(decode, events[0])] + Items(decode, events[1..])
  }

  /** An event that names a response names this one. */
  predicate Names(response: Option<ResponseField>, id: string) {
    response.Some? ==> response.value.id.NoId? || response.value.id == GoodId(id)
  }

  predicate Opens(item: Item, id: string) {
    && item.Json? && item.decoded.Message? && item.decoded.kind == "response.created"
    && item.decoded.response.Some? && item.decoded.response.value.id == GoodId(id) && ValidResponseId(id)
  }

  predicate Passes(item: Item, id: string) {
    && item.Json? && item.decoded.Message? && Names(item.decoded.response, id)
    && item.decoded.kind != "response.created" && item.decoded.kind != "response.completed"
    && item.decoded.kind != "response.failed" && item.decoded.kind != "response.incomplete"
  }

  predicate Closes(item: Item, id: string, input: nat, output: nat) {
    && item.Json? && item.decoded.Message? && item.decoded.kind == "response.completed"
    && item.decoded.response.Some? && Names(item.decoded.response, id)
    && item.decoded.response.value.usage == Usage(input, output)
  }

  /** Any number of passing events, one completion, at most one [DONE], nothing else. */
  predicate Body(items: seq<Item>, id: string, input: nat, output: nat) {
    items != [] &&
    if Closes(items[0], id, input, output) then items[1..] == [] || items[1..] == [DoneMark]
    else Passes(items[0], id) && Body(items[1..], id, input, output)
  }

  predicate Accepted(decode: Decoder, maxEvent: int, b: Bytes, id: string, input: nat, output: nat) {
    var items := Items(decode, Events(b));
    && Blank(Tail(b))
    && Small(maxEvent, Events(b))
    && items != [] && Opens(items[0], id) && Body(items[1..], id, input, output)
  }

  /** The tracker after the items of a whole stream, the wire bytes left aside. */
  predicate Reaches(decode: Decoder, t: Tracker, id: string, input: nat, output: nat) {
    var d := Drain(decode, t);
    && d.error.None? && d.tracker.created && d.tracker.completed
    && d.tracker.responseId == Some(id) && d.tracker.input == Some(input) && d.tracker.output == Some(output)
    && Blank(d.tracker.buffer)
  }

  predicate Small(maxEvent: int, events: seq<Bytes>) {
    forall i :: 0 <= i < |events| ==> |events[i]| <= maxEvent
  }

  lemma SmallUnfolds(maxEvent: int, b: Bytes)
    requires Boundary(b).Some?
    ensures Small(maxEvent, Events(b)) <==> Boundary(b).value <= maxEvent && Small(maxEvent, Events(b[FirstCut(b)..]))
  {
    var rest := Events(b[FirstCut(b)..]);
    assert Events(b)[0] == b[..Boundary(b).value];
    if Small(maxEvent, Events(b)) {
      forall i | 0 <= i < |rest| ensures |rest[i]| <= maxEvent { assert rest[i] == Events(b)[i+1]; }
    }
  }

  /** Before the completion: the rest of the stream must be a Body. */
  lemma {:induction false} OpenStreamAccepts(decode: Decoder, t: Tracker, id: string, input: nat, output: nat)
    requires t.created && !t.completed && !t.done && t.responseId == Some(id) && ValidResponseId(id)
    ensures Reaches(decode, t, id, input, output) <==>
            && Blank(Tail(t.buffer)) && Small(t.maxEvent, Events(t.buffer))
            && Body(Items(decode, Events(t.buffer)), id, input, output)
    decreases |t.buffer|
  {
    if Boundary(t.buffer).Some? {
      DrainUnfolds(decode, t);
      SmallUnfolds(t.maxEvent, t.buffer);
      var item := ItemOf(decode, t.buffer[..Boundary(t.buffer).value]);
      var c := FirstConsumed(decode, t);
      var items := Items(decode, Events(t.buffer));
      assert Events(t.buffer)[1..] == Events(t.buffer[FirstCut(t.buffer)..]);
      assert items[0] == item && items[1..] == Items(decode, Events(t.buffer[FirstCut(t.buffer)..]));
      ConsumeOpen(t.(buffer := t.buffer[FirstCut(t.buffer)..]), item, t.buffer[..FirstCut(t.buffer)], id);
      if Boundary(t.buffer).value <= t.maxEvent && c.Consumed? {
        if c.tracker.completed {
          ClosedStreamAccepts(decode, c.tracker);
        } else {
          OpenStreamAccepts(decode, c.tracker, id, input, output);
        }
      }
    }
  }

  /** What an open tracker does with one item. */
  lemma ConsumeOpen(t: Tracker, item: Item, wire: Bytes, id: string)
    requires t.created && !t.completed && !t.done && t.responseId == Some(id) && ValidResponseId(id)
    ensures var c := Consume(t, item, wire);
            && (c.Consumed? && !c.tracker.completed <==> Passes(item, id))
            && (c.Consumed? && !c.tracker.completed ==> c.tracker == t)
            && (c.Consumed? && c.tracker.completed ==> exists i: nat, o: nat :: Closes(item, id, i, o))
            && (forall i: nat, o: nat :: Closes(item, id, i, o) ==>
                  && c.Consumed? && c.tracker.completed && c.tracker.input == Some(i) && c.tracker.output == Some(o))
            && (c.Consumed? ==> c.tracker.responseId == Some(id) && c.tracker.created && !c.tracker.done)
  {
    if Consume(t, item, wire).Consumed? && Consume(t, item, wire).tracker.completed {
      var u := item.decoded.response.value.usage;
      assert Closes(item, id, u.input, u.output);
    }
  }

  /** After the completion: nothing, or one [DONE]. */
  lemma ClosedStreamAccepts(decode: Decoder, t: Tracker)
    requires t.created && t.completed && !t.done
    ensures var d := Drain(decode, t);
            && (d.error.None? <==>
                 Small(t.maxEvent, Events(t.buffer))
                 && (Items(decode, Events(t.buffer)) == [] || Items(decode, Events(t.buffer)) == [DoneMark]))
            && (d.error.None? ==>
                  && d.tracker.buffer == Tail(t.buffer) && d.tracker.created && d.tracker.completed
                  && d.tracker.responseId == t.responseId && d.tracker.input == t.input && d.tracker.output == t.output)
  {
    hide Consume, Drain;
    if Boundary(t.buffer).Some? {
      DrainUnfolds(decode, t);
      SmallUnfolds(t.maxEvent, t.buffer);
      var c := FirstConsumed(decode, t);
      var rest := t.buffer[FirstCut(t.buffer)..];
      var item := ItemOf(decode, t.buffer[..Boundary(t.buffer).value]);
      var items := Items(decode, Events(t.buffer));
      assert Events(t.buffer)[1..] == Events(rest);
      assert items == [item] + Items(decode, Events(rest));
      ConsumeClosed(t.(buffer := rest), item, t.buffer[..FirstCut(t.buffer)]);
      assert items == [DoneMark] <==> item == DoneMark && Items(decode, Events(rest)) == [] by {
        assert items[0] == item;
        assert Items(decode, Events(rest)) == [] ==> items == [item];
      }
      if c.Consumed? && Boundary(t.buffer).value <= t.maxEvent {
        DoneStreamAccepts(decode, c.tracker);
      }
    } else {
      DrainStops(decode, t);
    }
  }

  lemma ConsumeClosed(t: Tracker, item: Item, wire: Bytes)
    requires t.completed && !t.done
    ensures var c := Consume(t, item, wire);
            && (c.Consumed? <==> item.DoneMark?)
            && (c.Consumed? ==> c.tracker == t.(done := true, terminal := t.terminal + wire))
  {
  }

  lemma DoneStreamAccepts(decode: Decoder, t: Tracker)
    requires t.completed && t.done
    ensures Drain(decode, t).error.None? <==> Boundary(t.buffer).None?
    ensures Drain(decode, t).error.None? ==> Drain(decode, t).tracker == t
    ensures Boundary(t.buffer).None? <==> Items(decode, Events(t.buffer)) == []
    ensures Boundary(t.buffer).None? ==> Small(t.maxEvent, Events(t.buffer)) && Tail(t.buffer) == t.buffer
  {
    if Boundary(t.buffer).Some? {
      DrainUnfolds(decode, t);
    }
  }

  /** `finish` returns exactly on streams of the grammar, with that response id and that usage. */
  lemma FinishAcceptsExactlyTheGrammar(decode: Decoder, maxEvent: int, b: Bytes, id: string, input: nat, output: nat)
    ensures var d := Drain(decode, Fresh(maxEvent).(buffer := b));
            (d.error.None? && FinishOf(d.tracker) == Finished(id, input, output, d.tracker.terminal))
            <==> Accepted(decode, maxEvent, b, id, input, output)
  {
    hide Consume, Drain;
    var t := Fresh(maxEvent).(buffer := b);
    if Boundary(b).Some? {
      DrainUnfolds(decode, t);
      SmallUnfolds(maxEvent, b);
      var item := ItemOf(decode, b[..Boundary(b).value]);
      var rest := b[FirstCut(b)..];
      var items := Items(decode, Events(b));
      assert Events(b)[1..] == Events(rest);
      assert items[0] == item && items[1..] == Items(decode, Events(rest));
      ConsumeFirst(t.(buffer := rest), item, b[..FirstCut(b)]);
      var c := FirstConsumed(decode, t);
      if Boundary(b).value <= maxEvent && c.Consumed? {
        OpenStreamAccepts(decode, c.tracker, c.tracker.responseId.value, input, output);
        OpenIdStays(decode, c.tracker);
        assert Opens(item, id) ==> c.tracker.responseId == Some(id);
      }
      assert Tail(b) == Tail(rest);
    } else {
      DrainStops(decode, t);
    }
  }

  /** Fed in any chunks and then finished: a result is returned exactly when the bytes are of the
      grammar and the size guard stayed silent on that split. */
  lemma FedStreamAcceptsExactlyTheGrammar(decode: Decoder, maxEvent: int, chunks: seq<Bytes>, id: string, input: nat, output: nat)
    ensures var d := FeedAll(decode, Fresh(maxEvent), chunks);
            (d.error.None? && FinishOf(d.tracker) == Finished(id, input, output, d.tracker.terminal))
            <==> Accepted(decode, maxEvent, Concat(chunks), id, input, output) && GuardSilent(maxEvent, [], chunks)
  {
    hide Consume, Drain, FeedAll, GuardSilent, Accepted;
    FeedAllIsOnePass(decode, Fresh(maxEvent), chunks);
    assert [] + Concat(chunks) == Concat(chunks);
    FinishAcceptsExactlyTheGrammar(decode, maxEvent, Concat(chunks), id, input, output);
  }

  lemma ConsumeFirst(t: Tracker, item: Item, wire: Bytes)
    requires !t.created && !t.completed && !t.done && t.responseId.None?
    ensures var c := Consume(t, item, wire);
            && (c.Consumed? ==> && c.tracker.responseId.Some? && Opens(item, c.tracker.responseId.value)
                                && c.tracker == t.(created := true, responseId := c.tracker.responseId))
            && (forall id :: Opens(item, id) ==> c.Consumed? && c.tracker.responseId == Some(id))
  {
  }

  /** One response id throughout. */
  lemma {:induction false} OpenIdStays(decode: Decoder, t: Tracker)
    requires t.responseId.Some?
    ensures Drain(decode, t).tracker.responseId == t.responseId
    decreases |t.buffer|
  {
    if Boundary(t.buffer).Some? && Boundary(t.buffer).value <= t.maxEvent {
      ConsumeIdStays(t.(buffer := t.buffer[FirstCut(t.buffer)..]), ItemOf(decode, t.buffer[..Boundary(t.buffer).value]), t.buffer[..FirstCut(t.buffer)]);
      if FirstConsumed(decode, t).Consumed? {
        DrainUnfolds(decode, t);
        OpenIdStays(decode, FirstConsumed(decode, t).tracker);
      }
    }
  }

  lemma ConsumeIdStays(t: Tracker, item: Item, wire: Bytes)
    requires t.responseId.Some?
    ensures var c := Consume(t, item, wire);
            (if c.Consumed? then c.tracker else c.at).responseId == t.responseId
  {
  }
}
