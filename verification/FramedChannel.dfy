/** The framed channel over a socket whose every call may take or give fewer bytes than asked. */
module FramedChannel {
  import opened Prelude
  import opened Framing

  datatype FrameReply = Got(frame: Frame) | Fault(code: string)

  const CLOSED := "PROXY_CHANNEL_CLOSED"

  /** A stream socket.  `accepts(n)` and `gives(n)` are how many bytes the n-th call moves at most;
      zero or less is a closed peer or an expired deadline. */
  class Socket {
    var inbound: Bytes
    var outbound: Bytes
    var calls: nat
    const accepts: nat -> int
    const gives: nat -> int

    constructor (inbound: Bytes, accepts: nat -> int, gives: nat -> int)
      ensures this.inbound == inbound && outbound == [] && this.accepts == accepts && this.gives == gives
    {
      this.inbound, outbound, calls := inbound, [], 0;
      this.accepts, this.gives := accepts, gives;
    }

    /** Every call moves at least one byte when there is one to move. */
    ghost predicate Progressing() {
      forall n: nat :: accepts(n) > 0 && gives(n) > 0
    }

    method Send(view: Bytes) returns (sent: int)
      modifies this
      ensures sent <= |view| && inbound == old(inbound)
      ensures outbound == old(outbound) + view[..Max(0, sent)]
      ensures Progressing() && view != [] ==> sent > 0
    {
      sent := Min(accepts(calls), |view|);
      calls := calls + 1;
      if sent > 0 {
        outbound := outbound + view[..sent];
      }
    }

    method Receive(size: nat) returns (chunk: Bytes)
      modifies this
      ensures |chunk| <= size && old(inbound) == chunk + inbound && outbound == old(outbound)
      ensures Progressing() && size > 0 && old(inbound) != [] ==> chunk != []
    {
      var n := Max(0, Min(gives(calls), Min(size, |inbound|)));
      calls := calls + 1;
      chunk, inbound := inbound[..n], inbound[n..];
    }

    method SendAll(value: Bytes) returns (error: Option<string>)
      modifies this
      ensures inbound == old(inbound)
      ensures error.None? ==> outbound == old(outbound) + value
      ensures error.Some? ==> error.value == CLOSED && old(outbound) <= outbound < old(outbound) + value
      ensures Progressing() ==> error.None?
    {
      var view := value;
      while view != []
        invariant inbound == old(inbound)
        invariant old(outbound) <= outbound && outbound + view == old(outbound) + value
        decreases |view|
      {
        var sent := Send(view);
        if sent <= 0 {
          assert view[..0] == [];
          return Some(CLOSED);
        }
        assert view == view[..sent] + view[sent..];
        view := view[sent..];
      }
      error := None;
    }

    method ReceiveExact(size: nat) returns (r: Option<Bytes>)
      modifies this
      ensures outbound == old(outbound)
      ensures r.Some? ==> |r.value| == size && old(inbound) == r.value + inbound
      ensures Progressing() ==> (r.Some? <==> |old(inbound)| >= size)
    {
      var got: Bytes, remaining := [], size;
      while remaining > 0
        invariant 0 <= remaining <= size && |got| + remaining == size
        invariant old(inbound) == got + inbound && outbound == old(outbound)
      {
        var chunk := Receive(remaining);
        if chunk == [] {
          return None;
        }
        got, remaining := got + chunk, remaining - |chunk|;
      }
      r := Some(got);
    }

    method SendFrame(f: Frame) returns (error: Option<string>)
      modifies this
      ensures inbound == old(inbound)
      ensures error.None? ==> ValidFrame(f) && outbound == old(outbound) + Encode(f)
      ensures Progressing() && ValidFrame(f) ==> error.None?
    {
      error := FrameError(f);
      if error.None? {
        error := SendAll(Header(f) + f.payload);
      }
    }

    /** A received frame is exactly the first one of the inbound bytes; with no early close the
        reply is what decoding says of the whole stream. */
    method ReceiveFrame() returns (r: FrameReply)
      modifies this
      ensures outbound == old(outbound)
      ensures r.Got? ==> Decode(old(inbound)) == Parsed(r.frame, inbound)
      ensures Progressing() && r.Fault? ==> Decode(old(inbound)) == if r.code == CLOSED then Closed else Malformed(r.code)
    {
      var encoded := ReceiveExact(HEADER);
      if encoded.None? {
        return Fault(CLOSED);
      }
      ghost var rest := inbound;
      assert old(inbound)[..HEADER] == encoded.value && old(inbound)[HEADER..] == rest;
      var h := ParseHeader(encoded.value);
      if h.BadHeader? {
        assert h.code[6] == 'F';
        return Fault(h.code);
      }
      FromBe32RoundTrip(encoded.value[10..14]);
      var payload := ReceiveExact(h.size);
      if payload.None? {
        return Fault(CLOSED);
      }
      assert old(inbound)[HEADER..HEADER + h.size] == payload.value && old(inbound)[HEADER + h.size..] == inbound;
      var f := Frame(h.kind, h.stream, payload.value);
      var invalid := FrameError(f);
      if invalid.Some? {
        assert invalid.value[6] == 'F';
        return Fault(invalid.value);
      }
      r := Got(f);
    }

    /** Cut at 64 KiB and send each piece as its own frame. */
    method SendChunked(kind: Kind, stream: int, payload: Bytes, ghost before: seq<Frame>, ghost base: Bytes)
      returns (error: Option<string>)
      requires Carries(base, before, outbound)
      modifies this
      ensures inbound == old(inbound)
      ensures error.None? ==> Carries(base, before + DataFrames(kind, stream, Chunks(payload)), outbound)
      ensures Progressing() && ValidFrame(Frame(kind, stream, [])) ==> error.None?
    {
      hide Encode, ValidFrame, Carries, Chunks, DataFrames;
      ghost var done := before;
      var left := payload;
      while left != []
        invariant inbound == old(inbound) && Carries(base, done, outbound)
        invariant done + DataFrames(kind, stream, Chunks(left)) == before + DataFrames(kind, stream, Chunks(payload))
        decreases |left|
      {
        var n := Min(|left|, MAX_PAYLOAD);
        var f := Frame(kind, stream, left[..n]);
        ChunkStep(kind, stream, left);
        ghost var wire := outbound;
        error := SendFrame(f);
        if error.Some? {
          ShortFrameValid(f);
          return;
        }
        CarriesNext(base, done, wire, f);
        assert done + ([f] + DataFrames(kind, stream, Chunks(left[n..]))) == (done + [f]) + DataFrames(kind, stream, Chunks(left[n..]));
        done, left := done + [f], left[n..];
      }
      NoChunks(kind, stream);
      assert done + [] == done;
      error := None;
    }

    /** The relay's sending half of one exchange. */
    method RelaySend(hello: Bytes, stream: int, raw: Bytes) returns (error: Option<string>)
      modifies this
      ensures inbound == old(inbound)
      ensures error.None? ==> Carries(old(outbound), RelayFrames(hello, stream, raw), outbound)
      ensures Progressing() && |hello| <= MAX_PAYLOAD && ValidStream(stream) ==> error.None?
    {
      hide Encode, Chunks, DataFrames;
      var first, start, end := Frame(Hello, 0, hello), Frame(RequestStart, stream, []), Frame(RequestEnd, stream, []);
      ghost var base := old(outbound);
      assert Carries(base, [], base);
      hide Carries;
      error := SendFrame(first);
      if error.Some? { return; }
      CarriesNext(base, [], base, first);
      ghost var wire := outbound;
      error := SendFrame(start);
      if error.Some? { return; }
      assert [] + [first] == [first] && [first] + [start] == [first, start];
      CarriesNext(base, [first], wire, start);
      error := SendChunked(RequestData, stream, raw, [first, start], base);
      if error.Some? { return; }
      wire := outbound;
      error := SendFrame(end);
      if error.Some? { return; }
      CarriesNext(base, [first, start] + DataFrames(RequestData, stream, Chunks(raw)), wire, end);
    }

    /** The receiving half of the server: whatever it accepts is what the stream specifies, and
        with no early close its refusals are too. */
    method ServeReceive(hello: Bytes, limit: int) returns (r: Served)
      modifies this
      ensures outbound == old(outbound)
      ensures r.Raw? ==> r == Serve(old(inbound), hello, limit) && inbound == r.rest
      ensures Progressing() ==> r == Serve(old(inbound), hello, limit)
    {
      hide Decode;
      var first := ReceiveFrame();
      if first.Fault? { return Refused(first.code); }
      if first.frame.kind != Hello || |first.frame.payload| > MAX_HELLO || first.frame.payload != hello {
        return Refused("PROXY_CHANNEL_BINDING_MISMATCH");
      }
      var start := ReceiveFrame();
      if start.Fault? { return Refused(start.code); }
      if start.frame.kind != RequestStart || start.frame.payload != [] {
        return Refused("PROXY_REQUEST_START_INVALID");
      }
      r := CollectRequest(start.frame.stream, limit);
    }

    method CollectRequest(stream: int, limit: int) returns (r: Served)
      modifies this
      ensures outbound == old(outbound)
      ensures r.Raw? ==> r == Collect(old(inbound), stream, limit, []) && inbound == r.rest
      ensures Progressing() ==> r == Collect(old(inbound), stream, limit, [])
    {
      hide Decode;
      var raw: Bytes := [];
      while true
        invariant outbound == old(outbound)
        invariant Collect(inbound, stream, limit, raw) == Collect(old(inbound), stream, limit, [])
        decreases |inbound|
      {
        ghost var before := inbound;
        var next := ReceiveFrame();
        if next.Fault? { return Refused(next.code); }
        DecodeConsumes(before);
        if next.frame.stream != stream { return Refused("PROXY_FRAME_STREAM_MISMATCH"); }
        if next.frame.kind == RequestEnd {
          if next.frame.payload != [] { return Refused("PROXY_REQUEST_END_INVALID"); }
          return Raw(raw, inbound);
        }
        if next.frame.kind != RequestData { return Refused("PROXY_REQUEST_FRAME_INVALID"); }
        if |raw| + |next.frame.payload| > limit { return Refused("PROXY_REQUEST_FRAME_LIMIT"); }
        raw := raw + next.frame.payload;
      }
    }

    /** The relay's receiving half. */
    method RelayReceive(stream: int, limit: int) returns (r: Response)
      modifies this
      ensures outbound == old(outbound)
      ensures r.Response? ==> r == Gather(old(inbound), stream, limit, []) && inbound == r.rest
      ensures Progressing() ==> r == Gather(old(inbound), stream, limit, [])
    {
      hide Decode;
      var body: Bytes := [];
      while true
        invariant outbound == old(outbound)
        invariant Gather(inbound, stream, limit, body) == Gather(old(inbound), stream, limit, [])
        decreases |inbound|
      {
        ghost var before := inbound;
        var next := ReceiveFrame();
        if next.Fault? { return NoResponse(next.code); }
        DecodeConsumes(before);
        if next.frame.stream != stream { return NoResponse("PROXY_FRAME_STREAM_MISMATCH"); }
        if next.frame.kind == ResponseData {
          if |body| + |next.frame.payload| > limit { return NoResponse("PROXY_RESPONSE_FRAME_LIMIT"); }
          body := body + next.frame.payload;
        } else if next.frame.kind == ResponseEnd {
          return Response(body, next.frame.payload, inbound);
        } else {
          return NoResponse("PROXY_RESPONSE_FRAME_INVALID");
        }
      }
    }
  }

  lemma DecodeConsumes(b: Bytes)
    requires Decode(b).Parsed?
    ensures |Decode(b).rest| < |b|
  {
  }

  lemma ShortFrameValid(f: Frame)
    requires |f.payload| <= MAX_PAYLOAD
    ensures ValidFrame(f) <==> ValidFrame(f.(payload := []))
  {
  }

  /** `wire` is `base` followed by the encoding of `fs`, all valid. */
  ghost predicate Carries(base: Bytes, fs: seq<Frame>, wire: Bytes) {
    (forall i :: 0 <= i < |fs| ==> ValidFrame(fs[i])) && wire == base + EncodeAll(fs)
  }

  lemma CarriesNext(base: Bytes, fs: seq<Frame>, wire: Bytes, f: Frame)
    requires Carries(base, fs, wire) && ValidFrame(f)
    ensures Carries(base, fs + [f], wire + Encode(f))
  {
    hide Encode, ValidFrame;
    var one := [f];
    assert one[1..] == [] && EncodeAll(one) == Encode(f) + [];
    EncodeAllAppend(fs, one);
  }

  lemma NoChunks(kind: Kind, stream: int)
    ensures DataFrames(kind, stream, Chunks([])) == []
  {
  }

  lemma ChunkStep(kind: Kind, stream: int, left: Bytes)
    requires left != []
    ensures var n := Min(|left|, MAX_PAYLOAD);
            DataFrames(kind, stream, Chunks(left)) == [Frame(kind, stream, left[..n])] + DataFrames(kind, stream, Chunks(left[n..]))
  {
    hide Chunks;
    ChunksUnfold(left, Min(|left|, MAX_PAYLOAD));
  }

  lemma ChunksUnfold(left: Bytes, n: nat)
    requires left != [] && n == Min(|left|, MAX_PAYLOAD)
    ensures Chunks(left) == [left[..n]] + Chunks(left[n..])
  {
    if |left| <= MAX_PAYLOAD {
      assert left[..n] == left && left[n..] == [];
      assert Chunks(left) == [left] && Chunks(left[n..]) == [];
    }
  }

  /** One request crossing from relay to server: every pattern of partial sends and receives
      delivers the relay's bytes unchanged, or refuses them by the limit. */
  method CarryRequest(relay: Socket, server: Socket, hello: Bytes, stream: int, raw: Bytes, limit: nat) returns (r: Served)
    requires relay != server && relay.outbound == []
    requires ValidStream(stream) && |hello| <= MAX_HELLO
    modifies relay, server
    ensures r.Raw? ==> r.raw == raw && |raw| <= limit && server.inbound == []
    ensures relay.Progressing() && server.Progressing() ==>
      r == if |raw| <= limit then Raw(raw, []) else Refused("PROXY_REQUEST_FRAME_LIMIT")
  {
    hide Serve, Encode, EncodeAll, RelayFrames, ValidFrame;
    var error := relay.RelaySend(hello, stream, raw);
    if error.Some? { return Refused(error.value); }
    server.inbound := relay.outbound;
    ExchangeRebuildsRequest(hello, stream, raw, limit, []);
    ghost var b := EncodeAll(RelayFrames(hello, stream, raw));
    assert b + [] == b && relay.outbound == b;
    r := server.ServeReceive(hello, limit);
  }
}
