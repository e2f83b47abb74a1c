/** The length-prefixed frames of the inherited channel, and the request half of one exchange. */
module Framing {
  import opened Prelude

  datatype Kind = Hello | RequestStart | RequestData | RequestEnd | ResponseData | ResponseEnd | Error

  datatype Frame = Frame(kind: Kind, stream: int, payload: Bytes)

  const MAX_PAYLOAD: nat := 65536
  const MAX_HELLO: nat := 4096
  const HEADER: nat := 14
  const MAGIC: Bytes := [84, 70, 80, 88]
  const VERSION: Byte := 1

  function Code(k: Kind): Byte {
    match k
    case Hello => 1 case RequestStart => 2 case RequestData => 3 case RequestEnd => 4
    case ResponseData => 5 case ResponseEnd => 6 case Error => 7
  }

  function KindOf(code: Byte): Option<Kind> {
    if code == 1 then Some(Hello) else if code == 2 then Some(RequestStart) else if code == 3 then Some(RequestData)
    else if code == 4 then Some(RequestEnd) else if code == 5 then Some(ResponseData)
    else if code == 6 then Some(ResponseEnd) else if code == 7 then Some(Error) else None
  }

  /** What the frame constructor accepts; None is acceptance. */
  function FrameError(f: Frame): Option<string> {
    if f.stream < 0 || f.stream > 0xFFFF_FFFF then Some("PROXY_FRAME_STREAM_INVALID")
    else if |f.payload| > MAX_PAYLOAD then Some("PROXY_FRAME_TOO_LARGE")
    else if f.kind.Hello? && f.stream != 0 then Some("PROXY_FRAME_HELLO_INVALID")
    else if !f.kind.Hello? && f.stream == 0 then Some("PROXY_FRAME_STREAM_INVALID")
    else None
  }

  predicate ValidFrame(f: Frame) {
    FrameError(f).None?
  }

  // ---- Wire format -----------------------------------------------------------------------

  function Be32(n: int): Bytes
    requires 0 <= n <= 0xFFFF_FFFF
  {
    [n / 0x100_0000, n / 0x1_0000 % 0x100, n / 0x100 % 0x100, n % 0x100]
  }

  function FromBe32(b: Bytes): int
    requires |b| == 4
  {
    b[0] as int * 0x100_0000 + b[1] as int * 0x1_0000 + b[2] as int * 0x100 + b[3] as int
  }

  lemma Be32RoundTrip(n: int)
    requires 0 <= n <= 0xFFFF_FFFF
    ensures FromBe32(Be32(n)) == n
  {
    var n1, n2, n3 := n / 0x100, n / 0x1_0000, n / 0x100_0000;
    assert n == 0x100 * n1 + n % 0x100;
    assert n1 == 0x100 * n2 + n1 % 0x100 by { assert n2 == n1 / 0x100; }
    assert n2 == 0x100 * n3 + n2 % 0x100 by { assert n3 == n2 / 0x100; }
    assert n3 % 0x100 == n3;
  }

  lemma FromBe32RoundTrip(b: Bytes)
    requires |b| == 4
    ensures 0 <= FromBe32(b) <= 0xFFFF_FFFF && Be32(FromBe32(b)) == b
  {
    var n := FromBe32(b);
    var b0: int, b1: int, b2: int := b[0], b[1], b[2];
    assert n / 0x100 == b0 * 0x1_0000 + b1 * 0x100 + b2;
    assert n / 0x1_0000 == b0 * 0x100 + b1;
    assert n / 0x100_0000 == b0;
  }

  function Header(f: Frame): (h: Bytes)
    requires ValidFrame(f)
    ensures |h| == HEADER
  {
    MAGIC + [VERSION, Code(f.kind)] + Be32(f.stream) + Be32(|f.payload|)
  }

  function Encode(f: Frame): Bytes
    requires ValidFrame(f)
  {
    Header(f) + f.payload
  }

  datatype Parsed = Parsed(frame: Frame, rest: Bytes) | Closed | Malformed(code: string)

  datatype HeaderFields = Fields(kind: Kind, stream: int, size: int) | BadHeader(code: string)

  function ParseHeader(h: Bytes): HeaderFields
    requires |h| == HEADER
  {
    if h[..4] != MAGIC || h[4] != VERSION then BadHeader("PROXY_FRAME_VERSION_INVALID")
    else if FromBe32(h[10..14]) > MAX_PAYLOAD then BadHeader("PROXY_FRAME_TOO_LARGE")
    else if KindOf(h[5]).None? then BadHeader("PROXY_FRAME_KIND_INVALID")
    else Fields(KindOf(h[5]).value, FromBe32(h[6..10]), FromBe32(h[10..14]))
  }

  /** The first frame of a byte stream that then ends. */
  function Decode(b: Bytes): Parsed {
    if |b| < HEADER then Closed
    else
      var h := ParseHeader(b[..HEADER]);
      if h.BadHeader? then Malformed(h.code)
      else if h.size < 0 || |b| < HEADER + h.size then Closed
      else
        var f := Frame(h.kind, h.stream, b[HEADER..HEADER + h.size]);
        if FrameError(f).Some? then Malformed(FrameError(f).value) else Parsed(f, b[HEADER + h.size..])
  }

  lemma HeaderRoundTrip(f: Frame)
    requires ValidFrame(f)
    ensures ParseHeader(Header(f)) == Fields(f.kind, f.stream, |f.payload|)
  {
    var h := Header(f);
    assert h[..4] == MAGIC && h[6..10] == Be32(f.stream) && h[10..14] == Be32(|f.payload|);
    Be32RoundTrip(f.stream);
    Be32RoundTrip(|f.payload|);
  }

  /** Decoding an encoded frame gives it back and leaves exactly what followed it. */
  lemma FrameRoundTrip(f: Frame, more: Bytes)
    requires ValidFrame(f)
    ensures Decode(Encode(f) + more) == Parsed(f, more)
  {
    var b := Encode(f) + more;
    HeaderRoundTrip(f);
    assert b[..HEADER] == Header(f);
    assert b[HEADER..HEADER + |f.payload|] == f.payload;
    assert b[HEADER + |f.payload|..] == more;
  }

  /** Only encodings of valid frames decode. */
  lemma DecodedIsEncoded(b: Bytes)
    requires Decode(b).Parsed?
    ensures ValidFrame(Decode(b).frame) && b == Encode(Decode(b).frame) + Decode(b).rest
  {
    var f, h := Decode(b).frame, b[..HEADER];
    FromBe32RoundTrip(h[6..10]);
    FromBe32RoundTrip(h[10..14]);
    assert h == h[..4] + [h[4], h[5]] + h[6..10] + h[10..14];
    assert h == Header(f);
    assert b == h + b[HEADER..HEADER + |f.payload|] + b[HEADER + |f.payload|..];
  }

  /** Exactly the frames of a 32-bit stream, at most 64 KiB of payload, with stream 0 for HELLO alone. */
  lemma ValidFrameIff(f: Frame)
    ensures ValidFrame(f) <==> 0 <= f.stream < 4294967296 && |f.payload| <= 65536 && (f.kind == Hello <==> f.stream == 0)
  {
  }

  /** The number a kind has on the wire. */
  ghost predicate KindNumber(k: Kind, n: int) {
    match k
    case Hello => n == 1 case RequestStart => n == 2 case RequestData => n == 3 case RequestEnd => n == 4
    case ResponseData => n == 5 case ResponseEnd => n == 6 case Error => n == 7
  }

  /** Every byte of the wire format: magic, version, kind, stream and length in network order, payload. */
  lemma WireLayout(f: Frame)
    requires ValidFrame(f)
    ensures var b := Encode(f);
            && |b| == 14 + |f.payload| && b[14..] == f.payload
            && b[0] == 'T' as int && b[1] == 'F' as int && b[2] == 'P' as int && b[3] == 'X' as int && b[4] == 1 && KindNumber(f.kind, b[5])
            && b[6] as int * 16777216 + b[7] as int * 65536 + b[8] as int * 256 + b[9] as int == f.stream
            && b[10] as int * 16777216 + b[11] as int * 65536 + b[12] as int * 256 + b[13] as int == |f.payload|
  {
    Be32RoundTrip(f.stream);
    Be32RoundTrip(|f.payload|);
  }

  function EncodeAll(fs: seq<Frame>): Bytes
    requires forall i :: 0 <= i < |fs| ==> ValidFrame(fs[i])
  {
    if fs == [] then [] else Encode(fs[0]) + EncodeAll(fs[1..])
  }

  /** All frames of a stream, or None when it is malformed or cut short. */
  function DecodeAll(b: Bytes): Option<seq<Frame>>
    decreases |b|
  {
    if b == [] then Some([])
    else if Decode(b).Parsed? && |Decode(b).rest| < |b| then
      var tail := DecodeAll(Decode(b).rest);
      if tail.None? then None else Some([Decode(b).frame] + tail.value)
    else None
  }

  lemma {:induction false} FramesRoundTrip(fs: seq<Frame>)
    requires forall i :: 0 <= i < |fs| ==> ValidFrame(fs[i])
    ensures DecodeAll(EncodeAll(fs)) == Some(fs)
  {
    hide Decode, FrameError;
    if fs != [] {
      FrameRoundTrip(fs[0], EncodeAll(fs[1..]));
      FramesRoundTrip(fs[1..]);
      assert [fs[0]] + fs[1..] == fs;
    }
  }

  // ---- Chunking --------------------------------------------------------------------------

  /** The payload cut at 64 KiB. */
  function Chunks(payload: Bytes): seq<Bytes> {
    if payload == [] then []
    else if |payload| <= MAX_PAYLOAD then [payload]
    else [payload[..MAX_PAYLOAD]] + Chunks(payload[MAX_PAYLOAD..])
  }

  lemma {:induction false} ChunksReassemble(payload: Bytes)
    ensures Concat(Chunks(payload)) == payload
    ensures forall i :: 0 <= i < |Chunks(payload)| ==> 0 < |Chunks(payload)[i]| <= MAX_PAYLOAD
    ensures forall i :: 0 <= i < |Chunks(payload)| - 1 ==> |Chunks(payload)[i]| == 65536
  {
    if |payload| > MAX_PAYLOAD {
      ChunksReassemble(payload[MAX_PAYLOAD..]);
      assert Chunks(payload)[1..] == Chunks(payload[MAX_PAYLOAD..]);
    } else if payload != [] {
      var one: seq<Bytes> := [payload];
      assert one[1..] == [] && Concat(one) == payload + [];
    }
  }

  function DataFrames(kind: Kind, stream: int, chunks: seq<Bytes>): (fs: seq<Frame>)
    ensures |fs| == |chunks| && forall i :: 0 <= i < |fs| ==> fs[i] == Frame(kind, stream, chunks[i])
  {
    seq(|chunks|, i requires 0 <= i < |chunks| => Frame(kind, stream, chunks[i]))
  }

  /** Everything the relay writes for one request. */
  function RelayFrames(hello: Bytes, stream: int, raw: Bytes): seq<Frame> {
    [Frame(Hello, 0, hello), Frame(RequestStart, stream, [])]
    + DataFrames(RequestData, stream, Chunks(raw))
    + [Frame(RequestEnd, stream, [])]
  }

  // ---- The server side -------------------------------------------------------------------

  datatype Served = Raw(raw: Bytes, rest: Bytes) | Refused(code: string)

  /** The loop that collects REQUEST_DATA until REQUEST_END. */
  function Collect(b: Bytes, stream: int, limit: int, raw: Bytes): Served
    decreases |b|
  {
    match Decode(b)
    case Closed => Refused("PROXY_CHANNEL_CLOSED")
    case Malformed(code) => Refused(code)
    case Parsed(f, rest) =>
      if f.stream != stream then Refused("PROXY_FRAME_STREAM_MISMATCH")
      else if f.kind.RequestEnd? then
        if f.payload != [] then Refused("PROXY_REQUEST_END_INVALID") else Raw(raw, rest)
      else if !f.kind.RequestData? then Refused("PROXY_REQUEST_FRAME_INVALID")
      else if |raw| + |f.payload| > limit then Refused("PROXY_REQUEST_FRAME_LIMIT")
      else Collect(rest, stream, limit, raw + f.payload)
  }

  function Serve(b: Bytes, hello: Bytes, limit: int): Served {
    match Decode(b)
    case Closed => Refused("PROXY_CHANNEL_CLOSED")
    case Malformed(code) => Refused(code)
    case Parsed(first, b1) =>
      if !first.kind.Hello? || |first.payload| > MAX_HELLO || first.payload != hello then
        Refused("PROXY_CHANNEL_BINDING_MISMATCH")
      else match Decode(b1)
        case Closed => Refused("PROXY_CHANNEL_CLOSED")
        case Malformed(code) => Refused(code)
        case Parsed(start, b2) =>
          if !start.kind.RequestStart? || start.payload != [] then Refused("PROXY_REQUEST_START_INVALID")
          else Collect(b2, start.stream, limit, [])
  }

  ghost predicate ValidStream(stream: int) {
    0 < stream <= 0xFFFF_FFFF
  }

  lemma {:induction false} CollectRebuilds(stream: int, chunks: seq<Bytes>, limit: int, raw: Bytes, more: Bytes)
    requires ValidStream(stream) && |raw| <= limit
    requires forall i :: 0 <= i < |chunks| ==> |chunks[i]| <= MAX_PAYLOAD
    ensures var fs := DataFrames(RequestData, stream, chunks) + [Frame(RequestEnd, stream, [])];
            Collect(EncodeAll(fs) + more, stream, limit, raw)
            == if |raw + Concat(chunks)| <= limit then Raw(raw + Concat(chunks), more) else Refused("PROXY_REQUEST_FRAME_LIMIT")
    decreases |chunks|
  {
    hide Decode, Encode;
    var fs := DataFrames(RequestData, stream, chunks) + [Frame(RequestEnd, stream, [])];
    var rest := EncodeAll(fs[1..]) + more;
    assert EncodeAll(fs) + more == Encode(fs[0]) + rest;
    FrameRoundTrip(fs[0], rest);
    if chunks == [] {
      assert raw + Concat(chunks) == raw;
      assert rest == more;
    } else {
      assert fs[1..] == DataFrames(RequestData, stream, chunks[1..]) + [Frame(RequestEnd, stream, [])];
      assert raw + Concat(chunks) == (raw + chunks[0]) + Concat(chunks[1..]);
      if |raw| + |chunks[0]| <= limit {
        CollectRebuilds(stream, chunks[1..], limit, raw + chunks[0], more);
      }
    }
  }

  /** The server rebuilds exactly the relay's request when it is within the limit, and refuses it
      by the limit otherwise. */
  lemma ExchangeRebuildsRequest(hello: Bytes, stream: int, raw: Bytes, limit: nat, more: Bytes)
    requires ValidStream(stream) && |hello| <= MAX_HELLO
    ensures var fs := RelayFrames(hello, stream, raw);
            && (forall i :: 0 <= i < |fs| ==> ValidFrame(fs[i]))
            && Serve(EncodeAll(fs) + more, hello, limit)
               == if |raw| <= limit then Raw(raw, more) else Refused("PROXY_REQUEST_FRAME_LIMIT")
  {
    hide Decode, Encode, Collect, Chunks, DataFrames;
    ChunksReassemble(raw);
    var first, start := Frame(Hello, 0, hello), Frame(RequestStart, stream, []);
    var tail := DataFrames(RequestData, stream, Chunks(raw)) + [Frame(RequestEnd, stream, [])];
    EncodeTwo(first, start, tail, more);
    assert RelayFrames(hello, stream, raw) == [first, start] + tail;
    FrameRoundTrip(first, Encode(start) + (EncodeAll(tail) + more));
    FrameRoundTrip(start, EncodeAll(tail) + more);
    CollectRebuilds(stream, Chunks(raw), limit, [], more);
    assert [] + Concat(Chunks(raw)) == raw;
  }

  lemma EncodeTwo(f: Frame, g: Frame, tail: seq<Frame>, more: Bytes)
    requires ValidFrame(f) && ValidFrame(g) && forall i :: 0 <= i < |tail| ==> ValidFrame(tail[i])
    ensures (forall i :: 0 <= i < |[f, g] + tail| ==> ValidFrame(([f, g] + tail)[i]))
    ensures EncodeAll([f, g] + tail) + more == Encode(f) + (Encode(g) + (EncodeAll(tail) + more))
  {
    hide Encode, EncodeAll, ValidFrame;
    var rest := [g] + tail;
    EncodeCons(g, tail);
    EncodeCons(f, rest);
    assert [f] + rest == [f, g] + tail;
    Regroup(Encode(f), Encode(g), EncodeAll(tail), more);
  }

  lemma Regroup(a: Bytes, b: Bytes, c: Bytes, d: Bytes)
    ensures a + (b + c) + d == a + (b + (c + d))
  {
  }

  lemma EncodeCons(f: Frame, tail: seq<Frame>)
    requires ValidFrame(f) && forall i :: 0 <= i < |tail| ==> ValidFrame(tail[i])
    ensures EncodeAll([f] + tail) == Encode(f) + EncodeAll(tail)
  {
    hide Encode, ValidFrame;
    assert ([f] + tail)[1..] == tail;
  }

  // ---- The response half -----------------------------------------------------------------

  datatype Response = Response(body: Bytes, terminal: Bytes, rest: Bytes) | NoResponse(code: string)

  /** The relay's loop: gather RESPONSE_DATA until RESPONSE_END and hand over its payload. */
  function Gather(b: Bytes, stream: int, limit: int, body: Bytes): Response
    decreases |b|
  {
    match Decode(b)
    case Closed => NoResponse("PROXY_CHANNEL_CLOSED")
    case Malformed(code) => NoResponse(code)
    case Parsed(f, rest) =>
      if f.stream != stream then NoResponse("PROXY_FRAME_STREAM_MISMATCH")
      else if f.kind.ResponseData? then
        if |body| + |f.payload| > limit then NoResponse("PROXY_RESPONSE_FRAME_LIMIT")
        else Gather(rest, stream, limit, body + f.payload)
      else if f.kind.ResponseEnd? then Response(body, f.payload, rest)
      else NoResponse("PROXY_RESPONSE_FRAME_INVALID")
  }

  /** The chunks of every emitted value, in order. */
  function AllChunks(values: seq<Bytes>): seq<Bytes> {
    if values == [] then [] else Chunks(values[0]) + AllChunks(values[1..])
  }

  lemma {:induction false} AllChunksReassemble(values: seq<Bytes>)
    ensures Concat(AllChunks(values)) == Concat(values)
    ensures forall i :: 0 <= i < |AllChunks(values)| ==> |AllChunks(values)[i]| <= MAX_PAYLOAD
  {
    if values != [] {
      ChunksReassemble(values[0]);
      AllChunksReassemble(values[1..]);
      ConcatAppend(Chunks(values[0]), AllChunks(values[1..]));
    }
  }

  /** Everything the server writes for one response. */
  function ServerFrames(stream: int, values: seq<Bytes>, terminal: Bytes): seq<Frame> {
    DataFrames(ResponseData, stream, AllChunks(values)) + [Frame(ResponseEnd, stream, terminal)]
  }

  lemma {:induction false} GatherRebuilds(stream: int, chunks: seq<Bytes>, terminal: Bytes, limit: int, body: Bytes, more: Bytes)
    requires ValidStream(stream) && |body| <= limit && |terminal| <= MAX_PAYLOAD
    requires forall i :: 0 <= i < |chunks| ==> |chunks[i]| <= MAX_PAYLOAD
    ensures var fs := DataFrames(ResponseData, stream, chunks) + [Frame(ResponseEnd, stream, terminal)];
            Gather(EncodeAll(fs) + more, stream, limit, body)
            == if |body + Concat(chunks)| <= limit then Response(body + Concat(chunks), terminal, more)
               else NoResponse("PROXY_RESPONSE_FRAME_LIMIT")
    decreases |chunks|
  {
    hide Decode, Encode;
    var fs := DataFrames(ResponseData, stream, chunks) + [Frame(ResponseEnd, stream, terminal)];
    var rest := EncodeAll(fs[1..]) + more;
    assert EncodeAll(fs) + more == Encode(fs[0]) + rest;
    FrameRoundTrip(fs[0], rest);
    if chunks == [] {
      assert body + Concat(chunks) == body;
      assert rest == more;
    } else {
      assert fs[1..] == DataFrames(ResponseData, stream, chunks[1..]) + [Frame(ResponseEnd, stream, terminal)];
      assert body + Concat(chunks) == (body + chunks[0]) + Concat(chunks[1..]);
      if |body| + |chunks[0]| <= limit {
        GatherRebuilds(stream, chunks[1..], terminal, limit, body + chunks[0], more);
      }
    }
  }

  /** The relay receives exactly the concatenation of the emitted values and the terminal payload,
      however the values were sized. */
  lemma ExchangeRebuildsResponse(stream: int, values: seq<Bytes>, terminal: Bytes, limit: nat, more: Bytes)
    requires ValidStream(stream) && |terminal| <= MAX_PAYLOAD
    ensures var fs := ServerFrames(stream, values, terminal);
            && (forall i :: 0 <= i < |fs| ==> ValidFrame(fs[i]))
            && Gather(EncodeAll(fs) + more, stream, limit, [])
               == if |Concat(values)| <= limit then Response(Concat(values), terminal, more)
                  else NoResponse("PROXY_RESPONSE_FRAME_LIMIT")
  {
    hide Gather, Encode, EncodeAll;
    AllChunksReassemble(values);
    GatherRebuilds(stream, AllChunks(values), terminal, limit, [], more);
    assert [] + Concat(values) == Concat(values);
  }

  lemma {:induction false} EncodeAllAppend(fs: seq<Frame>, gs: seq<Frame>)
    requires forall i :: 0 <= i < |fs| ==> ValidFrame(fs[i])
    requires forall i :: 0 <= i < |gs| ==> ValidFrame(gs[i])
    ensures EncodeAll(fs + gs) == EncodeAll(fs) + EncodeAll(gs)
  {
    hide Encode;
    if fs == [] {
      assert fs + gs == gs;
    } else {
      assert (fs + gs)[1..] == fs[1..] + gs;
      EncodeAllAppend(fs[1..], gs);
    }
  }
}
