/** The SSE completion tracker as a value.  The JSON decoder is a parameter: every result below
    holds for every decoder. */
module SseSpec {
  import opened Prelude
  import opened ProxyLedgerSpec

  const LF: Byte := 10
  const CR: Byte := 13
  const SPACE: Byte := 32
  const DATA_PREFIX: Bytes := [100, 97, 116, 97, 58]
  const DONE_MARK: Bytes := [91, 68, 79, 78, 69, 93]

  // ---- Delimiters ------------------------------------------------------------------------

  predicate LfLfAt(b: Bytes, i: int) {
    0 <= i && i + 2 <= |b| && b[i] == LF && b[i+1] == LF
  }

  predicate CrlfCrlfAt(b: Bytes, i: int) {
    0 <= i && i + 4 <= |b| && b[i] == CR && b[i+1] == LF && b[i+2] == CR && b[i+3] == LF
  }

  predicate DelimiterAt(b: Bytes, i: int) {
    LfLfAt(b, i) || CrlfCrlfAt(b, i)
  }

  function DelimiterSize(b: Bytes, i: int): nat {
    if CrlfCrlfAt(b, i) then 4 else 2
  }

  /** The earliest delimiter at or after i. */
  function NextDelimiter(b: Bytes, i: nat): (r: Option<nat>)
    requires i <= |b|
    ensures r.Some? ==> i <= r.value && DelimiterAt(b, r.value) && forall j :: i <= j < r.value ==> !DelimiterAt(b, j)
    ensures r.None? ==> forall j :: i <= j ==> !DelimiterAt(b, j)
    decreases |b| - i
  {
    if DelimiterAt(b, i) then Some(i)
    else if i == |b| then None
    else NextDelimiter(b, i + 1)
  }

  function Boundary(b: Bytes): Option<nat> {
    NextDelimiter(b, 0)
  }

  function HasLfLf(b: Bytes): bool {
    exists i :: 0 <= i < |b| && LfLfAt(b, i)
  }

  // ---- One event -------------------------------------------------------------------------

  datatype IdField = NoId | BadId | GoodId(id: string)
  datatype UsageField = UsageMissing | UsageInvalid | Usage(input: nat, output: nat)
  datatype ResponseField = ResponseField(id: IdField, usage: UsageField)

  /** What the strict JSON decoder makes of the data of one event. */
  datatype Decoded =
    | JsonInvalid
    | NotAnEvent
    | Message(kind: string, response: Option<ResponseField>)

  type Decoder = Bytes -> Decoded

  datatype Item = NonData | DoneMark | Json(decoded: Decoded)

  function CrlfToLf(b: Bytes): Bytes {
    if |b| >= 2 && b[0] == CR && b[1] == LF then [LF] + CrlfToLf(b[2..])
    else if b == [] then []
    else [b[0]] + CrlfToLf(b[1..])
  }

  function SplitLf(b: Bytes): seq<Bytes> {
    if b == [] then [[]]
    else if b[0] == LF then [[]] + SplitLf(b[1..])
    else
      var rest := SplitLf(b[1..]);
      if rest == [] then [[b[0]]] else [[b[0]] + rest[0]] + rest[1..]
  }

  function StripSpaces(b: Bytes): Bytes {
    if b != [] && b[0] == SPACE then StripSpaces(b[1..]) else b
  }

  function JoinLf(lines: seq<Bytes>): Bytes {
    if lines == [] then [] else if |lines| == 1 then lines[0] else lines[0] + [LF] + JoinLf(lines[1..])
  }

  predicate IsDataLine(line: Bytes) {
    |line| >= 5 && line[..5] == DATA_PREFIX
  }

  function DataLines(lines: seq<Bytes>): Option<seq<Bytes>> {
    if lines == [] then Some([])
    else if !IsDataLine(lines[0]) then None
    else
      var rest := DataLines(lines[1..]);
      if rest.None? then None else Some([StripSpaces(lines[0][5..])] + rest.value)
  }

  function ItemOf(decode: Decoder, event: Bytes): Item {
    var lines := DataLines(SplitLf(CrlfToLf(event)));
    if lines.None? then NonData
    else
      var data := JoinLf(lines.value);
      if data == DONE_MARK then DoneMark else Json(decode(data))
  }

  // ---- The tracker -----------------------------------------------------------------------

  datatype Tracker = Tracker(
    maxEvent: int, buffer: Bytes, responseId: Option<string>, input: Option<nat>, output: Option<nat>,
    created: bool, completed: bool, done: bool, terminal: Bytes)

  datatype SseError = StreamAmbiguous(code: string) | TerminalFailure(code: string)

  datatype Consumed = Raised(error: SseError, at: Tracker) | Consumed(tracker: Tracker, forward: bool)

  function Fresh(maxEvent: int): Tracker {
    Tracker(maxEvent, [], None, None, None, false, false, false, [])
  }

  function Reject(t: Tracker, code: string): Consumed {
    Raised(StreamAmbiguous(code), t)
  }

  function Consume(t: Tracker, item: Item, wire: Bytes): Consumed {
    match item
    case NonData => Reject(t, "BROKER_PROXY_SSE_NON_DATA_EVENT")
    case DoneMark =>
      if !t.completed || t.done then Reject(t, "BROKER_PROXY_SSE_DONE_BEFORE_COMPLETE")
      else Consumed(t.(done := true, terminal := t.terminal + wire), false)
    case Json(JsonInvalid) => Reject(t, "BROKER_PROXY_SSE_JSON_INVALID")
    case Json(NotAnEvent) => Reject(t, "BROKER_PROXY_SSE_EVENT_INVALID")
    case Json(Message(kind, response)) =>
      if t.completed then Reject(t, "BROKER_PROXY_SSE_EVENT_AFTER_COMPLETE")
      else if response.Some? && response.value.id.BadId? then Reject(t, "BROKER_PROXY_RESPONSE_ID_INVALID")
      else if response.Some? && response.value.id.GoodId? && !ValidResponseId(response.value.id.id) then
        Reject(t, "BROKER_PROXY_RESPONSE_ID_INVALID")
      else if response.Some? && response.value.id.GoodId? && t.responseId.Some? && t.responseId.value != response.value.id.id then
        Reject(t, "BROKER_PROXY_RESPONSE_ID_INVALID")
      else
        ConsumeKind(if response.Some? && response.value.id.GoodId? then t.(responseId := Some(response.value.id.id)) else t,
                    kind, response, wire)
  }

  function ConsumeKind(t: Tracker, kind: string, response: Option<ResponseField>, wire: Bytes): Consumed {
    if kind == "response.created" then
      if t.created || response.None? || t.responseId.None? then Reject(t, "BROKER_PROXY_SSE_CREATED_INVALID")
      else Consumed(t.(created := true), true)
    else if !t.created then Reject(t, "BROKER_PROXY_SSE_EVENT_BEFORE_CREATED")
    else if kind == "response.failed" || kind == "response.incomplete" then
      Raised(TerminalFailure("BROKER_PROXY_UPSTREAM_TERMINAL_FAILURE"), t)
    else if kind == "response.completed" then
      if response.None? then Reject(t, "BROKER_PROXY_SSE_COMPLETION_INVALID")
      else match response.value.usage
        case UsageMissing => Reject(t, "BROKER_PROXY_SSE_USAGE_MISSING")
        case UsageInvalid => Reject(t, "BROKER_PROXY_SSE_USAGE_INVALID")
        case Usage(i, o) =>
          Consumed(t.(input := Some(i), output := Some(o), completed := true, terminal := t.terminal + wire), false)
    else Consumed(t, true)
  }

  const TOO_LARGE := StreamAmbiguous("BROKER_PROXY_SSE_EVENT_TOO_LARGE")

  datatype Fed = Fed(tracker: Tracker, forwarded: seq<Bytes>, error: Option<SseError>)

  lemma ConsumeKeepsBuffer(t: Tracker, item: Item, wire: Bytes)
    ensures Consume(t, item, wire).Consumed? ==>
              Consume(t, item, wire).tracker.buffer == t.buffer && Consume(t, item, wire).tracker.maxEvent == t.maxEvent
  {
  }

  /** Take complete events off the buffer until none is left or one is rejected. */
  function Drain(decode: Decoder, t: Tracker): Fed
    decreases |t.buffer|
  {
    if Boundary(t.buffer).None? then Fed(t, [], None)
    else
      var p := Boundary(t.buffer).value;
      var cut := p + DelimiterSize(t.buffer, p);
      var event, wire := t.buffer[..p], t.buffer[..cut];
      var rest := t.(buffer := t.buffer[cut..]);
      if |event| > t.maxEvent then Fed(rest, [], Some(TOO_LARGE))
      else
        var c := Consume(rest, ItemOf(decode, event), wire);
        if c.Raised? then Fed(c.at, [], Some(c.error))
        else
          ConsumeKeepsBuffer(rest, ItemOf(decode, event), wire);
          var next := Drain(decode, c.tracker);
          Fed(next.tracker, (if c.forward then [wire] else []) + next.forwarded, next.error)
  }

  /** The size guard: it looks for LF-LF only. */
  predicate GuardTrips(t: Tracker) {
    |t.buffer| > t.maxEvent && !HasLfLf(t.buffer)
  }

  function Feed(decode: Decoder, t: Tracker, chunk: Bytes): Fed {
    if chunk == [] then Fed(t, [], None)
    else
      var grown := t.(buffer := t.buffer + chunk);
      if GuardTrips(grown) then Fed(grown, [], Some(TOO_LARGE)) else Drain(decode, grown)
  }

  /** Consecutive feeds, stopping at the first rejection. */
  function FeedAll(decode: Decoder, t: Tracker, chunks: seq<Bytes>): Fed
    decreases |chunks|
  {
    if chunks == [] then Fed(t, [], None)
    else
      var first := Feed(decode, t, chunks[0]);
      if first.error.Some? then first
      else
        var rest := FeedAll(decode, first.tracker, chunks[1..]);
        Fed(rest.tracker, first.forwarded + rest.forwarded, rest.error)
  }

  predicate Whitespace(b: Byte) {
    b == 32 || 9 <= b <= 13
  }

  predicate Blank(b: Bytes) {
    forall i :: 0 <= i < |b| ==> Whitespace(b[i])
  }

  datatype Finish = Finished(response: string, input: nat, output: nat, terminal: Bytes) | Unfinished(code: string)

  function FinishOf(t: Tracker): Finish {
    if !Blank(t.buffer) then Unfinished("BROKER_PROXY_SSE_TRUNCATED")
    else if !t.created || !t.completed || t.responseId.None? || t.input.None? || t.output.None? then
      Unfinished("BROKER_PROXY_SSE_COMPLETION_MISSING")
    else Finished(t.responseId.value, t.input.value, t.output.value, t.terminal)
  }
}
