/** What surrounds one proxied request: the outcomes of everything outside the ledger and the
    tracker, the trace of what the handler did, and how an exception must settle the row. */
module ProxyHandlerSpec {
  import opened Prelude
  import opened ProxyLedgerSpec
  import opened ProxyLedgerProofs
  import Sse = SseSpec
  import SseProofs

  datatype Exc =
    | Policy(code: string, status: int)
    | Rejected(upstream: nat)
    | TerminalFailed(code: string)
    | MaybeSent(code: string)
    | Held(code: string)
    | TimedOut(code: string)
    | Other

  /** What a bounded write or a deadline computation may raise. */
  datatype Fault = WriteTimeout(code: string) | NotStarted(code: string) | Broken

  function Raise(f: Fault): Exc {
    match f
    case WriteTimeout(code) => TimedOut(code)
    case NotStarted(code) => Held(code)
    case Broken => Other
  }

  function LedgerExc(e: LedgerError): Exc {
    match e
    case ProxyHold(code) => Held(code)
    case PolicyError(code, status) => Policy(code, status)
    case _ => Other
  }

  function SseExc(e: Sse.SseError): Exc {
    match e
    case StreamAmbiguous(code) => MaybeSent(code)
    case TerminalFailure(code) => TerminalFailed(code)
  }

  datatype Preparation = Prepared(estimated: int, reserved: int, request: string, operation: string) | Unprepared(exc: Exc)

  /** `status` is None when upstream's status is not an integer. */
  datatype StreamHead = StreamHead(status: Option<int>, contentType: string)

  datatype Opening = OpenRaised(exc: Exc) | NoResult | Opening(evidence: SendEvidence, stream: Option<StreamHead>)

  datatype Receive =
    | WallExpired | DeadlineFault(fault: Fault) | ReceiveRaised(exc: Exc) | TooSlow | EndOfStream | NotBytes
    | Chunk(bytes: Bytes)

  /** One script of the outside world: a run of the handler is determined by it. */
  datatype Outside = Outside(
    preparation: Preparation, openDeadline: Option<Fault>, opening: Opening, sent: nat,
    receives: seq<Receive>, writes: nat -> Option<Fault>)

  /** The transport's word on zero bytes is true; `sent` is what really left during the open. */
  predicate Truthful(o: Outside) {
    o.opening.Opening? && o.opening.evidence.bytesSent == 0 ==> o.sent == 0
  }

  datatype Output = LocalError(status: int, code: string) | Head | Event(bytes: Bytes) | Terminal(bytes: Bytes)

  /** What happened, with the request row as it was durable at that moment. */
  datatype Effect = Opened(row: RequestRow) | Wrote(output: Output, at: Option<RequestState>, delivered: bool)

  datatype Outcome =
    | Returned(status: int, state: RequestState, sequence: int, response: Option<string>)
    | Escaped(exc: Exc)

  // ---- The stream the outside offers -----------------------------------------------------

  /** The chunks received before the stream ends or fails. */
  function Offered(receives: seq<Receive>): seq<Bytes> {
    if receives == [] || !receives[0].Chunk? then [] else [receives[0].bytes] + Offered(receives[1..])
  }

  /** The body bytes written towards the child, in order. */
  function BodyBytes(trace: seq<Effect>): Bytes {
    if trace == [] then []
    else
      var last := trace[|trace|-1];
      BodyBytes(trace[..|trace|-1])
      + (if last.Wrote? && last.output.Event? then last.output.bytes
         else if last.Wrote? && last.output.Terminal? then last.output.bytes else [])
  }

  /** How often upstream was opened. */
  function Opens(trace: seq<Effect>): nat {
    if trace == [] then 0 else Opens(trace[..|trace|-1]) + (if trace[|trace|-1].Opened? then 1 else 0)
  }

  lemma BodyBytesOfAppend(trace: seq<Effect>, e: Effect)
    ensures Opens(trace + [e]) == Opens(trace) + (if e.Opened? then 1 else 0)
    ensures BodyBytes(trace + [e])
            == BodyBytes(trace)
               + (if e.Wrote? && e.output.Event? then e.output.bytes else if e.Wrote? && e.output.Terminal? then e.output.bytes else [])
  {
    assert (trace + [e])[..|trace|] == trace;
  }

  ghost predicate NoOpen(trace: seq<Effect>) {
    forall i :: 0 <= i < |trace| ==> !trace[i].Opened?
  }

  /** Upstream is opened at most once, on a row that is durably started with its reservation; the
      withheld bytes go out only from a COMPLETE row; stream events only from a STREAMING one. */
  ghost predicate TraceOk(trace: seq<Effect>) {
    && (forall i, j :: 0 <= i < j < |trace| ==> !(trace[i].Opened? && trace[j].Opened?))
    && (forall i :: 0 <= i < |trace| ==> EffectOk(trace[i]))
  }

  lemma EmptyTrace()
    ensures TraceOk([]) && Opens([]) == 0
  {
  }

  lemma {:induction false} OpensOnce(trace: seq<Effect>)
    requires forall i, j :: 0 <= i < j < |trace| ==> !(trace[i].Opened? && trace[j].Opened?)
    ensures Opens(trace) <= 1 && (NoOpen(trace) ==> Opens(trace) == 0)
  {
    if trace != [] { OpensOnce(trace[..|trace|-1]); }
  }

  lemma OpenedOnce(trace: seq<Effect>)
    requires TraceOk(trace)
    ensures Opens(trace) <= 1
  {
    OpensOnce(trace);
  }

  lemma TraceOpens(trace: seq<Effect>, row: RequestRow)
    requires TraceOk(trace) && NoOpen(trace) && EffectOk(Opened(row))
    ensures TraceOk(trace + [Opened(row)]) && BodyBytes(trace + [Opened(row)]) == BodyBytes(trace)
    ensures Opens(trace + [Opened(row)]) == Opens(trace) + 1
  {
    BodyBytesOfAppend(trace, Opened(row));
  }

  ghost predicate EffectOk(e: Effect) {
    && (e.Opened? ==> e.row.state.UpstreamStarted? && e.row.estimated.Some? && e.row.reserved.Some? && e.row.evidence.None?)
    && (e.Wrote? && e.output.Terminal? ==> e.at == Some(Complete))
    && (e.Wrote? && e.output.Event? ==> e.at == Some(Streaming))
    && (e.Wrote? && e.output.Head? ==> e.at == Some(UpstreamStarted))
    && (e.Wrote? && e.output.LocalError? ==> e.at.None? || !Active(e.at.value))
  }

  // ---- Settling --------------------------------------------------------------------------

  /** Where an exception leaves the row, given where it was. */
  function SettledState(exc: Exc, s: RequestState): RequestState {
    if !Active(s) then s
    else if exc.Policy? || exc.Rejected? || exc.TerminalFailed? || s.Created? then Failed
    else Ambiguous
  }

  const CREDENTIAL_HOLD := "BROKER_UPSTREAM_CREDENTIAL_REJECTED"
  const INTERNAL := "BROKER_PROXY_INTERNAL_FAILURE"

  function StatusCode(status: nat): string {
    "BROKER_PROXY_UPSTREAM_STATUS_" + Decimal(status)
  }

  function RejectionHold(status: nat): string {
    if status == 401 || status == 403 then CREDENTIAL_HOLD else StatusCode(status)
  }

  /** The code a settled row records. */
  function ErrorCode(exc: Exc): string {
    if exc.Other? then INTERNAL else if exc.Rejected? then StatusCode(exc.upstream) else exc.code
  }

  /** The code the child is told. */
  function ReportCode(exc: Exc): string {
    if exc.Rejected? then RejectionHold(exc.upstream) else ErrorCode(exc)
  }

  function HttpStatus(exc: Exc): int {
    match exc
    case Policy(_, status) => status
    case Rejected(_) => 502
    case TerminalFailed(_) => 502
    case MaybeSent(_) => 504
    case Held(_) => 504
    case TimedOut(_) => 504
    case Other => 500
  }

  /** The hold that an exception puts on the proxy, if any; `s` is the state of the row before. */
  function SettledHold(exc: Exc, s: RequestState): Option<string> {
    if exc.Rejected? then Some(RejectionHold(exc.upstream))
    else if exc.TerminalFailed? then Some(exc.code)
    else if SettledState(exc, s).Ambiguous? && Active(s) then Some(AMBIGUOUS_HOLD)
    else if s.Complete? && (exc.MaybeSent? || exc.Held? || exc.TimedOut?) then Some(exc.code)
    else None
  }

  // ---- Ledger facts in the handler's terms -----------------------------------------------

  /** The handler's request is the newest row, active, on a running proxy. */
  ghost predicate Live(l: Ledger, id: string, n: int) {
    && id in l && l[id].proxy.state.Running? && n == l[id].proxy.count
    && n in l[id].requests && Active(l[id].requests[n].state)
  }

  ghost predicate Settled(l: Ledger, id: string, n: int) {
    id in l && n == l[id].proxy.count && n in l[id].requests && !Active(l[id].requests[n].state)
  }

  /** Other attempts, and other requests of this one, are as they were. */
  ghost predicate OnlyTouches(l: Ledger, l': Ledger, id: string, n: int) {
    && id in l && id in l' && l - {id} == l' - {id}
    && l[id].requests - {n} == l'[id].requests - {n}
    && l[id].proxy.binding == l'[id].proxy.binding
  }

  /** Only the newest row can be active. */
  lemma SettledIsQuiet(l: Ledger, id: string, n: int)
    requires LedgerOk(l) && Settled(l, id, n)
    ensures !HasActive(l[id])
  {
    assert ActivityOk(l[id]);
  }

  /** Sequences start at one. */
  lemma NoRowZero(l: Ledger, id: string)
    requires LedgerOk(l)
    ensures id in l ==> 0 !in l[id].requests
  {
  }

  lemma BeginFacts(l: Ledger, id: string, digest: string)
    requires LedgerOk(l)
    ensures var (l', r) := BeginRequest(l, id, digest);
            if r.Sequence? then
              && Live(l', id, r.n) && OnlyTouches(l, l', id, r.n) && l'[id].proxy == l[id].proxy.(count := r.n)
              && l'[id].requests[r.n] == RequestRow(digest, Created, None, None, None, None, None, None, None, false, None)
            else r.Err? && l' == l
  {
  }

  lemma ReserveFacts(l: Ledger, id: string, n: int, e: int, r: int)
    requires LedgerOk(l) && Live(l, id, n)
    ensures var (l', reply) := ReserveBudget(l, id, n, e, r);
            if reply == Done then
              Live(l', id, n) && OnlyTouches(l, l', id, n)
              && l'[id].requests[n] == l[id].requests[n].(estimated := Some(e), reserved := Some(r))
            else reply.Err? && l' == l
    ensures l[id].requests[n].state.Created? && l[id].requests[n].estimated.None? && l[id].requests[n].reserved.None?
            ==> (ReserveBudget(l, id, n, e, r).1 == Done
                 <==> e > 0 && r > 0 && WithinLimits(l[id].proxy, l[id].proxy.input + e, l[id].proxy.output + r))
  {
  }

  lemma EvidenceFacts(l: Ledger, id: string, n: int, e: SendEvidence, q: string, o: string)
    requires LedgerOk(l) && Live(l, id, n)
    ensures var (l', reply) := RecordEvidence(l, id, n, e, q, o);
            if reply == Done then
              && Live(l', id, n) && OnlyTouches(l, l', id, n)
              && l'[id].requests[n] == l[id].requests[n].(bytesSent := Some(e.bytesSent), evidence := Some(OfTransport(e)))
            else reply.Err? && l' == l
    ensures e.attempt == id && e.request == q && e.operation == o && e.binding == l[id].proxy.binding
            && l[id].requests[n].state.UpstreamStarted? && l[id].requests[n].evidence.None?
            ==> RecordEvidence(l, id, n, e, q, o).1 == Done
  {
  }

  lemma TransitionFacts(l: Ledger, id: string, n: int, next: RequestState, err: Option<string>)
    requires LedgerOk(l) && Live(l, id, n)
    requires LegalTransition(l[id].requests[n].state, next) && !next.Complete?
    requires next.SafeNotSent? ==> l[id].requests[n].bytesSent == Some(0) && l[id].requests[n].evidence.Some?
    ensures var (l', reply) := Transition(l, id, n, {l[id].requests[n].state}, next, err);
            && reply == Done && OnlyTouches(l, l', id, n)
            && l'[id].requests[n] == l[id].requests[n].(state := next, error := err)
            && l'[id].proxy == HeldIfAmbiguous(l[id].proxy, next)
            && (if Active(next) then Live(l', id, n) else Settled(l', id, n))
  {
  }

  lemma PrepareFacts(l: Ledger, id: string, n: int, response: string, input: int, output: int)
    requires LedgerOk(l) && Live(l, id, n)
    ensures var (l', reply) := PrepareCompletion(l, id, n, response, input, output);
            if reply == Done then
              && Live(l', id, n) && OnlyTouches(l, l', id, n) && l'[id].requests[n].state.Streaming?
              && l'[id].requests[n] == l[id].requests[n].(input := Some(input), output := Some(output),
                                                          response := Some(response), prepared := true)
            else
              reply.Err? && l' == l && (reply.error.ProxyHold? ==> l[id].requests[n].state.Streaming? && reply.error.code == OVERRUN_HOLD)
  {
  }

  /** Nothing but the request's own reservation can refuse a stream's usage. */
  lemma PrepareDecides(l: Ledger, id: string, n: int, response: string, input: nat, output: nat)
    requires LedgerOk(l) && Live(l, id, n) && l[id].requests[n].state.Streaming? && !l[id].requests[n].prepared
    requires l[id].requests[n].estimated.Some? && l[id].requests[n].reserved.Some? && ValidResponseId(response)
    ensures PrepareCompletion(l, id, n, response, input, output).1
            == if input <= l[id].requests[n].estimated.value && output <= l[id].requests[n].reserved.value then Done
               else Err(ProxyHold(OVERRUN_HOLD))
  {
    assert ReservationFits(l[id].proxy, l[id].requests[n]);
  }

  lemma FinalizeFacts(l: Ledger, id: string, n: int)
    requires LedgerOk(l) && Live(l, id, n) && l[id].requests[n].state.Streaming? && l[id].requests[n].prepared
    ensures var (l', reply) := FinalizeCompletion(l, id, n);
            && reply == Done && Settled(l', id, n) && OnlyTouches(l, l', id, n)
            && l'[id].requests[n] == l[id].requests[n].(state := Complete)
            && l'[id].proxy == l[id].proxy
  {
  }

  lemma HoldFacts(l: Ledger, id: string, n: int, code: string)
    requires LedgerOk(l) && Settled(l, id, n) && l[id].proxy.state.Running?
    ensures var (l', reply) := HoldProxy(l, id, code);
            && reply == Done && Settled(l', id, n) && OnlyTouches(l, l', id, n)
            && l'[id].requests == l[id].requests
            && l'[id].proxy == l[id].proxy.(state := Hold, holdCode := Some(code))
  {
  }

  lemma AmbiguousHolds(l: Ledger, id: string, n: int)
    requires LedgerOk(l) && id in l && n in l[id].requests && l[id].requests[n].state.Ambiguous?
    ensures l[id].proxy.state.Hold?
    ensures forall digest :: BeginRequest(l, id, digest).1 == Err(ProxyHold("BROKER_PROXY_NOT_RUNNING"))
  {
    assert ActivityOk(l[id]);
  }

  // ---- The stream, chunk by chunk --------------------------------------------------------

  /** Feeding two runs of chunks is feeding the first, then, unless it was rejected, the second. */
  lemma {:induction false} FeedAllSplits(decode: Sse.Decoder, t: Sse.Tracker, xs: seq<Bytes>, ys: seq<Bytes>)
    ensures var x := Sse.FeedAll(decode, t, xs);
            var y := Sse.FeedAll(decode, x.tracker, ys);
            Sse.FeedAll(decode, t, xs + ys)
            == if x.error.Some? then x else Sse.Fed(y.tracker, x.forwarded + y.forwarded, y.error)
    decreases |xs|
  {
    hide Sse.Feed;
    if xs == [] {
      assert xs + ys == ys;
      var y := Sse.FeedAll(decode, t, ys);
      assert [] + y.forwarded == y.forwarded;
    } else {
      assert (xs + ys)[1..] == xs[1..] + ys;
      var first := Sse.Feed(decode, t, xs[0]);
      FeedAllSplits(decode, first.tracker, xs[1..], ys);
      var rest := Sse.FeedAll(decode, first.tracker, xs[1..]);
      var y := Sse.FeedAll(decode, rest.tracker, ys);
      assert first.forwarded + (rest.forwarded + y.forwarded) == (first.forwarded + rest.forwarded) + y.forwarded;
    }
  }

  lemma FeedAllOne(decode: Sse.Decoder, t: Sse.Tracker, c: Bytes)
    ensures Sse.FeedAll(decode, t, [c]) == Sse.Feed(decode, t, c)
  {
    hide Sse.Feed;
    var one: seq<Bytes> := [c];
    assert one[1..] == [];
    assert Sse.Feed(decode, t, c).forwarded + [] == Sse.Feed(decode, t, c).forwarded;
  }

  /** The first `i + 1` chunks, given the first `i`. */
  lemma FeedNext(decode: Sse.Decoder, t: Sse.Tracker, chunks: seq<Bytes>, i: nat)
    requires i < |chunks| && Sse.FeedAll(decode, t, chunks[..i]).error.None?
    ensures var x := Sse.FeedAll(decode, t, chunks[..i]);
            var y := Sse.Feed(decode, x.tracker, chunks[i]);
            && Sse.FeedAll(decode, t, chunks[..i+1]) == Sse.Fed(y.tracker, x.forwarded + y.forwarded, y.error)
            && (y.error.Some? ==> Sse.FeedAll(decode, t, chunks).error.Some?)
            && (Sse.FeedAll(decode, t, chunks).error.None? ==>
                  |x.forwarded| + |y.forwarded| <= |Sse.FeedAll(decode, t, chunks).forwarded|)
            && Concat(chunks[..i+1]) == Concat(chunks[..i]) + chunks[i]
            && |Concat(chunks[..i+1])| <= |Concat(chunks)|
  {
    hide Sse.Feed, Sse.FeedAll, Concat;
    assert chunks[..i+1] == chunks[..i] + [chunks[i]];
    FeedAllSplits(decode, t, chunks[..i], [chunks[i]]);
    FeedAllOne(decode, Sse.FeedAll(decode, t, chunks[..i]).tracker, chunks[i]);
    assert chunks == chunks[..i+1] + chunks[i+1..];
    FeedAllSplits(decode, t, chunks[..i+1], chunks[i+1..]);
    ConcatAppend(chunks[..i], [chunks[i]]);
    ConcatOne(chunks[i]);
    ConcatAppend(chunks[..i+1], chunks[i+1..]);
  }

  lemma {:induction false} OfferedChunks(receives: seq<Receive>)
    ensures |Offered(receives)| <= |receives|
    ensures forall i :: 0 <= i < |Offered(receives)| ==> receives[i] == Chunk(Offered(receives)[i])
    ensures |Offered(receives)| < |receives| ==> !receives[|Offered(receives)|].Chunk?
  {
    if receives != [] && receives[0].Chunk? {
      OfferedChunks(receives[1..]);
      var rest := Offered(receives[1..]);
      forall i | 0 <= i < |Offered(receives)| ensures receives[i] == Chunk(Offered(receives)[i]) {
        if i > 0 { assert receives[1..][i-1] == Chunk(rest[i-1]); }
      }
    }
  }

  // ---- Response ids ----------------------------------------------------------------------

  predicate IdOk(t: Sse.Tracker) {
    t.responseId.Some? ==> ValidResponseId(t.responseId.value)
  }

  lemma ConsumeIdOk(t: Sse.Tracker, item: Sse.Item, wire: Bytes)
    requires IdOk(t)
    ensures Sse.Consume(t, item, wire).Consumed? ==> IdOk(Sse.Consume(t, item, wire).tracker)
  {
  }

  lemma {:induction false} DrainIdOk(decode: Sse.Decoder, t: Sse.Tracker)
    requires IdOk(t)
    ensures Sse.Drain(decode, t).error.None? ==> IdOk(Sse.Drain(decode, t).tracker)
    decreases |t.buffer|
  {
    hide Sse.Consume, Sse.ItemOf;
    if Sse.Boundary(t.buffer).Some? {
      var p := Sse.Boundary(t.buffer).value;
      var cut := p + Sse.DelimiterSize(t.buffer, p);
      var rest := t.(buffer := t.buffer[cut..]);
      var item := Sse.ItemOf(decode, t.buffer[..p]);
      ConsumeIdOk(rest, item, t.buffer[..cut]);
      Sse.ConsumeKeepsBuffer(rest, item, t.buffer[..cut]);
      var c := Sse.Consume(rest, item, t.buffer[..cut]);
      if c.Consumed? { DrainIdOk(decode, c.tracker); }
    }
  }

  lemma {:induction false} FeedAllIdOk(decode: Sse.Decoder, t: Sse.Tracker, chunks: seq<Bytes>)
    requires IdOk(t)
    ensures Sse.FeedAll(decode, t, chunks).error.None? ==> IdOk(Sse.FeedAll(decode, t, chunks).tracker)
    decreases |chunks|
  {
    hide Sse.Drain;
    if chunks != [] {
      DrainIdOk(decode, t.(buffer := t.buffer + chunks[0]));
      if Sse.Feed(decode, t, chunks[0]).error.None? {
        FeedAllIdOk(decode, Sse.Feed(decode, t, chunks[0]).tracker, chunks[1..]);
      }
    }
  }

  /** What has been forwarded is a prefix of what was offered. */
  lemma ForwardedIsPrefix(decode: Sse.Decoder, maxEvent: int, chunks: seq<Bytes>, more: seq<Bytes>)
    requires Sse.FeedAll(decode, Sse.Fresh(maxEvent), chunks).error.None?
    ensures var r := Sse.FeedAll(decode, Sse.Fresh(maxEvent), chunks);
            && Concat(r.forwarded) <= Concat(chunks + more)
            && Concat(r.forwarded) + r.tracker.terminal <= Concat(chunks + more)
  {
    hide Sse.FeedAll;
    SseProofs.StreamIsConserved(decode, maxEvent, chunks);
    ConcatAppend(chunks, more);
    var r := Sse.FeedAll(decode, Sse.Fresh(maxEvent), chunks);
    assert Concat(chunks + more) == Concat(r.forwarded) + (r.tracker.terminal + r.tracker.buffer + Concat(more));
    assert Concat(chunks + more) == Concat(r.forwarded) + r.tracker.terminal + (r.tracker.buffer + Concat(more));
  }
}
