/** The request handler: begin, reserve, start, open once, stream, and settle the row whatever the
    outside does. */
module ProxyHandler {
  import opened Prelude
  import opened ProxyLedgerSpec
  import opened ProxyLedgerProofs
  import opened ProxyHandlerSpec
  import opened ProxyOutcome
  import Sse = SseSpec
  import Events = SseEvents
  import Wire = ProxyWire
  import opened SseTracker
  import opened ProxyLedger

  datatype BodyResult = Finished(status: int, state: RequestState, response: Option<string>) | Raised(exc: Exc)

  ghost predicate WriteExc(e: Exc) {
    e.TimedOut? || e.Held? || e.Other?
  }

  /** A COMPLETE row records the usage and the id of the stream, and the child was sent exactly the
      forwarded events and then the withheld bytes. */
  ghost predicate CompletedBy(o: Outside, row: RequestRow, trace: seq<Effect>, decode: Sse.Decoder, limits: Limits) {
    var t := Sse.FeedAll(decode, Sse.Fresh(limits.maxEvent), Offered(o.receives));
    var f := Sse.FinishOf(t.tracker);
    && f.Finished? && row.input == Some(f.input) && row.output == Some(f.output) && row.response == Some(f.response)
    && BodyBytes(trace) == Concat(t.forwarded) + f.terminal
  }

  class AttemptBoundResponsesProxy {
    const id: string
    const binding: string
    const limits: Limits
    const decode: Sse.Decoder
    const digest: Bytes -> string
    const ledger: AttemptProxyLedger
    var previous: Option<string>
    var trace: seq<Effect>
    var responding: bool
    var writes: nat
    /** Every ledger call and every send of the current request, from the world it began in. */
    ghost var origin: Wire.World
    ghost var base: seq<Op>
    ghost var steps: seq<Wire.WireStep>
    ghost var honest: bool

    constructor (id: string, binding: string, limits: Limits, decode: Sse.Decoder, digest: Bytes -> string, ledger: AttemptProxyLedger)
      ensures this.id == id && this.binding == binding && this.limits == limits && this.decode == decode
      ensures this.digest == digest && this.ledger == ledger && previous.None?
    {
      this.id, this.binding, this.limits, this.decode, this.digest, this.ledger := id, binding, limits, decode, digest, ledger;
      previous, trace, responding, writes := None, [], false, 0;
    }

    ghost predicate Kept()
      reads this, ledger
    {
      && ledger.Valid() && TraceOk(trace) && Wire.Logged(honest, origin, steps, ledger.attempts)
      && ledger.history == base + Wire.Calls(steps) && Opens(trace) == Wire.Sends(steps)
    }

    ghost predicate Ready(n: int)
      reads this, ledger
    {
      Kept() && Live(ledger.attempts, id, n) && ledger.attempts[id].proxy.binding == binding
    }

    ghost function Row(n: int): RequestRow
      requires Ready(n)
      reads this, ledger
    {
      ledger.attempts[id].requests[n]
    }

    /** What has really been sent, for every request. */
    ghost function OnWire(): map<(string, int), nat>
      reads this
    {
      Wire.WireRun(origin, steps).wire
    }

    /** The durable state of a request, if it has a row. */
    function StateOf(n: int): Option<RequestState>
      reads ledger
    {
      if id in ledger.attempts && n in ledger.attempts[id].requests then Some(ledger.attempts[id].requests[n].state) else None
    }

    /** One bounded write towards the child, recorded with the row as it is durable now. */
    method Write(n: int, output: Output, o: Outside) returns (fault: Option<Exc>)
      requires TraceOk(trace) && EffectOk(Wrote(output, StateOf(n), true))
      modifies this`trace, this`writes
      ensures TraceOk(trace) && trace == old(trace) + [Wrote(output, StateOf(n), fault.None?)] && writes == old(writes) + 1
      ensures fault.Some? ==> WriteExc(fault.value)
      ensures fault.None? <==> o.writes(old(writes)).None?
      ensures fault.Some? ==> fault == Some(Raise(o.writes(old(writes)).value))
      ensures Opens(trace) == old(Opens(trace))
      ensures BodyBytes(trace) == old(BodyBytes(trace))
                                  + (if output.Event? then output.bytes else if output.Terminal? then output.bytes else [])
    {
      var f := o.writes(writes);
      fault := if f.None? then None else Some(Raise(f.value));
      var effect := Wrote(output, StateOf(n), fault.None?);
      BodyBytesOfAppend(trace, effect);
      trace, writes := trace + [effect], writes + 1;
    }

    /** Move the row along a legal edge other than the completion. */
    method Advance(n: int, next: RequestState, error: Option<string>)
      requires Ready(n) && LegalTransition(Row(n).state, next) && !next.Complete?
      requires next.SafeNotSent? ==> Row(n).bytesSent == Some(0) && Row(n).evidence.Some?
      modifies ledger, this`steps
      ensures Kept() && OnWire() == old(OnWire()) && OnlyTouches(old(ledger.attempts), ledger.attempts, id, n)
      ensures if Active(next) then Ready(n) else Settled(ledger.attempts, id, n)
      ensures ledger.attempts[id].requests[n] == old(Row(n)).(state := next, error := error)
      ensures ledger.attempts[id].proxy == HeldIfAmbiguous(old(ledger.attempts[id].proxy), next)
    {
      hide Transition, LedgerOk, TraceOk, Run, Wire.Logged, Wire.WireRun, Wire.Calls, Wire.Sends, Opens;
      TransitionFacts(ledger.attempts, id, n, next, error);
      var state := ledger.attempts[id].requests[n].state;
      Wire.LogCall(honest, origin, steps, ledger.attempts, OpTransition(id, n, {state}, next, error));
      steps := steps + [Wire.Call(OpTransition(id, n, {state}, next, error))];
      var _ := ledger.TransitionRequest(id, n, {state}, next, error);
    }

    method HoldSettled(n: int, code: string)
      requires Kept() && Settled(ledger.attempts, id, n) && ledger.attempts[id].proxy.state.Running?
      modifies ledger, this`steps
      ensures Kept() && OnWire() == old(OnWire()) && Settled(ledger.attempts, id, n)
      ensures OnlyTouches(old(ledger.attempts), ledger.attempts, id, n)
      ensures ledger.attempts[id].requests == old(ledger.attempts)[id].requests
      ensures ledger.attempts[id].proxy == old(ledger.attempts[id].proxy).(state := Hold, holdCode := Some(code))
    {
      hide HoldProxy, LedgerOk, TraceOk, Run, Wire.Logged, Wire.WireRun, Wire.Calls, Wire.Sends, Opens, HasActive;
      HoldFacts(ledger.attempts, id, n, code);
      SettledIsQuiet(ledger.attempts, id, n);
      Wire.LogCall(honest, origin, steps, ledger.attempts, OpHold(id, code));
      steps := steps + [Wire.Call(OpHold(id, code))];
      var _ := ledger.HoldProxy(id, code);
    }

    // ---- The exception branches ----------------------------------------------------------

    /** What settling may leave of the row and the proxy. */
    ghost predicate SettledBy(l0: Ledger, n: int, next: RequestState, hold: Option<string>, error: string)
      reads this, ledger
      requires id in l0 && n in l0[id].requests
    {
      && Kept() && OnlyTouches(l0, ledger.attempts, id, n) && Settled(ledger.attempts, id, n)
      && ledger.attempts[id].requests[n].state == next
      && ledger.attempts[id].proxy.holdCode == (if hold.Some? then hold else l0[id].proxy.holdCode)
      && (ledger.attempts[id].proxy.state.Hold? <==> hold.Some?)
      && (if Active(l0[id].requests[n].state)
          then ledger.attempts[id].requests[n] == l0[id].requests[n].(state := next, error := Some(error))
          else ledger.attempts[id].requests == l0[id].requests)
    }

    /** The last thing the child was told is this local error, and the row was already settled. */
    ghost predicate Told(status: int, code: string, n: int)
      reads this, ledger
    {
      && |trace| > 0 && trace[|trace|-1].Wrote? && trace[|trace|-1].output == LocalError(status, code)
      && trace[|trace|-1].at == StateOf(n)
    }

    /** Settle the row after `exc`, then report locally unless the response has begun. */
    method Settle(n: int, exc: Exc, o: Outside) returns (outcome: Outcome)
      requires Kept()
      requires || Ready(n)
               || (Settled(ledger.attempts, id, n) && ledger.attempts[id].proxy.state.Running? && WriteExc(exc))
      modifies ledger, this`trace, this`writes, this`steps
      ensures var s := old(ledger.attempts)[id].requests[n].state;
              && SettledBy(old(ledger.attempts), n, SettledState(exc, s), SettledHold(exc, s), ErrorCode(exc))
              && (outcome.Returned? ==> outcome == Returned(HttpStatus(exc), SettledState(exc, s), n, None))
      ensures BodyBytes(trace) == old(BodyBytes(trace)) && old(trace) <= trace && OnWire() == old(OnWire())
      ensures outcome.Escaped? ==> !responding && WriteExc(outcome.exc)
      ensures responding ==> trace == old(trace)
      ensures !responding ==> Told(HttpStatus(exc), ReportCode(exc), n)
    {
      hide BodyBytes, LedgerOk, TraceOk, Run, Wire.Logged, Wire.WireRun, Wire.Calls, Wire.Sends, Opens, StatusCode, RejectionHold;
      var report: Output;
      match exc {
        case Policy(code, status) => report := SettleFailed(n, code, None, status, code);
        case Rejected(status) => report := SettleFailed(n, StatusCode(status), Some(RejectionHold(status)), 502, RejectionHold(status));
        case TerminalFailed(code) => report := SettleFailed(n, code, Some(code), 502, code);
        case Other => report := SettleUnclear(n, INTERNAL, false, 500);
        case MaybeSent(code) => report := SettleUnclear(n, code, true, 504);
        case Held(code) => report := SettleUnclear(n, code, true, 504);
        case TimedOut(code) => report := SettleUnclear(n, code, true, 504);
      }
      outcome := Report(n, exc, report, o);
    }

    /** Tell the child, unless its response has begun; only the unclear branches swallow a timeout. */
    method Report(n: int, exc: Exc, report: Output, o: Outside) returns (outcome: Outcome)
      requires Kept() && Settled(ledger.attempts, id, n) && report.LocalError?
      modifies this`trace, this`writes
      ensures Kept() && BodyBytes(trace) == old(BodyBytes(trace)) && old(trace) <= trace
      ensures outcome.Returned? ==> outcome == Returned(HttpStatus(exc), ledger.attempts[id].requests[n].state, n, None)
      ensures outcome.Escaped? ==> !responding && WriteExc(outcome.exc)
      ensures responding ==> trace == old(trace)
      ensures !responding ==> Told(report.status, report.code, n)
    {
      hide BodyBytes, LedgerOk, TraceOk, Run, Wire.Logged, Wire.WireRun, Wire.Calls, Wire.Sends, Opens;
      outcome := Returned(HttpStatus(exc), ledger.attempts[id].requests[n].state, n, None);
      if !responding {
        var fault := Write(n, report, o);
        var swallowed := fault.Some? && fault.value.TimedOut? && !(exc.Policy? || exc.Rejected? || exc.TerminalFailed?);
        if fault.Some? && !swallowed {
          outcome := Escaped(fault.value);
        }
        assert BodyBytes(trace) == old(BodyBytes(trace)) + [];
      }
    }

    /** The three branches in which upstream's verdict is known: FAILED, and a hold where it names one. */
    method SettleFailed(n: int, error: string, hold: Option<string>, status: int, code: string) returns (report: Output)
      requires Ready(n)
      modifies ledger, this`steps
      ensures SettledBy(old(ledger.attempts), n, Failed, hold, error) && OnWire() == old(OnWire()) && report == LocalError(status, code)
    {
      hide LedgerOk, TraceOk, Run, Wire.Logged, Wire.WireRun, Wire.Calls, Wire.Sends, Opens;
      Advance(n, Failed, Some(error));
      if hold.Some? {
        HoldSettled(n, hold.value);
      }
      report := LocalError(status, code);
    }

    /** The two branches that cannot tell whether upstream acted. */
    method SettleUnclear(n: int, code: string, holds: bool, status: int) returns (report: Output)
      requires Kept()
      requires Ready(n) || (Settled(ledger.attempts, id, n) && ledger.attempts[id].proxy.state.Running?)
      modifies ledger, this`steps
      ensures var s := old(ledger.attempts)[id].requests[n].state;
              var next := if !Active(s) then s else if s.Created? then Failed else Ambiguous;
              SettledBy(old(ledger.attempts), n, next,
                        if Active(s) && next.Ambiguous? then Some(AMBIGUOUS_HOLD) else if s.Complete? && holds then Some(code) else None, code)
      ensures OnWire() == old(OnWire()) && report == LocalError(status, code)
    {
      hide LedgerOk, TraceOk, Run, Wire.Logged, Wire.WireRun, Wire.Calls, Wire.Sends, Opens;
      var state := ledger.attempts[id].requests[n].state;
      if Active(state) {
        Advance(n, if state == Created then Failed else Ambiguous, Some(code));
      } else if state == Complete && holds {
        HoldSettled(n, code);
      }
      report := LocalError(status, code);
    }

    // ---- The stream ----------------------------------------------------------------------

    /** Write the forwarded events one by one. */
    method WriteEvents(n: int, events: seq<Bytes>, o: Outside) returns (fault: Option<Exc>)
      requires TraceOk(trace) && StateOf(n) == Some(Streaming)
      modifies this`trace, this`writes
      ensures TraceOk(trace) && Opens(trace) == old(Opens(trace))
      ensures fault.Some? ==> WriteExc(fault.value)
      ensures fault.None? ==> writes == old(writes) + |events| && BodyBytes(trace) == old(BodyBytes(trace)) + Concat(events)
      ensures BodyBytes(trace) <= old(BodyBytes(trace)) + Concat(events)
      ensures fault.None? <==> forall k: nat :: old(writes) <= k < old(writes) + |events| ==> o.writes(k).None?
    {
      hide BodyBytes, TraceOk;
      var i := 0;
      ghost var base := BodyBytes(trace);
      while i < |events|
        invariant 0 <= i <= |events| && TraceOk(trace) && Opens(trace) == old(Opens(trace)) && writes == old(writes) + i
        invariant BodyBytes(trace) + Concat(events[i..]) == base + Concat(events)
        invariant BodyBytes(trace) <= base + Concat(events)
        invariant forall k: nat :: old(writes) <= k < old(writes) + i ==> o.writes(k).None?
      {
        ghost var before := BodyBytes(trace);
        assert events[i..][0] == events[i] && events[i..][1..] == events[i+1..];
        fault := Write(n, Output.Event(events[i]), o);
        assert before + (events[i] + Concat(events[i+1..])) == BodyBytes(trace) + Concat(events[i+1..]);
        if fault.Some? { return; }
        i := i + 1;
      }
      assert BodyBytes(trace) + [] == BodyBytes(trace);
      fault := None;
    }

    /** The first `i` offered chunks were fed, and their events written. */
    ghost predicate Pumped(o: Outside, i: nat, t: Sse.Tracker)
      reads this
    {
      && i <= |Offered(o.receives)|
      && var chunks := Offered(o.receives)[..i];
         var fed := Sse.FeedAll(decode, Sse.Fresh(limits.maxEvent), chunks);
         && GoodPrefix(o, decode, limits, i) && fed.tracker == t
         && BodyBytes(trace) == Concat(fed.forwarded) && writes == 1 + |fed.forwarded|
    }

    /** One more chunk: feed it and write what it completes. */
    method PumpChunk(n: int, tracker: SSECompletionTracker, o: Outside, i: nat) returns (exc: Option<Exc>)
      requires TraceOk(trace) && StateOf(n) == Some(Streaming)
      requires tracker.decode == decode && i < |Offered(o.receives)| && Pumped(o, i, tracker.State())
      requires |Offered(o.receives)[i]| <= Max(0, limits.maxChunk)
      requires |Concat(Offered(o.receives)[..i])| + |Offered(o.receives)[i]| <= Max(0, limits.maxResponse)
      modifies tracker, this`trace, this`writes
      ensures TraceOk(trace) && Opens(trace) == old(Opens(trace))
      ensures exc.None? ==> Pumped(o, i + 1, tracker.State())
      ensures exc.Some? ==> !GoodPrefix(o, decode, limits, i + 1) && BodyBytes(trace) <= Concat(Offered(o.receives))
      ensures exc.Some? ==> forall c: Class :: InClass(c, exc.value) <==> FailsAt(c, o, decode, limits, i)
    {
      hide BodyBytes, TraceOk, Sse.FeedAll, Sse.Feed, Sse.Drain, Concat, Offered, Events.SaysFailed;
      ghost var chunks := Offered(o.receives);
      ghost var start := Sse.Fresh(limits.maxEvent);
      ghost var x := Sse.FeedAll(decode, start, chunks[..i]);
      ghost var y := Sse.Feed(decode, x.tracker, chunks[i]);
      FeedNext(decode, start, chunks, i);
      OfferedChunks(o.receives);
      PrefixWritten(o, i, decode, limits.maxEvent);
      var events, error := tracker.Feed(o.receives[i].bytes);
      if error.Some? {
        Events.ChunkFailsIff(decode, limits.maxEvent, chunks[..i], chunks[i]);
        return Some(SseExc(error.value));
      }
      Events.ChunkFailsIff(decode, limits.maxEvent, chunks[..i], chunks[i]);
      PrefixWritten(o, i + 1, decode, limits.maxEvent);
      ConcatAppend(x.forwarded, y.forwarded);
      exc := WriteEvents(n, events, o);
    }

    lemma SkipEmpty(o: Outside, i: nat, t: Sse.Tracker)
      requires Pumped(o, i, t) && i < |Offered(o.receives)| && Offered(o.receives)[i] == []
      ensures Pumped(o, i + 1, t)
    {
      hide Offered, Sse.FeedAll, Concat;
      FeedNext(decode, Sse.Fresh(limits.maxEvent), Offered(o.receives), i);
      var x := Sse.FeedAll(decode, Sse.Fresh(limits.maxEvent), Offered(o.receives)[..i]);
      assert x.forwarded + [] == x.forwarded;
    }

    /** Receive until the stream ends. */
    method Pump(n: int, tracker: SSECompletionTracker, o: Outside) returns (exc: Option<Exc>)
      requires Ready(n) && Row(n).state.UpstreamStarted? && tracker.decode == decode
      requires Pumped(o, 0, tracker.State())
      modifies tracker, ledger, this`trace, this`writes, this`steps
      ensures Ready(n) && OnWire() == old(OnWire()) && OnlyTouches(old(ledger.attempts), ledger.attempts, id, n)
      ensures Row(n) == old(Row(n)) || Row(n) == old(Row(n)).(state := Streaming, error := None)
      ensures exc.None? <==> StreamedWell(o, decode, limits)
      ensures exc.Some? ==> forall c: Class :: InClass(c, exc.value) <==> StreamFails(c, o, decode, limits)
      ensures exc.Some? ==> BlamesStream(o, decode, limits, exc.value)
      ensures exc.None? ==> Pumped(o, |Offered(o.receives)|, tracker.State())
                            && (Row(n).state.Streaming? || tracker.State() == Sse.Fresh(limits.maxEvent))
      ensures BodyBytes(trace) <= Concat(Offered(o.receives))
    {
      hide BodyBytes, TraceOk, Sse.FeedAll, Sse.Feed, Concat, Offered, Events.SaysFailed, LedgerOk, Run, Wire.Logged, Wire.WireRun, Wire.Calls, Wire.Sends, Opens;
      OfferedChunks(o.receives);
      ghost var chunks := Offered(o.receives);
      FeedNothing(decode, limits.maxEvent, chunks);
      var i, streamed, total := 0, false, 0;
      while i < |o.receives| && o.receives[i] != EndOfStream
        invariant i <= |chunks| && Pumped(o, i, tracker.State()) && total == |Concat(chunks[..i])|
        invariant Ready(n) && OnWire() == old(OnWire()) && OnlyTouches(old(ledger.attempts), ledger.attempts, id, n)
        invariant streamed ==> Row(n) == old(Row(n)).(state := Streaming, error := None)
        invariant !streamed ==> Row(n) == old(Row(n)) && tracker.State() == Sse.Fresh(limits.maxEvent)
      {
        PrefixWritten(o, i, decode, limits.maxEvent);
        exc, streamed, total := PumpStep(n, tracker, o, i, streamed, total);
        if exc.Some? {
          StopsAt(o, i, exc.value);
          FirstIsToBlame(o, decode, limits, i, exc.value);
          return;
        }
        i := i + 1;
      }
      exc := None;
      assert chunks[..i] == chunks;
      PrefixWritten(o, i, decode, limits.maxEvent);
    }

    /** One receive: what it raises is the outside's verdict exactly when the outside gave one. */
    method PumpStep(n: int, tracker: SSECompletionTracker, o: Outside, i: nat, streamed: bool, total: nat)
      returns (exc: Option<Exc>, streamed': bool, total': nat)
      requires Ready(n) && tracker.decode == decode && i < |o.receives| && !o.receives[i].EndOfStream?
      requires Pumped(o, i, tracker.State()) && total == |Concat(Offered(o.receives)[..i])|
      requires streamed ==> Row(n).state.Streaming?
      requires !streamed ==> Row(n).state.UpstreamStarted? && tracker.State() == Sse.Fresh(limits.maxEvent)
      modifies tracker, ledger, this`trace, this`writes, this`steps
      ensures Ready(n) && OnWire() == old(OnWire()) && OnlyTouches(old(ledger.attempts), ledger.attempts, id, n)
      ensures Row(n) == if streamed' && !streamed then old(Row(n)).(state := Streaming, error := None) else old(Row(n))
      ensures streamed ==> streamed'
      ensures exc.None? ==> i < |Offered(o.receives)| && Pumped(o, i + 1, tracker.State()) && total' == |Concat(Offered(o.receives)[..i+1])|
      ensures exc.None? && !streamed' ==> tracker.State() == Sse.Fresh(limits.maxEvent)
      ensures exc.Some? ==> !GoodPrefix(o, decode, limits, i + 1) && BodyBytes(trace) <= Concat(Offered(o.receives))
      ensures exc.Some? ==> BlamesReceive(o, i, exc.value) && forall c: Class :: InClass(c, exc.value) <==> FailsAt(c, o, decode, limits, i)
    {
      hide BodyBytes, TraceOk, Sse.FeedAll, Sse.Feed, Concat, Offered, Events.SaysFailed, LedgerOk, Run, Wire.Logged, Wire.WireRun, Wire.Calls, Wire.Sends, Opens;
      OfferedChunks(o.receives);
      PrefixWritten(o, i, decode, limits.maxEvent);
      exc, streamed', total' := None, streamed, total;
      match o.receives[i] {
        case WallExpired => exc := Some(MaybeSent("BROKER_PROXY_WALL_TIMEOUT"));
        case DeadlineFault(fault) => exc := Some(Raise(fault));
        case ReceiveRaised(e) => exc := Some(e);
        case TooSlow => exc := Some(MaybeSent("BROKER_PROXY_SSE_IDLE_TIMEOUT"));
        case NotBytes => exc := Some(MaybeSent("BROKER_PROXY_SSE_CHUNK_INVALID"));
        case Chunk(bytes) =>
          FeedNext(decode, Sse.Fresh(limits.maxEvent), Offered(o.receives), i);
          if bytes == [] {
            SkipEmpty(o, i, tracker.State());
            return;
          }
          if |bytes| > limits.maxChunk {
            exc := Some(MaybeSent("BROKER_PROXY_SSE_CHUNK_LIMIT"));
            return;
          }
          total' := total + |bytes|;
          if total' > limits.maxResponse {
            exc := Some(MaybeSent("BROKER_PROXY_RESPONSE_LIMIT"));
            return;
          }
          if !streamed {
            Advance(n, Streaming, None);
            streamed' := true;
          }
          exc := PumpChunk(n, tracker, o, i);
      }
    }

    /** The stream stops at its first bad receive, and that decides its verdict. */
    lemma StopsAt(o: Outside, i: nat, exc: Exc)
      requires GoodPrefix(o, decode, limits, i) && !GoodPrefix(o, decode, limits, i + 1) && i < |o.receives| && !o.receives[i].EndOfStream?
      requires i <= |Offered(o.receives)| && forall c: Class :: InClass(c, exc) <==> FailsAt(c, o, decode, limits, i)
      ensures !StreamedWell(o, decode, limits)
      ensures forall c: Class :: InClass(c, exc) <==> StreamFails(c, o, decode, limits)
    {
      hide GoodPrefix, FailsAt, Sse.FeedAll, Concat, Offered;
      forall c: Class ensures InClass(c, exc) <==> StreamFails(c, o, decode, limits) { FirstFailure(c, o, decode, limits, i); }
      if StreamedWell(o, decode, limits) {
        WellDoesNotFail(Known, o, decode, limits);
        OfferedChunks(o.receives);
        if i < |Offered(o.receives)| { GoodPrefixShrinks(o, decode, limits, |Offered(o.receives)|, i + 1); }
      }
    }

    /** Debit a stream's usage; an id the tracker accepted leaves the overrun as the only refusal. */
    method Debit(n: int, response: string, input: nat, output: nat) returns (ok: bool)
      requires Ready(n) && Row(n).state.Streaming? && !Row(n).prepared && Row(n).estimated.Some? && Row(n).reserved.Some?
      requires ValidResponseId(response)
      modifies ledger, this`steps
      ensures Ready(n) && OnWire() == old(OnWire()) && OnlyTouches(old(ledger.attempts), ledger.attempts, id, n)
      ensures ok <==> input <= old(Row(n)).estimated.value && output <= old(Row(n)).reserved.value
      ensures Row(n) == if ok then old(Row(n)).(input := Some(input), output := Some(output), response := Some(response), prepared := true)
                        else old(Row(n))
    {
      hide PrepareCompletion, LedgerOk, TraceOk, ValidResponseId, Run, Wire.Logged, Wire.WireRun, Wire.Calls, Wire.Sends, Opens;
      var op := OpPrepare(id, n, response, input, output);
      PrepareFacts(ledger.attempts, id, n, response, input, output);
      PrepareDecides(ledger.attempts, id, n, response, input, output);
      Wire.LogCall(honest, origin, steps, ledger.attempts, op);
      steps := steps + [Wire.Call(op)];
      var prepared := ledger.PrepareCompletion(id, n, response, input, output);
      ok := prepared == Done;
    }

    method Commit(n: int)
      requires Ready(n) && Row(n).state.Streaming? && Row(n).prepared
      modifies ledger, this`steps
      ensures Kept() && OnWire() == old(OnWire()) && OnlyTouches(old(ledger.attempts), ledger.attempts, id, n)
      ensures Settled(ledger.attempts, id, n) && ledger.attempts[id].requests[n] == old(Row(n)).(state := Complete)
      ensures ledger.attempts[id].proxy == old(ledger.attempts[id].proxy)
    {
      hide FinalizeCompletion, LedgerOk, TraceOk, Run, Wire.Logged, Wire.WireRun, Wire.Calls, Wire.Sends, Opens;
      FinalizeFacts(ledger.attempts, id, n);
      Wire.LogCall(honest, origin, steps, ledger.attempts, OpFinalize(id, n));
      steps := steps + [Wire.Call(OpFinalize(id, n))];
      var _ := ledger.FinalizeCompletion(id, n);
    }

    ghost predicate HeldAs(code: string)
      reads ledger
    {
      id in ledger.attempts && ledger.attempts[id].proxy.state.Hold? && ledger.attempts[id].proxy.holdCode == Some(code)
    }

    /** The outcome of releasing the withheld bytes by the k-th write: only its own fault is raised. */
    ghost predicate Release(r: BodyResult, o: Outside, k: nat)
      reads ledger
    {
      && id in ledger.attempts && ledger.attempts[id].proxy.state.Running?
      && (r.Raised? <==> o.writes(k).Some?) && (r.Raised? ==> r.exc == Raise(o.writes(k).value))
    }

    /** Interpret the end of the stream, debit, commit COMPLETE, and only then release the withheld bytes. */
    method Conclude(n: int, tracker: SSECompletionTracker, o: Outside) returns (r: BodyResult)
      requires Ready(n) && Pumped(o, |Offered(o.receives)|, tracker.State())
      requires Row(n).state.Streaming? || (Row(n).state.UpstreamStarted? && tracker.State() == Sse.Fresh(limits.maxEvent))
      requires o.preparation.Prepared? && !Row(n).prepared
      requires Row(n).estimated == Some(o.preparation.estimated) && Row(n).reserved == Some(o.preparation.reserved)
      modifies ledger, this`trace, this`writes, this`previous, this`steps
      ensures Ended(old(ledger.attempts), n, r, o)
      ensures ledger.attempts[id].requests[n].state.Complete? <==> UsageFits(Sse.FinishOf(tracker.State()), o.preparation)
      ensures r.Finished? && r.state.Complete? ==> previous == r.response
      ensures !(r.Finished? && r.state.Complete?) ==> previous == old(previous)
      ensures var f, row := Sse.FinishOf(tracker.State()), ledger.attempts[id].requests[n];
              && (f.Unfinished? ==> Ready(n) && r.Raised? && r.exc.MaybeSent? && !Row(n).state.Created?)
              && (f.Finished? && !UsageFits(f, o.preparation) ==> r == Finished(200, Failed, None) && HeldAs(OVERRUN_HOLD))
              && (row.state.Complete? ==> Release(r, o, old(writes)))
    {
      hide BodyBytes, TraceOk, Sse.FeedAll, Concat, Offered, LedgerOk, PrepareCompletion, FinalizeCompletion, ValidResponseId, Run, Wire.Logged, Wire.WireRun, Wire.Calls, Wire.Sends, Opens;
      ghost var l0 := ledger.attempts;
      ghost var chunks := Offered(o.receives);
      assert chunks[..|chunks|] == chunks;
      PrefixWritten(o, |chunks|, decode, limits.maxEvent);
      FeedAllIdOk(decode, Sse.Fresh(limits.maxEvent), chunks);
      var f := tracker.Finish();
      if f.Unfinished? {
        return Raised(MaybeSent(f.code));
      }
      r := Account(n, f, o);
    }

    /** Debit the usage of a finished stream, commit COMPLETE, and only then release the withheld bytes. */
    method Account(n: int, f: Sse.Finish, o: Outside) returns (r: BodyResult)
      requires Ready(n) && Row(n).state.Streaming? && !Row(n).prepared && o.preparation.Prepared?
      requires Row(n).estimated == Some(o.preparation.estimated) && Row(n).reserved == Some(o.preparation.reserved)
      requires f.Finished? && ValidResponseId(f.response)
      modifies ledger, this`trace, this`writes, this`previous, this`steps
      ensures Kept() && OnlyTouches(old(ledger.attempts), ledger.attempts, id, n) && Settled(ledger.attempts, id, n)
      ensures var row := ledger.attempts[id].requests[n];
              if UsageFits(f, o.preparation) then
                && row.state.Complete? && row.input == Some(f.input) && row.output == Some(f.output) && row.response == Some(f.response)
                && BodyBytes(trace) == old(BodyBytes(trace)) + f.terminal
                && (r.Raised? ==> ledger.attempts[id].proxy.state.Running? && WriteExc(r.exc))
                && (r.Finished? ==> r == Finished(200, Complete, Some(f.response)))
              else row.state.Failed? && r == Finished(200, Failed, None) && trace == old(trace) && HeldAs(OVERRUN_HOLD)
      ensures UsageFits(f, o.preparation) ==> Release(r, o, old(writes))
      ensures previous == (if r.Finished? && r.state.Complete? then r.response else old(previous))
    {
      hide BodyBytes, TraceOk, LedgerOk, ValidResponseId, Run, Wire.Logged, Wire.WireRun, Wire.Calls, Wire.Sends, Opens;
      var debited := Debit(n, f.response, f.input, f.output);
      if !debited {
        Advance(n, Failed, Some(OVERRUN_HOLD));
        HoldSettled(n, OVERRUN_HOLD);
        return Finished(200, Failed, None);
      }
      Commit(n);
      var fault := Write(n, Terminal(f.terminal), o);
      if fault.Some? {
        return Raised(fault.value);
      }
      previous := Some(f.response);
      r := Finished(200, Complete, Some(f.response));
    }

    /** How the body of the handler leaves the ledger and the trace. */
    ghost predicate Ended(l0: Ledger, n: int, r: BodyResult, o: Outside)
      reads this, ledger
    {
      && Kept() && OnlyTouches(l0, ledger.attempts, id, n)
      && n in ledger.attempts[id].requests
      && var row := ledger.attempts[id].requests[n];
         && (r.Finished? ==> Settled(ledger.attempts, id, n) && row.state == r.state)
         && (r.Finished? ==> r.response == (if r.state.Complete? then row.response else None))
         && (r.Finished? ==> r.status == (if r.state.SafeNotSent? then 503 else 200))
         && (r.Raised? ==>
               || Ready(n)
               || (Settled(ledger.attempts, id, n) && ledger.attempts[id].proxy.state.Running? && WriteExc(r.exc)))
         && BodyBytes(trace) <= Concat(Offered(o.receives))
         && (row.state.Complete? ==> CompletedBy(o, row, trace, decode, limits))
    }

    /** What a streamed request raises or returns, by what the outside did. */
    ghost predicate RelayEnds(n: int, r: BodyResult, o: Outside)
      reads this, ledger
      requires o.preparation.Prepared? && id in ledger.attempts && n in ledger.attempts[id].requests
    {
      var fed := Sse.FeedAll(decode, Sse.Fresh(limits.maxEvent), Offered(o.receives));
      var f, row := Sse.FinishOf(fed.tracker), ledger.attempts[id].requests[n];
      && (StreamedWell(o, decode, limits) && f.Finished? && !UsageFits(f, o.preparation) ==>
            r == Finished(200, Failed, None) && HeldAs(OVERRUN_HOLD))
      && (row.state.Complete? ==> Release(r, o, 1 + |fed.forwarded|))
      && (!row.state.Complete? && !(StreamedWell(o, decode, limits) && f.Finished?) ==>
            && r.Raised? && Ready(n) && !Row(n).state.Created? && BlamesStream(o, decode, limits, r.exc)
            && forall c: Class :: InClass(c, r.exc) <==> StreamFails(c, o, decode, limits))
    }

    /** Stream an opened 200 response to its conclusion. */
    method Relay(n: int, o: Outside) returns (r: BodyResult)
      requires Ready(n) && Row(n).state.UpstreamStarted? && o.preparation.Prepared? && !Row(n).prepared
      requires Row(n).estimated == Some(o.preparation.estimated) && Row(n).reserved == Some(o.preparation.reserved)
      requires BodyBytes(trace) == [] && writes == 0
      modifies ledger, this`trace, this`writes, this`previous, this`steps, this`responding
      ensures Ended(old(ledger.attempts), n, r, o)
      ensures ledger.attempts[id].requests[n].state.Complete? <==>
        && StreamedWell(o, decode, limits)
        && UsageFits(Sse.FinishOf(Sse.FeedAll(decode, Sse.Fresh(limits.maxEvent), Offered(o.receives)).tracker), o.preparation)
      ensures previous == (if r.Finished? && r.state.Complete? then r.response else old(previous))
      ensures responding ==> o.writes(0).None?
      ensures RelayEnds(n, r, o)
    {
      hide BodyBytes, TraceOk, Sse.FeedAll, Concat, Offered, LedgerOk, StreamFails, StreamedWell, BlamesStream, CompletedBy, Run, Wire.Logged, Wire.WireRun, Wire.Calls, Wire.Sends, Opens;
      responding := false;
      var fault := Write(n, Head, o);
      if fault.Some? {
        forall c: Class ensures !StreamFails(c, o, decode, limits) { NoHeadNoVerdict(c, o, decode, limits); }
        NoHeadNoVerdict(Known, o, decode, limits);
        NoHeadNoBlame(o, decode, limits, fault.value);
        return Raised(fault.value);
      }
      responding := true;
      r := Stream(n, o);
    }

    /** Receive to the end, then conclude. */
    method Stream(n: int, o: Outside) returns (r: BodyResult)
      requires Ready(n) && Row(n).state.UpstreamStarted? && o.preparation.Prepared? && !Row(n).prepared
      requires Row(n).estimated == Some(o.preparation.estimated) && Row(n).reserved == Some(o.preparation.reserved)
      requires BodyBytes(trace) == [] && writes == 1 && o.writes(0).None?
      modifies ledger, this`trace, this`writes, this`previous, this`steps
      ensures Ended(old(ledger.attempts), n, r, o)
      ensures ledger.attempts[id].requests[n].state.Complete? <==>
        && StreamedWell(o, decode, limits)
        && UsageFits(Sse.FinishOf(FinalTracker(o, decode, limits)), o.preparation)
      ensures previous == (if r.Finished? && r.state.Complete? then r.response else old(previous))
      ensures RelayEnds(n, r, o)
    {
      hide BodyBytes, TraceOk, Sse.FeedAll, Concat, Offered, LedgerOk, StreamFails, StreamedWell, BlamesStream, CompletedBy, Run, Wire.Logged, Wire.WireRun, Wire.Calls, Wire.Sends, Opens;
      ghost var chunks := Offered(o.receives);
      FeedNothing(decode, limits.maxEvent, chunks);
      assert chunks[..|chunks|] == chunks;
      var tracker := new SSECompletionTracker(limits.maxEvent, decode);
      var exc := Pump(n, tracker, o);
      if exc.Some? {
        return Raised(exc.value);
      }
      forall c: Class ensures !StreamFails(c, o, decode, limits) { WellDoesNotFail(c, o, decode, limits); }
      r := Conclude(n, tracker, o);
      if r.Raised? { WellBlamesAnything(o, decode, limits, r.exc); }
    }

    /** The opening of upstream and the checks on what it reports. */
    method OpenOnce(n: int, o: Outside) returns (r: Option<BodyResult>)
      requires Ready(n) && Row(n).state.UpstreamStarted? && o.preparation.Prepared? && Row(n).evidence.None?
      requires Row(n).estimated.Some? && Row(n).reserved.Some?
      requires Row(n).bytesSent.None? && (honest ==> Truthful(o) && Wire.Sent(Wire.WireRun(origin, steps), id, n) == 0)
      requires NoOpen(trace) && BodyBytes(trace) == [] && writes == 0
      modifies ledger, this`trace, this`writes, this`steps
      ensures r.Some? ==> Ended(old(ledger.attempts), n, r.value, o) && !ledger.attempts[id].requests[n].state.Complete?
      ensures r.Some? && r.value.Finished? ==> r.value.state.SafeNotSent?
      ensures r.None? <==> OpenedWell(o, id, binding)
      ensures r.Some? ==> (ledger.attempts[id].requests[n].state.SafeNotSent? <==> NotSent(o, id, binding))
      ensures NotSent(o, id, binding) ==> ledger.attempts[id].proxy.state.Running?
      ensures r.Some? && r.value.Raised? ==> forall c: Class :: InClass(c, r.value.exc) <==> OpenFails(c, o, id, binding)
      ensures HeadRejected(o, id, binding) ==> r == Some(Raised(Rejected(o.opening.stream.value.status.value)))
      ensures r.Some? && !ledger.attempts[id].requests[n].state.SafeNotSent? ==>
        r.value.Raised? && Ready(n) && Row(n).state.UpstreamStarted? && BlamesOpening(o, id, binding, r.value.exc)
      ensures r.None? ==> Ready(n) && BodyBytes(trace) == [] && writes == 0 && OnlyTouches(old(ledger.attempts), ledger.attempts, id, n)
      ensures r.None? ==> Row(n) == old(Row(n)).(bytesSent := Row(n).bytesSent, evidence := Row(n).evidence)
    {
      hide BodyBytes, TraceOk, NoOpen, Concat, Offered, LedgerOk, CompletedBy, Run, Wire.Logged, Wire.WireRun, Wire.Calls, Wire.Sends, Opens;
      if o.openDeadline.Some? {
        return Some(Raised(Raise(o.openDeadline.value)));
      }
      TraceOpens(trace, ledger.attempts[id].requests[n]);
      trace := trace + [Opened(ledger.attempts[id].requests[n])];
      Wire.LogSend(honest, origin, steps, ledger.attempts, id, n, o.sent);
      steps := steps + [Wire.Send(id, n, o.sent)];
      if o.opening.OpenRaised? {
        return Some(Raised(o.opening.exc));
      }
      if o.opening.NoResult? {
        return Some(Raised(MaybeSent("BROKER_PROXY_SEND_EVIDENCE_MISSING")));
      }
      r := Examine(n, o);
    }

    /** What an opened request's evidence and head say. */
    method Examine(n: int, o: Outside) returns (r: Option<BodyResult>)
      requires Ready(n) && Row(n).state.UpstreamStarted? && o.preparation.Prepared? && Row(n).evidence.None?
      requires honest && o.opening.Opening? && o.opening.evidence.bytesSent == 0 ==> Wire.Sent(Wire.WireRun(origin, steps), id, n) == 0
      requires BodyBytes(trace) == [] && writes == 0 && o.opening.Opening? && o.openDeadline.None?
      modifies ledger, this`trace, this`writes, this`steps
      ensures r.Some? ==> Ended(old(ledger.attempts), n, r.value, o) && !ledger.attempts[id].requests[n].state.Complete?
      ensures r.Some? && r.value.Finished? ==> r.value.state.SafeNotSent?
      ensures r.None? <==> OpenedWell(o, id, binding)
      ensures r.Some? ==> (ledger.attempts[id].requests[n].state.SafeNotSent? <==> NotSent(o, id, binding))
      ensures NotSent(o, id, binding) ==> ledger.attempts[id].proxy.state.Running?
      ensures HeadRejected(o, id, binding) ==> r == Some(Raised(Rejected(o.opening.stream.value.status.value)))
      ensures r.Some? && r.value.Raised? && !HeadRejected(o, id, binding) ==> r.value.exc.MaybeSent? || WriteExc(r.value.exc)
      ensures r.Some? && !ledger.attempts[id].requests[n].state.SafeNotSent? ==>
        r.value.Raised? && Ready(n) && Row(n).state.UpstreamStarted? && BlamesOpening(o, id, binding, r.value.exc)
      ensures r.None? ==> Ready(n) && BodyBytes(trace) == [] && writes == 0 && OnlyTouches(old(ledger.attempts), ledger.attempts, id, n)
      ensures r.None? ==> Row(n) == old(Row(n)).(bytesSent := Row(n).bytesSent, evidence := Row(n).evidence)
    {
      hide BodyBytes, TraceOk, Concat, Offered, LedgerOk, CompletedBy, Run, Wire.Logged, Wire.WireRun, Wire.Calls, Wire.Sends, Wire.Sent, Opens;
      var evidence, stream := o.opening.evidence, o.opening.stream;
      if !Bound(evidence, id, binding, o.preparation) {
        return Some(Raised(MaybeSent("BROKER_PROXY_SEND_EVIDENCE_BINDING_INVALID")));
      }
      RecordOpening(n, evidence, o.preparation);
      if evidence.bytesSent == 0 {
        if stream.Some? {
          return Some(Raised(MaybeSent("BROKER_PROXY_SEND_EVIDENCE_CONFLICT")));
        }
        var reported := ReportNotSent(n, evidence, o);
        return Some(reported);
      }
      r := CheckHead(stream);
    }

    /** Evidence that names this request is recorded before it is used. */
    method RecordOpening(n: int, evidence: SendEvidence, p: Preparation)
      requires Ready(n) && Row(n).state.UpstreamStarted? && Row(n).evidence.None? && p.Prepared? && Bound(evidence, id, binding, p)
      requires honest && evidence.bytesSent == 0 ==> Wire.Sent(Wire.WireRun(origin, steps), id, n) == 0
      modifies ledger, this`steps
      ensures Ready(n) && OnlyTouches(old(ledger.attempts), ledger.attempts, id, n)
      ensures Row(n) == old(Row(n)).(bytesSent := Some(evidence.bytesSent), evidence := Some(OfTransport(evidence)))
    {
      hide LedgerOk, TraceOk, RecordEvidence, Run, Wire.Logged, Wire.WireRun, Wire.Calls, Wire.Sends, Opens, Wire.Sent;
      EvidenceFacts(ledger.attempts, id, n, evidence, p.request, p.operation);
      Wire.LogCall(honest, origin, steps, ledger.attempts, OpEvidence(id, n, evidence, p.request, p.operation));
      steps := steps + [Wire.Call(OpEvidence(id, n, evidence, p.request, p.operation))];
      var _ := ledger.RecordEvidence(id, n, evidence, p.request, p.operation);
    }

    method ReportNotSent(n: int, evidence: SendEvidence, o: Outside) returns (r: BodyResult)
      requires Ready(n) && Row(n).state.UpstreamStarted? && Row(n).bytesSent == Some(0) && Row(n).evidence.Some?
      requires BodyBytes(trace) == []
      modifies ledger, this`trace, this`writes, this`steps
      ensures Ended(old(ledger.attempts), n, r, o) && ledger.attempts[id].requests[n].state.SafeNotSent?
      ensures ledger.attempts[id].proxy.state.Running? && (r.Raised? ==> WriteExc(r.exc))
    {
      hide BodyBytes, TraceOk, Concat, Offered, LedgerOk, Run, Wire.Logged, Wire.WireRun, Wire.Calls, Wire.Sends, Opens;
      var code := if evidence.error.Some? then evidence.error.value else "BROKER_PROXY_UPSTREAM_NOT_SENT";
      Advance(n, SafeNotSent, Some(code));
      var fault := Write(n, LocalError(503, code), o);
      if fault.Some? {
        return Raised(fault.value);
      }
      r := Finished(503, SafeNotSent, None);
    }

    /** What is wrong with an opened stream's status line and content type, if anything. */
    method CheckHead(stream: Option<StreamHead>) returns (r: Option<BodyResult>)
      ensures r.None? <==> stream == Some(StreamHead(Some(200), EVENT_STREAM))
      ensures r.Some? ==> r.value.Raised?
      ensures r.Some? ==> if stream.Some? && stream.value.status.Some? && 100 <= stream.value.status.value <= 599 && stream.value.status.value != 200
                          then r == Some(Raised(Rejected(stream.value.status.value))) else r.value.exc.MaybeSent?
    {
      if stream.None? {
        return Some(Raised(MaybeSent("BROKER_PROXY_SEND_EVIDENCE_CONFLICT")));
      }
      var status := stream.value.status;
      if status.None? || status.value < 100 || status.value > 599 {
        return Some(Raised(MaybeSent("BROKER_PROXY_UPSTREAM_STATUS_INVALID")));
      }
      if status.value != 200 {
        return Some(Raised(Rejected(status.value)));
      }
      if stream.value.contentType != EVENT_STREAM {
        return Some(Raised(MaybeSent("BROKER_PROXY_UPSTREAM_CONTENT_TYPE_INVALID")));
      }
      r := None;
    }

    method Reserve(n: int, p: Preparation) returns (refused: Option<Exc>)
      requires Ready(n) && p.Prepared? && Row(n).state.Created? && Row(n).estimated.None? && Row(n).reserved.None?
      modifies ledger, this`steps
      ensures Ready(n) && OnWire() == old(OnWire()) && OnlyTouches(old(ledger.attempts), ledger.attempts, id, n)
      ensures var a := old(ledger.attempts)[id].proxy;
              refused.None? <==> p.estimated > 0 && p.reserved > 0 && WithinLimits(a, a.input + p.estimated, a.output + p.reserved)
      ensures refused.Some? ==> !InClass(Holding, refused.value)
      ensures Row(n) == if refused.None? then old(Row(n)).(estimated := Some(p.estimated), reserved := Some(p.reserved)) else old(Row(n))
    {
      hide ReserveBudget, LedgerOk, TraceOk, Run, Wire.Logged, Wire.WireRun, Wire.Calls, Wire.Sends, Opens;
      ReserveFacts(ledger.attempts, id, n, p.estimated, p.reserved);
      Wire.LogCall(honest, origin, steps, ledger.attempts, OpReserve(id, n, p.estimated, p.reserved));
      steps := steps + [Wire.Call(OpReserve(id, n, p.estimated, p.reserved))];
      var reply := ledger.ReserveBudget(id, n, p.estimated, p.reserved);
      refused := if reply == Done then None else Some(LedgerExc(reply.error));
    }

    /** What the body raises or returns, by what the outside did. */
    ghost predicate AttemptEnds(a: Attempt, n: int, raw: Bytes, r: BodyResult, o: Outside)
      reads this, ledger
      requires id in ledger.attempts && n in ledger.attempts[id].requests
    {
      if Succeeds(o, raw, a, id, decode, limits) then
        Release(r, o, 1 + |Sse.FeedAll(decode, Sse.Fresh(limits.maxEvent), Offered(o.receives)).forwarded|)
      else if !Begins(o, raw, a, limits) then
        && r.Raised? && Ready(n) && Row(n).state.Created? && Blames(o, raw, a, id, decode, limits, r.exc)
        && (InClass(Holding, r.exc) <==> Fits(limits, raw) && o.preparation.Unprepared? && InClass(Holding, o.preparation.exc))
      else if NotSent(o, id, binding) then
        ledger.attempts[id].requests[n].state.SafeNotSent? && ledger.attempts[id].proxy.state.Running?
      else if Overruns(o, id, binding, decode, limits) then r == Finished(200, Failed, None) && HeldAs(OVERRUN_HOLD)
      else
        && r.Raised? && Ready(n) && !Row(n).state.Created?
        && (forall c: Class :: InClass(c, r.exc) <==> VerdictAfterStart(c, o, id, binding, decode, limits))
        && (HeadRejected(o, id, binding) ==> r.exc == Rejected(o.opening.stream.value.status.value))
        && Blames(o, raw, a, id, decode, limits, r.exc)
    }

    /** Everything between a begun request and its result or exception. */
    method Attempted(n: int, raw: Bytes, o: Outside) returns (r: BodyResult)
      requires Ready(n) && Row(n).state.Created? && Row(n).estimated.None? && Row(n).reserved.None? && Row(n).evidence.None? && !Row(n).prepared
      requires Row(n).bytesSent.None? && trace == [] && writes == 0 && !responding && (honest ==> Truthful(o))
      modifies ledger, this`trace, this`writes, this`previous, this`steps, this`responding
      ensures Ended(old(ledger.attempts), n, r, o)
      ensures ledger.attempts[id].requests[n].state.Complete?
              <==> Succeeds(o, raw, old(ledger.attempts)[id], id, decode, limits)
      ensures previous == (if r.Finished? && r.state.Complete? then r.response else old(previous))
      ensures AttemptEnds(old(ledger.attempts)[id], n, raw, r, o)
    {
      hide TraceOk, Sse.FeedAll, Concat, Offered, LedgerOk, ReserveBudget, StreamedWell, StreamFails, BlamesStream, UsageFits, CompletedBy, Run, Wire.Logged, Wire.WireRun, Wire.Calls, Wire.Sends, Opens;
      Wire.CreatedIsSilent(honest, origin, steps, ledger.attempts, id, n);
      if |raw| > limits.maxHeader + limits.maxBody + 4 {
        return Raised(Policy("BROKER_PROXY_BODY_LIMIT", 413));
      }
      if o.preparation.Unprepared? {
        return Raised(o.preparation.exc);
      }
      var refused := Reserve(n, o.preparation);
      if refused.Some? {
        return Raised(refused.value);
      }
      Advance(n, UpstreamStarted, None);
      var early := OpenOnce(n, o);
      if early.Some? {
        return early.value;
      }
      r := Relay(n, o);
    }

    /** One request from the relay.  A refused begin touches nothing; a begun request always ends
        terminal, a returned state is the row's, and COMPLETE is reached exactly when admission,
        opening, stream and usage all allow it.  `steps` logs every ledger call and every send since
        the world `w`: the proxy is held only over settled requests, and with a truthful transport
        the wire agrees with the rows. */
    method HandleRawRequest(raw: Bytes, o: Outside, ghost w: Wire.World) returns (outcome: Outcome)
      requires ledger.Valid() && w.ledger == ledger.attempts
      requires id in ledger.attempts ==> ledger.attempts[id].proxy.binding == binding
      modifies ledger, this
      ensures ledger.Valid()
      ensures var l0 := old(ledger.attempts);
              var limit := limits.maxHeader + limits.maxBody + 4;
              var (l1, begun) := BeginRequest(l0, id, digest(raw[..Max(0, Min(|raw|, limit + 1))]));
              && (begun.Err? ==> ledger.attempts == l0 && NoOpen(trace) && BodyBytes(trace) == []
                                 && (outcome.Returned? ==> outcome.state.Failed? && outcome.sequence == 0))
              && (begun.Sequence? ==> Handled(l0, begun.n, raw, o, outcome))
      ensures TraceOk(trace) && BodyBytes(trace) <= Concat(Offered(o.receives))
      ensures Wire.Logged(Truthful(o) && Wire.WorldOk(w), w, steps, ledger.attempts)
      ensures ledger.history == old(ledger.history) + Wire.Calls(steps) && Opens(trace) == Wire.Sends(steps) <= 1
      ensures id in ledger.attempts ==> ledger.attempts[id].proxy.binding == binding
      ensures previous == (if outcome.Returned? && outcome.response.Some? then outcome.response else old(previous))
    {
      hide Sse.FeedAll, Concat, Offered, EndState, EndHolds, Begins, HeadRejected, GoesWrong, Explained, CompletedBy, LedgerOk, BeginRequest, BodyBytes, NoOpen, Truthful, TraceOk, Run, Wire.Logged, Wire.WireRun, Wire.Calls, Wire.Sends, Opens, Wire.WorldOk;
      Reset(Truthful(o) && Wire.WorldOk(w), w);
      var limit := limits.maxHeader + limits.maxBody + 4;
      var bounded := raw[..Max(0, Min(|raw|, limit + 1))];
      ghost var l0 := ledger.attempts;
      var begun := Begin(digest(bounded));
      if begun.Err? {
        EmptyTrace();
        outcome := RefuseBegin(LedgerExc(begun.error), o);
        return;
      }
      EndIgnoresCount(o, raw, l0[id], ledger.attempts[id], id, decode, limits);
      outcome := Conduct(begun.n, raw, o);
      OpenedOnce(trace);
    }

    /** A new request starts with nothing written, nothing opened and an empty log. */
    method Reset(ghost truthful: bool, ghost w: Wire.World)
      requires ledger.Valid() && w.ledger == ledger.attempts && (truthful ==> Wire.WorldOk(w))
      modifies this`trace, this`responding, this`writes, this`origin, this`base, this`steps, this`honest
      ensures Kept() && trace == [] && writes == 0 && !responding
      ensures origin == w && base == ledger.history && steps == [] && honest == truthful
    {
      hide LedgerOk, TraceOk, Run, Wire.Logged, Wire.Calls, Wire.Sends, Opens, Wire.WorldOk;
      EmptyTrace();
      Wire.LogNothing(truthful, w);
      trace, responding, writes := [], false, 0;
      origin, base, steps, honest := w, ledger.history, [], truthful;
    }

    /** The status that goes with a row: a result is 200, what nobody can tell is 504 or 500. */
    ghost predicate StatusFits(status: int, state: RequestState, answered: bool) {
      && (answered ==> status == 200 && state.Complete?)
      && (state.Complete? && !answered ==> status == 504 || status == 500)
      && (state.Ambiguous? ==> status == 504 || status == 500)
      && (state.SafeNotSent? ==> status == 503 || status == 504 || status == 500)
    }

    /** How a begun request must end. */
    ghost predicate Handled(l0: Ledger, n: int, raw: Bytes, o: Outside, outcome: Outcome)
      reads this, ledger
    {
      && OnlyTouches(l0, ledger.attempts, id, n) && Settled(ledger.attempts, id, n)
      && var row := ledger.attempts[id].requests[n];
         && (outcome.Returned? ==> outcome.state == row.state && outcome.sequence == n)
         && row.state == EndState(o, raw, l0[id], id, decode, limits)
         && (ledger.attempts[id].proxy.state.Hold? <==> EndHolds(o, raw, l0[id], id, decode, limits))
         && (row.state.Ambiguous? ==> HeldAs("BROKER_UPSTREAM_AMBIGUOUS"))
         && (Begins(o, raw, l0[id], limits) && HeadRejected(o, id, binding) ==>
               var status := o.opening.stream.value.status.value;
               HeldAs(if status == 401 || status == 403 then "BROKER_UPSTREAM_CREDENTIAL_REJECTED" else "BROKER_PROXY_UPSTREAM_STATUS_" + Decimal(status)))
         && (GoesWrong(o, raw, l0[id], id, decode, limits) ==> Explained(o, raw, l0[id], id, decode, limits, row, outcome))
         && (outcome.Returned? ==> StatusFits(outcome.status, row.state, outcome.response.Some?))
         && (row.state.Complete? ==> CompletedBy(o, row, trace, decode, limits))
         && (row.state.Ambiguous? ==>
               && ledger.attempts[id].proxy.state.Hold?
               && forall d :: BeginRequest(ledger.attempts, id, d).1 == Err(ProxyHold("BROKER_PROXY_NOT_RUNNING")))
    }

    /** A begun request: its body, and the branch its exception takes. */
    method Conduct(n: int, raw: Bytes, o: Outside) returns (outcome: Outcome)
      requires Ready(n) && Row(n).state.Created? && Row(n).estimated.None? && Row(n).reserved.None? && Row(n).evidence.None? && !Row(n).prepared
      requires Row(n).bytesSent.None? && trace == [] && writes == 0 && !responding && (honest ==> Truthful(o))
      modifies ledger, this`trace, this`writes, this`previous, this`steps, this`responding
      ensures Kept() && Handled(old(ledger.attempts), n, raw, o, outcome) && BodyBytes(trace) <= Concat(Offered(o.receives))
      ensures previous == (if outcome.Returned? && outcome.response.Some? then outcome.response else old(previous))
    {
      hide Sse.FeedAll, Concat, Offered, Succeeds, LedgerOk, TraceOk, BeginRequest, Run, Wire.Logged, Wire.WireRun, Wire.Calls, Wire.Sends, Opens, BodyBytes, VerdictAfterStart, Overruns, Truthful, NoOpen, EffectOk;
      ghost var l0 := ledger.attempts;
      var r := Attempted(n, raw, o);
      if r.Finished? {
        outcome := Returned(r.status, r.state, n, r.response);
        if Begins(o, raw, l0[id], limits) && HeadRejected(o, id, binding) { RejectionExcludes(o, raw, l0[id], id, decode, limits); }
      } else {
        outcome := Rescue(l0, n, raw, r.exc, o);
      }
    }

    /** What the body raised settles the request. */
    method Rescue(ghost l0: Ledger, n: int, raw: Bytes, exc: Exc, o: Outside) returns (outcome: Outcome)
      requires Live(l0, id, n) && l0[id].proxy.binding == binding && Ended(l0, n, Raised(exc), o) && AttemptEnds(l0[id], n, raw, Raised(exc), o)
      requires ledger.attempts[id].requests[n].state.Complete? <==> Succeeds(o, raw, l0[id], id, decode, limits)
      modifies ledger, this`trace, this`writes, this`steps
      ensures Kept() && Handled(l0, n, raw, o, outcome) && BodyBytes(trace) <= Concat(Offered(o.receives))
      ensures outcome.Returned? ==> outcome.response.None?
    {
      hide Sse.FeedAll, Concat, Offered, Succeeds, LedgerOk, TraceOk, BeginRequest, Run, Wire.Logged, Wire.WireRun, Wire.Calls, Wire.Sends, Opens, BodyBytes;
      hide AttemptEnds, EndState, EndHolds, StatusFits, SettledHold, HttpStatus, Begins, HeadRejected, GoesWrong, Blames, ErrorCode;
      ExcDecides(l0, n, raw, exc, o);
      outcome := Settle(n, exc, o);
      if ledger.attempts[id].requests[n].state == Ambiguous {
        AmbiguousHolds(ledger.attempts, id, n);
      }
    }

    /** Settling after what the body raised ends the request as the outside determined. */
    lemma ExcDecides(l0: Ledger, n: int, raw: Bytes, exc: Exc, o: Outside)
      requires Live(l0, id, n) && l0[id].proxy.binding == binding && Ended(l0, n, Raised(exc), o) && AttemptEnds(l0[id], n, raw, Raised(exc), o)
      requires ledger.attempts[id].requests[n].state.Complete? <==> Succeeds(o, raw, l0[id], id, decode, limits)
      ensures var s := ledger.attempts[id].requests[n].state;
              && SettledState(exc, s) == EndState(o, raw, l0[id], id, decode, limits)
              && (SettledHold(exc, s).Some? <==> EndHolds(o, raw, l0[id], id, decode, limits))
              && (SettledState(exc, s).Ambiguous? ==> SettledHold(exc, s) == Some("BROKER_UPSTREAM_AMBIGUOUS"))
              && (Begins(o, raw, l0[id], limits) && HeadRejected(o, id, binding) ==>
                    SettledHold(exc, s) == Some(RejectionHold(o.opening.stream.value.status.value)))
              && StatusFits(HttpStatus(exc), SettledState(exc, s), false)
              && (GoesWrong(o, raw, l0[id], id, decode, limits) ==> Active(s) && Blames(o, raw, l0[id], id, decode, limits, exc))
    {
      hide Sse.FeedAll, Concat, Offered, Succeeds, LedgerOk, TraceOk, Kept, Run, BodyBytes, CompletedBy, VerdictAfterStart, Overruns, RejectionHold, Blames;
      if Begins(o, raw, l0[id], limits) && HeadRejected(o, id, binding) { RejectionExcludes(o, raw, l0[id], id, decode, limits); }
    }

    method Begin(sha: string) returns (begun: Reply)
      requires Kept() && steps == []
      modifies ledger, this`steps
      ensures Kept() && begun == BeginRequest(old(ledger.attempts), id, sha).1
      ensures begun.Err? ==> ledger.attempts == old(ledger.attempts) && StateOf(0).None?
      ensures !begun.Err? ==>
        && begun.Sequence? && Live(ledger.attempts, id, begun.n) && OnlyTouches(old(ledger.attempts), ledger.attempts, id, begun.n)
        && ledger.attempts[id].proxy == old(ledger.attempts)[id].proxy.(count := begun.n)
        && ledger.attempts[id].requests[begun.n] == RequestRow(sha, Created, None, None, None, None, None, None, None, false, None)
    {
      hide BeginRequest, LedgerOk, TraceOk, Run, Wire.Logged, Wire.WireRun, Wire.Calls, Wire.Sends, Opens;
      BeginFacts(ledger.attempts, id, sha);
      NoRowZero(ledger.attempts, id);
      Wire.LogCall(honest, origin, steps, ledger.attempts, OpBegin(id, sha));
      steps := steps + [Wire.Call(OpBegin(id, sha))];
      begun := ledger.BeginRequest(id, sha);
    }

    method RefuseBegin(exc: Exc, o: Outside) returns (outcome: Outcome)
      requires trace == [] && StateOf(0).None?
      modifies this`trace, this`writes
      ensures Opens(trace) == 0
      ensures TraceOk(trace) && NoOpen(trace) && BodyBytes(trace) == []
      ensures outcome.Returned? ==> (exc.Policy? || exc.Held?) && outcome.state.Failed? && outcome.sequence == 0 && outcome.response.None?
                                    && outcome.status == (if exc.Policy? then exc.status else 409)
    {
      if !exc.Policy? && !exc.Held? {
        return Escaped(exc);
      }
      var status := if exc.Policy? then exc.status else 409;
      var fault := Write(0, LocalError(status, exc.code), o);
      outcome := if fault.Some? then Escaped(fault.value) else Returned(status, Failed, 0, None);
    }
  }

  /** How a request ends does not depend on the request count. */
  lemma EndIgnoresCount(o: Outside, raw: Bytes, a: Attempt, b: Attempt, id: string, decode: Sse.Decoder, limits: Limits)
    requires b.proxy == a.proxy.(count := b.proxy.count)
    ensures Begins(o, raw, a, limits) <==> Begins(o, raw, b, limits)
    ensures EndState(o, raw, a, id, decode, limits) == EndState(o, raw, b, id, decode, limits)
    ensures EndHolds(o, raw, a, id, decode, limits) <==> EndHolds(o, raw, b, id, decode, limits)
    ensures GoesWrong(o, raw, a, id, decode, limits) <==> GoesWrong(o, raw, b, id, decode, limits)
    ensures forall row, outcome ::
      Explained(o, raw, a, id, decode, limits, row, outcome) <==> Explained(o, raw, b, id, decode, limits, row, outcome)
  {
    hide StreamedWell, StreamFails, BlamesStream, ReleaseStalls, UsageFits;
    assert forall exc :: Blames(o, raw, a, id, decode, limits, exc) <==> Blames(o, raw, b, id, decode, limits, exc);
    hide Blames;
  }

  lemma FeedNothing(decode: Sse.Decoder, maxEvent: int, chunks: seq<Bytes>)
    ensures Sse.FeedAll(decode, Sse.Fresh(maxEvent), chunks[..0]) == Sse.Fed(Sse.Fresh(maxEvent), [], None)
    ensures Concat(chunks[..0]) == []
  {
  }

  lemma PrefixWritten(o: Outside, i: nat, decode: Sse.Decoder, maxEvent: int)
    requires i <= |Offered(o.receives)|
    ensures var fed := Sse.FeedAll(decode, Sse.Fresh(maxEvent), Offered(o.receives)[..i]);
            fed.error.None? ==>
              && Concat(fed.forwarded) <= Concat(Offered(o.receives))
              && Concat(fed.forwarded) + fed.tracker.terminal <= Concat(Offered(o.receives))
  {
    var chunks := Offered(o.receives);
    assert chunks[..i] + chunks[i..] == chunks;
    if Sse.FeedAll(decode, Sse.Fresh(maxEvent), chunks[..i]).error.None? {
      ForwardedIsPrefix(decode, maxEvent, chunks[..i], chunks[i..]);
    }
  }
}
