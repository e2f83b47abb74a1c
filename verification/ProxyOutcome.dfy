/** How a request must end, read off the outside alone: when it completes, when upstream's verdict is
    known, when nothing was sent, and otherwise that nobody can tell. */
module ProxyOutcome {
  import opened Prelude
  import opened ProxyLedgerSpec
  import opened ProxyHandlerSpec
  import Sse = SseSpec
  import Events = SseEvents

  datatype Limits = Limits(maxHeader: int, maxBody: int, maxEvent: int, maxChunk: int, maxResponse: int)

  const EVENT_STREAM := "text/event-stream"

  // ---- When a request completes ---------------------------------------------------------

  predicate Fits(limits: Limits, raw: Bytes) {
    |raw| <= limits.maxHeader + limits.maxBody + 4
  }

  ghost predicate Admitted(o: Outside, p: ProxyRow) {
    && o.preparation.Prepared? && o.preparation.estimated > 0 && o.preparation.reserved > 0
    && WithinLimits(p, p.input + o.preparation.estimated, p.output + o.preparation.reserved)
  }

  predicate Bound(e: SendEvidence, id: string, binding: string, p: Preparation)
    requires p.Prepared?
  {
    e.attempt == id && e.binding == binding && e.request == p.request && e.operation == p.operation
  }

  ghost predicate OpenedWell(o: Outside, id: string, binding: string)
    requires o.preparation.Prepared?
  {
    && o.openDeadline.None? && o.opening.Opening? && Bound(o.opening.evidence, id, binding, o.preparation)
    && o.opening.evidence.bytesSent > 0
    && o.opening.stream == Some(StreamHead(Some(200), EVENT_STREAM))
  }

  /** The offered chunks are followed by the end of the stream and respect the size limits. */
  ghost predicate EndsWell(receives: seq<Receive>, limits: Limits) {
    var chunks := Offered(receives);
    && (|chunks| < |receives| ==> receives[|chunks|].EndOfStream?)
    && (forall i :: 0 <= i < |chunks| ==> |chunks[i]| <= Max(0, limits.maxChunk))
    && |Concat(chunks)| <= Max(0, limits.maxResponse)
  }

  ghost predicate StreamedWell(o: Outside, decode: Sse.Decoder, limits: Limits) {
    var fed := Sse.FeedAll(decode, Sse.Fresh(limits.maxEvent), Offered(o.receives));
    && EndsWell(o.receives, limits) && fed.error.None?
    && WritesWell(o.writes, 1 + |fed.forwarded|)
  }

  ghost predicate WritesWell(writes: nat -> Option<Fault>, n: nat) {
    forall k: nat :: k < n ==> writes(k).None?
  }

  ghost predicate UsageFits(f: Sse.Finish, p: Preparation)
    requires p.Prepared?
  {
    f.Finished? && f.input <= p.estimated && f.output <= p.reserved
  }

  /** Everything a request needs to reach COMPLETE. */
  ghost predicate Succeeds(o: Outside, raw: Bytes, a: Attempt, id: string, decode: Sse.Decoder, limits: Limits) {
    && Fits(limits, raw) && Admitted(o, a.proxy) && OpenedWell(o, id, a.proxy.binding) && StreamedWell(o, decode, limits)
    && UsageFits(Sse.FinishOf(Sse.FeedAll(decode, Sse.Fresh(limits.maxEvent), Offered(o.receives)).tracker), o.preparation)
  }

  // ---- When it does not: what the outside itself said -------------------------------------

  /** `Known`: the outside gave a verdict, so the request FAILED; `Holding`: one that holds the proxy. */
  datatype Class = Known | Holding

  predicate InClass(c: Class, e: Exc) {
    (c.Known? && e.Policy?) || e.Rejected? || e.TerminalFailed?
  }

  /** The request reaches UPSTREAM_STARTED. */
  ghost predicate Begins(o: Outside, raw: Bytes, a: Attempt, limits: Limits) {
    Fits(limits, raw) && Admitted(o, a.proxy)
  }

  /** Bound evidence of zero bytes and no stream. */
  ghost predicate NotSent(o: Outside, id: string, binding: string)
    requires o.preparation.Prepared?
  {
    && o.openDeadline.None? && o.opening.Opening? && Bound(o.opening.evidence, id, binding, o.preparation)
    && o.opening.evidence.bytesSent == 0 && o.opening.stream.None?
  }

  /** Upstream answered, with a status other than 200. */
  ghost predicate HeadRejected(o: Outside, id: string, binding: string)
    requires o.preparation.Prepared?
  {
    && o.openDeadline.None? && o.opening.Opening? && Bound(o.opening.evidence, id, binding, o.preparation)
    && o.opening.evidence.bytesSent > 0 && o.opening.stream.Some? && o.opening.stream.value.status.Some?
    && 100 <= o.opening.stream.value.status.value <= 599 && o.opening.stream.value.status.value != 200
  }

  ghost predicate OpenFails(c: Class, o: Outside, id: string, binding: string)
    requires o.preparation.Prepared?
  {
    || (o.openDeadline.None? && o.opening.OpenRaised? && InClass(c, o.opening.exc))
    || HeadRejected(o, id, binding)
  }

  /** The first k chunks are within limits, accepted, and their events could be written. */
  ghost predicate GoodPrefix(o: Outside, decode: Sse.Decoder, limits: Limits, k: nat) {
    && k <= |Offered(o.receives)|
    && var chunks := Offered(o.receives)[..k];
       var fed := Sse.FeedAll(decode, Sse.Fresh(limits.maxEvent), chunks);
       && fed.error.None? && WritesWell(o.writes, 1 + |fed.forwarded|)
       && (forall i :: 0 <= i < k ==> |Offered(o.receives)[i]| <= Max(0, limits.maxChunk))
       && |Concat(chunks)| <= Max(0, limits.maxResponse)
  }

  /** The receive after k chunks raised such a verdict, or its chunk carries a terminal failure event. */
  ghost predicate FailsAt(c: Class, o: Outside, decode: Sse.Decoder, limits: Limits, k: nat)
    requires k <= |Offered(o.receives)|
  {
    k < |o.receives| &&
    match o.receives[k]
    case ReceiveRaised(e) => InClass(c, e)
    case Chunk(bytes) =>
      && |bytes| <= Max(0, limits.maxChunk)
      && |Concat(Offered(o.receives)[..k])| + |bytes| <= Max(0, limits.maxResponse)
      && Events.SaysFailed(decode, limits.maxEvent, Concat(Offered(o.receives)[..k]), bytes)
    case _ => false
  }

  ghost predicate StreamFails(c: Class, o: Outside, decode: Sse.Decoder, limits: Limits) {
    exists k: nat :: GoodPrefix(o, decode, limits, k) && k <= |Offered(o.receives)| && FailsAt(c, o, decode, limits, k)
  }

  /** A verdict of the outside after the request was started. */
  ghost predicate VerdictAfterStart(c: Class, o: Outside, id: string, binding: string, decode: Sse.Decoder, limits: Limits)
    requires o.preparation.Prepared?
  {
    OpenFails(c, o, id, binding) || (OpenedWell(o, id, binding) && StreamFails(c, o, decode, limits))
  }

  ghost function FinalTracker(o: Outside, decode: Sse.Decoder, limits: Limits): Sse.Tracker {
    Sse.FeedAll(decode, Sse.Fresh(limits.maxEvent), Offered(o.receives)).tracker
  }

  /** A clean stream whose usage exceeds the reservation. */
  ghost predicate Overruns(o: Outside, id: string, binding: string, decode: Sse.Decoder, limits: Limits)
    requires o.preparation.Prepared?
  {
    && OpenedWell(o, id, binding) && StreamedWell(o, decode, limits)
    && Sse.FinishOf(FinalTracker(o, decode, limits)).Finished? && !UsageFits(Sse.FinishOf(FinalTracker(o, decode, limits)), o.preparation)
  }

  /** The state a begun request ends in. */
  ghost function EndState(o: Outside, raw: Bytes, a: Attempt, id: string, decode: Sse.Decoder, limits: Limits): RequestState {
    if Succeeds(o, raw, a, id, decode, limits) then Complete
    else if !Begins(o, raw, a, limits) then Failed
    else if NotSent(o, id, a.proxy.binding) then SafeNotSent
    else if VerdictAfterStart(Known, o, id, a.proxy.binding, decode, limits) || Overruns(o, id, a.proxy.binding, decode, limits) then Failed
    else Ambiguous
  }

  /** The release of the withheld bytes timed out or found the proxy not started. */
  ghost predicate ReleaseStalls(o: Outside, decode: Sse.Decoder, limits: Limits) {
    var k := 1 + |Sse.FeedAll(decode, Sse.Fresh(limits.maxEvent), Offered(o.receives)).forwarded|;
    o.writes(k).Some? && !o.writes(k).value.Broken?
  }

  /** Whether the proxy ends in HOLD. */
  ghost predicate EndHolds(o: Outside, raw: Bytes, a: Attempt, id: string, decode: Sse.Decoder, limits: Limits) {
    if Succeeds(o, raw, a, id, decode, limits) then ReleaseStalls(o, decode, limits)
    else if !Begins(o, raw, a, limits) then Fits(limits, raw) && o.preparation.Unprepared? && InClass(Holding, o.preparation.exc)
    else if NotSent(o, id, a.proxy.binding) then false
    else
      || !VerdictAfterStart(Known, o, id, a.proxy.binding, decode, limits)
      || VerdictAfterStart(Holding, o, id, a.proxy.binding, decode, limits)
      || Overruns(o, id, a.proxy.binding, decode, limits)
  }

  // ---- Which exception is to blame -------------------------------------------------------

  /** The code for a receive that ended the stream without a verdict. */
  function StopCode(r: Receive): Option<string> {
    match r
    case WallExpired => Some("BROKER_PROXY_WALL_TIMEOUT")
    case TooSlow => Some("BROKER_PROXY_SSE_IDLE_TIMEOUT")
    case NotBytes => Some("BROKER_PROXY_SSE_CHUNK_INVALID")
    case _ => None
  }

  ghost predicate BlamesStream(o: Outside, decode: Sse.Decoder, limits: Limits, exc: Exc) {
    forall k: nat :: GoodPrefix(o, decode, limits, k) ==> BlamesReceive(o, k, exc)
  }

  predicate BlamesReceive(o: Outside, k: nat, exc: Exc) {
    && (k < |o.receives| && StopCode(o.receives[k]).Some? ==> exc == MaybeSent(StopCode(o.receives[k]).value))
    && (k < |o.receives| && o.receives[k].ReceiveRaised? ==> exc == o.receives[k].exc)
    && (k < |o.receives| && o.receives[k].DeadlineFault? ==> exc == Raise(o.receives[k].fault))
  }

  ghost predicate BlamesOpening(o: Outside, id: string, binding: string, exc: Exc)
    requires o.preparation.Prepared?
  {
    if o.openDeadline.Some? then exc == Raise(o.openDeadline.value)
    else match o.opening
      case OpenRaised(e) => exc == e
      case NoResult => exc == MaybeSent("BROKER_PROXY_SEND_EVIDENCE_MISSING")
      case Opening(evidence, _) =>
        && (!Bound(evidence, id, binding, o.preparation) ==> exc == MaybeSent("BROKER_PROXY_SEND_EVIDENCE_BINDING_INVALID"))
        && (HeadRejected(o, id, binding) ==> exc == Rejected(o.opening.stream.value.status.value))
  }

  /** `exc` is what the request raised, by the first thing that went wrong outside. */
  ghost predicate Blames(o: Outside, raw: Bytes, a: Attempt, id: string, decode: Sse.Decoder, limits: Limits, exc: Exc) {
    if !Fits(limits, raw) then exc == Policy("BROKER_PROXY_BODY_LIMIT", 413)
    else if o.preparation.Unprepared? then exc == o.preparation.exc
    else if !Admitted(o, a.proxy) then !InClass(Holding, exc)
    else if OpenedWell(o, id, a.proxy.binding) then BlamesStream(o, decode, limits, exc)
    else BlamesOpening(o, id, a.proxy.binding, exc)
  }

  /** The request ends FAILED or AMBIGUOUS, other than by an overrun. */
  ghost predicate GoesWrong(o: Outside, raw: Bytes, a: Attempt, id: string, decode: Sse.Decoder, limits: Limits) {
    && !Succeeds(o, raw, a, id, decode, limits)
    && (Begins(o, raw, a, limits) ==> !NotSent(o, id, a.proxy.binding) && !Overruns(o, id, a.proxy.binding, decode, limits))
  }

  /** One exception, caused by the outside, explains the row's error and the status. */
  ghost predicate Explained(o: Outside, raw: Bytes, a: Attempt, id: string, decode: Sse.Decoder, limits: Limits,
                            row: RequestRow, outcome: Outcome)
  {
    exists exc :: Blames(o, raw, a, id, decode, limits, exc) && row.error == Some(ErrorCode(exc))
                  && (outcome.Returned? ==> outcome.status == HttpStatus(exc))
  }

  // ---- The first failure of a stream is its only one --------------------------------------

  lemma GoodPrefixShrinks(o: Outside, decode: Sse.Decoder, limits: Limits, k: nat, j: nat)
    requires GoodPrefix(o, decode, limits, k) && j <= k
    ensures GoodPrefix(o, decode, limits, j)
  {
    hide Sse.FeedAll, Concat, Offered;
    var chunks := Offered(o.receives);
    var t := Sse.Fresh(limits.maxEvent);
    assert chunks[..k] == chunks[..j] + chunks[j..k];
    FeedAllSplits(decode, t, chunks[..j], chunks[j..k]);
    ConcatAppend(chunks[..j], chunks[j..k]);
  }

  /** Where the prefix stops being good, the stream's verdict is decided. */
  lemma FirstFailure(c: Class, o: Outside, decode: Sse.Decoder, limits: Limits, i: nat)
    requires GoodPrefix(o, decode, limits, i) && !GoodPrefix(o, decode, limits, i + 1)
    ensures StreamFails(c, o, decode, limits) <==> FailsAt(c, o, decode, limits, i)
  {
    hide GoodPrefix, FailsAt;
    assert i <= |Offered(o.receives)| by { PrefixInside(o, decode, limits, i); }
    if k: nat :| GoodPrefix(o, decode, limits, k) && k <= |Offered(o.receives)| && FailsAt(c, o, decode, limits, k) {
      if k > i { GoodPrefixShrinks(o, decode, limits, k, i + 1); }
      if k < i {
        GoodPrefixShrinks(o, decode, limits, i, k + 1);
        GoodDoesNotFail(c, o, decode, limits, k);
      }
    }
  }

  /** Only the receive at which the stream stopped is to blame. */
  lemma FirstIsToBlame(o: Outside, decode: Sse.Decoder, limits: Limits, i: nat, exc: Exc)
    requires GoodPrefix(o, decode, limits, i) && !GoodPrefix(o, decode, limits, i + 1) && BlamesReceive(o, i, exc)
    ensures BlamesStream(o, decode, limits, exc)
  {
    hide GoodPrefix;
    forall k: nat | GoodPrefix(o, decode, limits, k) ensures BlamesReceive(o, k, exc) {
      if k > i { GoodPrefixShrinks(o, decode, limits, k, i + 1); }
      PrefixInside(o, decode, limits, i);
      OfferedChunks(o.receives);
    }
  }

  /** A stream that ended well stopped at its end. */
  lemma WellBlamesAnything(o: Outside, decode: Sse.Decoder, limits: Limits, exc: Exc)
    requires StreamedWell(o, decode, limits)
    ensures BlamesStream(o, decode, limits, exc)
  {
    hide Sse.FeedAll, Offered;
    OfferedChunks(o.receives);
    forall k: nat | GoodPrefix(o, decode, limits, k) ensures BlamesReceive(o, k, exc) {
      assert k <= |Offered(o.receives)|;
    }
  }

  /** Without the head no receive is to blame. */
  lemma NoHeadNoBlame(o: Outside, decode: Sse.Decoder, limits: Limits, exc: Exc)
    requires o.writes(0).Some?
    ensures BlamesStream(o, decode, limits, exc)
  {
    hide Sse.FeedAll, Concat, Offered;
  }

  lemma PrefixInside(o: Outside, decode: Sse.Decoder, limits: Limits, i: nat)
    requires GoodPrefix(o, decode, limits, i)
    ensures i <= |Offered(o.receives)|
  {
  }

  lemma GoodDoesNotFail(c: Class, o: Outside, decode: Sse.Decoder, limits: Limits, k: nat)
    requires GoodPrefix(o, decode, limits, k) && GoodPrefix(o, decode, limits, k + 1)
    ensures !FailsAt(c, o, decode, limits, k)
  {
    hide Sse.FeedAll, Sse.Feed, Concat, Offered, Events.SaysFailed;
    OfferedChunks(o.receives);
    FeedNext(decode, Sse.Fresh(limits.maxEvent), Offered(o.receives), k);
    Events.ChunkFailsIff(decode, limits.maxEvent, Offered(o.receives)[..k], Offered(o.receives)[k]);
  }

  /** A stream that ends well carries no verdict. */
  lemma WellDoesNotFail(c: Class, o: Outside, decode: Sse.Decoder, limits: Limits)
    requires StreamedWell(o, decode, limits)
    ensures GoodPrefix(o, decode, limits, |Offered(o.receives)|) && !StreamFails(c, o, decode, limits)
  {
    hide Sse.FeedAll, Sse.Feed, Concat, Offered, Events.SaysFailed;
    var chunks := Offered(o.receives);
    assert chunks[..|chunks|] == chunks;
    OfferedChunks(o.receives);
    var n := |chunks|;
    FirstFailure(c, o, decode, limits, n);
  }

  /** Without the head there is no stream. */
  lemma NoHeadNoVerdict(c: Class, o: Outside, decode: Sse.Decoder, limits: Limits)
    requires o.writes(0).Some?
    ensures !StreamFails(c, o, decode, limits) && !StreamedWell(o, decode, limits)
  {
    hide Sse.FeedAll, Concat, Offered, FailsAt;
  }

  /** A head that rejects is none of the other endings. */
  lemma RejectionExcludes(o: Outside, raw: Bytes, a: Attempt, id: string, decode: Sse.Decoder, limits: Limits)
    requires o.preparation.Prepared? && HeadRejected(o, id, a.proxy.binding)
    ensures !Succeeds(o, raw, a, id, decode, limits) && !NotSent(o, id, a.proxy.binding) && !Overruns(o, id, a.proxy.binding, decode, limits)
  {
  }
}
