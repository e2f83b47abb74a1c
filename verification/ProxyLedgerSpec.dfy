/** The attempt proxy ledger as a value: one entry per attempt, holding the proxy row, the
    request rows keyed by sequence and, per request, the append-only event rows.  Every
    operation is one `BEGIN IMMEDIATE` transaction: it either commits or, on an error reply,
    leaves the tables as they were.  Digests are represented by the value they digest, so they
    are injective by construction. */
module ProxyLedgerSpec {
  import opened Prelude

  datatype RequestState =
    Created | UpstreamStarted | Streaming | Complete | SafeNotSent | Ambiguous | Failed

  datatype ProxyState = Ready | Running | Closed | Hold

  predicate Active(s: RequestState) {
    s.Created? || s.UpstreamStarted? || s.Streaming?
  }

  predicate LegalTransition(from: RequestState, to: RequestState) {
    match from
    case Created => to.UpstreamStarted? || to.SafeNotSent? || to.Failed?
    case UpstreamStarted => to.Streaming? || to.SafeNotSent? || to.Ambiguous? || to.Failed?
    case Streaming => to.Complete? || to.Ambiguous? || to.Failed?
    case _ => false
  }

  datatype RawEvidence = RawEvidence(
    attempt: string, binding: string, request: string, operation: string,
    bytesSent: int, terminal: bool, error: Option<string>)

  /** What the evidence constructor accepts: zero bytes only as a terminal failure. */
  predicate EvidenceWellFormed(e: RawEvidence) {
    && e.bytesSent >= 0
    && (e.bytesSent == 0 ==> e.terminal && e.error.Some?)
    && (e.bytesSent > 0 ==> !e.terminal)
  }

  type SendEvidence = e: RawEvidence | EvidenceWellFormed(e)
    witness RawEvidence("", "", "", "", 1, false, None)

  datatype Receipt = Receipt(
    attempt: string, binding: string, process: string, status: string, observedAt: string)

  datatype EvidenceDigest =
    | OfTransport(evidence: RawEvidence)
    | OfProcessLoss(receipt: Receipt, request: string, sequence: int)

  datatype Metadata =
    | OfRequest(request: string)
    | OfError(error: Option<string>)
    | OfCompletion(input: Option<int>, output: Option<int>, response: Option<string>)
    | OfRecovery(lossError: string, receipt: Receipt, evidence: Option<EvidenceDigest>)

  datatype Event = Event(
    ordinal: int, from: Option<RequestState>, to: RequestState, metadata: Metadata)

  datatype RequestRow = RequestRow(
    digest: string, state: RequestState,
    estimated: Option<int>, reserved: Option<int>,
    input: Option<int>, output: Option<int>, response: Option<string>,
    bytesSent: Option<int>, evidence: Option<EvidenceDigest>,
    prepared: bool, error: Option<string>)

  datatype ProxyRow = ProxyRow(
    binding: string, process: Option<string>, state: ProxyState,
    maxRequests: int, count: int,
    maxInput: int, input: int, maxOutput: int, output: int, maxTotal: int,
    holdCode: Option<string>, terminalEvidence: Option<Receipt>)

  datatype Attempt = Attempt(
    proxy: ProxyRow, requests: map<int, RequestRow>, events: map<int, seq<Event>>)

  type Ledger = map<string, Attempt>

  datatype LedgerError =
    | ProxyError(code: string)
    | ProxyHold(code: string)
    | PolicyError(code: string, status: int)
    | TypeError
    | IntegrityError

  datatype Reply =
    | Done
    | Sequence(n: int)
    | Recovery(state: ProxyState, holdCode: Option<string>, moved: seq<(int, RequestState)>)
    | Err(error: LedgerError)

  const AMBIGUOUS_HOLD := "BROKER_UPSTREAM_AMBIGUOUS"
  const OVERRUN_HOLD := "BROKER_PROXY_BUDGET_OVERRUN"

  // ---- Table helpers -------------------------------------------------------------------

  predicate HasActive(a: Attempt) {
    exists i :: i in a.requests && Active(a.requests[i].state)
  }

  /** `SELECT COALESCE(MAX(ordinal), 0)` */
  function MaxOrdinal(events: seq<Event>): int {
    if events == [] then 0 else Max(MaxOrdinal(events[..|events|-1]), events[|events|-1].ordinal)
  }

  function Appended(events: seq<Event>, from: Option<RequestState>, to: RequestState, m: Metadata): seq<Event> {
    events + [Event(MaxOrdinal(events) + 1, from, to, m)]
  }

  function EventsOf(a: Attempt, sequence: int): seq<Event> {
    if sequence in a.events then a.events[sequence] else []
  }

  /** One request row replaced and its transition logged. */
  function Moved(a: Attempt, sequence: int, row: RequestRow, m: Metadata): Attempt
    requires sequence in a.requests
  {
    a.(requests := a.requests[sequence := row],
       events := a.events[sequence := Appended(EventsOf(a, sequence), Some(a.requests[sequence].state), row.state, m)])
  }

  predicate IdCharacter(c: char) {
    'A' <= c <= 'Z' || 'a' <= c <= 'z' || '0' <= c <= '9' || c == '_' || c == '-'
  }

  /** `resp_` followed by 1 to 240 identifier characters. */
  predicate ValidResponseId(s: string) {
    6 <= |s| <= 245 && s[..5] == "resp_" && forall i :: 5 <= i < |s| ==> IdCharacter(s[i])
  }

  // ---- Operations ----------------------------------------------------------------------

  function Register(l: Ledger, id: string, binding: string,
                    maxRequests: int, maxInput: int, maxOutput: int, maxTotal: int): (Ledger, Reply)
  {
    if id in l || maxRequests <= 0 || maxInput <= 0 || maxOutput <= 0 || maxTotal <= 0 then
      (l, Err(IntegrityError))
    else
      var proxy := ProxyRow(binding, None, Ready, maxRequests, 0, maxInput, 0, maxOutput, 0, maxTotal, None, None);
      (l[id := Attempt(proxy, map[], map[])], Done)
  }

  function Activate(l: Ledger, id: string): (Ledger, Reply) {
    if id !in l || !l[id].proxy.state.Ready? then (l, Err(ProxyError("BROKER_PROXY_ACTIVATION_CONFLICT")))
    else (l[id := l[id].(proxy := l[id].proxy.(state := Running))], Done)
  }

  function BindProcess(l: Ledger, id: string, binding: string, process: string): (Ledger, Reply) {
    if id !in l || l[id].proxy.binding != binding || !l[id].proxy.state.Running? || l[id].proxy.process.Some? then
      (l, Err(ProxyError("BROKER_PROXY_PROCESS_BINDING_CONFLICT")))
    else
      (l[id := l[id].(proxy := l[id].proxy.(process := Some(process)))], Done)
  }

  function Begun(a: Attempt, digest: string): Attempt {
    var n := a.proxy.count + 1;
    var row := RequestRow(digest, Created, None, None, None, None, None, None, None, false, None);
    Attempt(a.proxy.(count := n),
            a.requests[n := row],
            a.events[n := Appended(EventsOf(a, n), None, Created, OfRequest(digest))])
  }

  function BeginRequest(l: Ledger, id: string, digest: string): (Ledger, Reply) {
    if id !in l || !l[id].proxy.state.Running? then (l, Err(ProxyHold("BROKER_PROXY_NOT_RUNNING")))
    else if l[id].proxy.count >= l[id].proxy.maxRequests then (l, Err(PolicyError("BROKER_PROXY_REQUEST_LIMIT", 429)))
    else if HasActive(l[id]) then (l, Err(PolicyError("BROKER_PROXY_CONCURRENCY_LIMIT", 429)))
    else if l[id].proxy.count + 1 in l[id].requests then (l, Err(IntegrityError))
    else (l[id := Begun(l[id], digest)], Sequence(l[id].proxy.count + 1))
  }

  /** The three limits, with `input` and `output` as the projected counters. */
  predicate WithinLimits(p: ProxyRow, input: int, output: int) {
    input <= p.maxInput && output <= p.maxOutput && input + output <= p.maxTotal
  }

  function ReserveBudget(l: Ledger, id: string, sequence: int, estimated: int, reserved: int): (Ledger, Reply) {
    if estimated <= 0 || reserved <= 0 then (l, Err(PolicyError("BROKER_PROXY_TOKEN_BUDGET_INVALID", 400)))
    else if id !in l || !l[id].proxy.state.Running? || sequence !in l[id].requests
         || !l[id].requests[sequence].state.Created? then
      (l, Err(ProxyError("BROKER_PROXY_REQUEST_STATE_CONFLICT")))
    else
      var a, row := l[id], l[id].requests[sequence];
      if row.estimated.Some? || row.reserved.Some? then (l, Err(ProxyError("BROKER_PROXY_BUDGET_ALREADY_RESERVED")))
      else if !WithinLimits(a.proxy, a.proxy.input + estimated, a.proxy.output + reserved) then
        (l, Err(PolicyError("BROKER_PROXY_TOKEN_LIMIT", 429)))
      else
        var row' := row.(estimated := Some(estimated), reserved := Some(reserved));
        (l[id := a.(requests := a.requests[sequence := row'])], Done)
  }

  function RecordEvidence(l: Ledger, id: string, sequence: int, e: SendEvidence,
                          expectedRequest: string, expectedOperation: string): (Ledger, Reply)
  {
    if || e.attempt != id || e.request != expectedRequest || e.operation != expectedOperation
       || id !in l || sequence !in l[id].requests
       || !l[id].requests[sequence].state.UpstreamStarted?
       || l[id].requests[sequence].evidence.Some?
       || l[id].proxy.binding != e.binding then
      (l, Err(ProxyError("BROKER_PROXY_SEND_EVIDENCE_BINDING_INVALID")))
    else
      var row := l[id].requests[sequence].(bytesSent := Some(e.bytesSent), evidence := Some(OfTransport(e)));
      (l[id := l[id].(requests := l[id].requests[sequence := row])], Done)
  }

  function HeldIfAmbiguous(p: ProxyRow, next: RequestState): ProxyRow {
    if next.Ambiguous? && p.state.Running? then p.(state := Hold, holdCode := Some(AMBIGUOUS_HOLD)) else p
  }

  function Transition(l: Ledger, id: string, sequence: int, expected: set<RequestState>,
                      next: RequestState, error: Option<string>): (Ledger, Reply)
  {
    if next.Complete? then (l, Err(ProxyError("BROKER_PROXY_REQUEST_TRANSITION_INVALID")))
    else if id !in l || sequence !in l[id].requests || l[id].requests[sequence].state !in expected then
      (l, Err(ProxyError("BROKER_PROXY_REQUEST_STATE_CONFLICT")))
    else
      var a, row := l[id], l[id].requests[sequence];
      if !LegalTransition(row.state, next) then (l, Err(ProxyError("BROKER_PROXY_REQUEST_TRANSITION_INVALID")))
      else if next.SafeNotSent? && (row.bytesSent != Some(0) || row.evidence.None?) then
        (l, Err(ProxyError("BROKER_PROXY_SAFE_NOT_SENT_UNPROVEN")))
      else
        var a' := Moved(a, sequence, row.(state := next, error := error), OfError(error));
        (l[id := a'.(proxy := HeldIfAmbiguous(a.proxy, next))], Done)
  }

  function PrepareCompletion(l: Ledger, id: string, sequence: int,
                             response: string, input: int, output: int): (Ledger, Reply)
  {
    if !ValidResponseId(response) || input < 0 || output < 0 then
      (l, Err(ProxyError("BROKER_PROXY_COMPLETION_INVALID")))
    else if id !in l || !l[id].proxy.state.Running? || sequence !in l[id].requests
         || !l[id].requests[sequence].state.Streaming? || l[id].requests[sequence].prepared then
      (l, Err(ProxyError("BROKER_PROXY_REQUEST_STATE_CONFLICT")))
    else
      var a, row := l[id], l[id].requests[sequence];
      var nextInput, nextOutput := a.proxy.input + input, a.proxy.output + output;
      if row.estimated.None? || row.reserved.None? then (l, Err(TypeError))
      else if || input > row.estimated.value || output > row.reserved.value
              || !WithinLimits(a.proxy, nextInput, nextOutput) then
        (l, Err(ProxyHold(OVERRUN_HOLD)))
      else
        var row' := row.(input := Some(input), output := Some(output), response := Some(response), prepared := true);
        (l[id := a.(proxy := a.proxy.(input := nextInput, output := nextOutput),
                    requests := a.requests[sequence := row'])], Done)
  }

  function FinalizeCompletion(l: Ledger, id: string, sequence: int): (Ledger, Reply) {
    if id !in l || sequence !in l[id].requests || !l[id].requests[sequence].state.Streaming?
       || !l[id].requests[sequence].prepared then
      (l, Err(ProxyError("BROKER_PROXY_REQUEST_STATE_CONFLICT")))
    else
      var row := l[id].requests[sequence];
      (l[id := Moved(l[id], sequence, row.(state := Complete), OfCompletion(row.input, row.output, row.response))], Done)
  }

  function HoldProxy(l: Ledger, id: string, code: string): (Ledger, Reply) {
    if id !in l || !(l[id].proxy.state.Ready? || l[id].proxy.state.Running?) then
      (l, Err(ProxyError("BROKER_PROXY_HOLD_CONFLICT")))
    else
      (l[id := l[id].(proxy := l[id].proxy.(state := Hold, holdCode := Some(code)))], Done)
  }

  predicate Unresolved(a: Attempt) {
    exists i :: i in a.requests && (Active(a.requests[i].state) || a.requests[i].state.Ambiguous?)
  }

  function CompleteProxy(l: Ledger, id: string): (Ledger, Reply) {
    if id in l && Unresolved(l[id]) then (l, Err(ProxyHold("BROKER_PROXY_REQUEST_UNRESOLVED")))
    else if id !in l || !l[id].proxy.state.Running? then (l, Err(ProxyError("BROKER_PROXY_COMPLETION_CONFLICT")))
    else (l[id := l[id].(proxy := l[id].proxy.(state := Closed))], Done)
  }

  /** Where confirmed process death sends an active request. */
  function LossState(s: RequestState): RequestState {
    if s.Created? then SafeNotSent else Ambiguous
  }

  function LossError(s: RequestState): string {
    if s.Created? then "BROKER_PROXY_PROCESS_LOST_BEFORE_FORWARD" else "BROKER_PROXY_PROCESS_LOST_AFTER_FORWARD"
  }

  function LossEvidence(row: RequestRow, r: Receipt, sequence: int): Option<EvidenceDigest> {
    if row.state.Created? then Some(OfProcessLoss(r, row.digest, sequence)) else None
  }

  function Coalesce<T>(x: Option<T>, y: Option<T>): Option<T> {
    if x.Some? then x else y
  }

  function LossRow(row: RequestRow, r: Receipt, sequence: int): RequestRow {
    row.(state := LossState(row.state),
         error := Some(LossError(row.state)),
         bytesSent := Coalesce(row.bytesSent, if row.state.Created? then Some(0) else None),
         evidence := Coalesce(row.evidence, LossEvidence(row, r, sequence)))
  }

  /** One active row moved by confirmed process death, with its event. */
  function LossMoved(a: Attempt, r: Receipt, n: int): Attempt
    requires n in a.requests
  {
    var row := a.requests[n];
    Moved(a, n, LossRow(row, r, n), OfRecovery(LossError(row.state), r, LossEvidence(row, r, n)))
  }

  /** The active rows among sequences 1..n, moved in sequence order. */
  function LossMoves(a: Attempt, r: Receipt, n: nat): (Attempt, seq<(int, RequestState)>) {
    if n == 0 then (a, [])
    else
      var (b, moved) := LossMoves(a, r, n - 1);
      if n in b.requests && Active(b.requests[n].state) then
        (LossMoved(b, r, n), moved + [(n, LossState(b.requests[n].state))])
      else (b, moved)
  }

  predicate AnyAmbiguous(moved: seq<(int, RequestState)>) {
    exists k :: 0 <= k < |moved| && moved[k].1.Ambiguous?
  }

  function Recover(l: Ledger, id: string, r: Receipt): (Ledger, Reply) {
    if r.attempt != id then (l, Err(ProxyError("BROKER_PROXY_RECOVERY_RECEIPT_BINDING_INVALID")))
    else if id !in l then (l, Err(ProxyError("BROKER_PROXY_NOT_FOUND")))
    else if l[id].proxy.binding != r.binding || l[id].proxy.process != Some(r.process) then
      (l, Err(ProxyError("BROKER_PROXY_RECOVERY_RECEIPT_BINDING_INVALID")))
    else
      var a, p := l[id], l[id].proxy;
      if p.state.Closed? || p.state.Hold? then
        if p.state.Hold? && p.terminalEvidence.None? then
          (l[id := a.(proxy := p.(terminalEvidence := Some(r)))], Recovery(p.state, p.holdCode, []))
        else if p.state.Hold? && p.terminalEvidence != Some(r) then
          (l, Err(ProxyError("BROKER_PROXY_RECOVERY_RECEIPT_CONFLICT")))
        else (l, Recovery(p.state, p.holdCode, []))
      else
        var (b, moved) := LossMoves(a, r, if p.count < 0 then 0 else p.count);
        var code := if AnyAmbiguous(moved) then AMBIGUOUS_HOLD
                    else "BROKER_PROXY_PROCESS_LOST";
        (l[id := b.(proxy := p.(state := Hold, holdCode := Some(code), terminalEvidence := Some(r)))],
         Recovery(Hold, Some(code), moved))
  }

  // ---- Runs ----------------------------------------------------------------------------

  datatype Op =
    | OpRegister(id: string, binding: string, maxRequests: int, maxInput: int, maxOutput: int, maxTotal: int)
    | OpActivate(id: string)
    | OpBindProcess(id: string, binding: string, process: string)
    | OpBegin(id: string, digest: string)
    | OpReserve(id: string, sequence: int, estimated: int, reserved: int)
    | OpEvidence(id: string, sequence: int, evidence: SendEvidence, request: string, operation: string)
    | OpTransition(id: string, sequence: int, expected: set<RequestState>, next: RequestState, error: Option<string>)
    | OpPrepare(id: string, sequence: int, response: string, input: int, output: int)
    | OpFinalize(id: string, sequence: int)
    | OpHold(id: string, code: string)
    | OpComplete(id: string)
    | OpRecover(id: string, receipt: Receipt)

  function Step(l: Ledger, op: Op): (Ledger, Reply) {
    match op
    case OpRegister(id, b, mr, mi, mo, mt) => Register(l, id, b, mr, mi, mo, mt)
    case OpActivate(id) => Activate(l, id)
    case OpBindProcess(id, b, p) => BindProcess(l, id, b, p)
    case OpBegin(id, d) => BeginRequest(l, id, d)
    case OpReserve(id, n, e, r) => ReserveBudget(l, id, n, e, r)
    case OpEvidence(id, n, e, q, o) => RecordEvidence(l, id, n, e, q, o)
    case OpTransition(id, n, ex, next, err) => Transition(l, id, n, ex, next, err)
    case OpPrepare(id, n, r, i, o) => PrepareCompletion(l, id, n, r, i, o)
    case OpFinalize(id, n) => FinalizeCompletion(l, id, n)
    case OpHold(id, c) => HoldProxy(l, id, c)
    case OpComplete(id) => CompleteProxy(l, id)
    case OpRecover(id, r) => Recover(l, id, r)
  }

  function Run(l: Ledger, ops: seq<Op>): Ledger
    decreases |ops|
  {
    if ops == [] then l else Run(Step(l, ops[0]).0, ops[1..])
  }
}
