/** Why anything in the proxy ledger ever changes: for each column, the only calls that may write it
    and what those calls must have shown, and from that what no run can rewrite. */
module ProxyLedgerChanges {
  import opened Prelude
  import opened ProxyLedgerSpec
  import opened ProxyLedgerProofs
  import opened ProxyLedgerTheorems

  // ---- When a call is accepted -----------------------------------------------------------

  predicate RowIn(l: Ledger, id: string, n: int, s: RequestState) {
    id in l && n in l[id].requests && l[id].requests[n].state == s
  }

  predicate RunningIn(l: Ledger, id: string) {
    id in l && l[id].proxy.state.Running?
  }

  /** What a caller must bring for the call to commit. */
  ghost predicate Accepts(l: Ledger, op: Op) {
    match op
    case OpRegister(id, _, mr, mi, mo, mt) => id !in l && mr > 0 && mi > 0 && mo > 0 && mt > 0
    case OpActivate(id) => id in l && l[id].proxy.state.Ready?
    case OpBindProcess(id, b, _) => RunningIn(l, id) && l[id].proxy.binding == b && l[id].proxy.process.None?
    case OpBegin(id, _) =>
      && RunningIn(l, id) && l[id].proxy.count < l[id].proxy.maxRequests
      && forall i :: i in l[id].requests ==> !Active(l[id].requests[i].state)
    case OpReserve(id, n, e, r) =>
      && e > 0 && r > 0 && RunningIn(l, id) && RowIn(l, id, n, Created)
      && l[id].requests[n].estimated.None? && l[id].requests[n].reserved.None?
      && l[id].proxy.input + e <= l[id].proxy.maxInput && l[id].proxy.output + r <= l[id].proxy.maxOutput
      && l[id].proxy.input + e + l[id].proxy.output + r <= l[id].proxy.maxTotal
    case OpEvidence(id, n, e, q, o) =>
      && RowIn(l, id, n, UpstreamStarted) && l[id].requests[n].evidence.None?
      && e.attempt == id && e.binding == l[id].proxy.binding && e.request == q && e.operation == o
    case OpTransition(id, n, expected, next, _) =>
      && !next.Complete? && id in l && n in l[id].requests
      && var row := l[id].requests[n];
         && row.state in expected && LegalTransition(row.state, next)
         && (next.SafeNotSent? ==> row.bytesSent == Some(0) && row.evidence.Some?)
    case OpPrepare(id, n, response, i, o) =>
      && ValidResponseId(response) && RunningIn(l, id) && RowIn(l, id, n, Streaming) && !l[id].requests[n].prepared
      && var row := l[id].requests[n];
         row.estimated.Some? && row.reserved.Some? && 0 <= i <= row.estimated.value && 0 <= o <= row.reserved.value
    case OpFinalize(id, n) => RowIn(l, id, n, Streaming) && l[id].requests[n].prepared
    case OpHold(id, _) => id in l && (l[id].proxy.state.Ready? || l[id].proxy.state.Running?)
    case OpComplete(id) =>
      && RunningIn(l, id)
      && forall i :: i in l[id].requests ==> !Active(l[id].requests[i].state) && !l[id].requests[i].state.Ambiguous?
    case OpRecover(id, r) =>
      && r.attempt == id && id in l && l[id].proxy.binding == r.binding && l[id].proxy.process == Some(r.process)
      && (l[id].proxy.state.Hold? ==> l[id].proxy.terminalEvidence.None? || l[id].proxy.terminalEvidence == Some(r))
  }

  /** In every reachable ledger a call commits exactly then. */
  lemma AcceptedIff(ops: seq<Op>, op: Op)
    ensures var l := Run(map[], ops); !Step(l, op).1.Err? <==> Accepts(l, op)
  {
    RunKeeps(map[], ops);
    StepAcceptedIff(Run(map[], ops), op);
  }

  lemma StepAcceptedIff(l: Ledger, op: Op)
    requires LedgerOk(l)
    ensures !Step(l, op).1.Err? <==> Accepts(l, op)
  {
    if op.OpPrepare? {
      PrepareAcceptedIff(l, op);
    } else {
      hide PrepareCompletion, LossMoves, Moved, Begun, ValidResponseId;
    }
  }

  lemma PrepareAcceptedIff(l: Ledger, op: Op)
    requires LedgerOk(l) && op.OpPrepare?
    ensures !Step(l, op).1.Err? <==> Accepts(l, op)
  {
    hide ValidResponseId;
    if RowIn(l, op.id, op.sequence, Streaming) && RunningIn(l, op.id) {
      assert ReservationFits(l[op.id].proxy, l[op.id].requests[op.sequence]);
    }
  }

  /** The newest entry of a request's log carries this. */
  ghost predicate Noted(b: Attempt, n: int, m: Metadata) {
    n in b.events && b.events[n] != [] && b.events[n][|b.events[n]|-1].metadata == m
  }

  /** What an accepted call leaves behind. */
  ghost predicate TookEffect(l: Ledger, m: Ledger, op: Op) {
    op.id in m &&
    var b := m[op.id];
    match op
    case OpRegister(_, binding, _, _, _, _) => b.proxy.state.Ready? && b.proxy.binding == binding && b.proxy.count == 0 && b.requests == map[]
    case OpActivate(_) => b.proxy.state.Running?
    case OpBindProcess(_, _, process) => b.proxy.process == Some(process)
    case OpBegin(_, digest) =>
      var n := b.proxy.count;
      op.id in l && n == l[op.id].proxy.count + 1 && n in b.requests
      && b.requests[n] == RequestRow(digest, Created, None, None, None, None, None, None, None, false, None) && Noted(b, n, OfRequest(digest))
    case OpReserve(_, n, e, r) => n in b.requests && b.requests[n].estimated == Some(e) && b.requests[n].reserved == Some(r)
    case OpEvidence(_, n, e, _, _) => n in b.requests && b.requests[n].bytesSent == Some(e.bytesSent) && b.requests[n].evidence == Some(OfTransport(e))
    case OpTransition(_, n, _, next, error) => n in b.requests && b.requests[n].state == next && b.requests[n].error == error && Noted(b, n, OfError(error))
    case OpPrepare(_, n, response, i, o) =>
      n in b.requests && b.requests[n].prepared && b.requests[n].response == Some(response)
      && b.requests[n].input == Some(i) && b.requests[n].output == Some(o)
    case OpFinalize(_, n) =>
      n in b.requests && b.requests[n].state.Complete? && Noted(b, n, OfCompletion(b.requests[n].input, b.requests[n].output, b.requests[n].response))
    case OpHold(_, code) => b.proxy.state.Hold? && b.proxy.holdCode == Some(code)
    case OpComplete(_) => b.proxy.state.Closed?
    case OpRecover(_, r) => b.proxy.state.Closed? || (b.proxy.state.Hold? && b.proxy.terminalEvidence == Some(r))
  }

  /** An accepted call takes effect; a refused one changes nothing. */
  lemma AcceptedTakesEffect(ops: seq<Op>, op: Op)
    ensures var l := Run(map[], ops);
            if Accepts(l, op) then TookEffect(l, Step(l, op).0, op) else Step(l, op).0 == l
  {
    RunKeeps(map[], ops);
    var l := Run(map[], ops);
    StepAcceptedIff(l, op);
    RefusalAndFrame(l, op, op.id);
    if Accepts(l, op) { StepTakesEffect(l, op); }
  }

  lemma StepTakesEffect(l: Ledger, op: Op)
    requires !Step(l, op).1.Err?
    ensures TookEffect(l, Step(l, op).0, op)
  {
    hide LossMoves, WithinLimits, ValidResponseId, HasActive, Unresolved;
  }

  // ---- The recovery receipt --------------------------------------------------------------

  /** Only a receipt for this attempt, this binding and the bound process recovers anything. */
  lemma OnlyBoundReceiptsRecover(l: Ledger, id: string, r: Receipt)
    ensures Recover(l, id, r).1.Recovery? ==> ReceiptBound(l, id, r)
    ensures id in l && !ReceiptBound(l, id, r) ==>
              Recover(l, id, r) == (l, Err(ProxyError("BROKER_PROXY_RECOVERY_RECEIPT_BINDING_INVALID")))
    ensures id in l && l[id].proxy.process.None? ==>
              Recover(l, id, r) == (l, Err(ProxyError("BROKER_PROXY_RECOVERY_RECEIPT_BINDING_INVALID")))
    ensures id !in l ==> Recover(l, id, r).0 == l && Recover(l, id, r).1.Err?
  {
  }

  /** What a recovery reports is what it did: the hold it left, and the one request it moved. */
  lemma RecoveryReports(ops: seq<Op>, id: string, r: Receipt)
    requires Recover(Run(map[], ops), id, r).1.Recovery?
    ensures var l := Run(map[], ops);
            var (m, reply) := Recover(l, id, r);
            && id in l && id in m && reply.state == m[id].proxy.state && reply.holdCode == m[id].proxy.holdCode
            && (m[id].requests == l[id].requests ==> reply.moved == [])
            && (m[id].requests != l[id].requests ==>
                  var n := l[id].proxy.count;
                  n in l[id].requests && Active(l[id].requests[n].state) && n in m[id].requests && reply.moved == [(n, m[id].requests[n].state)])
  {
    RunKeeps(map[], ops);
    ReportOf(Run(map[], ops), id, r);
  }

  lemma ReportOf(l: Ledger, id: string, r: Receipt)
    requires LedgerOk(l) && Recover(l, id, r).1.Recovery?
    ensures var (m, reply) := Recover(l, id, r);
            && id in l && id in m && reply.state == m[id].proxy.state && reply.holdCode == m[id].proxy.holdCode
            && (m[id].requests == l[id].requests ==> reply.moved == [])
            && (m[id].requests != l[id].requests ==>
                  var n := l[id].proxy.count;
                  n in l[id].requests && Active(l[id].requests[n].state) && n in m[id].requests && reply.moved == [(n, m[id].requests[n].state)])
  {
    hide LossMoves;
    assert AttemptOk(l[id]);
    LossWalk(l[id], r, l[id].proxy.count);
    if HasActive(l[id]) { LossChanges(l[id], r, l[id].proxy.count); }
  }

  lemma LossChanges(a: Attempt, r: Receipt, n: int)
    requires n in a.requests && Active(a.requests[n].state)
    ensures var b := LossMoved(a, r, n); n in b.requests && b.requests[n].state == LossState(a.requests[n].state) && b.requests != a.requests
  {
    assert LossMoved(a, r, n).requests[n].state != a.requests[n].state;
  }

  // ---- Why a row changes -----------------------------------------------------------------

  /** The state moves along a legal edge that is logged; otherwise the log stays. */
  ghost predicate StateCause(a: Attempt, b: Attempt, n: int)
    requires n in a.requests && n in b.requests && n in a.events && n in b.events
  {
    var s, t := a.requests[n].state, b.requests[n].state;
    if b.events[n] == a.events[n] then s == t && a.requests[n].error == b.requests[n].error
    else
      && LegalTransition(s, t) && |b.events[n]| == |a.events[n]| + 1 && a.events[n] <= b.events[n]
      && var e := b.events[n][|a.events[n]|];
         e.ordinal == |b.events[n]| && e.from == Some(s) && e.to == t
  }

  /** A reservation is written once, while CREATED, within what is left of the limits. */
  ghost predicate ReservationCause(a: Attempt, b: Attempt, n: int, op: Op)
    requires n in a.requests && n in b.requests
  {
    var x, y := a.requests[n], b.requests[n];
    (x.estimated == y.estimated && x.reserved == y.reserved) ||
    (op.OpReserve? && op.sequence == n && x.state.Created? && x.estimated.None? && x.reserved.None?
     && y.estimated == Some(op.estimated) && y.reserved == Some(op.reserved) && op.estimated > 0 && op.reserved > 0
     && a.proxy.input + op.estimated <= a.proxy.maxInput && a.proxy.output + op.reserved <= a.proxy.maxOutput
     && a.proxy.input + op.estimated + a.proxy.output + op.reserved <= a.proxy.maxTotal)
  }

  /** Evidence is written once: the transport's own for this attempt and binding, or the loss of the
      bound process before anything was forwarded. */
  ghost predicate EvidenceCause(a: Attempt, b: Attempt, id: string, n: int, op: Op)
    requires n in a.requests && n in b.requests
  {
    var x, y := a.requests[n], b.requests[n];
    || (x.evidence == y.evidence && x.bytesSent == y.bytesSent)
    || (x.evidence.None? && x.bytesSent.None? &&
        ((op.OpEvidence? && op.sequence == n && x.state.UpstreamStarted? && op.evidence.attempt == id && op.evidence.binding == a.proxy.binding
          && op.evidence.request == op.request && op.evidence.operation == op.operation
          && y.evidence == Some(OfTransport(op.evidence)) && y.bytesSent == Some(op.evidence.bytesSent))
         || (op.OpRecover? && x.state.Created? && y.state.SafeNotSent? && op.receipt.attempt == id
             && y.bytesSent == Some(0) && y.evidence == Some(OfProcessLoss(op.receipt, x.digest, n)))))
  }

  /** Usage and response id are written once, from a STREAMING row, and debited to the counters. */
  ghost predicate UsageCause(a: Attempt, b: Attempt, n: int, op: Op)
    requires n in a.requests && n in b.requests
  {
    var x, y := a.requests[n], b.requests[n];
    || (x.prepared == y.prepared && x.input == y.input && x.output == y.output && x.response == y.response)
    || (op.OpPrepare? && op.sequence == n && x.state.Streaming? && !x.prepared && y.prepared
        && ValidResponseId(op.response) && y.response == Some(op.response)
        && y.input == Some(op.input) && y.output == Some(op.output)
        && x.estimated.Some? && x.reserved.Some? && 0 <= op.input <= x.estimated.value && 0 <= op.output <= x.reserved.value
        && b.proxy.input == a.proxy.input + op.input && b.proxy.output == a.proxy.output + op.output)
  }

  ghost predicate RowCause(a: Attempt, b: Attempt, id: string, n: int, op: Op)
    requires n in a.requests && n in a.events
  {
    && n in b.requests && n in b.events && a.requests[n].digest == b.requests[n].digest
    && StateCause(a, b, n) && ReservationCause(a, b, n, op) && EvidenceCause(a, b, id, n, op) && UsageCause(a, b, n, op)
  }

  /** Every change of a request row has its cause. */
  lemma RowChangeHasACause(l: Ledger, op: Op, id: string, n: int)
    requires LedgerOk(l) && id in l && n in l[id].requests
    ensures id in Step(l, op).0 && RowCause(l[id], Step(l, op).0[id], id, n, op)
  {
    assert AttemptOk(l[id]);
    MaxOrdinalOfPath(l[id].events[n]);
    if op.id != id {
      RefusalAndFrame(l, op, id);
    } else if op.OpRecover? {
      RecoveryCause(l, id, op.receipt, n);
    } else {
      CallCause(l, op, id, n);
    }
  }

  lemma SameRow(a: Attempt, b: Attempt, id: string, n: int, op: Op)
    requires n in a.requests && n in a.events && n in b.requests && n in b.events
    requires a.requests[n] == b.requests[n] && a.events[n] == b.events[n]
    ensures RowCause(a, b, id, n, op)
  {
  }

  /** A legal move with its event, nothing else of the row written. */
  lemma LoggedMove(a: Attempt, b: Attempt, id: string, n: int, op: Op, row: RequestRow, m: Metadata)
    requires n in a.requests && n in a.events && MaxOrdinal(a.events[n]) == |a.events[n]|
    requires LegalTransition(a.requests[n].state, row.state) && row == a.requests[n].(state := row.state, error := row.error)
    requires b.requests == Moved(a, n, row, m).requests && b.events == Moved(a, n, row, m).events
    ensures RowCause(a, b, id, n, op)
  {
  }

  lemma CallCause(l: Ledger, op: Op, id: string, n: int)
    requires id in l && AttemptOk(l[id]) && n in l[id].requests && n in l[id].events && !op.OpRecover? && op.id == id
    requires MaxOrdinal(l[id].events[n]) == |l[id].events[n]|
    ensures id in Step(l, op).0 && RowCause(l[id], Step(l, op).0[id], id, n, op)
  {
    hide RowCause, AttemptOk, Transition, FinalizeCompletion, ReserveBudget, RecordEvidence, PrepareCompletion, BeginRequest;
    match op
    case OpTransition(_, k, expected, next, err) => TransitionCause(l, id, n, op);
    case OpFinalize(_, k) => FinalizeCause(l, id, n, op);
    case OpReserve(_, _, _, _) => ReserveCause(l, id, n, op);
    case OpEvidence(_, _, _, _, _) => TransportCause(l, id, n, op);
    case OpPrepare(_, _, _, _, _) => PrepareCause(l, id, n, op);
    case OpBegin(_, _) => BeginCause(l, id, n, op);
    case OpRegister(_, _, _, _, _, _) => SameRow(l[id], Step(l, op).0[id], id, n, op);
    case OpActivate(_) => SameRow(l[id], Step(l, op).0[id], id, n, op);
    case OpBindProcess(_, _, _) => SameRow(l[id], Step(l, op).0[id], id, n, op);
    case OpHold(_, _) => SameRow(l[id], Step(l, op).0[id], id, n, op);
    case OpComplete(_) => SameRow(l[id], Step(l, op).0[id], id, n, op);
    case OpRecover(_, _) => assert false;
  }

  lemma TransitionCause(l: Ledger, id: string, n: int, op: Op)
    requires id in l && n in l[id].requests && n in l[id].events && op.OpTransition? && op.id == id
    requires MaxOrdinal(l[id].events[n]) == |l[id].events[n]|
    ensures var m := Transition(l, id, op.sequence, op.expected, op.next, op.error).0;
            id in m && RowCause(l[id], m[id], id, n, op)
  {
    hide RowCause;
    var m, r := Transition(l, id, op.sequence, op.expected, op.next, op.error).0, Transition(l, id, op.sequence, op.expected, op.next, op.error).1;
    if r.Err? || op.sequence != n {
      SameRow(l[id], m[id], id, n, op);
    } else {
      LoggedMove(l[id], m[id], id, n, op, l[id].requests[n].(state := op.next, error := op.error), OfError(op.error));
    }
  }

  lemma FinalizeCause(l: Ledger, id: string, n: int, op: Op)
    requires id in l && n in l[id].requests && n in l[id].events && op.OpFinalize? && op.id == id
    requires MaxOrdinal(l[id].events[n]) == |l[id].events[n]|
    ensures var m := FinalizeCompletion(l, id, op.sequence).0; id in m && RowCause(l[id], m[id], id, n, op)
  {
    hide RowCause;
    var m, row := FinalizeCompletion(l, id, op.sequence).0, l[id].requests[n];
    if FinalizeCompletion(l, id, op.sequence).1.Err? || op.sequence != n {
      SameRow(l[id], m[id], id, n, op);
    } else {
      LoggedMove(l[id], m[id], id, n, op, row.(state := Complete), OfCompletion(row.input, row.output, row.response));
    }
  }

  lemma ReserveCause(l: Ledger, id: string, n: int, op: Op)
    requires id in l && n in l[id].requests && n in l[id].events && op.OpReserve? && op.id == id
    ensures var m := ReserveBudget(l, id, op.sequence, op.estimated, op.reserved).0; id in m && RowCause(l[id], m[id], id, n, op)
  {
  }

  lemma TransportCause(l: Ledger, id: string, n: int, op: Op)
    requires id in l && AttemptOk(l[id]) && n in l[id].requests && n in l[id].events && op.OpEvidence? && op.id == id
    ensures var m := RecordEvidence(l, id, op.sequence, op.evidence, op.request, op.operation).0;
            id in m && RowCause(l[id], m[id], id, n, op)
  {
    assert RowOk(l[id].requests[n]);
    hide AttemptOk;
  }

  lemma PrepareCause(l: Ledger, id: string, n: int, op: Op)
    requires id in l && n in l[id].requests && n in l[id].events && op.OpPrepare? && op.id == id
    ensures var m := PrepareCompletion(l, id, op.sequence, op.response, op.input, op.output).0;
            id in m && RowCause(l[id], m[id], id, n, op)
  {
  }

  lemma BeginCause(l: Ledger, id: string, n: int, op: Op)
    requires id in l && n in l[id].requests && n in l[id].events && op.OpBegin? && op.id == id
    ensures var m := BeginRequest(l, id, op.digest).0; id in m && RowCause(l[id], m[id], id, n, op)
  {
    hide RowCause, HasActive;
    SameRow(l[id], BeginRequest(l, id, op.digest).0[id], id, n, op);
  }

  lemma RecoveryCause(l: Ledger, id: string, r: Receipt, n: int)
    requires id in l && AttemptOk(l[id]) && n in l[id].requests && n in l[id].events && MaxOrdinal(l[id].events[n]) == |l[id].events[n]|
    ensures id in Recover(l, id, r).0 && RowCause(l[id], Recover(l, id, r).0[id], id, n, OpRecover(id, r))
  {
    hide RowCause, LossMoves;
    var a, b, op := l[id], Recover(l, id, r).0[id], OpRecover(id, r);
    LossWalk(a, r, a.proxy.count);
    if ReceiptBound(l, id, r) && Active(a.requests[n].state) && !a.proxy.state.Closed? && !a.proxy.state.Hold? {
      assert HasActive(a);
      LossCause(a, b, id, r, n);
    } else {
      SameRow(a, b, id, n, op);
    }
  }

  /** Process loss moves the active row along a legal edge, and proves zero bytes only for CREATED. */
  lemma LossCause(a: Attempt, b: Attempt, id: string, r: Receipt, n: int)
    requires n in a.requests && n in a.events && RowOk(a.requests[n]) && Active(a.requests[n].state) && r.attempt == id
    requires MaxOrdinal(a.events[n]) == |a.events[n]|
    requires b.requests == LossMoved(a, r, n).requests && b.events == LossMoved(a, r, n).events
    ensures RowCause(a, b, id, n, OpRecover(id, r))
  {
  }

  // ---- Why a proxy changes ---------------------------------------------------------------

  /** The binding and the limits are fixed; each other column has its own writers. */
  ghost predicate ProxyCause(a: Attempt, b: Attempt, id: string, op: Op) {
    var p, q := a.proxy, b.proxy;
    && p.binding == q.binding && p.maxRequests == q.maxRequests
    && p.maxInput == q.maxInput && p.maxOutput == q.maxOutput && p.maxTotal == q.maxTotal
    && (p.process == q.process || (op.OpBindProcess? && p.process.None? && p.state.Running? && op.binding == p.binding && q.process == Some(op.process)))
    && (p.terminalEvidence == q.terminalEvidence
        || (op.OpRecover? && p.terminalEvidence.None? && q.state.Hold? && q.terminalEvidence == Some(op.receipt)
            && op.receipt.attempt == id && op.receipt.binding == p.binding && p.process == Some(op.receipt.process)))
    && (p.count == q.count || (op.OpBegin? && p.state.Running? && q.count == p.count + 1 <= p.maxRequests && !HasActive(a)))
    && (op.OpPrepare? || (p.input == q.input && p.output == q.output))
    && (p.state == q.state ==> p.holdCode == q.holdCode)
    && (p.state != q.state ==>
          || (op.OpActivate? && p.state.Ready? && q.state.Running? && q.holdCode == p.holdCode)
          || (op.OpHold? && (p.state.Ready? || p.state.Running?) && q.state.Hold? && q.holdCode == Some(op.code))
          || (op.OpTransition? && op.next.Ambiguous? && p.state.Running? && q.state.Hold? && q.holdCode == Some(AMBIGUOUS_HOLD))
          || (op.OpComplete? && p.state.Running? && q.state.Closed? && !Unresolved(a) && q.holdCode == p.holdCode)
          || (op.OpRecover? && q.state.Hold? && q.terminalEvidence == Some(op.receipt) && q.holdCode.Some?
              && op.receipt.attempt == id && op.receipt.binding == p.binding && p.process == Some(op.receipt.process)))
  }

  lemma ProxyChangeHasACause(l: Ledger, op: Op, id: string)
    requires ReceiptsHold(l) && id in l
    ensures id in Step(l, op).0 && ProxyCause(l[id], Step(l, op).0[id], id, op)
  {
    if op.id != id {
      RefusalAndFrame(l, op, id);
    } else if op.OpRecover? {
      RecoveryProxyCause(l, id, op.receipt);
    } else {
      CallProxyCause(l, id, op);
    }
  }

  lemma RecoveryProxyCause(l: Ledger, id: string, r: Receipt)
    requires ReceiptsHold(l) && id in l
    ensures id in Recover(l, id, r).0 && ProxyCause(l[id], Recover(l, id, r).0[id], id, OpRecover(id, r))
  {
    hide LossMoves;
  }

  lemma CallProxyCause(l: Ledger, id: string, op: Op)
    requires id in l && op.id == id && !op.OpRecover?
    ensures id in Step(l, op).0 && ProxyCause(l[id], Step(l, op).0[id], id, op)
  {
    hide WithinLimits, ValidResponseId;
    if op.OpReserve? || op.OpEvidence? || op.OpTransition? || op.OpPrepare? || op.OpFinalize? {
      RowCallProxyCause(l, id, op);
    }
  }

  lemma RowCallProxyCause(l: Ledger, id: string, op: Op)
    requires id in l && op.id == id && (op.OpReserve? || op.OpEvidence? || op.OpTransition? || op.OpPrepare? || op.OpFinalize?)
    ensures id in Step(l, op).0 && ProxyCause(l[id], Step(l, op).0[id], id, op)
  {
    hide Step;
    RowCallProxy(l, id, op);
  }

  /** A call on a row leaves the proxy alone, holds it over an ambiguity, or debits it. */
  lemma RowCallProxy(l: Ledger, id: string, op: Op)
    requires id in l && op.id == id && (op.OpReserve? || op.OpEvidence? || op.OpTransition? || op.OpPrepare? || op.OpFinalize?)
    ensures id in Step(l, op).0
    ensures var p, q := l[id].proxy, Step(l, op).0[id].proxy;
            || q == p
            || (op.OpTransition? && op.next.Ambiguous? && p.state.Running? && q == p.(state := Hold, holdCode := Some(AMBIGUOUS_HOLD)))
            || (op.OpPrepare? && q == p.(input := q.input, output := q.output))
  {
    hide WithinLimits, ValidResponseId;
  }

  /** A receipt is stored only on a held proxy. */
  ghost predicate ReceiptsHold(l: Ledger) {
    forall id :: id in l && l[id].proxy.terminalEvidence.Some? ==> l[id].proxy.state.Hold?
  }

  // ---- What no run rewrites --------------------------------------------------------------

  ghost predicate KeepsOnce<T>(x: Option<T>, y: Option<T>) {
    x.Some? ==> y == x
  }

  /** Once written, a digest, reservation, evidence, usage, process or receipt is never rewritten. */
  ghost predicate WrittenOnce(a: Attempt, b: Attempt) {
    && a.proxy.binding == b.proxy.binding && a.proxy.maxRequests == b.proxy.maxRequests
    && a.proxy.maxInput == b.proxy.maxInput && a.proxy.maxOutput == b.proxy.maxOutput && a.proxy.maxTotal == b.proxy.maxTotal
    && KeepsOnce(a.proxy.process, b.proxy.process) && KeepsOnce(a.proxy.terminalEvidence, b.proxy.terminalEvidence)
    && a.proxy.count <= b.proxy.count && a.proxy.input <= b.proxy.input && a.proxy.output <= b.proxy.output
    && forall n :: n in a.requests ==> RowWrittenOnce(a, b, n)
  }

  ghost predicate RowWrittenOnce(a: Attempt, b: Attempt, n: int)
    requires n in a.requests
  {
    n in b.requests &&
    var x, y := a.requests[n], b.requests[n];
    && x.digest == y.digest && KeepsOnce(x.estimated, y.estimated) && KeepsOnce(x.reserved, y.reserved)
    && KeepsOnce(x.evidence, y.evidence) && KeepsOnce(x.bytesSent, y.bytesSent)
    && KeepsOnce(x.input, y.input) && KeepsOnce(x.output, y.output) && KeepsOnce(x.response, y.response)
    && (x.prepared ==> y.prepared)
    && EventsOf(a, n) <= EventsOf(b, n)
  }

  lemma StepWritesOnce(l: Ledger, op: Op, id: string)
    requires LedgerOk(l) && ReceiptsHold(l) && id in l
    ensures id in Step(l, op).0 && WrittenOnce(l[id], Step(l, op).0[id])
  {
    hide Step, StateCause, LedgerOk, ProxyCause, WrittenOnce;
    ProxyChangeHasACause(l, op, id);
    var a, b := l[id], Step(l, op).0[id];
    forall n | n in a.requests ensures RowWrittenOnce(a, b, n) { RowWritesOnce(l, op, id, n); }
    CountersGrow(l, op, id);
    ProxyWritesOnce(a, b, id, op);
  }

  lemma RowWritesOnce(l: Ledger, op: Op, id: string, n: int)
    requires LedgerOk(l) && id in l && n in l[id].requests
    ensures id in Step(l, op).0 && RowWrittenOnce(l[id], Step(l, op).0[id], n)
  {
    hide Step;
    RowChangeHasACause(l, op, id, n);
    assert RowOk(l[id].requests[n]) && n in l[id].events;
  }

  lemma CountersGrow(l: Ledger, op: Op, id: string)
    requires id in l && id in Step(l, op).0 && ProxyCause(l[id], Step(l, op).0[id], id, op)
    ensures l[id].proxy.input <= Step(l, op).0[id].proxy.input && l[id].proxy.output <= Step(l, op).0[id].proxy.output
  {
    if op.OpPrepare? && op.id == id {
      DebitGrows(l, op);
    } else if op.id != id {
      RefusalAndFrame(l, op, id);
    } else {
      hide Step;
    }
  }

  lemma DebitGrows(l: Ledger, op: Op)
    requires op.OpPrepare? && op.id in l
    ensures var m := PrepareCompletion(l, op.id, op.sequence, op.response, op.input, op.output).0;
            op.id in m && l[op.id].proxy.input <= m[op.id].proxy.input && l[op.id].proxy.output <= m[op.id].proxy.output
  {
  }

  lemma ProxyWritesOnce(a: Attempt, b: Attempt, id: string, op: Op)
    requires ProxyCause(a, b, id, op) && a.proxy.input <= b.proxy.input && a.proxy.output <= b.proxy.output
    requires forall n :: n in a.requests ==> RowWrittenOnce(a, b, n)
    ensures WrittenOnce(a, b)
  {
  }

  lemma ReceiptsStayHeld(l: Ledger, op: Op)
    requires ReceiptsHold(l)
    ensures ReceiptsHold(Step(l, op).0)
  {
    hide Step;
    var m := Step(l, op).0;
    forall id | id in m && m[id].proxy.terminalEvidence.Some? ensures m[id].proxy.state.Hold? {
      if id in l { ProxyChangeHasACause(l, op, id); } else { NewProxyIsReady(l, op, id); }
    }
  }

  lemma NewProxyIsReady(l: Ledger, op: Op, id: string)
    requires id !in l && id in Step(l, op).0
    ensures op.OpRegister? && op.id == id && op.maxRequests > 0 && op.maxInput > 0 && op.maxOutput > 0 && op.maxTotal > 0
    ensures Step(l, op).0[id]
            == Attempt(ProxyRow(op.binding, None, Ready, op.maxRequests, 0, op.maxInput, 0, op.maxOutput, 0, op.maxTotal, None, None), map[], map[])
  {
    if op.id != id { RefusalAndFrame(l, op, id); }
  }

  lemma {:induction false} RunWritesOnce(l: Ledger, ops: seq<Op>, id: string)
    requires LedgerOk(l) && ReceiptsHold(l) && id in l
    ensures id in Run(l, ops) && WrittenOnce(l[id], Run(l, ops)[id])
    decreases |ops|
  {
    hide Step, LedgerOk, ReceiptsHold;
    if ops != [] {
      StepKeeps(l, ops[0]);
      ReceiptsStayHeld(l, ops[0]);
      StepWritesOnce(l, ops[0], id);
      RunWritesOnce(Step(l, ops[0]).0, ops[1..], id);
    }
  }

  lemma {:induction false} ReceiptsHeldAlong(l: Ledger, ops: seq<Op>)
    requires ReceiptsHold(l)
    ensures ReceiptsHold(Run(l, ops))
    decreases |ops|
  {
    hide Step, ReceiptsHold;
    if ops != [] {
      ReceiptsStayHeld(l, ops[0]);
      ReceiptsHeldAlong(Step(l, ops[0]).0, ops[1..]);
    }
  }

  /** Over every run, from every reachable ledger. */
  lemma NothingIsRewritten(before: seq<Op>, after: seq<Op>, id: string)
    requires id in Run(map[], before)
    ensures var l := Run(map[], before); id in Run(l, after) && WrittenOnce(l[id], Run(l, after)[id])
  {
    RunKeeps(map[], before);
    ReceiptsHeldAlong(map[], before);
    RunWritesOnce(Run(map[], before), after, id);
  }

  // ---- Response ids ----------------------------------------------------------------------

  /** Letters, digits, underscore and hyphen, by their codes. */
  predicate IdCode(k: int) {
    48 <= k <= 57 || 65 <= k <= 90 || 97 <= k <= 122 || k == 95 || k == 45
  }

  /** The ids the ledger ever records. */
  lemma ResponseIdIff(s: string)
    ensures ValidResponseId(s) <==>
            exists t: string :: s == "resp_" + t && 1 <= |t| <= 240 && forall i :: 0 <= i < |t| ==> IdCode(t[i] as int)
  {
    if ValidResponseId(s) {
      var t := s[5..];
      forall i | 0 <= i < |t| ensures IdCode(t[i] as int) { assert t[i] == s[i + 5]; }
      assert s == "resp_" + t;
    }
    if t: string :| s == "resp_" + t && 1 <= |t| <= 240 && forall i :: 0 <= i < |t| ==> IdCode(t[i] as int) {
      forall i | 5 <= i < |s| ensures IdCharacter(s[i]) { assert s[i] == t[i - 5]; }
      assert s[..5] == "resp_";
    }
  }
}
