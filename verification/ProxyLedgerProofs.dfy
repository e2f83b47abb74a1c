/** What every reachable ledger state satisfies, and what that makes of the individual calls. */
module ProxyLedgerProofs {
  import opened Prelude
  import opened ProxyLedgerSpec

  // ---- The invariant ---------------------------------------------------------------------

  /** A non-empty log with ordinals 1, 2, ... that walks legally from CREATED to `last`. */
  ghost predicate LegalPath(es: seq<Event>, last: RequestState) {
    && |es| > 0
    && es[0].from == None && es[0].to == Created
    && es[|es| - 1].to == last
    && forall k :: 0 <= k < |es| ==> LegalEntry(es, k)
  }

  ghost predicate LegalEntry(es: seq<Event>, k: nat)
    requires k < |es|
  {
    && es[k].ordinal == k + 1
    && (k > 0 ==> es[k].from == Some(es[k-1].to) && LegalTransition(es[k-1].to, es[k].to))
  }

  function SpentInput(a: Attempt, n: nat): int {
    if n == 0 then 0
    else SpentInput(a, n - 1) + (if n in a.requests && a.requests[n].prepared then Amount(a.requests[n].input) else 0)
  }

  function SpentOutput(a: Attempt, n: nat): int {
    if n == 0 then 0
    else SpentOutput(a, n - 1) + (if n in a.requests && a.requests[n].prepared then Amount(a.requests[n].output) else 0)
  }

  function Amount(x: Option<int>): int {
    if x.Some? then x.value else 0
  }

  ghost predicate RowOk(row: RequestRow) {
    && (row.estimated.Some? <==> row.reserved.Some?)
    && (row.estimated.Some? ==> row.estimated.value > 0 && row.reserved.value > 0)
    && (row.prepared ==>
          && row.estimated.Some? && row.input.Some? && row.output.Some? && row.response.Some?
          && 0 <= row.input.value <= row.estimated.value
          && 0 <= row.output.value <= row.reserved.value
          && (row.state.Streaming? || row.state.Complete? || row.state.Ambiguous? || row.state.Failed?))
    && (!row.prepared ==> row.input.None? && row.output.None? && row.response.None?)
    && (row.state.Complete? ==> row.prepared)
    && (row.bytesSent.Some? <==> row.evidence.Some?)
    && (row.state.Created? ==> row.evidence.None?)
    && (row.state.SafeNotSent? ==> row.bytesSent == Some(0))
  }

  /** Sequences are exactly 1..count, within the request limit. */
  ghost predicate RangeOk(a: Attempt) {
    && 0 <= a.proxy.count <= a.proxy.maxRequests
    && (forall i :: i in a.requests <==> 1 <= i <= a.proxy.count)
  }

  ghost predicate KeysOk(a: Attempt) {
    && RangeOk(a)
    && a.events.Keys == a.requests.Keys
    && (forall i :: i in a.requests ==> RowOk(a.requests[i]) && LegalPath(a.events[i], a.requests[i].state))
  }

  ghost predicate ActivityOk(a: Attempt) {
    && (forall i :: i in a.requests && Active(a.requests[i].state) ==> i == a.proxy.count)
    && (forall i :: i in a.requests && a.requests[i].state.Ambiguous? ==> a.proxy.state.Hold?)
    && (a.proxy.state.Closed? ==> !HasActive(a))
    && (a.proxy.state.Ready? ==> a.proxy.count == 0 && a.proxy.process.None?)
  }

  /** Counters are the debits of the prepared requests, and a live reservation still fits. */
  ghost predicate BudgetOk(a: Attempt)
    requires RangeOk(a)
  {
    && a.proxy.input == SpentInput(a, a.proxy.count)
    && a.proxy.output == SpentOutput(a, a.proxy.count)
    && WithinLimits(a.proxy, a.proxy.input, a.proxy.output)
    && (forall i :: i in a.requests ==> ReservationFits(a.proxy, a.requests[i]))
  }

  ghost predicate ReservationFits(p: ProxyRow, row: RequestRow) {
    Active(row.state) && row.estimated.Some? && row.reserved.Some? && !row.prepared ==>
      WithinLimits(p, p.input + row.estimated.value, p.output + row.reserved.value)
  }

  ghost predicate AttemptOk(a: Attempt) {
    KeysOk(a) && ActivityOk(a) && BudgetOk(a)
  }

  ghost predicate LedgerOk(l: Ledger) {
    forall id :: id in l ==> AttemptOk(l[id])
  }

  // ---- Support lemmas --------------------------------------------------------------------

  lemma {:induction false} MaxOrdinalOfPath(es: seq<Event>)
    requires forall k :: 0 <= k < |es| ==> LegalEntry(es, k)
    ensures MaxOrdinal(es) == |es|
  {
    if es != [] {
      var front := es[..|es|-1];
      forall k | 0 <= k < |front| ensures LegalEntry(front, k) { assert LegalEntry(es, k); }
      MaxOrdinalOfPath(front);
      assert LegalEntry(es, |es| - 1);
    }
  }

  lemma PathExtends(es: seq<Event>, last: RequestState, next: RequestState, m: Metadata)
    requires LegalPath(es, last) && LegalTransition(last, next)
    ensures LegalPath(Appended(es, Some(last), next, m), next)
  {
    MaxOrdinalOfPath(es);
    var fs := Appended(es, Some(last), next, m);
    forall k | 0 <= k < |fs| ensures LegalEntry(fs, k) {
      if k < |es| { assert LegalEntry(es, k); }
    }
  }

  /** Rows that agree on what was debited have the same totals. */
  lemma {:induction false} SpentAgrees(a: Attempt, b: Attempt, n: nat)
    requires forall i :: 1 <= i <= n ==> (i in a.requests <==> i in b.requests)
    requires forall i :: 1 <= i <= n && i in a.requests ==>
               a.requests[i].prepared == b.requests[i].prepared
               && a.requests[i].input == b.requests[i].input && a.requests[i].output == b.requests[i].output
    ensures SpentInput(a, n) == SpentInput(b, n) && SpentOutput(a, n) == SpentOutput(b, n)
  {
    if n > 0 {
      SpentAgrees(a, b, n - 1);
    }
  }

  // ---- Each operation keeps the invariant ------------------------------------------------

  /** Changing one request row (or adding the next one) together with its log. */
  lemma PutKeys(a: Attempt, b: Attempt, n: int)
    requires KeysOk(a) && 0 <= b.proxy.count <= b.proxy.maxRequests
    requires 1 <= n <= b.proxy.count && (n == a.proxy.count + 1 == b.proxy.count || n <= a.proxy.count == b.proxy.count)
    requires n in b.requests && b.requests == a.requests[n := b.requests[n]]
    requires n in b.events && b.events == a.events[n := b.events[n]]
    requires RowOk(b.requests[n]) && LegalPath(b.events[n], b.requests[n].state)
    ensures KeysOk(b)
  {
    forall i | i in b.requests
      ensures RowOk(b.requests[i]) && LegalPath(b.events[i], b.requests[i].state)
    {
      if i != n {
        assert b.requests[i] == a.requests[i] && b.events[i] == a.events[i];
      }
    }
  }

  lemma BeginKeeps(a: Attempt, digest: string)
    requires AttemptOk(a) && a.proxy.state.Running? && a.proxy.count < a.proxy.maxRequests && !HasActive(a)
    ensures AttemptOk(Begun(a, digest))
  {
    var b := Begun(a, digest);
    assert EventsOf(a, b.proxy.count) == [];
    PutKeys(a, b, b.proxy.count);
    BeginActivity(a, digest);
    BeginBudget(a, digest);
  }

  lemma BeginActivity(a: Attempt, digest: string)
    requires RangeOk(a) && ActivityOk(a) && a.proxy.state.Running? && !HasActive(a)
    ensures ActivityOk(Begun(a, digest))
  {
  }

  lemma BeginBudget(a: Attempt, digest: string)
    requires RangeOk(a) && BudgetOk(a) && !HasActive(a) && RangeOk(Begun(a, digest))
    ensures BudgetOk(Begun(a, digest))
  {
    SpentAgrees(a, Begun(a, digest), a.proxy.count);
  }

  /** A row edited without a state change, keeping the debit. */
  lemma EditKeeps(a: Attempt, n: int, row: RequestRow)
    requires AttemptOk(a) && n in a.requests && RowOk(row) && row.state == a.requests[n].state
    requires SameDebit(row, a.requests[n])
    requires ReservationFits(a.proxy, row)
    ensures AttemptOk(a.(requests := a.requests[n := row]))
  {
    var b := a.(requests := a.requests[n := row]);
    assert a.events == a.events[n := a.events[n]];
    PutKeys(a, b, n);
    RowActivity(a, b, n);
    RowBudget(a, b, n);
  }

  ghost predicate SameDebit(x: RequestRow, y: RequestRow) {
    x.prepared == y.prepared && x.input == y.input && x.output == y.output
  }

  /** One row changes without becoming active; the proxy may only move towards HOLD. */
  lemma RowActivity(a: Attempt, b: Attempt, n: int)
    requires RangeOk(a) && ActivityOk(a) && n in a.requests && n in b.requests
    requires b.requests == a.requests[n := b.requests[n]]
    requires Active(b.requests[n].state) ==> Active(a.requests[n].state)
    requires b.proxy.count == a.proxy.count && b.proxy.process == a.proxy.process
    requires b.proxy.state == a.proxy.state || b.proxy.state.Hold?
    requires b.requests[n].state.Ambiguous? ==> b.proxy.state.Hold?
    ensures ActivityOk(b)
  {
    if HasActive(b) {
      var i :| i in b.requests && Active(b.requests[i].state);
      assert i in a.requests && Active(a.requests[i].state);
    }
  }

  ghost predicate SameBudget(p: ProxyRow, q: ProxyRow) {
    && p.count == q.count && p.input == q.input && p.output == q.output
    && p.maxInput == q.maxInput && p.maxOutput == q.maxOutput && p.maxTotal == q.maxTotal
  }

  lemma RowBudget(a: Attempt, b: Attempt, n: int)
    requires RangeOk(a) && BudgetOk(a) && RangeOk(b) && n in a.requests && n in b.requests
    requires b.requests == a.requests[n := b.requests[n]]
    requires SameBudget(a.proxy, b.proxy)
    requires SameDebit(b.requests[n], a.requests[n])
    requires ReservationFits(a.proxy, b.requests[n])
    ensures BudgetOk(b)
  {
    SpentAgrees(a, b, a.proxy.count);
  }

  /** A legal move of one row, with the proxy held whenever the row becomes ambiguous. */
  lemma MoveKeeps(a: Attempt, n: int, row: RequestRow, m: Metadata, p: ProxyRow)
    requires AttemptOk(a) && n in a.requests && RowOk(row)
    requires LegalTransition(a.requests[n].state, row.state)
    requires SameDebit(row, a.requests[n])
    requires row.estimated == a.requests[n].estimated && row.reserved == a.requests[n].reserved
    requires SameBudget(a.proxy, p) && p.maxRequests == a.proxy.maxRequests && p.process == a.proxy.process
    requires p.state == a.proxy.state || p.state.Hold?
    requires row.state.Ambiguous? ==> p.state.Hold?
    ensures AttemptOk(Moved(a, n, row, m).(proxy := p))
  {
    var b := Moved(a, n, row, m).(proxy := p);
    PathExtends(a.events[n], a.requests[n].state, row.state, m);
    PutKeys(a, b, n);
    RowActivity(a, b, n);
    RowBudget(a, b, n);
  }

  lemma PrepareKeeps(a: Attempt, n: int, row: RequestRow, input: int, output: int)
    requires AttemptOk(a) && n in a.requests && a.requests[n].state.Streaming? && !a.requests[n].prepared
    requires RowOk(row) && row.state.Streaming? && row.prepared && row.input == Some(input) && row.output == Some(output)
    requires WithinLimits(a.proxy, a.proxy.input + input, a.proxy.output + output)
    ensures AttemptOk(a.(proxy := a.proxy.(input := a.proxy.input + input, output := a.proxy.output + output),
                         requests := a.requests[n := row]))
  {
    var b := a.(proxy := a.proxy.(input := a.proxy.input + input, output := a.proxy.output + output),
                requests := a.requests[n := row]);
    assert a.events == a.events[n := a.events[n]];
    PutKeys(a, b, n);
    RowActivity(a, b, n);
    PrepareBudget(a, b, n);
  }

  lemma PrepareBudget(a: Attempt, b: Attempt, n: int)
    requires RangeOk(a) && ActivityOk(a) && BudgetOk(a) && RangeOk(b)
    requires n in a.requests && a.requests[n].state.Streaming? && !a.requests[n].prepared
    requires n in b.requests && b.requests == a.requests[n := b.requests[n]]
    requires b.requests[n].prepared && b.requests[n].input.Some? && b.requests[n].output.Some?
    requires b.proxy == a.proxy.(input := a.proxy.input + b.requests[n].input.value, output := a.proxy.output + b.requests[n].output.value)
    requires WithinLimits(b.proxy, b.proxy.input, b.proxy.output)
    ensures BudgetOk(b)
  {
    assert n == a.proxy.count;
    SpentAgrees(a, b, n - 1);
  }

  lemma ProxyEditKeeps(a: Attempt, p: ProxyRow)
    requires AttemptOk(a)
    requires SameBudget(a.proxy, p) && p.maxRequests == a.proxy.maxRequests
    requires p.state.Hold? || (p.state.Running? && !a.proxy.state.Hold?) || (p.state.Closed? && a.proxy.state.Running? && !Unresolved(a))
    ensures AttemptOk(a.(proxy := p))
  {
    SpentAgrees(a, a.(proxy := p), a.proxy.count);
  }

  /** Until the last sequence the loss walk finds nothing active; there it moves the one active row. */
  lemma {:induction false} LossWalk(a: Attempt, r: Receipt, n: nat)
    requires RangeOk(a) && ActivityOk(a) && n <= a.proxy.count
    ensures n < a.proxy.count ==> LossMoves(a, r, n) == (a, [])
    ensures n == a.proxy.count && !HasActive(a) ==> LossMoves(a, r, n) == (a, [])
    ensures n == a.proxy.count && HasActive(a) ==>
              && n in a.requests && Active(a.requests[n].state)
              && LossMoves(a, r, n) == (LossMoved(a, r, n), [(n, LossState(a.requests[n].state))])
  {
    if n > 0 {
      LossWalk(a, r, n - 1);
      if n == a.proxy.count && HasActive(a) {
        assert n in a.requests && Active(a.requests[n].state);
        assert LossMoves(a, r, n).1 == [(n, LossState(a.requests[n].state))];
      }
    }
  }

  lemma LossKeeps(a: Attempt, r: Receipt, p: ProxyRow)
    requires AttemptOk(a) && p.state.Hold? && SameBudget(a.proxy, p)
    requires p.maxRequests == a.proxy.maxRequests && p.process == a.proxy.process
    ensures AttemptOk(LossMoves(a, r, a.proxy.count).0.(proxy := p))
    ensures !HasActive(LossMoves(a, r, a.proxy.count).0)
  {
    LossWalk(a, r, a.proxy.count);
    var n := a.proxy.count;
    if HasActive(a) {
      var row := a.requests[n];
      assert RowOk(LossRow(row, r, n));
      MoveKeeps(a, n, LossRow(row, r, n), OfRecovery(LossError(row.state), r, LossEvidence(row, r, n)), p);
    } else {
      ProxyEditKeeps(a, p);
    }
  }

  lemma PutKeeps(l: Ledger, id: string, a: Attempt)
    requires LedgerOk(l) && AttemptOk(a)
    ensures LedgerOk(l[id := a])
  {
  }

  lemma RegisterKeeps(l: Ledger, id: string, b: string, mr: int, mi: int, mo: int, mt: int)
    requires LedgerOk(l)
    ensures LedgerOk(Register(l, id, b, mr, mi, mo, mt).0)
  {
    if Register(l, id, b, mr, mi, mo, mt).1.Done? {
      PutKeeps(l, id, Register(l, id, b, mr, mi, mo, mt).0[id]);
    }
  }

  lemma ProxyOpKeeps(l: Ledger, id: string, p: ProxyRow)
    requires LedgerOk(l) && id in l
    requires SameBudget(l[id].proxy, p) && p.maxRequests == l[id].proxy.maxRequests
    requires p.state.Hold? || (p.state.Running? && !l[id].proxy.state.Hold?)
             || (p.state.Closed? && l[id].proxy.state.Running? && !Unresolved(l[id]))
    ensures LedgerOk(l[id := l[id].(proxy := p)])
  {
    ProxyEditKeeps(l[id], p);
    PutKeeps(l, id, l[id].(proxy := p));
  }

  lemma BeginRequestKeeps(l: Ledger, id: string, d: string)
    requires LedgerOk(l)
    ensures LedgerOk(BeginRequest(l, id, d).0)
  {
    if BeginRequest(l, id, d).1.Sequence? {
      BeginKeeps(l[id], d);
      PutKeeps(l, id, Begun(l[id], d));
    }
  }

  lemma RowEditKeeps(l: Ledger, id: string, n: int, row: RequestRow)
    requires LedgerOk(l) && id in l && n in l[id].requests && RowOk(row) && row.state == l[id].requests[n].state
    requires SameDebit(row, l[id].requests[n]) && ReservationFits(l[id].proxy, row)
    ensures LedgerOk(l[id := l[id].(requests := l[id].requests[n := row])])
  {
    EditKeeps(l[id], n, row);
    PutKeeps(l, id, l[id].(requests := l[id].requests[n := row]));
  }

  lemma ReserveKeeps(l: Ledger, id: string, n: int, e: int, r: int)
    requires LedgerOk(l)
    ensures LedgerOk(ReserveBudget(l, id, n, e, r).0)
  {
    if ReserveBudget(l, id, n, e, r).1.Done? {
      RowEditKeeps(l, id, n, l[id].requests[n].(estimated := Some(e), reserved := Some(r)));
    }
  }

  lemma EvidenceKeeps(l: Ledger, id: string, n: int, e: SendEvidence, q: string, o: string)
    requires LedgerOk(l)
    ensures LedgerOk(RecordEvidence(l, id, n, e, q, o).0)
  {
    if RecordEvidence(l, id, n, e, q, o).1.Done? {
      RowEditKeeps(l, id, n, l[id].requests[n].(bytesSent := Some(e.bytesSent), evidence := Some(OfTransport(e))));
    }
  }

  lemma TransitionKeeps(l: Ledger, id: string, n: int, ex: set<RequestState>, next: RequestState, err: Option<string>)
    requires LedgerOk(l)
    ensures LedgerOk(Transition(l, id, n, ex, next, err).0)
  {
    if Transition(l, id, n, ex, next, err).1.Done? {
      assert HasActive(l[id]);
      var row := l[id].requests[n].(state := next, error := err);
      MoveKeeps(l[id], n, row, OfError(err), HeldIfAmbiguous(l[id].proxy, next));
      PutKeeps(l, id, Moved(l[id], n, row, OfError(err)).(proxy := HeldIfAmbiguous(l[id].proxy, next)));
    }
  }

  lemma PrepareCompletionKeeps(l: Ledger, id: string, n: int, r: string, i: int, o: int)
    requires LedgerOk(l)
    ensures LedgerOk(PrepareCompletion(l, id, n, r, i, o).0)
  {
    if PrepareCompletion(l, id, n, r, i, o).1.Done? {
      PrepareKeeps(l[id], n, l[id].requests[n].(input := Some(i), output := Some(o), response := Some(r), prepared := true), i, o);
      PutKeeps(l, id, PrepareCompletion(l, id, n, r, i, o).0[id]);
    }
  }

  lemma FinalizeKeeps(l: Ledger, id: string, n: int)
    requires LedgerOk(l)
    ensures LedgerOk(FinalizeCompletion(l, id, n).0)
  {
    if FinalizeCompletion(l, id, n).1.Done? {
      var row := l[id].requests[n];
      MoveKeeps(l[id], n, row.(state := Complete), OfCompletion(row.input, row.output, row.response), l[id].proxy);
      PutKeeps(l, id, Moved(l[id], n, row.(state := Complete), OfCompletion(row.input, row.output, row.response)));
    }
  }

  lemma RecoverKeeps(l: Ledger, id: string, r: Receipt)
    requires LedgerOk(l)
    ensures LedgerOk(Recover(l, id, r).0)
  {
    if Recover(l, id, r).1.Recovery? && l[id].proxy.state.Hold? {
      ProxyOpKeeps(l, id, l[id].proxy.(terminalEvidence := Some(r)));
    } else if Recover(l, id, r).1.Recovery? && !l[id].proxy.state.Closed? {
      var p := Recover(l, id, r).0[id].proxy;
      LossKeeps(l[id], r, p);
      PutKeeps(l, id, LossMoves(l[id], r, l[id].proxy.count).0.(proxy := p));
    }
  }

  /** Every operation, accepted or refused, keeps the invariant. */
  lemma StepKeeps(l: Ledger, op: Op)
    requires LedgerOk(l)
    ensures LedgerOk(Step(l, op).0)
  {
    match op
    case OpRegister(id, b, mr, mi, mo, mt) => RegisterKeeps(l, id, b, mr, mi, mo, mt);
    case OpActivate(id) =>
      if Activate(l, id).1.Done? { ProxyOpKeeps(l, id, l[id].proxy.(state := Running)); }
    case OpBindProcess(id, b, p) =>
      if BindProcess(l, id, b, p).1.Done? { ProxyOpKeeps(l, id, l[id].proxy.(process := Some(p))); }
    case OpBegin(id, d) => BeginRequestKeeps(l, id, d);
    case OpReserve(id, n, e, r) => ReserveKeeps(l, id, n, e, r);
    case OpEvidence(id, n, e, q, o) => EvidenceKeeps(l, id, n, e, q, o);
    case OpTransition(id, n, ex, next, err) => TransitionKeeps(l, id, n, ex, next, err);
    case OpPrepare(id, n, r, i, o) => PrepareCompletionKeeps(l, id, n, r, i, o);
    case OpFinalize(id, n) => FinalizeKeeps(l, id, n);
    case OpHold(id, c) =>
      if HoldProxy(l, id, c).1.Done? { ProxyOpKeeps(l, id, l[id].proxy.(state := Hold, holdCode := Some(c))); }
    case OpComplete(id) =>
      if CompleteProxy(l, id).1.Done? { ProxyOpKeeps(l, id, l[id].proxy.(state := Closed)); }
    case OpRecover(id, r) => RecoverKeeps(l, id, r);
  }

  lemma {:induction false} RunAppends(l: Ledger, ops: seq<Op>, op: Op)
    ensures Run(l, ops + [op]) == Step(Run(l, ops), op).0
    decreases |ops|
  {
    hide Step;
    if ops == [] {
      var one := [op];
      assert ops + [op] == one && one[1..] == [];
      assert Run(l, one) == Run(Step(l, op).0, []);
    } else {
      assert (ops + [op])[1..] == ops[1..] + [op];
      RunAppends(Step(l, ops[0]).0, ops[1..], op);
    }
  }
}
