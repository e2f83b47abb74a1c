/** The promises of the attempt proxy ledger, over every run of its operations. */
module ProxyLedgerTheorems {
  import opened Prelude
  import opened ProxyLedgerSpec
  import opened ProxyLedgerProofs

  // ---- Every reachable state -------------------------------------------------------------

  lemma {:induction false} RunKeeps(l: Ledger, ops: seq<Op>)
    requires LedgerOk(l)
    ensures LedgerOk(Run(l, ops))
    decreases |ops|
  {
    if ops != [] {
      StepKeeps(l, ops[0]);
      RunKeeps(Step(l, ops[0]).0, ops[1..]);
    }
  }

  function Rank(s: RequestState): nat {
    match s case Created => 0 case UpstreamStarted => 1 case Streaming => 2 case _ => 3
  }

  /** Legal moves climb, so a log is never longer than four entries. */
  lemma {:induction false} PathIsShort(es: seq<Event>, k: nat)
    requires k < |es| && es[0].to == Created && forall j :: 0 <= j < |es| ==> LegalEntry(es, j)
    ensures k <= Rank(es[k].to)
  {
    if k > 0 {
      PathIsShort(es, k - 1);
      assert LegalEntry(es, k);
    }
  }

  /** Request log soundness, in every reachable state. */
  lemma RequestLogSound(ops: seq<Op>, id: string)
    requires id in Run(map[], ops)
    ensures var a := Run(map[], ops)[id];
            && a.proxy.count <= a.proxy.maxRequests
            && (forall i :: i in a.requests <==> 1 <= i <= a.proxy.count)
            && (forall i, j :: i in a.requests && j in a.requests && Active(a.requests[i].state) && Active(a.requests[j].state) ==> i == j)
            && (forall i :: i in a.requests ==> i in a.events && LegalPath(a.events[i], a.requests[i].state) && |a.events[i]| <= 4)
            && (a.proxy.state.Closed? ==> !Unresolved(a))
            && (forall i :: i in a.requests && a.requests[i].state.Ambiguous? ==> a.proxy.state.Hold?)
  {
    RunKeeps(map[], ops);
    var a := Run(map[], ops)[id];
    forall i | i in a.requests
      ensures |a.events[i]| <= 4
    {
      PathIsShort(a.events[i], |a.events[i]| - 1);
    }
  }

  /** Budget conservation, in every reachable state. */
  lemma BudgetConserved(ops: seq<Op>, id: string)
    requires id in Run(map[], ops)
    ensures var a := Run(map[], ops)[id];
            && a.proxy.count >= 0
            && a.proxy.input == SpentInput(a, a.proxy.count)
            && a.proxy.output == SpentOutput(a, a.proxy.count)
            && 0 <= a.proxy.input <= a.proxy.maxInput
            && 0 <= a.proxy.output <= a.proxy.maxOutput
            && a.proxy.input + a.proxy.output <= a.proxy.maxTotal
            && forall i :: i in a.requests ==> ReservationFits(a.proxy, a.requests[i])
  {
    RunKeeps(map[], ops);
    SpentNonNegative(Run(map[], ops)[id], Run(map[], ops)[id].proxy.count);
  }

  lemma {:induction false} SpentNonNegative(a: Attempt, n: nat)
    requires forall i :: i in a.requests ==> RowOk(a.requests[i])
    ensures SpentInput(a, n) >= 0 && SpentOutput(a, n) >= 0
  {
    if n > 0 {
      SpentNonNegative(a, n - 1);
    }
  }

  /** A call that a STREAMING, unprepared request of a RUNNING proxy makes with well-formed usage. */
  predicate CompletionDue(l: Ledger, id: string, n: int, response: string, input: int, output: int) {
    && ValidResponseId(response) && input >= 0 && output >= 0
    && id in l && l[id].proxy.state.Running? && n in l[id].requests
    && l[id].requests[n].state.Streaming? && !l[id].requests[n].prepared
    && l[id].requests[n].estimated.Some? && l[id].requests[n].reserved.Some?
  }

  /** The three global checks of `prepare_completion` never decide: it reports an overrun exactly
      when the usage exceeds the request's own reservation, and otherwise debits. */
  lemma OverrunIsOwnReservation(ops: seq<Op>, id: string, n: int, response: string, input: int, output: int)
    requires CompletionDue(Run(map[], ops), id, n, response, input, output)
    ensures var l := Run(map[], ops);
            var row, reply := l[id].requests[n], PrepareCompletion(l, id, n, response, input, output).1;
            && (reply == Err(ProxyHold(OVERRUN_HOLD)) <==> input > row.estimated.value || output > row.reserved.value)
            && (reply == Done <==> input <= row.estimated.value && output <= row.reserved.value)
  {
    RunKeeps(map[], ops);
    var a := Run(map[], ops)[id];
    assert ReservationFits(a.proxy, a.requests[n]);
  }

  // ---- What never changes ----------------------------------------------------------------

  /** A refused call is rolled back, and no call touches another attempt. */
  lemma RefusalAndFrame(l: Ledger, op: Op, other: string)
    ensures Step(l, op).1.Err? ==> Step(l, op).0 == l
    ensures other != op.id && other in l ==> other in Step(l, op).0 && Step(l, op).0[other] == l[other]
    ensures other != op.id && other !in l ==> other !in Step(l, op).0
  {
  }

  ghost predicate Frozen(p: ProxyRow, q: ProxyRow) {
    && p.state == q.state && p.count == q.count && p.input == q.input && p.output == q.output
    && p.holdCode == q.holdCode && p.binding == q.binding && p.process == q.process
    && (p.terminalEvidence.Some? ==> q.terminalEvidence == p.terminalEvidence)
  }

  /** Once COMPLETE or HOLD, the proxy keeps its state, counters, hold code and first receipt. */
  lemma {:induction false} TerminalProxyFreezes(l: Ledger, ops: seq<Op>, id: string)
    requires id in l && (l[id].proxy.state.Closed? || l[id].proxy.state.Hold?)
    ensures id in Run(l, ops) && Frozen(l[id].proxy, Run(l, ops)[id].proxy)
    decreases |ops|
  {
    if ops != [] {
      StepFreezes(l, ops[0], id);
      TerminalProxyFreezes(Step(l, ops[0]).0, ops[1..], id);
    }
  }

  lemma StepFreezes(l: Ledger, op: Op, id: string)
    requires id in l && (l[id].proxy.state.Closed? || l[id].proxy.state.Hold?)
    ensures id in Step(l, op).0 && Frozen(l[id].proxy, Step(l, op).0[id].proxy)
  {
    if op.id != id {
      RefusalAndFrame(l, op, id);
    }
  }

  /** An ambiguous request ends admission for good. */
  lemma AmbiguityEndsAdmission(before: seq<Op>, id: string, n: int, after: seq<Op>, digest: string)
    requires id in Run(map[], before) && n in Run(map[], before)[id].requests
    requires Run(map[], before)[id].requests[n].state.Ambiguous?
    ensures Run(map[], before)[id].proxy.state.Hold?
    ensures BeginRequest(Run(Run(map[], before), after), id, digest).1 == Err(ProxyHold("BROKER_PROXY_NOT_RUNNING"))
  {
    RunKeeps(map[], before);
    TerminalProxyFreezes(Run(map[], before), after, id);
  }

  /** A terminal request row and its log are never edited again. */
  lemma {:induction false} TerminalRowFreezes(l: Ledger, ops: seq<Op>, id: string, n: int)
    requires LedgerOk(l) && id in l && n in l[id].requests && !Active(l[id].requests[n].state)
    ensures var m := Run(l, ops);
            id in m && n in m[id].requests && n in m[id].events
            && m[id].requests[n] == l[id].requests[n] && m[id].events[n] == l[id].events[n]
    decreases |ops|
  {
    if ops != [] {
      StepKeeps(l, ops[0]);
      RowFreezes(l, ops[0], id, n);
      TerminalRowFreezes(Step(l, ops[0]).0, ops[1..], id, n);
    }
  }

  lemma RowFreezes(l: Ledger, op: Op, id: string, n: int)
    requires LedgerOk(l) && id in l && n in l[id].requests && !Active(l[id].requests[n].state)
    ensures var m := Step(l, op).0;
            id in m && n in m[id].requests && n in m[id].events
            && m[id].requests[n] == l[id].requests[n] && m[id].events[n] == l[id].events[n]
  {
    if op.id != id {
      RefusalAndFrame(l, op, id);
    } else if op.OpRecover? {
      RecoveryFreezes(l, id, op.receipt, n);
    } else {
      CallFreezes(l, op, id, n);
    }
  }

  lemma CallFreezes(l: Ledger, op: Op, id: string, n: int)
    requires id in l && RangeOk(l[id]) && n in l[id].requests && n in l[id].events && !Active(l[id].requests[n].state)
    requires !op.OpRecover? && op.id == id
    ensures var m := Step(l, op).0;
            id in m && n in m[id].requests && n in m[id].events
            && m[id].requests[n] == l[id].requests[n] && m[id].events[n] == l[id].events[n]
  {
  }

  lemma RecoveryFreezes(l: Ledger, id: string, r: Receipt, n: int)
    requires LedgerOk(l) && id in l && n in l[id].requests && !Active(l[id].requests[n].state)
    ensures var m := Recover(l, id, r).0;
            id in m && n in m[id].requests && n in m[id].events
            && m[id].requests[n] == l[id].requests[n] && m[id].events[n] == l[id].events[n]
  {
    LossRows(l[id], r, n);
  }

  // ---- Recovery --------------------------------------------------------------------------

  predicate ReceiptBound(l: Ledger, id: string, r: Receipt) {
    r.attempt == id && id in l && l[id].proxy.binding == r.binding && l[id].proxy.process == Some(r.process)
  }

  /** What the loss walk does to each row. */
  lemma LossRows(a: Attempt, r: Receipt, i: int)
    requires AttemptOk(a) && i in a.requests
    ensures var b := LossMoves(a, r, a.proxy.count).0;
            && i in b.requests && i in b.events
            && b.requests[i] == (if Active(a.requests[i].state) then LossRow(a.requests[i], r, i) else a.requests[i])
            && (!Active(a.requests[i].state) ==> b.events[i] == a.events[i])
  {
    LossWalk(a, r, a.proxy.count);
  }

  /** Some request is past the point where upstream may have seen it. */
  ghost predicate MaybeForwarded(a: Attempt) {
    exists i :: i in a.requests && (a.requests[i].state.UpstreamStarted? || a.requests[i].state.Streaming?)
  }

  lemma LossCode(a: Attempt, r: Receipt)
    requires AttemptOk(a)
    ensures var moved := LossMoves(a, r, a.proxy.count).1;
            AnyAmbiguous(moved) <==> MaybeForwarded(a)
  {
    LossWalk(a, r, a.proxy.count);
    var moved := LossMoves(a, r, a.proxy.count).1;
    if HasActive(a) {
      assert moved[0] == (a.proxy.count, LossState(a.requests[a.proxy.count].state));
    }
  }

  /** Recovering a RUNNING proxy holds it and moves exactly its active request: CREATED to
      SAFE_NOT_SENT with zero bytes proven, anything later to AMBIGUOUS. */
  lemma RecoveryMovesTheActiveRequest(ops: seq<Op>, id: string, r: Receipt)
    requires ReceiptBound(Run(map[], ops), id, r) && Run(map[], ops)[id].proxy.state.Running?
    ensures var l := Run(map[], ops);
            Recover(l, id, r).1.Recovery? && RecoveredFrom(l[id], Recover(l, id, r).0[id], r)
  {
    RunKeeps(map[], ops);
    RunningRecovers(Run(map[], ops), id, r);
  }

  ghost predicate RecoveredFrom(a: Attempt, b: Attempt, r: Receipt) {
    && b.proxy.state.Hold? && b.proxy.terminalEvidence == Some(r) && !HasActive(b)
    && b.requests.Keys == a.requests.Keys
    && (forall i :: i in a.requests ==> RecoveredRow(a.requests[i], b.requests[i]))
    && (b.proxy.holdCode == Some(AMBIGUOUS_HOLD) <==> MaybeForwarded(a))
  }

  lemma RunningRecovers(l: Ledger, id: string, r: Receipt)
    requires LedgerOk(l) && ReceiptBound(l, id, r) && l[id].proxy.state.Running?
    ensures Recover(l, id, r).1.Recovery? && RecoveredFrom(l[id], Recover(l, id, r).0[id], r)
  {
    var a := l[id];
    assert AMBIGUOUS_HOLD[7] != "BROKER_PROXY_PROCESS_LOST"[7];
    LossCode(a, r);
    LossOutcome(a, r, Recover(l, id, r).0[id].proxy);
  }

  lemma LossOutcome(a: Attempt, r: Receipt, p: ProxyRow)
    requires AttemptOk(a)
    ensures var b := LossMoves(a, r, a.proxy.count).0.(proxy := p);
            && !HasActive(b) && b.requests.Keys == a.requests.Keys
            && (forall i :: i in a.requests ==> RecoveredRow(a.requests[i], b.requests[i]))
  {
    LossWalk(a, r, a.proxy.count);
    var b := LossMoves(a, r, a.proxy.count).0.(proxy := p);
    forall i | i in a.requests
      ensures i in b.requests && RecoveredRow(a.requests[i], b.requests[i])
    {
      LossRows(a, r, i);
    }
  }

  ghost predicate RecoveredRow(before: RequestRow, after: RequestRow) {
    match before.state
    case Created => after.state.SafeNotSent? && after.bytesSent == Some(0) && after.evidence.Some?
    case UpstreamStarted => after.state.Ambiguous?
    case Streaming => after.state.Ambiguous?
    case _ => after == before
  }

  /** Replaying the receipt that held the proxy changes nothing; any other receipt is refused. */
  lemma RecoveryReplay(l: Ledger, id: string, r: Receipt, other: Receipt)
    requires Recover(l, id, r).1.Recovery? && !l[id].proxy.state.Closed?
    ensures var m := Recover(l, id, r).0;
            && Recover(m, id, r).0 == m && Recover(m, id, r).1.Recovery? && Recover(m, id, r).1.moved == []
            && (other != r ==> Recover(m, id, other).1.Err? && Recover(m, id, other).0 == m)
  {
    LossMovesKeepsProxy(l[id], r, if l[id].proxy.count < 0 then 0 else l[id].proxy.count);
  }

  lemma {:induction false} LossMovesKeepsProxy(a: Attempt, r: Receipt, n: nat)
    ensures LossMoves(a, r, n).0.proxy == a.proxy
  {
    if n > 0 {
      LossMovesKeepsProxy(a, r, n - 1);
    }
  }

  /** An accepted recovery leaves an active request behind exactly when the proxy had been held
      while that request was active: on a held proxy only the receipt is stored. */
  lemma RecoveryLeavesActiveIff(ops: seq<Op>, id: string, r: Receipt)
    requires Recover(Run(map[], ops), id, r).1.Recovery?
    ensures var l := Run(map[], ops);
            HasActive(Recover(l, id, r).0[id]) <==> l[id].proxy.state.Hold? && HasActive(l[id])
  {
    RunKeeps(map[], ops);
    var l := Run(map[], ops);
    if l[id].proxy.state.Running? {
      RecoveryMovesTheActiveRequest(ops, id, r);
    } else if l[id].proxy.state.Hold? {
      assert Recover(l, id, r).0[id].requests == l[id].requests;
      assert HasActive(Recover(l, id, r).0[id]) == HasActive(l[id]);
    }
  }

  /** Such a state is reachable: hold the proxy under a CREATED request, then recover. */
  lemma RecoveryLeavesActiveExample()
    ensures var r := Receipt("a", "b", "p", "EXITED", "2026-01-01T00:00:00Z");
            var ops := [OpRegister("a", "b", 1, 1, 1, 2), OpActivate("a"), OpBindProcess("a", "b", "p"), OpBegin("a", "d"), OpHold("a", "c")];
            && Recover(Run(map[], ops), "a", r).1.Recovery?
            && HasActive(Recover(Run(map[], ops), "a", r).0["a"])
  {
    var l3 := HeldExampleStart();
    var o4, o5 := OpBegin("a", "d"), OpHold("a", "c");
    assert !HasActive(l3["a"]);
    var l4 := BeginRequest(l3, "a", "d").0;
    var l5 := HoldProxy(l4, "a", "c").0;
    assert [o4, o5][1..] == [o5];
    assert Run(l4, [o5]) == Run(l5, []);
    assert 1 in l5["a"].requests && l5["a"].requests[1].state.Created?;
    var r := Receipt("a", "b", "p", "EXITED", "2026-01-01T00:00:00Z");
    assert 1 in Recover(l5, "a", r).0["a"].requests && Active(Recover(l5, "a", r).0["a"].requests[1].state);
  }

  /** A registered, running proxy with a bound process, as the first three operations leave it. */
  lemma HeldExampleStart() returns (l: Ledger)
    ensures l == map["a" := Attempt(ProxyRow("b", Some("p"), Running, 1, 0, 1, 0, 1, 0, 2, None, None), map[], map[])]
    ensures Run(map[], [OpRegister("a", "b", 1, 1, 1, 2), OpActivate("a"), OpBindProcess("a", "b", "p"), OpBegin("a", "d"), OpHold("a", "c")])
            == Run(l, [OpBegin("a", "d"), OpHold("a", "c")])
  {
    var o1, o2, o3, o4, o5 := OpRegister("a", "b", 1, 1, 1, 2), OpActivate("a"), OpBindProcess("a", "b", "p"), OpBegin("a", "d"), OpHold("a", "c");
    assert [o1, o2, o3, o4, o5][1..] == [o2, o3, o4, o5];
    assert [o2, o3, o4, o5][1..] == [o3, o4, o5];
    assert [o3, o4, o5][1..] == [o4, o5];
    hide BeginRequest, HoldProxy;
    var l1 := Register(map[], "a", "b", 1, 1, 1, 2).0;
    var l2 := Activate(l1, "a").0;
    l := BindProcess(l2, "a", "b", "p").0;
  }
}
