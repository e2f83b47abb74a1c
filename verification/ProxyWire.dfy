/** SAFE_NOT_SENT against the wire: the ledger next to a count of the bytes that really left. */
module ProxyWire {
  import opened Prelude
  import opened ProxyLedgerSpec
  import opened ProxyLedgerProofs
  import opened ProxyLedgerTheorems

  datatype World = World(ledger: Ledger, wire: map<(string, int), nat>)

  datatype WireStep =
    | Call(op: Op)
    | Send(id: string, sequence: int, bytes: nat)

  function Sent(w: World, id: string, n: int): nat {
    if (id, n) in w.wire then w.wire[(id, n)] else 0
  }

  /** The transport forwards only for a request that is durably past UPSTREAM_STARTED and has not
      been reported terminal with zero bytes; a zero-byte report is true when it is recorded. */
  predicate Honest(w: World, s: WireStep) {
    match s
    case Send(id, n, _) =>
      && id in w.ledger && n in w.ledger[id].requests
      && (w.ledger[id].requests[n].state.UpstreamStarted? || w.ledger[id].requests[n].state.Streaming?)
      && w.ledger[id].requests[n].bytesSent != Some(0)
    case Call(op) =>
      op.OpEvidence? && op.evidence.bytesSent == 0 ==> Sent(w, op.id, op.sequence) == 0
  }

  function After(w: World, s: WireStep): World {
    match s
    case Call(op) => w.(ledger := Step(w.ledger, op).0)
    case Send(id, n, k) => w.(wire := w.wire[(id, n) := Sent(w, id, n) + k])
  }

  predicate HonestRun(w: World, steps: seq<WireStep>)
    decreases |steps|
  {
    steps == [] || (Honest(w, steps[0]) && HonestRun(After(w, steps[0]), steps[1..]))
  }

  function WireRun(w: World, steps: seq<WireStep>): World
    decreases |steps|
  {
    if steps == [] then w else WireRun(After(w, steps[0]), steps[1..])
  }

  /** Nothing can have been sent for this request yet, or ever. */
  predicate Quiet(l: Ledger, id: string, n: int) {
    id !in l || n !in l[id].requests || l[id].requests[n].state.Created? || l[id].requests[n].bytesSent == Some(0)
  }

  ghost predicate WorldOk(w: World) {
    LedgerOk(w.ledger) && forall id, n :: Quiet(w.ledger, id, n) ==> Sent(w, id, n) == 0
  }

  /** A request is quiet after a call only if it was before, or a zero-byte report just said so. */
  lemma QuietOrigin(l: Ledger, op: Op, id: string, n: int)
    requires LedgerOk(l) && Quiet(Step(l, op).0, id, n)
    ensures Quiet(l, id, n) || (op.OpEvidence? && op.id == id && op.sequence == n && op.evidence.bytesSent == 0)
  {
    hide Step, LedgerOk;
    if !Quiet(l, id, n) {
      if op.id != id {
        RefusalAndFrame(l, op, id);
      } else if !(op.OpEvidence? && op.sequence == n && op.evidence.bytesSent == 0) {
        LoudStaysLoud(l, op, n);
      }
    }
  }

  /** A request that may have sent stays so, unless a zero-byte report says otherwise. */
  lemma LoudStaysLoud(l: Ledger, op: Op, n: int)
    requires LedgerOk(l) && op.id in l && n in l[op.id].requests && !Quiet(l, op.id, n)
    requires op.OpEvidence? && op.sequence == n ==> op.evidence.bytesSent != 0
    ensures !Quiet(Step(l, op).0, op.id, n)
  {
    var a := l[op.id];
    assert RangeOk(a) && AttemptOk(a);
    hide LedgerOk, AttemptOk;
    match op
    case OpRecover(_, r) =>
      if n in a.requests { RecoveredStaysLoud(l, op.id, r, n); }
    case OpTransition(_, _, _, _, _) =>
    case OpEvidence(_, _, _, _, _) =>
    case OpBegin(_, _) =>
    case _ => OtherStaysLoud(l, op, n);
  }

  lemma RecoveredStaysLoud(l: Ledger, id: string, r: Receipt, n: int)
    requires id in l && AttemptOk(l[id]) && n in l[id].requests && !Quiet(l, id, n)
    ensures !Quiet(Recover(l, id, r).0, id, n)
  {
    hide AttemptOk;
    LossRows(l[id], r, n);
  }

  lemma OtherStaysLoud(l: Ledger, op: Op, n: int)
    requires op.id in l && n in l[op.id].requests && !Quiet(l, op.id, n)
    requires !op.OpRecover? && !op.OpTransition? && !op.OpEvidence? && !op.OpBegin?
    ensures !Quiet(Step(l, op).0, op.id, n)
  {
  }

  lemma StepStaysOk(w: World, s: WireStep)
    requires WorldOk(w) && Honest(w, s)
    ensures WorldOk(After(w, s))
  {
    if s.Call? {
      StepKeeps(w.ledger, s.op);
      forall id, n | Quiet(After(w, s).ledger, id, n)
        ensures Sent(After(w, s), id, n) == 0
      {
        QuietOrigin(w.ledger, s.op, id, n);
      }
    }
  }

  lemma {:induction false} RunStaysOk(w: World, steps: seq<WireStep>)
    requires WorldOk(w) && HonestRun(w, steps)
    ensures WorldOk(WireRun(w, steps))
    decreases |steps|
  {
    if steps != [] {
      StepStaysOk(w, steps[0]);
      RunStaysOk(After(w, steps[0]), steps[1..]);
    }
  }

  /** In every honest run, a SAFE_NOT_SENT row records zero bytes with evidence, and zero bytes
      is what went out. */
  lemma SafeNotSentIsTruthful(steps: seq<WireStep>, id: string, n: int)
    requires HonestRun(World(map[], map[]), steps)
    requires var l := WireRun(World(map[], map[]), steps).ledger;
             id in l && n in l[id].requests && l[id].requests[n].state.SafeNotSent?
    ensures var w := WireRun(World(map[], map[]), steps);
            && w.ledger[id].requests[n].bytesSent == Some(0)
            && w.ledger[id].requests[n].evidence.Some?
            && Sent(w, id, n) == 0
  {
    RunStaysOk(World(map[], map[]), steps);
    var w := WireRun(World(map[], map[]), steps);
    assert RowOk(w.ledger[id].requests[n]);
    assert Quiet(w.ledger, id, n);
  }

  // ---- Runs that hold a proxy only when nothing is active --------------------------------

  /** The proxy is held only over a settled request. */
  predicate Orderly(w: World, s: WireStep) {
    s.Call? && s.op.OpHold? && s.op.id in w.ledger ==> !HasActive(w.ledger[s.op.id])
  }

  predicate OrderlyRun(w: World, steps: seq<WireStep>)
    decreases |steps|
  {
    steps == [] || (Orderly(w, steps[0]) && OrderlyRun(After(w, steps[0]), steps[1..]))
  }

  /** A held proxy has no active request. */
  predicate QuietHolds(l: Ledger) {
    forall id :: id in l && l[id].proxy.state.Hold? ==> !HasActive(l[id])
  }

  lemma QuietCallKeeps(l: Ledger, op: Op, id: string)
    requires LedgerOk(l) && id in Step(l, op).0
    requires id in l && l[id].proxy.state.Hold? ==> !HasActive(l[id])
    requires op.OpHold? && op.id in l ==> !HasActive(l[op.id])
    ensures Step(l, op).0[id].proxy.state.Hold? ==> !HasActive(Step(l, op).0[id])
  {
    hide LedgerOk, HasActive;
    if op.id != id {
      hide Step;
      RefusalAndFrame(l, op, id);
    } else if id !in l {
      FirstCallQuiet(l, op);
    } else if op.OpRecover? {
      hide Step;
      RecoverQuiet(l, op);
    } else if op.OpTransition? {
      hide Step;
      TransitionQuiet(l, op);
    } else if op.OpHold? {
      HoldQuiet(l, op);
    } else if l[id].proxy.state.Hold? {
      hide Step;
      HeldCallQuiet(l, op);
    } else {
      hide Step;
      NothingElseHolds(l, op);
    }
  }

  lemma FirstCallQuiet(l: Ledger, op: Op)
    requires op.id !in l && op.id in Step(l, op).0
    ensures !Step(l, op).0[op.id].proxy.state.Hold?
  {
  }

  lemma RecoverQuiet(l: Ledger, op: Op)
    requires LedgerOk(l) && op.OpRecover? && op.id in l && (l[op.id].proxy.state.Hold? ==> !HasActive(l[op.id]))
    ensures op.id in Step(l, op).0 && (Step(l, op).0[op.id].proxy.state.Hold? ==> !HasActive(Step(l, op).0[op.id]))
  {
    var a := l[op.id];
    assert AttemptOk(a);
    hide LedgerOk, AttemptOk;
    LossOutcome(a, op.receipt, Step(l, op).0[op.id].proxy);
  }

  lemma HoldQuiet(l: Ledger, op: Op)
    requires op.OpHold? && op.id in l && !HasActive(l[op.id])
    ensures op.id in Step(l, op).0 && !HasActive(Step(l, op).0[op.id])
  {
  }

  lemma NothingElseHolds(l: Ledger, op: Op)
    requires op.id in l && !l[op.id].proxy.state.Hold? && !op.OpTransition? && !op.OpRecover? && !op.OpHold?
    ensures op.id in Step(l, op).0 && !Step(l, op).0[op.id].proxy.state.Hold?
  {
  }

  lemma TransitionQuiet(l: Ledger, op: Op)
    requires LedgerOk(l) && op.OpTransition? && op.id in l && (l[op.id].proxy.state.Hold? ==> !HasActive(l[op.id]))
    ensures Step(l, op).0[op.id].proxy.state.Hold? ==> !HasActive(Step(l, op).0[op.id])
  {
    hide RowOk, LegalPath, BudgetOk;
    var a, b := l[op.id], Step(l, op).0[op.id];
    assert ActivityOk(a);
    if b != a {
      assert a.requests[op.sequence].state !in {Complete, SafeNotSent, Ambiguous, Failed};
      assert Active(a.requests[op.sequence].state);
    }
  }

  lemma HeldCallQuiet(l: Ledger, op: Op)
    requires op.id in l && l[op.id].proxy.state.Hold? && !HasActive(l[op.id]) && !op.OpTransition? && !op.OpRecover?
    ensures op.id in Step(l, op).0 && !HasActive(Step(l, op).0[op.id])
  {
  }

  lemma StepStaysQuiet(w: World, s: WireStep)
    requires LedgerOk(w.ledger) && QuietHolds(w.ledger) && Orderly(w, s)
    ensures LedgerOk(After(w, s).ledger) && QuietHolds(After(w, s).ledger)
  {
    if s.Call? {
      StepKeeps(w.ledger, s.op);
      forall id | id in After(w, s).ledger && After(w, s).ledger[id].proxy.state.Hold?
        ensures !HasActive(After(w, s).ledger[id])
      {
        QuietCallKeeps(w.ledger, s.op, id);
      }
    }
  }

  lemma {:induction false} HeldMeansSettled(w: World, steps: seq<WireStep>)
    requires LedgerOk(w.ledger) && QuietHolds(w.ledger) && OrderlyRun(w, steps)
    ensures LedgerOk(WireRun(w, steps).ledger) && QuietHolds(WireRun(w, steps).ledger)
    decreases |steps|
  {
    hide LedgerOk, QuietHolds, After, Orderly;
    if steps != [] {
      StepStaysQuiet(w, steps[0]);
      HeldMeansSettled(After(w, steps[0]), steps[1..]);
    }
  }

  /** Over every orderly run, cut after any step, an accepted recovery leaves no request active. */
  lemma RecoveryLeavesNothingActive(steps: seq<WireStep>, cut: nat, id: string, r: Receipt)
    requires OrderlyRun(World(map[], map[]), steps) && cut <= |steps|
    requires var l := WireRun(World(map[], map[]), steps[..cut]).ledger; Recover(l, id, r).1.Recovery?
    ensures var l := WireRun(World(map[], map[]), steps[..cut]).ledger;
            id in Recover(l, id, r).0 && !HasActive(Recover(l, id, r).0[id])
  {
    OrderlyPrefix(World(map[], map[]), steps, cut);
    HeldMeansSettled(World(map[], map[]), steps[..cut]);
    RecoveryClears(WireRun(World(map[], map[]), steps[..cut]).ledger, id, r);
  }

  lemma RecoveryClears(l: Ledger, id: string, r: Receipt)
    requires LedgerOk(l) && QuietHolds(l) && Recover(l, id, r).1.Recovery?
    ensures id in Recover(l, id, r).0 && !HasActive(Recover(l, id, r).0[id])
  {
    assert id in l && ActivityOk(l[id]);
    if l[id].proxy.state.Hold? || l[id].proxy.state.Closed? {
      assert Recover(l, id, r).0[id].requests == l[id].requests;
    } else {
      LossOutcome(l[id], r, Recover(l, id, r).0[id].proxy);
    }
  }

  lemma {:induction false} OrderlyPrefix(w: World, steps: seq<WireStep>, cut: nat)
    requires OrderlyRun(w, steps) && cut <= |steps|
    ensures OrderlyRun(w, steps[..cut])
    decreases |steps|
  {
    hide After, Orderly;
    if cut > 0 {
      OrderlyPrefix(After(w, steps[0]), steps[1..], cut - 1);
      assert steps[..cut][1..] == steps[1..][..cut - 1];
    }
  }

  // ---- What a log contains ---------------------------------------------------------------

  /** The ledger calls of a log, in order. */
  function Calls(steps: seq<WireStep>): seq<Op> {
    if steps == [] then []
    else
      var last := steps[|steps|-1];
      Calls(steps[..|steps|-1]) + (if last.Call? then [last.op] else [])
  }

  function Sends(steps: seq<WireStep>): nat {
    if steps == [] then 0
    else
      var last := steps[|steps|-1];
      Sends(steps[..|steps|-1]) + (if last.Send? then 1 else 0)
  }

  lemma CallsOfAppend(steps: seq<WireStep>, s: WireStep)
    ensures Calls(steps + [s]) == Calls(steps) + (if s.Call? then [s.op] else [])
    ensures Sends(steps + [s]) == Sends(steps) + (if s.Send? then 1 else 0)
  {
    assert (steps + [s])[..|steps|] == steps;
  }

  lemma {:induction false} CallsJoin(xs: seq<WireStep>, ys: seq<WireStep>)
    ensures Calls(xs + ys) == Calls(xs) + Calls(ys)
    decreases |ys|
  {
    if ys == [] {
      assert xs + ys == xs;
    } else {
      var front, last := ys[..|ys|-1], ys[|ys|-1];
      CallsJoin(xs, front);
      assert xs + ys == (xs + front) + [last];
      CallsOfAppend(xs + front, last);
    }
  }

  // ---- One more step ---------------------------------------------------------------------

  /** A log of calls and sends that led from `w` to the ledger `l`; with an honest transport the
      wire agrees with it too. */
  ghost predicate Logged(honest: bool, w: World, steps: seq<WireStep>, l: Ledger) {
    && OrderlyRun(w, steps) && WireRun(w, steps).ledger == l
    && (honest ==> HonestRun(w, steps) && WorldOk(WireRun(w, steps)))
  }

  lemma {:induction false} RunOneMore(w: World, steps: seq<WireStep>, s: WireStep)
    ensures WireRun(w, steps + [s]) == After(WireRun(w, steps), s)
    ensures OrderlyRun(w, steps + [s]) <==> OrderlyRun(w, steps) && Orderly(WireRun(w, steps), s)
    ensures HonestRun(w, steps + [s]) <==> HonestRun(w, steps) && Honest(WireRun(w, steps), s)
    decreases |steps|
  {
    hide After, Orderly, Honest;
    if steps == [] {
      var one := [s];
      assert steps + [s] == one && one[1..] == [];
      assert WireRun(w, one) == WireRun(After(w, s), []);
    } else {
      assert (steps + [s])[1..] == steps[1..] + [s];
      RunOneMore(After(w, steps[0]), steps[1..], s);
    }
  }

  lemma LogStep(honest: bool, w: World, steps: seq<WireStep>, l: Ledger, s: WireStep)
    requires Logged(honest, w, steps, l) && Orderly(WireRun(w, steps), s)
    requires honest ==> Honest(WireRun(w, steps), s)
    ensures Logged(honest, w, steps + [s], After(WireRun(w, steps), s).ledger)
    ensures WireRun(w, steps + [s]) == After(WireRun(w, steps), s)
  {
    hide WorldOk, Honest, Orderly, After;
    RunOneMore(w, steps, s);
    if honest { StepStaysOk(WireRun(w, steps), s); }
  }

  /** A ledger call leaves the wire alone. */
  lemma LogCall(honest: bool, w: World, steps: seq<WireStep>, l: Ledger, op: Op)
    requires Logged(honest, w, steps, l)
    requires op.OpHold? && op.id in l ==> !HasActive(l[op.id])
    requires honest && op.OpEvidence? && op.evidence.bytesSent == 0 ==> Sent(WireRun(w, steps), op.id, op.sequence) == 0
    ensures Logged(honest, w, steps + [Call(op)], Step(l, op).0)
    ensures WireRun(w, steps + [Call(op)]).wire == WireRun(w, steps).wire
    ensures Calls(steps + [Call(op)]) == Calls(steps) + [op] && Sends(steps + [Call(op)]) == Sends(steps)
  {
    hide Step, HasActive, HonestRun, OrderlyRun, WorldOk, Calls, Sends;
    CallsOfAppend(steps, Call(op));
    LogStep(honest, w, steps, l, Call(op));
  }

  /** Bytes leave for a started row. */
  lemma LogSend(honest: bool, w: World, steps: seq<WireStep>, l: Ledger, id: string, n: int, k: nat)
    requires Logged(honest, w, steps, l)
    requires id in l && n in l[id].requests && l[id].requests[n].state.UpstreamStarted? && l[id].requests[n].bytesSent.None?
    ensures Logged(honest, w, steps + [Send(id, n, k)], l)
    ensures Sent(WireRun(w, steps + [Send(id, n, k)]), id, n) == Sent(WireRun(w, steps), id, n) + k
    ensures Calls(steps + [Send(id, n, k)]) == Calls(steps) && Sends(steps + [Send(id, n, k)]) == Sends(steps) + 1
  {
    hide HonestRun, OrderlyRun, WorldOk, Calls, Sends;
    CallsOfAppend(steps, Send(id, n, k));
    LogStep(honest, w, steps, l, Send(id, n, k));
  }

  /** A row that has just been created has sent nothing. */
  lemma CreatedIsSilent(honest: bool, w: World, steps: seq<WireStep>, l: Ledger, id: string, n: int)
    requires Logged(honest, w, steps, l) && id in l && n in l[id].requests && l[id].requests[n].state.Created?
    ensures honest ==> Sent(WireRun(w, steps), id, n) == 0
  {
    hide HonestRun, OrderlyRun, LedgerOk;
    if honest { assert Quiet(WireRun(w, steps).ledger, id, n); }
  }

  lemma LogNothing(honest: bool, w: World)
    requires honest ==> WorldOk(w)
    ensures Logged(honest, w, [], w.ledger) && Calls([]) == [] && Sends([]) == 0
  {
  }

  /** Logs of consecutive runs join. */
  lemma {:induction false} LogsJoin(honest: bool, w: World, xs: seq<WireStep>, l: Ledger, ys: seq<WireStep>, m: Ledger)
    requires Logged(honest, w, xs, l) && Logged(honest, WireRun(w, xs), ys, m)
    ensures Logged(honest, w, xs + ys, m) && WireRun(w, xs + ys) == WireRun(WireRun(w, xs), ys)
    ensures Calls(xs + ys) == Calls(xs) + Calls(ys)
  {
    RunsJoin(w, xs, ys);
    CallsJoin(xs, ys);
  }

  lemma {:induction false} RunsJoin(w: World, xs: seq<WireStep>, ys: seq<WireStep>)
    ensures WireRun(w, xs + ys) == WireRun(WireRun(w, xs), ys)
    ensures OrderlyRun(w, xs + ys) <==> OrderlyRun(w, xs) && OrderlyRun(WireRun(w, xs), ys)
    ensures HonestRun(w, xs + ys) <==> HonestRun(w, xs) && HonestRun(WireRun(w, xs), ys)
    decreases |xs|
  {
    hide After, Orderly, Honest;
    if xs == [] {
      assert xs + ys == ys;
    } else {
      assert (xs + ys)[1..] == xs[1..] + ys;
      RunsJoin(After(w, xs[0]), xs[1..], ys);
    }
  }

  lemma LoggedEnds(honest: bool, w: World, steps: seq<WireStep>, l: Ledger)
    requires Logged(honest, w, steps, l)
    ensures WireRun(w, steps).ledger == l && (honest ==> WorldOk(WireRun(w, steps)))
  {
  }

  lemma LoggedWeakens(strong: bool, weak: bool, w: World, steps: seq<WireStep>, l: Ledger)
    requires Logged(strong, w, steps, l) && (weak ==> strong)
    ensures Logged(weak, w, steps, l)
  {
  }

  lemma {:induction false} HonestPrefix(w: World, steps: seq<WireStep>, cut: nat)
    requires HonestRun(w, steps) && cut <= |steps|
    ensures HonestRun(w, steps[..cut])
    decreases |steps|
  {
    hide After, Honest;
    if cut > 0 {
      HonestPrefix(After(w, steps[0]), steps[1..], cut - 1);
      assert steps[..cut][1..] == steps[1..][..cut - 1];
    }
  }
}
