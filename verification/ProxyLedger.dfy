/** The ledger object: its methods update the tables in place and are proved against the value
    model, call by call. */
module ProxyLedger {
  import opened Prelude
  import Spec = ProxyLedgerSpec
  import opened ProxyLedgerProofs

  class AttemptProxyLedger {
    var attempts: map<string, Spec.Attempt>
    /** Every call so far; the tables are what these calls make of an empty ledger. */
    ghost var history: seq<Spec.Op>

    ghost predicate Valid()
      reads this
    {
      LedgerOk(attempts) && attempts == Spec.Run(map[], history)
    }

    constructor ()
      ensures Valid() && attempts == map[] && history == []
    {
      attempts, history := map[], [];
    }

    /** The log of one more call. */
    lemma Logs(op: Spec.Op)
      requires Valid()
      ensures Spec.Run(map[], history + [op]) == Spec.Step(attempts, op).0
    {
      RunAppends(map[], history, op);
    }

    method Register(id: string, binding: string, maxRequests: int, maxInput: int, maxOutput: int, maxTotal: int)
      returns (r: Spec.Reply)
      requires Valid()
      modifies this
      ensures Valid() && history == old(history) + [Spec.OpRegister(id, binding, maxRequests, maxInput, maxOutput, maxTotal)]
      ensures (attempts, r) == Spec.Register(old(attempts), id, binding, maxRequests, maxInput, maxOutput, maxTotal)
    {
      hide Spec.Run, LedgerOk;
      Logs(Spec.OpRegister(id, binding, maxRequests, maxInput, maxOutput, maxTotal));
      history := history + [Spec.OpRegister(id, binding, maxRequests, maxInput, maxOutput, maxTotal)];
      RegisterKeeps(attempts, id, binding, maxRequests, maxInput, maxOutput, maxTotal);
      if id in attempts || maxRequests <= 0 || maxInput <= 0 || maxOutput <= 0 || maxTotal <= 0 {
        return Spec.Err(Spec.IntegrityError);
      }
      var proxy := Spec.ProxyRow(binding, None, Spec.Ready, maxRequests, 0, maxInput, 0, maxOutput, 0, maxTotal, None, None);
      attempts := attempts[id := Spec.Attempt(proxy, map[], map[])];
      r := Spec.Done;
    }

    method Activate(id: string) returns (r: Spec.Reply)
      requires Valid()
      modifies this
      ensures Valid() && history == old(history) + [Spec.OpActivate(id)]
      ensures (attempts, r) == Spec.Activate(old(attempts), id)
    {
      hide Spec.Run, LedgerOk;
      Logs(Spec.OpActivate(id));
      history := history + [Spec.OpActivate(id)];
      StepKeeps(attempts, Spec.OpActivate(id));
      if id !in attempts || attempts[id].proxy.state != Spec.Ready {
        return Spec.Err(Spec.ProxyError("BROKER_PROXY_ACTIVATION_CONFLICT"));
      }
      attempts := attempts[id := attempts[id].(proxy := attempts[id].proxy.(state := Spec.Running))];
      r := Spec.Done;
    }

    method BindProcess(id: string, binding: string, process: string) returns (r: Spec.Reply)
      requires Valid()
      modifies this
      ensures Valid() && history == old(history) + [Spec.OpBindProcess(id, binding, process)]
      ensures (attempts, r) == Spec.BindProcess(old(attempts), id, binding, process)
    {
      hide Spec.Run, LedgerOk;
      Logs(Spec.OpBindProcess(id, binding, process));
      history := history + [Spec.OpBindProcess(id, binding, process)];
      StepKeeps(attempts, Spec.OpBindProcess(id, binding, process));
      if id !in attempts || attempts[id].proxy.binding != binding || attempts[id].proxy.state != Spec.Running
         || attempts[id].proxy.process.Some? {
        return Spec.Err(Spec.ProxyError("BROKER_PROXY_PROCESS_BINDING_CONFLICT"));
      }
      attempts := attempts[id := attempts[id].(proxy := attempts[id].proxy.(process := Some(process)))];
      r := Spec.Done;
    }

    /** The scan for a row in one of the three active states. */
    method ScanActive(id: string) returns (found: bool)
      requires LedgerOk(attempts) && id in attempts
      ensures found <==> Spec.HasActive(attempts[id])
    {
      var a := attempts[id];
      var i := 1;
      while i <= a.proxy.count
        invariant 1 <= i <= a.proxy.count + 1
        invariant forall j :: 1 <= j < i ==> j in a.requests && !Spec.Active(a.requests[j].state)
      {
        if Spec.Active(a.requests[i].state) {
          return true;
        }
        i := i + 1;
      }
      found := false;
    }

    /** Append one event row with the next ordinal. */
    method AppendEvent(events: seq<Spec.Event>, from: Option<Spec.RequestState>, to: Spec.RequestState, m: Spec.Metadata)
      returns (appended: seq<Spec.Event>)
      ensures appended == Spec.Appended(events, from, to, m)
    {
      var maximum, i := 0, 0;
      while i < |events|
        invariant 0 <= i <= |events|
        invariant maximum == Spec.MaxOrdinal(events[..i])
      {
        assert events[..i+1][..i] == events[..i];
        if maximum < events[i].ordinal {
          maximum := events[i].ordinal;
        }
        i := i + 1;
      }
      assert events[..i] == events;
      appended := events + [Spec.Event(maximum + 1, from, to, m)];
    }

    method BeginRequest(id: string, digest: string) returns (r: Spec.Reply)
      requires Valid()
      modifies this
      ensures Valid() && history == old(history) + [Spec.OpBegin(id, digest)]
      ensures (attempts, r) == Spec.BeginRequest(old(attempts), id, digest)
    {
      hide Spec.Run;
      Logs(Spec.OpBegin(id, digest));
      history := history + [Spec.OpBegin(id, digest)];
      BeginRequestKeeps(attempts, id, digest);
      if id !in attempts || attempts[id].proxy.state != Spec.Running {
        return Spec.Err(Spec.ProxyHold("BROKER_PROXY_NOT_RUNNING"));
      }
      var a := attempts[id];
      if a.proxy.count >= a.proxy.maxRequests {
        return Spec.Err(Spec.PolicyError("BROKER_PROXY_REQUEST_LIMIT", 429));
      }
      var active := ScanActive(id);
      if active {
        return Spec.Err(Spec.PolicyError("BROKER_PROXY_CONCURRENCY_LIMIT", 429));
      }
      var n := a.proxy.count + 1;
      var row := Spec.RequestRow(digest, Spec.Created, None, None, None, None, None, None, None, false, None);
      var events := AppendEvent(Spec.EventsOf(a, n), None, Spec.Created, Spec.OfRequest(digest));
      attempts := attempts[id := Spec.Attempt(a.proxy.(count := n), a.requests[n := row], a.events[n := events])];
      r := Spec.Sequence(n);
    }

    method ReserveBudget(id: string, sequence: int, estimated: int, reserved: int) returns (r: Spec.Reply)
      requires Valid()
      modifies this
      ensures Valid() && history == old(history) + [Spec.OpReserve(id, sequence, estimated, reserved)]
      ensures (attempts, r) == Spec.ReserveBudget(old(attempts), id, sequence, estimated, reserved)
    {
      hide Spec.Run, LedgerOk;
      Logs(Spec.OpReserve(id, sequence, estimated, reserved));
      history := history + [Spec.OpReserve(id, sequence, estimated, reserved)];
      ReserveKeeps(attempts, id, sequence, estimated, reserved);
      if estimated <= 0 || reserved <= 0 {
        return Spec.Err(Spec.PolicyError("BROKER_PROXY_TOKEN_BUDGET_INVALID", 400));
      }
      if id !in attempts || attempts[id].proxy.state != Spec.Running || sequence !in attempts[id].requests
         || attempts[id].requests[sequence].state != Spec.Created {
        return Spec.Err(Spec.ProxyError("BROKER_PROXY_REQUEST_STATE_CONFLICT"));
      }
      var a, row := attempts[id], attempts[id].requests[sequence];
      if row.estimated.Some? || row.reserved.Some? {
        return Spec.Err(Spec.ProxyError("BROKER_PROXY_BUDGET_ALREADY_RESERVED"));
      }
      var input, output := a.proxy.input + estimated, a.proxy.output + reserved;
      if input > a.proxy.maxInput || output > a.proxy.maxOutput || input + output > a.proxy.maxTotal {
        return Spec.Err(Spec.PolicyError("BROKER_PROXY_TOKEN_LIMIT", 429));
      }
      row := row.(estimated := Some(estimated), reserved := Some(reserved));
      attempts := attempts[id := a.(requests := a.requests[sequence := row])];
      r := Spec.Done;
    }

    method RecordEvidence(id: string, sequence: int, e: Spec.SendEvidence, request: string, operation: string)
      returns (r: Spec.Reply)
      requires Valid()
      modifies this
      ensures Valid() && history == old(history) + [Spec.OpEvidence(id, sequence, e, request, operation)]
      ensures (attempts, r) == Spec.RecordEvidence(old(attempts), id, sequence, e, request, operation)
    {
      hide Spec.Run, LedgerOk;
      Logs(Spec.OpEvidence(id, sequence, e, request, operation));
      history := history + [Spec.OpEvidence(id, sequence, e, request, operation)];
      EvidenceKeeps(attempts, id, sequence, e, request, operation);
      if e.attempt != id || e.request != request || e.operation != operation {
        return Spec.Err(Spec.ProxyError("BROKER_PROXY_SEND_EVIDENCE_BINDING_INVALID"));
      }
      if id !in attempts || sequence !in attempts[id].requests {
        return Spec.Err(Spec.ProxyError("BROKER_PROXY_SEND_EVIDENCE_BINDING_INVALID"));
      }
      var a, row := attempts[id], attempts[id].requests[sequence];
      if row.state != Spec.UpstreamStarted || row.evidence.Some? || a.proxy.binding != e.binding {
        return Spec.Err(Spec.ProxyError("BROKER_PROXY_SEND_EVIDENCE_BINDING_INVALID"));
      }
      row := row.(bytesSent := Some(e.bytesSent), evidence := Some(Spec.OfTransport(e)));
      attempts := attempts[id := a.(requests := a.requests[sequence := row])];
      r := Spec.Done;
    }

    method TransitionRequest(id: string, sequence: int, expected: set<Spec.RequestState>, next: Spec.RequestState,
                             error: Option<string>) returns (r: Spec.Reply)
      requires Valid()
      modifies this
      ensures Valid() && history == old(history) + [Spec.OpTransition(id, sequence, expected, next, error)]
      ensures (attempts, r) == Spec.Transition(old(attempts), id, sequence, expected, next, error)
    {
      hide Spec.Run, LedgerOk;
      Logs(Spec.OpTransition(id, sequence, expected, next, error));
      history := history + [Spec.OpTransition(id, sequence, expected, next, error)];
      TransitionKeeps(attempts, id, sequence, expected, next, error);
      if next == Spec.Complete {
        return Spec.Err(Spec.ProxyError("BROKER_PROXY_REQUEST_TRANSITION_INVALID"));
      }
      if id !in attempts || sequence !in attempts[id].requests || attempts[id].requests[sequence].state !in expected {
        return Spec.Err(Spec.ProxyError("BROKER_PROXY_REQUEST_STATE_CONFLICT"));
      }
      var a, row := attempts[id], attempts[id].requests[sequence];
      if !Spec.LegalTransition(row.state, next) {
        return Spec.Err(Spec.ProxyError("BROKER_PROXY_REQUEST_TRANSITION_INVALID"));
      }
      if next == Spec.SafeNotSent && (row.bytesSent != Some(0) || row.evidence.None?) {
        return Spec.Err(Spec.ProxyError("BROKER_PROXY_SAFE_NOT_SENT_UNPROVEN"));
      }
      var events := AppendEvent(Spec.EventsOf(a, sequence), Some(row.state), next, Spec.OfError(error));
      a := a.(requests := a.requests[sequence := row.(state := next, error := error)],
              events := a.events[sequence := events]);
      if next == Spec.Ambiguous && a.proxy.state == Spec.Running {
        a := a.(proxy := a.proxy.(state := Spec.Hold, holdCode := Some(Spec.AMBIGUOUS_HOLD)));
      }
      attempts := attempts[id := a];
      r := Spec.Done;
    }

    method PrepareCompletion(id: string, sequence: int, response: string, input: int, output: int) returns (r: Spec.Reply)
      requires Valid()
      modifies this
      ensures Valid() && history == old(history) + [Spec.OpPrepare(id, sequence, response, input, output)]
      ensures (attempts, r) == Spec.PrepareCompletion(old(attempts), id, sequence, response, input, output)
    {
      hide Spec.Run, LedgerOk;
      Logs(Spec.OpPrepare(id, sequence, response, input, output));
      history := history + [Spec.OpPrepare(id, sequence, response, input, output)];
      PrepareCompletionKeeps(attempts, id, sequence, response, input, output);
      if !Spec.ValidResponseId(response) || input < 0 || output < 0 {
        return Spec.Err(Spec.ProxyError("BROKER_PROXY_COMPLETION_INVALID"));
      }
      if id !in attempts || attempts[id].proxy.state != Spec.Running || sequence !in attempts[id].requests
         || attempts[id].requests[sequence].state != Spec.Streaming || attempts[id].requests[sequence].prepared {
        return Spec.Err(Spec.ProxyError("BROKER_PROXY_REQUEST_STATE_CONFLICT"));
      }
      var a, row := attempts[id], attempts[id].requests[sequence];
      if row.estimated.None? || row.reserved.None? {
        return Spec.Err(Spec.TypeError);
      }
      var nextInput, nextOutput := a.proxy.input + input, a.proxy.output + output;
      if input > row.estimated.value || output > row.reserved.value || nextInput > a.proxy.maxInput
         || nextOutput > a.proxy.maxOutput || nextInput + nextOutput > a.proxy.maxTotal {
        return Spec.Err(Spec.ProxyHold(Spec.OVERRUN_HOLD));
      }
      row := row.(input := Some(input), output := Some(output), response := Some(response), prepared := true);
      a := a.(proxy := a.proxy.(input := nextInput, output := nextOutput), requests := a.requests[sequence := row]);
      attempts := attempts[id := a];
      r := Spec.Done;
    }

    method FinalizeCompletion(id: string, sequence: int) returns (r: Spec.Reply)
      requires Valid()
      modifies this
      ensures Valid() && history == old(history) + [Spec.OpFinalize(id, sequence)]
      ensures (attempts, r) == Spec.FinalizeCompletion(old(attempts), id, sequence)
    {
      hide Spec.Run, LedgerOk;
      Logs(Spec.OpFinalize(id, sequence));
      history := history + [Spec.OpFinalize(id, sequence)];
      FinalizeKeeps(attempts, id, sequence);
      if id !in attempts || sequence !in attempts[id].requests
         || attempts[id].requests[sequence].state != Spec.Streaming || !attempts[id].requests[sequence].prepared {
        return Spec.Err(Spec.ProxyError("BROKER_PROXY_REQUEST_STATE_CONFLICT"));
      }
      var a, row := attempts[id], attempts[id].requests[sequence];
      var events := AppendEvent(Spec.EventsOf(a, sequence), Some(Spec.Streaming), Spec.Complete,
                                Spec.OfCompletion(row.input, row.output, row.response));
      attempts := attempts[id := a.(requests := a.requests[sequence := row.(state := Spec.Complete)],
                                    events := a.events[sequence := events])];
      r := Spec.Done;
    }

    method HoldProxy(id: string, code: string) returns (r: Spec.Reply)
      requires Valid()
      modifies this
      ensures Valid() && history == old(history) + [Spec.OpHold(id, code)]
      ensures (attempts, r) == Spec.HoldProxy(old(attempts), id, code)
    {
      hide Spec.Run, LedgerOk;
      Logs(Spec.OpHold(id, code));
      history := history + [Spec.OpHold(id, code)];
      StepKeeps(attempts, Spec.OpHold(id, code));
      if id !in attempts || attempts[id].proxy.state !in {Spec.Ready, Spec.Running} {
        return Spec.Err(Spec.ProxyError("BROKER_PROXY_HOLD_CONFLICT"));
      }
      attempts := attempts[id := attempts[id].(proxy := attempts[id].proxy.(state := Spec.Hold, holdCode := Some(code)))];
      r := Spec.Done;
    }

    method CompleteProxy(id: string) returns (r: Spec.Reply)
      requires Valid()
      modifies this
      ensures Valid() && history == old(history) + [Spec.OpComplete(id)]
      ensures (attempts, r) == Spec.CompleteProxy(old(attempts), id)
    {
      hide Spec.Run;
      Logs(Spec.OpComplete(id));
      history := history + [Spec.OpComplete(id)];
      hide RowOk, LegalPath, BudgetOk;
      StepKeeps(attempts, Spec.OpComplete(id));
      if id !in attempts {
        return Spec.Err(Spec.ProxyError("BROKER_PROXY_COMPLETION_CONFLICT"));
      }
      var a, i := attempts[id], 1;
      while i <= a.proxy.count
        invariant 1 <= i <= a.proxy.count + 1
        invariant forall j :: 1 <= j < i ==> j in a.requests && !Spec.Active(a.requests[j].state) && !a.requests[j].state.Ambiguous?
      {
        if Spec.Active(a.requests[i].state) || a.requests[i].state == Spec.Ambiguous {
          return Spec.Err(Spec.ProxyHold("BROKER_PROXY_REQUEST_UNRESOLVED"));
        }
        i := i + 1;
      }
      if a.proxy.state != Spec.Running {
        return Spec.Err(Spec.ProxyError("BROKER_PROXY_COMPLETION_CONFLICT"));
      }
      attempts := attempts[id := a.(proxy := a.proxy.(state := Spec.Closed))];
      r := Spec.Done;
    }

    /** Hold a dead proxy, walking its active rows in sequence order. */
    method Recover(id: string, receipt: Spec.Receipt) returns (r: Spec.Reply)
      requires Valid()
      modifies this
      ensures Valid() && history == old(history) + [Spec.OpRecover(id, receipt)]
      ensures (attempts, r) == Spec.Recover(old(attempts), id, receipt)
    {
      hide Spec.Run;
      Logs(Spec.OpRecover(id, receipt));
      history := history + [Spec.OpRecover(id, receipt)];
      RecoverKeeps(attempts, id, receipt);
      if receipt.attempt != id {
        return Spec.Err(Spec.ProxyError("BROKER_PROXY_RECOVERY_RECEIPT_BINDING_INVALID"));
      }
      if id !in attempts {
        return Spec.Err(Spec.ProxyError("BROKER_PROXY_NOT_FOUND"));
      }
      var a := attempts[id];
      if a.proxy.binding != receipt.binding || a.proxy.process != Some(receipt.process) {
        return Spec.Err(Spec.ProxyError("BROKER_PROXY_RECOVERY_RECEIPT_BINDING_INVALID"));
      }
      if a.proxy.state in {Spec.Closed, Spec.Hold} {
        if a.proxy.state == Spec.Hold && a.proxy.terminalEvidence.None? {
          attempts := attempts[id := a.(proxy := a.proxy.(terminalEvidence := Some(receipt)))];
        } else if a.proxy.state == Spec.Hold && a.proxy.terminalEvidence != Some(receipt) {
          return Spec.Err(Spec.ProxyError("BROKER_PROXY_RECOVERY_RECEIPT_CONFLICT"));
        }
        return Spec.Recovery(a.proxy.state, a.proxy.holdCode, []);
      }
      var moved, ambiguous;
      a, moved, ambiguous := MoveLost(a, receipt);
      var code := if ambiguous then Spec.AMBIGUOUS_HOLD else "BROKER_PROXY_PROCESS_LOST";
      attempts := attempts[id := a.(proxy := a.proxy.(state := Spec.Hold, holdCode := Some(code), terminalEvidence := Some(receipt)))];
      r := Spec.Recovery(Spec.Hold, Some(code), moved);
    }

    method MoveLost(start: Spec.Attempt, receipt: Spec.Receipt)
      returns (a: Spec.Attempt, moved: seq<(int, Spec.RequestState)>, ambiguous: bool)
      requires start.proxy.count >= 0
      ensures (a, moved) == Spec.LossMoves(start, receipt, start.proxy.count)
      ensures ambiguous == Spec.AnyAmbiguous(moved) && a.proxy == start.proxy
    {
      a, moved, ambiguous := start, [], false;
      var i := 0;
      while i < start.proxy.count
        invariant 0 <= i <= start.proxy.count
        invariant (a, moved) == Spec.LossMoves(start, receipt, i)
        invariant ambiguous == Spec.AnyAmbiguous(moved) && a.proxy == start.proxy
      {
        i := i + 1;
        if i in a.requests && Spec.Active(a.requests[i].state) {
          var row := a.requests[i];
          var next := if row.state == Spec.Created then Spec.SafeNotSent else Spec.Ambiguous;
          var events := AppendEvent(Spec.EventsOf(a, i), Some(row.state), next,
                                    Spec.OfRecovery(Spec.LossError(row.state), receipt, Spec.LossEvidence(row, receipt, i)));
          a := a.(requests := a.requests[i := Spec.LossRow(row, receipt, i)], events := a.events[i := events]);
          AnyAmbiguousOfAppend(moved, (i, next));
          moved := moved + [(i, next)];
          ambiguous := ambiguous || next == Spec.Ambiguous;
        }
      }
    }

    lemma AnyAmbiguousOfAppend(moved: seq<(int, Spec.RequestState)>, x: (int, Spec.RequestState))
      ensures Spec.AnyAmbiguous(moved + [x]) <==> Spec.AnyAmbiguous(moved) || x.1.Ambiguous?
    {
      var all := moved + [x];
      if Spec.AnyAmbiguous(moved) {
        var k :| 0 <= k < |moved| && moved[k].1.Ambiguous?;
        assert all[k].1.Ambiguous?;
      }
      if x.1.Ambiguous? {
        assert all[|moved|].1.Ambiguous?;
      }
      if Spec.AnyAmbiguous(all) {
        var k :| 0 <= k < |all| && all[k].1.Ambiguous?;
        assert k < |moved| ==> moved[k].1.Ambiguous?;
      }
    }
  }
}
