/** Whole lives of a proxy: registered, started, and driven through any number of requests, with a
    process death possible after any ledger call. */
module ProxySession {
  import opened Prelude
  import opened ProxyLedgerSpec
  import opened ProxyLedgerProofs
  import opened ProxyHandlerSpec
  import opened ProxyOutcome
  import opened ProxyHandler
  import opened ProxyLedger
  import opened ProxyWire
  import Sse = SseSpec

  datatype Request = Request(raw: Bytes, outside: Outside)

  const NOTHING := World(map[], map[])

  ghost predicate AllTruthful(requests: seq<Request>) {
    forall i :: 0 <= i < |requests| ==> Truthful(requests[i].outside)
  }

  /** What holds of a log wherever it is cut: recovery, if accepted, leaves no request active, and a
      SAFE_NOT_SENT row means that nothing was sent. */
  ghost predicate SafeWhereverCut(honest: bool, log: seq<WireStep>) {
    forall cut: nat :: cut <= |log| ==> SafeAt(honest, WireRun(NOTHING, log[..cut]))
  }

  ghost predicate SafeAt(honest: bool, w: World) {
    && (forall id, r :: Recover(w.ledger, id, r).1.Recovery? ==>
          id in Recover(w.ledger, id, r).0 && !HasActive(Recover(w.ledger, id, r).0[id]))
    && (honest ==> forall id, n :: id in w.ledger && n in w.ledger[id].requests && w.ledger[id].requests[n].state.SafeNotSent? ==>
          Sent(w, id, n) == 0)
  }

  lemma LoggedIsSafe(honest: bool, log: seq<WireStep>, l: Ledger)
    requires Logged(honest, NOTHING, log, l)
    ensures SafeWhereverCut(honest, log)
  {
    forall cut: nat | cut <= |log| ensures SafeAt(honest, WireRun(NOTHING, log[..cut])) {
      var w := WireRun(NOTHING, log[..cut]);
      OrderlyPrefix(NOTHING, log, cut);
      HeldMeansSettled(NOTHING, log[..cut]);
      forall id, r | Recover(w.ledger, id, r).1.Recovery?
        ensures id in Recover(w.ledger, id, r).0 && !HasActive(Recover(w.ledger, id, r).0[id])
      {
        RecoveryClears(w.ledger, id, r);
      }
      if honest { TruthfulAt(log, cut); }
    }
  }

  lemma TruthfulAt(log: seq<WireStep>, cut: nat)
    requires HonestRun(NOTHING, log) && cut <= |log|
    ensures var w := WireRun(NOTHING, log[..cut]);
            forall id, n :: id in w.ledger && n in w.ledger[id].requests && w.ledger[id].requests[n].state.SafeNotSent? ==> Sent(w, id, n) == 0
  {
    HonestPrefix(NOTHING, log, cut);
    var w := WireRun(NOTHING, log[..cut]);
    forall id, n | id in w.ledger && n in w.ledger[id].requests && w.ledger[id].requests[n].state.SafeNotSent?
      ensures Sent(w, id, n) == 0
    {
      SafeNotSentIsTruthful(log[..cut], id, n);
    }
  }

  /** Serve requests one after another. */
  method Serve(proxy: AttemptBoundResponsesProxy, requests: seq<Request>, ghost w: World) returns (outcomes: seq<Outcome>, ghost log: seq<WireStep>)
    requires proxy.ledger.Valid() && w.ledger == proxy.ledger.attempts
    requires proxy.id in proxy.ledger.attempts ==> proxy.ledger.attempts[proxy.id].proxy.binding == proxy.binding
    modifies proxy, proxy.ledger
    ensures |outcomes| == |requests| && proxy.ledger.Valid() && proxy.ledger.history == old(proxy.ledger.history) + Calls(log)
    ensures Logged(AllTruthful(requests) && WorldOk(w), w, log, proxy.ledger.attempts)
  {
    hide Logged, WorldOk, WireRun, LedgerOk, Truthful, Calls, Sends;
    outcomes, log := [], [];
    ghost var honest := AllTruthful(requests) && WorldOk(w);
    LogNothing(honest, w);
    var i := 0;
    while i < |requests|
      invariant 0 <= i <= |requests| && |outcomes| == i && proxy.ledger.Valid()
      invariant proxy.id in proxy.ledger.attempts ==> proxy.ledger.attempts[proxy.id].proxy.binding == proxy.binding
      invariant Logged(honest, w, log, proxy.ledger.attempts) && proxy.ledger.history == old(proxy.ledger.history) + Calls(log)
    {
      ghost var here := WireRun(w, log);
      ghost var l := proxy.ledger.attempts;
      LoggedEnds(honest, w, log, l);
      var outcome := proxy.HandleRawRequest(requests[i].raw, requests[i].outside, here);
      LoggedWeakens(Truthful(requests[i].outside) && WorldOk(here), honest, here, proxy.steps, proxy.ledger.attempts);
      LogsJoin(honest, w, log, l, proxy.steps, proxy.ledger.attempts);
      outcomes, log := outcomes + [outcome], log + proxy.steps;
      i := i + 1;
    }
  }

  /** A proxy's whole life from an empty ledger.  Wherever the process dies, recovery leaves nothing
      active; and if the transport never lies about zero bytes, SAFE_NOT_SENT never does. */
  method Session(id: string, binding: string, process: string, limits: Limits, decode: Sse.Decoder, digest: Bytes -> string,
                 maxRequests: int, maxInput: int, maxOutput: int, maxTotal: int, requests: seq<Request>)
    returns (outcomes: seq<Outcome>, ledger: AttemptProxyLedger, ghost log: seq<WireStep>)
    ensures fresh(ledger) && ledger.Valid() && ledger.history == Calls(log) && ledger.attempts == WireRun(NOTHING, log).ledger
    ensures |outcomes| == |requests| && SafeWhereverCut(AllTruthful(requests), log)
  {
    hide Logged, WorldOk, WireRun, LedgerOk, Calls, SafeWhereverCut, AllTruthful, Register, Activate, BindProcess;
    ghost var honest := AllTruthful(requests);
    ledger := new AttemptProxyLedger();
    var proxy := new AttemptBoundResponsesProxy(id, binding, limits, decode, digest, ledger);
    NothingIsOk();
    LogNothing(honest, NOTHING);
    log := [];
    ghost var op1, op2, op3 := OpRegister(id, binding, maxRequests, maxInput, maxOutput, maxTotal), OpActivate(id), OpBindProcess(id, binding, process);
    LogCall(honest, NOTHING, log, ledger.attempts, op1);
    var _ := ledger.Register(id, binding, maxRequests, maxInput, maxOutput, maxTotal);
    log := log + [Call(op1)];
    LogCall(honest, NOTHING, log, ledger.attempts, op2);
    var _ := ledger.Activate(id);
    log := log + [Call(op2)];
    LogCall(honest, NOTHING, log, ledger.attempts, op3);
    var _ := ledger.BindProcess(id, binding, process);
    log := log + [Call(op3)];
    StartBinds(id, binding, process, maxRequests, maxInput, maxOutput, maxTotal);
    ghost var l, w := ledger.attempts, WireRun(NOTHING, log);
    LoggedEnds(honest, NOTHING, log, l);
    ghost var more;
    outcomes, more := Serve(proxy, requests, w);
    LoggedWeakens(honest && WorldOk(w), honest, w, more, ledger.attempts);
    LogsJoin(honest, NOTHING, log, l, more, ledger.attempts);
    log := log + more;
    LoggedEnds(honest, NOTHING, log, ledger.attempts);
    LoggedIsSafe(honest, log, ledger.attempts);
  }

  lemma StartBinds(id: string, binding: string, process: string, mr: int, mi: int, mo: int, mt: int)
    ensures var l := BindProcess(Activate(Register(map[], id, binding, mr, mi, mo, mt).0, id).0, id, binding, process).0;
            id in l ==> l[id].proxy.binding == binding
  {
  }

  lemma NothingIsOk()
    ensures WorldOk(NOTHING)
  {
  }
}
