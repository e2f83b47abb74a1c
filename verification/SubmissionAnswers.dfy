/** What the log says happened to a submission is what the manager answered. */
module SubmissionAnswers {
  import opened Prelude
  import opened SubmissionSpec
  import opened SubmissionProofs
  import opened SubmissionTheorems

  // ---- The invariant ---------------------------------------------------------------------

  /** A first disposition of a called intent that commits to an outcome is the manager's own answer. */
  ghost predicate AnswerKept(log: Log, s: Submit) {
    var first := Rows(log, FirstRows(s.key));
    first != [] ==>
      && (first[0].Abandoned? ==> s.result.NotSubmitted?)
      && (first[0].Submitted? ==> s.result == Receipt(first[0].receipt.manager))
  }

  /** Someone received exactly this receipt from the manager. */
  ghost predicate Answered(submits: seq<Submit>, r: ReceiptKey) {
    exists i :: 0 <= i < |submits| && submits[i].key == r.intent && submits[i].result == Receipt(r.manager)
  }

  ghost predicate AnswersOk(log: Log, submits: seq<Submit>) {
    && (forall i :: 0 <= i < |submits| ==> AnswerKept(log, submits[i]))
    && (forall i :: 0 <= i < |log| && log[i].Submitted? ==> Answered(submits, log[i].receipt))
    && (forall i, j :: 0 <= i < j < |submits| ==> submits[i].at <= submits[j].at)
  }

  /** A pending answer is the one the manager gave. */
  ghost predicate PendingOk(phase: Phase, submits: seq<Submit>) {
    phase.Scheduling? && phase.pass.current.Called? ==>
      exists i :: 0 <= i < |submits| && submits[i].key == phase.pass.current.key && submits[i].result == phase.pass.current.result
  }

  ghost predicate Truthful(w: World) {
    AnswersOk(w.store.events, w.submits) && PendingOk(w.phase, w.submits)
  }

  // ---- Appending to the log --------------------------------------------------------------

  /** `e` does not contradict what the manager answered. */
  ghost predicate Fits(submits: seq<Submit>, e: Event) {
    && (e.Abandoned? ==> forall i :: 0 <= i < |submits| && submits[i].key == e.key ==> submits[i].result.NotSubmitted?)
    && (e.Submitted? ==>
          && Answered(submits, e.receipt)
          && forall i :: 0 <= i < |submits| && submits[i].key == e.receipt.intent ==> submits[i].result == Receipt(e.receipt.manager))
  }

  lemma AnswerStays(log: Log, e: Event, submits: seq<Submit>, i: nat)
    requires i < |submits| && AnswerKept(log, submits[i]) && Fits(submits, e)
    ensures AnswerKept(log + [e], submits[i])
  {
    hide Rows;
    RowsOfAppend(log, e, FirstRows(submits[i].key));
    assert Matches(e, FirstRows(submits[i].key)) ==> Rows(log + [e], FirstRows(submits[i].key)) == Rows(log, FirstRows(submits[i].key)) + [e];
  }

  lemma AnswersStay(log: Log, e: Event, submits: seq<Submit>)
    requires AnswersOk(log, submits) && Fits(submits, e)
    ensures AnswersOk(log + [e], submits)
  {
    hide AnswerKept, Answered;
    forall i | 0 <= i < |submits| ensures AnswerKept(log + [e], submits[i]) { AnswerStays(log, e, submits, i); }
  }

  /** The log stays or gains one entry that fits. */
  ghost predicate GainsFitting(log: Log, after: Log, submits: seq<Submit>) {
    after == log || exists e :: Fits(submits, e) && after == log + [e]
  }

  lemma FittingStays(log: Log, after: Log, submits: seq<Submit>)
    requires AnswersOk(log, submits) && GainsFitting(log, after, submits)
    ensures AnswersOk(after, submits)
  {
    hide AnswersOk, Fits;
    if after != log {
      var e :| Fits(submits, e) && after == log + [e];
      AnswersStay(log, e, submits);
    }
  }

  // ---- What each transaction may append --------------------------------------------------

  predicate Quiet(e: Event) {
    !e.Abandoned? && !e.Submitted?
  }

  lemma QuietFits(submits: seq<Submit>, e: Event)
    requires Quiet(e)
    ensures Fits(submits, e)
  {
  }

  lemma AmbiguousGains(s: Store, k: IntentKey, now: int, submits: seq<Submit>)
    ensures GainsFitting(s.events, RecordAmbiguous(s, k, now).0.events, submits)
  {
    hide Rows, Fits;
    QuietFits(submits, Ambiguous(k, now));
  }

  lemma ResolveGains(s: Store, k: IntentKey, now: int, evidence: bool, recovered: Option<int>, submits: seq<Submit>)
    ensures GainsFitting(s.events, ResolveAmbiguous(s, k, now, evidence, recovered).0.events, submits)
  {
    hide Rows, Fits;
    QuietFits(submits, TerminalResolved(k));
    QuietFits(submits, Recovered(k));
  }

  lemma FinalizeGains(s: Store, r: ReceiptKey, now: int, seen: Observation, expire: bool, forced: bool, submits: seq<Submit>)
    ensures GainsFitting(s.events, Finalize(s, r, now, seen, expire, forced).0.events, submits)
  {
    hide Rows, Fits;
    QuietFits(submits, Accepted(r));
    QuietFits(submits, Rejected(r));
    QuietFits(submits, Expired(r));
  }

  lemma OrHoldGains(tx: (Store, Reply), log: Log, k: IntentKey, now: int, submits: seq<Submit>)
    requires GainsFitting(log, tx.0.events, submits) && (tx.1.Failed? ==> tx.0.events == log)
    ensures GainsFitting(log, OrHold(tx, k, now).events, submits)
  {
    hide GainsFitting, RecordAmbiguous;
    AmbiguousGains(tx.0, k, now, submits);
  }

  /** Revalidation abandons only an intent that was never called. */
  lemma RevalidateGains(s: Store, k: IntentKey, v: View, current: bool, now: int, submits: seq<Submit>)
    requires |Rows(s.events, IntentRows(k))| == 1 ==> SubmissionProofs.NotSubmitted(submits, k)
    ensures GainsFitting(s.events, Revalidate(s, k, v, current, now).0.events, submits)
  {
    hide Rows;
    if Revalidate(s, k, v, current, now).1.Done? {
      assert Fits(submits, Abandoned(k));
    }
  }

  /** The manager's answers for `k`, all of which are `result`. */
  ghost predicate Said(submits: seq<Submit>, k: IntentKey, result: CallResult) {
    && (exists i :: 0 <= i < |submits| && submits[i].key == k && submits[i].result == result)
    && forall i :: 0 <= i < |submits| && submits[i].key == k ==> submits[i].result == result
  }

  lemma AbandonGains(s: Store, k: IntentKey, now: int, progress: string, submits: seq<Submit>)
    requires Said(submits, k, CallResult.NotSubmitted)
    ensures GainsFitting(s.events, RecordAbandoned(s, k, now, progress).0.events, submits)
  {
    hide Rows, AbandonedRow;
    assert Fits(submits, Abandoned(k));
  }

  lemma SubmissionGains(s: Store, r: ReceiptKey, now: int, submits: seq<Submit>)
    requires Said(submits, r.intent, Receipt(r.manager))
    ensures GainsFitting(s.events, RecordSubmission(s, r, now).0.events, submits)
  {
    hide Rows;
    assert Fits(submits, Submitted(r, now));
  }

  // ---- The steps -------------------------------------------------------------------------

  lemma OnlyAnswer(lin: Lineages, log: Log, submits: seq<Submit>, k: IntentKey, result: CallResult)
    requires SubmitsOk(lin, log, submits)
    requires exists i :: 0 <= i < |submits| && submits[i].key == k && submits[i].result == result
    ensures Said(submits, k, result)
  {
    hide SubmitOk;
    var i :| 0 <= i < |submits| && submits[i].key == k && submits[i].result == result;
    forall j | 0 <= j < |submits| && submits[j].key == k ensures submits[j].result == result {
      assert i <= j && j <= i;
    }
  }

  /** A call adds the manager's answer for an intent that has no disposition yet. */
  lemma CallTruthful(lin: Lineages, w: World, result: CallResult)
    requires WorldOk(lin, w) && Truthful(w) && w.phase.Scheduling?
    ensures Truthful(PassStep(lin, w, CallSubmit(result)))
  {
    hide Rows, LogOk, LineagesOk, AllCovered, Lone;
    if w.phase.pass.current.Cleared? {
      var k, log := w.phase.pass.current.key, w.store.events;
      var m := w.submits + [Submit(k, |log|, result)];
      forall i | 0 <= i < |m| ensures AnswerKept(log, m[i]) {
        if i < |w.submits| { assert AnswerKept(log, w.submits[i]); }
      }
      forall i | 0 <= i < |log| && log[i].Submitted? ensures Answered(m, log[i].receipt) {
        var j :| 0 <= j < |w.submits| && w.submits[j].key == log[i].receipt.intent && w.submits[j].result == Receipt(log[i].receipt.manager);
        assert m[j] == w.submits[j];
      }
      forall i | 0 <= i < |w.submits| ensures w.submits[i].at <= |log| { assert SubmitOk(lin, log, w.submits[i]); }
      assert m[|w.submits|].key == k && m[|w.submits|].result == result;
    }
  }

  lemma BindTruthful(lin: Lineages, w: World, now: int, progress: string)
    requires WorldOk(lin, w) && Truthful(w) && w.phase.Scheduling?
    ensures Truthful(PassStep(lin, w, Bind(now, progress)))
  {
    hide Rows, LogOk, LineagesOk, PhaseOk, SubmitsOk, AnswersOk, GainsFitting, RecordAbandoned, RecordAmbiguous, RecordSubmission, OrHold;
    if w.phase.pass.current.Called? {
      var k, log := w.phase.pass.current.key, w.store.events;
      OnlyAnswer(lin, log, w.submits, k, w.phase.pass.current.result);
      BindGains(w.store, k, w.phase.pass.current.result, now, progress, w.submits);
      FittingStays(log, PassStep(lin, w, Bind(now, progress)).store.events, w.submits);
    }
  }

  lemma BindGains(s: Store, k: IntentKey, result: CallResult, now: int, progress: string, submits: seq<Submit>)
    requires Said(submits, k, result)
    ensures result.NotSubmitted? ==> GainsFitting(s.events, OrHold(RecordAbandoned(s, k, now, progress), k, now).events, submits)
    ensures GainsFitting(s.events, OrHold(RecordAmbiguous(s, k, now), k, now).events, submits)
    ensures result.Receipt? ==> GainsFitting(s.events, OrHold(RecordSubmission(s, ReceiptKey(k, result.manager), now), k, now).events, submits)
  {
    hide Rows, Said, GainsFitting, RecordAbandoned, RecordAmbiguous, RecordSubmission, OrHold;
    AmbiguousGains(s, k, now, submits);
    AmbiguousFails(s, k, now);
    OrHoldGains(RecordAmbiguous(s, k, now), s.events, k, now, submits);
    match result
    case NotSubmitted =>
      AbandonGains(s, k, now, progress, submits);
      AbandonFails(s, k, now, progress);
      OrHoldGains(RecordAbandoned(s, k, now, progress), s.events, k, now, submits);
    case Unclear =>
    case Receipt(m) =>
      SubmissionGains(s, ReceiptKey(k, m), now, submits);
      SubmissionFails(s, ReceiptKey(k, m), now);
      OrHoldGains(RecordSubmission(s, ReceiptKey(k, m), now), s.events, k, now, submits);
  }

  lemma RevalidatedTruthful(lin: Lineages, w: World, v: View, current: bool, now: int)
    requires WorldOk(lin, w) && Truthful(w) && w.phase.Scheduling?
    ensures Truthful(PassStep(lin, w, Revalidated(v, current, now)))
  {
    hide Rows, LogOk, LineagesOk, SubmitsOk, AnswersOk, GainsFitting, Revalidate, OrHold, AllCovered, Lone;
    if w.phase.pass.current.Recorded? {
      var k := w.phase.pass.current.key;
      var tx := Revalidate(w.store, k, v, current, now);
      RevalidateGains(w.store, k, v, current, now, w.submits);
      RevalidateFails(w.store, k, v, current, now);
      OrHoldGains(tx, w.store.events, k, now, w.submits);
      FittingStays(w.store.events, OrHold(tx, k, now).events, w.submits);
    }
  }

  lemma RecordTruthful(lin: Lineages, w: World, k: IntentKey, v: View)
    requires Truthful(w) && w.phase.Scheduling?
    ensures Truthful(PassStep(lin, w, Record(k, v)))
  {
    hide AnswersOk, RecordIntent;
    RecordIntentAppends(w.store, k, v);
    AnswersAppend(w.store.events, Intent(k), w.submits);
  }

  lemma AnswersAppend(log: Log, e: Event, submits: seq<Submit>)
    requires AnswersOk(log, submits) && Quiet(e)
    ensures AnswersOk(log + [e], submits)
  {
    QuietFits(submits, e);
    AnswersStay(log, e, submits);
  }

  lemma PassTruthful(lin: Lineages, w: World, step: Step)
    requires WorldOk(lin, w) && Truthful(w) && w.phase.Scheduling?
    ensures Truthful(PassStep(lin, w, step))
  {
    match step
    case Record(k, view) => RecordTruthful(lin, w, k, view);
    case Revalidated(view, current, now) => RevalidatedTruthful(lin, w, view, current, now);
    case CallSubmit(result) => CallTruthful(lin, w, result);
    case Bind(now, progress) => BindTruthful(lin, w, now, progress);
    case FinalizeCurrent(now, seen, forced) =>
      hide Rows, WorldOk, AnswersOk, GainsFitting, Finalize;
      if w.phase.pass.current.Waiting? {
        FinalizeGains(w.store, w.phase.pass.current.receipt, now, seen, false, forced, w.submits);
        FittingStays(w.store.events, Finalize(w.store, w.phase.pass.current.receipt, now, seen, false, forced).0.events, w.submits);
      }
    case Schedule(t, launch) => hide WorldOk, AnswersOk;
    case _ => hide WorldOk, AnswersOk;
  }

  lemma NextTruthful(lin: Lineages, w: World, step: Step)
    requires WorldOk(lin, w) && Truthful(w)
    ensures Truthful(Next(lin, w, step))
  {
    hide Rows, WorldOk, AnswersOk, GainsFitting, PassStep, RecordAmbiguous, ResolveAmbiguous, Finalize;
    match step
    case ReconcileUnbound(k, now) =>
      AmbiguousGains(w.store, k, now, w.submits);
      FittingStays(w.store.events, RecordAmbiguous(w.store, k, now).0.events, w.submits);
    case ReconcileAmbiguous(k, now, evidence, recovered) =>
      ResolveGains(w.store, k, now, evidence, recovered, w.submits);
      FittingStays(w.store.events, ResolveAmbiguous(w.store, k, now, evidence, recovered).0.events, w.submits);
    case ReconcilePending(r, now, seen, expire) =>
      FinalizeGains(w.store, r, now, seen, expire, false, w.submits);
      FittingStays(w.store.events, Finalize(w.store, r, now, seen, expire, false).0.events, w.submits);
    case Crash =>
    case OutsideWrite(_) =>
    case StartPass =>
    case Snapshot(_) =>
    case _ =>
      if w.phase.Scheduling? { PassTruthful(lin, w, step); }
  }

  /** One step keeps the protocol and the answers. */
  lemma StepKeeps(lin: Lineages, w: World, step: Step)
    requires WorldOk(lin, w) && Truthful(w)
    ensures WorldOk(lin, Next(lin, w, step)) && Truthful(Next(lin, w, step))
  {
    hide WorldOk, Truthful, Next;
    NextKeeps(lin, w, step);
    NextTruthful(lin, w, step);
  }

  lemma {:induction false} RunTruthful(lin: Lineages, w: World, steps: seq<Step>)
    requires WorldOk(lin, w) && Truthful(w)
    ensures Truthful(Run(lin, w, steps))
    decreases |steps|
  {
    hide WorldOk, Truthful, Next;
    if steps != [] {
      StepKeeps(lin, w, steps[0]);
      RunTruthful(lin, Next(lin, w, steps[0]), steps[1..]);
    }
  }

  lemma ReachableTruthful(lin: Lineages, steps: seq<Step>)
    ensures WorldOk(lin, Run(lin, START, steps)) && Truthful(Run(lin, START, steps))
  {
    Reachable(lin, steps);
    Reachable(lin, []);
    assert Truthful(START);
    RunTruthful(lin, START, steps);
  }

  // ---- The promises ----------------------------------------------------------------------

  /** Over every run: a called intent is ABANDONED only if the manager said it submitted nothing, bound
      to a receipt only if the manager gave that receipt, and left open or AMBIGUOUS otherwise. */
  lemma DispositionIsTheAnswer(lin: Lineages, steps: seq<Step>, n: nat)
    requires n < |Run(lin, START, steps).submits|
    ensures var w := Run(lin, START, steps);
            var s, first := w.submits[n], Rows(w.store.events, FirstRows(w.submits[n].key));
            && |first| <= 1
            && (first != [] && first[0].Abandoned? ==> s.result == CallResult.NotSubmitted)
            && (first != [] && first[0].Submitted? ==> s.result == Receipt(first[0].receipt.manager))
            && (s.result == Unclear ==> first == [] || first[0].Ambiguous?)
  {
    hide Rows, WorldOk;
    ReachableTruthful(lin, steps);
    OneDispositionEach(lin, steps, Run(lin, START, steps).submits[n].key);
    assert AnswerKept(Run(lin, START, steps).store.events, Run(lin, START, steps).submits[n]);
  }

  /** Every receipt in the log was the manager's answer to the call for its intent. */
  lemma ReceiptsAreGiven(lin: Lineages, steps: seq<Step>, i: nat)
    requires i < |Run(lin, START, steps).store.events| && Run(lin, START, steps).store.events[i].Submitted?
    ensures var w := Run(lin, START, steps); Answered(w.submits, w.store.events[i].receipt)
  {
    hide Rows, WorldOk;
    ReachableTruthful(lin, steps);
  }

  /** Only one of the two ways out of an ambiguity. */
  predicate Resolves(e: Event, k: IntentKey) {
    e == Recovered(k) || e == TerminalResolved(k)
  }

  /** After an unclear answer, no later call is made for its target or lineage until the ambiguity has
      been resolved. */
  lemma UnclearAnswerBlocks(lin: Lineages, steps: seq<Step>, i: nat, n: nat)
    requires i < n < |Run(lin, START, steps).submits|
    requires var submits := Run(lin, START, steps).submits;
             submits[i].result == Unclear && Contends(lin, submits[i].key, TargetOf(submits[n].key))
    ensures var w := Run(lin, START, steps);
            w.submits[n].at <= |w.store.events|
            && exists x :: 0 <= x < w.submits[n].at && Resolves(w.store.events[x], w.submits[i].key)
  {
    hide Rows;
    var w := Run(lin, START, steps);
    ReachableTruthful(lin, steps);
    var k, log := w.submits[i].key, w.store.events[..w.submits[n].at];
    assert SubmitOk(lin, w.store.events, w.submits[i]) && SubmitOk(lin, w.store.events, w.submits[n]);
    var early := w.store.events[..w.submits[i].at];
    assert log[..w.submits[i].at] == early;
    RowsOfPrefix(log, w.submits[i].at, IntentRows(k));
    var at := RowFound(log, IntentRows(k));
    assert IntentAt(log, at) && !Open(log, k);
    ClosedByResolution(w.store.events, w.submits[n].at, w.submits[i]);
    var x := RowFound(log, ClosingRows(k));
    RowsHold(log, x, ClosingRows(k));
  }

  /** A row found in the log is among the rows of the query. */
  lemma {:induction false} RowsHold(log: Log, x: nat, q: Query)
    requires x < |log| && Matches(log[x], q)
    ensures log[x] in Rows(log, q)
    decreases |log|
  {
    if x < |log| - 1 { RowsHold(log[..|log|-1], x, q); }
  }

  lemma {:induction false} PrefixRows(log: Log, n: nat, q: Query)
    requires n <= |log|
    ensures Rows(log[..n], q) <= Rows(log, q)
    decreases |log|
  {
    if n < |log| {
      var front := log[..|log|-1];
      assert front[..n] == log[..n];
      PrefixRows(front, n, q);
    } else {
      assert log[..n] == log;
    }
  }

  /** What closes an intent with an unclear answer can only be a resolution. */
  lemma ClosedByResolution(full: Log, n: nat, s: Submit)
    requires LogOk(full) && n <= |full| && AnswerKept(full, s) && s.result == Unclear
    ensures forall e :: e in Rows(full[..n], ClosingRows(s.key)) ==> Resolves(e, s.key)
  {
    hide Rows;
    var log := full[..n];
    PrefixOk(full, n);
    LivesAreSingle(log, s.key);
    PrefixRows(full, n, FirstRows(s.key));
  }
}
