/** Single flight over every run of the supervisor, with a crash allowed between any two steps. */
module SubmissionTheorems {
  import opened Prelude
  import opened SubmissionSpec
  import opened SubmissionProofs

  lemma {:induction false} RunKeeps(lin: Lineages, w: World, steps: seq<Step>)
    requires WorldOk(lin, w)
    ensures WorldOk(lin, Run(lin, w, steps))
    decreases |steps|
  {
    hide WorldOk, Next;
    if steps != [] {
      NextKeeps(lin, w, steps[0]);
      RunKeeps(lin, Next(lin, w, steps[0]), steps[1..]);
    }
  }

  lemma Reachable(lin: Lineages, steps: seq<Step>)
    ensures WorldOk(lin, Run(lin, START, steps))
  {
    assert WorldOk(lin, START);
    RunKeeps(lin, START, steps);
  }

  /** The external manager is called at most once per intent. */
  lemma SubmitAtMostOnce(lin: Lineages, steps: seq<Step>)
    ensures var submits := Run(lin, START, steps).submits;
            forall i, j :: 0 <= i < j < |submits| ==> submits[i].key != submits[j].key
  {
    Reachable(lin, steps);
  }

  /** Whenever the manager was called, its intent was durable and undisposed, and no other intent
      for the same target or lineage was unresolved. */
  lemma SingleFlight(lin: Lineages, steps: seq<Step>, n: nat, j: nat)
    requires n < |Run(lin, START, steps).submits|
    ensures var w := Run(lin, START, steps);
            var s := w.submits[n];
            && s.at <= |w.store.events|
            && var log := w.store.events[..s.at];
               && |Rows(log, IntentRows(s.key))| == 1 && Rows(log, FirstRows(s.key)) == []
               && (j < |log| && log[j].Intent? && log[j].key != s.key && Contends(lin, log[j].key, TargetOf(s.key))
                   ==> !Unresolved(log, log[j].key))
  {
    hide Rows, Open;
    Reachable(lin, steps);
    var w := Run(lin, START, steps);
    var s := w.submits[n];
    assert SubmitOk(lin, w.store.events, s);
    var log := w.store.events[..s.at];
    PrefixOk(w.store.events, s.at);
    if j < |log| && log[j].Intent? {
      assert IntentAt(log, j);
      OpenIsUnresolved(log, log[j].key);
    }
  }

  lemma {:induction false} PrefixOk(log: Log, n: nat)
    requires LogOk(log) && n <= |log|
    ensures LogOk(log[..n])
    decreases |log|
  {
    hide Allowed;
    if n < |log| {
      PrefixOk(log[..|log|-1], n);
      assert log[..|log|-1][..n] == log[..n];
    } else {
      assert log[..n] == log;
    }
  }

  /** An intent has at most one first disposition and at most one closing one, and they match:
      abandoned closes itself, submitted closes by its own receipt, ambiguous by a resolution. */
  lemma OneDispositionEach(lin: Lineages, steps: seq<Step>, k: IntentKey)
    ensures var log := Run(lin, START, steps).store.events;
            var first, closing := Rows(log, FirstRows(k)), Rows(log, ClosingRows(k));
            && |first| <= 1 && |closing| <= 1
            && (closing != [] ==> first != [] && ClosedBy(first[0], closing[0]))
            && (Unresolved(log, k) <==> closing == [])
  {
    hide Rows;
    Reachable(lin, steps);
    LivesAreSingle(Run(lin, START, steps).store.events, k);
    OpenIsUnresolved(Run(lin, START, steps).store.events, k);
  }

  lemma {:induction false} LogOnlyGrows(lin: Lineages, w: World, steps: seq<Step>)
    requires WorldOk(lin, w)
    ensures w.store.events <= Run(lin, w, steps).store.events && w.submits <= Run(lin, w, steps).submits
    ensures forall n :: |w.submits| <= n < |Run(lin, w, steps).submits| ==> |w.store.events| <= Run(lin, w, steps).submits[n].at
    decreases |steps|
  {
    hide WorldOk, Next;
    if steps != [] {
      NextKeeps(lin, w, steps[0]);
      StepGrows(lin, w, steps[0]);
      LogOnlyGrows(lin, Next(lin, w, steps[0]), steps[1..]);
    }
  }

  lemma StepGrows(lin: Lineages, w: World, step: Step)
    ensures w.store.events <= Next(lin, w, step).store.events && w.submits <= Next(lin, w, step).submits
    ensures forall n :: |w.submits| <= n < |Next(lin, w, step).submits| ==> |w.store.events| <= Next(lin, w, step).submits[n].at
  {
    hide Rows, RecordAmbiguous, RecordAbandoned, RecordSubmission, ResolveAmbiguous, Finalize, Revalidate, Scheduled;
    match step
    case ReconcileUnbound(k, now) => AmbiguousDisposes(w.store, k, now);
    case ReconcileAmbiguous(k, now, evidence, recovered) => ResolveDisposes(w.store, k, now, evidence, recovered);
    case ReconcilePending(r, now, seen, expire) => FinalizeDisposes(w.store, r, now, seen, expire, false);
    case Revalidated(v, current, now) =>
      if w.phase.Scheduling? && w.phase.pass.current.Recorded? {
        var k := w.phase.pass.current.key;
        RevalidateDisposes(w.store, k, v, current, now);
        RevalidateFails(w.store, k, v, current, now);
        OrHoldDisposes(Revalidate(w.store, k, v, current, now), w.store.events, k, now);
      }
    case Bind(now, progress) =>
      if w.phase.Scheduling? && w.phase.pass.current.Called? {
        BindGrows(w.store, w.phase.pass.current.key, w.phase.pass.current.result, now, progress);
      }
    case FinalizeCurrent(now, seen, forced) =>
      if w.phase.Scheduling? && w.phase.pass.current.Waiting? {
        FinalizeDisposes(w.store, w.phase.pass.current.receipt, now, seen, false, forced);
      }
    case _ =>
  }

  lemma BindGrows(s: Store, k: IntentKey, result: CallResult, now: int, progress: string)
    ensures s.events <= OrHold(RecordAbandoned(s, k, now, progress), k, now).events
    ensures s.events <= OrHold(RecordAmbiguous(s, k, now), k, now).events
    ensures result.Receipt? ==> s.events <= OrHold(RecordSubmission(s, ReceiptKey(k, result.manager), now), k, now).events
  {
    hide Rows, RecordAmbiguous, RecordAbandoned, RecordSubmission;
    AbandonDisposes(s, k, now, progress);
    AbandonFails(s, k, now, progress);
    OrHoldDisposes(RecordAbandoned(s, k, now, progress), s.events, k, now);
    AmbiguousDisposes(s, k, now);
    AmbiguousFails(s, k, now);
    OrHoldDisposes(RecordAmbiguous(s, k, now), s.events, k, now);
    if result.Receipt? {
      var r := ReceiptKey(k, result.manager);
      SubmissionDisposes(s, r, now);
      SubmissionFails(s, r, now);
      OrHoldDisposes(RecordSubmission(s, r, now), s.events, k, now);
    }
  }

  /** A crash after the call leaves an intent that only reconciliation can close, and while it is
      open no run calls the manager for its target or lineage again. */
  lemma OpenIntentBlocks(lin: Lineages, before: seq<Step>, after: seq<Step>, k: IntentKey, n: nat)
    requires Rows(Run(lin, START, before).store.events, IntentRows(k)) != []
    requires var w := Run(lin, START, before + after);
             |Run(lin, START, before).submits| <= n < |w.submits| && w.submits[n].key != k
             && Contends(lin, k, TargetOf(w.submits[n].key))
    ensures var w := Run(lin, START, before + after);
            w.submits[n].at <= |w.store.events| && Rows(w.store.events[..w.submits[n].at], ClosingRows(k)) != []
  {
    hide Rows;
    var w0, w := Run(lin, START, before), Run(lin, START, before + after);
    RunSplits(lin, START, before, after);
    Reachable(lin, before);
    LogOnlyGrows(lin, w0, after);
    SingleFlight(lin, before + after, n, 0);
    var log := w.store.events[..w.submits[n].at];
    var i := RowFound(w0.store.events, IntentRows(k));
    assert log[i] == Intent(k);
    SingleFlight(lin, before + after, n, i);
    Reachable(lin, before + after);
    PrefixOk(w.store.events, w.submits[n].at);
    OpenIsUnresolved(log, k);
  }

  lemma {:induction false} RunSplits(lin: Lineages, w: World, xs: seq<Step>, ys: seq<Step>)
    ensures Run(lin, w, xs + ys) == Run(lin, Run(lin, w, xs), ys)
    decreases |xs|
  {
    hide Next;
    if xs == [] {
      assert xs + ys == ys;
    } else {
      assert (xs + ys)[1..] == xs[1..] + ys;
      RunSplits(lin, Next(lin, w, xs[0]), xs[1..], ys);
    }
  }

  lemma {:induction false} RowFound(log: Log, q: Query) returns (i: nat)
    requires Rows(log, q) != []
    ensures i < |log| && Matches(log[i], q)
  {
    if Matches(log[|log|-1], q) {
      i := |log| - 1;
    } else {
      i := RowFound(log[..|log|-1], q);
    }
  }

  /** A transaction writes at most the row of its own intent, and only over the marker it expects. */
  lemma MarkersAreCompared(s: Store, r: ReceiptKey, v: View, current: bool, now: int, progress: string,
                           seen: Observation, expire: bool, forced: bool)
    ensures var k, rows := r.intent, s.rows;
            && OnlyRow(rows, RecordIntent(s, k, v).0.rows, k, None)
            && OnlyRow(rows, Revalidate(s, k, v, current, now).0.rows, k, Some(Submitting))
            && OnlyRow(rows, RecordAbandoned(s, k, now, progress).0.rows, k, Some(Submitting))
            && OnlyRow(rows, RecordAmbiguous(s, k, now).0.rows, k, Some(Submitting))
            && OnlyRow(rows, RecordSubmission(s, r, now).0.rows, k, Some(Submitting))
            && OnlyRow(rows, Finalize(s, r, now, seen, expire, forced).0.rows, k, Some(Pending))
  {
    hide Rows;
  }

  ghost predicate OnlyRow(before: map<(Kind, string), Row>, after: map<(Kind, string), Row>, k: IntentKey, marker: Option<Marker>) {
    after != before ==>
      && Where(k) in before && before[Where(k)].error == marker && before[Where(k)].process.None?
      && Where(k) in after && after == before[Where(k) := after[Where(k)]]
  }
}
