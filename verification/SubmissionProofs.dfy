/** Single flight across crashes: what every entry of the log needed when it was appended, and what
    the volatile sets of a pass guarantee when the manager is called. */
module SubmissionProofs {
  import opened Prelude
  import opened SubmissionSpec

  // ---- The log ---------------------------------------------------------------------------

  /** What must already be in the log for `e` to be appended. */
  ghost predicate Allowed(log: Log, e: Event) {
    match e
    case Intent(_) => true
    case Submitted(r, _) => |Rows(log, IntentRows(r.intent))| == 1 && Rows(log, FirstRows(r.intent)) == []
    case Abandoned(k) => |Rows(log, IntentRows(k))| == 1 && Rows(log, FirstRows(k)) == []
    case Ambiguous(k, _) => |Rows(log, IntentRows(k))| == 1 && Rows(log, FirstRows(k)) == []
    case Recovered(k) => ResolutionAllowed(log, k)
    case TerminalResolved(k) => ResolutionAllowed(log, k)
    case _ => |Rows(log, SubmittedRows(e.receipt))| == 1 && Rows(log, TerminalRows(e.receipt)) == []
  }

  ghost predicate ResolutionAllowed(log: Log, k: IntentKey) {
    |Rows(log, FirstRows(k))| == 1 && Rows(log, FirstRows(k))[0].Ambiguous? && Rows(log, ResolutionRows(k)) == []
  }

  ghost predicate LogOk(log: Log)
    decreases |log|
  {
    log == [] || (LogOk(log[..|log|-1]) && Allowed(log[..|log|-1], log[|log|-1]))
  }

  /** The log grows by one allowed entry, or not at all. */
  ghost predicate Grows(before: Log, after: Log) {
    after == before || (|after| == |before| + 1 && after[..|before|] == before && Allowed(before, after[|before|]))
  }

  lemma RowsOfAppend(log: Log, e: Event, q: Query)
    ensures Rows(log + [e], q) == Rows(log, q) + (if Matches(e, q) then [e] else [])
  {
    assert (log + [e])[..|log|] == log;
  }

  lemma GrowsByOne(log: Log, e: Event)
    requires Allowed(log, e)
    ensures Grows(log, log + [e])
  {
    assert (log + [e])[..|log|] == log;
  }

  lemma GrowsKeepsLog(before: Log, after: Log)
    requires LogOk(before) && Grows(before, after)
    ensures LogOk(after)
  {
    if after != before {
      assert after[..|after|-1] == before;
    }
  }

  /** Entries other than intents. */
  ghost predicate Disposes(before: Log, after: Log) {
    Grows(before, after) && (after != before ==> !after[|before|].Intent?)
  }

  lemma DisposesByOne(log: Log, e: Event)
    requires Allowed(log, e) && !e.Intent?
    ensures Disposes(log, log + [e])
  {
    GrowsByOne(log, e);
  }

  lemma RevalidateDisposes(s: Store, k: IntentKey, v: View, current: bool, now: int)
    ensures Disposes(s.events, Revalidate(s, k, v, current, now).0.events)
    ensures Revalidate(s, k, v, current, now).1.Clear? ==>
      Revalidate(s, k, v, current, now).0 == s && |Rows(s.events, IntentRows(k))| == 1 && Rows(s.events, FirstRows(k)) == []
  {
    hide Rows;
    if Revalidate(s, k, v, current, now).1.Done? { DisposesByOne(s.events, Abandoned(k)); }
  }

  lemma AbandonDisposes(s: Store, k: IntentKey, now: int, progress: string)
    ensures Disposes(s.events, RecordAbandoned(s, k, now, progress).0.events)
  {
    hide Rows;
    if RecordAbandoned(s, k, now, progress).1.Done? { DisposesByOne(s.events, Abandoned(k)); }
  }

  lemma AmbiguousDisposes(s: Store, k: IntentKey, now: int)
    ensures Disposes(s.events, RecordAmbiguous(s, k, now).0.events)
  {
    hide Rows;
    if RecordAmbiguous(s, k, now).1.Done? { DisposesByOne(s.events, Ambiguous(k, now)); }
  }

  lemma SubmissionDisposes(s: Store, r: ReceiptKey, now: int)
    ensures Disposes(s.events, RecordSubmission(s, r, now).0.events)
  {
    hide Rows;
    if RecordSubmission(s, r, now).1.Done? { DisposesByOne(s.events, Submitted(r, now)); }
  }

  lemma FinalizeDisposes(s: Store, r: ReceiptKey, now: int, seen: Observation, expire: bool, forced: bool)
    ensures Disposes(s.events, Finalize(s, r, now, seen, expire, forced).0.events)
  {
    hide Rows;
    if Finalize(s, r, now, seen, expire, forced).1.Done? {
      DisposesByOne(s.events, Accepted(r));
      DisposesByOne(s.events, Expired(r));
      DisposesByOne(s.events, Rejected(r));
    }
  }

  lemma ResolveDisposes(s: Store, k: IntentKey, now: int, evidence: bool, recovered: Option<int>)
    ensures Disposes(s.events, ResolveAmbiguous(s, k, now, evidence, recovered).0.events)
  {
    hide Rows;
    if ResolveAmbiguous(s, k, now, evidence, recovered).1.Done? {
      DisposesByOne(s.events, TerminalResolved(k));
      DisposesByOne(s.events, Recovered(k));
    }
  }

  lemma OrHoldDisposes(tx: (Store, Reply), log: Log, k: IntentKey, now: int)
    requires Disposes(log, tx.0.events) && (tx.1.Failed? ==> tx.0.events == log)
    ensures Disposes(log, OrHold(tx, k, now).events)
  {
    AmbiguousDisposes(tx.0, k, now);
  }

  /** The first disposition of an intent is unique, its closing is unique, and the two agree. */
  ghost predicate OneLife(log: Log, k: IntentKey) {
    var first, closing := Rows(log, FirstRows(k)), Rows(log, ClosingRows(k));
    && |first| <= 1 && |closing| <= 1
    && (closing != [] ==> first != [] && ClosedBy(first[0], closing[0]))
    && (first != [] && first[0].Abandoned? ==> closing == [first[0]])
    && (first != [] && first[0].Submitted? ==> Rows(log, TerminalRows(first[0].receipt)) == closing)
    && (first != [] && first[0].Ambiguous? ==> Rows(log, ResolutionRows(k)) == closing)
    && (first == [] ==> Rows(log, ResolutionRows(k)) == [])
  }

  ghost predicate ClosedBy(first: Event, closing: Event) {
    match first
    case Abandoned(_) => closing == first
    case Submitted(r, _) => (closing.Accepted? || closing.Rejected? || closing.Expired?) && closing.receipt == r
    case Ambiguous(k, _) => (closing.Recovered? || closing.TerminalResolved?) && closing.key == k
    case _ => false
  }

  lemma {:induction false} SubmittedIsFirst(log: Log, r: ReceiptKey)
    ensures |Rows(log, SubmittedRows(r))| <= |Rows(log, FirstRows(r.intent))|
    ensures |Rows(log, FirstRows(r.intent))| == 1 && Rows(log, SubmittedRows(r)) != []
            ==> Rows(log, SubmittedRows(r)) == Rows(log, FirstRows(r.intent))
  {
    if log != [] {
      SubmittedIsFirst(log[..|log|-1], r);
    }
  }

  lemma {:induction false} LivesAreSingle(log: Log, k: IntentKey)
    requires LogOk(log)
    ensures OneLife(log, k)
    decreases |log|
  {
    if log != [] {
      var front, e := log[..|log|-1], log[|log|-1];
      assert log == front + [e];
      LivesAreSingle(front, k);
      OneLifeExtends(front, e, k);
    }
  }

  lemma OneLifeExtends(log: Log, e: Event, k: IntentKey)
    requires OneLife(log, k) && Allowed(log, e)
    ensures OneLife(log + [e], k)
  {
    hide Rows;
    RowsOfAppend(log, e, FirstRows(k));
    RowsOfAppend(log, e, ClosingRows(k));
    RowsOfAppend(log, e, ResolutionRows(k));
    var first := Rows(log, FirstRows(k));
    if first != [] && first[0].Submitted? {
      RowsOfAppend(log, e, TerminalRows(first[0].receipt));
    }
    if e.Accepted? || e.Rejected? || e.Expired? {
      SubmittedIsFirst(log, e.receipt);
    }
    if e.Submitted? && e.receipt.intent == k {
      RowsOfAppend(log, e, TerminalRows(e.receipt));
      NoTerminal(log, e.receipt);
    }
  }

  /** Terminal entries of a receipt are closings of its intent. */
  lemma {:induction false} NoTerminal(log: Log, r: ReceiptKey)
    ensures Rows(log, ClosingRows(r.intent)) == [] ==> Rows(log, TerminalRows(r)) == []
  {
    if log != [] {
      NoTerminal(log[..|log|-1], r);
    }
  }

  // ---- Open intents ----------------------------------------------------------------------

  ghost predicate Open(log: Log, k: IntentKey) {
    Rows(log, ClosingRows(k)) == []
  }

  lemma OpenIsUnresolved(log: Log, k: IntentKey)
    requires LogOk(log)
    ensures Unresolved(log, k) <==> Open(log, k)
  {
    hide Rows;
    LivesAreSingle(log, k);
  }

  lemma OpenShrinks(before: Log, after: Log, k: IntentKey)
    requires Grows(before, after) && Open(after, k)
    ensures Open(before, k)
  {
    if after != before {
      assert after == before + [after[|before|]];
      RowsOfAppend(before, after[|before|], ClosingRows(k));
    }
  }

  lemma {:induction false} RowsOfPrefix(log: Log, n: nat, q: Query)
    requires n <= |log|
    ensures |Rows(log[..n], q)| <= |Rows(log, q)|
    decreases |log|
  {
    if n < |log| {
      var front := log[..|log|-1];
      assert front[..n] == log[..n];
      RowsOfPrefix(front, n, q);
    } else {
      assert log[..n] == log;
    }
  }

  // ---- Single flight ---------------------------------------------------------------------

  /** Same target, or a shared lineage. */
  ghost predicate Contends(lin: Lineages, j: IntentKey, t: Target) {
    TargetOf(j) == t || (j.fence.lineage.Some? && j.fence.lineage == LineageOf(lin, t))
  }

  ghost predicate IntentAt(log: Log, i: int) {
    0 <= i < |log| && log[i].Intent?
  }

  /** A lineage has one terminal watch: its first three fields are unique in the watch table. */
  lemma LineageFixesWatch(lin: Lineages, a: Target, b: Target)
    requires a.kind.Watch? && b.kind.Watch? && LineageOf(lin, a).Some? && LineageOf(lin, a) == LineageOf(lin, b)
    ensures a.key == b.key
  {
  }

  /** Every other intent that contends with `t` is closed. */
  ghost predicate Lone(lin: Lineages, log: Log, t: Target, mine: Option<IntentKey>) {
    forall i :: IntentAt(log, i) && Some(log[i].key) != mine && Contends(lin, log[i].key, t) ==> !Open(log, log[i].key)
  }

  /** What was true of the log when the manager was called. */
  ghost predicate SubmitOk(lin: Lineages, log: Log, s: Submit) {
    && s.at <= |log|
    && |Rows(log[..s.at], IntentRows(s.key))| == 1
    && Rows(log[..s.at], FirstRows(s.key)) == []
    && Lone(lin, log[..s.at], TargetOf(s.key), Some(s.key))
  }

  ghost predicate SubmitsOk(lin: Lineages, log: Log, submits: seq<Submit>) {
    && (forall i :: 0 <= i < |submits| ==> SubmitOk(lin, log, submits[i]))
    && (forall i, j :: 0 <= i < j < |submits| ==> submits[i].key != submits[j].key)
  }

  ghost predicate NotSubmitted(submits: seq<Submit>, k: IntentKey) {
    forall i :: 0 <= i < |submits| ==> submits[i].key != k
  }

  /** The pass will not schedule anything that contends with `t`. */
  ghost predicate Covers(lin: Lineages, p: Pass, t: Target) {
    && (t in p.submissionTargets || t in p.scheduledTargets)
    && (LineageOf(lin, t).Some? ==>
          LineageOf(lin, t).value in p.scheduledLineages || (t.kind.Watch? && t.key in p.visited))
  }

  ghost predicate AllCovered(lin: Lineages, log: Log, p: Pass) {
    forall i :: IntentAt(log, i) && Open(log, log[i].key) ==> Covers(lin, p, TargetOf(log[i].key))
  }

  ghost predicate CurrentOk(lin: Lineages, log: Log, p: Pass, submits: seq<Submit>) {
    match p.current
    case Reserved(t) => Covers(lin, p, t) && Lone(lin, log, t, None)
    case Recorded(k) =>
      && Lone(lin, log, TargetOf(k), Some(k))
      && (|Rows(log, IntentRows(k))| == 1 ==> NotSubmitted(submits, k))
    case Cleared(k) =>
      && Lone(lin, log, TargetOf(k), Some(k)) && NotSubmitted(submits, k)
      && |Rows(log, IntentRows(k))| == 1 && Rows(log, FirstRows(k)) == []
    case _ => true
  }

  ghost predicate PhaseOk(lin: Lineages, log: Log, phase: Phase, submits: seq<Submit>) {
    phase.Scheduling? ==>
      && AllCovered(lin, log, phase.pass)
      && (!phase.pass.watching ==> phase.pass.visited == {})
      && CurrentOk(lin, log, phase.pass, submits)
  }

  ghost predicate LineagesOk(lin: Lineages, log: Log) {
    forall i :: IntentAt(log, i) ==> log[i].key.fence.lineage == LineageOf(lin, TargetOf(log[i].key))
  }

  ghost predicate WorldOk(lin: Lineages, w: World) {
    && LogOk(w.store.events) && LineagesOk(lin, w.store.events)
    && SubmitsOk(lin, w.store.events, w.submits)
    && PhaseOk(lin, w.store.events, w.phase, w.submits)
  }

  lemma SubmitsStay(lin: Lineages, before: Log, after: Log, submits: seq<Submit>)
    requires SubmitsOk(lin, before, submits) && Grows(before, after)
    ensures SubmitsOk(lin, after, submits)
  {
    hide Rows, Lone;
    forall i | 0 <= i < |submits| ensures SubmitOk(lin, after, submits[i]) {
      assert after[..submits[i].at] == before[..submits[i].at];
    }
  }

  lemma IntentsSame(before: Log, after: Log, i: int)
    requires Disposes(before, after) && IntentAt(after, i)
    ensures IntentAt(before, i) && after[i] == before[i]
  {
    assert i < |before|;
    assert after[..|before|][i] == before[i];
  }

  lemma CoveredStays(lin: Lineages, before: Log, after: Log, p: Pass)
    requires Disposes(before, after) && AllCovered(lin, before, p)
    ensures AllCovered(lin, after, p)
  {
    hide Open, Covers;
    forall i | IntentAt(after, i) && Open(after, after[i].key) ensures Covers(lin, p, TargetOf(after[i].key)) {
      IntentsSame(before, after, i);
      OpenShrinks(before, after, after[i].key);
    }
  }

  /** A disposition leaves the pass in order, provided the current intent is finished or untouched. */
  lemma DispositionKeeps(lin: Lineages, w: World, s: Store, c: Current)
    requires WorldOk(lin, w) && Disposes(w.store.events, s.events)
    requires w.phase.Scheduling? ==>
               c.Nothing? || c.Waiting? || (s.events == w.store.events && CurrentOk(lin, s.events, w.phase.pass.(current := c), w.submits))
    ensures WorldOk(lin, World(s, if w.phase.Scheduling? then Scheduling(w.phase.pass.(current := c)) else w.phase, w.submits))
  {
    hide Rows, Open, Covers, Lone, SubmitsOk;
    GrowsKeepsLog(w.store.events, s.events);
    SubmitsStay(lin, w.store.events, s.events, w.submits);
    forall i | IntentAt(s.events, i) ensures s.events[i].key.fence.lineage == LineageOf(lin, TargetOf(s.events[i].key)) {
      IntentsSame(w.store.events, s.events, i);
    }
    if w.phase.Scheduling? {
      CoveredStays(lin, w.store.events, s.events, w.phase.pass);
      assert AllCovered(lin, s.events, w.phase.pass.(current := c)) by { CoverIgnoresCurrent(lin, s.events, w.phase.pass, c); }
    }
  }

  lemma CoverIgnoresCurrent(lin: Lineages, log: Log, p: Pass, c: Current)
    requires AllCovered(lin, log, p)
    ensures AllCovered(lin, log, p.(current := c))
  {
    hide Open;
    forall i | IntentAt(log, i) && Open(log, log[i].key) ensures Covers(lin, p.(current := c), TargetOf(log[i].key)) {
      assert Covers(lin, p, TargetOf(log[i].key));
    }
  }

  // ---- The steps -------------------------------------------------------------------------

  lemma SnapshotKeeps(lin: Lineages, w: World, due: set<Lineage>)
    requires WorldOk(lin, w) && w.phase.Reconciling?
    ensures WorldOk(lin, Next(lin, w, Snapshot(due)))
  {
    hide Rows, Open, SubmitsOk, Unresolved;
    var log := w.store.events;
    var p := Next(lin, w, Snapshot(due)).phase.pass;
    forall i | IntentAt(log, i) && Open(log, log[i].key) ensures Covers(lin, p, TargetOf(log[i].key)) {
      OpenIsUnresolved(log, log[i].key);
      assert TargetOf(log[i].key) in UnresolvedTargets(log);
      if log[i].key.fence.lineage.Some? { assert log[i].key.fence.lineage.value in UnresolvedLineages(log); }
    }
  }

  lemma ScheduleKeeps(lin: Lineages, w: World, t: Target, launch: bool)
    requires WorldOk(lin, w) && w.phase.Scheduling?
    ensures WorldOk(lin, PassStep(lin, w, Schedule(t, launch)))
  {
    hide Rows, Open, SubmitsOk;
    var log, p := w.store.events, w.phase.pass;
    if p.current.Nothing? && t.kind.Watch? == p.watching && t.key !in p.visited {
      var q := Scheduled(lin, p, t, launch);
      forall i | IntentAt(log, i) && Open(log, log[i].key) ensures Covers(lin, q, TargetOf(log[i].key)) {
        assert Covers(lin, p, TargetOf(log[i].key));
      }
      if q.current.Reserved? {
        forall i | IntentAt(log, i) && Contends(lin, log[i].key, t) ensures !Open(log, log[i].key) {
          if Open(log, log[i].key) {
            ContenderBlocks(lin, p, t, log[i].key);
            assert false;
          }
        }
      }
    }
  }

  /** A covered contender would have kept `t` from being scheduled. */
  lemma ContenderBlocks(lin: Lineages, p: Pass, t: Target, j: IntentKey)
    requires Covers(lin, p, TargetOf(j)) && Contends(lin, j, t)
    requires j.fence.lineage == LineageOf(lin, TargetOf(j))
    requires !p.watching ==> p.visited == {}
    requires t.kind.Watch? == p.watching && t.key !in p.visited
    ensures LineageBusy(lin, p, t) || t in p.scheduledTargets || t in p.submissionTargets
  {
    if t.kind.Watch? && j.fence.kind.Watch? && LineageOf(lin, t).Some? && LineageOf(lin, t) == LineageOf(lin, TargetOf(j)) {
      LineageFixesWatch(lin, t, TargetOf(j));
    }
  }

  lemma RecordKeeps(lin: Lineages, w: World, k: IntentKey, v: View)
    requires WorldOk(lin, w) && w.phase.Scheduling?
    ensures WorldOk(lin, PassStep(lin, w, Record(k, v)))
  {
    hide Rows, Open, SubmitsOk, RecordIntent, Covers, LogOk;
    var log, p := w.store.events, w.phase.pass;
    if p.current == Reserved(TargetOf(k)) && k.fence.lineage == LineageOf(lin, TargetOf(k)) {
      var tx := RecordIntent(w.store, k, v);
      assert tx.0 == w.store || tx.0.events == log + [Intent(k)] by { RecordIntentAppends(w.store, k, v); }
      RecordIntentAppends(w.store, k, v);
      if tx.1.Done? {
        var after := log + [Intent(k)];
        GrowsByOne(log, Intent(k));
        GrowsKeepsLog(log, after);
        SubmitsStay(lin, log, after, w.submits);
        RowsOfAppend(log, Intent(k), IntentRows(k));
        forall i | IntentAt(after, i) ensures IntentAt(log, i) || after[i] == Intent(k) {}
        forall i | IntentAt(after, i) && Open(after, after[i].key) ensures Covers(lin, p.(current := Recorded(k)), TargetOf(after[i].key)) {
          CoverIgnoresCurrent(lin, log, p, Recorded(k));
          CoversIgnoresCurrent(lin, p, TargetOf(k), Recorded(k));
          if i < |log| { OpenShrinks(log, after, after[i].key); assert IntentAt(log, i); }
        }
        forall i | IntentAt(after, i) && after[i].key != k && Contends(lin, after[i].key, TargetOf(k))
          ensures !Open(after, after[i].key)
        {
          assert IntentAt(log, i);
          if Open(after, after[i].key) { OpenShrinks(log, after, after[i].key); }
        }
        if |Rows(after, IntentRows(k))| == 1 { FreshIntent(lin, log, w.submits, k); }
      } else {
        CoverIgnoresCurrent(lin, log, p, Nothing);
      }
    }
  }

  lemma CoversIgnoresCurrent(lin: Lineages, p: Pass, t: Target, c: Current)
    ensures Covers(lin, p.(current := c), t) <==> Covers(lin, p, t)
  {
  }

  lemma RecordIntentAppends(s: Store, k: IntentKey, v: View)
    ensures var tx := RecordIntent(s, k, v);
            if tx.1.Done? then tx.0.events == s.events + [Intent(k)] else tx.0 == s
  {
  }

  /** An intent with no row yet was never submitted. */
  lemma FreshIntent(lin: Lineages, log: Log, submits: seq<Submit>, k: IntentKey)
    requires SubmitsOk(lin, log, submits) && Rows(log, IntentRows(k)) == []
    ensures NotSubmitted(submits, k)
  {
    hide Rows, Lone;
    forall i | 0 <= i < |submits| ensures submits[i].key != k {
      assert SubmitOk(lin, log, submits[i]);
      RowsOfPrefix(log, submits[i].at, IntentRows(submits[i].key));
    }
  }

  lemma RevalidatedKeeps(lin: Lineages, w: World, v: View, current: bool, now: int)
    requires WorldOk(lin, w) && w.phase.Scheduling?
    ensures WorldOk(lin, PassStep(lin, w, Revalidated(v, current, now)))
  {
    hide Rows, Lone, Revalidate, RecordAmbiguous, AllCovered, LogOk, SubmitsOk, LineagesOk;
    if w.phase.pass.current.Recorded? {
      var k := w.phase.pass.current.key;
      var tx := Revalidate(w.store, k, v, current, now);
      RevalidateDisposes(w.store, k, v, current, now);
      RevalidateFails(w.store, k, v, current, now);
      OrHoldDisposes(tx, w.store.events, k, now);
      if tx.1.Clear? {
        DispositionKeeps(lin, w, w.store, Cleared(k));
      } else {
        DispositionKeeps(lin, w, OrHold(tx, k, now), Nothing);
      }
    }
  }

  lemma RevalidateFails(s: Store, k: IntentKey, v: View, current: bool, now: int)
    ensures Revalidate(s, k, v, current, now).1.Failed? ==> Revalidate(s, k, v, current, now).0 == s
  {
  }

  lemma CallKeeps(lin: Lineages, w: World, result: CallResult)
    requires WorldOk(lin, w) && w.phase.Scheduling?
    ensures WorldOk(lin, PassStep(lin, w, CallSubmit(result)))
  {
    hide Rows, Lone, AllCovered, LogOk, LineagesOk;
    if w.phase.pass.current.Cleared? {
      var k, log := w.phase.pass.current.key, w.store.events;
      assert log[..|log|] == log;
      assert SubmitOk(lin, log, Submit(k, |log|, result));
      CoverIgnoresCurrent(lin, log, w.phase.pass, Called(k, result));
    }
  }

  lemma BindKeeps(lin: Lineages, w: World, now: int, progress: string)
    requires WorldOk(lin, w) && w.phase.Scheduling?
    ensures WorldOk(lin, PassStep(lin, w, Bind(now, progress)))
  {
    hide Rows, RecordAbandoned, RecordAmbiguous, RecordSubmission, WorldOk, OrHold;
    if w.phase.pass.current.Called? {
      var k := w.phase.pass.current.key;
      match w.phase.pass.current.result {
        case NotSubmitted =>
          AbandonDisposes(w.store, k, now, progress);
          AbandonFails(w.store, k, now, progress);
          OrHoldDisposes(RecordAbandoned(w.store, k, now, progress), w.store.events, k, now);
          DispositionKeeps(lin, w, OrHold(RecordAbandoned(w.store, k, now, progress), k, now), Nothing);
        case Unclear =>
          AmbiguousDisposes(w.store, k, now);
          AmbiguousFails(w.store, k, now);
          OrHoldDisposes(RecordAmbiguous(w.store, k, now), w.store.events, k, now);
          DispositionKeeps(lin, w, OrHold(RecordAmbiguous(w.store, k, now), k, now), Nothing);
        case Receipt(m) =>
          var r := ReceiptKey(k, m);
          var tx := RecordSubmission(w.store, r, now);
          SubmissionDisposes(w.store, r, now);
          SubmissionFails(w.store, r, now);
          OrHoldDisposes(tx, w.store.events, k, now);
          DispositionKeeps(lin, w, OrHold(tx, k, now), if tx.1.Failed? then Nothing else Waiting(r));
      }
    }
  }

  lemma AbandonFails(s: Store, k: IntentKey, now: int, progress: string)
    ensures RecordAbandoned(s, k, now, progress).1.Failed? ==> RecordAbandoned(s, k, now, progress).0 == s
  {
  }

  lemma AmbiguousFails(s: Store, k: IntentKey, now: int)
    ensures RecordAmbiguous(s, k, now).1.Failed? ==> RecordAmbiguous(s, k, now).0 == s
  {
  }

  lemma SubmissionFails(s: Store, r: ReceiptKey, now: int)
    ensures RecordSubmission(s, r, now).1.Failed? ==> RecordSubmission(s, r, now).0 == s
  {
  }

  lemma NextKeeps(lin: Lineages, w: World, step: Step)
    requires WorldOk(lin, w)
    ensures WorldOk(lin, Next(lin, w, step))
  {
    hide Rows, AllCovered, LogOk, LineagesOk, SubmitsOk, RecordAmbiguous, ResolveAmbiguous, Finalize, PassStep, CurrentOk;
    match step
    case ReconcileUnbound(k, now) =>
      AmbiguousDisposes(w.store, k, now);
      if w.phase.Reconciling? { DispositionKeeps(lin, w, RecordAmbiguous(w.store, k, now).0, Nothing); }
    case ReconcileAmbiguous(k, now, evidence, recovered) =>
      ResolveDisposes(w.store, k, now, evidence, recovered);
      if w.phase.Reconciling? { DispositionKeeps(lin, w, ResolveAmbiguous(w.store, k, now, evidence, recovered).0, Nothing); }
    case ReconcilePending(r, now, seen, expire) =>
      FinalizeDisposes(w.store, r, now, seen, expire, false);
      if w.phase.Reconciling? { DispositionKeeps(lin, w, Finalize(w.store, r, now, seen, expire, false).0, Nothing); }
    case Snapshot(due) =>
      if w.phase.Reconciling? { SnapshotKeeps(lin, w, due); }
    case Crash =>
    case OutsideWrite(_) =>
    case StartPass =>
    case _ =>
      if w.phase.Scheduling? { PassKeeps(lin, w, step); }
  }

  lemma PassKeeps(lin: Lineages, w: World, step: Step)
    requires WorldOk(lin, w) && w.phase.Scheduling?
    ensures WorldOk(lin, PassStep(lin, w, step))
  {
    match step
    case Schedule(t, launch) => ScheduleKeeps(lin, w, t, launch);
    case Record(k, view) => RecordKeeps(lin, w, k, view);
    case Revalidated(view, current, now) => RevalidatedKeeps(lin, w, view, current, now);
    case CallSubmit(result) => CallKeeps(lin, w, result);
    case Bind(now, progress) => BindKeeps(lin, w, now, progress);
    case FinalizeCurrent(now, seen, forced) =>
      hide Rows, Finalize, WorldOk;
      if w.phase.pass.current.Waiting? {
        var r := w.phase.pass.current.receipt;
        FinalizeDisposes(w.store, r, now, seen, false, forced);
        DispositionKeeps(lin, w, Finalize(w.store, r, now, seen, false, forced).0, Nothing);
      }
    case BeginWatches =>
      hide Rows, Open;
      var p := w.phase.pass;
      if p.current.Nothing? {
        forall i | IntentAt(w.store.events, i) && Open(w.store.events, w.store.events[i].key)
          ensures Covers(lin, p.(watching := true), TargetOf(w.store.events[i].key))
        {
          assert Covers(lin, p, TargetOf(w.store.events[i].key));
        }
      }
    case _ =>
  }
}
