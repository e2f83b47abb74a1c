/** Exactly when each transaction of the submission protocol commits, and what it leaves: stated on
    positions of the log and on the columns of the row. */
module SubmissionChanges {
  import opened Prelude
  import opened SubmissionSpec
  import opened SubmissionProofs

  // ---- Positions of the log --------------------------------------------------------------

  /** The event stands in the log exactly once. */
  ghost predicate Once(log: Log, e: Event) {
    multiset(log)[e] == 1
  }

  /** No position of the log gives the intent a first disposition. */
  ghost predicate Undisposed(log: Log, k: IntentKey) {
    && (forall i :: 0 <= i < |log| && log[i].Submitted? ==> log[i].receipt.intent != k)
    && (forall i :: 0 <= i < |log| && log[i].Abandoned? ==> log[i].key != k)
    && (forall i :: 0 <= i < |log| && log[i].Ambiguous? ==> log[i].key != k)
  }

  ghost predicate NoMatch(log: Log, q: Query) {
    forall i :: 0 <= i < |log| ==> !Matches(log[i], q)
  }

  lemma {:induction false} NoRowsIff(log: Log, q: Query)
    ensures Rows(log, q) == [] <==> NoMatch(log, q)
  {
    if log != [] {
      var front := log[..|log|-1];
      NoRowsIff(front, q);
      assert forall i :: 0 <= i < |front| ==> front[i] == log[i];
      if NoMatch(log, q) { assert NoMatch(front, q) by { forall i | 0 <= i < |front| ensures !Matches(front[i], q) { assert front[i] == log[i]; } } }
      assert Rows(log, q) == [] ==> Rows(front, q) == [];
    }
  }

  /** `e` is in the log once, and nothing else there answers the query. */
  ghost predicate OneMatch(log: Log, q: Query, e: Event) {
    Matches(e, q) && Once(log, e) && forall i :: 0 <= i < |log| && Matches(log[i], q) ==> log[i] == e
  }

  lemma {:induction false} OneRowIff(log: Log, q: Query, e: Event)
    ensures Rows(log, q) == [e] <==> OneMatch(log, q, e)
  {
    if log != [] {
      hide Rows, Matches;
      var front, last := log[..|log|-1], log[|log|-1];
      OneRowIff(front, q, e);
      assert log == front + [last];
      RowsOfAppend(front, last, q);
      CountOfLast(front, last, e);
      if Matches(last, q) {
        OneLast(log, q, e);
      } else {
        assert Rows(front, q) + [] == Rows(front, q);
        assert forall i :: 0 <= i < |log| && Matches(log[i], q) ==> i < |front| && log[i] == front[i];
      }
    }
  }

  lemma OneLast(log: Log, q: Query, e: Event)
    requires log != [] && Matches(log[|log|-1], q)
    ensures OneMatch(log, q, e) <==> e == log[|log|-1] && NoMatch(log[..|log|-1], q)
    ensures Rows(log, q) == [e] <==> e == log[|log|-1] && NoMatch(log[..|log|-1], q)
  {
    hide Rows, Matches;
    var front, last := log[..|log|-1], log[|log|-1];
    NoRowsIff(front, q);
    assert log == front + [last];
    RowsOfAppend(front, last, q);
    assert |Rows(log, q)| == |Rows(front, q)| + 1 && Rows(log, q)[|Rows(front, q)|] == last;
    CountOfLast(front, last, e);
    if OneMatch(log, q, e) {
      assert log[|log|-1] == e;
      forall i | 0 <= i < |front| ensures !Matches(front[i], q) { assert front[i] in front && front[i] == log[i]; }
    }
  }

  lemma CountOfLast(front: Log, last: Event, e: Event)
    ensures multiset(front + [last])[e] == multiset(front)[e] + (if last == e then 1 else 0)
    ensures multiset(front)[e] == 0 <==> e !in front
  {
  }

  lemma IntentOnceIff(log: Log, k: IntentKey)
    ensures |Rows(log, IntentRows(k))| == 1 <==> Once(log, Intent(k))
  {
    hide Rows;
    var rows := Rows(log, IntentRows(k));
    OneRowIff(log, IntentRows(k), Intent(k));
    if |rows| == 1 {
      assert Matches(rows[0], IntentRows(k));
      assert rows == [Intent(k)];
    }
  }

  lemma UndisposedIff(log: Log, k: IntentKey)
    ensures Rows(log, FirstRows(k)) == [] <==> Undisposed(log, k)
  {
    NoRowsIff(log, FirstRows(k));
    if NoMatch(log, FirstRows(k)) {
      forall i | 0 <= i < |log|
        ensures (log[i].Submitted? ==> log[i].receipt.intent != k) && (log[i].Abandoned? || log[i].Ambiguous? ==> log[i].key != k)
      {
        assert !Matches(log[i], FirstRows(k));
      }
    }
  }

  // ---- Recording an intent ---------------------------------------------------------------

  /** The row as reserved: nothing running, no marker, on the fenced endpoint and progress. */
  ghost predicate ReservedRow(s: Store, k: IntentKey) {
    && (k.fence.kind, k.entity) in s.rows && s.rows[(k.fence.kind, k.entity)] == k.reservation
    && k.reservation.process == None && k.reservation.error == None
    && k.reservation.progress == k.fence.progress && k.reservation.endpoint == k.fence.endpoint
    && k.reservation.state == (if k.fence.kind == Message then Inflight else Active)
    && 1 <= k.reservation.attempts <= 3
  }

  ghost predicate NamesTarget(k: IntentKey) {
    if k.fence.kind == Watch then k.entity == k.fence.key
    else k.entity == "message:" + k.fence.key + ":prepared" || k.entity == "message:" + k.fence.key + ":claimed"
  }

  /** The registry still shows the fence and the planner the intent was made under. */
  predicate SameView(v: View, k: IntentKey) {
    v.fence == Some(k.fence) && v.planner == k.planner
  }

  /** An intent commits exactly over its own reservation under its own fence, with its marker. */
  lemma RecordIntentIff(s: Store, k: IntentKey, v: View)
    ensures var (t, r) := RecordIntent(s, k, v);
            if NamesTarget(k) && ReservedRow(s, k) && SameView(v, k)
            then r == Done && t.events == s.events + [Intent(k)]
                 && t.rows == s.rows[(k.fence.kind, k.entity) := k.reservation.(error := Some(Submitting), updated := k.at)]
            else r.Failed? && t == s
  {
  }

  // ---- Before and after the call ---------------------------------------------------------

  /** The row carries this marker of the intent and nothing else changed. */
  ghost predicate MarkedRow(s: Store, k: IntentKey, marker: Marker, at: int) {
    && (k.fence.kind, k.entity) in s.rows
    && s.rows[(k.fence.kind, k.entity)] == k.reservation.(process := None, error := Some(marker), updated := at)
  }

  /** Recorded once, not disposed, and its row untouched since. */
  ghost predicate InFlight(s: Store, k: IntentKey) {
    Once(s.events, Intent(k)) && Undisposed(s.events, k) && MarkedRow(s, k, Submitting, k.at)
  }

  /** The call is cleared exactly for an intent in flight whose fence, planner and message contract
      still stand; if any of them moved the intent is abandoned, and otherwise nothing happens. */
  lemma RevalidateIff(s: Store, k: IntentKey, v: View, contractCurrent: bool, now: int)
    ensures var (t, r) := Revalidate(s, k, v, contractCurrent, now);
            var stands := SameView(v, k) && (k.fence.kind == Message ==> contractCurrent);
            && (r == Clear <==> InFlight(s, k) && stands)
            && (r == Done <==> InFlight(s, k) && v.fence.Some? && !stands)
            && (r == Done ==> t.events == s.events + [Abandoned(k)]
                              && t.rows == s.rows[(k.fence.kind, k.entity) := k.reservation.(process := None, error := None, updated := now)])
            && (r != Done ==> t == s)
  {
    hide Rows;
    IntentOnceIff(s.events, k);
    UndisposedIff(s.events, k);
  }

  lemma AmbiguousIff(s: Store, k: IntentKey, now: int)
    ensures var (t, r) := RecordAmbiguous(s, k, now);
            if InFlight(s, k)
            then r == Done && t.events == s.events + [Ambiguous(k, now)]
                 && t.rows == s.rows[(k.fence.kind, k.entity) := k.reservation.(process := None, error := Some(AmbiguousMark), updated := now)]
            else t == s && r != Done
  {
    hide Rows;
    IntentOnceIff(s.events, k);
    UndisposedIff(s.events, k);
  }

  lemma SubmissionIff(s: Store, r: ReceiptKey, now: int)
    ensures var (t, reply) := RecordSubmission(s, r, now);
            if InFlight(s, r.intent)
            then reply == Done && t.events == s.events + [Submitted(r, now)]
                 && t.rows == s.rows[(r.intent.fence.kind, r.intent.entity) :=
                                       r.intent.reservation.(process := None, error := Some(Pending), updated := now)]
            else t == s && reply != Done
  {
    hide Rows;
    IntentOnceIff(s.events, r.intent);
    UndisposedIff(s.events, r.intent);
  }

  /** A watch that progressed meanwhile is left for its next pass. */
  lemma AbandonedIff(s: Store, k: IntentKey, now: int, progress: string)
    ensures var (t, r) := RecordAbandoned(s, k, now, progress);
            if InFlight(s, k) && (k.fence.kind == Message || progress == k.reservation.progress)
            then r == Done && t.events == s.events + [Abandoned(k)]
                 && t.rows.Keys == s.rows.Keys && (forall w :: w in s.rows && w != (k.fence.kind, k.entity) ==> t.rows[w] == s.rows[w])
                 && RetryRow(k, now, progress, t.rows[(k.fence.kind, k.entity)])
            else t == s && r != Done && (InFlight(s, k) ==> r == Unchanged)
  {
    hide Rows;
    IntentOnceIff(s.events, k);
    UndisposedIff(s.events, k);
    AbandonedRowIs(k, now, progress);
  }

  /** A retried row: a fresh count after progress, held at the third attempt, otherwise as reserved; a
      watch waits a minute. */
  ghost predicate RetryRow(k: IntentKey, now: int, progress: string, row: Row) {
    var was := k.reservation;
    && row.process == None && row.updated == now && row.endpoint == was.endpoint && row.progress == progress
    && (progress != was.progress ==> row.attempts == 1 && row.lastAttempt == now && row.state == was.state)
    && (progress == was.progress ==> row.attempts == was.attempts && row.lastAttempt == was.lastAttempt)
    && (progress == was.progress ==> row.state == (if was.attempts >= 3 then Hold else was.state))
    && row.nextWake == (if k.fence.kind == Watch && progress == was.progress then now + 60 else was.nextWake)
    && row.error.Some? && row.error.value.Failure?
  }

  lemma AbandonedRowIs(k: IntentKey, now: int, progress: string)
    ensures RetryRow(k, now, progress, AbandonedRow(k, now, progress))
  {
  }

  // ---- Binding what the manager said -----------------------------------------------------

  /** The one entry that binding an answer appends for an intent in flight. */
  ghost predicate BindsAs(result: CallResult, k: IntentKey, now: int, e: Event) {
    match result
    case NotSubmitted => e == Abandoned(k)
    case Unclear => e == Ambiguous(k, now)
    case Receipt(m) => e == Submitted(ReceiptKey(k, m), now)
  }

  /** An answer for an intent in flight is bound in the same step; only a watch that progressed while
      nothing was submitted stays as it is.  A row that moved leaves the intent undisposed. */
  lemma BindIff(lin: Lineages, w: World, now: int, progress: string)
    requires w.phase.Scheduling? && w.phase.pass.current.Called?
    ensures var k, result := w.phase.pass.current.key, w.phase.pass.current.result;
            var after := Next(lin, w, Bind(now, progress)).store.events;
            var skipped := result.NotSubmitted? && k.fence.kind == Watch && progress != k.reservation.progress;
            if InFlight(w.store, k) && !skipped
            then |after| == |w.store.events| + 1 && w.store.events <= after && BindsAs(result, k, now, after[|w.store.events|])
            else after == w.store.events
  {
    hide RecordAbandoned, RecordAmbiguous, RecordSubmission, InFlight, Rows;
    var k, result := w.phase.pass.current.key, w.phase.pass.current.result;
    AmbiguousIff(w.store, k, now);
    AbandonedIff(w.store, k, now, progress);
    if result.Receipt? { SubmissionIff(w.store, ReceiptKey(k, result.manager), now); }
  }

  // ---- Closing ---------------------------------------------------------------------------

  /** The receipt is in the log once, at this time, and nothing has closed it. */
  ghost predicate PendingReceipt(s: Store, r: ReceiptKey, at: int) {
    && OneMatch(s.events, SubmittedRows(r), Submitted(r, at)) && NoMatch(s.events, TerminalRows(r))
    && Once(s.events, Intent(r.intent)) && MarkedRow(s, r.intent, Pending, at)
  }

  /** A pending child is accepted with its process only when it acknowledged; rejected when it was
      refused or the caller forces it; expired only when observed so or due.  Accepted keeps the row
      running, the others hold it. */
  lemma FinalizeIff(s: Store, r: ReceiptKey, now: int, seen: Observation, expire: bool, forced: bool)
    ensures var (t, reply) := Finalize(s, r, now, seen, expire, forced);
            && (reply != Done ==> t == s)
            && (reply == Done <==> (exists at :: PendingReceipt(s, r, at)) && (forced || seen != NotYet || expire))
            && (reply == Done ==>
                  var place := (r.intent.fence.kind, r.intent.entity);
                  place in t.rows && place in s.rows && t.rows == s.rows[place := t.rows[place]] &&
                  var row := t.rows[place];
                  if !forced && seen.Acknowledged? then
                    t.events == s.events + [Accepted(r)] && row == s.rows[place].(process := Some(seen.process), updated := now, error := None)
                  else if forced || seen.ObservedRejected? then t.events == s.events + [Rejected(r)] && row.state == Hold && row.process == None
                  else t.events == s.events + [Expired(r)] && row.state == Hold && row.process == None)
  {
    hide Rows;
    IntentOnceIff(s.events, r.intent);
    NoRowsIff(s.events, TerminalRows(r));
    var rows := Rows(s.events, SubmittedRows(r));
    forall at ensures rows == [Submitted(r, at)] <==> OneMatch(s.events, SubmittedRows(r), Submitted(r, at)) {
      OneRowIff(s.events, SubmittedRows(r), Submitted(r, at));
    }
    if |rows| == 1 {
      assert Matches(rows[0], SubmittedRows(r));
      assert rows == [Submitted(r, rows[0].at)];
      assert Finalize(s, r, now, seen, expire, forced).1 == Done ==> PendingReceipt(s, r, rows[0].at);
    }
  }

  /** The intent's only disposition is this ambiguity, and nothing has resolved it. */
  ghost predicate StillAmbiguous(log: Log, k: IntentKey, at: int) {
    Once(log, Intent(k)) && OneMatch(log, FirstRows(k), Ambiguous(k, at)) && NoMatch(log, ResolutionRows(k))
  }

  /** The row still carries the ambiguity, running or already held. */
  ghost predicate AmbiguousRow(s: Store, k: IntentKey, at: int) {
    MarkedRow(s, k, AmbiguousMark, at) ||
    ((k.fence.kind, k.entity) in s.rows &&
     var row := s.rows[(k.fence.kind, k.entity)];
     row == k.reservation.(state := Hold, process := None, error := Some(AmbiguousMark), updated := row.updated))
  }

  /** An open ambiguity is resolved by evidence that the target is finished, or by an authenticated child
      over its own row; without either the row is held and the intent stays open. */
  lemma ResolveIff(s: Store, k: IntentKey, now: int, evidence: bool, recovered: Option<int>)
    ensures var (t, r) := ResolveAmbiguous(s, k, now, evidence, recovered);
            && (r == Done <==> exists at :: StillAmbiguous(s.events, k, at) && (evidence || (recovered.Some? && AmbiguousRow(s, k, at))))
            && (r == Done && evidence ==> t == s.(events := s.events + [TerminalResolved(k)]))
            && (r == Done && !evidence ==>
                  && t.events == s.events + [Recovered(k)] && (k.fence.kind, k.entity) in t.rows
                  && t.rows == s.rows[(k.fence.kind, k.entity) := t.rows[(k.fence.kind, k.entity)]]
                  && t.rows[(k.fence.kind, k.entity)].process == recovered && t.rows[(k.fence.kind, k.entity)].state == k.reservation.state
                  && t.rows[(k.fence.kind, k.entity)].error == None)
            && (r != Done ==> t.events == s.events)
  {
    hide Rows;
    IntentOnceIff(s.events, k);
    NoRowsIff(s.events, ResolutionRows(k));
    var first := Rows(s.events, FirstRows(k));
    forall at ensures first == [Ambiguous(k, at)] <==> OneMatch(s.events, FirstRows(k), Ambiguous(k, at)) {
      OneRowIff(s.events, FirstRows(k), Ambiguous(k, at));
    }
    if |first| == 1 && first[0].Ambiguous? {
      assert Matches(first[0], FirstRows(k));
      var at := first[0].at;
      assert first == [Ambiguous(k, at)];
      assert |Rows(s.events, IntentRows(k))| == 1 && Rows(s.events, ResolutionRows(k)) == [] <==> StillAmbiguous(s.events, k, at);
      assert Where(k) in s.rows ==>
          (AmbiguousRow(s, k, at) <==> var row, e := s.rows[Where(k)], Marked(k, AmbiguousMark, at); row == e || row == e.(state := Hold, updated := row.updated));
    }
  }

  // ---- What a pass starts from -----------------------------------------------------------

  /** An intent of the log that nothing has closed. */
  ghost predicate OpenAt(log: Log, i: int) {
    0 <= i < |log| && log[i].Intent? && Open(log, log[i].key)
  }

  /** A pass avoids exactly the targets and lineages of the open intents. */
  lemma AvoidsExactlyTheOpen(log: Log, t: Target, l: Lineage)
    requires LogOk(log)
    ensures t in UnresolvedTargets(log) <==>
            exists i :: OpenAt(log, i) && t == Target(log[i].key.fence.role, log[i].key.fence.kind, log[i].key.fence.key)
    ensures l in UnresolvedLineages(log) <==> exists i :: OpenAt(log, i) && log[i].key.fence.lineage == Some(l)
  {
    hide Rows, Open, Unresolved;
    forall i | 0 <= i < |log| && log[i].Intent? ensures Unresolved(log, log[i].key) <==> Open(log, log[i].key) {
      OpenIsUnresolved(log, log[i].key);
    }
  }
}
