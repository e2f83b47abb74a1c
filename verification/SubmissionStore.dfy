/** The store object behind the submission protocol: its scans are loops over the event table and
    its transactions are proved against the value model. */
module SubmissionStore {
  import opened Prelude
  import Spec = SubmissionSpec
  import opened SubmissionProofs
  import opened SubmissionAnswers

  class CoordinationStore {
    var events: seq<Spec.Event>
    var rows: map<(Spec.Kind, string), Spec.Row>

    function Value(): Spec.Store
      reads this
    {
      Spec.Store(events, rows)
    }

    /** Every event was allowed when it was appended. */
    ghost predicate Valid()
      reads this
    {
      LogOk(events)
    }

    constructor ()
      ensures Valid() && Value() == Spec.Store([], map[])
    {
      events, rows := [], map[];
    }

    method Select(q: Spec.Query) returns (found: seq<Spec.Event>)
      ensures found == Spec.Rows(events, q)
    {
      found := [];
      var i := 0;
      while i < |events|
        invariant 0 <= i <= |events| && found == Spec.Rows(events[..i], q)
      {
        assert events[..i+1][..i] == events[..i];
        if Spec.Matches(events[i], q) {
          found := found + [events[i]];
        }
        i := i + 1;
      }
      assert events[..i] == events;
    }

    /** Compare-and-set of one row, with the event of the same transaction. */
    method Commit(k: Spec.IntentKey, row: Spec.Row, e: Spec.Event)
      modifies this
      ensures Value() == Spec.Put(old(Value()), k, row, e)
    {
      events, rows := events + [e], rows[Spec.Where(k) := row];
    }

    method RecordIntent(k: Spec.IntentKey, v: Spec.View) returns (r: Spec.Reply)
      requires Valid()
      modifies this
      ensures Valid() && Grows(old(events), events)
      ensures (Value(), r) == Spec.RecordIntent(old(Value()), k, v)
    {
      IntentGrows(Value(), k, v);
      hide LogOk, Grows;
      if !Spec.EntityMatches(k) || k.reservation.attempts <= 0 || k.reservation.attempts > Spec.MAX_ATTEMPTS {
        return Spec.Failed(Spec.DRIFT);
      }
      if v.fence.None? {
        return Spec.Failed(Spec.REGISTRY);
      }
      if v.fence != Some(k.fence) || v.planner != k.planner || Spec.Where(k) !in rows || rows[Spec.Where(k)] != k.reservation
         || !Spec.Reservable(k) {
        return Spec.Failed(Spec.DRIFT);
      }
      Commit(k, rows[Spec.Where(k)].(updated := k.at, error := Some(Spec.Submitting)), Spec.Intent(k));
      r := Spec.Done;
    }

    /** The checks every first disposition makes; Done when it may be recorded. */
    method Undisposed(k: Spec.IntentKey) returns (r: Spec.Reply, first: seq<Spec.Event>)
      ensures first == Spec.Rows(events, Spec.FirstRows(k))
      ensures r == if |Spec.Rows(events, Spec.IntentRows(k))| != 1 then Spec.Failed(Spec.INTENT_INVALID)
                   else if first != [] then Spec.Failed(Spec.CONFLICT) else Spec.Done
    {
      var intents := Select(Spec.IntentRows(k));
      first := Select(Spec.FirstRows(k));
      r := if |intents| != 1 then Spec.Failed(Spec.INTENT_INVALID)
           else if first != [] then Spec.Failed(Spec.CONFLICT) else Spec.Done;
    }

    method Revalidate(k: Spec.IntentKey, v: Spec.View, contractCurrent: bool, now: int) returns (r: Spec.Reply)
      requires Valid()
      modifies this
      ensures Valid() && Grows(old(events), events)
      ensures (Value(), r) == Spec.Revalidate(old(Value()), k, v, contractCurrent, now)
    {
      ghost var before := Value();
      RevalidateDisposes(before, k, v, contractCurrent, now);
      GrowsKeepsLog(before.events, Spec.Revalidate(before, k, v, contractCurrent, now).0.events);
      hide LogOk, Grows;
      var first;
      r, first := Undisposed(k);
      if r.Failed? {
        return;
      }
      if !Spec.HasRow(Value(), k, Spec.Marked(k, Spec.Submitting, k.at)) {
        return Spec.Failed(Spec.DRIFT);
      }
      if v.fence.None? {
        return Spec.Failed(Spec.REGISTRY);
      }
      if v.fence != Some(k.fence) || v.planner != k.planner || (k.fence.kind.Message? && !contractCurrent) {
        Commit(k, rows[Spec.Where(k)].(error := None, updated := now), Spec.Abandoned(k));
        return Spec.Done;
      }
      r := Spec.Clear;
    }

    method RecordAbandoned(k: Spec.IntentKey, now: int, progress: string) returns (r: Spec.Reply)
      requires Valid()
      modifies this
      ensures Valid() && Grows(old(events), events)
      ensures (Value(), r) == Spec.RecordAbandoned(old(Value()), k, now, progress)
    {
      ghost var before := Value();
      AbandonDisposes(before, k, now, progress);
      GrowsKeepsLog(before.events, Spec.RecordAbandoned(before, k, now, progress).0.events);
      hide LogOk, Grows;
      var first;
      r, first := Undisposed(k);
      if r.Failed? {
        if r.code == Spec.CONFLICT && first != [] && |first| == 1 && first[0].Abandoned? {
          var intents := Select(Spec.IntentRows(k));
          if |intents| == 1 { r := Spec.Unchanged; }
        }
        return;
      }
      if k.fence.kind.Watch? && progress != k.reservation.progress {
        return Spec.Unchanged;
      }
      if !Spec.HasRow(Value(), k, Spec.Marked(k, Spec.Submitting, k.at)) {
        return Spec.Failed(Spec.DRIFT);
      }
      Commit(k, Spec.AbandonedRow(k, now, progress), Spec.Abandoned(k));
      r := Spec.Done;
    }

    method RecordAmbiguous(k: Spec.IntentKey, now: int) returns (r: Spec.Reply)
      requires Valid()
      modifies this
      ensures Valid() && Grows(old(events), events)
      ensures (Value(), r) == Spec.RecordAmbiguous(old(Value()), k, now)
    {
      ghost var before := Value();
      AmbiguousDisposes(before, k, now);
      GrowsKeepsLog(before.events, Spec.RecordAmbiguous(before, k, now).0.events);
      hide LogOk, Grows;
      var intents := Select(Spec.IntentRows(k));
      if |intents| != 1 {
        return Spec.Failed(Spec.INTENT_INVALID);
      }
      var first := Select(Spec.FirstRows(k));
      if first != [] {
        return if |first| == 1 && first[0].Ambiguous? then Spec.Unchanged else Spec.Failed(Spec.CONFLICT);
      }
      if !Spec.HasRow(Value(), k, Spec.Marked(k, Spec.Submitting, k.at)) {
        return Spec.Failed(Spec.DRIFT);
      }
      Commit(k, rows[Spec.Where(k)].(updated := now, error := Some(Spec.AmbiguousMark)), Spec.Ambiguous(k, now));
      r := Spec.Done;
    }

    method RecordSubmission(receipt: Spec.ReceiptKey, now: int) returns (r: Spec.Reply)
      requires Valid()
      modifies this
      ensures Valid() && Grows(old(events), events)
      ensures (Value(), r) == Spec.RecordSubmission(old(Value()), receipt, now)
    {
      ghost var before := Value();
      SubmissionDisposes(before, receipt, now);
      GrowsKeepsLog(before.events, Spec.RecordSubmission(before, receipt, now).0.events);
      hide LogOk, Grows;
      var k := receipt.intent;
      var intents := Select(Spec.IntentRows(k));
      if |intents| != 1 {
        return Spec.Failed(Spec.INTENT_INVALID);
      }
      var first := Select(Spec.FirstRows(k));
      if first != [] {
        return if |first| == 1 && first[0].Submitted? && first[0].receipt == receipt then Spec.Unchanged else Spec.Failed(Spec.CONFLICT);
      }
      if !Spec.HasRow(Value(), k, Spec.Marked(k, Spec.Submitting, k.at)) {
        return Spec.Failed(Spec.DRIFT);
      }
      Commit(k, rows[Spec.Where(k)].(updated := now, error := Some(Spec.Pending)), Spec.Submitted(receipt, now));
      r := Spec.Done;
    }

    /** Attach an authenticated child, or hold the target. */
    method Finalize(receipt: Spec.ReceiptKey, now: int, seen: Spec.Observation, expire: bool, forced: bool) returns (r: Spec.Reply)
      requires Valid()
      modifies this
      ensures Valid() && Grows(old(events), events)
      ensures (Value(), r) == Spec.Finalize(old(Value()), receipt, now, seen, expire, forced)
    {
      ghost var before := Value();
      FinalizeDisposes(before, receipt, now, seen, expire, forced);
      GrowsKeepsLog(before.events, Spec.Finalize(before, receipt, now, seen, expire, forced).0.events);
      hide LogOk, Grows;
      var k := receipt.intent;
      var submitted := Select(Spec.SubmittedRows(receipt));
      if |submitted| != 1 {
        return Spec.Failed(Spec.SUBMISSION_INVALID);
      }
      var closed := Select(Spec.TerminalRows(receipt));
      if closed != [] {
        return if |closed| == 1 then Spec.Unchanged else Spec.Failed(Spec.ACK_INVALID);
      }
      var acknowledgement := if !forced && seen.Acknowledged? then Some(seen.process) else None;
      var rejection := if forced || seen.ObservedRejected? then Some("ROLE_EXECUTOR_CHILD_ACK_REJECTED")
                       else if seen.ObservedExpired? then Some("ROLE_EXECUTOR_CHILD_ACK_EXPIRED") else None;
      if acknowledgement.None? && rejection.None? {
        if !expire {
          return Spec.Unchanged;
        }
        rejection := Some("ROLE_EXECUTOR_CHILD_ACK_EXPIRED");
      }
      var intents := Select(Spec.IntentRows(k));
      if |intents| != 1 {
        return Spec.Failed(Spec.INTENT_INVALID);
      }
      if !Spec.HasRow(Value(), k, Spec.Marked(k, Spec.Pending, submitted[0].at)) {
        return Spec.Failed(Spec.DRIFT);
      }
      var row := rows[Spec.Where(k)];
      if acknowledgement.Some? {
        Commit(k, row.(process := acknowledgement, updated := now, error := None), Spec.Accepted(receipt));
      } else {
        var expired := !forced && !seen.ObservedRejected?;
        Commit(k, row.(state := Spec.Hold, process := None, updated := now, error := Some(Spec.Failure(rejection.value))),
               if expired then Spec.Expired(receipt) else Spec.Rejected(receipt));
      }
      r := Spec.Done;
    }

    method ResolveAmbiguous(k: Spec.IntentKey, now: int, evidence: bool, recovered: Option<int>) returns (r: Spec.Reply)
      requires Valid()
      modifies this
      ensures Valid() && Grows(old(events), events)
      ensures (Value(), r) == Spec.ResolveAmbiguous(old(Value()), k, now, evidence, recovered)
    {
      ghost var before := Value();
      ResolveDisposes(before, k, now, evidence, recovered);
      GrowsKeepsLog(before.events, Spec.ResolveAmbiguous(before, k, now, evidence, recovered).0.events);
      hide LogOk, Grows;
      var intents := Select(Spec.IntentRows(k));
      if |intents| != 1 {
        return Spec.Failed(Spec.INTENT_INVALID);
      }
      var first := Select(Spec.FirstRows(k));
      if |first| != 1 || !first[0].Ambiguous? {
        return Spec.Failed(Spec.CONFLICT);
      }
      var resolved := Select(Spec.ResolutionRows(k));
      if resolved != [] {
        return if |resolved| == 1 then Spec.Unchanged else Spec.Failed(Spec.ACK_INVALID);
      }
      if evidence {
        events := events + [Spec.TerminalResolved(k)];
        return Spec.Done;
      }
      if Spec.Where(k) !in rows {
        return Spec.Failed(Spec.DRIFT);
      }
      var row, expected := rows[Spec.Where(k)], Spec.Marked(k, Spec.AmbiguousMark, first[0].at);
      if row != expected && row != expected.(state := Spec.Hold, updated := row.updated) {
        return Spec.Failed(Spec.DRIFT);
      }
      if recovered.None? {
        if !row.state.Hold? {
          rows := rows[Spec.Where(k) := row.(state := Spec.Hold, updated := now)];
        }
        return Spec.Unchanged;
      }
      Commit(k, row.(state := k.reservation.state, process := recovered, updated := now, error := None), Spec.Recovered(k));
      r := Spec.Done;
    }

    method IsUnresolved(k: Spec.IntentKey) returns (open: bool)
      ensures open == Spec.Unresolved(events, k)
    {
      var first := Select(Spec.FirstRows(k));
      if first == [] {
        return true;
      }
      if first[0].Submitted? {
        var terminal := Select(Spec.TerminalRows(first[0].receipt));
        return terminal == [];
      }
      if first[0].Ambiguous? {
        var resolution := Select(Spec.ResolutionRows(k));
        return resolution == [];
      }
      open := false;
    }

    /** The scan that seeds a pass: what must not be submitted again. */
    method UnresolvedIntents() returns (targets: set<Spec.Target>, lineages: set<Spec.Lineage>)
      ensures targets == Spec.UnresolvedTargets(events) && lineages == Spec.UnresolvedLineages(events)
    {
      hide Spec.Unresolved, Spec.TargetOf;
      targets, lineages := {}, {};
      var i := 0;
      while i < |events|
        invariant 0 <= i <= |events|
        invariant targets == set j | 0 <= j < i && events[j].Intent? && Spec.Unresolved(events, events[j].key) :: Spec.TargetOf(events[j].key)
        invariant lineages == set j | 0 <= j < i && events[j].Intent? && Spec.Unresolved(events, events[j].key)
                                      && events[j].key.fence.lineage.Some? :: events[j].key.fence.lineage.value
      {
        if events[i].Intent? {
          var k := events[i].key;
          var open := IsUnresolved(k);
          if open {
            targets := targets + {Spec.TargetOf(k)};
            if k.fence.lineage.Some? {
              lineages := lineages + {k.fence.lineage.value};
            }
          }
        }
        i := i + 1;
      }
    }

  }

  /** A recorded intent is always allowed. */
  lemma IntentGrows(s: Spec.Store, k: Spec.IntentKey, v: Spec.View)
    requires LogOk(s.events)
    ensures Grows(s.events, Spec.RecordIntent(s, k, v).0.events) && LogOk(Spec.RecordIntent(s, k, v).0.events)
  {
    RecordIntentAppends(s, k, v);
    GrowsByOne(s.events, Spec.Intent(k));
    GrowsKeepsLog(s.events, Spec.RecordIntent(s, k, v).0.events);
  }

  /** The process manager: it remembers every submission, and says what it likes. */
  class Manager {
    var submitted: seq<Spec.IntentKey>
    const answers: nat -> Spec.CallResult

    constructor (answers: nat -> Spec.CallResult)
      ensures submitted == [] && this.answers == answers
    {
      submitted := [];
      this.answers := answers;
    }

    method Submit(k: Spec.IntentKey) returns (r: Spec.CallResult)
      modifies this
      ensures submitted == old(submitted) + [k] && r == answers(old(|submitted|))
    {
      r := answers(|submitted|);
      submitted := submitted + [k];
    }
  }

  /** The supervisor over its store and the manager.  Every method is a step of the protocol, and the
      manager's own record is the record of calls. */
  class Supervisor {
    const lin: Spec.Lineages
    const store: CoordinationStore
    const manager: Manager
    var phase: Spec.Phase
    ghost var submits: seq<Spec.Submit>

    ghost function World(): Spec.World
      reads this, store
    {
      Spec.World(store.Value(), phase, submits)
    }

    ghost predicate Valid()
      reads this, store, manager
    {
      && store.Valid() && WorldOk(lin, World()) && Truthful(World())
      && |submits| == |manager.submitted|
      && forall i :: 0 <= i < |submits| ==> submits[i].key == manager.submitted[i] && submits[i].result == manager.answers(i)
    }

    constructor (lin: Spec.Lineages, store: CoordinationStore, manager: Manager)
      requires store.Valid() && store.Value() == Spec.START.store && manager.submitted == []
      ensures Valid() && this.lin == lin && this.store == store && this.manager == manager && World() == Spec.START
    {
      this.lin, this.store, this.manager := lin, store, manager;
      phase, submits := Spec.Idle, [];
    }

    /** No intent reached the manager twice. */
    lemma SubmittedOnce(i: nat, j: nat)
      requires Valid() && i < j < |manager.submitted|
      ensures manager.submitted[i] != manager.submitted[j]
    {
      hide LogOk, PhaseOk, LineagesOk;
      assert submits[i].key != submits[j].key;
    }

    /** What the log says of a submission is what the manager answered. */
    lemma BoundAsAnswered(i: nat)
      requires Valid() && i < |manager.submitted|
      ensures var first := Spec.Rows(store.events, Spec.FirstRows(manager.submitted[i]));
              first != [] ==>
                && (first[0].Abandoned? ==> manager.answers(i) == Spec.CallResult.NotSubmitted)
                && (first[0].Submitted? ==> manager.answers(i) == Spec.Receipt(first[0].receipt.manager))
    {
      hide WorldOk, LogOk, Spec.Rows;
      assert AnswerKept(World().store.events, submits[i]);
    }

    method Crash()
      requires Valid()
      modifies this`phase
      ensures Valid() && World() == Spec.Next(lin, old(World()), Spec.Crash)
    {
      StepKeeps(lin, World(), Spec.Crash);
      phase := Spec.Idle;
    }

    method StartPass()
      requires Valid()
      modifies this`phase
      ensures Valid() && World() == Spec.Next(lin, old(World()), Spec.StartPass)
    {
      StepKeeps(lin, World(), Spec.StartPass);
      if phase.Idle? { phase := Spec.Reconciling; }
    }

    method ReconcileUnbound(k: Spec.IntentKey, now: int)
      requires Valid()
      modifies store
      ensures Valid() && World() == Spec.Next(lin, old(World()), Spec.ReconcileUnbound(k, now))
    {
      hide WorldOk, Truthful, LogOk, Spec.RecordAmbiguous;
      StepKeeps(lin, World(), Spec.ReconcileUnbound(k, now));
      if phase.Reconciling? { var _ := store.RecordAmbiguous(k, now); }
    }

    method ReconcileAmbiguous(k: Spec.IntentKey, now: int, evidence: bool, recovered: Option<int>)
      requires Valid()
      modifies store
      ensures Valid() && World() == Spec.Next(lin, old(World()), Spec.ReconcileAmbiguous(k, now, evidence, recovered))
    {
      hide WorldOk, Truthful, LogOk, Spec.ResolveAmbiguous;
      StepKeeps(lin, World(), Spec.ReconcileAmbiguous(k, now, evidence, recovered));
      if phase.Reconciling? { var _ := store.ResolveAmbiguous(k, now, evidence, recovered); }
    }

    method ReconcilePending(receipt: Spec.ReceiptKey, now: int, seen: Spec.Observation, expire: bool)
      requires Valid()
      modifies store
      ensures Valid() && World() == Spec.Next(lin, old(World()), Spec.ReconcilePending(receipt, now, seen, expire))
    {
      hide WorldOk, Truthful, LogOk, Spec.Finalize;
      StepKeeps(lin, World(), Spec.ReconcilePending(receipt, now, seen, expire));
      if phase.Reconciling? { var _ := store.Finalize(receipt, now, seen, expire, false); }
    }

    /** Seed the pass with everything that must not be submitted again. */
    method Snapshot(due: set<Spec.Lineage>)
      requires Valid()
      modifies this`phase
      ensures Valid() && World() == Spec.Next(lin, old(World()), Spec.Snapshot(due))
    {
      hide WorldOk, Truthful, LogOk, Spec.UnresolvedTargets, Spec.UnresolvedLineages;
      StepKeeps(lin, World(), Spec.Snapshot(due));
      if phase.Reconciling? {
        var targets, lineages := store.UnresolvedIntents();
        phase := Spec.Scheduling(Spec.Pass(false, targets, {}, lineages, due, {}, Spec.Nothing));
      }
    }

    method BeginWatches()
      requires Valid()
      modifies this`phase
      ensures Valid() && World() == Spec.Next(lin, old(World()), Spec.BeginWatches)
    {
      hide WorldOk, Truthful, LogOk;
      StepKeeps(lin, World(), Spec.BeginWatches);
      if phase.Scheduling? && phase.pass.current.Nothing? {
        phase := Spec.Scheduling(phase.pass.(watching := true));
      }
    }

    /** One row of the message or watch loop, up to the reservation. */
    method Schedule(t: Spec.Target, launch: bool)
      requires Valid()
      modifies this`phase
      ensures Valid() && World() == Spec.Next(lin, old(World()), Spec.Schedule(t, launch))
    {
      hide WorldOk, Truthful, LogOk;
      StepKeeps(lin, World(), Spec.Schedule(t, launch));
      if !phase.Scheduling? { return; }
      var p := phase.pass;
      if !p.current.Nothing? || t.kind.Watch? != p.watching || t.key in p.visited { return; }
      if t.kind.Watch? {
        p := p.(visited := p.visited + {t.key});
      }
      if !Spec.LineageBusy(lin, p, t) && t !in p.scheduledTargets && t !in p.submissionTargets {
        p := p.(scheduledTargets := p.scheduledTargets + {t});
        if launch {
          var l := Spec.LineageOf(lin, t);
          if t.kind.Message? && l.Some? {
            p := p.(scheduledLineages := p.scheduledLineages + {l.value});
          }
          p := p.(current := Spec.Reserved(t));
        }
      }
      phase := Spec.Scheduling(p);
    }

    method Record(k: Spec.IntentKey, v: Spec.View)
      requires Valid()
      modifies this`phase, store
      ensures Valid() && World() == Spec.Next(lin, old(World()), Spec.Record(k, v))
    {
      hide WorldOk, Truthful, LogOk, Spec.RecordIntent;
      StepKeeps(lin, World(), Spec.Record(k, v));
      if !phase.Scheduling? || !phase.pass.current.Reserved? || phase.pass.current.target != Spec.TargetOf(k)
         || k.fence.lineage != Spec.LineageOf(lin, Spec.TargetOf(k)) {
        return;
      }
      var r := store.RecordIntent(k, v);
      phase := Spec.Scheduling(phase.pass.(current := if r.Done? then Spec.Recorded(k) else Spec.Nothing));
    }

    /** Record a transaction's outcome, or fence the intent when it failed. */
    method HoldOnFailure(r: Spec.Reply, k: Spec.IntentKey, now: int, ghost tx: (Spec.Store, Spec.Reply))
      requires store.Valid() && tx == (store.Value(), r)
      modifies store
      ensures store.Valid() && store.Value() == Spec.OrHold(tx, k, now)
    {
      hide LogOk, Spec.RecordAmbiguous;
      if r.Failed? { var _ := store.RecordAmbiguous(k, now); }
    }

    /** The last check before the call. */
    method Revalidate(v: Spec.View, contractCurrent: bool, now: int)
      requires Valid()
      modifies this`phase, store
      ensures Valid() && World() == Spec.Next(lin, old(World()), Spec.Revalidated(v, contractCurrent, now))
    {
      hide WorldOk, Truthful, LogOk, Spec.Revalidate, Spec.OrHold;
      StepKeeps(lin, World(), Spec.Revalidated(v, contractCurrent, now));
      if !phase.Scheduling? || !phase.pass.current.Recorded? { return; }
      var k := phase.pass.current.key;
      ghost var tx := Spec.Revalidate(store.Value(), k, v, contractCurrent, now);
      var r := store.Revalidate(k, v, contractCurrent, now);
      HoldOnFailure(r, k, now, tx);
      phase := Spec.Scheduling(phase.pass.(current := if r.Clear? then Spec.Cleared(k) else Spec.Nothing));
    }

    /** The external call: only for a cleared intent, and the manager sees exactly that intent. */
    method CallManager() returns (ghost result: Spec.CallResult)
      requires Valid()
      modifies this`phase, this`submits, manager
      ensures Valid() && World() == Spec.Next(lin, old(World()), Spec.CallSubmit(result))
      ensures manager.submitted == old(manager.submitted)
                + (if old(phase).Scheduling? && old(phase).pass.current.Cleared? then [old(phase).pass.current.key] else [])
    {
      hide WorldOk, Truthful, LogOk;
      result := Spec.Unclear;
      if !phase.Scheduling? || !phase.pass.current.Cleared? {
        return;
      }
      var k := phase.pass.current.key;
      var r := manager.Submit(k);
      result := r;
      StepKeeps(lin, World(), Spec.CallSubmit(r));
      phase := Spec.Scheduling(phase.pass.(current := Spec.Called(k, r)));
      submits := submits + [Spec.Submit(k, |store.events|, r)];
    }

    /** Bind what the manager said. */
    method Bind(now: int, progress: string)
      requires Valid()
      modifies this`phase, store
      ensures Valid() && World() == Spec.Next(lin, old(World()), Spec.Bind(now, progress))
    {
      hide WorldOk, Truthful, LogOk, Spec.RecordAbandoned, Spec.RecordAmbiguous, Spec.RecordSubmission, Spec.OrHold;
      StepKeeps(lin, World(), Spec.Bind(now, progress));
      if !phase.Scheduling? || !phase.pass.current.Called? { return; }
      var k, result := phase.pass.current.key, phase.pass.current.result;
      var r;
      var next := Spec.Nothing;
      ghost var s := store.Value();
      match result {
        case NotSubmitted =>
          r := store.RecordAbandoned(k, now, progress);
          HoldOnFailure(r, k, now, Spec.RecordAbandoned(s, k, now, progress));
        case Unclear =>
          r := store.RecordAmbiguous(k, now);
          HoldOnFailure(r, k, now, Spec.RecordAmbiguous(s, k, now));
        case Receipt(m) =>
          r := store.RecordSubmission(Spec.ReceiptKey(k, m), now);
          HoldOnFailure(r, k, now, Spec.RecordSubmission(s, Spec.ReceiptKey(k, m), now));
          if !r.Failed? { next := Spec.Waiting(Spec.ReceiptKey(k, m)); }
      }
      phase := Spec.Scheduling(phase.pass.(current := next));
    }

    method FinalizeCurrent(now: int, seen: Spec.Observation, forced: bool)
      requires Valid()
      modifies this`phase, store
      ensures Valid() && World() == Spec.Next(lin, old(World()), Spec.FinalizeCurrent(now, seen, forced))
    {
      hide WorldOk, Truthful, LogOk, Spec.Finalize;
      StepKeeps(lin, World(), Spec.FinalizeCurrent(now, seen, forced));
      if !phase.Scheduling? || !phase.pass.current.Waiting? { return; }
      var _ := store.Finalize(phase.pass.current.receipt, now, seen, false, forced);
      phase := Spec.Scheduling(phase.pass.(current := Spec.Nothing));
    }

    /** From a recorded intent to its bound outcome: at most one call, for that intent. */
    method Launch(v: Spec.View, contractCurrent: bool, now: int, progress: string)
      requires Valid()
      modifies this, store, manager
      ensures Valid() && |manager.submitted| <= old(|manager.submitted|) + 1 && old(manager.submitted) <= manager.submitted
      ensures old(phase).Scheduling? && old(phase).pass.current.Recorded? && |manager.submitted| > old(|manager.submitted|) ==>
        manager.submitted[|manager.submitted|-1] == old(phase).pass.current.key
    {
      hide WorldOk, Truthful, LogOk, Spec.Revalidate, Spec.OrHold, Spec.RecordAbandoned, Spec.RecordAmbiguous, Spec.RecordSubmission;
      Revalidate(v, contractCurrent, now);
      ghost var _ := CallManager();
      Bind(now, progress);
    }
  }
}
