/** The budgeted loops and the retry tables are steps of the submission protocol. */
module PassRefinement {
  import opened Prelude
  import Sub = SubmissionSpec
  import opened LaunchPass
  import RetryBudget

  /** The loop's state and the protocol's pass agree on what has been scheduled; the loop may have
      struck off more lineages. */
  ghost predicate Mirrors(f: Fences, st: State, p: Sub.Pass) {
    && p.scheduledTargets == st.targets && p.submissionTargets == f.targets && p.dueLineages == f.dueLineages
    && p.scheduledLineages <= st.lineages && p.current.Nothing?
  }

  /** What a message row does to the protocol's pass. */
  ghost function MessageSteps(lin: Sub.Lineages, f: Fences, st: State, m: Candidate, p: Sub.Pass): Sub.Pass {
    if MessageBlocked(f, st, m) then p
    else Sub.Scheduled(lin, p, MessageTarget(m.role, m.key), !m.running && m.reserves)
  }

  /** Every row of the message loop is at most one scheduling step, and a launch is a reservation. */
  lemma MessageLoopRefines(lin: Sub.Lineages, f: Fences, st: State, m: Candidate, p: Sub.Pass)
    requires Mirrors(f, st, p) && Sub.LineageOf(lin, MessageTarget(m.role, m.key)) == m.lineage
    ensures var q := MessageSteps(lin, f, st, m, p);
            && (q.current == Sub.Reserved(MessageTarget(m.role, m.key)) <==> StepMessage(f, st, m).messages != st.messages)
            && Mirrors(f, StepMessage(f, st, m), q.(current := Sub.Nothing))
  {
    hide Retries;
  }

  ghost function WatchSteps(lin: Sub.Lineages, f: Fences, st: State, w: WatchRow, p: Sub.Pass): Sub.Pass {
    if WatchBlocked(f, st, w) then p
    else Sub.Scheduled(lin, p, WatchTarget(w.role, w.key), !w.running && w.reserves)
  }

  lemma WatchLoopRefines(lin: Sub.Lineages, f: Fences, st: State, w: WatchRow, p: Sub.Pass)
    requires Mirrors(f, st, p) && Sub.LineageOf(lin, WatchTarget(w.role, w.key)) == w.lineage
    ensures var q := WatchSteps(lin, f, st, w, p);
            && (q.current == Sub.Reserved(WatchTarget(w.role, w.key)) <==> StepWatch(f, st, w).watches != st.watches)
            && Mirrors(f, StepWatch(f, st, w), q.(current := Sub.Nothing))
  {
  }

  /** The retry columns of a wake row. */
  function WakeOf(row: Sub.Row, payload: string): RetryBudget.Wake {
    RetryBudget.Wake(if row.state.Inflight? then RetryBudget.Inflight else if row.state.Hold? then RetryBudget.Held else RetryBudget.Complete,
                     payload, row.progress, row.attempts, row.lastAttempt)
  }

  /** Abandoning a submission restarts a wake's budget exactly when the target progressed; otherwise
      only the state may move. */
  lemma AbandonIsABudgetStep(k: Sub.IntentKey, now: int, progress: string, payload: string, marks: seq<RetryBudget.Mark>)
    requires k.fence.kind.Message? && k.reservation.state.Inflight?
    ensures var before := RetryBudget.WakeRun(Some(WakeOf(k.reservation, payload)), marks);
            var after := WakeOf(Sub.AbandonedRow(k, now, progress), payload);
            after == if progress != k.reservation.progress then RetryBudget.WakeStep(before, RetryBudget.FailedAfterProgress(now, progress)).wake.value
                     else RetryBudget.WakeStep(before, RetryBudget.Restate(after.state)).wake.value
  {
  }
}
