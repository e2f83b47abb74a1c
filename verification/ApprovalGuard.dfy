/** The execution guard: which decision, if any, a query may act on.  It reads the ledger's tables
    and re-derives every binding for itself. */
module ApprovalGuard {
  import opened Prelude
  import opened ApprovalSpec

  /** `authority` names a decision, `comment` a published receipt; the other options narrow the
      proposals that are considered. */
  datatype Query = Query(
    repository: string, issue: int, actor: string, scope: Option<string>, authority: Option<Record>, comment: Option<string>,
    proposal: Option<Semantic>, workstream: Option<string>, boundary: Option<string>, role: Option<string>, required: bool)

  datatype GuardReply = Denied(code: string) | Standing | Granted(proposal: Semantic, recipient: string)

  predicate InCurrent(l: Ledger, p: Semantic) {
    exists k :: k in l.current && l.current[k] == p
  }

  predicate Considered(l: Ledger, q: Query, p: Semantic) {
    && p in l.proposals && InCurrent(l, p) && Where(p.key) == (q.repository, q.issue)
    && (q.proposal.Some? ==> q.proposal.value == p)
    && (q.workstream.Some? ==> exists s :: s in l.submissions && SemanticOf(s) == p && s.workstream == q.workstream.value)
    && (q.boundary.Some? ==> q.boundary.value == p.boundary)
  }

  /** The stored packet must digest to the proposal it is filed under. */
  predicate BoundProposal(l: Ledger, p: Semantic)
    requires p in l.proposals
  {
    SemanticOf(l.proposals[p].packet) == p
  }

  function ProposalError(l: Ledger, ps: set<Semantic>): Option<string>
    requires forall p :: p in ps ==> p in l.proposals
  {
    if exists p :: p in ps && !BoundProposal(l, p) then Some("APPROVAL_PROPOSAL_BINDING_INVALID")
    else if exists p :: p in ps && Quarantined(l, p.schema) then Some("LEGACY_AUTHORITY_HOLD")
    else None
  }

  /** The re-validation of a decision against its frozen batch and its user event. */
  predicate FrozenBatchDecision(batches: set<Batch>, events: map<string, UserEvent>, d: Record, recipient: string) {
    && d.event in events && d.batch in batches
    && events[d.event].batch == Some(d.batch) && events[d.event].answers == Some(d.answers)
    && d.batch.repository == d.proposal.key.repository
    && |EntriesFor(d.batch, d.proposal)| == 1 && FrozenEntry(EntriesFor(d.batch, d.proposal)[0], d, recipient)
    && d.answers.batch == d.batch
    && |AnswersFor(d.answers.answers, d.proposal)| == 1 && AnswersFor(d.answers.answers, d.proposal)[0].choice == d.choice
  }

  predicate FrozenEntry(e: Entry, d: Record, recipient: string) {
    && e.source == d.proposal.source && e.scope == d.scope && e.recipients == d.recipients && e.choices == d.choices
    && recipient in e.recipients
    && |ChoicesWith(e.choices, d.choice)| == 1 && ChoicesWith(e.choices, d.choice)[0].outcome == d.verdict
    && d.outcome == d.verdict
  }

  /** The joined row of proposal, decision, delivery, effectivity and outbox, not revoked. */
  predicate Matches(l: Ledger, q: Query, k: (Semantic, string)) {
    && k in l.deliveries && Considered(l, q, k.0) && k.0 in l.decisions && k.0 in l.effectivity
    && var d := l.decisions[k.0].record;
       && l.deliveries[k].record == d && l.effectivity[k.0].record == d && l.decisions[k.0].outbox in l.outbox
       && !(d in l.revocations && l.revocations[d].proposal == k.0)
       && (q.authority == Some(d) || (q.comment.Some? && q.comment.value == Receipt(l, k.0)))
  }

  function RoleMatches(l: Ledger, g: Registry, q: Query): set<(Semantic, string)> {
    set k | k in l.deliveries && Matches(l, q, k) && Equivalent(g, k.1, q.actor)
  }

  /** The considered proposals that anyone, or the actor's role, has an interest in. */
  function InterestIn(l: Ledger, q: Query): (ps: set<Semantic>)
    ensures forall p :: p in ps ==> p in l.proposals
  {
    set k | k in l.interests && Considered(l, q, k.0) :: k.0
  }

  function InterestOf(l: Ledger, g: Registry, q: Query): (ps: set<Semantic>)
    ensures forall p :: p in ps ==> p in l.proposals
  {
    set k | k in l.interests && Considered(l, q, k.0) && Equivalent(g, k.1, q.actor) :: k.0
  }

  /** The last checks on the one matching row. */
  function MatchError(l: Ledger, g: Registry, q: Query, k: (Semantic, string)): Option<string>
    requires Matches(l, q, k)
  {
    var d := l.decisions[k.0].record;
    var e := l.effectivity[k.0];
    if !BoundProposal(l, k.0) then Some("APPROVAL_PROPOSAL_BINDING_INVALID")
    else if Quarantined(l, k.0.schema) then Some("LEGACY_AUTHORITY_HOLD")
    else if q.scope != Some(d.scope) then Some("APPROVAL_EXECUTION_SCOPE_MISMATCH")
    else if !FrozenBatchDecision(l.batches, l.events, d, k.1) then Some("APPROVAL_BATCH_BINDING_INVALID")
    else if q.role.Some? && !(g.role(d.planner) == q.role && Equivalent(g, d.planner, q.actor)) then
      Some("APPROVAL_PLANNER_IDENTITY_MISMATCH")
    else if !d.verdict.Approve? then Some("APPROVAL_DECISION_NOT_APPROVED")
    else if !(l.deliveries[k].state.Claimed? || l.deliveries[k].state.Acknowledged?) then Some("APPROVAL_DELIVERY_NOT_CLAIMED")
    else if !l.outbox[l.decisions[k.0].outbox].complete || Receipt(l, k.0) == "" || Receipt(l, k.0) != e.receipt then
      Some("APPROVAL_PUBLICATION_INCOMPLETE")
    else if Where(k.0.key) !in l.sources || l.sources[Where(k.0.key)].stable != e.source then Some("APPROVAL_EFFECTIVE_SOURCE_DRIFT")
    else None
  }

  lemma OnlyMember<T>(s: set<T>, x: T, y: T)
    requires |s| == 1 && x in s && y in s
    ensures x == y
  {
    var rest := s - {x};
    assert |rest| == 0;
    assert y !in rest;
  }

  function RequireEffective(l: Ledger, g: Registry, q: Query): GuardReply {
    if q.role.Some? && g.endpoint(q.role.value) != Some(q.actor) then Denied("APPROVAL_CURRENT_RECIPIENT_REQUIRED")
    else
      var all, mine := InterestIn(l, q), InterestOf(l, g, q);
      if q.proposal.Some? && ProposalError(l, all).Some? then Denied(ProposalError(l, all).value)
      else if ProposalError(l, mine).Some? then Denied(ProposalError(l, mine).value)
      else if mine == {} then if q.required then Denied("APPROVAL_DECISION_REQUIRED") else Standing
      else if q.scope.None? then Denied("APPROVAL_EXECUTION_SCOPE_MISSING")
      else if q.authority.None? && q.comment.None? then Denied("APPROVAL_AUTHORITY_BINDING_MISSING")
      else
        var rows := RoleMatches(l, g, q);
        if |rows| > 1 then Denied("APPROVAL_AUTHORITY_AMBIGUOUS")
        else if |rows| == 0 then Denied("APPROVAL_AUTHORITY_MISMATCH")
        else
          assert forall x, y :: x in rows && y in rows ==> x == y by {
            forall x, y | x in rows && y in rows ensures x == y { OnlyMember(rows, x, y); }
          }
          var k :| k in rows;
          var error := MatchError(l, g, q, k);
          if error.Some? then Denied(error.value) else Granted(k.0, k.1)
  }
}
