/** Safety of the approval ledger and its guard over every run. */
module ApprovalTheorems {
  import opened Prelude
  import opened ApprovalSpec
  import opened ApprovalGuard
  import opened ApprovalProofs

  lemma {:induction false} RunKeeps(l: Ledger, ops: seq<Op>)
    requires Inv(l)
    ensures Inv(Run(l, ops))
    decreases |ops|
  {
    hide Inv, Step;
    if ops != [] {
      StepKeeps(l, ops[0]);
      RunKeeps(Step(l, ops[0]).0, ops[1..]);
    }
  }

  lemma Reachable(ops: seq<Op>)
    ensures Inv(Run(EMPTY, ops))
  {
    hide Run;
    assert Inv(EMPTY);
    RunKeeps(EMPTY, ops);
  }

  // ---- Lost authority --------------------------------------------------------------------

  /** Revoked, superseded, or a version 1 proposal under the version 2 contract. */
  ghost predicate Lost(l: Ledger, d: Record) {
    || d in l.revocations
    || (d.proposal in l.proposals && !IsCurrent(l, d.proposal))
    || Quarantined(l, d.proposal.schema)
  }

  /** The current pointer moves only to a proposal never seen before. */
  lemma PointerMoves(l: Ledger, op: Op, p: Semantic)
    requires Inv(l) && p in l.proposals && !IsCurrent(l, p)
    ensures !IsCurrent(Step(l, op).0, p)
  {
    if op.OpSubmit? {
      SubmitPointer(l, op.packet, op.readinessBound, p);
    } else {
      PointerStays(l, op);
    }
  }

  lemma SubmitPointer(l: Ledger, packet: Packet, bound: bool, p: Semantic)
    requires p in l.proposals && !IsCurrent(l, p)
    ensures !IsCurrent(Submit(l, packet, bound).0, p)
  {
    hide Submit, HasOpen, SemanticOf, RecordInterest, NewProposal;
    SubmitCases(l, packet, bound);
    var s := SemanticOf(packet);
    PointerOf(l, s, packet);
    if s.key in l.current ==> l.current[s.key] in l.proposals { PointerOf(NewProposal(l, s, packet), s, packet); }
  }

  lemma PointerStays(l: Ledger, op: Op)
    requires Inv(l) && !op.OpSubmit?
    ensures Step(l, op).0.current == l.current
  {
    hide Inv, Step;
    if op.OpClaimIn? || op.OpClaim? || op.OpAcknowledge? || op.OpHoldDelivery? {
      ConsumePointer(l, op);
    } else {
      WritesAside(l, op);
    }
  }

  /** Only a submission moves pointers and interests. */
  ghost predicate SamePointers(l: Ledger, m: Ledger) {
    m.current == l.current && m.interests == l.interests && m.submissions == l.submissions
  }

  lemma WritesAside(l: Ledger, op: Op)
    requires op.OpBatch? || op.OpDecide? || op.OpRevoke? || op.OpActivate? || op.OpPublish? || op.OpSource?
    ensures SamePointers(l, Step(l, op).0)
  {
    hide Step;
    match op
    case OpBatch(g, b) => BatchAside(l, g, b);
    case OpDecide(g, q, routed) => DecideAside(l, g, q, routed);
    case OpRevoke(g, p, d, reason, input, event, planner) => RevokeAside(l, g, p, d, reason, input, event, planner);
    case OpActivate(authority, drift) => ActivateAside(l, authority, drift);
    case OpPublish(id, receipt) => PublishAside(l, id, receipt);
    case OpSource(where, source) => SourceAside(l, where, source);
    case _ => assert false;
  }

  lemma BatchAside(l: Ledger, g: Registry, b: Batch)
    ensures var m := Step(l, OpBatch(g, b)).0; SamePointers(l, m)
  {
    hide CreateBatch, SamePointers;
    FrozenAside(l, g, b);
  }

  lemma FrozenAside(l: Ledger, g: Registry, b: Batch)
    ensures SamePointers(l, CreateBatch(l, g, b).0)
  {
    hide BatchFor, SamePointers;
    BatchesAside(l, l.batches);
    BatchesAside(l, l.batches + {b});
    assert l == l.(batches := l.batches);
  }

  lemma BatchesAside(l: Ledger, batches: set<Batch>)
    ensures SamePointers(l, l.(batches := batches))
  {
  }

  lemma ActivateAside(l: Ledger, authority: string, drift: bool)
    ensures var m := Step(l, OpActivate(authority, drift)).0; SamePointers(l, m)
  {
    hide Activate, SamePointers;
    ActivatedAside(l, authority, drift);
  }

  lemma ActivatedAside(l: Ledger, authority: string, drift: bool)
    ensures SamePointers(l, Activate(l, authority, drift).0)
  {
  }

  lemma PublishAside(l: Ledger, id: nat, receipt: string)
    ensures var m := Step(l, OpPublish(id, receipt)).0; SamePointers(l, m)
  {
  }

  lemma SourceAside(l: Ledger, where: (string, int), source: Payload)
    ensures var m := Step(l, OpSource(where, source)).0; SamePointers(l, m)
  {
  }

  lemma DecideAside(l: Ledger, g: Registry, q: Request, routed: seq<string>)
    ensures var m := Step(l, OpDecide(g, q, routed)).0; SamePointers(l, m)
  {
    hide RecordDecision, Admit, NewDeliveries;
    DecideCases(l, g, q, routed);
  }

  lemma RevokeAside(l: Ledger, g: Registry, p: Semantic, d: Record, reason: string, input: string, event: string, planner: string)
    ensures var m := Step(l, OpRevoke(g, p, d, reason, input, event, planner)).0; SamePointers(l, m)
  {
    hide Revoke, HoldOpen;
    RevokeCases(l, g, p, d, reason, input, event, planner);
  }

  lemma ConsumePointer(l: Ledger, op: Op)
    requires Inv(l) && (op.OpClaimIn? || op.OpClaim? || op.OpAcknowledge? || op.OpHoldDelivery?)
    ensures Step(l, op).0.current == l.current
  {
    hide Inv, Step, Grows;
    if op.OpHoldDelivery? { HoldStepKeeps(l, op); } else { ConsumeKeeps(l, op); }
  }

  lemma LostStays(l: Ledger, op: Op, d: Record)
    requires Inv(l) && Lost(l, d)
    ensures Lost(Step(l, op).0, d)
  {
    hide Inv, Step;
    StepKeeps(l, op);
    if d.proposal in l.proposals && !IsCurrent(l, d.proposal) { PointerMoves(l, op, d.proposal); }
  }

  lemma {:induction false} LostForever(l: Ledger, ops: seq<Op>, d: Record)
    requires Inv(l) && Lost(l, d)
    ensures Lost(Run(l, ops), d) && Inv(Run(l, ops))
    decreases |ops|
  {
    hide Inv, Step, Lost;
    if ops != [] {
      StepKeeps(l, ops[0]);
      LostStays(l, ops[0], d);
      LostForever(Step(l, ops[0]).0, ops[1..], d);
    }
  }

  /** What a grant rests on. */
  lemma GrantedRow(l: Ledger, g: Registry, q: Query)
    requires RequireEffective(l, g, q).Granted?
    ensures var k := (RequireEffective(l, g, q).proposal, RequireEffective(l, g, q).recipient);
            Matches(l, q, k) && Equivalent(g, k.1, q.actor) && MatchError(l, g, q, k).None?
  {
    hide Matches, MatchError, ProposalError, Considered;
  }

  lemma GrantIsNotLost(l: Ledger, g: Registry, q: Query)
    requires Inv(l) && RequireEffective(l, g, q).Granted?
    ensures var p := RequireEffective(l, g, q).proposal;
            p in l.decisions && !Lost(l, l.decisions[p].record)
  {
    hide RequireEffective, FrozenBatchDecision;
    GrantedRow(l, g, q);
    var p := RequireEffective(l, g, q).proposal;
    assert DecisionOk(l, p);
    CurrentKnown(l);
  }

  /** Once a decision is revoked, its proposal superseded or its version quarantined, no query on
      any later state is granted by it. */
  lemma LostAuthorityIsNeverRegained(before: seq<Op>, after: seq<Op>, g: Registry, q: Query, d: Record)
    requires Lost(Run(EMPTY, before), d)
    ensures var m := Run(Run(EMPTY, before), after);
            var reply := RequireEffective(m, g, q);
            reply.Granted? ==> reply.proposal in m.decisions && m.decisions[reply.proposal].record != d
  {
    hide Run, Inv, RequireEffective, Lost;
    Reachable(before);
    LostForever(Run(EMPTY, before), after, d);
    var m := Run(Run(EMPTY, before), after);
    if RequireEffective(m, g, q).Granted? { GrantIsNotLost(m, g, q); }
  }

  /** Every grant is a user's own answer: the event behind it holds one answer for the proposal, that
      choice was offered in the frozen batch, and its outcome is APPROVE. */
  lemma GrantWasAnswered(l: Ledger, g: Registry, q: Query)
    requires RequireEffective(l, g, q).Granted?
    ensures var p := RequireEffective(l, g, q).proposal;
            && p in l.decisions
            && var d := l.decisions[p].record;
               && d.event in l.events && l.events[d.event].answers == Some(d.answers)
               && |AnswersFor(d.answers.answers, d.proposal)| == 1
               && |EntriesFor(d.batch, d.proposal)| == 1
               && var offered := ChoicesWith(EntriesFor(d.batch, d.proposal)[0].choices, AnswersFor(d.answers.answers, d.proposal)[0].choice);
                  |offered| == 1 && offered[0].outcome == Approve
  {
    hide RequireEffective;
    GrantedRow(l, g, q);
  }

  // ---- Deliveries ------------------------------------------------------------------------

  /** Only the current, unrevoked proposal of a decision key has open deliveries. */
  lemma OpenDeliveriesAreCurrent(ops: seq<Op>, k: (Semantic, string))
    requires k in Run(EMPTY, ops).deliveries && Open(Run(EMPTY, ops).deliveries[k].state)
    ensures var l := Run(EMPTY, ops);
            && IsCurrent(l, k.0) && k.0 in l.decisions && l.deliveries[k].record == l.decisions[k.0].record
            && l.decisions[k.0].record !in l.revocations
  {
    hide Run, DecisionOk;
    Reachable(ops);
    assert DeliveryOk(Run(EMPTY, ops), k);
  }

  /** HOLD and ACKNOWLEDGED are absorbing. */
  lemma {:induction false} ClosedStaysClosed(l: Ledger, ops: seq<Op>, k: (Semantic, string))
    requires Inv(l) && k in l.deliveries && !Open(l.deliveries[k].state)
    ensures k in Run(l, ops).deliveries && Run(l, ops).deliveries[k].state == l.deliveries[k].state
    decreases |ops|
  {
    hide Inv, Step;
    if ops != [] {
      StepKeeps(l, ops[0]);
      var m := Step(l, ops[0]).0;
      assert k in m.deliveries.Keys;
      ClosedStaysClosed(m, ops[1..], k);
    }
  }

  // ---- The supersedes chain --------------------------------------------------------------

  /** The proposals a proposal descends from, itself first. */
  ghost function Lineage(l: Ledger, p: Semantic): seq<Semantic>
    requires ChainOk(l.proposals, l.current) && p in l.proposals
    decreases Max(0, l.proposals[p].generation)
  {
    assert ProposalOk(l.proposals, l.current, p);
    if l.proposals[p].supersedes.None? then [p] else [p] + Lineage(l, l.proposals[p].supersedes.value)
  }

  lemma {:induction false} LineageFacts(l: Ledger, p: Semantic)
    requires ChainOk(l.proposals, l.current) && p in l.proposals
    ensures |Lineage(l, p)| == l.proposals[p].generation
    ensures forall i :: 0 <= i < |Lineage(l, p)| ==>
              Lineage(l, p)[i] in l.proposals && Lineage(l, p)[i].key == p.key
              && l.proposals[Lineage(l, p)[i]].generation == l.proposals[p].generation - i
    decreases Max(0, l.proposals[p].generation)
  {
    assert ProposalOk(l.proposals, l.current, p);
    if l.proposals[p].supersedes.Some? {
      var q := l.proposals[p].supersedes.value;
      LineageFacts(l, q);
      forall i | 0 <= i < |Lineage(l, p)|
        ensures Lineage(l, p)[i] in l.proposals && Lineage(l, p)[i].key == p.key
                && l.proposals[Lineage(l, p)[i]].generation == l.proposals[p].generation - i
      {
        if i > 0 { assert Lineage(l, p)[i] == Lineage(l, q)[i-1]; }
      }
    }
  }

  /** The chain of a proposal is acyclic, its length is the proposal's generation, and it holds every
      proposal of its key that is not newer. */
  lemma SupersedesChain(ops: seq<Op>, p: Semantic, q: Semantic)
    requires p in Run(EMPTY, ops).proposals && q in Run(EMPTY, ops).proposals && p.key == q.key
    ensures var l := Run(EMPTY, ops);
            && ChainOk(l.proposals, l.current)
            && var chain := Lineage(l, p);
               && |chain| == l.proposals[p].generation
               && (forall i, j :: 0 <= i < j < |chain| ==> chain[i] != chain[j])
               && (l.proposals[q].generation <= l.proposals[p].generation <==> q in chain)
               && (IsCurrent(l, p) ==> q in chain)
  {
    hide Run;
    Reachable(ops);
    var l := Run(EMPTY, ops);
    LineageFacts(l, p);
    var chain := Lineage(l, p);
    assert ProposalOk(l.proposals, l.current, q);
    if l.proposals[q].generation <= l.proposals[p].generation {
      var i := l.proposals[p].generation - l.proposals[q].generation;
      assert chain[i] == q;
    }
  }

  // ---- Writer and checker ----------------------------------------------------------------

  /** Whatever decision and delivery the writer recorded, the guard's frozen-batch check accepts. */
  lemma WriterMeetsGuard(ops: seq<Op>, k: (Semantic, string))
    requires k in Run(EMPTY, ops).deliveries
    ensures var l := Run(EMPTY, ops);
            && k.0 in l.decisions && l.deliveries[k].record == l.decisions[k.0].record
            && FrozenBatchDecision(l.batches, l.events, l.decisions[k.0].record, k.1)
  {
    hide Run, FrozenBatchDecision;
    Reachable(ops);
    var l := Run(EMPTY, ops);
    assert DeliveryOk(l, k);
    assert DecisionOk(l, k.0);
    assert (k.0, k.1) in l.deliveries;
  }

  /** A user event stands for one batch and one answer map: decisions that share it follow that map,
      and no revocation shares it. */
  lemma UserEventsNeverMix(ops: seq<Op>, p: Semantic, q: Semantic, d: Record)
    requires p in Run(EMPTY, ops).decisions && q in Run(EMPTY, ops).decisions
    ensures var l := Run(EMPTY, ops);
            var a, b := l.decisions[p].record, l.decisions[q].record;
            && (a.event == b.event ==> a.batch == b.batch && a.answers == b.answers)
            && |AnswersFor(a.answers.answers, p)| == 1 && AnswersFor(a.answers.answers, p)[0].choice == a.choice
            && (d in l.revocations ==> l.revocations[d].event != a.event)
  {
    hide Run;
    Reachable(ops);
    var l := Run(EMPTY, ops);
    assert DecisionOk(l, p) && DecisionOk(l, q);
    var a, b := l.decisions[p].record, l.decisions[q].record;
    assert a.recipients[0] in a.recipients && b.recipients[0] in b.recipients;
    assert FrozenBatchDecision(l.batches, l.events, a, a.recipients[0]);
    assert FrozenBatchDecision(l.batches, l.events, b, b.recipients[0]);
    if d in l.revocations { assert RevocationOk(l, d); }
  }
}
