/** What every approval-ledger transaction keeps. */
module ApprovalProofs {
  import opened Prelude
  import opened ApprovalSpec
  import opened ApprovalGuard

  // ---- The invariant, table by table -----------------------------------------------------

  ghost predicate ProposalOk(proposals: map<Semantic, Proposal>, current: map<Key, Semantic>, p: Semantic)
    requires p in proposals
  {
    var row := proposals[p];
    && SemanticOf(row.packet) == p && row.generation >= 1
    && p.key in current && current[p.key] in proposals && row.generation <= proposals[current[p.key]].generation
    && (row.supersedes.None? <==> row.generation == 1)
    && (row.supersedes.Some? ==>
          && row.supersedes.value in proposals && row.supersedes.value.key == p.key
          && proposals[row.supersedes.value].generation == row.generation - 1)
  }

  /** Each decision key has one chain of proposals, one per generation, ending at the current one. */
  ghost predicate ChainOk(proposals: map<Semantic, Proposal>, current: map<Key, Semantic>) {
    && (forall k :: k in current ==> current[k] in proposals && current[k].key == k)
    && (forall p :: p in proposals ==> ProposalOk(proposals, current, p))
    && (forall p, q :: p in proposals && q in proposals && p.key == q.key && proposals[p].generation == proposals[q].generation ==> p == q)
  }

  ghost predicate EntryOk(proposals: map<Semantic, Proposal>, b: Batch, e: Entry) {
    && e.proposal in proposals && e.proposal.key.repository == b.repository
    && e == BindingOf(e.proposal, e.recipients) && Distinct(e.recipients)
  }

  ghost predicate BatchesOk(proposals: map<Semantic, Proposal>, batches: set<Batch>) {
    forall b :: b in batches ==> forall i :: 0 <= i < |b.entries| ==> EntryOk(proposals, b, b.entries[i])
  }

  /** A recorded decision passes the guard for each of its recipients, and has their deliveries. */
  ghost predicate DecisionOk(l: Ledger, p: Semantic)
    requires p in l.decisions
  {
    var d := l.decisions[p].record;
    && d.proposal == p && p in l.proposals && l.decisions[p].outbox in l.outbox && d.recipients != []
    && (forall r :: r in d.recipients ==> FrozenBatchDecision(l.batches, l.events, d, r))
    && (forall r :: (p, r) in l.deliveries <==> r in d.recipients)
  }

  ghost predicate DeliveryOk(l: Ledger, k: (Semantic, string))
    requires k in l.deliveries
  {
    && k.0 in l.decisions && l.deliveries[k].record == l.decisions[k.0].record
    && (Open(l.deliveries[k].state) ==> IsCurrent(l, k.0) && l.deliveries[k].record !in l.revocations)
  }

  ghost predicate RevocationOk(l: Ledger, d: Record)
    requires d in l.revocations
  {
    && d.proposal in l.decisions && l.decisions[d.proposal].record == d && l.revocations[d].proposal == d.proposal
    && l.revocations[d].event in l.events && l.events[l.revocations[d].event].batch.None?
  }

  ghost predicate DecisionsOk(l: Ledger) {
    forall p :: p in l.decisions ==> DecisionOk(l, p)
  }

  ghost predicate DeliveriesOk(l: Ledger) {
    forall k :: k in l.deliveries ==> DeliveryOk(l, k)
  }

  ghost predicate RevocationsOk(l: Ledger) {
    forall d :: d in l.revocations ==> RevocationOk(l, d)
  }

  ghost predicate OutboxOk(l: Ledger) {
    forall i :: i in l.outbox ==> i < l.nextOutbox
  }

  ghost predicate Inv(l: Ledger) {
    && ChainOk(l.proposals, l.current) && BatchesOk(l.proposals, l.batches)
    && DecisionsOk(l) && DeliveriesOk(l) && RevocationsOk(l) && OutboxOk(l)
  }

  // ---- Immutable rows --------------------------------------------------------------------

  ghost predicate Extends<K, V>(a: map<K, V>, b: map<K, V>) {
    forall k :: k in a ==> k in b && b[k] == a[k]
  }

  /** The delivery rows are the same, whatever their states. */
  ghost predicate SameEnvelopes(a: map<(Semantic, string), Delivery>, b: map<(Semantic, string), Delivery>) {
    a.Keys == b.Keys && forall k :: k in a ==> b[k].record == a[k].record
  }

  /** HOLD and ACKNOWLEDGED are final; only open deliveries move. */
  ghost predicate OnlyCloses(a: map<(Semantic, string), Delivery>, b: map<(Semantic, string), Delivery>) {
    forall k :: k in a && k in b && !Open(a[k].state) ==> b[k].state == a[k].state
  }

  /** Rows that are never changed or removed stay as they were. */
  ghost predicate Grows(l: Ledger, m: Ledger) {
    && Extends(l.proposals, m.proposals) && l.batches <= m.batches && l.submissions <= m.submissions
    && Extends(l.events, m.events) && Extends(l.decisions, m.decisions) && Extends(l.revocations, m.revocations)
    && Extends(l.effectivity, m.effectivity) && l.outbox.Keys <= m.outbox.Keys
    && l.deliveries.Keys <= m.deliveries.Keys && OnlyCloses(l.deliveries, m.deliveries)
    && (l.contract.Current? ==> m.contract == l.contract)
  }

  /** The guard's check of a decision depends on immutable rows only. */
  lemma FrozenStays(l: Ledger, m: Ledger, d: Record)
    requires l.batches <= m.batches && Extends(l.events, m.events)
    requires forall r :: r in d.recipients ==> FrozenBatchDecision(l.batches, l.events, d, r)
    ensures forall r :: r in d.recipients ==> FrozenBatchDecision(m.batches, m.events, d, r)
  {
  }

  lemma DecisionStays(l: Ledger, m: Ledger, p: Semantic)
    requires p in l.decisions && DecisionOk(l, p) && p in m.decisions && m.decisions[p] == l.decisions[p]
    requires p in m.proposals && l.outbox.Keys <= m.outbox.Keys && l.batches <= m.batches && Extends(l.events, m.events)
    requires forall r :: (p, r) in m.deliveries <==> (p, r) in l.deliveries
    ensures DecisionOk(m, p)
  {
    hide FrozenBatchDecision;
    FrozenStays(l, m, l.decisions[p].record);
  }

  lemma DecisionsStay(l: Ledger, m: Ledger)
    requires DecisionsOk(l) && m.decisions == l.decisions && m.deliveries.Keys == l.deliveries.Keys
    requires l.proposals.Keys <= m.proposals.Keys && l.outbox.Keys <= m.outbox.Keys && l.batches <= m.batches && Extends(l.events, m.events)
    ensures DecisionsOk(m)
  {
    hide FrozenBatchDecision;
    forall p | p in m.decisions ensures DecisionOk(m, p) {
      assert DecisionOk(l, p);
      assert p in l.proposals.Keys;
      DecisionStays(l, m, p);
    }
  }

  lemma DeliveriesStay(l: Ledger, m: Ledger)
    requires DeliveriesOk(l) && m.decisions == l.decisions && m.current == l.current && m.revocations == l.revocations
    requires SameEnvelopes(l.deliveries, m.deliveries) && OnlyCloses(l.deliveries, m.deliveries)
    ensures DeliveriesOk(m)
  {
    forall k | k in m.deliveries ensures DeliveryOk(m, k) {
      assert k in l.deliveries.Keys;
      assert DeliveryOk(l, k);
    }
  }

  lemma RevocationsStay(l: Ledger, m: Ledger)
    requires RevocationsOk(l) && m.revocations == l.revocations && Extends(l.decisions, m.decisions) && Extends(l.events, m.events)
    ensures RevocationsOk(m)
  {
    forall d | d in m.revocations ensures RevocationOk(m, d) { assert RevocationOk(l, d); }
  }

  // ---- Submit ----------------------------------------------------------------------------

  ghost function NextRow(proposals: map<Semantic, Proposal>, current: map<Key, Semantic>, p: Semantic, packet: Packet): Proposal
    requires p.key in current ==> current[p.key] in proposals
  {
    if p.key in current then Proposal(packet, proposals[current[p.key]].generation + 1, Some(current[p.key]))
    else Proposal(packet, 1, None)
  }

  /** Proposals of other keys keep their place; those of this key are older than the new one. */
  lemma OldProposal(proposals: map<Semantic, Proposal>, current: map<Key, Semantic>, p: Semantic, packet: Packet, q: Semantic)
    requires ChainOk(proposals, current) && p !in proposals && q in proposals
    ensures var row := NextRow(proposals, current, p, packet);
            && (q.key == p.key ==> proposals[q].generation < row.generation)
            && ProposalOk(proposals[p := row], current[p.key := p], q)
  {
    hide SemanticOf;
    assert ProposalOk(proposals, current, q);
  }

  lemma NewestProposal(proposals: map<Semantic, Proposal>, current: map<Key, Semantic>, p: Semantic, packet: Packet)
    requires ChainOk(proposals, current) && p !in proposals && SemanticOf(packet) == p
    ensures ProposalOk(proposals[p := NextRow(proposals, current, p, packet)], current[p.key := p], p)
  {
    hide SemanticOf;
    if p.key in current { assert ProposalOk(proposals, current, current[p.key]); }
  }

  lemma ChainExtends(proposals: map<Semantic, Proposal>, current: map<Key, Semantic>, p: Semantic, packet: Packet)
    requires ChainOk(proposals, current) && p !in proposals && SemanticOf(packet) == p
    ensures (p.key in current ==> current[p.key] in proposals)
    ensures ChainOk(proposals[p := NextRow(proposals, current, p, packet)], current[p.key := p])
  {
    hide SemanticOf, ProposalOk, NextRow;
    NewestProposal(proposals, current, p, packet);
    var row := NextRow(proposals, current, p, packet);
    var ps, c := proposals[p := row], current[p.key := p];
    forall q | q in ps ensures ProposalOk(ps, c, q) {
      if q != p { OldProposal(proposals, current, p, packet, q); }
    }
    forall q, r | q in ps && r in ps && q.key == r.key && ps[q].generation == ps[r].generation ensures q == r {
      if q in proposals { OldProposal(proposals, current, p, packet, q); }
      if r in proposals { OldProposal(proposals, current, p, packet, r); }
    }
  }

  /** What a submission can do: nothing, one more interest, or a new current proposal. */
  ghost predicate Submitted(l: Ledger, m: Ledger, packet: Packet) {
    var p := SemanticOf(packet);
    || m == l
    || m == RecordInterest(l, p, packet)
    || (&& p !in l.proposals && !(p.key in l.current && HasOpen(l, l.current[p.key]))
        && (p.key in l.current ==> l.current[p.key] in l.proposals)
        && m == RecordInterest(NewProposal(l, p, packet), p, packet))
  }

  ghost function NewProposal(l: Ledger, p: Semantic, packet: Packet): Ledger
    requires p.key in l.current ==> l.current[p.key] in l.proposals
  {
    l.(proposals := l.proposals[p := NextRow(l.proposals, l.current, p, packet)], current := l.current[p.key := p])
  }

  lemma SubmitCases(l: Ledger, packet: Packet, bound: bool)
    ensures Submitted(l, Submit(l, packet, bound).0, packet)
  {
    hide HasOpen, RecordInterest;
  }

  lemma InterestKeeps(l: Ledger, p: Semantic, packet: Packet)
    requires Inv(l)
    ensures Inv(RecordInterest(l, p, packet)) && Grows(l, RecordInterest(l, p, packet))
  {
    hide ChainOk, BatchesOk, DecisionOk, DeliveryOk, RevocationOk;
    var m := RecordInterest(l, p, packet);
    DecisionsStay(l, m);
    DeliveriesStay(l, m);
    RevocationsStay(l, m);
  }

  lemma NewProposalKeeps(l: Ledger, p: Semantic, packet: Packet)
    requires Inv(l) && SemanticOf(packet) == p && p !in l.proposals
    requires !(p.key in l.current && HasOpen(l, l.current[p.key]))
    ensures (p.key in l.current ==> l.current[p.key] in l.proposals)
    ensures Inv(NewProposal(l, p, packet)) && Grows(l, NewProposal(l, p, packet))
  {
    hide ChainOk, BatchesOk, DecisionOk, DeliveryOk, RevocationOk, SemanticOf;
    CurrentKnown(l);
    ChainExtends(l.proposals, l.current, p, packet);
    var m := NewProposal(l, p, packet);
    BatchesStay(l, m);
    DecisionsStay(l, m);
    RevocationsStay(l, m);
    NothingOpenReplaced(l, m, p);
  }

  lemma BatchesStay(l: Ledger, m: Ledger)
    requires BatchesOk(l.proposals, l.batches) && l.batches == m.batches && Extends(l.proposals, m.proposals)
    ensures BatchesOk(m.proposals, m.batches)
  {
    forall b, i | b in m.batches && 0 <= i < |b.entries| ensures EntryOk(m.proposals, b, b.entries[i]) {
      assert EntryOk(l.proposals, b, b.entries[i]);
    }
  }

  /** A proposal with an open delivery is not superseded. */
  lemma NothingOpenReplaced(l: Ledger, m: Ledger, p: Semantic)
    requires DeliveriesOk(l) && !(p.key in l.current && HasOpen(l, l.current[p.key]))
    requires m.deliveries == l.deliveries && m.decisions == l.decisions && m.revocations == l.revocations
    requires m.current == l.current[p.key := p]
    ensures DeliveriesOk(m)
  {
    forall k | k in m.deliveries ensures DeliveryOk(m, k) {
      assert DeliveryOk(l, k);
      if Open(l.deliveries[k].state) && k.0.key == p.key { assert HasOpen(l, l.current[p.key]); }
    }
  }

  lemma CurrentKnown(l: Ledger)
    requires ChainOk(l.proposals, l.current)
    ensures forall k :: k in l.current ==> l.current[k] in l.proposals && l.current[k].key == k
  {
  }

  lemma GrowsSelf(l: Ledger)
    ensures Grows(l, l)
  {
  }

  lemma GrowsTransitive(l: Ledger, m: Ledger, n: Ledger)
    requires Grows(l, m) && Grows(m, n)
    ensures Grows(l, n)
  {
    forall k | k in l.deliveries && k in n.deliveries && !Open(l.deliveries[k].state)
      ensures n.deliveries[k].state == l.deliveries[k].state
    {
      assert k in m.deliveries.Keys;
    }
  }

  /** Only a new proposal moves the pointer of its key. */
  lemma PointerOf(l: Ledger, p: Semantic, packet: Packet)
    ensures RecordInterest(l, p, packet).current == l.current
    ensures (p.key in l.current ==> l.current[p.key] in l.proposals) ==> NewProposal(l, p, packet).current == l.current[p.key := p]
  {
  }

  lemma SubmitKeeps(l: Ledger, packet: Packet, bound: bool)
    requires Inv(l)
    ensures Inv(Submit(l, packet, bound).0) && Grows(l, Submit(l, packet, bound).0)
  {
    hide Submit, HasOpen, RecordInterest, NewProposal, Inv, SemanticOf, Grows;
    SubmitCases(l, packet, bound);
    var p, m := SemanticOf(packet), Submit(l, packet, bound).0;
    GrowsSelf(l);
    InterestKeeps(l, p, packet);
    if m != l && m != RecordInterest(l, p, packet) {
      var n := NewProposal(l, p, packet);
      NewProposalKeeps(l, p, packet);
      InterestKeeps(n, p, packet);
      GrowsTransitive(l, n, m);
    }
  }

  // ---- Batches ---------------------------------------------------------------------------

  lemma BatchKeeps(l: Ledger, g: Registry, b: Batch)
    requires Inv(l)
    ensures Inv(CreateBatch(l, g, b).0) && Grows(l, CreateBatch(l, g, b).0)
  {
    hide ChainOk, DecisionOk, DeliveryOk, RevocationOk, BatchFor;
    var m := CreateBatch(l, g, b).0;
    if m != l {
      FrozenEntriesOk(l, g, b);
      DecisionsStay(l, m);
      DeliveriesStay(l, m);
      RevocationsStay(l, m);
    }
  }

  lemma FrozenEntriesOk(l: Ledger, g: Registry, b: Batch)
    requires BatchFor(l, g, b)
    ensures forall i :: 0 <= i < |b.entries| ==> EntryOk(l.proposals, b, b.entries[i])
  {
  }

  // ---- Decisions -------------------------------------------------------------------------

  lemma ValidAnswersUnique(b: Batch, m: AnswerMap, p: Semantic)
    requires ValidAnswers(b, m)
    ensures |AnswersFor(m.answers, p)| <= 1
  {
    forall i, j | 0 <= i < j < |m.answers| ensures m.answers[i].proposal != m.answers[j].proposal {
      assert PositionOf(b.entries, m.answers[i].proposal) < PositionOf(b.entries, m.answers[j].proposal);
    }
    KeepsOne(m.answers, (a: Answer) => a.proposal == p);
  }

  /** An admitted request becomes a decision that the guard accepts for every recipient. */
  lemma AdmittedIsFrozen(l: Ledger, g: Registry, q: Request, routed: seq<string>)
    requires Inv(l) && Admit(l, g, q, routed).Frozen?
    ensures var e := Admit(l, g, q, routed).entry;
            var d := RecordOf(q, e);
            && e.recipients != [] && Distinct(e.recipients) && IsCurrent(l, q.proposal) && q.proposal in l.proposals
            && q.batch in l.batches
            && forall r :: r in e.recipients ==> FrozenBatchDecision(l.batches, l.events[q.event := EventOf(q)], d, r)
  {
    hide ChainOk, Routes, RoleMatch, ValidAnswers;
    var e := Admit(l, g, q, routed).entry;
    ValidAnswersUnique(q.batch, q.answers, q.proposal);
    assert q.answers.batch == q.batch by { AnswersName(q.batch, q.answers); }
    var found := EntriesFor(q.batch, q.proposal);
    assert e == found[0] && e in q.batch.entries;
    var i :| 0 <= i < |q.batch.entries| && q.batch.entries[i] == e;
    assert EntryOk(l.proposals, q.batch, q.batch.entries[i]);
  }

  lemma AnswersName(b: Batch, m: AnswerMap)
    requires ValidAnswers(b, m)
    ensures m.batch == b
  {
  }

  /** The ledger with one more decision. */
  ghost function Decided(l: Ledger, g: Registry, q: Request, d: Record): Ledger {
    l.(events := l.events[q.event := EventOf(q)],
       outbox := l.outbox[l.nextOutbox := Outbox(false, "")], nextOutbox := l.nextOutbox + 1,
       decisions := l.decisions[q.proposal := Decision(d, l.nextOutbox)],
       deliveries := l.deliveries + NewDeliveries(l, g, d))
  }

  lemma DecideCases(l: Ledger, g: Registry, q: Request, routed: seq<string>)
    ensures var m := RecordDecision(l, g, q, routed).0;
            || m == l
            || (&& Admit(l, g, q, routed).Frozen? && q.proposal !in l.decisions
                && (q.event in l.events ==> l.events[q.event] == EventOf(q))
                && m == Decided(l, g, q, RecordOf(q, Admit(l, g, q, routed).entry)))
  {
    hide Admit, NewDeliveries;
  }

  /** The rows a new decision adds, and nothing else. */
  lemma FreshDeliveries(l: Ledger, g: Registry, q: Request, d: Record)
    requires DeliveriesOk(l) && d.proposal !in l.decisions
    ensures var m := Decided(l, g, q, d);
            && (forall r :: (d.proposal, r) in m.deliveries <==> r in d.recipients)
            && (forall k :: k in m.deliveries && k !in l.deliveries ==> k.0 == d.proposal && m.deliveries[k].record == d)
            && (forall k :: k in l.deliveries ==> k in m.deliveries && m.deliveries[k] == l.deliveries[k])
            && (forall p, r :: p != d.proposal ==> ((p, r) in m.deliveries <==> (p, r) in l.deliveries))
  {
    hide FirstState, EventOf;
    forall k | k in l.deliveries ensures k.0 != d.proposal { assert DeliveryOk(l, k); }
  }

  lemma DecidedDecisions(l: Ledger, g: Registry, q: Request, d: Record)
    requires DecisionsOk(l) && DeliveriesOk(l) && q.proposal !in l.decisions && d.proposal == q.proposal && d.recipients != []
    requires q.proposal in l.proposals && (q.event in l.events ==> l.events[q.event] == EventOf(q))
    requires forall r :: r in d.recipients ==> FrozenBatchDecision(l.batches, l.events[q.event := EventOf(q)], d, r)
    ensures DecisionsOk(Decided(l, g, q, d))
  {
    hide FrozenBatchDecision, NewDeliveries, EventOf;
    var m := Decided(l, g, q, d);
    FreshDeliveries(l, g, q, d);
    forall p | p in m.decisions ensures DecisionOk(m, p) {
      if p != q.proposal {
        assert DecisionOk(l, p);
        DecisionStays(l, m, p);
      }
    }
  }

  lemma DecidedDeliveries(l: Ledger, g: Registry, q: Request, d: Record)
    requires DeliveriesOk(l) && RevocationsOk(l) && q.proposal !in l.decisions && d.proposal == q.proposal && IsCurrent(l, q.proposal)
    ensures DeliveriesOk(Decided(l, g, q, d))
  {
    hide NewDeliveries, EventOf;
    var m := Decided(l, g, q, d);
    FreshDeliveries(l, g, q, d);
    forall k | k in m.deliveries ensures DeliveryOk(m, k) {
      if k in l.deliveries { assert DeliveryOk(l, k); }
    }
  }

  lemma DecideKeeps(l: Ledger, g: Registry, q: Request, routed: seq<string>)
    requires Inv(l)
    ensures Inv(RecordDecision(l, g, q, routed).0) && Grows(l, RecordDecision(l, g, q, routed).0)
  {
    hide ChainOk, BatchesOk, FrozenBatchDecision, Admit, RecordDecision, DecisionOk, DeliveryOk, RevocationOk, NewDeliveries, EventOf;
    DecideCases(l, g, q, routed);
    var m := RecordDecision(l, g, q, routed).0;
    if m != l {
      AdmittedIsFrozen(l, g, q, routed);
      var d := RecordOf(q, Admit(l, g, q, routed).entry);
      FreshDeliveries(l, g, q, d);
      DecidedDecisions(l, g, q, d);
      DecidedDeliveries(l, g, q, d);
      RevocationsStay(l, m);
    }
  }

  // ---- Revocations -----------------------------------------------------------------------

  lemma HoldOpenFacts(l: Ledger, p: Semantic)
    ensures var ds := HoldOpen(l.deliveries, p);
            && SameEnvelopes(l.deliveries, ds) && OnlyCloses(l.deliveries, ds)
            && (forall k :: k in ds && Open(ds[k].state) ==> k.0 != p)
  {
  }

  /** The ledger with one more revocation. */
  ghost function Revoked(l: Ledger, p: Semantic, d: Record, reason: string, input: string, event: string, planner: string): Ledger {
    l.(events := l.events[event := UserEvent(input, planner, None, None)],
       outbox := l.outbox[l.nextOutbox := Outbox(false, "")], nextOutbox := l.nextOutbox + 1,
       revocations := l.revocations[d := Revocation(p, reason, input, event, planner)],
       deliveries := HoldOpen(l.deliveries, p))
  }

  lemma RevokeCases(l: Ledger, g: Registry, p: Semantic, d: Record, reason: string, input: string, event: string, planner: string)
    ensures var m := Revoke(l, g, p, d, reason, input, event, planner).0;
            || m == l
            || (&& p in l.decisions && l.decisions[p].record == d && d !in l.revocations
                && (event in l.events ==> l.events[event] == UserEvent(input, planner, None, None))
                && m == Revoked(l, p, d, reason, input, event, planner))
  {
    hide HoldOpen;
  }

  lemma RevokedDeliveries(l: Ledger, m: Ledger, p: Semantic, d: Record)
    requires DeliveriesOk(l) && DecisionsOk(l) && p in l.decisions && l.decisions[p].record == d
    requires m.deliveries == HoldOpen(l.deliveries, p) && m.decisions == l.decisions && m.current == l.current
    requires m.revocations.Keys == l.revocations.Keys + {d}
    ensures DeliveriesOk(m)
  {
    hide HoldOpen, FrozenBatchDecision;
    HoldOpenFacts(l, p);
    forall k | k in m.deliveries ensures DeliveryOk(m, k) {
      assert k in l.deliveries.Keys;
      assert DeliveryOk(l, k);
      assert DecisionOk(l, k.0) && DecisionOk(l, p);
      if Open(m.deliveries[k].state) { assert m.deliveries[k].record !in m.revocations.Keys; }
    }
  }

  lemma RevokedRevocations(l: Ledger, m: Ledger, p: Semantic, d: Record, row: Revocation)
    requires RevocationsOk(l) && DecisionsOk(l) && p in l.decisions && l.decisions[p].record == d && row.proposal == p
    requires m.decisions == l.decisions && Extends(l.events, m.events) && m.revocations == l.revocations[d := row]
    requires row.event in m.events && m.events[row.event].batch.None?
    ensures RevocationsOk(m)
  {
    hide FrozenBatchDecision;
    assert DecisionOk(l, p);
    forall r | r in m.revocations ensures RevocationOk(m, r) {
      if r != d { assert RevocationOk(l, r); }
    }
  }

  lemma RevokeKeeps(l: Ledger, g: Registry, p: Semantic, d: Record, reason: string, input: string, event: string, planner: string)
    requires Inv(l)
    ensures Inv(Revoke(l, g, p, d, reason, input, event, planner).0) && Grows(l, Revoke(l, g, p, d, reason, input, event, planner).0)
  {
    hide ChainOk, BatchesOk, Revoke, DecisionOk, DeliveryOk, RevocationOk, HoldOpen;
    RevokeCases(l, g, p, d, reason, input, event, planner);
    var m := Revoke(l, g, p, d, reason, input, event, planner).0;
    if m != l {
      HoldOpenFacts(l, p);
      DecisionsStay(l, m);
      RevokedDeliveries(l, m, p, d);
      RevokedRevocations(l, m, p, d, Revocation(p, reason, input, event, planner));
    }
  }

  // ---- Claims and acknowledgements -------------------------------------------------------

  /** A change of delivery states that opens nothing new, beside sources and effectivity. */
  ghost predicate StatesMove(l: Ledger, m: Ledger) {
    && m == l.(deliveries := m.deliveries, effectivity := m.effectivity, sources := m.sources, snapshots := m.snapshots)
    && SameEnvelopes(l.deliveries, m.deliveries) && OnlyCloses(l.deliveries, m.deliveries) && Extends(l.effectivity, m.effectivity)
  }

  lemma StatesMoveKeeps(l: Ledger, m: Ledger)
    requires Inv(l) && StatesMove(l, m)
    ensures Inv(m) && Grows(l, m)
  {
    hide ChainOk, BatchesOk, DecisionOk, DeliveryOk, RevocationOk;
    DecisionsStay(l, m);
    DeliveriesStay(l, m);
    RevocationsStay(l, m);
  }

  lemma SetStateMoves(l: Ledger, m: Ledger, k: (Semantic, string), s: DeliveryState)
    requires StatesMove(l, m) && m.deliveries == l.deliveries && k in m.deliveries && Open(l.deliveries[k].state)
    ensures StatesMove(l, SetState(m, k, s))
  {
  }

  lemma HoldOpenMoves(l: Ledger, m: Ledger, p: Semantic)
    requires StatesMove(l, m) && m.deliveries == l.deliveries
    ensures StatesMove(l, m.(deliveries := HoldOpen(l.deliveries, p)))
  {
    hide HoldOpen;
    HoldOpenFacts(l, p);
  }

  /** What a claim or an acknowledgement may leave behind. */
  ghost predicate ClaimShape(l: Ledger, m: Ledger, k: (Semantic, string), source: Payload, effect: Effect) {
    var n := Ingest(l, k.0.key, source);
    var e := l.(effectivity := l.effectivity[k.0 := effect]);
    var ne := n.(effectivity := l.effectivity[k.0 := effect]);
    || m == l || m == n || m == n.(deliveries := HoldOpen(l.deliveries, k.0))
    || (&& !EffectConflicts(l, k.0, effect)
        && (m == e || m == ne
            || (k in l.deliveries && Open(l.deliveries[k].state) && (m == SetState(e, k, Claimed) || m == SetState(ne, k, Claimed)))))
    || (k in l.deliveries && Open(l.deliveries[k].state) && m == SetState(l, k, Acknowledged))
  }

  lemma IngestMoves(l: Ledger, key: Key, source: Payload, p: Semantic, effect: Effect)
    ensures StatesMove(l, l) && StatesMove(l, Ingest(l, key, source)) && Ingest(l, key, source).deliveries == l.deliveries
    ensures !EffectConflicts(l, p, effect) ==>
      && StatesMove(l, l.(effectivity := l.effectivity[p := effect]))
      && StatesMove(l, Ingest(l, key, source).(effectivity := l.effectivity[p := effect]))
  {
  }

  lemma ClaimShapeMoves(l: Ledger, m: Ledger, k: (Semantic, string), source: Payload, effect: Effect)
    requires ClaimShape(l, m, k, source, effect)
    ensures StatesMove(l, m)
  {
    hide HoldOpen, SetState;
    var n := Ingest(l, k.0.key, source);
    var e := l.(effectivity := l.effectivity[k.0 := effect]);
    var ne := n.(effectivity := l.effectivity[k.0 := effect]);
    IngestMoves(l, k.0.key, source, k.0, effect);
    hide StatesMove, Ingest;
    if k in l.deliveries && Open(l.deliveries[k].state) {
      SetStateMoves(l, l, k, Acknowledged);
      if !EffectConflicts(l, k.0, effect) {
        SetStateMoves(l, e, k, Claimed);
        SetStateMoves(l, ne, k, Claimed);
      }
    }
    HoldOpenMoves(l, n, k.0);
  }

  lemma ClaimInShape(l: Ledger, g: Registry, p: Semantic, r: string, f: Payload, replay: bool, ingest: bool,
                     expected: Option<Payload>, routed: seq<string>)
    requires (p, r) in l.deliveries
    ensures ClaimShape(l, ClaimInTransaction(l, g, p, r, f, replay, ingest, expected, routed).0, (p, r), f,
                       Effect(l.deliveries[(p, r)].record, f.stable, Receipt(l, p)))
  {
    hide ClaimInError, SetState, Ingest, HoldOpen;
  }

  lemma ClaimAloneShape(l: Ledger, p: Semantic, r: string, f: Payload)
    requires (p, r) in l.deliveries
    ensures ClaimShape(l, Claim(l, p, r, f).0, (p, r), f, Effect(l.deliveries[(p, r)].record, f.stable, Receipt(l, p)))
  {
    hide ClaimError, SetState, HoldOpen;
  }

  lemma AcknowledgeShape(l: Ledger, p: Semantic, d: Record, r: string)
    requires (p, r) in l.deliveries
    ensures ClaimShape(l, Acknowledge(l, p, d, r).0, (p, r), p.source, Effect(d, "", ""))
  {
    hide SetState, HoldOpen, Ingest;
  }

  lemma EdgesKeep(l: Ledger, m: Ledger)
    requires Inv(l) && m == l.(contract := m.contract, outbox := m.outbox, sources := m.sources, snapshots := m.snapshots)
    requires m.outbox.Keys == l.outbox.Keys && (l.contract.Current? ==> m.contract == l.contract)
    ensures Inv(m) && Grows(l, m)
  {
    hide ChainOk, BatchesOk, DecisionOk, DeliveryOk, RevocationOk;
    DecisionsStay(l, m);
    DeliveriesStay(l, m);
    RevocationsStay(l, m);
    forall i | i in m.outbox ensures i < m.nextOutbox { assert i in l.outbox.Keys; }
  }

  lemma ClaimInKeeps(l: Ledger, g: Registry, p: Semantic, r: string, f: Payload, replay: bool, ingest: bool,
                     expected: Option<Payload>, routed: seq<string>)
    requires Inv(l) && (p, r) in l.deliveries
    ensures StatesMove(l, ClaimInTransaction(l, g, p, r, f, replay, ingest, expected, routed).0)
    ensures Inv(ClaimInTransaction(l, g, p, r, f, replay, ingest, expected, routed).0)
    ensures Grows(l, ClaimInTransaction(l, g, p, r, f, replay, ingest, expected, routed).0)
  {
    hide Inv, ClaimInTransaction, ClaimShape, StatesMove, Grows;
    var m := ClaimInTransaction(l, g, p, r, f, replay, ingest, expected, routed).0;
    ClaimInShape(l, g, p, r, f, replay, ingest, expected, routed);
    ClaimShapeMoves(l, m, (p, r), f, Effect(l.deliveries[(p, r)].record, f.stable, Receipt(l, p)));
    StatesMoveKeeps(l, m);
  }

  lemma ClaimKeeps(l: Ledger, p: Semantic, r: string, f: Payload)
    requires Inv(l) && (p, r) in l.deliveries
    ensures StatesMove(l, Claim(l, p, r, f).0) && Inv(Claim(l, p, r, f).0) && Grows(l, Claim(l, p, r, f).0)
  {
    hide Inv, Claim, ClaimShape, StatesMove, Grows;
    ClaimAloneShape(l, p, r, f);
    ClaimShapeMoves(l, Claim(l, p, r, f).0, (p, r), f, Effect(l.deliveries[(p, r)].record, f.stable, Receipt(l, p)));
    StatesMoveKeeps(l, Claim(l, p, r, f).0);
  }

  lemma AcknowledgeKeeps(l: Ledger, p: Semantic, d: Record, r: string)
    requires Inv(l) && (p, r) in l.deliveries
    ensures StatesMove(l, Acknowledge(l, p, d, r).0) && Inv(Acknowledge(l, p, d, r).0) && Grows(l, Acknowledge(l, p, d, r).0)
  {
    hide Inv, Acknowledge, ClaimShape, StatesMove, Grows;
    AcknowledgeShape(l, p, d, r);
    ClaimShapeMoves(l, Acknowledge(l, p, d, r).0, (p, r), p.source, Effect(d, "", ""));
    StatesMoveKeeps(l, Acknowledge(l, p, d, r).0);
  }

  lemma HoldDeliveryKeeps(l: Ledger, p: Semantic, r: string)
    requires Inv(l)
    ensures StatesMove(l, HoldDelivery(l, p, r).0) && Inv(HoldDelivery(l, p, r).0) && Grows(l, HoldDelivery(l, p, r).0)
  {
    hide Inv, Grows, StatesMove, SetState;
    StaysPut(l);
    if (p, r) in l.deliveries && Open(l.deliveries[(p, r)].state) {
      SetStateMoves(l, l, (p, r), Held);
      StatesMoveKeeps(l, SetState(l, (p, r), Held));
    }
  }

  lemma ActivateKeeps(l: Ledger, authority: string, drift: bool)
    requires Inv(l)
    ensures Inv(Activate(l, authority, drift).0) && Grows(l, Activate(l, authority, drift).0)
  {
    hide Inv, Grows;
    GrowsSelf(l);
    if l.contract.Legacy? { EdgesKeep(l, l.(contract := Current(authority))); }
  }

  lemma PublishKeeps(l: Ledger, id: nat, receipt: string)
    requires Inv(l) && id in l.outbox
    ensures var m := l.(outbox := l.outbox[id := Outbox(true, receipt)]); Inv(m) && Grows(l, m)
  {
    hide Inv, Grows;
    EdgesKeep(l, l.(outbox := l.outbox[id := Outbox(true, receipt)]));
  }

  lemma SourceKeeps(l: Ledger, where: (string, int), source: Payload)
    requires Inv(l)
    ensures var m := l.(sources := l.sources[where := source], snapshots := l.snapshots + {(where, source)}); Inv(m) && Grows(l, m)
  {
    hide Inv, Grows;
    EdgesKeep(l, l.(sources := l.sources[where := source], snapshots := l.snapshots + {(where, source)}));
  }

  lemma EdgeKeeps(l: Ledger, op: Op)
    requires Inv(l) && (op.OpActivate? || op.OpPublish? || op.OpSource?)
    ensures Inv(Step(l, op).0) && Grows(l, Step(l, op).0)
  {
    hide Inv, Grows, Activate;
    GrowsSelf(l);
    match op
    case OpActivate(authority, drift) => ActivateKeeps(l, authority, drift);
    case OpPublish(id, receipt) => if id in l.outbox { PublishKeeps(l, id, receipt); }
    case OpSource(where, source) => SourceKeeps(l, where, source);
  }

  lemma StaysPut(l: Ledger)
    ensures Grows(l, l) && StatesMove(l, l)
  {
  }

  lemma WriteKeeps(l: Ledger, op: Op)
    requires Inv(l) && (op.OpSubmit? || op.OpBatch? || op.OpDecide? || op.OpRevoke?)
    ensures Inv(Step(l, op).0) && Grows(l, Step(l, op).0)
  {
    hide Inv, Grows, Submit, CreateBatch, RecordDecision, Revoke;
    match op
    case OpSubmit(packet, bound) => SubmitKeeps(l, packet, bound);
    case OpBatch(g, b) => BatchKeeps(l, g, b);
    case OpDecide(g, q, routed) => DecideKeeps(l, g, q, routed);
    case OpRevoke(g, p, d, reason, input, event, planner) => RevokeKeeps(l, g, p, d, reason, input, event, planner);
  }

  lemma ConsumeKeeps(l: Ledger, op: Op)
    requires Inv(l) && (op.OpClaimIn? || op.OpClaim? || op.OpAcknowledge?)
    ensures StatesMove(l, Step(l, op).0) && Inv(Step(l, op).0) && Grows(l, Step(l, op).0)
  {
    hide Inv, Grows, StatesMove, ClaimInTransaction, Claim, Acknowledge, DeliveryFor;
    StaysPut(l);
    if DeliveryFor(l, op.g, op.p, op.asked, op.recipient) {
      DeliveryExists(l, op.g, op.p, op.asked, op.recipient);
      match op
      case OpClaimIn(g, p, asked, r, f, replay, ingest, expected, routed) => ClaimInKeeps(l, g, p, r, f, replay, ingest, expected, routed);
      case OpClaim(g, p, asked, r, f) => ClaimKeeps(l, p, r, f);
      case OpAcknowledge(g, p, d, asked, r) => AcknowledgeKeeps(l, p, d, r);
    }
  }

  lemma HoldStepKeeps(l: Ledger, op: Op)
    requires Inv(l) && op.OpHoldDelivery?
    ensures StatesMove(l, Step(l, op).0) && Inv(Step(l, op).0) && Grows(l, Step(l, op).0)
  {
    hide Inv, Grows, StatesMove, HoldDelivery;
    HoldDeliveryKeeps(l, op.p, op.recipient);
  }

  lemma StepKeeps(l: Ledger, op: Op)
    requires Inv(l)
    ensures Inv(Step(l, op).0) && Grows(l, Step(l, op).0)
  {
    hide Inv, Grows, Step;
    if op.OpActivate? || op.OpPublish? || op.OpSource? {
      EdgeKeeps(l, op);
    } else if op.OpClaimIn? || op.OpClaim? || op.OpAcknowledge? {
      ConsumeKeeps(l, op);
    } else if op.OpHoldDelivery? {
      HoldStepKeeps(l, op);
    } else {
      WriteKeeps(l, op);
    }
  }

  lemma DeliveryExists(l: Ledger, g: Registry, p: Semantic, asked: string, r: string)
    requires DeliveryFor(l, g, p, asked, r)
    ensures (p, r) in l.deliveries
  {
  }
}
