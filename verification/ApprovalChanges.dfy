/** Exactly when each approval transaction commits and what it leaves, on the columns of the tables;
    and from that, what interests and claims mean in every reachable ledger. */
module ApprovalChanges {
  import opened Prelude
  import opened ApprovalSpec
  import opened ApprovalGuard
  import opened ApprovalProofs
  import opened ApprovalTheorems
  import opened ApprovalGrants

  // ---- Proposals -------------------------------------------------------------------------

  /** Two packets are one proposal exactly when everything but the evidence agrees, and under version 2
      the evidence too; requester, recipient, workstream and ranks never matter. */
  lemma SameProposalIff(a: Packet, b: Packet)
    ensures SemanticOf(a) == SemanticOf(b) <==>
            && a.schema == b.schema && a.key == b.key && a.source == b.source && a.scope == b.scope && a.boundary == b.boundary
            && a.terms == b.terms && a.choices == b.choices && a.expires == b.expires && (a.schema == V2 ==> a.evidence == b.evidence)
  {
  }

  ghost predicate LiveSource(l: Ledger, key: Key, source: Payload) {
    (key.repository, key.issue) in l.sources && l.sources[(key.repository, key.issue)] == source
  }

  /** Nobody is waiting for or holding a claim on the proposal. */
  ghost predicate Idle(l: Ledger, p: Semantic) {
    forall r :: (p, r) in l.deliveries ==> l.deliveries[(p, r)].state == Acknowledged || l.deliveries[(p, r)].state == Held
  }

  /** The packet may join the current proposal: its recipient set freezes with the decision. */
  ghost predicate MayJoin(l: Ledger, p: Semantic, recipient: string) {
    p.key in l.current && l.current[p.key] == p && (p in l.decisions ==> (p, recipient) in l.interests)
  }

  /** The packet may start or supersede: never a proposal seen before, never one still in flight. */
  ghost predicate MayStart(l: Ledger, p: Semantic) {
    p !in l.proposals && (p.key in l.current ==> Idle(l, l.current[p.key]))
  }

  ghost predicate MaySubmit(l: Ledger, packet: Packet, bound: bool) {
    var p := SemanticOf(packet);
    && (l.contract.Legacy? || packet.schema == V2) && (packet.workstream == "READINESS" <==> bound)
    && LiveSource(l, packet.key, packet.source) && packet !in l.submissions
    && (MayJoin(l, p, packet.recipient) || MayStart(l, p))
  }

  lemma IdleIff(l: Ledger, p: Semantic)
    ensures Idle(l, p) <==> !HasOpen(l, p)
  {
    if HasOpen(l, p) {
      var k :| k in l.deliveries && k.0 == p && Open(l.deliveries[k].state);
      assert k == (p, k.1);
    }
    if !Idle(l, p) {
      var r :| (p, r) in l.deliveries && Open(l.deliveries[(p, r)].state);
      var k := (p, r);
      assert k in l.deliveries && k.0 == p;
    }
  }

  /** A submission commits exactly when it may, and then either joins or becomes the next generation. */
  lemma SubmitIff(l: Ledger, packet: Packet, bound: bool)
    requires Inv(l)
    ensures var (m, r) := Submit(l, packet, bound);
            var p := SemanticOf(packet);
            && (r == Done <==> MaySubmit(l, packet, bound)) && (r != Done ==> m == l)
            && (r == Done ==>
                  && m.submissions == l.submissions + {packet} && p.key in m.current && m.current[p.key] == p && p in m.proposals
                  && (p !in l.proposals ==>
                        && m.proposals[p].packet == packet && m.proposals[p].supersedes == (if p.key in l.current then Some(l.current[p.key]) else None)))
  {
    hide Inv, HasOpen, Idle, SemanticOf, RecordInterest;
    PointersKnown(l);
    var p := SemanticOf(packet);
    SemanticFields(packet);
    if p.key in l.current { IdleIff(l, l.current[p.key]); }
    InterestOnly(l, p, packet);
    if p !in l.proposals { SubmitShape(l, packet, bound); }
  }

  lemma SemanticFields(packet: Packet)
    ensures SemanticOf(packet).key == packet.key && SemanticOf(packet).schema == packet.schema && SemanticOf(packet).source == packet.source
  {
  }

  lemma InterestOnly(l: Ledger, p: Semantic, packet: Packet)
    ensures var m := RecordInterest(l, p, packet);
            m == l.(interests := m.interests, submissions := l.submissions + {packet})
  {
  }

  lemma PointersKnown(l: Ledger)
    requires Inv(l)
    ensures forall k :: k in l.current ==> l.current[k] in l.proposals && l.current[k].key == k
  {
  }

  lemma SubmitShape(l: Ledger, packet: Packet, bound: bool)
    requires SemanticOf(packet) !in l.proposals && !IsCurrent(l, SemanticOf(packet))
    ensures Submit(l, packet, bound).1 == Done ==>
      var m, p := Submit(l, packet, bound).0, SemanticOf(packet);
      && p in m.proposals && m.proposals[p].packet == packet && m.current == l.current[p.key := p] && m.submissions == l.submissions + {packet}
      && m.proposals[p].supersedes == (if p.key in l.current then Some(l.current[p.key]) else None)
  {
    hide HasOpen, SemanticOf, Quarantined, SourceCurrent;
  }

  // ---- Interests -------------------------------------------------------------------------

  /** The submissions of a recipient for a proposal. */
  ghost function SubmittedBy(l: Ledger, k: (Semantic, string)): set<Packet> {
    set s | s in l.submissions && SemanticOf(s) == k.0 && s.recipient == k.1
  }

  /** The row is the summary of its submissions: the most pressing ranks and their number. */
  ghost predicate Summarizes(i: Interest, packets: set<Packet>) {
    && i.count == |packets| && packets != {}
    && (forall s :: s in packets ==> i.priority <= s.priority && i.urgency <= s.urgency)
    && (exists s :: s in packets && s.priority == i.priority) && (exists s :: s in packets && s.urgency == i.urgency)
  }

  ghost predicate InterestsOk(l: Ledger) {
    && (forall k :: k in l.interests ==> Summarizes(l.interests[k], SubmittedBy(l, k)))
    && (forall s :: s in l.submissions ==> (SemanticOf(s), s.recipient) in l.interests)
  }

  lemma OneMore(i: Interest, packets: set<Packet>, s: Packet)
    requires Summarizes(i, packets) && s !in packets
    ensures Summarizes(Interest(Min(i.priority, s.priority), Min(i.urgency, s.urgency), i.count + 1), packets + {s})
  {
    var most :| most in packets && most.priority == i.priority;
    var first :| first in packets && first.urgency == i.urgency;
    assert most in packets + {s} && first in packets + {s} && s in packets + {s};
  }

  lemma FirstOne(s: Packet)
    ensures Summarizes(Interest(s.priority, s.urgency, 1), {s})
  {
    assert s in {s};
  }

  lemma SubmittedGrows(l: Ledger, m: Ledger, packet: Packet, k: (Semantic, string))
    requires m.submissions == l.submissions + {packet}
    ensures SubmittedBy(m, k) == SubmittedBy(l, k) + (if k == (SemanticOf(packet), packet.recipient) then {packet} else {})
  {
    assert k == (k.0, k.1);
  }

  lemma InterestAdds(l: Ledger, packet: Packet)
    requires InterestsOk(l) && packet !in l.submissions
    ensures InterestsOk(RecordInterest(l, SemanticOf(packet), packet))
  {
    hide SemanticOf, Summarizes, SubmittedBy;
    var k0, m := (SemanticOf(packet), packet.recipient), RecordInterest(l, SemanticOf(packet), packet);
    forall k | k in m.interests ensures Summarizes(m.interests[k], SubmittedBy(m, k)) {
      SubmittedGrows(l, m, packet, k);
      if k != k0 {
        assert SubmittedBy(l, k) + {} == SubmittedBy(l, k);
      } else if k in l.interests {
        NotYetIn(l, packet);
        OneMore(l.interests[k], SubmittedBy(l, k), packet);
      } else {
        NobodyYet(l, k);
        assert SubmittedBy(l, k) + {packet} == {packet};
        FirstOne(packet);
      }
    }
  }

  lemma NotYetIn(l: Ledger, packet: Packet)
    requires packet !in l.submissions
    ensures packet !in SubmittedBy(l, (SemanticOf(packet), packet.recipient))
  {
  }

  lemma NobodyYet(l: Ledger, k: (Semantic, string))
    requires InterestsOk(l) && k !in l.interests
    ensures SubmittedBy(l, k) == {}
  {
    assert k == (k.0, k.1);
  }

  lemma SameInterests(l: Ledger, m: Ledger)
    requires InterestsOk(l) && m.interests == l.interests && m.submissions == l.submissions
    ensures InterestsOk(m)
  {
    hide SemanticOf, Summarizes;
    forall k | k in m.interests ensures Summarizes(m.interests[k], SubmittedBy(m, k)) { assert SubmittedBy(m, k) == SubmittedBy(l, k); }
  }

  lemma SubmitInterests(l: Ledger, packet: Packet, bound: bool)
    requires InterestsOk(l)
    ensures InterestsOk(Submit(l, packet, bound).0)
  {
    hide InterestsOk, HasOpen, SemanticOf, RecordInterest;
    var p := SemanticOf(packet);
    if packet !in l.submissions {
      InterestAdds(l, packet);
      var l1 := Started(l, packet);
      SameInterests(l, l1);
      InterestAdds(l1, packet);
    }
  }

  ghost function Started(l: Ledger, packet: Packet): (m: Ledger)
    ensures m.interests == l.interests && m.submissions == l.submissions
  {
    var p := SemanticOf(packet);
    var supersedes := if p.key in l.current then Some(l.current[p.key]) else None;
    var generation := if p.key in l.current && l.current[p.key] in l.proposals then l.proposals[l.current[p.key]].generation + 1 else 1;
    l.(proposals := l.proposals[p := Proposal(packet, generation, supersedes)], current := l.current[p.key := p])
  }

  lemma InterestsUntouched(l: Ledger, op: Op)
    requires Inv(l) && !op.OpSubmit?
    ensures Step(l, op).0.interests == l.interests && Step(l, op).0.submissions == l.submissions
  {
    hide Inv, RecordDecision, Revoke, ClaimInTransaction, Claim, Acknowledge, HoldDelivery, Step, Grows;
    if op.OpClaimIn? || op.OpClaim? || op.OpAcknowledge? {
      ConsumeKeeps(l, op);
    } else if op.OpHoldDelivery? {
      HoldStepKeeps(l, op);
    } else {
      WritesAside(l, op);
    }
  }

  lemma {:induction false} InterestsAlong(l: Ledger, ops: seq<Op>)
    requires Inv(l) && InterestsOk(l)
    ensures InterestsOk(Run(l, ops))
    decreases |ops|
  {
    hide Inv, InterestsOk, Step;
    if ops != [] {
      var m := Step(l, ops[0]).0;
      StepKeeps(l, ops[0]);
      StepInterests(l, ops[0]);
      InterestsAlong(m, ops[1..]);
    }
  }

  lemma StepInterests(l: Ledger, op: Op)
    requires Inv(l) && InterestsOk(l)
    ensures InterestsOk(Step(l, op).0)
  {
    hide Inv, InterestsOk, Submit;
    if op.OpSubmit? {
      SubmitInterests(l, op.packet, op.readinessBound);
    } else {
      InterestsUntouched(l, op);
      SameInterests(l, Step(l, op).0);
    }
  }

  /** In every reachable ledger an interest is the summary of what its recipient submitted. */
  lemma InterestsSummarize(ops: seq<Op>, k: (Semantic, string))
    ensures var l := Run(EMPTY, ops);
            && (k in l.interests <==> exists s :: s in l.submissions && SemanticOf(s) == k.0 && s.recipient == k.1)
            && (k in l.interests ==> Summarizes(l.interests[k], SubmittedBy(l, k)))
  {
    hide Run, Inv, Summarizes, SemanticOf;
    Reachable([]);
    EmptyInterests();
    InterestsAlong(EMPTY, ops);
    var l := Run(EMPTY, ops);
    if k in l.interests { SomeoneSubmitted(l, k); }
    if s :| s in l.submissions && SemanticOf(s) == k.0 && s.recipient == k.1 { assert k == (SemanticOf(s), s.recipient); }
  }

  lemma EmptyInterests()
    ensures Run(EMPTY, []) == EMPTY && InterestsOk(EMPTY)
  {
  }

  lemma SomeoneSubmitted(l: Ledger, k: (Semantic, string))
    requires k in l.interests && Summarizes(l.interests[k], SubmittedBy(l, k))
    ensures exists s :: s in l.submissions && SemanticOf(s) == k.0 && s.recipient == k.1
  {
    var s :| s in SubmittedBy(l, k);
  }
}
