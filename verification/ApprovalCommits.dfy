/** Exactly when a decision, a revocation, a claim or an acknowledgement commits, and what a claimed
    delivery rests on in every reachable ledger. */
module ApprovalCommits {
  import opened Prelude
  import opened ApprovalSpec
  import opened ApprovalGuard
  import opened ApprovalProofs
  import opened ApprovalTheorems
  import opened ApprovalGrants
  import opened ApprovalChanges

  ghost predicate Points(l: Ledger, p: Semantic) {
    p in l.proposals && p.key in l.current && l.current[p.key] == p
  }

  ghost predicate Allowed(l: Ledger, s: Schema) {
    l.contract.Legacy? || s == V2
  }

  // ---- Review batches --------------------------------------------------------------------

  /** Current, undecided, unexpired, allowed, and on its live source. */
  ghost predicate Due(l: Ledger, g: Registry, repository: string, p: Semantic) {
    && Points(l, p) && p.key.repository == repository && p !in l.decisions && Allowed(l, p.schema)
    && LiveSource(l, p.key, p.source) && (p.expires.Some? ==> g.now < p.expires.value)
  }

  /** The recipients are the current routes of the interested, each once. */
  ghost predicate RoutesAll(l: Ledger, g: Registry, p: Semantic, recipients: seq<string>) {
    && recipients != [] && (forall i, j :: 0 <= i < j < |recipients| ==> recipients[i] != recipients[j])
    && forall r :: r in recipients <==> exists who :: (p, who) in l.interests && g.route(who) == r
  }

  ghost predicate Presents(l: Ledger, g: Registry, e: Entry) {
    e.source == e.proposal.source && e.scope == e.proposal.scope && e.choices == e.proposal.choices && RoutesAll(l, g, e.proposal, e.recipients)
  }

  /** A new batch is frozen exactly when it presents each due proposal of its repository once, and
      nothing else. */
  lemma BatchIff(l: Ledger, g: Registry, b: Batch)
    ensures var (m, r) := CreateBatch(l, g, b);
            && (r == Done <==>
                  && b !in l.batches
                  && (forall i, j :: 0 <= i < j < |b.entries| ==> b.entries[i].proposal != b.entries[j].proposal)
                  && (forall i :: 0 <= i < |b.entries| ==> Due(l, g, b.repository, b.entries[i].proposal) && Presents(l, g, b.entries[i]))
                  && (forall p :: Due(l, g, b.repository, p) ==> exists i :: 0 <= i < |b.entries| && b.entries[i].proposal == p))
            && m == if r == Done then l.(batches := l.batches + {b}) else l
  {
    hide Routes, RoutesAll, Due, BatchFor;
    forall i | 0 <= i < |b.entries| ensures Routes(l, g, b.entries[i].proposal, b.entries[i].recipients) <==> RoutesAll(l, g, b.entries[i].proposal, b.entries[i].recipients) {
      RoutesIff(l, g, b.entries[i].proposal, b.entries[i].recipients);
    }
    assert forall i :: 0 <= i < |b.entries| ==>
        (Presents(l, g, b.entries[i]) <==> b.entries[i] == BindingOf(b.entries[i].proposal, b.entries[i].recipients)
                                           && Routes(l, g, b.entries[i].proposal, b.entries[i].recipients));
    BatchForIff(l, g, b);
  }

  lemma BatchForIff(l: Ledger, g: Registry, b: Batch)
    ensures BatchFor(l, g, b) <==>
            && (forall i, j :: 0 <= i < j < |b.entries| ==> b.entries[i].proposal != b.entries[j].proposal)
            && (forall i :: 0 <= i < |b.entries| ==>
                  && Due(l, g, b.repository, b.entries[i].proposal) && Routes(l, g, b.entries[i].proposal, b.entries[i].recipients)
                  && b.entries[i] == BindingOf(b.entries[i].proposal, b.entries[i].recipients))
            && (forall p :: Due(l, g, b.repository, p) ==> exists i :: 0 <= i < |b.entries| && b.entries[i].proposal == p)
  {
    hide Routes, BindingOf, Due, Reviewable;
    forall p ensures Due(l, g, b.repository, p) <==> p in l.proposals && Reviewable(l, g, b.repository, p) { DueIff(l, g, b.repository, p); }
    forall p ensures Reviewable(l, g, b.repository, p) ==> Due(l, g, b.repository, p) { KnownIfReviewable(l, g, b.repository, p); }
    if forall p :: Due(l, g, b.repository, p) ==> exists i :: 0 <= i < |b.entries| && b.entries[i].proposal == p {
      forall p | p in l.proposals && Reviewable(l, g, b.repository, p) ensures exists i :: 0 <= i < |b.entries| && b.entries[i].proposal == p {
        assert Due(l, g, b.repository, p);
      }
    }
    if BatchFor(l, g, b) {
      forall p | Due(l, g, b.repository, p) ensures exists i :: 0 <= i < |b.entries| && b.entries[i].proposal == p {
        assert p in l.proposals && Reviewable(l, g, b.repository, p);
      }
    }
  }

  lemma KnownIfReviewable(l: Ledger, g: Registry, repository: string, p: Semantic)
    ensures Reviewable(l, g, repository, p) ==> Due(l, g, repository, p)
  {
  }

  lemma DueIff(l: Ledger, g: Registry, repository: string, p: Semantic)
    ensures Due(l, g, repository, p) <==> p in l.proposals && Reviewable(l, g, repository, p)
  {
  }

  lemma RoutesIff(l: Ledger, g: Registry, p: Semantic, routed: seq<string>)
    ensures Routes(l, g, p, routed) <==> RoutesAll(l, g, p, routed)
  {
    if Routes(l, g, p, routed) {
      forall r | r in routed ensures exists who :: (p, who) in l.interests && g.route(who) == r {
        var i :| 0 <= i < |routed| && routed[i] == r;
        var k :| k in l.interests && k.0 == p && g.route(k.1) == routed[i];
        assert k == (p, k.1);
      }
      forall r, who | (p, who) in l.interests && g.route(who) == r ensures r in routed { var k := (p, who); assert k in l.interests; }
      assert RoutesAll(l, g, p, routed);
    } else if RoutesAll(l, g, p, routed) {
      assert Distinct(routed);
      forall k | k in l.interests && k.0 == p ensures g.route(k.1) in routed { assert (p, k.1) in l.interests && g.route(k.1) == g.route(k.1); }
      var i :| 0 <= i < |routed| && forall k :: k in l.interests && k.0 == p ==> g.route(k.1) != routed[i];
      RouteKnown(l, g, p, routed, i);
    }
  }

  lemma RouteKnown(l: Ledger, g: Registry, p: Semantic, routed: seq<string>, i: nat)
    requires RoutesAll(l, g, p, routed) && i < |routed|
    ensures exists k :: k in l.interests && k.0 == p && g.route(k.1) == routed[i]
  {
    assert routed[i] in routed;
    var who :| (p, who) in l.interests && g.route(who) == routed[i];
    var k := (p, who);
    assert k in l.interests && k.0 == p && g.route(k.1) == routed[i];
  }

  // ---- Answers and recipients ------------------------------------------------------------

  /** `at` places the answers in the batch: strictly forward, each on its proposal with an offered choice. */
  ghost predicate Places(b: Batch, answers: seq<Answer>, at: seq<int>) {
    && |at| == |answers| && (forall i :: 0 <= i < |at| ==> 0 <= at[i] < |b.entries|)
    && (forall i, j :: 0 <= i < j < |at| ==> at[i] < at[j])
    && (forall i :: 0 <= i < |at| ==> Answers(b.entries[at[i]], answers[i]))
  }

  ghost predicate Answers(e: Entry, a: Answer) {
    e.proposal == a.proposal && exists c :: c in e.choices && c.id == a.choice
  }

  ghost predicate DistinctEntries(b: Batch) {
    forall i, j :: 0 <= i < j < |b.entries| ==> b.entries[i].proposal != b.entries[j].proposal
  }

  /** Answers to a frozen batch are valid exactly when they are some, for it, and can be so placed. */
  lemma ValidAnswersIff(b: Batch, m: AnswerMap)
    requires DistinctEntries(b)
    ensures ValidAnswers(b, m) <==> m.batch == b && m.answers != [] && exists at :: Places(b, m.answers, at)
  {
    if ValidAnswers(b, m) {
      var at := seq(|m.answers|, i requires 0 <= i < |m.answers| => PositionOf(b.entries, m.answers[i].proposal));
      forall i | 0 <= i < |at| ensures 0 <= at[i] < |b.entries| && Answers(b.entries[at[i]], m.answers[i]) {
        assert AnswerOk(b, m.answers[i]);
      }
      assert Places(b, m.answers, at);
    }
    if at :| Places(b, m.answers, at) {
      forall i | 0 <= i < |at| ensures AnswerOk(b, m.answers[i]) && PositionOf(b.entries, m.answers[i].proposal) == at[i] {
        PlacedOk(b, m.answers[i], at[i]);
        assert Answers(b.entries[at[i]], m.answers[i]);
      }
    }
  }

  lemma PlacedOk(b: Batch, a: Answer, k: int)
    requires DistinctEntries(b) && 0 <= k < |b.entries|
    ensures Answers(b.entries[k], a) ==> AnswerOk(b, a) && PositionOf(b.entries, a.proposal) == k
  {
    if Answers(b.entries[k], a) {
      var i := PositionOf(b.entries, a.proposal);
      assert !(k < i) && !(i < k);
      var c :| c in b.entries[k].choices && c.id == a.choice;
      var n :| 0 <= n < |b.entries[k].choices| && b.entries[k].choices[n] == c;
    }
  }

  /** An identity stands for at most one delivery: its own route's, or the only one of its role. */
  lemma DeliveryForIff(l: Ledger, g: Registry, p: Semantic, asked: string, r: string)
    ensures DeliveryFor(l, g, p, asked, r) <==>
            && (p, r) in l.deliveries && g.role(asked) != None
            && (r == g.route(asked)
                || ((p, g.route(asked)) !in l.deliveries && SameRole(g, r, g.route(asked))
                    && forall o :: (p, o) in l.deliveries && SameRole(g, o, g.route(asked)) ==> o == r))
    ensures forall o :: DeliveryFor(l, g, p, asked, r) && DeliveryFor(l, g, p, asked, o) ==> o == r
  {
    if DeliveryFor(l, g, p, asked, r) {
      forall o | (p, o) in l.deliveries && SameRole(g, o, g.route(asked)) && r != g.route(asked) ensures o == r { var k := (p, o); assert k in l.deliveries; }
    }
  }

  // ---- Decisions -------------------------------------------------------------------------

  /** The batch froze the proposal once, as it is, for recipients that still pair off with the routed. */
  ghost predicate LoadsAt(l: Ledger, g: Registry, b: Batch, p: Semantic, routed: seq<string>, i: int) {
    && b in l.batches && 0 <= i < |b.entries| && OnlyEntry(b, p, i)
    && b.entries[i].source == p.source && b.entries[i].scope == p.scope && b.entries[i].choices == p.choices
    && RoutesAll(l, g, p, routed) && SameRoles(g, routed, b.entries[i].recipients)
  }

  /** The frozen entry has recipients and offers the choice once with this outcome. */
  ghost predicate FrozenIn(l: Ledger, g: Registry, q: Request, routed: seq<string>, i: int) {
    LoadsAt(l, g, q.batch, q.proposal, routed, i) && q.batch.entries[i].recipients != []
    && OfferedOnce(q.batch.entries[i].choices, q.choice, q.verdict)
  }

  /** A planner decides a current, unexpired proposal on its live source, by an answer to its batch; a
      deferral, and only a deferral, says when to come back. */
  ghost predicate MayDecide(l: Ledger, g: Registry, q: Request) {
    var p := q.proposal;
    && g.role(q.planner) == Some("planner") && (q.verdict == Defer <==> q.revisit.Some?)
    && Points(l, p) && Allowed(l, p.schema) && LiveSource(l, p.key, p.source)
    && (p.expires.Some? ==> g.now < p.expires.value)
    && ValidAnswers(q.batch, q.answers) && (exists j :: 0 <= j < |q.answers.answers| && q.answers.answers[j] == Answer(p, q.choice))
    && p !in l.decisions && (q.event in l.events ==> l.events[q.event] == UserEvent(q.input, q.planner, Some(q.batch), Some(q.answers)))
  }

  lemma EntryFound(b: Batch, p: Semantic)
    ensures |EntriesFor(b, p)| == 1 <==> exists i :: OnlyEntry(b, p, i)
    ensures forall i :: OnlyEntry(b, p, i) ==> EntriesFor(b, p) == [b.entries[i]]
  {
    hide Keep;
    var f := (x: Entry) => x.proposal == p;
    var kept := Keep(b.entries, f);
    if |kept| == 1 {
      assert kept == [kept[0]];
      KeepsOnly(b.entries, f, kept[0]);
      var i :| OnlyAt(b.entries, f, i) && b.entries[i] == kept[0];
      assert OnlyEntry(b, p, i);
    }
    forall i | OnlyEntry(b, p, i) ensures kept == [b.entries[i]] {
      assert OnlyAt(b.entries, f, i);
      KeepsOnly(b.entries, f, b.entries[i]);
    }
  }

  /** The first answer for a proposal is its only one. */
  lemma AnswerFound(b: Batch, m: AnswerMap, p: Semantic, choice: string)
    requires ValidAnswers(b, m)
    ensures (AnswersFor(m.answers, p) != [] && AnswersFor(m.answers, p)[0].choice == choice)
            <==> exists j :: 0 <= j < |m.answers| && m.answers[j] == Answer(p, choice)
  {
    hide Keep, ValidAnswers;
    var f := (a: Answer) => a.proposal == p;
    var kept := Keep(m.answers, f);
    ValidAnswersUnique(b, m, p);
    KeepsNoneIff(m.answers, f);
    if kept != [] {
      assert kept == [kept[0]];
      KeepsOnly(m.answers, f, kept[0]);
      var i :| OnlyAt(m.answers, f, i) && m.answers[i] == kept[0];
      forall j | 0 <= j < |m.answers| && m.answers[j] == Answer(p, choice) ensures j == i { assert f(m.answers[j]); }
      assert m.answers[i] == Answer(p, m.answers[i].choice);
    }
    if j :| 0 <= j < |m.answers| && m.answers[j] == Answer(p, choice) { assert f(m.answers[j]); }
  }

  lemma LoadedIff(l: Ledger, g: Registry, b: Batch, p: Semantic, routed: seq<string>)
    requires p in l.proposals && Allowed(l, p.schema)
    ensures var e := LoadBatch(l, g, b, p, routed);
            && (e.Frozen? <==> exists i :: LoadsAt(l, g, b, p, routed, i))
            && (forall i :: LoadsAt(l, g, b, p, routed, i) ==> e == Frozen(b.entries[i]))
  {
    hide EntriesFor, Routes, RoutesAll, RoleMatch, SameRoles, OnlyEntry;
    EntryFound(b, p);
    RoutesIff(l, g, p, routed);
    forall i | 0 <= i < |b.entries| ensures RoleMatch(g, routed, b.entries[i].recipients) <==> SameRoles(g, routed, b.entries[i].recipients) {
      PairsOffIff(g, routed, b.entries[i].recipients);
    }
    if i :| OnlyEntry(b, p, i) {
      InBatch(b, p, i);
      assert EntriesFor(b, p) == [b.entries[i]];
      assert LoadBatch(l, g, b, p, routed).Frozen? ==> LoadsAt(l, g, b, p, routed, i);
    }
  }

  lemma AdmitIff(l: Ledger, g: Registry, q: Request, routed: seq<string>)
    requires q.proposal !in l.decisions && (q.event in l.events ==> l.events[q.event] == EventOf(q))
    ensures Admit(l, g, q, routed).Frozen? <==> MayDecide(l, g, q) && exists i :: FrozenIn(l, g, q, routed, i)
    ensures forall i :: FrozenIn(l, g, q, routed, i) && Admit(l, g, q, routed).Frozen? ==> Admit(l, g, q, routed) == Frozen(q.batch.entries[i])
  {
    hide LoadBatch, EntriesFor, RoutesAll, SameRoles, ValidAnswers, AnswersFor, ChoicesWith, OfferedOnce, OnlyEntry;
    if Points(l, q.proposal) && Allowed(l, q.proposal.schema) {
      LoadedIff(l, g, q.batch, q.proposal, routed);
      if ValidAnswers(q.batch, q.answers) { AnswerFound(q.batch, q.answers, q.proposal, q.choice); }
      OfferedIff(q.proposal.choices, q.choice, q.verdict);
      if i :| LoadsAt(l, g, q.batch, q.proposal, routed, i) {
        assert q.batch.entries[i].choices == q.proposal.choices;
        assert FrozenIn(l, g, q, routed, i) <==> q.batch.entries[i].recipients != [] && OfferedOnce(q.proposal.choices, q.choice, q.verdict);
      }
    }
  }

  lemma InBatch(b: Batch, p: Semantic, i: int)
    requires OnlyEntry(b, p, i)
    ensures 0 <= i < |b.entries|
  {
  }

  /** Who waits for a decision, and who is held at once. */
  ghost predicate DeliveredTo(l: Ledger, g: Registry, m: Ledger, q: Request, recipients: seq<string>)
    requires q.proposal in m.decisions
  {
    forall r :: r in recipients ==>
      && (q.proposal, r) in m.deliveries && m.deliveries[(q.proposal, r)].record == m.decisions[q.proposal].record
      && m.deliveries[(q.proposal, r)].state
         == (if q.verdict == Defer && !(exists s :: s in l.submissions && SemanticOf(s) == q.proposal && s.workstream == "READINESS" && SameRole(g, s.recipient, r))
             then Held else Waiting)
  }

  /** A decision commits exactly when it may; it records the request against the frozen entry, awaits its
      publication, and reaches exactly the frozen recipients. */
  lemma DecideIff(l: Ledger, g: Registry, q: Request, routed: seq<string>)
    requires Inv(l)
    ensures var (m, r) := RecordDecision(l, g, q, routed);
            && (r == Done <==> MayDecide(l, g, q) && exists i :: FrozenIn(l, g, q, routed, i)) && (r != Done ==> m == l)
            && forall i :: r == Done && FrozenIn(l, g, q, routed, i) ==> Recorded(l, g, m, q, q.batch.entries[i])
  {
    hide Inv, Admit, RecordDecision, OnlyEntry, RoutesAll, SameRoles, OfferedOnce, Recorded;
    DecideDone(l, g, q, routed);
    if q.proposal !in l.decisions && (q.event in l.events ==> l.events[q.event] == EventOf(q)) { AdmitIff(l, g, q, routed); }
    forall i | RecordDecision(l, g, q, routed).1 == Done && FrozenIn(l, g, q, routed, i)
      ensures Recorded(l, g, RecordDecision(l, g, q, routed).0, q, q.batch.entries[i])
    {
      DecideRecords(l, g, q, routed, q.batch.entries[i]);
    }
  }

  lemma DecideDone(l: Ledger, g: Registry, q: Request, routed: seq<string>)
    ensures var (m, r) := RecordDecision(l, g, q, routed);
            && (r == Done <==> Admit(l, g, q, routed).Frozen? && q.proposal !in l.decisions && (q.event in l.events ==> l.events[q.event] == EventOf(q)))
            && (r != Done ==> m == l)
            && (r == Done ==> m == Decided(l, g, q, RecordOf(q, Admit(l, g, q, routed).entry)))
  {
    hide Admit, NewDeliveries;
  }

  ghost predicate Recorded(l: Ledger, g: Registry, m: Ledger, q: Request, e: Entry) {
    && q.proposal in m.decisions
    && var d, o := m.decisions[q.proposal].record, m.decisions[q.proposal].outbox;
       && d.proposal == q.proposal && d.verdict == q.verdict && d.outcome == q.verdict && d.choice == q.choice && d.revisit == q.revisit
       && d.recipients == e.recipients && d.scope == q.proposal.scope && d.batch == q.batch && d.answers == q.answers && d.choices == q.proposal.choices
       && d.note == q.note && d.input == q.input && d.event == q.event && d.planner == q.planner
       && o !in l.outbox && o in m.outbox && !m.outbox[o].complete
       && m.events == l.events[q.event := UserEvent(q.input, q.planner, Some(q.batch), Some(q.answers))]
       && DeliveredTo(l, g, m, q, e.recipients)
       && (forall r :: (q.proposal, r) in m.deliveries <==> r in e.recipients)
       && (forall k :: k in l.deliveries ==> k in m.deliveries && m.deliveries[k] == l.deliveries[k])
       && (forall p :: p in l.decisions ==> p in m.decisions && m.decisions[p] == l.decisions[p])
  }

  lemma DecideRecords(l: Ledger, g: Registry, q: Request, routed: seq<string>, e: Entry)
    requires Inv(l) && RecordDecision(l, g, q, routed).1 == Done && Admit(l, g, q, routed) == Frozen(e)
    ensures Recorded(l, g, RecordDecision(l, g, q, routed).0, q, e)
  {
    hide Inv, Admit, RecordDecision, NewDeliveries;
    DecideDone(l, g, q, routed);
    InvParts(l);
    FrozenFields(l, g, q, routed);
    var d := RecordOf(q, e);
    FreshDeliveries(l, g, q, d);
    FirstDeliveries(l, g, q, d);
  }

  lemma InvParts(l: Ledger)
    requires Inv(l)
    ensures DeliveriesOk(l) && l.nextOutbox !in l.outbox
  {
  }

  lemma FrozenFields(l: Ledger, g: Registry, q: Request, routed: seq<string>)
    requires Admit(l, g, q, routed).Frozen?
    ensures var e := Admit(l, g, q, routed).entry; e.scope == q.proposal.scope && e.choices == q.proposal.choices
  {
    hide EntriesFor, Routes, RoleMatch, ValidAnswers, AnswersFor, ChoicesWith;
  }

  lemma FirstDeliveries(l: Ledger, g: Registry, q: Request, d: Record)
    requires d.proposal == q.proposal && d.verdict == q.verdict
    ensures DeliveredTo(l, g, Decided(l, g, q, d), q, d.recipients)
  {
    hide EventOf;
    var m := Decided(l, g, q, d);
    forall r | r in d.recipients
      ensures (d.proposal, r) in m.deliveries && m.deliveries[(d.proposal, r)] == Delivery(d, FirstState(l, g, d, r))
    {
      assert (d.proposal, r) in NewDeliveries(l, g, d);
    }
  }

  // ---- Revocations -----------------------------------------------------------------------

  /** A planner revokes the recorded decision of a current proposal, once, as a new user event. */
  ghost predicate MayRevoke(l: Ledger, g: Registry, p: Semantic, d: Record, input: string, event: string, planner: string) {
    && g.role(planner) == Some("planner") && Points(l, p) && p in l.decisions && l.decisions[p].record == d
    && d !in l.revocations && (event in l.events ==> l.events[event] == UserEvent(input, planner, None, None))
    && (p.key.repository, p.key.issue) in l.sources
  }

  /** A revocation commits exactly then, and holds everything that was still open. */
  lemma RevokeIff(l: Ledger, g: Registry, p: Semantic, d: Record, reason: string, input: string, event: string, planner: string)
    ensures var (m, r) := Revoke(l, g, p, d, reason, input, event, planner);
            && (r == Done <==> MayRevoke(l, g, p, d, input, event, planner)) && (r != Done ==> m == l)
            && (r == Done ==> d in m.revocations && Idle(m, p) && RevokedOnly(l, m, p))
  {
    hide HoldOpen;
    RevokeHolds(l, p);
  }

  /** Deliveries keep their envelopes; only the open ones of `p` are held. */
  ghost predicate RevokedOnly(l: Ledger, m: Ledger, p: Semantic) {
    && m.deliveries.Keys == l.deliveries.Keys && m.decisions == l.decisions && m.effectivity == l.effectivity
    && forall k :: k in l.deliveries ==>
         m.deliveries[k] == if k.0 == p && (l.deliveries[k].state == Waiting || l.deliveries[k].state == Claimed)
                            then l.deliveries[k].(state := Held) else l.deliveries[k]
  }

  lemma RevokeHolds(l: Ledger, p: Semantic)
    ensures var ds := HoldOpen(l.deliveries, p);
            && ds.Keys == l.deliveries.Keys
            && (forall k :: k in l.deliveries ==>
                  ds[k] == if k.0 == p && (l.deliveries[k].state == Waiting || l.deliveries[k].state == Claimed)
                           then l.deliveries[k].(state := Held) else l.deliveries[k])
            && (forall r :: (p, r) in ds ==> ds[(p, r)].state == Acknowledged || ds[(p, r)].state == Held)
  {
  }

  // ---- Claims ----------------------------------------------------------------------------

  /** The decision of a current proposal is published and stands. */
  ghost predicate Published(l: Ledger, p: Semantic) {
    && p in l.decisions && Points(l, p) && l.decisions[p].outbox in l.outbox
    && l.outbox[l.decisions[p].outbox].complete && l.outbox[l.decisions[p].outbox].receipt != ""
    && l.decisions[p].record !in l.revocations
  }

  ghost function PublishedReceipt(l: Ledger, p: Semantic): string
    requires Published(l, p)
  {
    l.outbox[l.decisions[p].outbox].receipt
  }

  /** What a claim may find already bound: nothing, or exactly the same. */
  ghost predicate BindsTo(l: Ledger, p: Semantic, d: Record, stable: string)
    requires Published(l, p)
  {
    p in l.effectivity ==> l.effectivity[p] == Effect(d, stable, PublishedReceipt(l, p))
  }

  ghost predicate MayClaim(l: Ledger, p: Semantic, r: string, refreshed: Payload) {
    && (p, r) in l.deliveries && Published(l, p) && l.decisions[p].record == l.deliveries[(p, r)].record && Allowed(l, p.schema)
    && p.source.stable == refreshed.stable
    && ((p.key.repository, p.key.issue), p.source) in l.snapshots + {((p.key.repository, p.key.issue), refreshed)}
    && (l.deliveries[(p, r)].state == Claimed
        || (l.deliveries[(p, r)].state == Waiting && BindsTo(l, p, l.deliveries[(p, r)].record, refreshed.stable)))
  }

  /** The standalone claim commits exactly when it may: it ingests the refreshed source and, from
      WAITING, claims the delivery and binds its effectivity. */
  lemma ClaimIff(l: Ledger, p: Semantic, r: string, refreshed: Payload)
    ensures var (m, reply) := Claim(l, p, r, refreshed);
            && (reply == Done <==> MayClaim(l, p, r, refreshed))
            && (reply == Done ==>
                  && (p, r) in m.deliveries && m.deliveries == l.deliveries[(p, r) := m.deliveries[(p, r)]]
                  && m.deliveries[(p, r)].state == Claimed && m.deliveries[(p, r)].record == l.deliveries[(p, r)].record
                  && (p.key.repository, p.key.issue) in m.sources && m.sources[(p.key.repository, p.key.issue)] == refreshed
                  && (l.deliveries[(p, r)].state == Waiting ==>
                        m.effectivity == l.effectivity[p := Effect(l.deliveries[(p, r)].record, p.source.stable, PublishedReceipt(l, p))]))
  {
    hide Claim, MayClaim;
    ClaimDoneIff(l, p, r, refreshed);
    if Claim(l, p, r, refreshed).1 == Done { ClaimLeaves(l, p, r, refreshed); }
  }

  lemma ClaimDoneIff(l: Ledger, p: Semantic, r: string, refreshed: Payload)
    ensures Claim(l, p, r, refreshed).1 == Done <==> MayClaim(l, p, r, refreshed)
  {
    hide HoldOpen;
  }

  lemma ClaimLeaves(l: Ledger, p: Semantic, r: string, refreshed: Payload)
    requires Claim(l, p, r, refreshed).1 == Done
    ensures (p, r) in l.deliveries && Published(l, p)
    ensures var m := Claim(l, p, r, refreshed).0;
            && (p, r) in m.deliveries && m.deliveries == l.deliveries[(p, r) := m.deliveries[(p, r)]]
            && m.deliveries[(p, r)].state == Claimed && m.deliveries[(p, r)].record == l.deliveries[(p, r)].record
            && (p.key.repository, p.key.issue) in m.sources && m.sources[(p.key.repository, p.key.issue)] == refreshed
            && (l.deliveries[(p, r)].state == Waiting ==>
                  m.effectivity == l.effectivity[p := Effect(l.deliveries[(p, r)].record, p.source.stable, PublishedReceipt(l, p))])
  {
    hide HoldOpen, EffectConflicts, Quarantined;
  }

  /** A drifted source holds every open delivery of the proposal instead. */
  lemma DriftHolds(l: Ledger, p: Semantic, r: string, refreshed: Payload)
    requires (p, r) in l.deliveries && Published(l, p) && l.decisions[p].record == l.deliveries[(p, r)].record && Allowed(l, p.schema)
    requires l.deliveries[(p, r)].state == Waiting || l.deliveries[(p, r)].state == Claimed
    requires ((p.key.repository, p.key.issue), p.source) in l.snapshots && p.source.stable != refreshed.stable
    ensures var (m, reply) := Claim(l, p, r, refreshed);
            reply == Err("APPROVAL_SOURCE_DRIFT_AFTER_PUBLICATION") && Idle(m, p) && RevokedOnly(l, m, p)
  {
    hide HoldOpen, Claim, Ingest;
    RevokeHolds(l, p);
    DriftOutcome(l, p, r, refreshed);
    IngestEdges(l, p.key, refreshed);
  }

  lemma DriftOutcome(l: Ledger, p: Semantic, r: string, refreshed: Payload)
    requires (p, r) in l.deliveries && Published(l, p) && l.decisions[p].record == l.deliveries[(p, r)].record && Allowed(l, p.schema)
    requires l.deliveries[(p, r)].state == Waiting || l.deliveries[(p, r)].state == Claimed
    requires ((p.key.repository, p.key.issue), p.source) in l.snapshots && p.source.stable != refreshed.stable
    ensures Claim(l, p, r, refreshed)
            == (Ingest(l, p.key, refreshed).(deliveries := HoldOpen(l.deliveries, p)), Err("APPROVAL_SOURCE_DRIFT_AFTER_PUBLICATION"))
  {
    hide HoldOpen, SetState, EffectConflicts, Receipt;
  }

  /** What the claim inside a caller's transaction needs besides: the frozen batch and the live source. */
  ghost predicate MayClaimIn(l: Ledger, g: Registry, p: Semantic, r: string, refreshed: Payload, replay: bool,
                             expected: Option<Payload>, routed: seq<string>)
  {
    (p, r) in l.deliveries && MayClaimIf(l, p, r, refreshed, replay, expected, Stands(l, g, l.deliveries[(p, r)].record, p, routed))
  }

  ghost predicate MayClaimIf(l: Ledger, p: Semantic, r: string, refreshed: Payload, replay: bool, expected: Option<Payload>, stands: bool)
    requires (p, r) in l.deliveries
  {
    && Published(l, p) && Allowed(l, p.schema) && stands
    && var d, state, where := l.deliveries[(p, r)].record, l.deliveries[(p, r)].state, (p.key.repository, p.key.issue);
       && l.decisions[p].record == d && state != Held && (state == Acknowledged ==> replay)
       && (where, p.source) in l.snapshots && where in l.sources && (expected.Some? ==> l.sources[where] == expected.value)
       && l.sources[where].stable == refreshed.stable == p.source.stable
       && BindsTo(l, p, d, refreshed.stable) && (p !in l.effectivity ==> state == Waiting)
  }

  /** The frozen batch loads, and the decision is the one it binds. */
  ghost predicate Stands(l: Ledger, g: Registry, d: Record, p: Semantic, routed: seq<string>) {
    exists i :: LoadsAt(l, g, d.batch, p, routed, i) && Binds(l, d, d.batch.entries[i])
  }

  /** The first offer of this choice has this outcome. */
  ghost predicate FirstOffered(choices: seq<Choice>, id: string, outcome: Verdict) {
    exists i :: 0 <= i < |choices| && choices[i].id == id && choices[i].outcome == outcome && forall j :: 0 <= j < i ==> choices[j].id != id
  }

  /** Event, answers and frozen entry still say what was decided. */
  ghost predicate Binds(l: Ledger, d: Record, e: Entry) {
    && d.event in l.events && l.events[d.event].batch == Some(d.batch) && l.events[d.event].answers == Some(d.answers)
    && ValidAnswers(d.batch, d.answers)
    && (exists j :: 0 <= j < |d.answers.answers| && d.answers.answers[j] == Answer(d.proposal, d.choice))
    && FirstOffered(e.choices, d.choice, d.verdict) && d.outcome == d.verdict && d.scope == e.scope && d.choices == e.choices
  }

  lemma {:induction false} FirstOfferedIff(choices: seq<Choice>, id: string, outcome: Verdict)
    ensures (ChoicesWith(choices, id) != [] && ChoicesWith(choices, id)[0].outcome == outcome) <==> FirstOffered(choices, id, outcome)
  {
    if choices != [] {
      hide FirstOffered;
      FirstOfferedIff(choices[1..], id, outcome);
      FirstOrLater(choices, id, outcome);
      FirstKept(choices, (c: Choice) => c.id == id);
    } else {
      assert ChoicesWith(choices, id) == [];
    }
  }

  lemma FirstKept<T>(xs: seq<T>, f: T -> bool)
    requires xs != []
    ensures if f(xs[0]) then Keep(xs, f) != [] && Keep(xs, f)[0] == xs[0] else Keep(xs, f) == Keep(xs[1..], f)
  {
  }

  lemma FirstOrLater(choices: seq<Choice>, id: string, outcome: Verdict)
    requires choices != []
    ensures FirstOffered(choices, id, outcome) <==>
            if choices[0].id == id then choices[0].outcome == outcome else FirstOffered(choices[1..], id, outcome)
  {
    var rest := choices[1..];
    assert forall i :: 0 <= i < |rest| ==> rest[i] == choices[i+1];
    if choices[0].id != id {
      if i :| 0 <= i < |rest| && rest[i].id == id && rest[i].outcome == outcome && forall j :: 0 <= j < i ==> rest[j].id != id {
        forall j | 0 <= j < i + 1 ensures choices[j].id != id { if j > 0 { assert choices[j] == rest[j-1]; } }
        assert choices[i+1] == rest[i];
      }
      if i :| 0 <= i < |choices| && choices[i].id == id && choices[i].outcome == outcome && forall j :: 0 <= j < i ==> choices[j].id != id {
        assert rest[i-1] == choices[i];
        forall j | 0 <= j < i - 1 ensures rest[j].id != id { assert rest[j] == choices[j+1]; }
      }
    }
  }

  lemma BindsIff(l: Ledger, d: Record, e: Entry)
    ensures FrozenDecision(l, d, e) <==> Binds(l, d, e)
  {
    hide ValidAnswers, AnswersFor, ChoicesWith, FirstOffered;
    FirstOfferedIff(e.choices, d.choice, d.verdict);
    if ValidAnswers(d.batch, d.answers) { AnswerFound(d.batch, d.answers, d.proposal, d.choice); }
  }

  ghost predicate Reloads(l: Ledger, g: Registry, d: Record, p: Semantic, routed: seq<string>) {
    var loaded := LoadBatch(l, g, d.batch, p, routed);
    loaded.Frozen? && FrozenDecision(l, d, loaded.entry)
  }

  lemma ClaimLoads(l: Ledger, g: Registry, d: Record, p: Semantic, routed: seq<string>)
    requires p in l.proposals && Allowed(l, p.schema)
    ensures Reloads(l, g, d, p, routed) <==> Stands(l, g, d, p, routed)
  {
    hide LoadBatch, LoadsAt, FrozenDecision, Binds;
    LoadedIff(l, g, d.batch, p, routed);
    forall e ensures FrozenDecision(l, d, e) <==> Binds(l, d, e) { BindsIff(l, d, e); }
    if i :| LoadsAt(l, g, d.batch, p, routed, i) { LoadedInBatch(l, g, d.batch, p, routed, i); }
  }

  lemma LoadedInBatch(l: Ledger, g: Registry, b: Batch, p: Semantic, routed: seq<string>, i: int)
    requires LoadsAt(l, g, b, p, routed, i)
    ensures 0 <= i < |b.entries|
  {
  }

  lemma ClaimInIff(l: Ledger, g: Registry, p: Semantic, r: string, refreshed: Payload, replay: bool, ingest: bool,
                   expected: Option<Payload>, routed: seq<string>)
    ensures var (m, reply) := ClaimInTransaction(l, g, p, r, refreshed, replay, ingest, expected, routed);
            && (reply == Done <==> MayClaimIn(l, g, p, r, refreshed, replay, expected, routed)) && (reply != Done ==> m == l)
            && (reply == Done ==>
                  && (p, r) in m.deliveries && m.deliveries == l.deliveries[(p, r) := m.deliveries[(p, r)]]
                  && m.deliveries[(p, r)].state == (if l.deliveries[(p, r)].state == Waiting then Claimed else l.deliveries[(p, r)].state)
                  && m.deliveries[(p, r)].record == l.deliveries[(p, r)].record
                  && m.effectivity == l.effectivity[p := Effect(l.deliveries[(p, r)].record, p.source.stable, PublishedReceipt(l, p))])
  {
    hide ClaimInTransaction, Stands, Reloads, BindsTo;
    if (p, r) in l.deliveries {
      ClaimInDone(l, g, p, r, refreshed, replay, ingest, expected, routed);
      if p in l.proposals && Allowed(l, p.schema) { ClaimLoads(l, g, l.deliveries[(p, r)].record, p, routed); }
      if MayClaimIn(l, g, p, r, refreshed, replay, expected, routed) { ClaimInLeaves(l, g, p, r, refreshed, replay, ingest, expected, routed); }
    } else {
      ClaimInMissing(l, g, p, r, refreshed, replay, ingest, expected, routed);
    }
  }

  lemma ClaimInMissing(l: Ledger, g: Registry, p: Semantic, r: string, refreshed: Payload, replay: bool, ingest: bool,
                       expected: Option<Payload>, routed: seq<string>)
    requires (p, r) !in l.deliveries
    ensures ClaimInTransaction(l, g, p, r, refreshed, replay, ingest, expected, routed) == (l, Err("APPROVAL_DELIVERY_NOT_FOUND"))
  {
  }

  lemma ClaimInDone(l: Ledger, g: Registry, p: Semantic, r: string, refreshed: Payload, replay: bool, ingest: bool,
                    expected: Option<Payload>, routed: seq<string>)
    requires (p, r) in l.deliveries
    ensures var (m, reply) := ClaimInTransaction(l, g, p, r, refreshed, replay, ingest, expected, routed);
            && (reply == Done <==> MayClaimIf(l, p, r, refreshed, replay, expected, Reloads(l, g, l.deliveries[(p, r)].record, p, routed)))
            && (reply != Done ==> m == l)
  {
    hide LoadBatch, FrozenDecision, SetState, WithEffect, Ingest;
  }

  lemma ClaimInLeaves(l: Ledger, g: Registry, p: Semantic, r: string, refreshed: Payload, replay: bool, ingest: bool,
                      expected: Option<Payload>, routed: seq<string>)
    requires (p, r) in l.deliveries && ClaimInTransaction(l, g, p, r, refreshed, replay, ingest, expected, routed).1 == Done
    requires Published(l, p) && refreshed.stable == p.source.stable
    ensures var m := ClaimInTransaction(l, g, p, r, refreshed, replay, ingest, expected, routed).0;
            && (p, r) in m.deliveries && m.deliveries == l.deliveries[(p, r) := m.deliveries[(p, r)]]
            && m.deliveries[(p, r)].state == (if l.deliveries[(p, r)].state == Waiting then Claimed else l.deliveries[(p, r)].state)
            && m.deliveries[(p, r)].record == l.deliveries[(p, r)].record
            && m.effectivity == l.effectivity[p := Effect(l.deliveries[(p, r)].record, p.source.stable, PublishedReceipt(l, p))]
  {
    hide ClaimInError, EffectConflicts;
  }

  /** Only a claimed delivery of that very decision is acknowledged. */
  lemma AcknowledgeIff(l: Ledger, p: Semantic, d: Record, r: string)
    ensures var (m, reply) := Acknowledge(l, p, d, r);
            && (reply == Done <==>
                  && p in l.proposals && Allowed(l, p.schema) && (p, r) in l.deliveries
                  && l.deliveries[(p, r)] == Delivery(d, Claimed))
            && (m == if reply == Done then l.(deliveries := l.deliveries[(p, r) := Delivery(d, Acknowledged)]) else l)
  {
  }

  // ---- What a claim rests on -------------------------------------------------------------

  /** A claimed or acknowledged delivery rests on a published decision, bound to its source. */
  ghost predicate Rests(l: Ledger, k: (Semantic, string))
    requires k in l.deliveries
  {
    (l.deliveries[k].state == Claimed || l.deliveries[k].state == Acknowledged) ==>
      && k.0 in l.decisions && l.decisions[k.0].outbox in l.outbox && k.0 in l.effectivity
      && var o, e := l.outbox[l.decisions[k.0].outbox], l.effectivity[k.0];
         && o.complete && o.receipt != ""
         && e == Effect(l.decisions[k.0].record, k.0.source.stable, o.receipt)
  }

  ghost predicate ClaimsRest(l: Ledger) {
    forall k :: k in l.deliveries ==> Rests(l, k)
  }

  /** Published entries never change, and new deliveries are not claimed. */
  ghost predicate KeepsPublished(l: Ledger, m: Ledger) {
    forall i :: i in l.outbox && l.outbox[i].complete ==> i in m.outbox && m.outbox[i] == l.outbox[i]
  }

  ghost predicate NothingClaimed(l: Ledger, m: Ledger) {
    forall k :: k in m.deliveries && (m.deliveries[k].state == Claimed || m.deliveries[k].state == Acknowledged) ==>
      k in l.deliveries && (l.deliveries[k].state == Claimed || l.deliveries[k].state == Acknowledged)
  }

  lemma RestStays(l: Ledger, m: Ledger)
    requires ClaimsRest(l) && Grows(l, m) && KeepsPublished(l, m) && NothingClaimed(l, m)
    ensures ClaimsRest(m)
  {
    forall k | k in m.deliveries ensures Rests(m, k) {
      if k in l.deliveries { assert Rests(l, k); }
    }
  }

  lemma WriteClaimsNothing(l: Ledger, op: Op)
    requires Inv(l) && (op.OpSubmit? || op.OpBatch? || op.OpDecide? || op.OpRevoke?)
    ensures KeepsPublished(l, Step(l, op).0) && NothingClaimed(l, Step(l, op).0)
  {
    hide Inv, Step, KeepsPublished, NothingClaimed;
    match op
    case OpSubmit(packet, bound) => SubmitClaimsNothing(l, packet, bound);
    case OpBatch(g, b) => BatchClaimsNothing(l, g, b);
    case OpDecide(g, q, routed) => DecideClaimsNothing(l, g, q, routed);
    case OpRevoke(g, p, d, reason, input, event, planner) => RevokeClaimsNothing(l, g, p, d, reason, input, event, planner);
  }

  lemma SubmitClaimsNothing(l: Ledger, packet: Packet, bound: bool)
    ensures var m := Step(l, OpSubmit(packet, bound)).0; KeepsPublished(l, m) && NothingClaimed(l, m)
  {
    hide Submit, SemanticOf, HasOpen;
    SubmitCases(l, packet, bound);
  }

  lemma BatchClaimsNothing(l: Ledger, g: Registry, b: Batch)
    ensures var m := Step(l, OpBatch(g, b)).0; KeepsPublished(l, m) && NothingClaimed(l, m)
  {
    hide BatchFor, KeepsPublished, NothingClaimed;
    SameDeliveries(l, Step(l, OpBatch(g, b)).0);
  }

  lemma DecideClaimsNothing(l: Ledger, g: Registry, q: Request, routed: seq<string>)
    requires Inv(l)
    ensures var m := Step(l, OpDecide(g, q, routed)).0; KeepsPublished(l, m) && NothingClaimed(l, m)
  {
    hide RecordDecision, Admit, Inv, KeepsPublished, NothingClaimed, Decided;
    DecideCases(l, g, q, routed);
    InvParts(l);
    SameDeliveries(l, l);
    if Admit(l, g, q, routed).Frozen? { DecidedClaimsNothing(l, g, q, RecordOf(q, Admit(l, g, q, routed).entry)); }
  }

  lemma DecidedClaimsNothing(l: Ledger, g: Registry, q: Request, d: Record)
    requires l.nextOutbox !in l.outbox
    ensures KeepsPublished(l, Decided(l, g, q, d)) && NothingClaimed(l, Decided(l, g, q, d))
  {
  }

  lemma RevokeClaimsNothing(l: Ledger, g: Registry, p: Semantic, d: Record, reason: string, input: string, event: string, planner: string)
    requires Inv(l)
    ensures var m := Step(l, OpRevoke(g, p, d, reason, input, event, planner)).0; KeepsPublished(l, m) && NothingClaimed(l, m)
  {
    hide Revoke, Revoked, Inv, KeepsPublished, NothingClaimed;
    RevokeCases(l, g, p, d, reason, input, event, planner);
    InvParts(l);
    SameDeliveries(l, l);
    RevokedClaimsNothing(l, p, d, reason, input, event, planner);
  }

  lemma RevokedClaimsNothing(l: Ledger, p: Semantic, d: Record, reason: string, input: string, event: string, planner: string)
    requires l.nextOutbox !in l.outbox
    ensures var m := Revoked(l, p, d, reason, input, event, planner); KeepsPublished(l, m) && NothingClaimed(l, m)
  {
    hide HoldOpen;
    RevokeHolds(l, p);
  }

  lemma EdgeClaimsNothing(l: Ledger, op: Op)
    requires op.OpActivate? || op.OpPublish? || op.OpSource? || op.OpHoldDelivery?
    ensures KeepsPublished(l, Step(l, op).0) && NothingClaimed(l, Step(l, op).0)
  {
    hide Step, KeepsPublished, NothingClaimed;
    match op
    case OpActivate(authority, drift) => ActivateClaimsNothing(l, authority, drift);
    case OpPublish(id, receipt) => PublishClaimsNothing(l, id, receipt);
    case OpSource(where, source) => SourceClaimsNothing(l, where, source);
    case OpHoldDelivery(p, r) => HoldClaimsNothing(l, p, r);
    case _ => assert false;
  }

  lemma SameDeliveries(l: Ledger, m: Ledger)
    requires m.deliveries == l.deliveries
    ensures NothingClaimed(l, m) && (m.outbox == l.outbox ==> KeepsPublished(l, m))
  {
  }

  lemma ActivateClaimsNothing(l: Ledger, authority: string, drift: bool)
    ensures var m := Step(l, OpActivate(authority, drift)).0; KeepsPublished(l, m) && NothingClaimed(l, m)
  {
    hide KeepsPublished, NothingClaimed;
    SameDeliveries(l, Step(l, OpActivate(authority, drift)).0);
  }

  lemma PublishClaimsNothing(l: Ledger, id: nat, receipt: string)
    ensures var m := Step(l, OpPublish(id, receipt)).0; KeepsPublished(l, m) && NothingClaimed(l, m)
  {
    hide KeepsPublished, NothingClaimed;
    SameDeliveries(l, Step(l, OpPublish(id, receipt)).0);
    if id in l.outbox && !l.outbox[id].complete { PublishedOnce(l, id, receipt); }
  }

  lemma PublishedOnce(l: Ledger, id: nat, receipt: string)
    requires id in l.outbox && !l.outbox[id].complete
    ensures KeepsPublished(l, l.(outbox := l.outbox[id := Outbox(true, receipt)]))
  {
  }

  lemma SourceClaimsNothing(l: Ledger, where: (string, int), source: Payload)
    ensures var m := Step(l, OpSource(where, source)).0; KeepsPublished(l, m) && NothingClaimed(l, m)
  {
    hide KeepsPublished, NothingClaimed;
    SameDeliveries(l, Step(l, OpSource(where, source)).0);
  }

  lemma HoldClaimsNothing(l: Ledger, p: Semantic, r: string)
    ensures var m := Step(l, OpHoldDelivery(p, r)).0; KeepsPublished(l, m) && NothingClaimed(l, m)
  {
    hide KeepsPublished, NothingClaimed, SetState;
    SameDeliveries(l, l);
    if (p, r) in l.deliveries { HeldClaimsNothing(l, (p, r)); }
  }

  lemma HeldClaimsNothing(l: Ledger, k: (Semantic, string))
    requires k in l.deliveries
    ensures KeepsPublished(l, SetState(l, k, Held)) && NothingClaimed(l, SetState(l, k, Held))
  {
  }

  /** A change of delivery states leaves decisions and publications alone. */
  lemma MoveEdges(l: Ledger, m: Ledger)
    requires StatesMove(l, m)
    ensures m.outbox == l.outbox && m.decisions == l.decisions
  {
  }

  lemma ClaimRests(l: Ledger, p: Semantic, r: string, refreshed: Payload)
    requires Inv(l) && ClaimsRest(l) && (p, r) in l.deliveries
    ensures ClaimsRest(Claim(l, p, r, refreshed).0)
  {
    hide Inv, Claim, Grows, StatesMove, Rests;
    ClaimKeeps(l, p, r, refreshed);
    ClaimIff(l, p, r, refreshed);
    var m := Claim(l, p, r, refreshed).0;
    MoveEdges(l, m);
    if Claim(l, p, r, refreshed).1 == Done {
      ClaimedRests(l, m, p, r);
    } else {
      RefusedClaims(l, p, r, refreshed);
      RestStays(l, m);
    }
  }

  lemma RefusedClaims(l: Ledger, p: Semantic, r: string, refreshed: Payload)
    requires (p, r) in l.deliveries && Claim(l, p, r, refreshed).1 != Done
    ensures var m := Claim(l, p, r, refreshed).0; KeepsPublished(l, m) && NothingClaimed(l, m)
  {
    hide HoldOpen, Claim;
    RevokeHolds(l, p);
    RefusedShape(l, p, r, refreshed);
  }

  lemma RefusedShape(l: Ledger, p: Semantic, r: string, refreshed: Payload)
    requires (p, r) in l.deliveries && Claim(l, p, r, refreshed).1 != Done
    ensures var m := Claim(l, p, r, refreshed).0; m.outbox == l.outbox && (m.deliveries == l.deliveries || m.deliveries == HoldOpen(l.deliveries, p))
  {
    hide HoldOpen, ClaimError, SetState, EffectConflicts, Quarantined, Receipt, Ingest;
    IngestEdges(l, p.key, refreshed);
  }

  lemma IngestEdges(l: Ledger, key: Key, source: Payload)
    ensures var m := Ingest(l, key, source);
            m.outbox == l.outbox && m.deliveries == l.deliveries && m.decisions == l.decisions && m.effectivity == l.effectivity
  {
  }

  /** A claim that committed rests, and leaves the others resting. */
  lemma ClaimedRests(l: Ledger, m: Ledger, p: Semantic, r: string)
    requires ClaimsRest(l) && Grows(l, m) && (p, r) in l.deliveries && Published(l, p) && l.decisions[p].record == l.deliveries[(p, r)].record
    requires m.outbox == l.outbox && m.decisions == l.decisions && (p, r) in m.deliveries && m.deliveries == l.deliveries[(p, r) := m.deliveries[(p, r)]]
    requires l.deliveries[(p, r)].state == Waiting ==>
      m.effectivity == l.effectivity[p := Effect(l.deliveries[(p, r)].record, p.source.stable, PublishedReceipt(l, p))]
    requires l.deliveries[(p, r)].state != Waiting ==> l.deliveries[(p, r)].state != Held
    ensures ClaimsRest(m)
  {
    forall k | k in m.deliveries ensures Rests(m, k) {
      assert k in l.deliveries && Rests(l, k);
    }
  }

  lemma ClaimInRests(l: Ledger, g: Registry, p: Semantic, r: string, f: Payload, replay: bool, ingest: bool,
                     expected: Option<Payload>, routed: seq<string>)
    requires Inv(l) && ClaimsRest(l) && (p, r) in l.deliveries
    ensures ClaimsRest(ClaimInTransaction(l, g, p, r, f, replay, ingest, expected, routed).0)
  {
    hide Inv, ClaimInTransaction, Grows, StatesMove, Rests, Stands;
    ClaimInKeeps(l, g, p, r, f, replay, ingest, expected, routed);
    ClaimInIff(l, g, p, r, f, replay, ingest, expected, routed);
    var m := ClaimInTransaction(l, g, p, r, f, replay, ingest, expected, routed).0;
    if ClaimInTransaction(l, g, p, r, f, replay, ingest, expected, routed).1 == Done {
      MoveEdges(l, m);
      ClaimedRests(l, m, p, r);
    }
  }

  lemma ConsumeRests(l: Ledger, op: Op)
    requires Inv(l) && ClaimsRest(l) && (op.OpClaimIn? || op.OpClaim? || op.OpAcknowledge?)
    ensures ClaimsRest(Step(l, op).0)
  {
    hide Inv, ClaimsRest, ClaimInTransaction, Claim, Acknowledge, DeliveryFor;
    if DeliveryFor(l, op.g, op.p, op.asked, op.recipient) {
      DeliveryExists(l, op.g, op.p, op.asked, op.recipient);
      match op
      case OpClaimIn(g, p, asked, r, f, replay, ingest, expected, routed) => ClaimInRests(l, g, p, r, f, replay, ingest, expected, routed);
      case OpClaim(g, p, asked, r, f) => ClaimRests(l, p, r, f);
      case OpAcknowledge(g, p, d, asked, r) => AcknowledgeRests(l, p, d, r);
    }
  }

  lemma AcknowledgeRests(l: Ledger, p: Semantic, d: Record, r: string)
    requires ClaimsRest(l)
    ensures ClaimsRest(Acknowledge(l, p, d, r).0)
  {
    hide Acknowledge;
    AcknowledgeIff(l, p, d, r);
    var m := Acknowledge(l, p, d, r).0;
    forall k | k in m.deliveries ensures Rests(m, k) { assert k in l.deliveries && Rests(l, k); }
  }

  lemma StepRests(l: Ledger, op: Op)
    requires Inv(l) && ClaimsRest(l)
    ensures ClaimsRest(Step(l, op).0)
  {
    hide Inv, ClaimsRest, Step, Grows, KeepsPublished, NothingClaimed;
    if op.OpClaimIn? || op.OpClaim? || op.OpAcknowledge? {
      ConsumeRests(l, op);
    } else {
      StepKeeps(l, op);
      if op.OpSubmit? || op.OpBatch? || op.OpDecide? || op.OpRevoke? { WriteClaimsNothing(l, op); } else { EdgeClaimsNothing(l, op); }
      RestStays(l, Step(l, op).0);
    }
  }

  lemma {:induction false} RestsAlong(l: Ledger, ops: seq<Op>)
    requires Inv(l) && ClaimsRest(l)
    ensures ClaimsRest(Run(l, ops))
    decreases |ops|
  {
    hide Inv, ClaimsRest, Step;
    if ops != [] {
      StepKeeps(l, ops[0]);
      StepRests(l, ops[0]);
      RestsAlong(Step(l, ops[0]).0, ops[1..]);
    }
  }

  /** In every reachable ledger a claimed or acknowledged delivery has its decision published under a
      receipt, and its effectivity bound to that record, that receipt and the proposal's own source. */
  lemma ClaimedMeansEffective(ops: seq<Op>, k: (Semantic, string))
    requires k in Run(EMPTY, ops).deliveries
    ensures Rests(Run(EMPTY, ops), k)
  {
    hide Run, Inv;
    Reachable([]);
    NothingYet();
    RestsAlong(EMPTY, ops);
  }

  lemma NothingYet()
    ensures Run(EMPTY, []) == EMPTY && ClaimsRest(EMPTY)
  {
  }
}
