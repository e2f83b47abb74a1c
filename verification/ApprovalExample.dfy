/** One life of an approval, from its source to a grant: the guard does say yes. */
module ApprovalExample {
  import opened Prelude
  import opened ApprovalSpec
  import opened ApprovalGuard

  const KEY := Key("owner/repository", 1, "decision")
  const WHERE := ("owner/repository", 1)
  const SOURCE := Payload("stable", "volatile")
  const CHOICE := Choice("yes", "approve it", Approve)
  const PACKET := Packet(V2, KEY, SOURCE, "scope", "boundary", "terms", [CHOICE], None, "evidence", "asker", "worker", "PLANNING", 0, 0)
  const PROPOSAL := Semantic(V2, KEY, SOURCE, "scope", "boundary", "terms", [CHOICE], None, Some("evidence"))
  const REGISTRY := Registry((x: string) => if x == "planner" then Some("planner") else Some("development"), (x: string) => x, (x: string) => None, 0)
  const ENTRY := Entry(PROPOSAL, SOURCE, "scope", ["worker"], [CHOICE])
  const BATCH := Batch("owner/repository", [ENTRY])
  const ANSWERS := AnswerMap(BATCH, [Answer(PROPOSAL, "yes")])
  const REQUEST := Request(PROPOSAL, BATCH, ANSWERS, Approve, "yes", None, "note", "input", "event", "planner")
  const RECORD := Record(PROPOSAL, Approve, "yes", Approve, None, ["worker"], "scope", BATCH, ANSWERS, [CHOICE], "note", "input", "event", "planner")

  const L1 := EMPTY.(sources := map[WHERE := SOURCE], snapshots := {(WHERE, SOURCE)})
  const L2 := L1.(proposals := map[PROPOSAL := Proposal(PACKET, 1, None)], current := map[KEY := PROPOSAL],
                  interests := map[(PROPOSAL, "worker") := Interest(0, 0, 1)], submissions := {PACKET})
  const L3 := L2.(batches := {BATCH})
  const L4 := L3.(events := map["event" := UserEvent("input", "planner", Some(BATCH), Some(ANSWERS))],
                  outbox := map[0 := Outbox(false, "")], nextOutbox := 1,
                  decisions := map[PROPOSAL := Decision(RECORD, 0)],
                  deliveries := map[(PROPOSAL, "worker") := Delivery(RECORD, Waiting)])
  const L5 := L4.(outbox := map[0 := Outbox(true, "comment:1")])
  const L6 := L5.(effectivity := map[PROPOSAL := Effect(RECORD, "stable", "comment:1")],
                  deliveries := map[(PROPOSAL, "worker") := Delivery(RECORD, Claimed)])

  lemma SourceStep()
    ensures Step(EMPTY, OpSource(WHERE, SOURCE)).0 == L1
  {
  }

  lemma SubmitStep()
    ensures Step(L1, OpSubmit(PACKET, false)) == (L2, Done)
  {
    assert "PLANNING"[0] != "READINESS"[0];
    assert SemanticOf(PACKET) == PROPOSAL;
    var m := Step(L1, OpSubmit(PACKET, false)).0;
    assert m.proposals == L2.proposals && m.current == L2.current && m.interests == L2.interests && m.submissions == L2.submissions;
  }

  lemma RoutesWorker(l: Ledger)
    requires l.interests == map[(PROPOSAL, "worker") := Interest(0, 0, 1)]
    ensures Routes(l, REGISTRY, PROPOSAL, ["worker"])
  {
    assert (PROPOSAL, "worker") in l.interests && REGISTRY.route("worker") == "worker";
  }

  lemma BatchStep()
    ensures Step(L2, OpBatch(REGISTRY, BATCH)) == (L3, Done)
  {
    hide Routes;
    RoutesWorker(L2);
    assert BATCH.entries[0] == ENTRY && ENTRY == BindingOf(PROPOSAL, ["worker"]);
    assert Reviewable(L2, REGISTRY, BATCH.repository, PROPOSAL);
    assert BatchFor(L2, REGISTRY, BATCH);
    assert L2.batches + {BATCH} == {BATCH};
  }

  lemma Found()
    ensures EntriesFor(BATCH, PROPOSAL) == [ENTRY] && AnswersFor(ANSWERS.answers, PROPOSAL) == [Answer(PROPOSAL, "yes")]
    ensures ChoicesWith([CHOICE], "yes") == [CHOICE] && ValidAnswers(BATCH, ANSWERS)
  {
    KeepSingle(ENTRY, (e: Entry) => e.proposal == PROPOSAL);
    KeepSingle(Answer(PROPOSAL, "yes"), (a: Answer) => a.proposal == PROPOSAL);
    KeepSingle(CHOICE, (c: Choice) => c.id == "yes");
    var es, choices, answers := BATCH.entries, [CHOICE], ANSWERS.answers;
    assert EntriesFor(BATCH, PROPOSAL) == Keep(es, (e: Entry) => e.proposal == PROPOSAL);
    assert choices[0].id == "yes" && HasChoice(choices, "yes");
    assert PositionOf(es, PROPOSAL) == 0;
    assert AnswerOk(BATCH, answers[0]);
  }

  lemma DecideStep()
    ensures Step(L3, OpDecide(REGISTRY, REQUEST, ["worker"])) == (L4, Done)
  {
    hide Routes, ValidAnswers, EntriesFor, AnswersFor, ChoicesWith;
    RoutesWorker(L3);
    Found();
    WorkerMatches();
    assert REGISTRY.role("planner") == Some("planner");
    assert Admit(L3, REGISTRY, REQUEST, ["worker"]) == Frozen(ENTRY);
    assert RecordOf(REQUEST, ENTRY) == RECORD;
    OneDelivery();
  }

  lemma WorkerMatches()
    ensures RoleMatch(REGISTRY, ["worker"], ["worker"])
  {
    var one := ["worker"];
    assert "worker"[0] != "planner"[0];
    assert Equivalent(REGISTRY, "worker", "worker");
    assert FirstEquivalent(REGISTRY, "worker", one) == 0;
    assert one[1..] == [] && one[..0] + one[1..] == [];
  }

  lemma OneDelivery()
    ensures L3.deliveries + NewDeliveries(L3, REGISTRY, RECORD) == map[(PROPOSAL, "worker") := Delivery(RECORD, Waiting)]
  {
    assert RECORD.recipients == ["worker"];
  }

  lemma PublishStep()
    ensures Step(L4, OpPublish(0, "comment:1")) == (L5, Done)
  {
    assert Step(L4, OpPublish(0, "comment:1")).0.outbox == L5.outbox;
  }

  lemma ClaimStep()
    ensures Step(L5, OpClaim(REGISTRY, PROPOSAL, "worker", "worker", SOURCE)) == (L6, Done)
  {
    hide Claim;
    assert REGISTRY.role("worker").Some? && REGISTRY.route("worker") == "worker";
    assert DeliveryFor(L5, REGISTRY, PROPOSAL, "worker", "worker");
    ClaimGoes();
  }

  const EFFECT := Effect(RECORD, "stable", "comment:1")

  lemma ClaimGoes()
    ensures Claim(L5, PROPOSAL, "worker", SOURCE) == (L6, Done)
  {
    hide ClaimError, SetState;
    ClaimIsClear();
    assert Receipt(L5, PROPOSAL) == "comment:1";
    assert Claim(L5, PROPOSAL, "worker", SOURCE)
           == (SetState(Ingest(L5, KEY, SOURCE).(effectivity := L5.effectivity[PROPOSAL := EFFECT]), (PROPOSAL, "worker"), DeliveryState.Claimed), Done);
    ClaimEnds();
  }

  lemma ClaimEnds()
    ensures SetState(Ingest(L5, KEY, SOURCE).(effectivity := L5.effectivity[PROPOSAL := EFFECT]), (PROPOSAL, "worker"), DeliveryState.Claimed) == L6
  {
    var m := SetState(Ingest(L5, KEY, SOURCE).(effectivity := L5.effectivity[PROPOSAL := EFFECT]), (PROPOSAL, "worker"), DeliveryState.Claimed);
    assert m.sources == L6.sources && m.snapshots == L6.snapshots && m.effectivity == L6.effectivity && m.deliveries == L6.deliveries;
  }

  lemma ClaimIsClear()
    ensures ClaimError(L5, PROPOSAL, "worker").None?
  {
  }

  /** From an empty ledger: fetch the source, submit, freeze a batch, decide, publish, claim; then the
      decision is granted to its recipient. */
  lemma GrantIsReachable()
    ensures var ops := [OpSource(WHERE, SOURCE), OpSubmit(PACKET, false), OpBatch(REGISTRY, BATCH), OpDecide(REGISTRY, REQUEST, ["worker"]),
                        OpPublish(0, "comment:1"), OpClaim(REGISTRY, PROPOSAL, "worker", "worker", SOURCE)];
            RequireEffective(Run(EMPTY, ops), REGISTRY, QUERY) == Granted(PROPOSAL, "worker")
  {
    hide Step, RequireEffective;
    SourceStep();
    SubmitStep();
    BatchStep();
    DecideStep();
    PublishStep();
    ClaimStep();
    var o1, o2, o3 := OpSource(WHERE, SOURCE), OpSubmit(PACKET, false), OpBatch(REGISTRY, BATCH);
    var o4, o5, o6 := OpDecide(REGISTRY, REQUEST, ["worker"]), OpPublish(0, "comment:1"), OpClaim(REGISTRY, PROPOSAL, "worker", "worker", SOURCE);
    assert [o1, o2, o3, o4, o5, o6][1..] == [o2, o3, o4, o5, o6];
    assert [o2, o3, o4, o5, o6][1..] == [o3, o4, o5, o6];
    assert [o3, o4, o5, o6][1..] == [o4, o5, o6];
    assert [o4, o5, o6][1..] == [o5, o6];
    assert [o5, o6][1..] == [o6];
    assert [o6][1..] == [];
    assert Run(L5, [o6]) == Run(L6, []);
    assert Run(L4, [o5, o6]) == L6 && Run(L3, [o4, o5, o6]) == L6 && Run(L2, [o3, o4, o5, o6]) == L6;
    assert Run(L1, [o2, o3, o4, o5, o6]) == L6 && Run(EMPTY, [o1, o2, o3, o4, o5, o6]) == L6;
    Grants();
  }

  const QUERY := Query("owner/repository", 1, "worker", Some("scope"), Some(RECORD), None, None, None, None, None, true)

  lemma Grants()
    ensures RequireEffective(L6, REGISTRY, QUERY) == Granted(PROPOSAL, "worker")
  {
    hide Matches, MatchError, ProposalError, RoleMatches, InterestIn, InterestOf;
    InterestStands();
    RowStands();
    NothingWrong();
    var rows := RoleMatches(L6, REGISTRY, QUERY);
    assert |rows| == 1;
  }

  lemma InterestStands()
    ensures InterestOf(L6, REGISTRY, QUERY) == {PROPOSAL} && ProposalError(L6, InterestOf(L6, REGISTRY, QUERY)).None?
  {
    hide Considered;
    RowMatches();
    WorkerIsWorker();
    assert (PROPOSAL, "worker") in L6.interests;
    assert InterestOf(L6, REGISTRY, QUERY) == {PROPOSAL};
    assert BoundProposal(L6, PROPOSAL);
  }

  lemma WorkerIsWorker()
    ensures Equivalent(REGISTRY, "worker", "worker")
  {
    assert "worker"[0] != "planner"[0];
  }

  lemma RowStands()
    ensures RoleMatches(L6, REGISTRY, QUERY) == {(PROPOSAL, "worker")}
  {
    hide Matches;
    RowMatches();
    WorkerIsWorker();
    assert (PROPOSAL, "worker") in L6.deliveries;
    forall k | k in RoleMatches(L6, REGISTRY, QUERY) ensures k == (PROPOSAL, "worker") { assert k in L6.deliveries; }
  }

  lemma NothingWrong()
    ensures Matches(L6, QUERY, (PROPOSAL, "worker")) && MatchError(L6, REGISTRY, QUERY, (PROPOSAL, "worker")).None?
  {
    hide FrozenBatchDecision, Matches;
    RowMatches();
    FrozenHolds();
    assert L6.decisions[PROPOSAL].record == RECORD && Receipt(L6, PROPOSAL) == "comment:1" && "comment:1" != "";
  }

  lemma RowMatches()
    ensures Considered(L6, QUERY, PROPOSAL) && Matches(L6, QUERY, (PROPOSAL, "worker"))
  {
    assert KEY in L6.current;
  }

  lemma FrozenHolds()
    ensures FrozenBatchDecision(L6.batches, L6.events, RECORD, "worker")
  {
    hide EntriesFor, AnswersFor, ChoicesWith;
    Found();
  }
}
