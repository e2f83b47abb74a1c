/** The approval ledger as values: proposals, frozen review batches, decisions, deliveries,
    revocations and the contract pointer, with one function per ledger transaction.  A digest is
    represented by the value it digests, so a proposal is identified by its semantic packet, a batch
    and an answer map by their contents, and a decision by its record. */
module ApprovalSpec {
  import opened Prelude

  datatype Schema = V1 | V2

  datatype Key = Key(repository: string, issue: int, decision: string)

  /** An issue payload: what the stable comparison keeps, and the fields it drops. */
  datatype Payload = Payload(stable: string, volatile: string)

  datatype Verdict = Approve | Reject | CourseCorrect | Defer

  datatype Choice = Choice(id: string, text: string, outcome: Verdict)

  /** The fields that identify a proposal; version 1 leaves the evidence out. */
  datatype Semantic = Semantic(
    schema: Schema, key: Key, source: Payload, scope: string, boundary: string, terms: string,
    choices: seq<Choice>, expires: Option<int>, evidence: Option<string>)

  datatype Packet = Packet(
    schema: Schema, key: Key, source: Payload, scope: string, boundary: string, terms: string,
    choices: seq<Choice>, expires: Option<int>, evidence: string,
    requester: string, recipient: string, workstream: string, priority: nat, urgency: nat)

  function SemanticOf(p: Packet): Semantic {
    Semantic(p.schema, p.key, p.source, p.scope, p.boundary, p.terms, p.choices, p.expires,
             if p.schema.V2? then Some(p.evidence) else None)
  }

  datatype Proposal = Proposal(packet: Packet, generation: int, supersedes: Option<Semantic>)

  /** One recipient's interest; lower ranks are more pressing. */
  datatype Interest = Interest(priority: nat, urgency: nat, count: nat)

  datatype Entry = Entry(proposal: Semantic, source: Payload, scope: string, recipients: seq<string>, choices: seq<Choice>)

  datatype Batch = Batch(repository: string, entries: seq<Entry>)

  datatype Answer = Answer(proposal: Semantic, choice: string)

  datatype AnswerMap = AnswerMap(batch: Batch, answers: seq<Answer>)

  /** `batch` and `answers` are absent on the event of a revocation. */
  datatype UserEvent = UserEvent(input: string, planner: string, batch: Option<Batch>, answers: Option<AnswerMap>)

  datatype Record = Record(
    proposal: Semantic, verdict: Verdict, choice: string, outcome: Verdict, revisit: Option<string>,
    recipients: seq<string>, scope: string, batch: Batch, answers: AnswerMap, choices: seq<Choice>,
    note: string, input: string, event: string, planner: string)

  datatype Decision = Decision(record: Record, outbox: nat)

  datatype DeliveryState = Waiting | Claimed | Acknowledged | Held

  datatype Delivery = Delivery(record: Record, state: DeliveryState)

  datatype Effect = Effect(record: Record, source: string, receipt: string)

  datatype Revocation = Revocation(proposal: Semantic, reason: string, input: string, event: string, planner: string)

  datatype Outbox = Outbox(complete: bool, receipt: string)

  datatype Contract = Legacy | Current(authority: string)

  datatype Ledger = Ledger(
    proposals: map<Semantic, Proposal>,
    current: map<Key, Semantic>,
    interests: map<(Semantic, string), Interest>,
    submissions: set<Packet>,
    batches: set<Batch>,
    events: map<string, UserEvent>,
    decisions: map<Semantic, Decision>,
    deliveries: map<(Semantic, string), Delivery>,
    effectivity: map<Semantic, Effect>,
    revocations: map<Record, Revocation>,
    outbox: map<nat, Outbox>,
    nextOutbox: nat,
    contract: Contract,
    sources: map<(string, int), Payload>,
    snapshots: set<((string, int), Payload)>)

  /** The identity registry and the clock as one call sees them: the historical role of an identity,
      its current canonical route, the current endpoint of a role, and the time. */
  datatype Registry = Registry(
    role: string -> Option<string>, route: string -> string, endpoint: string -> Option<string>, now: int)

  datatype Reply = Done | Idempotent | Err(code: string)

  const EMPTY := Ledger(map[], map[], map[], {}, {}, map[], map[], map[], map[], map[], map[], 0, Legacy, map[], {})

  // ---- Shared checks ---------------------------------------------------------------------

  predicate Equivalent(g: Registry, a: string, b: string) {
    g.role(a).Some? && g.role(a) == g.role(b)
  }

  function Where(k: Key): (string, int) {
    (k.repository, k.issue)
  }

  predicate Quarantined(l: Ledger, s: Schema) {
    l.contract.Current? && s.V1?
  }

  predicate SourceCurrent(l: Ledger, key: Key, source: Payload) {
    Where(key) in l.sources && l.sources[Where(key)] == source
  }

  predicate IsCurrent(l: Ledger, p: Semantic) {
    p.key in l.current && l.current[p.key] == p
  }

  predicate ExpiredAt(p: Semantic, now: int) {
    p.expires.Some? && p.expires.value <= now
  }

  predicate Open(s: DeliveryState) {
    s.Waiting? || s.Claimed?
  }

  predicate HasOpen(l: Ledger, p: Semantic) {
    exists k :: k in l.deliveries && k.0 == p && Open(l.deliveries[k].state)
  }

  // ---- Proposals -------------------------------------------------------------------------

  function RecordInterest(l: Ledger, p: Semantic, packet: Packet): Ledger {
    var k := (p, packet.recipient);
    var i := if k in l.interests
             then Interest(Min(l.interests[k].priority, packet.priority), Min(l.interests[k].urgency, packet.urgency), l.interests[k].count + 1)
             else Interest(packet.priority, packet.urgency, 1);
    l.(interests := l.interests[k := i], submissions := l.submissions + {packet})
  }

  function Submit(l: Ledger, packet: Packet, readinessBound: bool): (Ledger, Reply) {
    var p := SemanticOf(packet);
    if Quarantined(l, packet.schema) then (l, Err("LEGACY_AUTHORITY_HOLD"))
    else if (packet.workstream == "READINESS") != readinessBound then (l, Err("APPROVAL_READINESS_BINDING_MISMATCH"))
    else if !SourceCurrent(l, packet.key, packet.source) then (l, Err("APPROVAL_SOURCE_SNAPSHOT_DRIFT"))
    else if packet in l.submissions then (l, Idempotent)
    else if IsCurrent(l, p) then
      if p in l.decisions && (p, packet.recipient) !in l.interests then (l, Err("APPROVAL_RECIPIENT_SET_FROZEN"))
      else (RecordInterest(l, p, packet), Done)
    else if p in l.proposals then (l, Err("APPROVAL_SEMANTIC_REQUEST_SUPPRESSED"))
    else if p.key in l.current && HasOpen(l, l.current[p.key]) then (l, Err("APPROVAL_DECISION_IN_FLIGHT"))
    else if p.key in l.current && l.current[p.key] !in l.proposals then (l, Err("APPROVAL_CURRENT_BROKEN"))
    else
      var supersedes := if p.key in l.current then Some(l.current[p.key]) else None;
      var generation := if p.key in l.current then l.proposals[l.current[p.key]].generation + 1 else 1;
      var l1 := l.(proposals := l.proposals[p := Proposal(packet, generation, supersedes)], current := l.current[p.key := p]);
      (RecordInterest(l1, p, packet), Done)
  }

  // ---- Review batches --------------------------------------------------------------------

  predicate Distinct(xs: seq<string>) {
    forall i, j :: 0 <= i < j < |xs| ==> xs[i] != xs[j]
  }

  /** `routed` lists, without repetition, the current routes of everyone interested in `p`. */
  predicate Routes(l: Ledger, g: Registry, p: Semantic, routed: seq<string>) {
    && routed != [] && Distinct(routed)
    && (forall k :: k in l.interests && k.0 == p ==> g.route(k.1) in routed)
    && (forall i :: 0 <= i < |routed| ==> exists k :: k in l.interests && k.0 == p && g.route(k.1) == routed[i])
  }

  function BindingOf(p: Semantic, routed: seq<string>): Entry {
    Entry(p, p.source, p.scope, routed, p.choices)
  }

  predicate Reviewable(l: Ledger, g: Registry, repository: string, p: Semantic) {
    && p in l.proposals && IsCurrent(l, p) && p.key.repository == repository && p !in l.decisions
    && SourceCurrent(l, p.key, p.source) && !ExpiredAt(p, g.now) && !Quarantined(l, p.schema)
  }

  /** The batch freezes exactly the reviewable proposals of a repository, in presentation order. */
  predicate BatchFor(l: Ledger, g: Registry, b: Batch) {
    && (forall i, j :: 0 <= i < j < |b.entries| ==> b.entries[i].proposal != b.entries[j].proposal)
    && (forall i :: 0 <= i < |b.entries| ==>
          && Reviewable(l, g, b.repository, b.entries[i].proposal)
          && Routes(l, g, b.entries[i].proposal, b.entries[i].recipients)
          && b.entries[i] == BindingOf(b.entries[i].proposal, b.entries[i].recipients))
    && (forall p :: p in l.proposals && Reviewable(l, g, b.repository, p) ==>
          exists i :: 0 <= i < |b.entries| && b.entries[i].proposal == p)
  }

  function CreateBatch(l: Ledger, g: Registry, b: Batch): (Ledger, Reply) {
    if !BatchFor(l, g, b) then (l, Err("APPROVAL_BATCH_NOT_PENDING"))
    else if b in l.batches then (l, Idempotent)
    else (l.(batches := l.batches + {b}), Done)
  }

  function EntriesFor(b: Batch, p: Semantic): seq<Entry> {
    Keep(b.entries, (e: Entry) => e.proposal == p)
  }

  /** Match each current recipient with a different frozen one of the same role. */
  predicate RoleMatch(g: Registry, now: seq<string>, frozen: seq<string>)
    decreases |now|
  {
    if now == [] then frozen == []
    else
      var i := FirstEquivalent(g, now[0], frozen);
      i < |frozen| && RoleMatch(g, now[1..], frozen[..i] + frozen[i+1..])
  }

  function FirstEquivalent(g: Registry, r: string, frozen: seq<string>): (i: nat)
    ensures i <= |frozen| && (i < |frozen| ==> Equivalent(g, r, frozen[i]))
  {
    if frozen == [] then 0
    else if Equivalent(g, r, frozen[0]) then 0 else 1 + FirstEquivalent(g, r, frozen[1..])
  }

  datatype Loaded = Frozen(entry: Entry) | NotLoaded(code: string)

  function LoadBatch(l: Ledger, g: Registry, b: Batch, p: Semantic, routed: seq<string>): Loaded {
    if b !in l.batches then NotLoaded("APPROVAL_REVIEW_BATCH_REQUIRED")
    else
      var found := EntriesFor(b, p);
      if |found| != 1 then NotLoaded("APPROVAL_PROPOSAL_NOT_IN_BATCH")
      else if p !in l.proposals then NotLoaded("APPROVAL_PROPOSAL_NOT_FOUND")
      else if Quarantined(l, p.schema) then NotLoaded("LEGACY_AUTHORITY_HOLD")
      else if !Routes(l, g, p, routed) || !RoleMatch(g, routed, found[0].recipients) then NotLoaded("APPROVAL_BATCH_RECIPIENT_SET_DRIFT")
      else if found[0].source != p.source || found[0].scope != p.scope || found[0].choices != p.choices then
        NotLoaded("APPROVAL_BATCH_PROPOSAL_BINDING_DRIFT")
      else Frozen(found[0])
  }

  // ---- Answers ---------------------------------------------------------------------------

  function PositionOf(es: seq<Entry>, p: Semantic): (i: nat)
    ensures i <= |es| && (i < |es| ==> es[i].proposal == p)
    ensures forall j :: 0 <= j < i ==> es[j].proposal != p
  {
    if es == [] then 0 else if es[0].proposal == p then 0 else 1 + PositionOf(es[1..], p)
  }

  predicate HasChoice(choices: seq<Choice>, id: string) {
    exists i :: 0 <= i < |choices| && choices[i].id == id
  }

  predicate AnswerOk(b: Batch, a: Answer) {
    var i := PositionOf(b.entries, a.proposal);
    i < |b.entries| && HasChoice(b.entries[i].choices, a.choice)
  }

  /** Answers name offered choices of batch proposals, each proposal once, in batch order. */
  predicate ValidAnswers(b: Batch, m: AnswerMap) {
    && m.batch == b && m.answers != []
    && (forall i :: 0 <= i < |m.answers| ==> AnswerOk(b, m.answers[i]))
    && (forall i, j :: 0 <= i < j < |m.answers| ==>
          PositionOf(b.entries, m.answers[i].proposal) < PositionOf(b.entries, m.answers[j].proposal))
  }

  function AnswersFor(answers: seq<Answer>, p: Semantic): seq<Answer> {
    Keep(answers, (a: Answer) => a.proposal == p)
  }

  function ChoicesWith(choices: seq<Choice>, id: string): seq<Choice> {
    Keep(choices, (c: Choice) => c.id == id)
  }

  // ---- Decisions -------------------------------------------------------------------------

  datatype Request = Request(
    proposal: Semantic, batch: Batch, answers: AnswerMap, verdict: Verdict, choice: string,
    revisit: Option<string>, note: string, input: string, event: string, planner: string)

  predicate ReadinessRecipient(l: Ledger, g: Registry, p: Semantic, recipient: string) {
    exists s :: s in l.submissions && SemanticOf(s) == p && s.workstream == "READINESS" && Equivalent(g, s.recipient, recipient)
  }

  function RecordOf(q: Request, frozen: Entry): Record {
    Record(q.proposal, q.verdict, q.choice, q.verdict, q.revisit, frozen.recipients, frozen.scope,
           q.batch, q.answers, frozen.choices, q.note, q.input, q.event, q.planner)
  }

  function EventOf(q: Request): UserEvent {
    UserEvent(q.input, q.planner, Some(q.batch), Some(q.answers))
  }

  /** Only a readiness recipient waits to consume a deferral; every other deferral is held at once. */
  function FirstState(l: Ledger, g: Registry, record: Record, recipient: string): DeliveryState {
    if record.verdict.Defer? && !ReadinessRecipient(l, g, record.proposal, recipient) then Held else Waiting
  }

  function NewDeliveries(l: Ledger, g: Registry, record: Record): map<(Semantic, string), Delivery> {
    map r | r in record.recipients :: (record.proposal, r) := Delivery(record, FirstState(l, g, record, r))
  }

  /** The frozen entry a request decides on, or why it cannot. */
  function Admit(l: Ledger, g: Registry, q: Request, routed: seq<string>): Loaded {
    var p := q.proposal;
    if g.role(q.planner) != Some("planner") then NotLoaded("PLANNER_SESSION_REQUIRED")
    else if !q.verdict.Defer? && q.revisit.Some? then NotLoaded("APPROVAL_REVISIT_TRIGGER_UNEXPECTED")
    else if q.verdict.Defer? && q.revisit.None? then NotLoaded("APPROVAL_TEXT_INVALID")
    else if p !in l.proposals then NotLoaded("APPROVAL_PROPOSAL_NOT_FOUND")
    else if !IsCurrent(l, p) then NotLoaded("APPROVAL_PROPOSAL_SUPERSEDED")
    else if Quarantined(l, p.schema) then NotLoaded("LEGACY_AUTHORITY_HOLD")
    else if !SourceCurrent(l, p.key, p.source) then NotLoaded("APPROVAL_SOURCE_SNAPSHOT_DRIFT")
    else if ExpiredAt(p, g.now) then NotLoaded("APPROVAL_PROPOSAL_EXPIRED")
    else
      var loaded := LoadBatch(l, g, q.batch, p, routed);
      if loaded.NotLoaded? then loaded
      else if !ValidAnswers(q.batch, q.answers) then NotLoaded("APPROVAL_BATCH_ANSWER_MAP_INVALID")
      else
        var answers := AnswersFor(q.answers.answers, p);
        var offered := ChoicesWith(loaded.entry.choices, q.choice);
        if answers == [] then NotLoaded("APPROVAL_BATCH_ANSWER_MISSING")
        else if answers[0].choice != q.choice then NotLoaded("APPROVAL_BATCH_ANSWER_MISMATCH")
        else if |offered| != 1 then NotLoaded("APPROVAL_SELECTED_OPTION_INVALID")
        else if offered[0].outcome != q.verdict then NotLoaded("APPROVAL_OPTION_OUTCOME_MISMATCH")
        else if loaded.entry.recipients == [] then NotLoaded("APPROVAL_RECIPIENT_MISSING")
        else loaded
  }

  function RecordDecision(l: Ledger, g: Registry, q: Request, routed: seq<string>): (Ledger, Reply) {
    var p := q.proposal;
    var admitted := Admit(l, g, q, routed);
    if admitted.NotLoaded? then (l, Err(admitted.code))
    else
      var record := RecordOf(q, admitted.entry);
      if p in l.decisions then (l, if l.decisions[p].record == record then Idempotent else Err("APPROVAL_DECISION_CONFLICT"))
      else if q.event in l.events && l.events[q.event].batch != Some(q.batch) then (l, Err("APPROVAL_USER_EVENT_CROSS_BATCH_REUSE"))
      else if q.event in l.events && l.events[q.event] != EventOf(q) then (l, Err("APPROVAL_USER_EVENT_CONFLICT"))
      else
        (l.(events := l.events[q.event := EventOf(q)],
            outbox := l.outbox[l.nextOutbox := Outbox(false, "")], nextOutbox := l.nextOutbox + 1,
            decisions := l.decisions[p := Decision(record, l.nextOutbox)],
            deliveries := l.deliveries + NewDeliveries(l, g, record)), Done)
  }

  // ---- Revocation ------------------------------------------------------------------------

  /** Every open delivery of the proposal is held. */
  function HoldOpen(deliveries: map<(Semantic, string), Delivery>, p: Semantic): map<(Semantic, string), Delivery> {
    map k | k in deliveries ::
      if k.0 == p && Open(deliveries[k].state) then deliveries[k].(state := Held) else deliveries[k]
  }

  function Revoke(l: Ledger, g: Registry, p: Semantic, record: Record, reason: string, input: string, event: string,
                  planner: string): (Ledger, Reply)
  {
    var e := UserEvent(input, planner, None, None);
    if g.role(planner) != Some("planner") then (l, Err("PLANNER_SESSION_REQUIRED"))
    else if p !in l.proposals || p !in l.decisions || l.decisions[p].record != record then (l, Err("APPROVAL_DECISION_NOT_FOUND"))
    else if !IsCurrent(l, p) then (l, Err("APPROVAL_PROPOSAL_SUPERSEDED"))
    else if record in l.revocations then
      (l, if l.revocations[record].reason == reason && l.revocations[record].input == input then Idempotent
          else Err("APPROVAL_REVOCATION_CONFLICT"))
    else if event in l.events && l.events[event] != e then (l, Err("APPROVAL_USER_EVENT_CONFLICT"))
    else if Where(p.key) !in l.sources then (l, Err("APPROVAL_SOURCE_SNAPSHOT_MISSING"))
    else
      (l.(events := l.events[event := e],
          outbox := l.outbox[l.nextOutbox := Outbox(false, "")], nextOutbox := l.nextOutbox + 1,
          revocations := l.revocations[record := Revocation(p, reason, input, event, planner)],
          deliveries := HoldOpen(l.deliveries, p)), Done)
  }

  // ---- Claim and acknowledgement ---------------------------------------------------------

  /** The delivery a requested identity stands for: its own, or the only one of its role. */
  predicate DeliveryFor(l: Ledger, g: Registry, p: Semantic, asked: string, recipient: string) {
    && (p, recipient) in l.deliveries && g.role(asked).Some?
    && if (p, g.route(asked)) in l.deliveries then recipient == g.route(asked)
       else
         && Equivalent(g, recipient, g.route(asked))
         && forall k :: k in l.deliveries && k.0 == p && Equivalent(g, k.1, g.route(asked)) ==> k.1 == recipient
  }

  /** What both claims check of the joined row. */
  function ClaimError(l: Ledger, p: Semantic, recipient: string): Option<string>
    requires (p, recipient) in l.deliveries
  {
    var x := l.deliveries[(p, recipient)];
    if p !in l.decisions || l.decisions[p].record != x.record || p !in l.proposals || p.key !in l.current
       || l.decisions[p].outbox !in l.outbox then Some("APPROVAL_DELIVERY_NOT_FOUND")
    else if !IsCurrent(l, p) then Some("APPROVAL_PROPOSAL_SUPERSEDED")
    else if x.record in l.revocations then Some("APPROVAL_DECISION_REVOKED")
    else if !l.outbox[l.decisions[p].outbox].complete || l.outbox[l.decisions[p].outbox].receipt == "" then
      Some("APPROVAL_PUBLICATION_INCOMPLETE")
    else if x.state.Held? then Some("APPROVAL_DELIVERY_HELD")
    else None
  }

  function Receipt(l: Ledger, p: Semantic): string {
    if p in l.decisions && l.decisions[p].outbox in l.outbox then l.outbox[l.decisions[p].outbox].receipt else ""
  }

  predicate EffectConflicts(l: Ledger, p: Semantic, effect: Effect) {
    p in l.effectivity && l.effectivity[p] != effect
  }

  function SetState(l: Ledger, k: (Semantic, string), s: DeliveryState): Ledger
    requires k in l.deliveries
  {
    l.(deliveries := l.deliveries[k := l.deliveries[k].(state := s)])
  }

  function Ingest(l: Ledger, key: Key, source: Payload): Ledger {
    l.(sources := l.sources[Where(key) := source], snapshots := l.snapshots + {(Where(key), source)})
  }

  /** Why a claim inside a caller's transaction is refused, if it is. */
  function ClaimInError(l: Ledger, g: Registry, p: Semantic, recipient: string, refreshed: Payload, replay: bool,
                        expected: Option<Payload>, routed: seq<string>): Option<string>
    requires (p, recipient) in l.deliveries
  {
    var x := l.deliveries[(p, recipient)];
    var loaded := LoadBatch(l, g, x.record.batch, p, routed);
    if ClaimError(l, p, recipient).Some? then ClaimError(l, p, recipient)
    else if x.state.Acknowledged? && !replay then Some("APPROVAL_ALREADY_ACKNOWLEDGED")
    else if Quarantined(l, p.schema) then Some("LEGACY_AUTHORITY_HOLD")
    else if loaded.NotLoaded? then Some(loaded.code)
    else if !FrozenDecision(l, x.record, loaded.entry) then Some("APPROVAL_BATCH_DECISION_BINDING_INVALID")
    else if (Where(p.key), p.source) !in l.snapshots then Some("APPROVAL_SOURCE_SNAPSHOT_MISSING")
    else if Where(p.key) !in l.sources then Some("APPROVAL_CURRENT_SOURCE_MISSING")
    else if expected.Some? && l.sources[Where(p.key)] != expected.value then Some("APPROVAL_CURRENT_SOURCE_DIGEST_DRIFT")
    else if l.sources[Where(p.key)].stable != refreshed.stable || p.source.stable != refreshed.stable then
      Some("APPROVAL_SOURCE_DRIFT_AFTER_PUBLICATION")
    else None
  }

  /** The claim made inside a caller's transaction. */
  function ClaimInTransaction(l: Ledger, g: Registry, p: Semantic, recipient: string, refreshed: Payload, replay: bool,
                              ingest: bool, expected: Option<Payload>, routed: seq<string>): (Ledger, Reply)
  {
    if (p, recipient) !in l.deliveries then (l, Err("APPROVAL_DELIVERY_NOT_FOUND"))
    else
      var error := ClaimInError(l, g, p, recipient, refreshed, replay, expected, routed);
      var x := l.deliveries[(p, recipient)];
      var effect := Effect(x.record, refreshed.stable, Receipt(l, p));
      if error.Some? then (l, Err(error.value))
      else if EffectConflicts(l, p, effect) || (p !in l.effectivity && !x.state.Waiting?) then (l, Err("APPROVAL_EFFECTIVITY_CONFLICT"))
      else
        var l1 := WithEffect(l, p, refreshed, ingest, effect);
        (if x.state.Waiting? then SetState(l1, (p, recipient), Claimed) else l1, Done)
  }

  /** The effectivity row, and the refreshed source when the caller lets it be ingested. */
  function WithEffect(l: Ledger, p: Semantic, refreshed: Payload, ingest: bool, effect: Effect): (m: Ledger)
    ensures m.deliveries == l.deliveries
  {
    if ingest then Ingest(l, p.key, refreshed).(effectivity := l.effectivity[p := effect])
    else l.(effectivity := l.effectivity[p := effect])
  }

  /** The bindings between a decision, its event and the frozen entry that a claim re-checks. */
  predicate FrozenDecision(l: Ledger, d: Record, frozen: Entry) {
    && d.event in l.events && l.events[d.event].batch == Some(d.batch) && l.events[d.event].answers == Some(d.answers)
    && ValidAnswers(d.batch, d.answers)
    && AnswersFor(d.answers.answers, d.proposal) != [] && AnswersFor(d.answers.answers, d.proposal)[0].choice == d.choice
    && ChoicesWith(frozen.choices, d.choice) != [] && ChoicesWith(frozen.choices, d.choice)[0].outcome == d.verdict
    && d.outcome == d.verdict && d.scope == frozen.scope && d.choices == frozen.choices
  }

  /** The standalone claim: it refreshes the source first, and holds every open delivery of the
      proposal when the stable source has drifted. */
  function Claim(l: Ledger, p: Semantic, recipient: string, refreshed: Payload): (Ledger, Reply) {
    if (p, recipient) !in l.deliveries || p !in l.decisions || p !in l.proposals || l.decisions[p].outbox !in l.outbox then
      (l, Err("APPROVAL_DELIVERY_NOT_FOUND"))
    else if l.deliveries[(p, recipient)].state.Held? then (l, Err("APPROVAL_DELIVERY_HELD"))
    else if !l.outbox[l.decisions[p].outbox].complete || l.outbox[l.decisions[p].outbox].receipt == "" then
      (l, Err("APPROVAL_PUBLICATION_INCOMPLETE"))
    else if Quarantined(l, p.schema) then (l, Err("LEGACY_AUTHORITY_HOLD"))
    else
      var l1 := Ingest(l, p.key, refreshed);
      var x := l.deliveries[(p, recipient)];
      if ClaimError(l, p, recipient).Some? then (l1, Err(ClaimError(l, p, recipient).value))
      else if x.state.Acknowledged? then (l1, Err("APPROVAL_ALREADY_ACKNOWLEDGED"))
      else if (Where(p.key), p.source) !in l1.snapshots then (l1, Err("APPROVAL_SOURCE_SNAPSHOT_MISSING"))
      else if p.source.stable != refreshed.stable then
        (l1.(deliveries := HoldOpen(l.deliveries, p)), Err("APPROVAL_SOURCE_DRIFT_AFTER_PUBLICATION"))
      else if x.state.Waiting? then
        var effect := Effect(x.record, refreshed.stable, Receipt(l, p));
        if EffectConflicts(l, p, effect) then (l1, Err("APPROVAL_EFFECTIVITY_CONFLICT"))
        else (SetState(l1.(effectivity := l.effectivity[p := effect]), (p, recipient), Claimed), Done)
      else (l1, Done)
  }

  function Acknowledge(l: Ledger, p: Semantic, record: Record, recipient: string): (Ledger, Reply) {
    if p !in l.proposals then (l, Err("APPROVAL_PROPOSAL_NOT_FOUND"))
    else if Quarantined(l, p.schema) then (l, Err("LEGACY_AUTHORITY_HOLD"))
    else if (p, recipient) !in l.deliveries then (l, Err("APPROVAL_DELIVERY_NOT_FOUND"))
    else
      var x := l.deliveries[(p, recipient)];
      if x.record != record then (l, Err("APPROVAL_DELIVERY_BINDING_MISMATCH"))
      else if x.state.Acknowledged? then (l, Idempotent)
      else if !x.state.Claimed? then (l, Err("APPROVAL_DELIVERY_STATE_CONFLICT"))
      else (SetState(l, (p, recipient), Acknowledged), Done)
  }

  /** Readiness consumption: a drifted or revoked decision holds its own delivery if it is open. */
  function HoldDelivery(l: Ledger, p: Semantic, recipient: string): (Ledger, Reply) {
    if (p, recipient) in l.deliveries && Open(l.deliveries[(p, recipient)].state) then (SetState(l, (p, recipient), Held), Done)
    else (l, Idempotent)
  }

  /** The contract pointer moves once, to version 2. */
  function Activate(l: Ledger, authority: string, pointerDrift: bool): (Ledger, Reply) {
    if l.contract.Current? then
      (l, if l.contract.authority == authority then Idempotent else Err("APPROVAL_SEMANTIC_CONTRACT_CONFLICT"))
    else if pointerDrift then (l, Err("APPROVAL_SEMANTIC_CONTRACT_ACTIVATION_POINTER_DRIFT"))
    else (l.(contract := Current(authority)), Done)
  }

  // ---- Runs ------------------------------------------------------------------------------

  datatype Op =
    | OpSubmit(packet: Packet, readinessBound: bool)
    | OpBatch(g: Registry, batch: Batch)
    | OpDecide(g: Registry, request: Request, routed: seq<string>)
    | OpRevoke(g: Registry, p: Semantic, record: Record, reason: string, input: string, event: string, planner: string)
    | OpClaimIn(g: Registry, p: Semantic, asked: string, recipient: string, refreshed: Payload, replay: bool, ingest: bool,
                expected: Option<Payload>, routed: seq<string>)
    | OpClaim(g: Registry, p: Semantic, asked: string, recipient: string, refreshed: Payload)
    | OpAcknowledge(g: Registry, p: Semantic, record: Record, asked: string, recipient: string)
    | OpHoldDelivery(p: Semantic, recipient: string)
    | OpActivate(authority: string, pointerDrift: bool)
    | OpPublish(id: nat, receipt: string)
    | OpSource(where: (string, int), source: Payload)

  function Step(l: Ledger, op: Op): (Ledger, Reply) {
    match op
    case OpSubmit(packet, bound) => Submit(l, packet, bound)
    case OpBatch(g, b) => CreateBatch(l, g, b)
    case OpDecide(g, q, routed) => RecordDecision(l, g, q, routed)
    case OpRevoke(g, p, record, reason, input, event, planner) => Revoke(l, g, p, record, reason, input, event, planner)
    case OpClaimIn(g, p, asked, recipient, refreshed, replay, ingest, expected, routed) =>
      if !DeliveryFor(l, g, p, asked, recipient) then (l, Err("APPROVAL_RECIPIENT_MISMATCH"))
      else ClaimInTransaction(l, g, p, recipient, refreshed, replay, ingest, expected, routed)
    case OpClaim(g, p, asked, recipient, refreshed) =>
      if !DeliveryFor(l, g, p, asked, recipient) then (l, Err("APPROVAL_RECIPIENT_MISMATCH"))
      else Claim(l, p, recipient, refreshed)
    case OpAcknowledge(g, p, record, asked, recipient) =>
      if !DeliveryFor(l, g, p, asked, recipient) then (l, Err("APPROVAL_RECIPIENT_MISMATCH"))
      else Acknowledge(l, p, record, recipient)
    case OpHoldDelivery(p, recipient) => HoldDelivery(l, p, recipient)
    case OpActivate(authority, drift) => Activate(l, authority, drift)
    case OpPublish(id, receipt) =>
      if id !in l.outbox || l.outbox[id].complete then (l, Err("OUTBOX_STATE_CONFLICT"))
      else (l.(outbox := l.outbox[id := Outbox(true, receipt)]), Done)
    case OpSource(where, source) =>
      (l.(sources := l.sources[where := source], snapshots := l.snapshots + {(where, source)}), Done)
  }

  function Run(l: Ledger, ops: seq<Op>): Ledger
    decreases |ops|
  {
    if ops == [] then l else Run(Step(l, ops[0]).0, ops[1..])
  }
}
