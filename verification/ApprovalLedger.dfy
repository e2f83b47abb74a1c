/** The approval ledger object: its transactions update the tables step by step, and each is proved
    against the value model. */
module ApprovalLedger {
  import opened Prelude
  import Spec = ApprovalSpec
  import opened ApprovalProofs
  import ApprovalGuard

  /** The scan of an answer map: every answer once, offered, and in batch order. */
  method ValidateAnswers(b: Spec.Batch, m: Spec.AnswerMap) returns (ok: bool)
    ensures ok <==> Spec.ValidAnswers(b, m)
  {
    if m.batch != b || m.answers == [] {
      return false;
    }
    var seen: set<Spec.Semantic>, order: seq<nat> := {}, [];
    var i := 0;
    while i < |m.answers|
      invariant 0 <= i == |order| <= |m.answers|
      invariant seen == set k | 0 <= k < i :: m.answers[k].proposal
      invariant forall k :: 0 <= k < i ==> Spec.AnswerOk(b, m.answers[k]) && order[k] == Spec.PositionOf(b.entries, m.answers[k].proposal)
      invariant forall j, k :: 0 <= j < k < i ==> m.answers[j].proposal != m.answers[k].proposal
    {
      var a := m.answers[i];
      var at := Spec.PositionOf(b.entries, a.proposal);
      if at == |b.entries| {
        assert !Spec.AnswerOk(b, m.answers[i]);
        return false;
      }
      if a.proposal in seen {
        var j :| 0 <= j < i && m.answers[j].proposal == a.proposal;
        assert !(Spec.PositionOf(b.entries, m.answers[j].proposal) < Spec.PositionOf(b.entries, m.answers[i].proposal));
        return false;
      }
      if !Spec.HasChoice(b.entries[at].choices, a.choice) {
        assert !Spec.AnswerOk(b, m.answers[i]);
        return false;
      }
      seen, order := seen + {a.proposal}, order + [at];
      i := i + 1;
    }
    ok := InOrder(order);
    OrderDecides(b, m, order);
  }

  method InOrder(order: seq<nat>) returns (ok: bool)
    ensures ok <==> forall j, k :: 0 <= j < k < |order| ==> order[j] <= order[k]
  {
    var i := 1;
    while i < |order|
      invariant 1 <= i && (i <= |order| || |order| == 0)
      invariant forall j, k :: 0 <= j < k < i && k < |order| ==> order[j] <= order[k]
    {
      if order[i] < order[i-1] {
        return false;
      }
      i := i + 1;
    }
    ok := true;
  }

  /** Without repetition, a sorted order is strictly increasing. */
  lemma OrderDecides(b: Spec.Batch, m: Spec.AnswerMap, order: seq<nat>)
    requires m.batch == b && m.answers != [] && |order| == |m.answers|
    requires forall k :: 0 <= k < |order| ==> Spec.AnswerOk(b, m.answers[k]) && order[k] == Spec.PositionOf(b.entries, m.answers[k].proposal)
    requires forall j, k :: 0 <= j < k < |order| ==> m.answers[j].proposal != m.answers[k].proposal
    ensures Spec.ValidAnswers(b, m) <==> forall j, k :: 0 <= j < k < |order| ==> order[j] <= order[k]
  {
    forall j, k | 0 <= j < k < |order| ensures order[j] != order[k] {
      assert Spec.AnswerOk(b, m.answers[j]) && Spec.AnswerOk(b, m.answers[k]);
    }
    if Spec.ValidAnswers(b, m) {
      forall j, k | 0 <= j < k < |order| ensures order[j] <= order[k] {
        assert Spec.PositionOf(b.entries, m.answers[j].proposal) < Spec.PositionOf(b.entries, m.answers[k].proposal);
      }
    }
  }

  lemma {:induction false} RoleMatchLength(g: Spec.Registry, now: seq<string>, frozen: seq<string>)
    ensures Spec.RoleMatch(g, now, frozen) ==> |now| == |frozen|
    decreases |now|
  {
    if now != [] {
      var i := Spec.FirstEquivalent(g, now[0], frozen);
      if i < |frozen| { RoleMatchLength(g, now[1..], frozen[..i] + frozen[i+1..]); }
    }
  }

  /** Strike each current recipient off the frozen list by role. */
  method MatchRecipients(g: Spec.Registry, now: seq<string>, frozen: seq<string>) returns (ok: bool)
    ensures ok <==> Spec.RoleMatch(g, now, frozen)
  {
    RoleMatchLength(g, now, frozen);
    if |now| != |frozen| {
      return false;
    }
    var unmatched, i := frozen, 0;
    while i < |now|
      invariant 0 <= i <= |now| && |unmatched| == |now| - i
      invariant Spec.RoleMatch(g, now, frozen) <==> Spec.RoleMatch(g, now[i..], unmatched)
    {
      assert now[i..][0] == now[i] && now[i..][1..] == now[i+1..];
      var at := Spec.FirstEquivalent(g, now[i], unmatched);
      if at == |unmatched| {
        return false;
      }
      unmatched := unmatched[..at] + unmatched[at+1..];
      i := i + 1;
    }
    ok := true;
  }

  class Ledger {
    var tables: Spec.Ledger

    constructor ()
      ensures tables == Spec.EMPTY && Inv(tables)
    {
      tables := Spec.EMPTY;
    }

    method RecordInterest(p: Spec.Semantic, packet: Spec.Packet)
      modifies this
      ensures tables == Spec.RecordInterest(old(tables), p, packet)
    {
      tables := tables.(submissions := tables.submissions + {packet});
      var k := (p, packet.recipient);
      var priority, urgency, count := packet.priority, packet.urgency, 1;
      if k in tables.interests {
        var existing := tables.interests[k];
        if existing.priority < priority { priority := existing.priority; }
        if existing.urgency < urgency { urgency := existing.urgency; }
        count := existing.count + 1;
      }
      tables := tables.(interests := tables.interests[k := Spec.Interest(priority, urgency, count)]);
    }

    method SubmitProposal(packet: Spec.Packet, readinessBound: bool) returns (r: Spec.Reply)
      requires Inv(tables)
      modifies this
      ensures Inv(tables) && (tables, r) == Spec.Submit(old(tables), packet, readinessBound)
    {
      hide Inv, Grows, StatesMove, Spec.SemanticOf, Spec.RecordInterest, Spec.HasOpen;
      SubmitKeeps(tables, packet, readinessBound);
      var p := Spec.SemanticOf(packet);
      if Spec.Quarantined(tables, packet.schema) { return Spec.Err("LEGACY_AUTHORITY_HOLD"); }
      if (packet.workstream == "READINESS") != readinessBound { return Spec.Err("APPROVAL_READINESS_BINDING_MISMATCH"); }
      if !Spec.SourceCurrent(tables, packet.key, packet.source) { return Spec.Err("APPROVAL_SOURCE_SNAPSHOT_DRIFT"); }
      if packet in tables.submissions { return Spec.Idempotent; }
      if Spec.IsCurrent(tables, p) {
        if p in tables.decisions && (p, packet.recipient) !in tables.interests { return Spec.Err("APPROVAL_RECIPIENT_SET_FROZEN"); }
        RecordInterest(p, packet);
        return Spec.Done;
      }
      if p in tables.proposals { return Spec.Err("APPROVAL_SEMANTIC_REQUEST_SUPPRESSED"); }
      var supersedes, generation := None, 1;
      if p.key in tables.current {
        var prior := tables.current[p.key];
        if Spec.HasOpen(tables, prior) { return Spec.Err("APPROVAL_DECISION_IN_FLIGHT"); }
        if prior !in tables.proposals { return Spec.Err("APPROVAL_CURRENT_BROKEN"); }
        supersedes, generation := Some(prior), tables.proposals[prior].generation + 1;
      }
      tables := tables.(proposals := tables.proposals[p := Spec.Proposal(packet, generation, supersedes)]);
      tables := tables.(current := tables.current[p.key := p]);
      RecordInterest(p, packet);
      r := Spec.Done;
    }

    method LoadBatch(g: Spec.Registry, b: Spec.Batch, p: Spec.Semantic, routed: seq<string>) returns (r: Spec.Loaded)
      ensures r == Spec.LoadBatch(tables, g, b, p, routed)
    {
      hide Spec.RoleMatch, Spec.Routes;
      if b !in tables.batches { return Spec.NotLoaded("APPROVAL_REVIEW_BATCH_REQUIRED"); }
      var found := Spec.EntriesFor(b, p);
      if |found| != 1 { return Spec.NotLoaded("APPROVAL_PROPOSAL_NOT_IN_BATCH"); }
      if p !in tables.proposals { return Spec.NotLoaded("APPROVAL_PROPOSAL_NOT_FOUND"); }
      if Spec.Quarantined(tables, p.schema) { return Spec.NotLoaded("LEGACY_AUTHORITY_HOLD"); }
      if !Spec.Routes(tables, g, p, routed) { return Spec.NotLoaded("APPROVAL_BATCH_RECIPIENT_SET_DRIFT"); }
      var matched := MatchRecipients(g, routed, found[0].recipients);
      if !matched { return Spec.NotLoaded("APPROVAL_BATCH_RECIPIENT_SET_DRIFT"); }
      if found[0].source != p.source || found[0].scope != p.scope || found[0].choices != p.choices {
        return Spec.NotLoaded("APPROVAL_BATCH_PROPOSAL_BINDING_DRIFT");
      }
      r := Spec.Frozen(found[0]);
    }

    /** The delivery rows of a new decision. */
    method DeliveryRows(g: Spec.Registry, record: Spec.Record) returns (rows: map<(Spec.Semantic, string), Spec.Delivery>)
      ensures rows == Spec.NewDeliveries(tables, g, record)
    {
      rows := map[];
      var i := 0;
      while i < |record.recipients|
        invariant 0 <= i <= |record.recipients|
        invariant rows.Keys == set k | 0 <= k < i :: (record.proposal, record.recipients[k])
        invariant forall k :: k in rows ==> rows[k] == Spec.Delivery(record, Spec.FirstState(tables, g, record, k.1))
      {
        hide Spec.FirstState;
        var recipient := record.recipients[i];
        rows := rows[(record.proposal, recipient) := Spec.Delivery(record, Spec.FirstState(tables, g, record, recipient))];
        i := i + 1;
      }
      SameRows(rows, tables, g, record);
    }

    method RecordDecision(g: Spec.Registry, q: Spec.Request, routed: seq<string>) returns (r: Spec.Reply)
      requires Inv(tables)
      modifies this
      ensures Inv(tables) && (tables, r) == Spec.RecordDecision(old(tables), g, q, routed)
    {
      hide Inv, Grows, StatesMove, Spec.NewDeliveries, Spec.Admit, Spec.EventOf;
      DecideKeeps(tables, g, q, routed);
      var admitted := AdmitRequest(g, q, routed);
      if admitted.NotLoaded? { return Spec.Err(admitted.code); }
      var record := Spec.RecordOf(q, admitted.entry);
      if q.proposal in tables.decisions {
        return if tables.decisions[q.proposal].record == record then Spec.Idempotent else Spec.Err("APPROVAL_DECISION_CONFLICT");
      }
      if q.event in tables.events {
        if tables.events[q.event].batch != Some(q.batch) { return Spec.Err("APPROVAL_USER_EVENT_CROSS_BATCH_REUSE"); }
        if tables.events[q.event] != Spec.EventOf(q) { return Spec.Err("APPROVAL_USER_EVENT_CONFLICT"); }
      }
      var rows := DeliveryRows(g, record);
      var id := tables.nextOutbox;
      tables := tables.(events := tables.events[q.event := Spec.EventOf(q)]);
      tables := tables.(outbox := tables.outbox[id := Spec.Outbox(false, "")], nextOutbox := id + 1);
      tables := tables.(decisions := tables.decisions[q.proposal := Spec.Decision(record, id)]);
      tables := tables.(deliveries := tables.deliveries + rows);
      r := Spec.Done;
    }

    /** Every check a decision must pass before anything is written. */
    method AdmitRequest(g: Spec.Registry, q: Spec.Request, routed: seq<string>) returns (r: Spec.Loaded)
      ensures r == Spec.Admit(tables, g, q, routed)
    {
      hide Spec.LoadBatch, Spec.ValidAnswers;
      var p := q.proposal;
      if g.role(q.planner) != Some("planner") { return Spec.NotLoaded("PLANNER_SESSION_REQUIRED"); }
      if !q.verdict.Defer? && q.revisit.Some? { return Spec.NotLoaded("APPROVAL_REVISIT_TRIGGER_UNEXPECTED"); }
      if q.verdict.Defer? && q.revisit.None? { return Spec.NotLoaded("APPROVAL_TEXT_INVALID"); }
      if p !in tables.proposals { return Spec.NotLoaded("APPROVAL_PROPOSAL_NOT_FOUND"); }
      if !Spec.IsCurrent(tables, p) { return Spec.NotLoaded("APPROVAL_PROPOSAL_SUPERSEDED"); }
      if Spec.Quarantined(tables, p.schema) { return Spec.NotLoaded("LEGACY_AUTHORITY_HOLD"); }
      if !Spec.SourceCurrent(tables, p.key, p.source) { return Spec.NotLoaded("APPROVAL_SOURCE_SNAPSHOT_DRIFT"); }
      if Spec.ExpiredAt(p, g.now) { return Spec.NotLoaded("APPROVAL_PROPOSAL_EXPIRED"); }
      r := LoadBatch(g, q.batch, p, routed);
      if r.NotLoaded? { return; }
      var valid := ValidateAnswers(q.batch, q.answers);
      if !valid { return Spec.NotLoaded("APPROVAL_BATCH_ANSWER_MAP_INVALID"); }
      var answers, offered := Spec.AnswersFor(q.answers.answers, p), Spec.ChoicesWith(r.entry.choices, q.choice);
      if answers == [] { return Spec.NotLoaded("APPROVAL_BATCH_ANSWER_MISSING"); }
      if answers[0].choice != q.choice { return Spec.NotLoaded("APPROVAL_BATCH_ANSWER_MISMATCH"); }
      if |offered| != 1 { return Spec.NotLoaded("APPROVAL_SELECTED_OPTION_INVALID"); }
      if offered[0].outcome != q.verdict { return Spec.NotLoaded("APPROVAL_OPTION_OUTCOME_MISMATCH"); }
      if r.entry.recipients == [] { return Spec.NotLoaded("APPROVAL_RECIPIENT_MISSING"); }
    }

    method RevokeDecision(g: Spec.Registry, p: Spec.Semantic, d: Spec.Record, reason: string, input: string, event: string,
                          planner: string) returns (r: Spec.Reply)
      requires Inv(tables)
      modifies this
      ensures Inv(tables) && (tables, r) == Spec.Revoke(old(tables), g, p, d, reason, input, event, planner)
    {
      hide Inv, Grows, StatesMove, Spec.HoldOpen;
      RevokeKeeps(tables, g, p, d, reason, input, event, planner);
      if g.role(planner) != Some("planner") { return Spec.Err("PLANNER_SESSION_REQUIRED"); }
      if p !in tables.proposals || p !in tables.decisions || tables.decisions[p].record != d {
        return Spec.Err("APPROVAL_DECISION_NOT_FOUND");
      }
      if !Spec.IsCurrent(tables, p) { return Spec.Err("APPROVAL_PROPOSAL_SUPERSEDED"); }
      if d in tables.revocations {
        return if tables.revocations[d].reason == reason && tables.revocations[d].input == input then Spec.Idempotent
               else Spec.Err("APPROVAL_REVOCATION_CONFLICT");
      }
      var e := Spec.UserEvent(input, planner, None, None);
      if event in tables.events && tables.events[event] != e { return Spec.Err("APPROVAL_USER_EVENT_CONFLICT"); }
      if Spec.Where(p.key) !in tables.sources { return Spec.Err("APPROVAL_SOURCE_SNAPSHOT_MISSING"); }
      var id := tables.nextOutbox;
      tables := tables.(events := tables.events[event := e]);
      tables := tables.(outbox := tables.outbox[id := Spec.Outbox(false, "")], nextOutbox := id + 1);
      tables := tables.(revocations := tables.revocations[d := Spec.Revocation(p, reason, input, event, planner)]);
      tables := tables.(deliveries := Spec.HoldOpen(tables.deliveries, p));
      r := Spec.Done;
    }

    /** The standalone claim of an existing delivery. */
    method ClaimDecision(p: Spec.Semantic, recipient: string, refreshed: Spec.Payload) returns (r: Spec.Reply)
      requires Inv(tables)
      modifies this
      ensures Inv(tables) && (tables, r) == Spec.Claim(old(tables), p, recipient, refreshed)
    {
      hide Inv, Grows, StatesMove, Spec.HoldOpen, Spec.ClaimError;
      if (p, recipient) !in tables.deliveries { return Spec.Err("APPROVAL_DELIVERY_NOT_FOUND"); }
      ClaimKeeps(tables, p, recipient, refreshed);
      if p !in tables.decisions || p !in tables.proposals || tables.decisions[p].outbox !in tables.outbox {
        return Spec.Err("APPROVAL_DELIVERY_NOT_FOUND");
      }
      var x, error, receipt := tables.deliveries[(p, recipient)], Spec.ClaimError(tables, p, recipient), Spec.Receipt(tables, p);
      if x.state.Held? { return Spec.Err("APPROVAL_DELIVERY_HELD"); }
      if !tables.outbox[tables.decisions[p].outbox].complete || tables.outbox[tables.decisions[p].outbox].receipt == "" {
        return Spec.Err("APPROVAL_PUBLICATION_INCOMPLETE");
      }
      if Spec.Quarantined(tables, p.schema) { return Spec.Err("LEGACY_AUTHORITY_HOLD"); }
      tables := Spec.Ingest(tables, p.key, refreshed);
      if error.Some? { return Spec.Err(error.value); }
      if x.state.Acknowledged? { return Spec.Err("APPROVAL_ALREADY_ACKNOWLEDGED"); }
      if (Spec.Where(p.key), p.source) !in tables.snapshots { return Spec.Err("APPROVAL_SOURCE_SNAPSHOT_MISSING"); }
      if p.source.stable != refreshed.stable {
        tables := tables.(deliveries := Spec.HoldOpen(tables.deliveries, p));
        return Spec.Err("APPROVAL_SOURCE_DRIFT_AFTER_PUBLICATION");
      }
      if x.state.Waiting? {
        var effect := Spec.Effect(x.record, refreshed.stable, receipt);
        if p in tables.effectivity && tables.effectivity[p] != effect { return Spec.Err("APPROVAL_EFFECTIVITY_CONFLICT"); }
        tables := tables.(effectivity := tables.effectivity[p := effect]);
        tables := tables.(deliveries := tables.deliveries[(p, recipient) := x.(state := Spec.Claimed)]);
      }
      r := Spec.Done;
    }

    /** The claim inside a caller's transaction: it re-checks the frozen batch, and drift refuses it. */
    method ClaimInTransaction(g: Spec.Registry, p: Spec.Semantic, recipient: string, refreshed: Spec.Payload, replay: bool,
                              ingest: bool, expected: Option<Spec.Payload>, routed: seq<string>) returns (r: Spec.Reply)
      requires Inv(tables)
      modifies this
      ensures Inv(tables)
      ensures (tables, r) == Spec.ClaimInTransaction(old(tables), g, p, recipient, refreshed, replay, ingest, expected, routed)
    {
      hide Inv, Grows, StatesMove, Spec.ClaimInError, Spec.EffectConflicts, Spec.Receipt, Spec.WithEffect, Spec.SetState;
      if (p, recipient) !in tables.deliveries { return Spec.Err("APPROVAL_DELIVERY_NOT_FOUND"); }
      ClaimInKeeps(tables, g, p, recipient, refreshed, replay, ingest, expected, routed);
      var error := CheckClaim(g, p, recipient, refreshed, replay, expected, routed);
      if error.Some? { return Spec.Err(error.value); }
      var x := tables.deliveries[(p, recipient)];
      var effect := Spec.Effect(x.record, refreshed.stable, Spec.Receipt(tables, p));
      if Spec.EffectConflicts(tables, p, effect) || (p !in tables.effectivity && !x.state.Waiting?) {
        return Spec.Err("APPROVAL_EFFECTIVITY_CONFLICT");
      }
      tables := Spec.WithEffect(tables, p, refreshed, ingest, effect);
      if x.state.Waiting? {
        tables := Spec.SetState(tables, (p, recipient), Spec.Claimed);
      }
      r := Spec.Done;
    }

    method CheckClaim(g: Spec.Registry, p: Spec.Semantic, recipient: string, refreshed: Spec.Payload, replay: bool,
                      expected: Option<Spec.Payload>, routed: seq<string>) returns (error: Option<string>)
      requires (p, recipient) in tables.deliveries
      ensures error == Spec.ClaimInError(tables, g, p, recipient, refreshed, replay, expected, routed)
    {
      hide Spec.ClaimError, Spec.LoadBatch, Spec.FrozenDecision;
      var x := tables.deliveries[(p, recipient)];
      error := Spec.ClaimError(tables, p, recipient);
      if error.Some? { return; }
      if x.state.Acknowledged? && !replay { return Some("APPROVAL_ALREADY_ACKNOWLEDGED"); }
      if Spec.Quarantined(tables, p.schema) { return Some("LEGACY_AUTHORITY_HOLD"); }
      var loaded := LoadBatch(g, x.record.batch, p, routed);
      if loaded.NotLoaded? { return Some(loaded.code); }
      if !Spec.FrozenDecision(tables, x.record, loaded.entry) { return Some("APPROVAL_BATCH_DECISION_BINDING_INVALID"); }
      if (Spec.Where(p.key), p.source) !in tables.snapshots { return Some("APPROVAL_SOURCE_SNAPSHOT_MISSING"); }
      if Spec.Where(p.key) !in tables.sources { return Some("APPROVAL_CURRENT_SOURCE_MISSING"); }
      var current := tables.sources[Spec.Where(p.key)];
      if expected.Some? && current != expected.value { return Some("APPROVAL_CURRENT_SOURCE_DIGEST_DRIFT"); }
      if current.stable != refreshed.stable || p.source.stable != refreshed.stable {
        return Some("APPROVAL_SOURCE_DRIFT_AFTER_PUBLICATION");
      }
      error := None;
    }

    /** Move the contract pointer to version 2, once. */
    method ActivateContract(authority: string, pointerDrift: bool) returns (r: Spec.Reply)
      requires Inv(tables)
      modifies this
      ensures Inv(tables) && (tables, r) == Spec.Activate(old(tables), authority, pointerDrift)
    {
      hide Inv, Grows, StatesMove;
      ActivateKeeps(tables, authority, pointerDrift);
      if tables.contract.Current? {
        return if tables.contract.authority == authority then Spec.Idempotent else Spec.Err("APPROVAL_SEMANTIC_CONTRACT_CONFLICT");
      }
      if pointerDrift { return Spec.Err("APPROVAL_SEMANTIC_CONTRACT_ACTIVATION_POINTER_DRIFT"); }
      tables := tables.(contract := Spec.Current(authority));
      r := Spec.Done;
    }

    /** The delivery row an identity stands for: its own route's, or the only one of its role. */
    method DeliveryRecipient(g: Spec.Registry, p: Spec.Semantic, asked: string) returns (r: Option<string>)
      ensures r.Some? ==> Spec.DeliveryFor(tables, g, p, asked, r.value)
      ensures r.None? ==> forall x :: !Spec.DeliveryFor(tables, g, p, asked, x)
    {
      if g.role(asked).None? {
        return None;
      }
      var route := g.route(asked);
      if (p, route) in tables.deliveries {
        return Some(route);
      }
      var equivalent := set k | k in tables.deliveries && k.0 == p && Spec.Equivalent(g, k.1, route);
      if |equivalent| != 1 {
        forall x ensures !Spec.DeliveryFor(tables, g, p, asked, x) {
          if Spec.DeliveryFor(tables, g, p, asked, x) { OnlyDelivery(tables, g, p, asked, x); }
        }
        return None;
      }
      var k :| k in equivalent;
      forall j | j in tables.deliveries && j.0 == p && Spec.Equivalent(g, j.1, route) ensures j.1 == k.1 {
        assert j in equivalent;
        ApprovalGuard.OnlyMember(equivalent, j, k);
      }
      r := Some(k.1);
    }

    method AcknowledgeDecision(p: Spec.Semantic, d: Spec.Record, recipient: string) returns (r: Spec.Reply)
      requires Inv(tables)
      modifies this
      ensures Inv(tables) && (tables, r) == Spec.Acknowledge(old(tables), p, d, recipient)
    {
      hide Inv, Grows, StatesMove;
      if p !in tables.proposals { return Spec.Err("APPROVAL_PROPOSAL_NOT_FOUND"); }
      if Spec.Quarantined(tables, p.schema) { return Spec.Err("LEGACY_AUTHORITY_HOLD"); }
      if (p, recipient) !in tables.deliveries { return Spec.Err("APPROVAL_DELIVERY_NOT_FOUND"); }
      AcknowledgeKeeps(tables, p, d, recipient);
      var x := tables.deliveries[(p, recipient)];
      if x.record != d { return Spec.Err("APPROVAL_DELIVERY_BINDING_MISMATCH"); }
      if x.state.Acknowledged? { return Spec.Idempotent; }
      if !x.state.Claimed? { return Spec.Err("APPROVAL_DELIVERY_STATE_CONFLICT"); }
      tables := tables.(deliveries := tables.deliveries[(p, recipient) := x.(state := Spec.Acknowledged)]);
      r := Spec.Done;
    }
  }

  lemma OnlyDelivery(l: Spec.Ledger, g: Spec.Registry, p: Spec.Semantic, asked: string, x: string)
    requires Spec.DeliveryFor(l, g, p, asked, x) && (p, g.route(asked)) !in l.deliveries
    ensures |set k | k in l.deliveries && k.0 == p && Spec.Equivalent(g, k.1, g.route(asked))| == 1
  {
    assert (set k | k in l.deliveries && k.0 == p && Spec.Equivalent(g, k.1, g.route(asked))) == {(p, x)};
  }

  lemma SameRows(rows: map<(Spec.Semantic, string), Spec.Delivery>, l: Spec.Ledger, g: Spec.Registry, d: Spec.Record)
    requires rows.Keys == set k | 0 <= k < |d.recipients| :: (d.proposal, d.recipients[k])
    requires forall k :: k in rows ==> rows[k] == Spec.Delivery(d, Spec.FirstState(l, g, d, k.1))
    ensures rows == Spec.NewDeliveries(l, g, d)
  {
    hide Spec.FirstState;
    var all := Spec.NewDeliveries(l, g, d);
    forall k | k in rows ensures k in all { assert k in rows.Keys; }
    forall k | k in all ensures k in rows {
      var i :| 0 <= i < |d.recipients| && d.recipients[i] == k.1;
      assert (d.proposal, d.recipients[i]) in rows.Keys;
    }
  }
}
