/** What the execution guard's answer says about the tables, column by column, in both directions and
    for every ledger, reachable or not. */
module ApprovalGrants {
  import opened Prelude
  import opened ApprovalSpec
  import opened ApprovalGuard
  import opened ApprovalTheorems

  // ---- The one element that fits ---------------------------------------------------------

  /** `xs[i]` is the only element that satisfies `f`. */
  ghost predicate OnlyAt<T(!new)>(xs: seq<T>, f: T -> bool, i: int) {
    0 <= i < |xs| && f(xs[i]) && forall j :: 0 <= j < |xs| && f(xs[j]) ==> j == i
  }

  ghost predicate Only<T(!new)>(xs: seq<T>, f: T -> bool, x: T) {
    exists i :: OnlyAt(xs, f, i) && xs[i] == x
  }

  lemma {:induction false} KeepsNoneIff<T(!new)>(xs: seq<T>, f: T -> bool)
    ensures Keep(xs, f) == [] <==> forall i :: 0 <= i < |xs| ==> !f(xs[i])
  {
    if xs != [] {
      KeepsNoneIff(xs[1..], f);
      if i :| 0 <= i < |xs| && f(xs[i]) { if i > 0 { assert f(xs[1..][i-1]); } }
    }
  }

  /** Exactly one element was kept, and it is x, exactly when x is the only one that fits. */
  lemma {:induction false} KeepsOnly<T(!new)>(xs: seq<T>, f: T -> bool, x: T)
    ensures Keep(xs, f) == [x] <==> Only(xs, f, x)
  {
    if xs != [] {
      var rest := xs[1..];
      KeepsOnly(rest, f, x);
      KeepsNoneIff(rest, f);
      assert forall i :: 0 <= i < |rest| ==> rest[i] == xs[i+1];
      if f(xs[0]) {
        assert Keep(xs, f) == [xs[0]] + Keep(rest, f);
        if Keep(xs, f) == [x] {
          assert |Keep(xs, f)| == 1 + |Keep(rest, f)| && Keep(xs, f)[0] == xs[0];
          assert Keep(rest, f) == [];
          assert OnlyAt(xs, f, 0);
        }
        if i :| OnlyAt(xs, f, i) && xs[i] == x {
          assert i == 0;
          forall j | 0 <= j < |rest| ensures !f(rest[j]) { assert rest[j] == xs[j+1]; }
        }
      } else {
        OnlySkips(xs, f, x);
      }
    }
  }

  lemma OnlySkips<T(!new)>(xs: seq<T>, f: T -> bool, x: T)
    requires xs != [] && !f(xs[0])
    ensures Only(xs, f, x) <==> Only(xs[1..], f, x)
  {
    var rest := xs[1..];
    if i :| OnlyAt(xs, f, i) && xs[i] == x {
      assert OnlyAt(rest, f, i - 1) && rest[i - 1] == x;
    }
    if i :| OnlyAt(rest, f, i) && rest[i] == x {
      forall j | 0 <= j < |xs| && f(xs[j]) ensures j == i + 1 { assert rest[j - 1] == xs[j]; }
      assert OnlyAt(xs, f, i + 1);
    }
  }

  // ---- The rows a query can name ---------------------------------------------------------

  /** A current proposal on the issue of the query, within whatever else the query asks for. */
  ghost predicate Asked(l: Ledger, q: Query, p: Semantic) {
    && p in l.proposals && (exists key :: key in l.current && l.current[key] == p)
    && p.key.repository == q.repository && p.key.issue == q.issue
    && (q.proposal.None? || q.proposal == Some(p))
    && (q.boundary.None? || q.boundary == Some(p.boundary))
    && (q.workstream.None? || exists s :: s in l.submissions && SemanticOf(s) == p && q.workstream == Some(s.workstream))
  }

  ghost predicate SameRole(g: Registry, a: string, b: string) {
    g.role(a) == g.role(b) && g.role(a) != None
  }

  /** A delivered, effective and unrevoked decision that the query names, for the actor's role. */
  ghost predicate Candidate(l: Ledger, g: Registry, q: Query, p: Semantic, recipient: string) {
    && Asked(l, q, p) && (p, recipient) in l.deliveries && p in l.decisions && p in l.effectivity
    && l.decisions[p].outbox in l.outbox
    && var d := l.decisions[p].record;
       && l.deliveries[(p, recipient)].record == d && l.effectivity[p].record == d
       && (d !in l.revocations || l.revocations[d].proposal != p)
       && (q.authority == Some(d) || q.comment == Some(l.outbox[l.decisions[p].outbox].receipt))
       && SameRole(g, recipient, q.actor)
  }

  // ---- What makes a row effective --------------------------------------------------------

  /** The user's event holds one answer for the proposal; the choice it names is offered once in the
      batch that was frozen for review, with this outcome, for this recipient and this scope. */
  ghost predicate AnsweredIn(l: Ledger, d: Record, recipient: string) {
    && d.event in l.events && l.events[d.event].batch == Some(d.batch) && l.events[d.event].answers == Some(d.answers)
    && d.batch in l.batches && d.batch.repository == d.proposal.key.repository && d.answers.batch == d.batch
    && d.outcome == d.verdict
    && (exists i :: OnlyEntry(d.batch, d.proposal, i) && FrozenFor(d.batch.entries[i], d, recipient))
    && (exists i :: OnlyAnswer(d.answers.answers, d.proposal, i) && d.answers.answers[i].choice == d.choice)
  }

  ghost predicate OfferedOnce(choices: seq<Choice>, id: string, outcome: Verdict) {
    exists i :: 0 <= i < |choices| && choices[i].id == id && choices[i].outcome == outcome
                && forall j :: 0 <= j < |choices| && choices[j].id == id ==> j == i
  }

  /** The only entry of the batch for this proposal. */
  ghost predicate OnlyEntry(b: Batch, p: Semantic, i: int) {
    0 <= i < |b.entries| && b.entries[i].proposal == p && forall j :: 0 <= j < |b.entries| && b.entries[j].proposal == p ==> j == i
  }

  ghost predicate OnlyAnswer(answers: seq<Answer>, p: Semantic, i: int) {
    0 <= i < |answers| && answers[i].proposal == p && forall j :: 0 <= j < |answers| && answers[j].proposal == p ==> j == i
  }

  ghost predicate FrozenFor(e: Entry, d: Record, recipient: string) {
    && e.source == d.proposal.source && e.scope == d.scope && e.recipients == d.recipients && e.choices == d.choices
    && recipient in e.recipients && OfferedOnce(e.choices, d.choice, d.verdict)
  }

  /** Everything a grant needs of its row. */
  ghost predicate Effective(l: Ledger, g: Registry, q: Query, p: Semantic, recipient: string)
    requires Candidate(l, g, q, p, recipient)
  {
    var d, e, o := l.decisions[p].record, l.effectivity[p], l.outbox[l.decisions[p].outbox];
    && SemanticOf(l.proposals[p].packet) == p && (l.contract.Legacy? || p.schema.V2?)
    && q.scope == Some(d.scope)
    && AnsweredIn(l, d, recipient) && d.verdict == Approve
    && (q.role.Some? ==> g.role(d.planner) == q.role && g.role(q.actor) == q.role)
    && (l.deliveries[(p, recipient)].state == Claimed || l.deliveries[(p, recipient)].state == Acknowledged)
    && o.complete && o.receipt != "" && o.receipt == e.receipt
    && (p.key.repository, p.key.issue) in l.sources && l.sources[(p.key.repository, p.key.issue)].stable == e.source
  }

  // ---- What the query itself must be -----------------------------------------------------

  /** The proposals someone of the actor's role is interested in. */
  ghost predicate Mine(l: Ledger, g: Registry, q: Query, p: Semantic) {
    Asked(l, q, p) && exists r :: (p, r) in l.interests && SameRole(g, r, q.actor)
  }

  ghost predicate Sound(l: Ledger, p: Semantic) {
    p in l.proposals && SemanticOf(l.proposals[p].packet) == p && (l.contract.Legacy? || p.schema.V2?)
  }

  /** The actor holds the required endpoint, and no proposal in question is corrupt or quarantined. */
  ghost predicate MayAsk(l: Ledger, g: Registry, q: Query) {
    && (q.role.Some? ==> g.endpoint(q.role.value) == Some(q.actor))
    && (forall p :: Mine(l, g, q, p) ==> Sound(l, p))
    && (q.proposal.Some? ==> forall p, r :: Asked(l, q, p) && (p, r) in l.interests ==> Sound(l, p))
  }

  // ---- The guard's checks, column by column ----------------------------------------------

  lemma AskedIff(l: Ledger, q: Query, p: Semantic)
    ensures Considered(l, q, p) <==> Asked(l, q, p)
  {
  }

  lemma CandidateIff(l: Ledger, g: Registry, q: Query, k: (Semantic, string))
    ensures k in RoleMatches(l, g, q) <==> Candidate(l, g, q, k.0, k.1)
  {
    hide Considered, Asked;
    AskedIff(l, q, k.0);
    assert k == (k.0, k.1);
  }

  lemma OfferedIff(choices: seq<Choice>, id: string, outcome: Verdict)
    ensures (|ChoicesWith(choices, id)| == 1 && ChoicesWith(choices, id)[0].outcome == outcome) <==> OfferedOnce(choices, id, outcome)
  {
    hide Keep;
    var f := (x: Choice) => x.id == id;
    var kept := Keep(choices, f);
    if |kept| == 1 {
      assert kept == [kept[0]];
      KeepsOnly(choices, f, kept[0]);
    }
    if i :| 0 <= i < |choices| && choices[i].id == id && forall j :: 0 <= j < |choices| && choices[j].id == id ==> j == i {
      assert OnlyAt(choices, f, i);
      KeepsOnly(choices, f, choices[i]);
    }
  }

  lemma EntryIff(d: Record, recipient: string)
    ensures (|EntriesFor(d.batch, d.proposal)| == 1 && FrozenEntry(EntriesFor(d.batch, d.proposal)[0], d, recipient))
            <==> d.outcome == d.verdict && exists i :: OnlyEntry(d.batch, d.proposal, i) && FrozenFor(d.batch.entries[i], d, recipient)
  {
    hide Keep, ChoicesWith, OfferedOnce;
    var f := (x: Entry) => x.proposal == d.proposal;
    var es, kept := d.batch.entries, Keep(d.batch.entries, f);
    if |kept| == 1 {
      assert kept == [kept[0]];
      KeepsOnly(es, f, kept[0]);
      OfferedIff(kept[0].choices, d.choice, d.verdict);
      var i :| OnlyAt(es, f, i) && es[i] == kept[0];
      assert OnlyEntry(d.batch, d.proposal, i);
    }
    if i :| OnlyEntry(d.batch, d.proposal, i) && FrozenFor(es[i], d, recipient) {
      assert OnlyAt(es, f, i);
      KeepsOnly(es, f, es[i]);
    }
  }

  lemma AnswerIff(d: Record)
    ensures (|AnswersFor(d.answers.answers, d.proposal)| == 1 && AnswersFor(d.answers.answers, d.proposal)[0].choice == d.choice)
            <==> exists i :: OnlyAnswer(d.answers.answers, d.proposal, i) && d.answers.answers[i].choice == d.choice
  {
    hide Keep;
    var f := (x: Answer) => x.proposal == d.proposal;
    var all, kept := d.answers.answers, Keep(d.answers.answers, f);
    if |kept| == 1 {
      assert kept == [kept[0]];
      KeepsOnly(all, f, kept[0]);
      var i :| OnlyAt(all, f, i) && all[i] == kept[0];
      assert OnlyAnswer(all, d.proposal, i);
    }
    if i :| OnlyAnswer(all, d.proposal, i) && all[i].choice == d.choice {
      assert OnlyAt(all, f, i);
      KeepsOnly(all, f, all[i]);
    }
  }

  lemma AnsweredIff(l: Ledger, d: Record, recipient: string)
    ensures FrozenBatchDecision(l.batches, l.events, d, recipient) <==> AnsweredIn(l, d, recipient)
  {
    hide EntriesFor, AnswersFor, FrozenEntry, FrozenFor, OnlyEntry, OnlyAnswer;
    EntryIff(d, recipient);
    AnswerIff(d);
  }

  lemma EffectiveIff(l: Ledger, g: Registry, q: Query, p: Semantic, recipient: string)
    requires Matches(l, q, (p, recipient)) && Candidate(l, g, q, p, recipient)
    ensures MatchError(l, g, q, (p, recipient)).None? <==> Effective(l, g, q, p, recipient)
  {
    hide FrozenBatchDecision, AnsweredIn, Considered, Asked;
    AnsweredIff(l, l.decisions[p].record, recipient);
  }

  lemma MineIff(l: Ledger, g: Registry, q: Query, p: Semantic)
    ensures p in InterestOf(l, g, q) <==> Mine(l, g, q, p)
    ensures p in InterestIn(l, q) <==> Asked(l, q, p) && exists r :: (p, r) in l.interests
  {
    hide Considered, Asked;
    AskedIff(l, q, p);
    if p in InterestOf(l, g, q) {
      var k :| k in l.interests && Considered(l, q, k.0) && Equivalent(g, k.1, q.actor) && k.0 == p;
      assert k == (p, k.1);
    }
    if p in InterestIn(l, q) {
      var k :| k in l.interests && Considered(l, q, k.0) && k.0 == p;
      assert k == (p, k.1);
    }
    if r :| (p, r) in l.interests && SameRole(g, r, q.actor) && Asked(l, q, p) {
      var k := (p, r);
      assert k in l.interests && Considered(l, q, k.0) && Equivalent(g, k.1, q.actor);
    }
    if r :| (p, r) in l.interests && Asked(l, q, p) {
      var k := (p, r);
      assert k in l.interests && Considered(l, q, k.0);
    }
  }

  lemma SoundIff(l: Ledger, ps: set<Semantic>)
    requires forall p :: p in ps ==> p in l.proposals
    ensures ProposalError(l, ps).None? <==> forall p :: p in ps ==> Sound(l, p)
  {
    if forall p :: p in ps ==> Sound(l, p) {
      assert forall p :: p in ps ==> BoundProposal(l, p) && !Quarantined(l, p.schema);
    }
    if ProposalError(l, ps).None? {
      forall p | p in ps ensures Sound(l, p) { assert BoundProposal(l, p) && !Quarantined(l, p.schema); }
    }
  }

  lemma MayAskIff(l: Ledger, g: Registry, q: Query)
    ensures MayAsk(l, g, q) <==>
            && (q.role.Some? ==> g.endpoint(q.role.value) == Some(q.actor))
            && ProposalError(l, InterestOf(l, g, q)).None?
            && (q.proposal.Some? ==> ProposalError(l, InterestIn(l, q)).None?)
  {
    hide ProposalError, InterestIn, InterestOf, Asked, Sound, SameRole;
    SoundIff(l, InterestOf(l, g, q));
    SoundIff(l, InterestIn(l, q));
    forall p ensures p in InterestOf(l, g, q) <==> Mine(l, g, q, p) { MineIff(l, g, q, p); }
    forall p ensures p in InterestIn(l, q) <==> Asked(l, q, p) && exists r :: (p, r) in l.interests { MineIff(l, g, q, p); }
  }

  // ---- The guard -------------------------------------------------------------------------

  /** The guard grants a proposal to a recipient exactly when the query may be asked, concerns the
      actor's role, names that row and no other, and the row is effective. */
  lemma GrantedIff(l: Ledger, g: Registry, q: Query, p: Semantic, recipient: string)
    ensures RequireEffective(l, g, q) == Granted(p, recipient) <==>
            && MayAsk(l, g, q) && (exists i :: Mine(l, g, q, i))
            && Candidate(l, g, q, p, recipient)
            && (forall o, r :: Candidate(l, g, q, o, r) ==> o == p && r == recipient)
            && Effective(l, g, q, p, recipient)
  {
    hide ProposalError, InterestIn, InterestOf, MayAsk, Mine, Candidate, Effective, RoleMatches, MatchError, Matches;
    MayAskIff(l, g, q);
    ConcernsIff(l, g, q);
    OneRowIff(l, g, q, p, recipient);
    if RequireEffective(l, g, q) == Granted(p, recipient) {
      GrantedIsTheRow(l, g, q);
      EffectiveOfRow(l, g, q, p, recipient);
    } else if RoleMatches(l, g, q) == {(p, recipient)} && MayAsk(l, g, q) && InterestOf(l, g, q) != {} {
      EffectiveOfRow(l, g, q, p, recipient);
      NotGranted(l, g, q, p, recipient);
    }
  }

  /** Without a row for the actor's role nothing is required, unless the caller insists. */
  lemma StandingIff(l: Ledger, g: Registry, q: Query)
    ensures RequireEffective(l, g, q) == Standing <==> MayAsk(l, g, q) && (forall i :: !Mine(l, g, q, i)) && !q.required
  {
    hide ProposalError, InterestIn, InterestOf, MayAsk, Mine, RoleMatches, MatchError;
    MayAskIff(l, g, q);
    ConcernsIff(l, g, q);
  }

  lemma ConcernsIff(l: Ledger, g: Registry, q: Query)
    ensures InterestOf(l, g, q) == {} <==> forall i :: !Mine(l, g, q, i)
  {
    hide InterestOf, Mine;
    forall p ensures p in InterestOf(l, g, q) <==> Mine(l, g, q, p) { MineIff(l, g, q, p); }
  }

  lemma OneRowIff(l: Ledger, g: Registry, q: Query, p: Semantic, recipient: string)
    ensures RoleMatches(l, g, q) == {(p, recipient)} <==>
            Candidate(l, g, q, p, recipient) && forall o, r :: Candidate(l, g, q, o, r) ==> o == p && r == recipient
  {
    hide Candidate, RoleMatches;
    forall k: (Semantic, string) ensures k in RoleMatches(l, g, q) <==> Candidate(l, g, q, k.0, k.1) { CandidateIff(l, g, q, k); }
    forall o, r ensures (o, r) in RoleMatches(l, g, q) <==> Candidate(l, g, q, o, r) { CandidateIff(l, g, q, (o, r)); }
  }

  lemma EffectiveOfRow(l: Ledger, g: Registry, q: Query, p: Semantic, recipient: string)
    requires RoleMatches(l, g, q) == {(p, recipient)}
    ensures Matches(l, q, (p, recipient)) && Candidate(l, g, q, p, recipient)
    ensures MatchError(l, g, q, (p, recipient)).None? <==> Effective(l, g, q, p, recipient)
    ensures Effective(l, g, q, p, recipient) ==> q.scope.Some?
    ensures q.authority.Some? || q.comment.Some?
  {
    hide MatchError;
    assert (p, recipient) in RoleMatches(l, g, q);
    CandidateIff(l, g, q, (p, recipient));
    EffectiveIff(l, g, q, p, recipient);
  }

  lemma GrantedIsTheRow(l: Ledger, g: Registry, q: Query)
    requires RequireEffective(l, g, q).Granted?
    ensures var k := (RequireEffective(l, g, q).proposal, RequireEffective(l, g, q).recipient);
            RoleMatches(l, g, q) == {k} && Matches(l, q, k) && MatchError(l, g, q, k).None?
    ensures (q.role.Some? ==> g.endpoint(q.role.value) == Some(q.actor)) && InterestOf(l, g, q) != {}
    ensures ProposalError(l, InterestOf(l, g, q)).None? && (q.proposal.Some? ==> ProposalError(l, InterestIn(l, q)).None?)
  {
    hide MatchError, ProposalError, Considered, InterestIn, InterestOf;
    GrantedRow(l, g, q);
    var rows, k := RoleMatches(l, g, q), (RequireEffective(l, g, q).proposal, RequireEffective(l, g, q).recipient);
    assert k in rows;
    forall x | x in rows ensures x == k { OnlyMember(rows, x, k); }
  }

  /** When the row is the only one and passes, the guard grants it. */
  lemma NotGranted(l: Ledger, g: Registry, q: Query, p: Semantic, recipient: string)
    requires RoleMatches(l, g, q) == {(p, recipient)} && RequireEffective(l, g, q) != Granted(p, recipient)
    requires Matches(l, q, (p, recipient)) && (q.authority.Some? || q.comment.Some?)
    requires (q.role.Some? ==> g.endpoint(q.role.value) == Some(q.actor)) && InterestOf(l, g, q) != {}
    requires ProposalError(l, InterestOf(l, g, q)).None? && (q.proposal.Some? ==> ProposalError(l, InterestIn(l, q)).None?)
    ensures q.scope.None? || MatchError(l, g, q, (p, recipient)).Some?
  {
    hide MatchError, ProposalError, Matches, InterestIn, InterestOf, RoleMatches;
  }

  // ---- Recipients that pair off ----------------------------------------------------------

  function Roles(g: Registry, xs: seq<string>): seq<Option<string>> {
    seq(|xs|, i requires 0 <= i < |xs| => g.role(xs[i]))
  }

  /** Everyone now routed has a role, and the roles are those of the frozen recipients, as often. */
  ghost predicate SameRoles(g: Registry, now: seq<string>, frozen: seq<string>) {
    (forall i :: 0 <= i < |now| ==> g.role(now[i]) != None) && multiset(Roles(g, now)) == multiset(Roles(g, frozen))
  }

  lemma RolesWithout(g: Registry, xs: seq<string>, i: nat)
    requires i < |xs|
    ensures multiset(Roles(g, xs)) == multiset(Roles(g, xs[..i] + xs[i+1..])) + multiset{g.role(xs[i])}
  {
    assert Roles(g, xs) == Roles(g, xs[..i]) + [g.role(xs[i])] + Roles(g, xs[i+1..]);
    assert Roles(g, xs[..i] + xs[i+1..]) == Roles(g, xs[..i]) + Roles(g, xs[i+1..]);
  }

  lemma {:induction false} NobodyEquivalent(g: Registry, r: string, frozen: seq<string>)
    ensures FirstEquivalent(g, r, frozen) == |frozen| <==> g.role(r) == None || g.role(r) !in Roles(g, frozen)
  {
    if frozen != [] {
      NobodyEquivalent(g, r, frozen[1..]);
      assert Roles(g, frozen) == [g.role(frozen[0])] + Roles(g, frozen[1..]);
    }
  }

  /** Matching greedily, first come first served, succeeds exactly when the roles agree. */
  lemma {:induction false} PairsOffIff(g: Registry, now: seq<string>, frozen: seq<string>)
    ensures RoleMatch(g, now, frozen) <==> SameRoles(g, now, frozen)
    decreases |now|
  {
    if now == [] {
      assert Roles(g, now) == [];
      assert frozen != [] ==> multiset(Roles(g, frozen)) != multiset{} by { if frozen != [] { assert Roles(g, frozen)[0] in multiset(Roles(g, frozen)); } }
    } else {
      var i, rest := FirstEquivalent(g, now[0], frozen), now[1..];
      NobodyEquivalent(g, now[0], frozen);
      RolesWithout(g, now, 0);
      assert now[..0] + now[1..] == rest;
      if i < |frozen| {
        var left := frozen[..i] + frozen[i+1..];
        PairsOffIff(g, rest, left);
        RolesWithout(g, frozen, i);
        SameRolesShrinks(g, now, frozen, left);
      } else {
        assert Roles(g, now)[0] == g.role(now[0]);
        assert g.role(now[0]) in multiset(Roles(g, now));
      }
    }
  }

  lemma SameRolesShrinks(g: Registry, now: seq<string>, frozen: seq<string>, left: seq<string>)
    requires now != [] && g.role(now[0]) != None
    requires multiset(Roles(g, now)) == multiset(Roles(g, now[1..])) + multiset{g.role(now[0])}
    requires multiset(Roles(g, frozen)) == multiset(Roles(g, left)) + multiset{g.role(now[0])}
    ensures SameRoles(g, now, frozen) <==> SameRoles(g, now[1..], left)
  {
    var a, b, one := multiset(Roles(g, now[1..])), multiset(Roles(g, left)), multiset{g.role(now[0])};
    assert a + one == b + one <==> a == b by { if a + one == b + one { assert a == (a + one) - one && b == (b + one) - one; } }
    if SameRoles(g, now[1..], left) {
      forall i | 0 <= i < |now| ensures g.role(now[i]) != None { if i > 0 { assert now[1..][i-1] == now[i]; } }
    }
  }
}
