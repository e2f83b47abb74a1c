/** Compare-and-swap of an issue body: one shared attempt ledger, any number of clients, and a remote
    body that anyone may change between any two steps. */
module IssueBodyCas {
  import opened Prelude

  datatype Snapshot = Snapshot(body: Bytes, updatedAt: string)

  datatype Mutation = Mutation(
    repository: string, issue: int, expected: Bytes, expectedAt: string, desired: Bytes,
    expectedDigest: string, desiredDigest: string)

  /** The hexadecimal digest: injective, and free of NUL like every hexadecimal string. */
  type Sha = Bytes -> string

  const NUL: char := 0 as char

  ghost predicate NoNul(s: string) {
    forall i :: 0 <= i < |s| ==> s[i] != NUL
  }

  ghost predicate DigestOk(sha: Sha) {
    (forall b :: NoNul(sha(b))) && (forall b, c :: sha(b) == sha(c) ==> b == c)
  }

  predicate ValidMutation(sha: Sha, m: Mutation) {
    && m.repository != "" && m.issue > 0 && m.expectedAt != ""
    && m.expectedDigest == sha(m.expected) && m.desiredDigest == sha(m.desired)
  }

  // ---- The attempt key -------------------------------------------------------------------

  const PREFIX := "issue-body-cas-v1"

  /** What the key digests: prefix, repository, issue number and desired digest, NUL between. */
  function Preimage(repository: string, issue: nat, digest: string): string {
    PREFIX + [NUL] + repository + [NUL] + Decimal(issue) + [NUL] + digest
  }

  lemma {:induction false} DecimalInjective(n: nat, m: nat)
    requires Decimal(n) == Decimal(m)
    ensures n == m
    decreases n
  {
    if n < 10 || m < 10 {
      assert |Decimal(n)| == 1 <==> n < 10;
      assert |Decimal(m)| == 1 <==> m < 10;
      assert Digit(n % 10) == Decimal(n)[0] && Digit(m % 10) == Decimal(m)[0];
    } else {
      var x, y := Decimal(n / 10), Decimal(m / 10);
      assert Decimal(n) == x + [Digit(n % 10)] && Decimal(m) == y + [Digit(m % 10)];
      assert Decimal(n)[..|Decimal(n)|-1] == x && Decimal(m)[..|Decimal(m)|-1] == y;
      DecimalInjective(n / 10, m / 10);
      assert Decimal(n)[|Decimal(n)|-1] == Digit(n % 10) && Decimal(m)[|Decimal(m)|-1] == Digit(m % 10);
    }
  }

  /** The last NUL splits a string in one way only. */
  lemma LastNulSplits(a: string, x: string, b: string, y: string)
    requires a + [NUL] + x == b + [NUL] + y && NoNul(x) && NoNul(y)
    ensures a == b && x == y
  {
    var s := a + [NUL] + x;
    LastNulAt(a, x, s);
    LastNulAt(b, y, s);
    assert a == s[..|a|] && b == s[..|b|] && x == s[|a| + 1..] && y == s[|b| + 1..];
  }

  lemma LastNulAt(a: string, x: string, s: string)
    requires s == a + [NUL] + x && NoNul(x)
    ensures s[|a|] == NUL && forall i :: |a| < i < |s| ==> s[i] != NUL
  {
    forall i | |a| < i < |s| ensures s[i] != NUL { assert s[i] == x[i - |a| - 1]; }
  }

  /** Two attempts share a key preimage only when repository, issue and digest all agree, even for a
      repository name that contains the separator. */
  lemma PreimageInjective(r: string, i: nat, d: string, r': string, i': nat, d': string)
    requires NoNul(d) && NoNul(d') && Preimage(r, i, d) == Preimage(r', i', d')
    ensures r == r' && i == i' && d == d'
  {
    var h, h' := PREFIX + [NUL] + r, PREFIX + [NUL] + r';
    assert Preimage(r, i, d) == (h + [NUL] + Decimal(i)) + [NUL] + d;
    assert Preimage(r', i', d') == (h' + [NUL] + Decimal(i')) + [NUL] + d';
    LastNulSplits(h + [NUL] + Decimal(i), d, h' + [NUL] + Decimal(i'), d');
    LastNulSplits(h, Decimal(i), h', Decimal(i'));
    assert r == h[|PREFIX| + 1..] && r' == h'[|PREFIX| + 1..];
    DecimalInjective(i, i');
  }

  function Key(m: Mutation): string {
    Preimage(m.repository, Max(0, m.issue), m.desiredDigest)
  }

  // ---- Outcomes --------------------------------------------------------------------------

  datatype Outcome = Applied | AlreadyApplied | Conflict | PostconditionFailed

  datatype Result = Result(outcome: Outcome, observed: Option<Snapshot>, patches: nat, readCount: nat, suppressed: bool, detail: string)

  datatype Written = WroteApplied | WroteConflict | WriteRaised

  /** After the first canonical read; None goes on to the reservation. */
  function AfterRead(m: Mutation, current: Option<Snapshot>): Option<Result> {
    if current.None? then Some(Result(PostconditionFailed, None, 0, 1, false, "initial_canonical_read_failed"))
    else if current.value.body == m.desired then Some(Result(AlreadyApplied, current, 0, 1, false, "desired_body_already_canonical"))
    else if current.value.body != m.expected || current.value.updatedAt != m.expectedAt then
      Some(Result(Conflict, current, 0, 1, false, "expected_body_or_timestamp_mismatch"))
    else None
  }

  /** After the write and the one readback. */
  function AfterReadback(m: Mutation, written: Written, readback: Option<Snapshot>): Result {
    if readback.None? then Result(PostconditionFailed, None, 1, 2, false, "canonical_readback_failed")
    else if readback.value.body == m.desired then Result(Applied, readback, 1, 2, false, "byte_exact_canonical_readback")
    else if written.WroteConflict? then Result(Conflict, readback, 1, 2, false, "atomic_write_precondition_conflict")
    else Result(PostconditionFailed, readback, 1, 2, false, "canonical_readback_body_mismatch")
  }

  /** A first read decides unless it shows exactly the expected body and timestamp, to be changed. */
  lemma AfterReadIff(m: Mutation, current: Option<Snapshot>)
    ensures var r := AfterRead(m, current);
            && (r.None? <==> current == Some(Snapshot(m.expected, m.expectedAt)) && m.expected != m.desired)
            && (r.Some? && r.value.outcome == AlreadyApplied <==> current.Some? && current.value.body == m.desired)
            && (r.Some? && r.value.outcome == Conflict <==> current.Some? && current.value.body != m.desired && current.value != Snapshot(m.expected, m.expectedAt))
            && (r.Some? ==> r.value.patches == 0 && r.value.readCount == 1 && r.value.observed == current && r.value.outcome != Applied)
  {
  }

  /** After a write only the canonical bytes count: applied exactly when they are the desired ones. */
  lemma AfterReadbackIff(m: Mutation, written: Written, readback: Option<Snapshot>)
    ensures var r := AfterReadback(m, written, readback);
            && (r.outcome == Applied <==> readback.Some? && readback.value.body == m.desired)
            && (r.outcome == Conflict <==> readback.Some? && readback.value.body != m.desired && written == WroteConflict)
            && r.outcome != AlreadyApplied && r.patches == 1 && r.readCount == 2 && r.observed == readback && !r.suppressed
  {
  }

  // ---- Clients, interleaved --------------------------------------------------------------

  datatype Client =
    | Starting(m: Mutation)
    | Matched(m: Mutation, current: Snapshot)
    | Reserved(m: Mutation)
    | Writing(m: Mutation, written: Written)
    | Finished(m: Mutation, result: Result, lastRead: Option<Bytes>)

  /** `writes` logs every call of the atomic write, by what it wanted to write where. */
  datatype World = World(
    bodies: map<(string, int), Snapshot>, keys: set<string>, clients: map<nat, Client>, writes: seq<Mutation>)

  datatype Step =
    | Arrive(c: nat, m: Mutation)
    | FirstRead(c: nat, fails: bool)
    | Reserve(c: nat, fault: DatabaseFault)
    | Write(c: nat, written: Written, after: Snapshot)
    | Readback(c: nat, fails: bool)
    | OutsideEdit(where: (string, int), after: Snapshot)

  function Canonical(w: World, m: Mutation, fails: bool): Option<Snapshot> {
    if fails || (m.repository, m.issue) !in w.bodies then None else Some(w.bodies[(m.repository, m.issue)])
  }

  function BodyOf(s: Option<Snapshot>): Option<Bytes> {
    if s.None? then None else Some(s.value.body)
  }

  function SetClient(w: World, c: nat, x: Client): World {
    w.(clients := w.clients[c := x])
  }

  /** Any interleaving: each step of each client is separate, and a client may simply stop. */
  function Next(sha: Sha, w: World, step: Step): World {
    match step
    case Arrive(c, m) => if c in w.clients || !ValidMutation(sha, m) then w else SetClient(w, c, Starting(m))
    case FirstRead(c, fails) =>
      if c !in w.clients || !w.clients[c].Starting? then w
      else
        var m := w.clients[c].m;
        var current := Canonical(w, m, fails);
        var done := AfterRead(m, current);
        SetClient(w, c, if done.Some? then Finished(m, done.value, BodyOf(current)) else Matched(m, current.value))
    case Reserve(c, fault) =>
      if c !in w.clients || !w.clients[c].Matched? then w
      else
        var m, current := w.clients[c].m, w.clients[c].current;
        if fault != Works then
          SetClient(if fault.RaisesAfter? then w.(keys := w.keys + {Key(m)}) else w, c,
                    Finished(m, Result(PostconditionFailed, Some(current), 0, 1, false, "attempt_ledger_failed"), Some(current.body)))
        else if Key(m) in w.keys then
          SetClient(w, c, Finished(m, Result(PostconditionFailed, Some(current), 0, 1, true, "same_desired_digest_retry_suppressed"), Some(current.body)))
        else SetClient(w.(keys := w.keys + {Key(m)}), c, Reserved(m))
    case Write(c, written, after) =>
      if c !in w.clients || !w.clients[c].Reserved? then w
      else
        var m := w.clients[c].m;
        SetClient(w.(writes := w.writes + [m], bodies := w.bodies[(m.repository, m.issue) := after]), c, Writing(m, written))
    case Readback(c, fails) =>
      if c !in w.clients || !w.clients[c].Writing? then w
      else
        var m, back := w.clients[c].m, Canonical(w, w.clients[c].m, fails);
        SetClient(w, c, Finished(m, AfterReadback(m, w.clients[c].written, back), BodyOf(back)))
    case OutsideEdit(where, after) => w.(bodies := w.bodies[where := after])
  }

  function Run(sha: Sha, w: World, steps: seq<Step>): World
    decreases |steps|
  {
    if steps == [] then w else Run(sha, Next(sha, w, steps[0]), steps[1..])
  }

  const START := World(map[], {}, map[], [])

  ghost predicate ClientOk(sha: Sha, w: World, c: nat)
    requires c in w.clients
  {
    var x := w.clients[c];
    && ValidMutation(sha, x.m)
    && (x.Matched? ==> x.current.body == x.m.expected && x.current.updatedAt == x.m.expectedAt && x.current.body != x.m.desired)
    && (x.Reserved? ==> Key(x.m) in w.keys && forall i :: 0 <= i < |w.writes| ==> Key(w.writes[i]) != Key(x.m))
    && (x.Finished? && (x.result.outcome.Applied? || x.result.outcome.AlreadyApplied?) ==> x.lastRead == Some(x.m.desired))
    && (x.Finished? ==> x.result.patches <= 1 && x.result.readCount <= 2 && (x.result.outcome.Applied? ==> x.result.patches == 1))
  }

  ghost predicate WorldOk(sha: Sha, w: World) {
    && (forall c :: c in w.clients ==> ClientOk(sha, w, c))
    && (forall c, d :: c in w.clients && d in w.clients && c != d && w.clients[c].Reserved? && w.clients[d].Reserved?
          ==> Key(w.clients[c].m) != Key(w.clients[d].m))
    && (forall i :: 0 <= i < |w.writes| ==> ValidMutation(sha, w.writes[i]) && Key(w.writes[i]) in w.keys)
    && (forall i, j :: 0 <= i < j < |w.writes| ==> Key(w.writes[i]) != Key(w.writes[j]))
  }

  /** The step touches one client; every other keeps its state. */
  lemma NextTouches(sha: Sha, w: World, step: Step, d: nat)
    requires d in w.clients && (step.OutsideEdit? || step.c != d)
    ensures d in Next(sha, w, step).clients && Next(sha, w, step).clients[d] == w.clients[d]
    ensures w.keys <= Next(sha, w, step).keys
  {
    hide Key, ValidMutation, AfterRead, AfterReadback;
  }

  lemma OtherClientKept(sha: Sha, w: World, step: Step, d: nat)
    requires WorldOk(sha, w) && d in w.clients && (step.OutsideEdit? || step.c != d)
    ensures d in Next(sha, w, step).clients && ClientOk(sha, Next(sha, w, step), d)
  {
    hide Key, ValidMutation, AfterRead, AfterReadback;
    NextTouches(sha, w, step, d);
    assert ClientOk(sha, w, d);
  }

  lemma OwnClientKept(sha: Sha, w: World, step: Step)
    requires WorldOk(sha, w) && !step.OutsideEdit? && step.c in Next(sha, w, step).clients
    ensures ClientOk(sha, Next(sha, w, step), step.c)
  {
    hide Key, ValidMutation;
    if step.c in w.clients { assert ClientOk(sha, w, step.c); }
  }

  lemma WritesKept(sha: Sha, w: World, step: Step)
    requires WorldOk(sha, w)
    ensures var v := Next(sha, w, step);
            && (forall i :: 0 <= i < |v.writes| ==> ValidMutation(sha, v.writes[i]) && Key(v.writes[i]) in v.keys)
            && (forall i, j :: 0 <= i < j < |v.writes| ==> Key(v.writes[i]) != Key(v.writes[j]))
  {
    hide Key, ValidMutation, AfterRead, AfterReadback;
    if step.Write? && step.c in w.clients { assert ClientOk(sha, w, step.c); }
  }

  lemma ReservationsKept(sha: Sha, w: World, step: Step, c: nat, d: nat)
    requires WorldOk(sha, w) && c != d
    requires var v := Next(sha, w, step);
             c in v.clients && d in v.clients && v.clients[c].Reserved? && v.clients[d].Reserved? && (step.OutsideEdit? || step.c != d)
    ensures Key(Next(sha, w, step).clients[c].m) != Key(Next(sha, w, step).clients[d].m)
  {
    hide Key, ValidMutation, AfterRead, AfterReadback;
    assert ClientOk(sha, w, d);
  }

  lemma NextKeeps(sha: Sha, w: World, step: Step)
    requires WorldOk(sha, w)
    ensures WorldOk(sha, Next(sha, w, step))
  {
    hide Key, ValidMutation, ClientOk;
    WritesKept(sha, w, step);
    var v := Next(sha, w, step);
    forall c | c in v.clients ensures ClientOk(sha, v, c) {
      if !step.OutsideEdit? && step.c == c { OwnClientKept(sha, w, step); } else { OtherClientKept(sha, w, step, c); }
    }
    forall c, d | c in v.clients && d in v.clients && c != d && v.clients[c].Reserved? && v.clients[d].Reserved?
      ensures Key(v.clients[c].m) != Key(v.clients[d].m)
    {
      if step.OutsideEdit? || step.c != d { ReservationsKept(sha, w, step, c, d); } else { ReservationsKept(sha, w, step, d, c); }
    }
  }

  lemma {:induction false} RunKeeps(sha: Sha, w: World, steps: seq<Step>)
    requires WorldOk(sha, w)
    ensures WorldOk(sha, Run(sha, w, steps))
    decreases |steps|
  {
    hide WorldOk, Next;
    if steps != [] {
      NextKeeps(sha, w, steps[0]);
      RunKeeps(sha, Next(sha, w, steps[0]), steps[1..]);
    }
  }

  /** Over every interleaving the atomic write is called at most once per repository, issue and
      desired body. */
  lemma OnePatchEver(sha: Sha, steps: seq<Step>, i: nat, j: nat)
    requires DigestOk(sha)
    requires i < j < |Run(sha, START, steps).writes|
    ensures var a, b := Run(sha, START, steps).writes[i], Run(sha, START, steps).writes[j];
            a.repository != b.repository || a.issue != b.issue || a.desired != b.desired
  {
    hide Run, Key;
    RunKeeps(sha, START, steps);
    var a, b := Run(sha, START, steps).writes[i], Run(sha, START, steps).writes[j];
    SameKey(sha, a, b);
  }

  /** Attempts share a key exactly when they agree on repository, issue and desired body. */
  lemma SameKey(sha: Sha, a: Mutation, b: Mutation)
    requires DigestOk(sha) && ValidMutation(sha, a) && ValidMutation(sha, b)
    ensures Key(a) == Key(b) <==> a.repository == b.repository && a.issue == b.issue && a.desired == b.desired
  {
    if Key(a) == Key(b) {
      PreimageInjective(a.repository, a.issue, a.desiredDigest, b.repository, b.issue, b.desiredDigest);
    }
  }

  /** A client that reports APPLIED or ALREADY_APPLIED last read exactly the desired bytes. */
  lemma SuccessWasRead(sha: Sha, steps: seq<Step>, c: nat)
    requires c in Run(sha, START, steps).clients && Run(sha, START, steps).clients[c].Finished?
    ensures var x := Run(sha, START, steps).clients[c];
            && (x.result.outcome.Applied? || x.result.outcome.AlreadyApplied? ==> x.lastRead == Some(x.m.desired))
            && x.result.patches <= 1 && x.result.readCount <= 2
  {
    hide Run, Key, ValidMutation;
    RunKeeps(sha, START, steps);
    assert ClientOk(sha, Run(sha, START, steps), c);
  }

  // ---- The transaction -------------------------------------------------------------------

  class InMemoryAttemptLedger {
    var keys: set<string>

    constructor ()
      ensures keys == {}
    {
      keys := {};
    }

    method ReservePatch(m: Mutation) returns (reserved: bool)
      modifies this
      ensures reserved == (Key(m) !in old(keys)) && keys == old(keys) + {Key(m)}
    {
      var key := Key(m);
      if key in keys {
        assert keys + {key} == keys;
        return false;
      }
      keys := keys + {key};
      reserved := true;
    }
  }

  /** How a call to the shared database ends: normally, or raising with or without its effect. */
  datatype DatabaseFault = Works | RaisesBefore | RaisesAfter

  /** The durable ledger: one row per key ever reserved, and a database that may fail at any call. */
  class SQLiteAttemptLedger {
    var keys: set<string>
    var calls: nat
    const faults: nat -> DatabaseFault

    constructor (faults: nat -> DatabaseFault)
      ensures keys == {} && this.faults == faults
    {
      keys, calls := {}, 0;
      this.faults := faults;
    }

    /** None when the database raised.  A reservation is granted only to the call that inserts it. */
    method ReservePatch(m: Mutation) returns (reserved: Option<bool>)
      modifies this
      ensures reserved.Some? ==> reserved.value == (Key(m) !in old(keys)) && keys == old(keys) + {Key(m)}
      ensures reserved.None? ==> old(keys) <= keys <= old(keys) + {Key(m)}
      ensures reserved.None? <==> old(faults(calls)) != Works
    {
      var fault := faults(calls);
      calls := calls + 1;
      if fault == RaisesBefore {
        return None;
      }
      var isNew := Key(m) !in keys;
      keys := keys + {Key(m)};
      reserved := if fault == RaisesAfter then None else Some(isNew);
    }
  }

  /** The issue behind its transport: what each canonical read shows and each write answers. */
  class IssueTransport {
    const atomic: bool
    const shows: nat -> Option<Snapshot>
    const answers: nat -> Written
    var readsDone: nat
    var writes: seq<Mutation>

    constructor (atomic: bool, shows: nat -> Option<Snapshot>, answers: nat -> Written)
      ensures this.atomic == atomic && this.shows == shows && this.answers == answers && readsDone == 0 && writes == []
    {
      this.atomic, this.shows, this.answers := atomic, shows, answers;
      readsDone, writes := 0, [];
    }

    method ReadCanonical() returns (s: Option<Snapshot>)
      modifies this`readsDone
      ensures readsDone == old(readsDone) + 1 && s == shows(old(readsDone))
    {
      s := shows(readsDone);
      readsDone := readsDone + 1;
    }

    method CompareAndSwap(m: Mutation) returns (w: Written)
      modifies this`writes
      ensures writes == old(writes) + [m] && w == answers(|old(writes)|)
    {
      w := answers(|writes|);
      writes := writes + [m];
    }
  }

  /** The outcome, by what the transport and the ledger showed. */
  ghost predicate Decided(m: Mutation, atomic: bool, first: Option<Snapshot>, works: bool, known: bool, answer: Written,
                          second: Option<Snapshot>, r: Result)
  {
    var matched := atomic && first == Some(Snapshot(m.expected, m.expectedAt)) && m.expected != m.desired;
    var wrote := matched && works && !known;
    && (r.outcome == AlreadyApplied <==> atomic && first.Some? && first.value.body == m.desired)
    && (r.outcome == Applied <==> wrote && second.Some? && second.value.body == m.desired)
    && (r.outcome == Conflict <==>
          || (atomic && first.Some? && first.value.body != m.desired && first.value != Snapshot(m.expected, m.expectedAt))
          || (wrote && second.Some? && second.value.body != m.desired && answer == WroteConflict))
    && (r.suppressed <==> matched && works && known)
    && r.patches == (if wrote then 1 else 0) && r.readCount == (if !atomic then 0 else if wrote then 2 else 1)
    && r.observed == (if !atomic then None else if wrote then second else first)
  }

  /** The transaction as a function of what it is shown. */
  ghost function Transacted(m: Mutation, atomic: bool, first: Option<Snapshot>, works: bool, known: bool, answer: Written,
                            second: Option<Snapshot>): Result
  {
    if !atomic then Result(PostconditionFailed, None, 0, 0, false, "transport_does_not_support_atomic_issue_body_cas")
    else if AfterRead(m, first).Some? then AfterRead(m, first).value
    else if !works then Result(PostconditionFailed, first, 0, 1, false, "attempt_ledger_failed")
    else if known then Result(PostconditionFailed, first, 0, 1, true, "same_desired_digest_retry_suppressed")
    else AfterReadback(m, answer, second)
  }

  /** A success rests on the last read. */
  lemma SuccessReads(m: Mutation, atomic: bool, first: Option<Snapshot>, works: bool, known: bool, answer: Written, second: Option<Snapshot>, r: Result)
    requires Decided(m, atomic, first, works, known, answer, second, r) && (r.outcome.Applied? || r.outcome.AlreadyApplied?)
    ensures 1 <= r.readCount <= 2 && r.observed == (if r.readCount == 1 then first else second) && BodyOf(r.observed) == Some(m.desired)
  {
  }

  lemma TransactedDecides(m: Mutation, atomic: bool, first: Option<Snapshot>, works: bool, known: bool, answer: Written, second: Option<Snapshot>)
    ensures Decided(m, atomic, first, works, known, answer, second, Transacted(m, atomic, first, works, known, answer, second))
  {
  }

  /** The transaction of one client; None for a mutation that fails its own validation.  The reported
      counts are the reads and writes the transport saw; a write is made only by the call that
      inserted the key. */
  method Apply(sha: Sha, m: Mutation, t: IssueTransport, ledger: SQLiteAttemptLedger) returns (r: Option<Result>)
    modifies t, ledger
    ensures r.Some? <==> m.repository != "" && m.issue > 0 && m.expectedAt != ""
                         && m.expectedDigest == sha(m.expected) && m.desiredDigest == sha(m.desired)
    ensures r.Some? ==> t.readsDone == old(t.readsDone) + r.value.readCount && |t.writes| == old(|t.writes|) + r.value.patches
    ensures r.None? ==> t.readsDone == old(t.readsDone) && t.writes == old(t.writes) && ledger.keys == old(ledger.keys)
    ensures t.writes == old(t.writes) || (t.writes == old(t.writes) + [m] && Key(m) !in old(ledger.keys))
    ensures t.writes != old(t.writes) <==>
      && ValidMutation(sha, m) && t.atomic && AfterRead(m, t.shows(old(t.readsDone))).None?
      && old(ledger.faults(ledger.calls)) == Works && Key(m) !in old(ledger.keys)
    ensures t.writes != old(t.writes) ==>
      Key(m) in ledger.keys && r == Some(AfterReadback(m, t.answers(old(|t.writes|)), t.shows(old(t.readsDone) + 1)))
    ensures old(ledger.keys) <= ledger.keys <= old(ledger.keys) + {Key(m)}
    ensures r.Some? && (r.value.outcome.Applied? || r.value.outcome.AlreadyApplied?) ==>
      && t.readsDone > old(t.readsDone) && r.value.observed == t.shows(t.readsDone - 1)
      && BodyOf(t.shows(t.readsDone - 1)) == Some(m.desired)
    ensures r.Some? ==> Decided(m, t.atomic, t.shows(old(t.readsDone)), old(ledger.faults(ledger.calls)) == Works, Key(m) in old(ledger.keys),
                                t.answers(old(|t.writes|)), t.shows(old(t.readsDone) + 1), r.value)
  {
    hide Key, Decided, Transacted;
    TransactedDecides(m, t.atomic, t.shows(t.readsDone), ledger.faults(ledger.calls) == Works, Key(m) in ledger.keys,
                      t.answers(|t.writes|), t.shows(t.readsDone + 1));
    if !ValidMutation(sha, m) {
      return None;
    }
    ghost var first, works, known, answer, second :=
      t.shows(t.readsDone), ledger.faults(ledger.calls) == Works, Key(m) in ledger.keys, t.answers(|t.writes|), t.shows(t.readsDone + 1);
    var done := Transact(m, t, ledger);
    if done.outcome.Applied? || done.outcome.AlreadyApplied? {
      SuccessReads(m, t.atomic, first, works, known, answer, second, done);
    }
    r := Some(done);
  }

  /** Read, compare, reserve, write, read back. */
  method Transact(m: Mutation, t: IssueTransport, ledger: SQLiteAttemptLedger) returns (r: Result)
    modifies t, ledger
    ensures r == Transacted(m, t.atomic, t.shows(old(t.readsDone)), old(ledger.faults(ledger.calls)) == Works, Key(m) in old(ledger.keys),
                            t.answers(old(|t.writes|)), t.shows(old(t.readsDone) + 1))
    ensures t.readsDone == old(t.readsDone) + r.readCount && |t.writes| == old(|t.writes|) + r.patches
    ensures var wrote := t.atomic && AfterRead(m, t.shows(old(t.readsDone))).None? && old(ledger.faults(ledger.calls)) == Works
                         && Key(m) !in old(ledger.keys);
            && t.writes == (if wrote then old(t.writes) + [m] else old(t.writes))
            && (wrote ==> Key(m) in ledger.keys && r == AfterReadback(m, t.answers(old(|t.writes|)), t.shows(old(t.readsDone) + 1)))
    ensures old(ledger.keys) <= ledger.keys <= old(ledger.keys) + {Key(m)}
  {
    hide Key, AfterRead, AfterReadback;
    ReadCounts(m, t.shows(t.readsDone), t.answers(|t.writes|), t.shows(t.readsDone + 1));
    if !t.atomic {
      return Result(PostconditionFailed, None, 0, 0, false, "transport_does_not_support_atomic_issue_body_cas");
    }
    var done, current := ReadFirst(m, t);
    if done.Some? {
      return done.value;
    }
    var reserved := ledger.ReservePatch(m);
    if reserved.None? {
      return Result(PostconditionFailed, current, 0, 1, false, "attempt_ledger_failed");
    }
    if !reserved.value {
      return Result(PostconditionFailed, current, 0, 1, true, "same_desired_digest_retry_suppressed");
    }
    r := WriteAndReadBack(m, t);
  }

  lemma ReadCounts(m: Mutation, first: Option<Snapshot>, answer: Written, second: Option<Snapshot>)
    ensures AfterRead(m, first).Some? ==> AfterRead(m, first).value.patches == 0 && AfterRead(m, first).value.readCount == 1
    ensures AfterReadback(m, answer, second).patches == 1 && AfterReadback(m, answer, second).readCount == 2
  {
  }

  /** The first canonical read, and the result when it decides. */
  method ReadFirst(m: Mutation, t: IssueTransport) returns (done: Option<Result>, current: Option<Snapshot>)
    modifies t
    ensures t.readsDone == old(t.readsDone) + 1 && t.writes == old(t.writes)
    ensures current == t.shows(old(t.readsDone)) && done == AfterRead(m, current)
  {
    current := t.ReadCanonical();
    if current.None? {
      return Some(Result(PostconditionFailed, None, 0, 1, false, "initial_canonical_read_failed")), current;
    }
    if current.value.body == m.desired {
      return Some(Result(AlreadyApplied, current, 0, 1, false, "desired_body_already_canonical")), current;
    }
    if current.value.body != m.expected || current.value.updatedAt != m.expectedAt {
      return Some(Result(Conflict, current, 0, 1, false, "expected_body_or_timestamp_mismatch")), current;
    }
    done := None;
  }

  /** The one write, and the one read that decides its outcome. */
  method WriteAndReadBack(m: Mutation, t: IssueTransport) returns (r: Result)
    modifies t
    ensures t.writes == old(t.writes) + [m] && t.readsDone == old(t.readsDone) + 1
    ensures r == AfterReadback(m, t.answers(old(|t.writes|)), t.shows(old(t.readsDone)))
  {
    var written := t.CompareAndSwap(m);
    var readback := t.ReadCanonical();
    if readback.None? {
      return Result(PostconditionFailed, None, 1, 2, false, "canonical_readback_failed");
    }
    if readback.value.body == m.desired {
      return Result(Applied, readback, 1, 2, false, "byte_exact_canonical_readback");
    }
    if written == WroteConflict {
      return Result(Conflict, readback, 1, 2, false, "atomic_write_precondition_conflict");
    }
    r := Result(PostconditionFailed, readback, 1, 2, false, "canonical_readback_body_mismatch");
  }
}
