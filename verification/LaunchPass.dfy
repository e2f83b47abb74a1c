/** One scheduling pass: the order of the message rows, and the launch budget of the two loops. */
module LaunchPass {
  import opened Prelude
  import opened RetryBudget
  import Sub = SubmissionSpec

  // ---- Ordering --------------------------------------------------------------------------

  datatype MessageRow = MessageRow(id: int, prepared: bool)

  datatype WakeView = WakeView(progress: string, lastAttempt: int, attempts: int)

  datatype Block = Due | Fresh | Cooling

  /** The in-flight wakes by message and phase, the time, and the current progress digest of each
      message; None when it cannot be computed. */
  datatype Scan = Scan(wakes: map<(int, bool), WakeView>, now: int, progress: int -> Option<string>)

  function BlockOf(s: Scan, row: MessageRow): Block {
    if (row.id, row.prepared) !in s.wakes then Fresh
    else
      var w := s.wakes[(row.id, row.prepared)];
      if s.progress(row.id).None? || s.progress(row.id).value != w.progress || s.now - w.lastAttempt >= RetrySeconds(w.attempts)
      then Due else Cooling
  }

  predicate Sorted(rows: seq<MessageRow>) {
    forall i, j :: 0 <= i < j < |rows| ==> rows[i].id <= rows[j].id
  }

  function Insert(row: MessageRow, rows: seq<MessageRow>): seq<MessageRow> {
    if rows == [] || row.id <= rows[0].id then [row] + rows else [rows[0]] + Insert(row, rows[1..])
  }

  /** `list.sort` by id; stable. */
  function SortById(rows: seq<MessageRow>): seq<MessageRow> {
    if rows == [] then [] else Insert(rows[0], SortById(rows[1..]))
  }

  lemma {:induction false} InsertSorts(row: MessageRow, rows: seq<MessageRow>)
    requires Sorted(rows)
    ensures Sorted(Insert(row, rows))
    ensures multiset(Insert(row, rows)) == multiset(rows) + multiset{row}
  {
    if rows != [] && row.id > rows[0].id {
      InsertSorts(row, rows[1..]);
      var rest := Insert(row, rows[1..]);
      assert rows == [rows[0]] + rows[1..];
      forall j | 0 <= j < |rest| ensures rows[0].id <= rest[j].id {
        assert rest[j] in multiset(rest);
        assert rest[j] == row || rest[j] in rows[1..];
      }
    }
  }

  lemma {:induction false} SortSorts(rows: seq<MessageRow>)
    ensures Sorted(SortById(rows)) && multiset(SortById(rows)) == multiset(rows)
  {
    if rows != [] {
      SortSorts(rows[1..]);
      InsertSorts(rows[0], SortById(rows[1..]));
      assert rows == [rows[0]] + rows[1..];
    }
  }

  /** The rows of one block, in their given order. */
  function Pick(s: Scan, rows: seq<MessageRow>, b: Block): seq<MessageRow> {
    if rows == [] then []
    else
      var last := rows[|rows|-1];
      Pick(s, rows[..|rows|-1], b) + (if BlockOf(s, last) == b then [last] else [])
  }

  ghost predicate AllIn(s: Scan, rows: seq<MessageRow>, b: Block) {
    forall i :: 0 <= i < |rows| ==> BlockOf(s, rows[i]) == b
  }

  lemma {:induction false} PickPartitions(s: Scan, rows: seq<MessageRow>)
    ensures multiset(Pick(s, rows, Due)) + multiset(Pick(s, rows, Fresh)) + multiset(Pick(s, rows, Cooling)) == multiset(rows)
  {
    if rows != [] {
      hide BlockOf, Pick;
      var front, last := rows[..|rows|-1], rows[|rows|-1];
      PickPartitions(s, front);
      assert rows == front + [last];
      assert multiset(rows) == multiset(front) + multiset{last};
      PickLast(s, rows, Due);
      PickLast(s, rows, Fresh);
      PickLast(s, rows, Cooling);
      OneBlock(multiset(Pick(s, front, Due)), multiset(Pick(s, front, Fresh)), multiset(Pick(s, front, Cooling)), multiset(front), last);
    } else {
      assert Pick(s, rows, Due) == [] && Pick(s, rows, Fresh) == [] && Pick(s, rows, Cooling) == [];
    }
  }

  lemma OneBlock(d: multiset<MessageRow>, f: multiset<MessageRow>, c: multiset<MessageRow>, all: multiset<MessageRow>, x: MessageRow)
    requires d + f + c == all
    ensures (d + multiset{x}) + f + c == all + multiset{x}
    ensures d + (f + multiset{x}) + c == all + multiset{x}
    ensures d + f + (c + multiset{x}) == all + multiset{x}
    ensures d + multiset{} == d && f + multiset{} == f && c + multiset{} == c
  {
  }

  lemma PickLast(s: Scan, rows: seq<MessageRow>, b: Block)
    requires rows != []
    ensures multiset(Pick(s, rows, b))
            == multiset(Pick(s, rows[..|rows|-1], b)) + (if BlockOf(s, rows[|rows|-1]) == b then multiset{rows[|rows|-1]} else multiset{})
  {
  }

  lemma {:induction false} PickStaysIn(s: Scan, rows: seq<MessageRow>, b: Block)
    ensures AllIn(s, Pick(s, rows, b), b)
  {
    hide BlockOf;
    if rows != [] {
      PickStaysIn(s, rows[..|rows|-1], b);
    }
  }

  lemma SortedBlock(s: Scan, rows: seq<MessageRow>, b: Block)
    requires AllIn(s, rows, b)
    ensures AllIn(s, SortById(rows), b) && Sorted(SortById(rows)) && multiset(SortById(rows)) == multiset(rows)
    ensures |SortById(rows)| == |rows| && Ids(SortById(rows)) == Ids(rows)
  {
    hide BlockOf, SortById;
    SortSorts(rows);
    var sorted := SortById(rows);
    assert |multiset(sorted)| == |sorted| && |multiset(rows)| == |rows|;
    forall r ensures r in sorted <==> r in rows { assert r in multiset(sorted) <==> r in multiset(rows); }
    forall i | 0 <= i < |sorted| ensures BlockOf(s, sorted[i]) == b { assert sorted[i] in rows; }
    IdsByRow(sorted);
    IdsByRow(rows);
  }

  function Ids(rows: seq<MessageRow>): set<int> {
    set i | 0 <= i < |rows| :: rows[i].id
  }

  lemma IdsByRow(rows: seq<MessageRow>)
    ensures Ids(rows) == set r | r in rows :: r.id
  {
    forall i | 0 <= i < |rows| ensures rows[i].id in (set r | r in rows :: r.id) { assert rows[i] in rows; }
  }

  lemma IdsOfAppend(rows: seq<MessageRow>, row: MessageRow)
    ensures Ids(rows + [row]) == Ids(rows) + {row.id}
  {
    var all := rows + [row];
    assert all[|rows|] == row;
    forall i | 0 <= i < |rows| ensures rows[i].id in Ids(all) { assert all[i] == rows[i]; }
  }

  /** A permutation into due, fresh and cooling rows, each block by id; the retry ids are the ids of
      the outer blocks. */
  method OrderMessageRows(rows: seq<MessageRow>, s: Scan)
    returns (ordered: seq<MessageRow>, due: nat, unseen: nat, retryIds: set<int>, dueIds: set<int>)
    ensures multiset(ordered) == multiset(rows)
    ensures due + unseen <= |ordered|
    ensures AllIn(s, ordered[..due], Due) && AllIn(s, ordered[due..due + unseen], Fresh) && AllIn(s, ordered[due + unseen..], Cooling)
    ensures Sorted(ordered[..due]) && Sorted(ordered[due..due + unseen]) && Sorted(ordered[due + unseen..])
    ensures dueIds == Ids(ordered[..due]) && retryIds == dueIds + Ids(ordered[due + unseen..])
  {
    hide RetrySeconds, BlockOf, SortById;
    var dues: seq<MessageRow>, freshes: seq<MessageRow>, coolings: seq<MessageRow> := [], [], [];
    retryIds, dueIds := {}, {};
    var i := 0;
    while i < |rows|
      invariant 0 <= i <= |rows|
      invariant dues == Pick(s, rows[..i], Due) && freshes == Pick(s, rows[..i], Fresh) && coolings == Pick(s, rows[..i], Cooling)
      invariant dueIds == Ids(dues) && retryIds == dueIds + Ids(coolings)
    {
      var row := rows[i];
      assert rows[..i+1][..i] == rows[..i];
      var block := BlockOf(s, row);
      if block == Fresh {
        freshes := freshes + [row];
      } else {
        retryIds := retryIds + {row.id};
        if block == Due {
          IdsOfAppend(dues, row);
          dueIds, dues := dueIds + {row.id}, dues + [row];
        } else {
          IdsOfAppend(coolings, row);
          coolings := coolings + [row];
        }
      }
      i := i + 1;
    }
    assert rows[..i] == rows;
    PickPartitions(s, rows);
    PickStaysIn(s, rows, Due);
    PickStaysIn(s, rows, Fresh);
    PickStaysIn(s, rows, Cooling);
    SortedBlock(s, dues, Due);
    SortedBlock(s, freshes, Fresh);
    SortedBlock(s, coolings, Cooling);
    due, unseen := |dues|, |freshes|;
    ordered := SortById(dues) + SortById(freshes) + SortById(coolings);
    assert ordered[..due] == SortById(dues) && ordered[due..due + unseen] == SortById(freshes)
           && ordered[due + unseen..] == SortById(coolings);
  }

  // ---- Launch policy ---------------------------------------------------------------------

  datatype Policy = Policy(total: int, messages: int, watches: int)

  predicate ValidPolicy(p: Policy) {
    p.total > 0 && p.messages >= 0 && p.watches > 0 && p.messages + p.watches <= p.total
  }

  /** A message row as the loop meets it.  `serviceable`: recipient, endpoint and contract checks
      pass; `running`: a session already serves it; `reserves`: its wake can be reserved now. */
  datatype Candidate = Candidate(
    key: string, role: string, retry: bool, serviceable: bool, planner: Option<string>, plannerActive: bool,
    lineage: Option<Sub.Lineage>, lineageActive: bool, running: bool, reserves: bool)

  /** A watch row as the loop meets it; `starts`: the launched child acknowledges at once. */
  datatype WatchRow = WatchRow(
    key: string, role: string, serviceable: bool, lineage: Option<Sub.Lineage>, lineageActive: bool,
    running: bool, reserves: bool, starts: bool)

  function MessageTarget(role: string, key: string): Sub.Target {
    Sub.Target(role, Sub.Message, key)
  }

  function WatchTarget(role: string, key: string): Sub.Target {
    Sub.Target(role, Sub.Watch, key)
  }

  /** What a pass may not touch again: open submissions, and lineages with a due watch. */
  datatype Fences = Fences(targets: set<Sub.Target>, lineages: set<Sub.Lineage>, planners: set<string>, dueLineages: set<Sub.Lineage>)

  datatype State = State(
    messages: seq<Candidate>, watches: seq<WatchRow>, targets: set<Sub.Target>, lineages: set<Sub.Lineage>, planners: set<string>)

  function Start(f: Fences): State {
    State([], [], {}, f.lineages, f.planners)
  }

  function Retries(launched: seq<Candidate>): nat {
    if launched == [] then 0
    else Retries(launched[..|launched|-1]) + (if launched[|launched|-1].retry then 1 else 0)
  }

  function MessageLimit(p: Policy, f: Fences): int {
    if f.dueLineages != {} then p.messages else Min(p.total, p.messages + p.watches)
  }

  predicate MessageBlocked(f: Fences, st: State, m: Candidate) {
    || (m.retry && Retries(st.messages) >= 1)
    || !m.serviceable
    || (m.planner.Some? && (m.planner.value in st.planners || m.plannerActive))
    || (m.lineage.Some? && (m.lineage.value in st.lineages || m.lineage.value in f.dueLineages || m.lineageActive))
    || MessageTarget(m.role, m.key) in st.targets || MessageTarget(m.role, m.key) in f.targets
  }

  function StepMessage(f: Fences, st: State, m: Candidate): State {
    if MessageBlocked(f, st, m) then st
    else
      var seen := st.(targets := st.targets + {MessageTarget(m.role, m.key)});
      if m.running || !m.reserves then seen
      else seen.(messages := st.messages + [m],
                 lineages := if m.lineage.Some? then st.lineages + {m.lineage.value} else st.lineages,
                 planners := if m.planner.Some? then st.planners + {m.planner.value} else st.planners)
  }

  predicate MessagesFull(p: Policy, f: Fences, st: State) {
    |st.messages| + |st.watches| >= p.total || |st.messages| >= MessageLimit(p, f)
  }

  function MessageLoop(p: Policy, f: Fences, st: State, rows: seq<Candidate>): State
    decreases |rows|
  {
    if rows == [] || MessagesFull(p, f, st) then st else MessageLoop(p, f, StepMessage(f, st, rows[0]), rows[1..])
  }

  predicate WatchBlocked(f: Fences, st: State, w: WatchRow) {
    || !w.serviceable
    || w.lineage.None? || w.lineage.value in st.lineages || w.lineageActive
    || WatchTarget(w.role, w.key) in st.targets || WatchTarget(w.role, w.key) in f.targets
  }

  function StepWatch(f: Fences, st: State, w: WatchRow): State {
    if WatchBlocked(f, st, w) then st
    else
      var seen := st.(targets := st.targets + {WatchTarget(w.role, w.key)});
      if w.running || !w.reserves then seen
      else seen.(watches := st.watches + [w],
                 lineages := if w.starts then st.lineages + {w.lineage.value} else st.lineages)
  }

  predicate WatchesFull(p: Policy, st: State) {
    |st.messages| + |st.watches| >= p.total || |st.watches| >= p.watches
  }

  function WatchLoop(p: Policy, f: Fences, st: State, rows: seq<WatchRow>): State
    decreases |rows|
  {
    if rows == [] || WatchesFull(p, st) then st else WatchLoop(p, f, StepWatch(f, st, rows[0]), rows[1..])
  }

  function Pass(p: Policy, f: Fences, rows: seq<Candidate>, watches: seq<WatchRow>): State {
    WatchLoop(p, f, MessageLoop(p, f, Start(f), rows), watches)
  }

  // ---- What holds after every row --------------------------------------------------------

  ghost predicate Launchable(f: Fences, m: Candidate) {
    && m.serviceable && !m.running && m.reserves && !(m.planner.Some? && m.plannerActive)
    && (m.lineage.Some? ==> m.lineage.value !in f.dueLineages && m.lineage.value !in f.lineages && !m.lineageActive)
    && (m.planner.Some? ==> m.planner.value !in f.planners)
    && MessageTarget(m.role, m.key) !in f.targets
  }

  ghost predicate Apart(a: Candidate, b: Candidate) {
    && (a.role != b.role || a.key != b.key)
    && (a.lineage.Some? ==> a.lineage != b.lineage) && (a.planner.Some? ==> a.planner != b.planner)
  }

  ghost predicate WatchLaunchable(f: Fences, w: WatchRow) {
    && w.serviceable && !w.running && w.reserves && !w.lineageActive && w.lineage.Some?
    && w.lineage.value !in f.lineages && WatchTarget(w.role, w.key) !in f.targets
  }

  ghost predicate MessagesOk(p: Policy, f: Fences, st: State) {
    && |st.messages| <= Max(0, MessageLimit(p, f)) && Retries(st.messages) <= 1
    && (forall i :: 0 <= i < |st.messages| ==>
          && Launchable(f, st.messages[i])
          && MessageTarget(st.messages[i].role, st.messages[i].key) in st.targets
          && (st.messages[i].lineage.Some? ==> st.messages[i].lineage.value in st.lineages)
          && (st.messages[i].planner.Some? ==> st.messages[i].planner.value in st.planners))
    && (forall i, j :: 0 <= i < j < |st.messages| ==> Apart(st.messages[i], st.messages[j]))
    && f.lineages <= st.lineages && f.planners <= st.planners
  }

  ghost predicate WatchesOk(p: Policy, f: Fences, st: State) {
    && |st.watches| <= p.watches && |st.messages| + |st.watches| <= p.total
    && (forall i :: 0 <= i < |st.watches| ==>
          WatchLaunchable(f, st.watches[i]) && WatchTarget(st.watches[i].role, st.watches[i].key) in st.targets)
    && (forall i, j :: 0 <= i < j < |st.watches| ==>
          st.watches[i].role != st.watches[j].role || st.watches[i].key != st.watches[j].key)
    && (forall i, j :: 0 <= i < |st.messages| && 0 <= j < |st.watches| && st.messages[i].lineage.Some? ==>
          st.messages[i].lineage != st.watches[j].lineage)
  }

  lemma StepMessageKeeps(p: Policy, f: Fences, st: State, m: Candidate)
    requires MessagesOk(p, f, st) && !MessagesFull(p, f, st)
    ensures MessagesOk(p, f, StepMessage(f, st, m))
  {
    var next := StepMessage(f, st, m);
    if |next.messages| > |st.messages| {
      assert next.messages[..|st.messages|] == st.messages;
    }
  }

  /** Due lineages are scheduled only by watches. */
  ghost predicate DueUntouched(f: Fences, st: State) {
    forall l :: l in st.lineages && l !in f.lineages ==> l !in f.dueLineages
  }

  lemma {:induction false} MessageLoopKeeps(p: Policy, f: Fences, st: State, rows: seq<Candidate>)
    requires MessagesOk(p, f, st) && DueUntouched(f, st) && st.watches == []
    requires forall t :: t in st.targets ==> t.kind.Message?
    ensures var r := MessageLoop(p, f, st, rows);
            && MessagesOk(p, f, r) && DueUntouched(f, r) && r.watches == []
            && (forall t :: t in r.targets ==> t.kind.Message?)
    decreases |rows|
  {
    if rows != [] && !MessagesFull(p, f, st) {
      StepMessageKeeps(p, f, st, rows[0]);
      MessageLoopKeeps(p, f, StepMessage(f, st, rows[0]), rows[1..]);
    }
  }

  lemma StepWatchKeeps(p: Policy, f: Fences, st: State, w: WatchRow)
    requires MessagesOk(p, f, st) && WatchesOk(p, f, st) && !WatchesFull(p, st)
    ensures MessagesOk(p, f, StepWatch(f, st, w)) && WatchesOk(p, f, StepWatch(f, st, w))
  {
    hide Retries;
  }

  lemma {:induction false} WatchLoopKeeps(p: Policy, f: Fences, st: State, rows: seq<WatchRow>)
    requires MessagesOk(p, f, st) && WatchesOk(p, f, st)
    ensures MessagesOk(p, f, WatchLoop(p, f, st, rows)) && WatchesOk(p, f, WatchLoop(p, f, st, rows))
    ensures WatchLoop(p, f, st, rows).messages == st.messages
    decreases |rows|
  {
    hide MessagesOk, WatchesOk;
    if rows != [] && !WatchesFull(p, st) {
      StepWatchKeeps(p, f, st, rows[0]);
      WatchLoopKeeps(p, f, StepWatch(f, st, rows[0]), rows[1..]);
    }
  }

  /** Every pass under a valid policy stays within all limits, launches at most one retry, never
      launches a fenced target or lineage or two of the same, and, when a watch is due, leaves the
      watch loop its whole allotment. */
  lemma PassWithinBudget(p: Policy, f: Fences, rows: seq<Candidate>, watches: seq<WatchRow>)
    requires ValidPolicy(p)
    ensures var r := Pass(p, f, rows, watches);
            && |r.messages| + |r.watches| <= p.total
            && |r.messages| <= MessageLimit(p, f) && |r.watches| <= p.watches
            && Retries(r.messages) <= 1
            && (f.dueLineages != {} ==> p.total - |r.messages| >= p.watches)
            && MessagesOk(p, f, r) && WatchesOk(p, f, r)
  {
    MessageLoopKeeps(p, f, Start(f), rows);
    WatchLoopKeeps(p, f, MessageLoop(p, f, Start(f), rows), watches);
  }

  /** A due watch that can be launched is never starved: if one exists, the pass launches a watch. */
  lemma DueWatchLaunches(p: Policy, f: Fences, rows: seq<Candidate>, watches: seq<WatchRow>, n: nat)
    requires ValidPolicy(p) && n < |watches|
    requires WatchLaunchable(f, watches[n]) && watches[n].lineage.value in f.dueLineages
    requires forall i, j :: 0 <= i < j < |watches| ==> watches[i].key != watches[j].key
    ensures Pass(p, f, rows, watches).watches != []
  {
    MessageLoopKeeps(p, f, Start(f), rows);
    var st := MessageLoop(p, f, Start(f), rows);
    FirstDueWatch(p, f, st, watches, n);
  }

  lemma {:induction false} FirstDueWatch(p: Policy, f: Fences, st: State, rows: seq<WatchRow>, n: nat)
    requires ValidPolicy(p) && n < |rows| && |st.messages| < p.total
    requires WatchLaunchable(f, rows[n]) && rows[n].lineage.value in f.dueLineages
    requires st.watches == [] ==> DueUntouched(f, st) && WatchTarget(rows[n].role, rows[n].key) !in st.targets
    requires forall i, j :: 0 <= i < j < |rows| ==> rows[i].key != rows[j].key
    ensures WatchLoop(p, f, st, rows).watches != []
    decreases |rows|
  {
    if st.watches != [] {
      WatchesGrow(p, f, st, rows);
    } else {
      var next := StepWatch(f, st, rows[0]);
      if n == 0 {
        assert next.watches == [rows[0]];
        WatchesGrow(p, f, next, rows[1..]);
      } else {
        FirstDueWatch(p, f, next, rows[1..], n - 1);
      }
    }
  }

  lemma {:induction false} WatchesGrow(p: Policy, f: Fences, st: State, rows: seq<WatchRow>)
    ensures st.watches <= WatchLoop(p, f, st, rows).watches
    decreases |rows|
  {
    if rows != [] && !WatchesFull(p, st) {
      WatchesGrow(p, f, StepWatch(f, st, rows[0]), rows[1..]);
    }
  }

  // ---- The loops -------------------------------------------------------------------------

  /** The two loops of a pass with their counters. */
  method RunPass(p: Policy, f: Fences, rows: seq<Candidate>, watches: seq<WatchRow>) returns (st: State)
    ensures st == Pass(p, f, rows, watches)
  {
    hide MessageLimit, MessageLoop, WatchLoop, StepMessage, StepWatch;
    st := Start(f);
    var attempts, messageAttempts, retryAttempts := 0, 0, 0;
    var limit := MessageLimit(p, f);
    var i := 0;
    while i < |rows| && attempts < p.total && messageAttempts < limit
      invariant 0 <= i <= |rows| && st.watches == []
      invariant attempts == messageAttempts == |st.messages| && retryAttempts == Retries(st.messages)
      invariant MessageLoop(p, f, Start(f), rows) == MessageLoop(p, f, st, rows[i..])
    {
      MessageLoopUnfolds(p, f, st, rows, i);
      var before := |st.messages|;
      ghost var was := st.messages;
      var m := rows[i];
      st := LaunchMessage(f, st, m, retryAttempts);
      if |st.messages| > before {
        assert st.messages[..before] == was;
        attempts, messageAttempts := attempts + 1, messageAttempts + 1;
        if m.retry {
          retryAttempts := retryAttempts + 1;
        }
      }
      i := i + 1;
    }
    MessageLoopStops(p, f, st, rows[i..]);
    ghost var middle := st;
    var watchAttempts, j := 0, 0;
    while j < |watches| && attempts < p.total && watchAttempts < p.watches
      invariant 0 <= j <= |watches|
      invariant attempts == |st.messages| + |st.watches| && watchAttempts == |st.watches|
      invariant WatchLoop(p, f, middle, watches) == WatchLoop(p, f, st, watches[j..])
    {
      WatchLoopUnfolds(p, f, st, watches, j);
      var before := |st.watches|;
      st := LaunchWatch(f, st, watches[j]);
      if |st.watches| > before {
        attempts, watchAttempts := attempts + 1, watchAttempts + 1;
      }
      j := j + 1;
    }
    WatchLoopStops(p, f, st, watches[j..]);
  }

  /** The body of the message loop, check by check. */
  method LaunchMessage(f: Fences, st: State, m: Candidate, retries: nat) returns (next: State)
    requires retries == Retries(st.messages)
    ensures next == StepMessage(f, st, m)
    ensures next.watches == st.watches && (next.messages == st.messages || next.messages == st.messages + [m])
  {
    next := st;
    if m.retry && retries >= 1 { return; }
    if !m.serviceable { return; }
    if m.planner.Some? && (m.planner.value in st.planners || m.plannerActive) { return; }
    if m.lineage.Some? && (m.lineage.value in st.lineages || m.lineage.value in f.dueLineages || m.lineageActive) { return; }
    var target := MessageTarget(m.role, m.key);
    if target in st.targets || target in f.targets { return; }
    next := next.(targets := next.targets + {target});
    if m.running || !m.reserves { return; }
    next := next.(messages := next.messages + [m]);
    if m.lineage.Some? { next := next.(lineages := next.lineages + {m.lineage.value}); }
    if m.planner.Some? { next := next.(planners := next.planners + {m.planner.value}); }
  }

  method LaunchWatch(f: Fences, st: State, w: WatchRow) returns (next: State)
    ensures next == StepWatch(f, st, w)
    ensures next.messages == st.messages && (next.watches == st.watches || next.watches == st.watches + [w])
  {
    next := st;
    if !w.serviceable { return; }
    if w.lineage.None? || w.lineage.value in st.lineages || w.lineageActive { return; }
    var target := WatchTarget(w.role, w.key);
    if target in st.targets || target in f.targets { return; }
    next := next.(targets := next.targets + {target});
    if w.running || !w.reserves { return; }
    next := next.(watches := next.watches + [w]);
    if w.starts { next := next.(lineages := next.lineages + {w.lineage.value}); }
  }

  lemma MessageLoopUnfolds(p: Policy, f: Fences, st: State, rows: seq<Candidate>, i: nat)
    requires i < |rows| && !MessagesFull(p, f, st)
    ensures MessageLoop(p, f, st, rows[i..]) == MessageLoop(p, f, StepMessage(f, st, rows[i]), rows[i+1..])
  {
    hide StepMessage;
    assert rows[i..][0] == rows[i] && rows[i..][1..] == rows[i+1..];
  }

  lemma MessageLoopStops(p: Policy, f: Fences, st: State, rows: seq<Candidate>)
    requires rows == [] || MessagesFull(p, f, st)
    ensures MessageLoop(p, f, st, rows) == st
  {
  }

  lemma WatchLoopUnfolds(p: Policy, f: Fences, st: State, rows: seq<WatchRow>, i: nat)
    requires i < |rows| && !WatchesFull(p, st)
    ensures WatchLoop(p, f, st, rows[i..]) == WatchLoop(p, f, StepWatch(f, st, rows[i]), rows[i+1..])
  {
    hide StepWatch;
    assert rows[i..][0] == rows[i] && rows[i..][1..] == rows[i+1..];
  }

  lemma WatchLoopStops(p: Policy, f: Fences, st: State, rows: seq<WatchRow>)
    requires rows == [] || WatchesFull(p, st)
    ensures WatchLoop(p, f, st, rows) == st
  {
  }
}
