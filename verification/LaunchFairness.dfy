/** The budgets are used: when a wake or a watch is reserved, and that a pass leaves a launchable row
    behind only for one of the reasons its policy gives. */
module LaunchFairness {
  import opened Prelude
  import opened RetryBudget
  import opened LaunchPass
  import Sub = SubmissionSpec

  // ---- Reservations ----------------------------------------------------------------------

  /** The wake as any history of reservations and other writes leaves it. */
  ghost function WakeAfter(ops: seq<WakeOp>): WakeRun {
    RunWake(WakeRun(None, []), ops)
  }

  /** The first backoff is a minute, the second two, the third four. */
  ghost predicate CooledDown(c: Wake, now: int) {
    && (c.attempts == 1 ==> now - c.lastAttempt >= 60) && (c.attempts == 2 ==> now - c.lastAttempt >= 120)
    && (c.attempts == 3 ==> now - c.lastAttempt >= 240)
  }

  /** A wake is launched exactly when it is new, or in flight for this payload with its target
      progressed, or with fewer than three attempts once it cooled down; a third attempt that cooled
      down without progress is held instead. */
  lemma WakeLaunchIff(ops: seq<WakeOp>, now: int, payload: string, progress: string, zeroWrite: bool)
    ensures var w := WakeAfter(ops).wake;
            var (next, launch) := ReserveWake(w, now, payload, progress, zeroWrite);
            && (launch <==> w.None? || (&& w.value.payload == payload && w.value.state == Inflight
                                        && (w.value.progress != progress || (w.value.attempts < 3 && CooledDown(w.value, now)))))
            && (launch ==> next.Some? && next.value.state == Inflight && next.value.payload == payload && next.value.progress == progress
                           && next.value.lastAttempt == now
                           && next.value.attempts == (if w.None? || w.value.progress != progress then 1 else w.value.attempts + 1))
            && (!launch ==> w.Some? && next.Some? && next.value == w.value.(state := next.value.state))
            && (!launch && next.value.state != w.value.state ==>
                  || (next.value.state == Complete && w.value.payload != payload && !zeroWrite && w.value.state == Inflight)
                  || (next.value.state == Held && w.value.attempts == 3 && w.value.progress == progress && CooledDown(w.value, now)))
            && (w.Some? && w.value == Wake(Inflight, payload, progress, 3, w.value.lastAttempt) && CooledDown(w.value, now) ==>
                  next.value.state == Held)
  {
    RunWakeKeeps(WakeRun(None, []), ops);
    var w := WakeAfter(ops).wake;
    if w.Some? {
      assert 1 <= w.value.attempts <= 3;
      Backoffs();
    }
  }

  lemma Backoffs()
    ensures RetrySeconds(1) == 60 && RetrySeconds(2) == 120 && RetrySeconds(3) == 240
  {
    assert Pow2(0) == 1 && Pow2(1) == 2 && Pow2(2) == 4;
  }

  /** A watch is launched exactly when it is active, bound, due, and progressed or below three attempts;
      it then sleeps five minutes.  Unbound or exhausted, it is retired. */
  lemma WatchLaunchIff(w: Watch, now: int, progress: string, bound: bool)
    ensures var (next, launch) := ReserveWatch(w, now, progress, bound);
            && (launch <==> w.active && bound && w.nextWake <= now && (w.progress != progress || w.attempts < 3))
            && (launch ==> next == Watch(true, progress, if w.progress == progress then w.attempts + 1 else 1, now + 300))
            && (!launch ==> next == w.(active := next.active))
            && (!launch && w.active ==> (!next.active <==> !bound || (w.nextWake <= now && w.progress == progress && w.attempts >= 3)))
            && (!w.active ==> !next.active)
  {
  }

  /** The order sees the same backoff as the reservation: a row cools exactly while reserving its wake
      would change nothing. */
  lemma CoolingIff(s: Scan, row: MessageRow, payload: string)
    requires (row.id, row.prepared) in s.wakes && s.progress(row.id).Some?
    ensures var v := s.wakes[(row.id, row.prepared)];
            var c := Wake(Inflight, payload, v.progress, v.attempts, v.lastAttempt);
            BlockOf(s, row) == Cooling <==> ReserveWake(Some(c), s.now, payload, s.progress(row.id).value, false) == (Some(c), false)
  {
    hide RetrySeconds;
  }

  /** A row without a wake is fresh; one whose progress cannot be computed is due. */
  lemma FreshIff(s: Scan, row: MessageRow)
    ensures BlockOf(s, row) == Fresh <==> (row.id, row.prepared) !in s.wakes
    ensures (row.id, row.prepared) in s.wakes && s.progress(row.id).None? ==> BlockOf(s, row) == Due
  {
  }

  // ---- Nothing launchable is left without a reason ---------------------------------------

  /** The policy's limit on message launches. */
  ghost function MessageShare(p: Policy, f: Fences): int {
    if f.dueLineages == {} then p.messages + p.watches else p.messages
  }

  /** An already launched row stands in the way: the one retry, the same planner or the same lineage. */
  ghost predicate InTheWay(x: Candidate, m: Candidate) {
    (x.retry && m.retry) || (m.planner.Some? && x.planner == m.planner) || (m.lineage.Some? && x.lineage == m.lineage)
  }

  /** What the loop remembers is exactly what it launched, and it has seen only earlier rows. */
  ghost predicate Remembers(f: Fences, st: State, seen: seq<Candidate>) {
    && (forall t :: t in st.targets ==> exists i :: 0 <= i < |seen| && t == MessageTarget(seen[i].role, seen[i].key))
    && (forall l :: l in st.lineages ==> l in f.lineages || exists i :: 0 <= i < |st.messages| && st.messages[i].lineage == Some(l))
    && (forall q :: q in st.planners ==> q in f.planners || exists i :: 0 <= i < |st.messages| && st.messages[i].planner == Some(q))
  }

  lemma {:induction false} RetryFound(launched: seq<Candidate>)
    requires Retries(launched) >= 1
    ensures exists i :: 0 <= i < |launched| && launched[i].retry
  {
    if !launched[|launched|-1].retry { RetryFound(launched[..|launched|-1]); }
  }

  lemma StepRemembers(f: Fences, st: State, seen: seq<Candidate>, m: Candidate)
    requires Remembers(f, st, seen)
    ensures Remembers(f, StepMessage(f, st, m), seen + [m])
  {
    hide MessageBlocked;
    var next, after := StepMessage(f, st, m), seen + [m];
    assert after[|seen|] == m && forall i :: 0 <= i < |seen| ==> after[i] == seen[i];
    forall t | t in next.targets ensures exists i :: 0 <= i < |after| && t == MessageTarget(after[i].role, after[i].key) {
      if t in st.targets {
        var i :| 0 <= i < |seen| && t == MessageTarget(seen[i].role, seen[i].key);
        assert after[i] == seen[i];
      }
    }
    Kept(f, st, next, m);
  }

  lemma Kept(f: Fences, st: State, next: State, m: Candidate)
    requires forall l :: l in st.lineages ==> l in f.lineages || exists i :: 0 <= i < |st.messages| && st.messages[i].lineage == Some(l)
    requires forall q :: q in st.planners ==> q in f.planners || exists i :: 0 <= i < |st.messages| && st.messages[i].planner == Some(q)
    requires next == StepMessage(f, st, m)
    ensures forall l :: l in next.lineages ==> l in f.lineages || exists i :: 0 <= i < |next.messages| && next.messages[i].lineage == Some(l)
    ensures forall q :: q in next.planners ==> q in f.planners || exists i :: 0 <= i < |next.messages| && next.messages[i].planner == Some(q)
  {
    hide MessageBlocked;
    if next.messages != st.messages {
      var n := |st.messages|;
      assert next.messages == st.messages + [m] && next.messages[n] == m;
      forall l | l in next.lineages ensures l in f.lineages || exists i :: 0 <= i < |next.messages| && next.messages[i].lineage == Some(l) {
        if l in st.lineages && l !in f.lineages {
          var i :| 0 <= i < |st.messages| && st.messages[i].lineage == Some(l);
          assert next.messages[i] == st.messages[i];
        }
      }
      forall q | q in next.planners ensures q in f.planners || exists i :: 0 <= i < |next.messages| && next.messages[i].planner == Some(q) {
        if q in st.planners && q !in f.planners {
          var i :| 0 <= i < |st.messages| && st.messages[i].planner == Some(q);
          assert next.messages[i] == st.messages[i];
        }
      }
    }
  }

  /** A launchable row that no earlier row shares its target with is launched, or something launched
      stands in its way. */
  lemma StepLaunches(f: Fences, st: State, seen: seq<Candidate>, m: Candidate)
    requires Remembers(f, st, seen) && Launchable(f, m)
    requires forall i :: 0 <= i < |seen| ==> seen[i].role != m.role || seen[i].key != m.key
    ensures StepMessage(f, st, m).messages == st.messages + [m] || exists i :: 0 <= i < |st.messages| && InTheWay(st.messages[i], m)
  {
    if MessageBlocked(f, st, m) {
      if m.retry && Retries(st.messages) >= 1 { RetryFound(st.messages); }
    }
  }

  lemma {:induction false} MessagesGrow(p: Policy, f: Fences, st: State, rows: seq<Candidate>)
    ensures st.messages <= MessageLoop(p, f, st, rows).messages && MessageLoop(p, f, st, rows).watches == st.watches
    decreases |rows|
  {
    if rows != [] && !MessagesFull(p, f, st) { MessagesGrow(p, f, StepMessage(f, st, rows[0]), rows[1..]); }
  }

  ghost predicate Served(p: Policy, f: Fences, launched: seq<Candidate>, m: Candidate) {
    m in launched || |launched| >= MessageShare(p, f) || exists i :: 0 <= i < |launched| && InTheWay(launched[i], m)
  }

  lemma ServedStays(p: Policy, f: Fences, a: seq<Candidate>, b: seq<Candidate>, m: Candidate)
    requires Served(p, f, a, m) && a <= b
    ensures Served(p, f, b, m)
  {
    if i :| 0 <= i < |a| && InTheWay(a[i], m) { assert b[i] == a[i]; }
    if m in a { var i :| 0 <= i < |a| && a[i] == m; assert b[i] == a[i]; }
  }

  lemma {:induction false} LoopServes(p: Policy, f: Fences, st: State, seen: seq<Candidate>, rows: seq<Candidate>, n: nat)
    requires ValidPolicy(p) && Remembers(f, st, seen) && n < |rows| && Launchable(f, rows[n]) && st.watches == []
    requires forall i :: 0 <= i < |seen| ==> seen[i].role != rows[n].role || seen[i].key != rows[n].key
    requires forall i, j :: 0 <= i < j < |rows| ==> rows[i].role != rows[j].role || rows[i].key != rows[j].key
    ensures Served(p, f, MessageLoop(p, f, st, rows).messages, rows[n])
    decreases |rows|
  {
    hide Remembers, Launchable;
    if !MessagesFull(p, f, st) {
      var next := StepMessage(f, st, rows[0]);
      StepRemembers(f, st, seen, rows[0]);
      if n == 0 {
        StepLaunches(f, st, seen, rows[0]);
        MessagesGrow(p, f, next, rows[1..]);
        assert Served(p, f, next.messages, rows[0]) by { ServedNow(p, f, st, rows[0]); }
        ServedStays(p, f, next.messages, MessageLoop(p, f, st, rows).messages, rows[0]);
      } else {
        LoopServes(p, f, next, seen + [rows[0]], rows[1..], n - 1);
      }
    }
  }

  lemma ServedNow(p: Policy, f: Fences, st: State, m: Candidate)
    requires StepMessage(f, st, m).messages == st.messages + [m] || exists i :: 0 <= i < |st.messages| && InTheWay(st.messages[i], m)
    ensures Served(p, f, StepMessage(f, st, m).messages, m)
  {
    var launched := StepMessage(f, st, m).messages;
    if launched == st.messages + [m] { assert launched[|st.messages|] == m; }
    if i :| 0 <= i < |st.messages| && InTheWay(st.messages[i], m) { assert launched[i] == st.messages[i]; }
  }

  /** Every launchable message row is launched, or the pass used up its message share, or a launched
      row with the same planner or lineage, or the one retry, stands in its way. */
  lemma NoMessageStarves(p: Policy, f: Fences, rows: seq<Candidate>, watches: seq<WatchRow>, n: nat)
    requires ValidPolicy(p) && n < |rows| && Launchable(f, rows[n])
    requires forall i, j :: 0 <= i < j < |rows| ==> rows[i].role != rows[j].role || rows[i].key != rows[j].key
    ensures var launched := Pass(p, f, rows, watches).messages;
            Served(p, f, launched, rows[n]) && |launched| <= MessageShare(p, f)
  {
    assert Remembers(f, Start(f), []);
    LoopServes(p, f, Start(f), [], rows, n);
    MessageLoopKeeps(p, f, Start(f), rows);
    WatchLoopKeeps(p, f, MessageLoop(p, f, Start(f), rows), watches);
  }

  // ---- Watches ---------------------------------------------------------------------------

  /** A launched message, or a started watch, of the same lineage. */
  ghost predicate LineageTaken(st: State, l: Sub.Lineage) {
    || (exists i :: 0 <= i < |st.messages| && st.messages[i].lineage == Some(l))
    || (exists i :: 0 <= i < |st.watches| && st.watches[i].starts && st.watches[i].lineage == Some(l))
  }

  ghost predicate WatchServed(p: Policy, st: State, w: WatchRow)
    requires w.lineage.Some?
  {
    || w in st.watches || |st.watches| >= p.watches || |st.messages| + |st.watches| >= p.total
    || LineageTaken(st, w.lineage.value)
  }

  ghost predicate WatchRemembers(f: Fences, st: State, seen: seq<WatchRow>) {
    && (forall t :: t in st.targets && t.kind.Watch? ==> exists i :: 0 <= i < |seen| && t == WatchTarget(seen[i].role, seen[i].key))
    && (forall l :: l in st.lineages ==> l in f.lineages || LineageTaken(st, l))
  }

  lemma TakenStays(st: State, next: State, l: Sub.Lineage)
    requires LineageTaken(st, l) && next.messages == st.messages && st.watches <= next.watches
    ensures LineageTaken(next, l)
  {
    if i :| 0 <= i < |st.watches| && st.watches[i].starts && st.watches[i].lineage == Some(l) { assert next.watches[i] == st.watches[i]; }
  }

  lemma WatchStepRemembers(f: Fences, st: State, seen: seq<WatchRow>, w: WatchRow)
    requires WatchRemembers(f, st, seen)
    ensures WatchRemembers(f, StepWatch(f, st, w), seen + [w])
  {
    hide LineageTaken;
    var next, after := StepWatch(f, st, w), seen + [w];
    assert after[|seen|] == w && forall i :: 0 <= i < |seen| ==> after[i] == seen[i];
    forall t | t in next.targets && t.kind.Watch? ensures exists i :: 0 <= i < |after| && t == WatchTarget(after[i].role, after[i].key) {
      if t in st.targets {
        var i :| 0 <= i < |seen| && t == WatchTarget(seen[i].role, seen[i].key);
        assert after[i] == seen[i];
      }
    }
    forall l | l in next.lineages ensures l in f.lineages || LineageTaken(next, l) {
      if l in st.lineages {
        if l !in f.lineages { TakenStays(st, next, l); }
      } else {
        StartedTakes(f, st, w, l);
      }
    }
  }

  lemma StartedTakes(f: Fences, st: State, w: WatchRow, l: Sub.Lineage)
    requires l in StepWatch(f, st, w).lineages && l !in st.lineages
    ensures LineageTaken(StepWatch(f, st, w), l)
  {
    var next := StepWatch(f, st, w);
    assert next.watches[|st.watches|] == w && w.starts && w.lineage == Some(l);
  }

  lemma WatchStepServes(p: Policy, f: Fences, st: State, seen: seq<WatchRow>, w: WatchRow)
    requires WatchRemembers(f, st, seen) && WatchLaunchable(f, w)
    requires forall i :: 0 <= i < |seen| ==> seen[i].role != w.role || seen[i].key != w.key
    ensures WatchServed(p, StepWatch(f, st, w), w)
  {
    hide LineageTaken;
    var next := StepWatch(f, st, w);
    if !WatchBlocked(f, st, w) { assert next.watches[|st.watches|] == w; }
  }

  lemma {:induction false} WatchLoopServes(p: Policy, f: Fences, st: State, seen: seq<WatchRow>, rows: seq<WatchRow>, n: nat)
    requires WatchRemembers(f, st, seen) && n < |rows| && WatchLaunchable(f, rows[n])
    requires forall i :: 0 <= i < |seen| ==> seen[i].role != rows[n].role || seen[i].key != rows[n].key
    requires forall i, j :: 0 <= i < j < |rows| ==> rows[i].role != rows[j].role || rows[i].key != rows[j].key
    ensures WatchServed(p, WatchLoop(p, f, st, rows), rows[n])
    decreases |rows|
  {
    hide WatchRemembers, LineageTaken;
    if !WatchesFull(p, st) {
      var next := StepWatch(f, st, rows[0]);
      WatchStepRemembers(f, st, seen, rows[0]);
      if n == 0 {
        WatchStepServes(p, f, st, seen, rows[0]);
        WatchServedStays(p, f, next, rows[1..], rows[0]);
      } else {
        WatchLoopServes(p, f, next, seen + [rows[0]], rows[1..], n - 1);
      }
    }
  }

  lemma WatchServedStays(p: Policy, f: Fences, st: State, rows: seq<WatchRow>, w: WatchRow)
    requires w.lineage.Some? && WatchServed(p, st, w)
    ensures WatchServed(p, WatchLoop(p, f, st, rows), w)
  {
    hide LineageTaken;
    WatchesGrow(p, f, st, rows);
    MessagesSame(p, f, st, rows);
    var end := WatchLoop(p, f, st, rows);
    if w in st.watches { var i :| 0 <= i < |st.watches| && st.watches[i] == w; assert end.watches[i] == w; }
    if LineageTaken(st, w.lineage.value) { TakenStays(st, end, w.lineage.value); }
  }

  lemma {:induction false} MessagesSame(p: Policy, f: Fences, st: State, rows: seq<WatchRow>)
    ensures WatchLoop(p, f, st, rows).messages == st.messages
    decreases |rows|
  {
    if rows != [] && !WatchesFull(p, st) { MessagesSame(p, f, StepWatch(f, st, rows[0]), rows[1..]); }
  }

  /** Every launchable watch is launched, or the watch allotment or the pass is used up, or its lineage
      was taken by a launched message or a started watch. */
  lemma NoWatchStarves(p: Policy, f: Fences, rows: seq<Candidate>, watches: seq<WatchRow>, n: nat)
    requires ValidPolicy(p) && n < |watches| && WatchLaunchable(f, watches[n])
    requires forall i, j :: 0 <= i < j < |watches| ==> watches[i].role != watches[j].role || watches[i].key != watches[j].key
    ensures WatchServed(p, Pass(p, f, rows, watches), watches[n])
  {
    var st := MessageLoop(p, f, Start(f), rows);
    assert Remembers(f, Start(f), []);
    MessagesRemember(p, f, Start(f), [], rows);
    MessageLoopKeeps(p, f, Start(f), rows);
    WatchLoopServes(p, f, st, [], watches, n);
  }

  lemma {:induction false} MessagesRemember(p: Policy, f: Fences, st: State, seen: seq<Candidate>, rows: seq<Candidate>)
    requires Remembers(f, st, seen)
    ensures var r := MessageLoop(p, f, st, rows);
            forall l :: l in r.lineages ==> l in f.lineages || LineageTaken(r, l)
    decreases |rows|
  {
    if rows != [] && !MessagesFull(p, f, st) {
      StepRemembers(f, st, seen, rows[0]);
      MessagesRemember(p, f, StepMessage(f, st, rows[0]), seen + [rows[0]], rows[1..]);
    }
  }
}
