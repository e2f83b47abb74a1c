/** Bounded retry: how often a wake or a terminal watch can be reserved while nothing progresses. */
module RetryBudget {
  import opened Prelude

  const RETRY_SECONDS := 60
  const MAX_RETRY_SECONDS := 900
  const MAX_ATTEMPTS := 3

  function Pow2(n: nat): nat {
    if n == 0 then 1 else 2 * Pow2(n - 1)
  }

  function RetrySeconds(attempts: int): int {
    Min(RETRY_SECONDS * Pow2(Max(0, attempts - 1)), MAX_RETRY_SECONDS)
  }

  datatype WakeState = Inflight | Held | Complete

  datatype Wake = Wake(state: WakeState, payload: string, progress: string, attempts: int, lastAttempt: int)

  /** The reservation of a wake, from the row read inside the transaction; `zeroWrite` is a payload
      mismatch that must leave no trace. */
  function ReserveWake(w: Option<Wake>, now: int, payload: string, progress: string, zeroWrite: bool): (Option<Wake>, bool) {
    if w.None? then (Some(Wake(Inflight, payload, progress, 1, now)), true)
    else
      var c := w.value;
      if c.payload != payload then
        (if zeroWrite || !c.state.Inflight? then w else Some(c.(state := Complete)), false)
      else if !c.state.Inflight? then (w, false)
      else if c.progress != progress then (Some(c.(attempts := 1, progress := progress, lastAttempt := now)), true)
      else if now - c.lastAttempt < RetrySeconds(c.attempts) then (w, false)
      else if c.attempts >= MAX_ATTEMPTS then (Some(c.(state := Held)), false)
      else (Some(c.(attempts := c.attempts + 1, lastAttempt := now)), true)
  }

  /** What else writes those columns: a launch that failed after the target had progressed restarts
      the budget, and the protocol moves the state. */
  datatype WakeOp =
    | Reserve(now: int, payload: string, progress: string, zeroWrite: bool)
    | FailedAfterProgress(now: int, progress: string)
    | Restate(state: WakeState)

  /** A change of the budget, newest last. */
  datatype Mark = Mark(now: int, progress: string, attempts: int, reserved: bool)

  datatype WakeRun = WakeRun(wake: Option<Wake>, marks: seq<Mark>)

  function WakeStep(r: WakeRun, op: WakeOp): WakeRun {
    match op
    case Reserve(now, payload, progress, zeroWrite) =>
      var (w, launch) := ReserveWake(r.wake, now, payload, progress, zeroWrite);
      WakeRun(w, if launch then r.marks + [Mark(now, progress, w.value.attempts, true)] else r.marks)
    case FailedAfterProgress(now, progress) =>
      if r.wake.None? || r.wake.value.progress == progress then r
      else WakeRun(Some(r.wake.value.(attempts := 1, progress := progress, lastAttempt := now)),
                   r.marks + [Mark(now, progress, 1, false)])
    case Restate(state) =>
      if r.wake.None? then r else r.(wake := Some(r.wake.value.(state := state)))
  }

  function RunWake(r: WakeRun, ops: seq<WakeOp>): WakeRun
    decreases |ops|
  {
    if ops == [] then r else RunWake(WakeStep(r, ops[0]), ops[1..])
  }

  /** Consecutive changes: an unchanged reservation is the next attempt, after the backoff. */
  ghost predicate Linked(x: Mark, y: Mark) {
    if y.progress == x.progress then y.reserved && y.attempts == x.attempts + 1 && y.now - x.now >= RetrySeconds(x.attempts)
    else y.attempts == 1
  }

  ghost predicate MarksOk(marks: seq<Mark>) {
    && (forall i :: 0 <= i < |marks| ==> 1 <= marks[i].attempts <= MAX_ATTEMPTS)
    && (forall i, j :: 0 <= i && j == i + 1 && j < |marks| ==> Linked(marks[i], marks[j]))
  }

  ghost predicate WakeOk(r: WakeRun) {
    && MarksOk(r.marks)
    && (r.wake.None? <==> r.marks == [])
    && (r.wake.Some? ==>
          var m := r.marks[|r.marks|-1];
          m.attempts == r.wake.value.attempts && m.progress == r.wake.value.progress && m.now == r.wake.value.lastAttempt)
  }

  lemma WakeStepKeeps(r: WakeRun, op: WakeOp)
    requires WakeOk(r)
    ensures WakeOk(WakeStep(r, op))
  {
    hide RetrySeconds;
  }

  lemma {:induction false} RunWakeKeeps(r: WakeRun, ops: seq<WakeOp>)
    requires WakeOk(r)
    ensures WakeOk(RunWake(r, ops))
    decreases |ops|
  {
    hide WakeOk, WakeStep;
    if ops != [] {
      WakeStepKeeps(r, ops[0]);
      RunWakeKeeps(WakeStep(r, ops[0]), ops[1..]);
    }
  }

  ghost predicate Unchanged(marks: seq<Mark>, i: nat, j: nat)
    requires i <= j < |marks|
  {
    forall k :: i <= k <= j ==> marks[k].reserved && marks[k].progress == marks[i].progress
  }

  lemma {:induction false} AttemptsClimb(marks: seq<Mark>, i: nat, j: nat)
    requires MarksOk(marks) && i <= j < |marks| && Unchanged(marks, i, j)
    ensures marks[j].attempts == marks[i].attempts + (j - i)
    decreases j - i
  {
    hide RetrySeconds;
    if i < j {
      AttemptsClimb(marks, i, j - 1);
      assert Linked(marks[j-1], marks[j]);
    }
  }

  /** From a wake that does not exist yet, however reservations and other writers interleave: under
      an unchanged progress digest at most three reservations in a row, each at least the backoff
      after the one before. */
  lemma WakeRetryBounded(ops: seq<WakeOp>, i: nat, j: nat)
    requires var marks := RunWake(WakeRun(None, []), ops).marks;
             i <= j < |marks| && Unchanged(marks, i, j)
    ensures var marks := RunWake(WakeRun(None, []), ops).marks;
            && j - i < MAX_ATTEMPTS
            && (i < j ==> 1 <= marks[j-1].attempts && marks[j].now - marks[j-1].now >= Min(60 * Pow2(marks[j-1].attempts - 1), 900))
  {
    RunWakeKeeps(WakeRun(None, []), ops);
    var marks := RunWake(WakeRun(None, []), ops).marks;
    AttemptsClimb(marks, i, j);
    if i < j { assert Linked(marks[j-1], marks[j]); }
  }

  /** The fifteen-minute cap of the backoff is never reached: budgets end at three attempts. */
  lemma BackoffNeverCapped(ops: seq<WakeOp>, i: nat)
    requires i < |RunWake(WakeRun(None, []), ops).marks|
    ensures var a := RunWake(WakeRun(None, []), ops).marks[i].attempts;
            1 <= a <= 3 && RetrySeconds(a) == 60 * Pow2(a - 1) && RetrySeconds(a) <= 240
  {
    RunWakeKeeps(WakeRun(None, []), ops);
    var a := RunWake(WakeRun(None, []), ops).marks[i].attempts;
    assert a == 1 || a == 2 || a == 3;
    assert Pow2(0) == 1 && Pow2(1) == 2 && Pow2(2) == 4;
  }

  // ---- Terminal watches ------------------------------------------------------------------

  datatype Watch = Watch(active: bool, progress: string, attempts: int, nextWake: int)

  /** The reservation of a terminal watch; `bound` is the outcome of the admission binding checks. */
  function ReserveWatch(w: Watch, now: int, progress: string, bound: bool): (Watch, bool) {
    if !w.active then (w, false)
    else if !bound then (w.(active := false), false)
    else if now < w.nextWake then (w, false)
    else if w.progress == progress && w.attempts >= MAX_ATTEMPTS then (w.(active := false), false)
    else
      (w.(attempts := if w.progress == progress then w.attempts + 1 else 1, progress := progress, nextWake := now + 300), true)
  }

  datatype WatchOp =
    | ReserveAt(now: int, progress: string, bound: bool)
    | Reopen(now: int, progress: string, nextWake: int)
    | Postpone(active: bool, nextWake: int)

  datatype WatchRun = WatchRun(watch: Watch, marks: seq<Mark>)

  function WatchStep(r: WatchRun, op: WatchOp): WatchRun {
    match op
    case ReserveAt(now, progress, bound) =>
      var (w, launch) := ReserveWatch(r.watch, now, progress, bound);
      WatchRun(w, if launch then r.marks + [Mark(now, progress, w.attempts, true)] else r.marks)
    case Reopen(now, progress, nextWake) => WatchRun(Watch(true, progress, 0, nextWake), r.marks + [Mark(now, progress, 0, false)])
    case Postpone(active, nextWake) => r.(watch := r.watch.(active := active, nextWake := nextWake))
  }

  function RunWatch(r: WatchRun, ops: seq<WatchOp>): WatchRun
    decreases |ops|
  {
    if ops == [] then r else RunWatch(WatchStep(r, ops[0]), ops[1..])
  }

  ghost predicate WatchLinked(x: Mark, y: Mark) {
    if !y.reserved then y.attempts == 0
    else y.attempts == (if y.progress == x.progress then x.attempts + 1 else 1)
  }

  ghost predicate WatchOk(r: WatchRun) {
    && r.marks != []
    && (forall i :: 0 <= i < |r.marks| ==> 0 <= r.marks[i].attempts <= MAX_ATTEMPTS)
    && (forall i, j :: 0 <= i && j == i + 1 && j < |r.marks| ==> WatchLinked(r.marks[i], r.marks[j]))
    && (forall i :: 0 <= i < |r.marks| && r.marks[i].reserved ==> r.marks[i].attempts >= 1)
    && r.marks[|r.marks|-1].attempts == r.watch.attempts && r.marks[|r.marks|-1].progress == r.watch.progress
  }

  lemma {:induction false} RunWatchKeeps(r: WatchRun, ops: seq<WatchOp>)
    requires WatchOk(r)
    ensures WatchOk(RunWatch(r, ops))
    decreases |ops|
  {
    if ops != [] {
      WatchStepKeeps(r, ops[0]);
      RunWatchKeeps(WatchStep(r, ops[0]), ops[1..]);
    }
  }

  lemma WatchStepKeeps(r: WatchRun, op: WatchOp)
    requires WatchOk(r)
    ensures WatchOk(WatchStep(r, op))
  {
  }

  lemma {:induction false} WatchAttemptsClimb(r: WatchRun, i: nat, j: nat)
    requires WatchOk(r) && i <= j < |r.marks| && Unchanged(r.marks, i, j)
    ensures r.marks[j].attempts == r.marks[i].attempts + (j - i)
    decreases j - i
  {
    if i < j {
      WatchAttemptsClimb(r, i, j - 1);
      assert WatchLinked(r.marks[j-1], r.marks[j]);
    }
  }

  /** The same bound for terminal watches, from the row as it is inserted. */
  lemma WatchRetryBounded(now: int, progress: string, nextWake: int, ops: seq<WatchOp>, i: nat, j: nat)
    requires var marks := RunWatch(WatchRun(Watch(true, progress, 0, nextWake), [Mark(now, progress, 0, false)]), ops).marks;
             i <= j < |marks| && Unchanged(marks, i, j)
    ensures j - i < MAX_ATTEMPTS
  {
    var start := WatchRun(Watch(true, progress, 0, nextWake), [Mark(now, progress, 0, false)]);
    RunWatchKeeps(start, ops);
    WatchAttemptsClimb(RunWatch(start, ops), i, j);
    assert RunWatch(start, ops).marks[i].reserved;
  }

  // ---- The tables ------------------------------------------------------------------------

  /** At most three reservations in a row without progress, the wake ones spaced by the backoff. */
  ghost predicate Bounded(marks: seq<Mark>, spaced: bool) {
    forall i: nat, j: nat :: i <= j < |marks| && Unchanged(marks, i, j) ==> BoundedAt(marks, i, j, spaced)
  }

  ghost predicate BoundedAt(marks: seq<Mark>, i: nat, j: nat, spaced: bool)
    requires i <= j < |marks|
  {
    && j - i < MAX_ATTEMPTS
    && (spaced && i < j ==> 1 <= marks[j-1].attempts && marks[j].now - marks[j-1].now >= Min(60 * Pow2(marks[j-1].attempts - 1), 900))
  }

  lemma WakeOkBounds(r: WakeRun)
    requires WakeOk(r)
    ensures Bounded(r.marks, true)
  {
    forall i: nat, j: nat | i <= j < |r.marks| && Unchanged(r.marks, i, j) ensures BoundedAt(r.marks, i, j, true) {
      AttemptsClimb(r.marks, i, j);
      if i < j { assert Linked(r.marks[j-1], r.marks[j]); }
    }
  }

  lemma WatchOkBounds(r: WatchRun)
    requires WatchOk(r)
    ensures Bounded(r.marks, false)
  {
    forall i: nat, j: nat | i <= j < |r.marks| && Unchanged(r.marks, i, j) ensures BoundedAt(r.marks, i, j, false) {
      WatchAttemptsClimb(r, i, j);
      assert r.marks[i].reserved;
    }
  }

  /** The wake and watch tables with, beside each row, the changes its budget has seen.  Whatever
      order the methods run in, the bound holds of every row. */
  class RetryTables {
    var wakes: map<string, Wake>
    var watches: map<string, Watch>
    ghost var wakeMarks: map<string, seq<Mark>>
    ghost var watchMarks: map<string, seq<Mark>>

    ghost predicate Valid()
      reads this
    {
      && wakeMarks.Keys == wakes.Keys && (forall k :: k in wakes ==> WakeOk(WakeRun(Some(wakes[k]), wakeMarks[k])))
      && watchMarks.Keys == watches.Keys && (forall k :: k in watches ==> WatchOk(WatchRun(watches[k], watchMarks[k])))
    }

    ghost function WakeAt(key: string): WakeRun
      reads this
    {
      if key in wakes && key in wakeMarks then WakeRun(Some(wakes[key]), wakeMarks[key]) else WakeRun(None, [])
    }

    constructor ()
      ensures Valid() && wakes == map[] && watches == map[]
    {
      wakes, watches, wakeMarks, watchMarks := map[], map[], map[], map[];
    }

    /** Reserve a wake, and extend its marks when it is to be launched. */
    method ReserveWakeRow(key: string, now: int, payload: string, progress: string, zeroWrite: bool) returns (launch: bool)
      requires Valid()
      modifies this`wakes, this`wakeMarks
      ensures Valid() && key in wakes && wakes - {key} == old(wakes) - {key} && wakeMarks - {key} == old(wakeMarks) - {key}
      ensures WakeAt(key) == WakeStep(old(WakeAt(key)), Reserve(now, payload, progress, zeroWrite))
      ensures launch <==> |WakeAt(key).marks| > old(|WakeAt(key).marks|)
      ensures Bounded(wakeMarks[key], true)
    {
      hide RetrySeconds, WakeOk, WatchOk, Bounded, ReserveWake;
      ghost var before := WakeAt(key);
      NoWakeYet();
      FirstIsLaunched(now, payload, progress, zeroWrite);
      WakeStepKeeps(before, Reserve(now, payload, progress, zeroWrite));
      WakeOkBounds(WakeStep(before, Reserve(now, payload, progress, zeroWrite)));
      launch := ReserveRow(key, now, payload, progress, zeroWrite);
      if launch {
        wakeMarks := wakeMarks[key := before.marks + [Mark(now, progress, wakes[key].attempts, true)]];
      }
    }

    /** The row itself, branch by branch. */
    method ReserveRow(key: string, now: int, payload: string, progress: string, zeroWrite: bool) returns (launch: bool)
      modifies this`wakes
      ensures var (w, l) := ReserveWake(if key in old(wakes) then Some(old(wakes)[key]) else None, now, payload, progress, zeroWrite);
              launch == l && w.Some? && wakes == old(wakes)[key := w.value]
    {
      hide RetrySeconds;
      if key !in wakes {
        wakes := wakes[key := Wake(Inflight, payload, progress, 1, now)];
        return true;
      }
      var c := wakes[key];
      assert wakes == wakes[key := c];
      if c.payload != payload {
        if !zeroWrite && c.state == Inflight {
          wakes := wakes[key := c.(state := Complete)];
        }
        return false;
      }
      if c.state != Inflight {
        return false;
      }
      if c.progress != progress {
        wakes := wakes[key := c.(attempts := 1, progress := progress, lastAttempt := now)];
        return true;
      }
      if now - c.lastAttempt < RetrySeconds(c.attempts) {
        return false;
      }
      if c.attempts >= MAX_ATTEMPTS {
        wakes := wakes[key := c.(state := Held)];
        return false;
      }
      wakes := wakes[key := c.(attempts := c.attempts + 1, lastAttempt := now)];
      launch := true;
    }

    /** A launch that failed after its target had progressed restarts the budget. */
    method FailAfterProgress(key: string, now: int, progress: string)
      requires Valid()
      modifies this`wakes, this`wakeMarks
      ensures Valid() && WakeAt(key) == WakeStep(old(WakeAt(key)), FailedAfterProgress(now, progress))
    {
      hide RetrySeconds, WakeOk, WatchOk;
      ghost var before := WakeAt(key);
      NoWakeYet();
      WakeStepKeeps(before, FailedAfterProgress(now, progress));
      if key in wakes && wakes[key].progress != progress {
        wakes := wakes[key := wakes[key].(attempts := 1, progress := progress, lastAttempt := now)];
        wakeMarks := wakeMarks[key := before.marks + [Mark(now, progress, 1, false)]];
      }
    }

    /** Reserve a terminal watch, and extend its marks when it is to be launched. */
    method ReserveTerminalWatch(key: string, now: int, progress: string, bound: bool) returns (launch: bool)
      requires Valid()
      modifies this`watches, this`watchMarks
      ensures Valid() && watches.Keys == old(watches).Keys
      ensures watches - {key} == old(watches) - {key} && watchMarks - {key} == old(watchMarks) - {key}
      ensures key !in old(watches) ==> !launch && watches == old(watches)
      ensures key in old(watches) ==>
        && WatchRun(watches[key], watchMarks[key]) == WatchStep(WatchRun(old(watches)[key], old(watchMarks)[key]), ReserveAt(now, progress, bound))
        && (launch <==> |watchMarks[key]| > |old(watchMarks)[key]|) && Bounded(watchMarks[key], false)
    {
      hide WakeOk, WatchOk, Bounded;
      if key !in watches {
        return false;
      }
      var w := watches[key];
      ghost var before := WatchRun(w, watchMarks[key]);
      WatchStepKeeps(before, ReserveAt(now, progress, bound));
      WatchOkBounds(WatchStep(before, ReserveAt(now, progress, bound)));
      if !w.active {
        return false;
      }
      if !bound {
        watches := watches[key := w.(active := false)];
        return false;
      }
      if now < w.nextWake {
        return false;
      }
      var changed := w.progress != progress;
      if !changed && w.attempts >= MAX_ATTEMPTS {
        watches := watches[key := w.(active := false)];
        return false;
      }
      var attempts := if changed then 1 else w.attempts + 1;
      watches := watches[key := w.(attempts := attempts, progress := progress, nextWake := now + 300)];
      watchMarks := watchMarks[key := before.marks + [Mark(now, progress, attempts, true)]];
      launch := true;
    }

    /** A heartbeat or a re-arm by another writer gives the watch a fresh budget. */
    method ReopenWatch(key: string, now: int, progress: string, nextWake: int)
      requires Valid()
      modifies this`watches, this`watchMarks
      ensures Valid() && key in watches && watches == old(watches)[key := Watch(true, progress, 0, nextWake)]
    {
      hide WakeOk, WatchOk;
      ghost var marks := if key in watches then watchMarks[key] else [];
      ReopenKeeps(if key in watches then Some(WatchRun(watches[key], watchMarks[key])) else None, now, progress, nextWake);
      watches := watches[key := Watch(true, progress, 0, nextWake)];
      watchMarks := watchMarks[key := marks + [Mark(now, progress, 0, false)]];
    }
  }

  lemma FirstIsLaunched(now: int, payload: string, progress: string, zeroWrite: bool)
    ensures ReserveWake(None, now, payload, progress, zeroWrite).1
  {
  }

  lemma NoWakeYet()
    ensures WakeOk(WakeRun(None, []))
  {
  }

  lemma ReopenKeeps(r: Option<WatchRun>, now: int, progress: string, nextWake: int)
    requires r.Some? ==> WatchOk(r.value)
    ensures WatchOk(WatchRun(Watch(true, progress, 0, nextWake), (if r.Some? then r.value.marks else []) + [Mark(now, progress, 0, false)]))
  {
  }
}
