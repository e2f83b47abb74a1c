/** The wait for a child's acknowledgement: bounded in observations whatever the clock does. */
module AckWait {
  import opened Prelude

  datatype Seen = NotYet | Acknowledged | ObservationError

  datatype Result =
    | Acked(ceiling: real)
    | TimedOut(ceiling: real)
    | BadClock
    | Exhausted
    | ObservationFailed

  function Ceil(x: real): int {
    -((-x).Floor)
  }

  function MinReal(x: real, y: real): real {
    if x < y then x else y
  }

  /** The logical wall of an observation, capped by the fixed deadline. */
  function Ceiling(started: real, deadline: real, elapsed: real): real {
    if started + elapsed <= deadline then started + elapsed else deadline
  }

  /** Sample n + 1 follows sample n by at least what was slept in between; sample 1 follows the
      first observation without a sleep. */
  ghost predicate SleepsAdvance(clock: nat -> real, timeout: real, poll: real) {
    && clock(0) >= 0.0 && clock(1) >= clock(0)
    && forall n: nat :: n >= 1 && clock(n) - clock(0) < timeout ==>
         clock(n + 1) >= clock(n) + MinReal(poll, timeout - (clock(n) - clock(0)))
  }

  lemma CeilBounds(x: real)
    ensures x <= Ceil(x) as real < x + 1.0
  {
  }

  /** After i sleeps either i poll intervals or the whole timeout have passed. */
  lemma {:induction false} ElapsedAfter(clock: nat -> real, timeout: real, poll: real, i: nat)
    requires poll > 0.0 && timeout >= 0.0 && SleepsAdvance(clock, timeout, poll)
    requires forall j: nat :: 1 <= j <= i ==> clock(j) - clock(0) < timeout
    ensures clock(i + 1) - clock(0) >= MinReal(i as real * poll, timeout)
  {
    if i > 0 {
      ElapsedAfter(clock, timeout, poll, i - 1);
      var a := (i - 1) as real * poll;
      assert i as real * poll == a + poll;
      assert clock(i) - clock(0) >= MinReal(a, timeout) && clock(i) - clock(0) < timeout;
      assert clock(i + 1) >= clock(i) + MinReal(poll, timeout - (clock(i) - clock(0)));
    }
  }

  lemma EnoughPolls(timeout: real, poll: real, i: nat)
    requires poll > 0.0 && timeout >= 0.0 && i >= Ceil(timeout / poll)
    ensures i as real * poll >= timeout
  {
    CeilBounds(timeout / poll);
    assert timeout / poll * poll == timeout;
    Scale(timeout / poll, i as real, poll);
  }

  lemma Scale(x: real, y: real, p: real)
    requires x <= y && p > 0.0
    ensures x * p <= y * p
  {
  }

  lemma CeilNonNegative(timeout: real, poll: real)
    requires poll > 0.0 && timeout >= 0.0
    ensures Ceil(timeout / poll) >= 0
  {
    CeilBounds(timeout / poll);
    assert timeout / poll >= 0.0;
  }

  /** The k-th observation is the first that says something, the clock never ran back, and the time was
      not up before it. */
  ghost predicate EndsAt(timeout: real, poll: real, clock: nat -> real, seen: nat -> Seen, k: nat)
    requires poll > 0.0
  {
    && k < Ceil(timeout / poll) + 2 && !seen(k).NotYet? && (forall j: nat :: j < k ==> seen(j).NotYet?)
    && clock(0) >= 0.0 && (forall j: nat :: j < k ==> clock(j) <= clock(j + 1))
    && (forall j: nat :: 1 <= j <= k ==> clock(j) - clock(0) < timeout)
  }

  /** Sample i + 1 was accepted: not before sample i, and the time not up. */
  ghost predicate Steady(clock: nat -> real, timeout: real, i: nat) {
    clock(i) <= clock(i + 1) && clock(i + 1) - clock(0) < timeout
  }

  /** What the loop did: one observation per accepted sample, all but the last without news, each under
      its ceiling; and which of the five ways it ended. */
  ghost predicate Observed(timeout: real, poll: real, started: real, deadline: real, clock: nat -> real, seen: nat -> Seen,
                           r: Result, ceilings: seq<real>)
    requires poll > 0.0
  {
    var n := |ceilings|;
    && n <= Ceil(timeout / poll) + 2
    && (forall i: nat :: i < n ==> ceilings[i] == MinReal(deadline, started + (clock(i) - clock(0))))
    && (forall i: nat :: i < n - 1 ==> seen(i).NotYet?) && (forall i: nat :: i < n - 1 ==> Steady(clock, timeout, i))
    && (n > 0 ==> clock(0) >= 0.0)
    && match r
       case Acked(c) => n > 0 && seen(n - 1).Acknowledged? && c == ceilings[n - 1]
       case ObservationFailed => n > 0 && seen(n - 1).ObservationError?
       case TimedOut(c) => n > 0 && seen(n - 1).NotYet? && clock(n) >= clock(n - 1) && clock(n) - clock(0) >= timeout
                           && c == MinReal(deadline, started + (clock(n) - clock(0)))
       case BadClock => if n == 0 then clock(0) < 0.0 else seen(n - 1).NotYet? && (clock(n) < 0.0 || clock(n) < clock(n - 1))
       case Exhausted => n > 0 && n == Ceil(timeout / poll) + 2 && seen(n - 1).NotYet? && Steady(clock, timeout, n - 1)
  }

  /** Sleeps that advance the clock end the wait within its intended number of observations. */
  lemma AdvancingEnds(timeout: real, poll: real, started: real, deadline: real, clock: nat -> real, seen: nat -> Seen,
                      r: Result, ceilings: seq<real>)
    requires timeout >= 0.0 && poll > 0.0 && Observed(timeout, poll, started, deadline, clock, seen, r, ceilings)
    requires SleepsAdvance(clock, timeout, poll)
    ensures |ceilings| <= Ceil(timeout / poll) + 1 && !r.Exhausted? && !r.BadClock?
  {
    CeilNonNegative(timeout, poll);
    var n, c := |ceilings|, Ceil(timeout / poll);
    if n > c + 1 {
      Spent(timeout, poll, clock, c);
    }
    if r.BadClock? && n > 1 {
      assert Steady(clock, timeout, n - 2);
      Later(clock, timeout, n - 1);
    }
  }

  lemma {:induction false} Later(clock: nat -> real, timeout: real, n: nat)
    requires forall i: nat :: i < n ==> Steady(clock, timeout, i)
    ensures clock(0) <= clock(n)
  {
    if n > 0 {
      Later(clock, timeout, n - 1);
      assert Steady(clock, timeout, n - 1);
    }
  }

  /** So many steady samples would have used up the time. */
  lemma Spent(timeout: real, poll: real, clock: nat -> real, c: nat)
    requires timeout >= 0.0 && poll > 0.0 && SleepsAdvance(clock, timeout, poll) && c >= Ceil(timeout / poll)
    ensures exists i: nat :: i <= c && !Steady(clock, timeout, i)
  {
    if forall i: nat :: i <= c ==> Steady(clock, timeout, i) {
      forall j: nat | 1 <= j <= c ensures clock(j) - clock(0) < timeout { assert Steady(clock, timeout, j - 1); }
      assert Steady(clock, timeout, c);
      ElapsedAfter(clock, timeout, poll, c);
      EnoughPolls(timeout, poll, c);
    }
  }

  lemma StoppedClockExhausts(timeout: real, poll: real, started: real, deadline: real, clock: nat -> real, seen: nat -> Seen,
                             r: Result, ceilings: seq<real>)
    requires timeout > 0.0 && poll > 0.0 && Observed(timeout, poll, started, deadline, clock, seen, r, ceilings)
    requires forall n: nat :: clock(n) == clock(0) >= 0.0 && seen(n).NotYet?
    ensures r.Exhausted? && |ceilings| == Ceil(timeout / poll) + 2
  {
  }

  lemma EndsThere(timeout: real, poll: real, started: real, deadline: real, clock: nat -> real, seen: nat -> Seen,
                  r: Result, ceilings: seq<real>, k: nat)
    requires timeout >= 0.0 && poll > 0.0 && Observed(timeout, poll, started, deadline, clock, seen, r, ceilings)
    requires EndsAt(timeout, poll, clock, seen, k)
    ensures |ceilings| == k + 1 && (if seen(k).Acknowledged? then r.Acked? else r.ObservationFailed?)
  {
    var n := |ceilings|;
    if n < k + 1 && n > 0 {
      forall i: nat | i < n ensures Steady(clock, timeout, i) { assert clock(i) <= clock(i + 1); }
      Later(clock, timeout, n);
    }
  }

  /** The wait for an acknowledgement.  `seen(n)` is what the n-th observation finds. */
  method Await(timeout: real, poll: real, started: real, deadline: real, clock: nat -> real, seen: nat -> Seen)
    returns (r: Result, ceilings: seq<real>)
    requires timeout >= 0.0 && poll > 0.0
    ensures |ceilings| <= Ceil(timeout / poll) + 2
    ensures forall i: nat :: i < |ceilings| ==> ceilings[i] == MinReal(deadline, started + (clock(i) - clock(0))) <= deadline
    ensures r.Acked? || r.TimedOut? ==> r.ceiling <= deadline
    ensures r.Acked? ==> |ceilings| > 0 && seen(|ceilings| - 1).Acknowledged? && r.ceiling == ceilings[|ceilings| - 1]
    ensures r.ObservationFailed? ==> |ceilings| > 0 && seen(|ceilings| - 1).ObservationError?
    ensures forall i: nat :: i < |ceilings| - 1 ==> seen(i).NotYet?
    ensures r.TimedOut? ==> clock(|ceilings|) - clock(0) >= timeout
    ensures forall k: nat :: EndsAt(timeout, poll, clock, seen, k) ==>
      |ceilings| == k + 1 && (if seen(k).Acknowledged? then r.Acked? else r.ObservationFailed?)
    ensures SleepsAdvance(clock, timeout, poll) ==> |ceilings| <= Ceil(timeout / poll) + 1 && !r.Exhausted? && !r.BadClock?
    ensures (forall n: nat :: clock(n) == clock(0) >= 0.0 && seen(n).NotYet?) && timeout > 0.0
            ==> r.Exhausted? && |ceilings| == Ceil(timeout / poll) + 2
  {
    r, ceilings := Observe(timeout, poll, started, deadline, clock, seen);
    forall k: nat | EndsAt(timeout, poll, clock, seen, k)
      ensures |ceilings| == k + 1 && (if seen(k).Acknowledged? then r.Acked? else r.ObservationFailed?)
    {
      EndsThere(timeout, poll, started, deadline, clock, seen, r, ceilings, k);
    }
    if SleepsAdvance(clock, timeout, poll) { AdvancingEnds(timeout, poll, started, deadline, clock, seen, r, ceilings); }
    if (forall n: nat :: clock(n) == clock(0) >= 0.0 && seen(n).NotYet?) && timeout > 0.0 {
      StoppedClockExhausts(timeout, poll, started, deadline, clock, seen, r, ceilings);
    }
  }

  /** The observation loop. */
  method Observe(timeout: real, poll: real, started: real, deadline: real, clock: nat -> real, seen: nat -> Seen)
    returns (r: Result, ceilings: seq<real>)
    requires timeout >= 0.0 && poll > 0.0
    ensures Observed(timeout, poll, started, deadline, clock, seen, r, ceilings)
  {
    hide Ceil;
    CeilNonNegative(timeout, poll);
    ceilings := [];
    var first := clock(0);
    if first < 0.0 {
      return BadClock, [];
    }
    var previous := first;
    var maximum := Ceil(timeout / poll) + 2;
    var i := 0;
    while i < maximum
      invariant 0 <= i <= maximum && |ceilings| == i && previous == clock(i)
      invariant forall k: nat :: k < i ==> ceilings[k] == MinReal(deadline, started + (clock(k) - clock(0)))
      invariant forall k: nat :: k < i ==> seen(k).NotYet?
      invariant forall k: nat :: k < i ==> Steady(clock, timeout, k)
    {
      var ceiling := Ceiling(started, deadline, previous - first);
      ceilings := ceilings + [ceiling];
      match seen(i) {
        case ObservationError => return ObservationFailed, ceilings;
        case Acknowledged => return Acked(ceiling), ceilings;
        case NotYet =>
      }
      var sampled := clock(i + 1);
      if sampled < 0.0 || sampled < previous {
        return BadClock, ceilings;
      }
      previous := sampled;
      if timeout - (sampled - first) <= 0.0 {
        return TimedOut(Ceiling(started, deadline, sampled - first)), ceilings;
      }
      i := i + 1;
    }
    r := Exhausted;
  }
}
