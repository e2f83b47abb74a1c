/** Disaster-restore placement: renames that may raise before or after their effect, and a rollback
    that works from what the filesystem shows.  File 0 is the database, 1..n its sidecars. */
module RestorePlacement {
  import opened Prelude

  datatype Path = Canon(i: nat) | Forensic(i: nat) | StagePath

  datatype File = Original(i: nat) | Staged

  type Files = map<Path, File>

  /** How a call ends: normally, raising with nothing done, or raising after its effect. */
  datatype Fault = Fine | RaisedBefore | RaisedAfter

  predicate Effective(f: Fault) {
    !f.RaisedBefore?
  }

  /** Every outcome outside the program: the forward calls in order, whether the staged file can be
      recognised at the canonical path, and each rename of the rollback. */
  datatype Script = Script(
    move: nat -> Fault, syncForensic: Fault, replace: Fault, verify: Fault,
    stageRecognised: bool, preserve: Fault, back: nat -> Fault, syncBack: Fault, reread: bool)

  // ---- Layouts ---------------------------------------------------------------------------

  /** Which originals sit in the forensic directory, and whether the staged file is canonical. */
  datatype Layout = Layout(away: set<nat>, placed: bool)

  ghost predicate Sound(n: nat, l: Layout) {
    (forall i :: i in l.away ==> i <= n) && (l.placed ==> 0 in l.away)
  }

  function At(n: nat, l: Layout, p: Path): Option<File> {
    match p
    case Canon(i) =>
      if i == 0 && l.placed then Some(Staged)
      else if i <= n && i !in l.away then Some(Original(i)) else None
    case Forensic(i) => if i <= n && i in l.away then Some(Original(i)) else None
    case StagePath => if l.placed then None else Some(Staged)
  }

  /** The files are exactly those of the layout, each at one path. */
  ghost predicate Shows(n: nat, fs: Files, l: Layout) {
    && Sound(n, l)
    && (forall p :: p in fs <==> At(n, l, p).Some?)
    && (forall p :: p in fs ==> fs[p] == At(n, l, p).value)
  }

  /** An old sidecar beside the restored database, or the old database without all its sidecars. */
  predicate Unsafe(n: nat, l: Layout) {
    || (l.placed && exists i :: 1 <= i <= n && i !in l.away)
    || (0 !in l.away && exists i :: 1 <= i <= n && i in l.away)
  }

  const START := Layout({}, false)

  function FirstAway(k: nat): (r: set<nat>)
    ensures forall i: nat :: i in r <==> i < k
  {
    if k == 0 then {} else FirstAway(k - 1) + {k - 1}
  }

  // ---- What a script does, on layouts ----------------------------------------------------

  /** How many of the first k forward renames took effect before one raised. */
  function Moved(s: Script, k: nat): nat {
    if k == 0 then 0
    else if !Clean(s, k - 1) then Moved(s, k - 1)
    else if Effective(s.move(k - 1)) then k else k - 1
  }

  /** The first k forward renames all returned. */
  predicate Clean(s: Script, k: nat) {
    forall i: nat :: i < k ==> s.move(i).Fine?
  }

  predicate Placed(n: nat, s: Script) {
    Clean(s, n + 1) && s.syncForensic.Fine? && Effective(s.replace)
  }

  predicate Succeeds(n: nat, s: Script) {
    Clean(s, n + 1) && s.syncForensic.Fine? && s.replace.Fine? && s.verify.Fine?
  }

  /** Where the forward half leaves things. */
  function ForwardEnd(n: nat, s: Script): Layout {
    Layout(FirstAway(Moved(s, n + 1)), Placed(n, s))
  }

  function Preserved(l: Layout, s: Script): Layout {
    if l.placed && s.stageRecognised && Effective(s.preserve) then l.(placed := false) else l
  }

  /** One step of the rollback loop. */
  function BackStep(l: Layout, s: Script, i: nat): Layout {
    if i !in l.away || (i == 0 && l.placed) || !Effective(s.back(i)) then l else l.(away := l.away - {i})
  }

  /** The rollback loop from index i down to 0: the layout after each step. */
  function BackWalk(l: Layout, s: Script, i: nat): seq<Layout>
    decreases i
  {
    var next := BackStep(l, s, i);
    if i == 0 then [next] else [next] + BackWalk(next, s, i - 1)
  }

  function ForwardInstants(n: nat, s: Script): seq<Layout> {
    seq(Moved(s, n + 1) + 1, k requires 0 <= k => Layout(FirstAway(k), false))
    + (if Placed(n, s) then [ForwardEnd(n, s)] else [])
  }

  predicate RollsBack(n: nat, s: Script) {
    !Succeeds(n, s) && Moved(s, n + 1) > 0
  }

  function RollbackInstants(n: nat, s: Script): seq<Layout> {
    [Preserved(ForwardEnd(n, s), s)] + BackWalk(Preserved(ForwardEnd(n, s), s), s, n)
  }

  /** Every instant a crash could reveal. */
  function Instants(n: nat, s: Script): seq<Layout> {
    ForwardInstants(n, s) + (if RollsBack(n, s) then RollbackInstants(n, s) else [])
  }

  // ---- Exactly when an instant is unsafe -------------------------------------------------

  /** The staged file cannot be moved off the canonical path and a sidecar comes back beside it, or
      the database comes back while a moved sidecar does not. */
  ghost predicate Exposed(n: nat, s: Script) {
    && RollsBack(n, s)
    && if Placed(n, s) && !(s.stageRecognised && Effective(s.preserve))
       then exists i: nat :: 1 <= i <= n && Effective(s.back(i))
       else Effective(s.back(0)) && exists i: nat :: 1 <= i < Moved(s, n + 1) && !Effective(s.back(i))
  }

  lemma {:induction false} MovedBound(s: Script, k: nat)
    ensures Moved(s, k) <= k && (Clean(s, k) ==> Moved(s, k) == k)
  {
    if k > 0 { MovedBound(s, k - 1); }
  }

  lemma ForwardIsSafe(n: nat, s: Script, k: nat)
    requires k < |ForwardInstants(n, s)|
    ensures Sound(n, ForwardInstants(n, s)[k]) && !Unsafe(n, ForwardInstants(n, s)[k])
  {
    MovedBound(s, n + 1);
    var l := ForwardInstants(n, s)[k];
    if k > Moved(s, n + 1) {
      assert l == ForwardEnd(n, s) && Clean(s, n + 1);
      assert forall i :: 0 <= i <= n ==> i in l.away;
    } else {
      assert l == Layout(FirstAway(k), false);
      if 0 !in l.away { assert k == 0; }
    }
  }

  /** What is still away after the loop has handled the indices from `high` down to `low`. */
  ghost function Remaining(l: Layout, s: Script, high: nat, low: nat): set<nat> {
    set j | j in l.away && !(low <= j <= high && Effective(s.back(j)) && !(j == 0 && l.placed))
  }

  lemma {:induction false} BackWalkAt(l: Layout, s: Script, high: nat, k: nat)
    requires k <= high
    ensures |BackWalk(l, s, high)| == high + 1
    ensures BackWalk(l, s, high)[k] == Layout(Remaining(l, s, high, high - k), l.placed)
    decreases high
  {
    var next := BackStep(l, s, high);
    assert next.away == Remaining(l, s, high, high);
    if high > 0 {
      BackWalkAt(next, s, high - 1, if k > 0 then k - 1 else 0);
      if k > 0 {
        assert Remaining(next, s, high - 1, high - k) == Remaining(l, s, high, high - k);
      }
    }
  }

  ghost predicate AnyUnsafe(n: nat, instants: seq<Layout>) {
    exists k :: 0 <= k < |instants| && Unsafe(n, instants[k])
  }

  /** The k-th instant of the rollback, in closed form. */
  ghost function BackInstant(n: nat, s: Script, k: nat): Layout
    requires k <= n + 1
  {
    var l := Preserved(ForwardEnd(n, s), s);
    Layout(Remaining(l, s, n, n + 1 - k), l.placed)
  }

  lemma RollbackInstantAt(n: nat, s: Script, k: nat)
    requires k <= n + 1
    ensures |RollbackInstants(n, s)| == n + 2 && RollbackInstants(n, s)[k] == BackInstant(n, s, k)
  {
    var l := Preserved(ForwardEnd(n, s), s);
    MovedBound(s, n + 1);
    BackWalkAt(l, s, n, if k > 0 then k - 1 else 0);
    if k == 0 { assert Remaining(l, s, n, n + 1) == l.away; }
  }

  lemma UnsafeSomewhere(n: nat, s: Script)
    ensures AnyUnsafe(n, RollbackInstants(n, s)) <==> exists k: nat :: k <= n + 1 && Unsafe(n, BackInstant(n, s, k))
  {
    hide Unsafe, BackInstant, RollbackInstants;
    RollbackInstantAt(n, s, 0);
    if AnyUnsafe(n, RollbackInstants(n, s)) {
      var k :| 0 <= k < |RollbackInstants(n, s)| && Unsafe(n, RollbackInstants(n, s)[k]);
      RollbackInstantAt(n, s, k);
    }
    if k: nat :| k <= n + 1 && Unsafe(n, BackInstant(n, s, k)) {
      RollbackInstantAt(n, s, k);
    }
  }

  /** The staged file stays canonical: every sidecar that comes back is beside it. */
  lemma StuckStage(n: nat, s: Script)
    requires RollsBack(n, s) && Preserved(ForwardEnd(n, s), s).placed
    ensures AnyUnsafe(n, RollbackInstants(n, s)) <==> exists i: nat :: 1 <= i <= n && Effective(s.back(i))
  {
    hide RollbackInstants, AnyUnsafe;
    UnsafeSomewhere(n, s);
    MovedBound(s, n + 1);
    var l := ForwardEnd(n, s);
    if i: nat :| 1 <= i <= n && Effective(s.back(i)) {
      assert i !in BackInstant(n, s, n + 1).away;
      assert Unsafe(n, BackInstant(n, s, n + 1));
    }
    if k: nat :| k <= n + 1 && Unsafe(n, BackInstant(n, s, k)) {
      assert 0 in l.away && 0 in BackInstant(n, s, k).away;
      var i :| 1 <= i <= n && i !in BackInstant(n, s, k).away;
      assert i in l.away && Effective(s.back(i));
    }
  }

  /** The canonical path is free: the database comes back last. */
  lemma FreeCanonical(n: nat, s: Script)
    requires RollsBack(n, s) && !Preserved(ForwardEnd(n, s), s).placed
    ensures AnyUnsafe(n, RollbackInstants(n, s))
            <==> Effective(s.back(0)) && exists i: nat :: 1 <= i < Moved(s, n + 1) && !Effective(s.back(i))
  {
    hide RollbackInstants, AnyUnsafe;
    UnsafeSomewhere(n, s);
    MovedBound(s, n + 1);
    var l := Preserved(ForwardEnd(n, s), s);
    assert 0 in l.away;
    if Effective(s.back(0)) {
      if i: nat :| 1 <= i < Moved(s, n + 1) && !Effective(s.back(i)) {
        assert i in BackInstant(n, s, n + 1).away && 0 !in BackInstant(n, s, n + 1).away;
        assert Unsafe(n, BackInstant(n, s, n + 1));
      }
    }
    if k: nat :| k <= n + 1 && Unsafe(n, BackInstant(n, s, k)) {
      assert k == n + 1 && Effective(s.back(0));
      var i :| 1 <= i <= n && i in BackInstant(n, s, k).away;
      assert i < Moved(s, n + 1) && !Effective(s.back(i));
    }
  }

  /** A crash can reveal an unsafe pair of database and sidecars exactly when the rollback is exposed. */
  lemma UnsafeInstantIff(n: nat, s: Script)
    ensures AnyUnsafe(n, Instants(n, s)) <==> Exposed(n, s)
  {
    hide ForwardInstants, RollbackInstants, Unsafe;
    var f := ForwardInstants(n, s);
    forall k | 0 <= k < |f| ensures !Unsafe(n, f[k]) { ForwardIsSafe(n, s, k); }
    if RollsBack(n, s) {
      var r := RollbackInstants(n, s);
      assert Instants(n, s) == f + r;
      if AnyUnsafe(n, r) {
        var k :| 0 <= k < |r| && Unsafe(n, r[k]);
        assert Instants(n, s)[|f| + k] == r[k];
      }
      if AnyUnsafe(n, f + r) {
        var k :| 0 <= k < |f + r| && Unsafe(n, (f + r)[k]);
        assert k >= |f| && (f + r)[k] == r[k - |f|];
      }
      if Preserved(ForwardEnd(n, s), s).placed { StuckStage(n, s); } else { FreeCanonical(n, s); }
    }
  }

  /** Where the call leaves the files. */
  ghost function End(n: nat, s: Script): Layout {
    if RollsBack(n, s) then Layout(Remaining(Preserved(ForwardEnd(n, s), s), s, n, 0), Preserved(ForwardEnd(n, s), s).placed)
    else ForwardEnd(n, s)
  }

  /** The rollback restores everything exactly when its own renames take effect. */
  lemma RestoredIff(n: nat, s: Script)
    requires !Succeeds(n, s)
    ensures End(n, s) == START
            <==> (RollsBack(n, s) ==>
                    && (Placed(n, s) ==> s.stageRecognised && Effective(s.preserve))
                    && forall i: nat :: i < Moved(s, n + 1) ==> Effective(s.back(i)))
  {
    MovedBound(s, n + 1);
    if RollsBack(n, s) {
      var l := Preserved(ForwardEnd(n, s), s);
      assert 0 in l.away;
      if i: nat :| i < Moved(s, n + 1) && !Effective(s.back(i)) {
        assert i in l.away && i in End(n, s).away;
      }
    }
  }

  /** A success puts every original aside and the staged database in place. */
  lemma SuccessPlaces(n: nat, s: Script)
    requires Succeeds(n, s)
    ensures End(n, s) == Layout(FirstAway(n + 1), true)
  {
    MovedBound(s, n + 1);
  }

  /** Every call of the rollback returned normally, and what it restored reads back as recorded. */
  ghost predicate UndoneCleanly(l: Layout, s: Script) {
    && (l.placed ==> s.stageRecognised && s.preserve.Fine?) && (forall i: nat :: i in l.away ==> s.back(i).Fine?)
    && s.syncBack.Fine? && s.reread
  }

  lemma CleanUndo(n: nat, l: Layout, s: Script)
    requires Sound(n, l) && 0 in l.away
    ensures var p := Preserved(l, s);
            UndoneCleanly(l, s) <==>
            && (l.placed ==> s.stageRecognised && s.preserve.Fine?)
            && (forall j: nat :: j <= n && j in p.away && !(j == 0 && p.placed) ==> s.back(j).Fine?)
            && s.syncBack.Fine? && Layout(Remaining(p, s, n, 0), p.placed) == START && s.reread
  {
    var p := Preserved(l, s);
    if UndoneCleanly(l, s) { assert Remaining(p, s, n, 0) == {}; }
  }

  // ---- The renames -----------------------------------------------------------------------

  datatype RollbackError =
    | CanonicalAmbiguous | StageCollision | StagePreserveFailed | SourceMissing(i: nat) | MoveFailed(i: nat)
    | FsyncFailed | DatabaseInvalid | SidecarsInvalid

  datatype Result = Done | PlacementFailed | RollbackFailed(errors: seq<RollbackError>)

  class FileSystem {
    var files: Files
    var overwrote: bool
    var instants: seq<Files>

    constructor (files: Files)
      ensures this.files == files && !overwrote && instants == [files]
    {
      this.files, overwrote, instants := files, false, [files];
    }

    /** `os.rename`: an existing destination would be silently replaced. */
    method Rename(src: Path, dst: Path, fault: Fault) returns (raised: bool)
      requires src != dst
      modifies this
      ensures src in old(files) && Effective(fault) ==>
        && files == (old(files) - {src})[dst := old(files)[src]]
        && overwrote == (old(overwrote) || dst in old(files)) && instants == old(instants) + [files]
      ensures !(src in old(files) && Effective(fault)) ==> files == old(files) && overwrote == old(overwrote) && instants == old(instants)
      ensures raised <==> src !in old(files) || !fault.Fine?
    {
      if src !in files {
        return true;
      }
      if fault != RaisedBefore {
        overwrote := overwrote || dst in files;
        files := (files - {src})[dst := files[src]];
        instants := instants + [files];
      }
      raised := fault != Fine;
    }

    /** Undo, from what the filesystem shows: first free the canonical path, then bring the sidecars
        back and the database last.  No error means everything is back. */
    method RollbackPlacement(n: nat, s: Script, ghost l: Layout) returns (errors: seq<RollbackError>)
      requires Shows(n, files, l) && 0 in l.away && !overwrote
      modifies this
      ensures !overwrote && old(instants) <= instants
      ensures Shows(n, files, Layout(Remaining(Preserved(l, s), s, n, 0), Preserved(l, s).placed))
      ensures forall k :: old(|instants|) <= k < |instants| ==>
        Listed(n, instants[k], [Preserved(l, s)] + BackWalk(Preserved(l, s), s, n))
      ensures errors == [] ==> Shows(n, files, START)
      ensures errors == [] <==> UndoneCleanly(l, s)
    {
      hide Shows, BackWalk, UndoneCleanly;
      ShowsSound(n, files, l);
      ghost var p := Preserved(l, s);
      ghost var layouts := [p] + BackWalk(p, s, n);
      assert layouts[0] == p;
      errors := FreeDatabase(n, s, l);
      assert Remaining(p, s, n, n + 1) == p.away by { assert forall j :: j in p.away ==> j <= n by { assert Sound(n, l) by { ShowsSound(n, files, p); } } }
      var i: int := n;
      while i >= 0
        invariant -1 <= i <= n && !overwrote && old(instants) <= instants
        invariant Shows(n, files, Layout(Remaining(p, s, n, i + 1), p.placed))
        invariant forall k :: old(|instants|) <= k < |instants| ==> Listed(n, instants[k], layouts)
        invariant errors == [] <==> (l.placed ==> s.stageRecognised && s.preserve.Fine?)
                                    && forall j: nat :: i < j <= n && j in p.away && !(j == 0 && p.placed) ==> s.back(j).Fine?
      {
        ghost var before := Layout(Remaining(p, s, n, i + 1), p.placed);
        ghost var count := |instants|;
        var moveErrors := BringBack(n, s, i, before);
        errors := errors + moveErrors;
        BackWalkAt(p, s, n, n - i);
        assert BackStep(before, s, i).away == Remaining(p, s, n, i);
        assert layouts[1 + n - i] == Layout(Remaining(p, s, n, i), p.placed);
        forall k | old(|instants|) <= k < |instants| ensures Listed(n, instants[k], layouts) {
          if k >= count { assert Shows(n, instants[k], layouts[1 + n - i]); }
        }
        i := i - 1;
      }
      if s.syncBack != Fine {
        errors := errors + [FsyncFailed];
      }
      CleanUndo(n, l, s);
      var checkErrors := CheckRestored(n, s, Layout(Remaining(p, s, n, 0), p.placed));
      errors := errors + checkErrors;
    }

    /** Move a staged file that reached the canonical path back to the stage path. */
    method FreeDatabase(n: nat, s: Script, ghost l: Layout) returns (errors: seq<RollbackError>)
      requires Shows(n, files, l) && 0 in l.away && !overwrote
      modifies this
      ensures !overwrote && Shows(n, files, Preserved(l, s))
      ensures instants == old(instants) || instants == old(instants) + [files]
      ensures errors == [] <==> (l.placed ==> s.stageRecognised && s.preserve.Fine?)
    {
      errors := [];
      if Canon(0) in files && files[Canon(0)] != Original(0) {
        if !s.stageRecognised {
          errors := [CanonicalAmbiguous];
        } else if StagePath in files {
          errors := [StageCollision];
        } else {
          var raised := Rename(Canon(0), StagePath, s.preserve);
          if raised { errors := [StagePreserveFailed]; }
        }
      }
    }

    /** One step of the rollback loop. */
    method BringBack(n: nat, s: Script, i: nat, ghost l: Layout) returns (errors: seq<RollbackError>)
      requires Shows(n, files, l) && i <= n && !overwrote
      modifies this
      ensures !overwrote && Shows(n, files, BackStep(l, s, i))
      ensures instants == old(instants) || instants == old(instants) + [files]
      ensures errors == [] <==> (i in l.away && !(i == 0 && l.placed) ==> s.back(i).Fine?)
    {
      errors := [];
      if Canon(i) in files {
        return;
      }
      if Forensic(i) !in files {
        return [SourceMissing(i)];
      }
      var raised := Rename(Forensic(i), Canon(i), s.back(i));
      if raised { errors := [MoveFailed(i)]; }
    }

    /** The final comparison with what preflight recorded. */
    method CheckRestored(n: nat, s: Script, ghost l: Layout) returns (errors: seq<RollbackError>)
      requires Shows(n, files, l)
      ensures errors == [] <==> l == START && s.reread
    {
      errors := [];
      if !(Canon(0) in files && files[Canon(0)] == Original(0) && s.reread) {
        errors := [DatabaseInvalid];
      }
      var i, complete := 1, true;
      while i <= n
        invariant 1 <= i <= n + 1
        invariant complete <==> forall j :: 1 <= j < i ==> Canon(j) in files
      {
        if Canon(i) !in files { complete := false; }
        i := i + 1;
      }
      if !complete || !s.reread {
        errors := errors + [SidecarsInvalid];
      }
      if errors == [] { NothingAway(n, files, l); }
    }

    /** Move the originals aside, put the staged database in place, verify; on any exception undo. */
    method PlaceRestore(n: nat, s: Script) returns (r: Result)
      requires Shows(n, files, START) && !overwrote && instants == [files]
      modifies this
      ensures !overwrote && Shows(n, files, End(n, s))
      ensures forall k :: 0 <= k < |instants| ==> Listed(n, instants[k], Instants(n, s))
      ensures r.Done? <==> Succeeds(n, s)
      ensures r.PlacementFailed? ==> Shows(n, files, START)
      ensures r.PlacementFailed? <==> !Succeeds(n, s) && (RollsBack(n, s) ==> UndoneCleanly(ForwardEnd(n, s), s))
    {
      hide Shows;
      var failed := Forward(n, s);
      ForwardListed(n, s, instants);
      if !failed {
        return Done;
      }
      var started := false;
      var i := 0;
      ghost var l := ForwardEnd(n, s);
      while i <= n
        invariant 0 <= i <= n + 1
        invariant started <==> exists j :: 0 <= j < i && (Forensic(j) in files || Canon(j) !in files)
      {
        if Forensic(i) in files || Canon(i) !in files { started := true; }
        i := i + 1;
      }
      MovedBound(s, n + 1);
      MutationStarted(n, files, l, Moved(s, n + 1));
      if !started {
        return PlacementFailed;
      }
      ghost var count := |instants|;
      var errors := RollbackPlacement(n, s, l);
      RollbackListed(n, s, instants, count);
      r := if errors == [] then PlacementFailed else RollbackFailed(errors);
    }

    /** The forward half, up to the first exception. */
    method Forward(n: nat, s: Script) returns (failed: bool)
      requires Shows(n, files, START) && !overwrote && instants == [files]
      modifies this
      ensures !overwrote && Shows(n, files, ForwardEnd(n, s))
      ensures forall k :: 0 <= k < |instants| ==> Listed(n, instants[k], ForwardInstants(n, s))
      ensures failed <==> !Succeeds(n, s)
    {
      hide Shows, ForwardInstants;
      assert FirstAway(0) == {};
      InstantMoved(n, s, 0);
      var k := 0;
      while k <= n
        invariant 0 <= k <= n + 1 && !overwrote && Clean(s, k)
        invariant Shows(n, files, Layout(FirstAway(k), false))
        invariant forall j :: 0 <= j < |instants| ==> Listed(n, instants[j], ForwardInstants(n, s))
      {
        var raised := MoveAside(n, s, k);
        MovedFrom(s, k, n + 1);
        if Effective(s.move(k)) { InstantMoved(n, s, k + 1); }
        if raised {
          return true;
        }
        k := k + 1;
      }
      MovedBound(s, n + 1);
      if s.syncForensic != Fine {
        return true;
      }
      var raised := PutInPlace(n, s);
      if Effective(s.replace) { InstantPlaced(n, s); }
      failed := raised || s.verify != Fine;
    }

    method MoveAside(n: nat, s: Script, k: nat) returns (raised: bool)
      requires k <= n && !overwrote && Shows(n, files, Layout(FirstAway(k), false))
      modifies this
      ensures !overwrote && raised == !s.move(k).Fine?
      ensures Shows(n, files, Layout(FirstAway(if Effective(s.move(k)) then k + 1 else k), false))
      ensures instants == (if Effective(s.move(k)) then old(instants) + [files] else old(instants))
    {
      raised := Rename(Canon(k), Forensic(k), s.move(k));
    }

    method PutInPlace(n: nat, s: Script) returns (raised: bool)
      requires !overwrote && Shows(n, files, Layout(FirstAway(n + 1), false))
      modifies this
      ensures !overwrote && raised == !s.replace.Fine?
      ensures Shows(n, files, Layout(FirstAway(n + 1), Effective(s.replace)))
      ensures instants == (if Effective(s.replace) then old(instants) + [files] else old(instants))
    {
      raised := Rename(StagePath, Canon(0), s.replace);
    }
  }

  lemma NothingAway(n: nat, fs: Files, l: Layout)
    requires Shows(n, fs, l) && Canon(0) in fs && fs[Canon(0)] == Original(0)
    requires forall j :: 1 <= j <= n ==> Canon(j) in fs
    ensures l == START
  {
    forall j: nat | j <= n ensures j !in l.away { assert At(n, l, Canon(j)).Some?; }
    assert l.away == {};
  }

  ghost predicate Listed(n: nat, fs: Files, layouts: seq<Layout>) {
    exists j :: 0 <= j < |layouts| && Shows(n, fs, layouts[j])
  }

  lemma ShowsSound(n: nat, fs: Files, l: Layout)
    requires Shows(n, fs, l)
    ensures Sound(n, l)
  {
  }

  lemma {:induction false} MovedFrom(s: Script, k: nat, m: nat)
    requires Clean(s, k) && k < m
    ensures Moved(s, m) >= k && (Effective(s.move(k)) ==> Moved(s, m) >= k + 1)
    ensures !s.move(k).Fine? ==> Moved(s, m) == (if Effective(s.move(k)) then k + 1 else k) && !Clean(s, m)
  {
    if m == k + 1 {
      MovedBound(s, k);
    } else {
      MovedFrom(s, k, m - 1);
    }
  }

  lemma InstantMoved(n: nat, s: Script, k: nat)
    requires k <= Moved(s, n + 1)
    ensures exists j :: 0 <= j < |ForwardInstants(n, s)| && ForwardInstants(n, s)[j] == Layout(FirstAway(k), false)
  {
    assert ForwardInstants(n, s)[k] == Layout(FirstAway(k), false);
  }

  lemma InstantPlaced(n: nat, s: Script)
    requires Placed(n, s)
    ensures exists j :: 0 <= j < |ForwardInstants(n, s)| && ForwardInstants(n, s)[j] == Layout(FirstAway(n + 1), true)
  {
    MovedBound(s, n + 1);
    assert ForwardInstants(n, s)[n + 2] == Layout(FirstAway(n + 1), true);
  }

  lemma ForwardListed(n: nat, s: Script, instants: seq<Files>)
    requires forall k :: 0 <= k < |instants| ==> Listed(n, instants[k], ForwardInstants(n, s))
    ensures forall k :: 0 <= k < |instants| ==> Listed(n, instants[k], Instants(n, s))
  {
    hide ForwardInstants, Shows, RollbackInstants;
    forall k | 0 <= k < |instants| ensures Listed(n, instants[k], Instants(n, s)) {
      var j :| 0 <= j < |ForwardInstants(n, s)| && Shows(n, instants[k], ForwardInstants(n, s)[j]);
      assert Instants(n, s)[j] == ForwardInstants(n, s)[j];
    }
  }

  lemma RollbackListed(n: nat, s: Script, instants: seq<Files>, count: nat)
    requires RollsBack(n, s)
    requires forall k :: 0 <= k < |instants| && k < count ==> Listed(n, instants[k], Instants(n, s))
    requires forall k :: count <= k < |instants| ==> Listed(n, instants[k], RollbackInstants(n, s))
    ensures forall k :: 0 <= k < |instants| ==> Listed(n, instants[k], Instants(n, s))
  {
    hide ForwardInstants, Shows, RollbackInstants;
    forall k | count <= k < |instants| ensures Listed(n, instants[k], Instants(n, s)) {
      var j :| 0 <= j < |RollbackInstants(n, s)| && Shows(n, instants[k], RollbackInstants(n, s)[j]);
      assert Instants(n, s)[|ForwardInstants(n, s)| + j] == RollbackInstants(n, s)[j];
    }
  }

  /** Something moved exactly when a source is missing or a forensic copy exists. */
  lemma MutationStarted(n: nat, fs: Files, l: Layout, moved: nat)
    requires Shows(n, fs, l) && l.away == FirstAway(moved) && moved <= n + 1
    ensures moved > 0 <==> exists j :: 0 <= j < n + 1 && (Forensic(j) in fs || Canon(j) !in fs)
    ensures moved == 0 ==> l == START
  {
    if moved > 0 {
      assert 0 in l.away;
      assert At(n, l, Forensic(0)).Some?;
      assert Forensic(0) in fs;
    } else {
      forall j: nat | j < n + 1 ensures Forensic(j) !in fs && Canon(j) in fs {
        assert At(n, l, Canon(j)).Some?;
      }
    }
  }

  // ---- In terms of files -----------------------------------------------------------------

  ghost predicate UnsafeFiles(n: nat, fs: Files) {
    || (Canon(0) in fs && fs[Canon(0)] == Staged && exists i :: 1 <= i <= n && Canon(i) in fs)
    || (Canon(0) in fs && fs[Canon(0)] == Original(0) && exists i :: 1 <= i <= n && Canon(i) !in fs)
  }

  lemma UnsafeShows(n: nat, fs: Files, l: Layout)
    requires Shows(n, fs, l)
    ensures UnsafeFiles(n, fs) <==> Unsafe(n, l)
  {
    assert forall i: nat :: 1 <= i <= n ==> (Canon(i) in fs <==> i !in l.away);
    assert Canon(0) in fs <==> l.placed || 0 !in l.away;
  }

  /** Every file sits at exactly one path of any layout. */
  lemma OnePathEach(n: nat, fs: Files, l: Layout, f: File)
    requires Shows(n, fs, l) && (f.Original? ==> f.i <= n)
    ensures exists p :: p in fs && fs[p] == f && forall q :: q in fs && fs[q] == f ==> q == p
  {
    var p := if f.Staged? then (if l.placed then Canon(0) else StagePath)
             else if f.i in l.away then Forensic(f.i) else Canon(f.i);
    assert At(n, l, p) == Some(f);
    forall q | q in fs && fs[q] == f ensures q == p {
      assert At(n, l, q) == Some(f);
    }
  }

  /** Unless the rollback is exposed, no recorded instant of a placement is unsafe. */
  lemma PlacementIsSafe(n: nat, s: Script, instants: seq<Files>)
    requires forall k :: 0 <= k < |instants| ==> Listed(n, instants[k], Instants(n, s))
    requires !Exposed(n, s)
    ensures forall k :: 0 <= k < |instants| ==> !UnsafeFiles(n, instants[k])
  {
    hide Shows, Instants, UnsafeFiles, Unsafe, Exposed;
    UnsafeInstantIff(n, s);
    forall k | 0 <= k < |instants| ensures !UnsafeFiles(n, instants[k]) {
      var j :| 0 <= j < |Instants(n, s)| && Shows(n, instants[k], Instants(n, s)[j]);
      UnsafeShows(n, instants[k], Instants(n, s)[j]);
    }
  }

  // ---- Two ways to be exposed ------------------------------------------------------------

  const QUIET := Script((i: nat) => Fine, Fine, Fine, Fine, true, Fine, (i: nat) => Fine, Fine, true)

  /** Verification fails, the staged database cannot be moved back, and its old write-ahead log is
      returned beside it. */
  lemma StuckStageExample()
    ensures var s := QUIET.(verify := RaisedBefore, preserve := RaisedBefore);
            Exposed(1, s) && End(1, s) == Layout({0}, true)
  {
    var s := QUIET.(verify := RaisedBefore, preserve := RaisedBefore);
    MovedBound(s, 2);
    assert Effective(s.back(1));
    assert End(1, s).away == {0};
  }

  /** Verification fails, the write-ahead log cannot be returned, and the database is returned
      without it. */
  lemma MissingSidecarExample()
    ensures var s := QUIET.(verify := RaisedBefore, back := (i: nat) => if i == 1 then RaisedBefore else Fine);
            Exposed(1, s) && End(1, s) == Layout({1}, false)
  {
    var s := QUIET.(verify := RaisedBefore, back := (i: nat) => if i == 1 then RaisedBefore else Fine);
    MovedBound(s, 2);
    assert !Effective(s.back(1)) && Effective(s.back(0));
    assert End(1, s).away == {1};
  }
}
