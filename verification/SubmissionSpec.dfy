/** The supervisor's submission protocol as values: the append-only coordination events that
    concern manager submissions, the wake and watch rows with their markers, one transaction per
    function, and a machine that runs passes with crashes and outside writes between any two
    steps.  Event keys are canonical JSON envelopes in the store; here they are the enveloped values. */
module SubmissionSpec {
  import opened Prelude

  datatype Kind = Message | Watch

  datatype RowState = Inflight | Active | Hold | OtherState

  datatype Marker = Submitting | Pending | AmbiguousMark | Failure(code: string)

  datatype Row = Row(
    state: RowState, endpoint: string, attempts: int, progress: string, process: Option<int>,
    error: Option<Marker>, updated: int, lastAttempt: int, nextWake: int)

  /** The unit of work a target belongs to. */
  datatype Lineage = Lineage(repository: string, issue: int, generation: int, lease: string)

  datatype Fence = Fence(
    role: string, endpoint: string, kind: Kind, key: string, lineage: Option<Lineage>, progress: string, epoch: int)

  datatype IntentKey = IntentKey(entity: string, reservation: Row, fence: Fence, planner: Option<string>, at: int)

  datatype ReceiptKey = ReceiptKey(intent: IntentKey, manager: string)

  datatype Event =
    | Intent(key: IntentKey)
    | Submitted(receipt: ReceiptKey, at: int)
    | Abandoned(key: IntentKey)
    | Ambiguous(key: IntentKey, at: int)
    | Accepted(receipt: ReceiptKey)
    | Rejected(receipt: ReceiptKey)
    | Expired(receipt: ReceiptKey)
    | Recovered(key: IntentKey)
    | TerminalResolved(key: IntentKey)

  type Log = seq<Event>

  datatype Store = Store(events: Log, rows: map<(Kind, string), Row>)

  const MAX_ATTEMPTS := 3

  // ---- Queries on the log ----------------------------------------------------------------

  datatype Query =
    | IntentRows(key: IntentKey)
    | FirstRows(key: IntentKey)
    | SubmittedRows(receipt: ReceiptKey)
    | TerminalRows(receipt: ReceiptKey)
    | ResolutionRows(key: IntentKey)
    | ClosingRows(key: IntentKey)

  predicate Matches(e: Event, q: Query) {
    match q
    case IntentRows(k) => e == Intent(k)
    case FirstRows(k) =>
      (e.Submitted? && e.receipt.intent == k) || (e.Abandoned? && e.key == k) || (e.Ambiguous? && e.key == k)
    case SubmittedRows(r) => e.Submitted? && e.receipt == r
    case TerminalRows(r) => (e.Accepted? || e.Rejected? || e.Expired?) && e.receipt == r
    case ResolutionRows(k) => (e.Recovered? || e.TerminalResolved?) && e.key == k
    case ClosingRows(k) =>
      || (e.Abandoned? && e.key == k)
      || ((e.Accepted? || e.Rejected? || e.Expired?) && e.receipt.intent == k)
      || ((e.Recovered? || e.TerminalResolved?) && e.key == k)
  }

  /** `SELECT … ORDER BY id` */
  function Rows(log: Log, q: Query): (r: Log)
    ensures forall i :: 0 <= i < |r| ==> Matches(r[i], q)
  {
    if log == [] then []
    else
      var last := log[|log|-1];
      Rows(log[..|log|-1], q) + (if Matches(last, q) then [last] else [])
  }

  /** As the scheduler sees it: no first disposition, or one that is still open. */
  predicate Unresolved(log: Log, k: IntentKey) {
    var first := Rows(log, FirstRows(k));
    || first == []
    || (first[0].Submitted? && Rows(log, TerminalRows(first[0].receipt)) == [])
    || (first[0].Ambiguous? && Rows(log, ResolutionRows(k)) == [])
  }

  // ---- Transactions ----------------------------------------------------------------------

  datatype Reply =
    | Done
    | Unchanged
    | Clear
    | Failed(code: string)

  const DRIFT := "ROLE_EXECUTOR_SUBMISSION_TARGET_DRIFT"
  const CONFLICT := "ROLE_EXECUTOR_SUBMISSION_DISPOSITION_CONFLICT"
  const INTENT_INVALID := "ROLE_EXECUTOR_MANAGER_SUBMISSION_INTENT_INVALID"
  const SUBMISSION_INVALID := "ROLE_EXECUTOR_MANAGER_SUBMISSION_EVENT_INVALID"
  const REGISTRY := "EXECUTOR_REGISTRY_REFUSED"
  const ACK_INVALID := "ROLE_EXECUTOR_CHILD_ACK_DISPOSITION_INVALID"

  function Where(k: IntentKey): (Kind, string) {
    (k.fence.kind, k.entity)
  }

  predicate EntityMatches(k: IntentKey) {
    if k.fence.kind.Watch? then k.entity == k.fence.key
    else k.entity == "message:" + k.fence.key + ":prepared" || k.entity == "message:" + k.fence.key + ":claimed"
  }

  function Put(s: Store, k: IntentKey, row: Row, e: Event): Store {
    Store(s.events + [e], s.rows[Where(k) := row])
  }

  /** The reservation with the marker the protocol put on it. */
  function Marked(k: IntentKey, marker: Marker, updated: int): Row {
    k.reservation.(process := None, error := Some(marker), updated := updated)
  }

  predicate HasRow(s: Store, k: IntentKey, row: Row) {
    Where(k) in s.rows && s.rows[Where(k)] == row
  }

  /** What another connection shows inside the transaction; None when the registry refuses. */
  datatype View = View(fence: Option<Fence>, planner: Option<string>)

  predicate Reservable(k: IntentKey) {
    && k.reservation.process.None? && k.reservation.error.None? && k.reservation.progress == k.fence.progress
    && k.reservation.endpoint == k.fence.endpoint
    && (if k.fence.kind.Message? then k.reservation.state.Inflight? else k.reservation.state.Active?)
  }

  function RecordIntent(s: Store, k: IntentKey, v: View): (Store, Reply) {
    if !EntityMatches(k) || k.reservation.attempts <= 0 || k.reservation.attempts > MAX_ATTEMPTS then (s, Failed(DRIFT))
    else if v.fence.None? then (s, Failed(REGISTRY))
    else if v.fence != Some(k.fence) || v.planner != k.planner || !HasRow(s, k, k.reservation) || !Reservable(k) then (s, Failed(DRIFT))
    else (Put(s, k, k.reservation.(updated := k.at, error := Some(Submitting)), Intent(k)), Done)
  }

  /** The last check before the external call. */
  function Revalidate(s: Store, k: IntentKey, v: View, contractCurrent: bool, now: int): (Store, Reply) {
    if |Rows(s.events, IntentRows(k))| != 1 then (s, Failed(INTENT_INVALID))
    else if Rows(s.events, FirstRows(k)) != [] then (s, Failed(CONFLICT))
    else if !HasRow(s, k, Marked(k, Submitting, k.at)) then (s, Failed(DRIFT))
    else if v.fence.None? then (s, Failed(REGISTRY))
    else if v.fence != Some(k.fence) || v.planner != k.planner || (k.fence.kind.Message? && !contractCurrent) then
      (Put(s, k, k.reservation.(process := None, error := None, updated := now), Abandoned(k)), Done)
    else (s, Clear)
  }

  /** The row after a manager that surely did not start anything. */
  function AbandonedRow(k: IntentKey, now: int, progress: string): Row {
    var r := k.reservation.(process := None, updated := now);
    if progress != k.reservation.progress then
      r.(attempts := 1, progress := progress, lastAttempt := now, error := Some(Failure("WAKE_LAUNCH_FAILED_AFTER_PROGRESS")))
    else if k.reservation.attempts >= MAX_ATTEMPTS then
      if k.fence.kind.Message? then r.(state := Hold, error := Some(Failure("WAKE_RETRY_EXHAUSTED")))
      else r.(state := Hold, error := Some(Failure("TERMINAL_WATCH_RETRY_EXHAUSTED")), nextWake := now + 60)
    else if k.fence.kind.Message? then r.(error := Some(Failure("WAKE_LAUNCH_FAILED")))
    else r.(error := Some(Failure("TERMINAL_WATCH_WAKE_FAILED")), nextWake := now + 60)
  }

  function RecordAbandoned(s: Store, k: IntentKey, now: int, progress: string): (Store, Reply) {
    if |Rows(s.events, IntentRows(k))| != 1 then (s, Failed(INTENT_INVALID))
    else
      var first := Rows(s.events, FirstRows(k));
      if first != [] then (s, if |first| == 1 && first[0].Abandoned? then Unchanged else Failed(CONFLICT))
      else if k.fence.kind.Watch? && progress != k.reservation.progress then (s, Unchanged)
      else if !HasRow(s, k, Marked(k, Submitting, k.at)) then (s, Failed(DRIFT))
      else (Put(s, k, AbandonedRow(k, now, progress), Abandoned(k)), Done)
  }

  function RecordAmbiguous(s: Store, k: IntentKey, now: int): (Store, Reply) {
    if |Rows(s.events, IntentRows(k))| != 1 then (s, Failed(INTENT_INVALID))
    else
      var first := Rows(s.events, FirstRows(k));
      if first != [] then (s, if |first| == 1 && first[0].Ambiguous? then Unchanged else Failed(CONFLICT))
      else if !HasRow(s, k, Marked(k, Submitting, k.at)) then (s, Failed(DRIFT))
      else (Put(s, k, Marked(k, AmbiguousMark, now), Ambiguous(k, now)), Done)
  }

  function RecordSubmission(s: Store, r: ReceiptKey, now: int): (Store, Reply) {
    if |Rows(s.events, IntentRows(r.intent))| != 1 then (s, Failed(INTENT_INVALID))
    else
      var first := Rows(s.events, FirstRows(r.intent));
      if first != [] then
        (s, if |first| == 1 && first[0].Submitted? && first[0].receipt == r then Unchanged else Failed(CONFLICT))
      else if !HasRow(s, r.intent, Marked(r.intent, Submitting, r.intent.at)) then (s, Failed(DRIFT))
      else (Put(s, r.intent, Marked(r.intent, Pending, now), Submitted(r, now)), Done)
  }

  datatype Observation = NotYet | Acknowledged(process: int) | ObservedExpired | ObservedRejected

  function Finalize(s: Store, r: ReceiptKey, now: int, seen: Observation, expire: bool, forced: bool): (Store, Reply) {
    var submitted := Rows(s.events, SubmittedRows(r));
    if |submitted| != 1 then (s, Failed(SUBMISSION_INVALID))
    else
      var closed := Rows(s.events, TerminalRows(r));
      if closed != [] then (s, if |closed| == 1 then Unchanged else Failed(ACK_INVALID))
      else if !forced && seen.NotYet? && !expire then (s, Unchanged)
      else if |Rows(s.events, IntentRows(r.intent))| != 1 then (s, Failed(INTENT_INVALID))
      else if !HasRow(s, r.intent, Marked(r.intent, Pending, submitted[0].at)) then (s, Failed(DRIFT))
      else
        var row := s.rows[Where(r.intent)];
        if !forced && seen.Acknowledged? then
          (Put(s, r.intent, row.(process := Some(seen.process), updated := now, error := None), Accepted(r)), Done)
        else if !forced && (seen.ObservedExpired? || seen.NotYet?) then
          (Put(s, r.intent, row.(state := Hold, process := None, updated := now,
                                 error := Some(Failure("ROLE_EXECUTOR_CHILD_ACK_EXPIRED"))), Expired(r)), Done)
        else
          (Put(s, r.intent, row.(state := Hold, process := None, updated := now,
                                 error := Some(Failure("ROLE_EXECUTOR_CHILD_ACK_REJECTED"))), Rejected(r)), Done)
  }

  /** `evidence`: the target itself is authoritatively finished; `recovered`: an authenticated child. */
  function ResolveAmbiguous(s: Store, k: IntentKey, now: int, evidence: bool, recovered: Option<int>): (Store, Reply) {
    var first := Rows(s.events, FirstRows(k));
    if |Rows(s.events, IntentRows(k))| != 1 then (s, Failed(INTENT_INVALID))
    else if |first| != 1 || !first[0].Ambiguous? then (s, Failed(CONFLICT))
    else
      var resolved := Rows(s.events, ResolutionRows(k));
      if resolved != [] then (s, if |resolved| == 1 then Unchanged else Failed(ACK_INVALID))
      else if evidence then (s.(events := s.events + [TerminalResolved(k)]), Done)
      else if Where(k) !in s.rows then (s, Failed(DRIFT))
      else
        var row, expected := s.rows[Where(k)], Marked(k, AmbiguousMark, first[0].at);
        if row != expected && row != expected.(state := Hold, updated := row.updated) then (s, Failed(DRIFT))
        else if recovered.None? then
          if row.state.Hold? then (s, Unchanged)
          else (s.(rows := s.rows[Where(k) := row.(state := Hold, process := None, updated := now)]), Unchanged)
        else
          (Put(s, k, row.(state := k.reservation.state, process := recovered, updated := now, error := None), Recovered(k)), Done)
  }

  // ---- Passes ----------------------------------------------------------------------------

  datatype Target = Target(role: string, kind: Kind, key: string)

  function TargetOf(k: IntentKey): Target {
    Target(k.fence.role, k.fence.kind, k.fence.key)
  }

  /** The watch table's UNIQUE(repository, issue_number, generation). */
  ghost predicate UniqueWatches(m: map<string, Lineage>) {
    forall a, b :: a in m && b in m && m[a].repository == m[b].repository && m[a].issue == m[b].issue && m[a].generation == m[b].generation
                   ==> a == b
  }

  type WatchTable = m: map<string, Lineage> | UniqueWatches(m) witness map[]

  /** The lineage columns: of admission messages by id, and of terminal watches by watch key.  They
      are fixed for the life of the target. */
  datatype Lineages = Lineages(messages: map<string, Lineage>, watches: WatchTable)

  function LineageOf(lin: Lineages, t: Target): Option<Lineage> {
    if t.kind.Message? then if t.key in lin.messages then Some(lin.messages[t.key]) else None
    else if t.key in lin.watches then Some(lin.watches[t.key]) else None
  }

  /** What the external manager call turned out to be. */
  datatype CallResult = NotSubmitted | Unclear | Receipt(manager: string)

  datatype Current =
    | Nothing
    | Reserved(target: Target)
    | Recorded(key: IntentKey)
    | Cleared(key: IntentKey)
    | Called(key: IntentKey, result: CallResult)
    | Waiting(receipt: ReceiptKey)

  /** The volatile part of one pass. */
  datatype Pass = Pass(
    watching: bool, submissionTargets: set<Target>, scheduledTargets: set<Target>,
    scheduledLineages: set<Lineage>, dueLineages: set<Lineage>, visited: set<string>, current: Current)

  datatype Phase = Idle | Reconciling | Scheduling(pass: Pass)

  /** One external call, with the length of the log when it was made and what the manager answered. */
  datatype Submit = Submit(key: IntentKey, at: nat, result: CallResult)

  datatype World = World(store: Store, phase: Phase, submits: seq<Submit>)

  datatype Step =
    | Crash
    | OutsideWrite(rows: map<(Kind, string), Row>)
    | StartPass
    | ReconcileUnbound(key: IntentKey, now: int)
    | ReconcileAmbiguous(key: IntentKey, now: int, evidence: bool, recovered: Option<int>)
    | ReconcilePending(receipt: ReceiptKey, now: int, seen: Observation, expire: bool)
    | Snapshot(due: set<Lineage>)
    | BeginWatches
    | Schedule(target: Target, launch: bool)
    | Record(key: IntentKey, view: View)
    | Revalidated(view: View, contractCurrent: bool, now: int)
    | CallSubmit(result: CallResult)
    | Bind(now: int, progress: string)
    | FinalizeCurrent(now: int, seen: Observation, forced: bool)
    | EndPass

  function UnresolvedTargets(log: Log): set<Target> {
    set i | 0 <= i < |log| && log[i].Intent? && Unresolved(log, log[i].key) :: TargetOf(log[i].key)
  }

  function UnresolvedLineages(log: Log): set<Lineage> {
    set i | 0 <= i < |log| && log[i].Intent? && Unresolved(log, log[i].key) && log[i].key.fence.lineage.Some?
      :: log[i].key.fence.lineage.value
  }

  predicate LineageBusy(lin: Lineages, p: Pass, t: Target) {
    var l := LineageOf(lin, t);
    if t.kind.Message? then l.Some? && (l.value in p.scheduledLineages || l.value in p.dueLineages)
    else l.None? || l.value in p.scheduledLineages
  }

  /** One row of the message or watch loop, up to the reservation. */
  function Scheduled(lin: Lineages, p: Pass, t: Target, launch: bool): Pass {
    var q := if t.kind.Watch? then p.(visited := p.visited + {t.key}) else p;
    if LineageBusy(lin, p, t) || t in p.scheduledTargets || t in p.submissionTargets then q
    else
      var r := q.(scheduledTargets := q.scheduledTargets + {t});
      if !launch then r
      else
        var l := LineageOf(lin, t);
        r.(current := Reserved(t),
           scheduledLineages := if t.kind.Message? && l.Some? then r.scheduledLineages + {l.value} else r.scheduledLineages)
  }

  function WithCurrent(w: World, c: Current): World
    requires w.phase.Scheduling?
  {
    w.(phase := Scheduling(w.phase.pass.(current := c)))
  }

  /** The store after `tx`, or after the fallback that fences a failed one. */
  function OrHold(tx: (Store, Reply), k: IntentKey, now: int): Store {
    if tx.1.Failed? then RecordAmbiguous(tx.0, k, now).0 else tx.0
  }

  function Next(lin: Lineages, w: World, step: Step): World {
    match step
    case Crash => w.(phase := Idle)
    case OutsideWrite(rows) => w.(store := w.store.(rows := rows))
    case StartPass => if w.phase.Idle? then w.(phase := Reconciling) else w
    case ReconcileUnbound(k, now) =>
      if w.phase.Reconciling? then w.(store := RecordAmbiguous(w.store, k, now).0) else w
    case ReconcileAmbiguous(k, now, evidence, recovered) =>
      if w.phase.Reconciling? then w.(store := ResolveAmbiguous(w.store, k, now, evidence, recovered).0) else w
    case ReconcilePending(r, now, seen, expire) =>
      if w.phase.Reconciling? then w.(store := Finalize(w.store, r, now, seen, expire, false).0) else w
    case Snapshot(due) =>
      if !w.phase.Reconciling? then w
      else w.(phase := Scheduling(Pass(false, UnresolvedTargets(w.store.events), {},
                                       UnresolvedLineages(w.store.events), due, {}, Nothing)))
    case _ => if w.phase.Scheduling? then PassStep(lin, w, step) else w
  }

  function PassStep(lin: Lineages, w: World, step: Step): World
    requires w.phase.Scheduling?
  {
    var p := w.phase.pass;
    match step
    case BeginWatches => if p.current.Nothing? then w.(phase := Scheduling(p.(watching := true))) else w
    case Schedule(t, launch) =>
      if !p.current.Nothing? || t.kind.Watch? != p.watching || t.key in p.visited then w
      else w.(phase := Scheduling(Scheduled(lin, p, t, launch)))
    case Record(k, view) =>
      if !p.current.Reserved? || p.current.target != TargetOf(k) || k.fence.lineage != LineageOf(lin, TargetOf(k)) then w
      else
        var tx := RecordIntent(w.store, k, view);
        WithCurrent(w.(store := tx.0), if tx.1.Done? then Recorded(k) else Nothing)
    case Revalidated(view, contractCurrent, now) =>
      if !p.current.Recorded? then w
      else
        var tx := Revalidate(w.store, p.current.key, view, contractCurrent, now);
        WithCurrent(w.(store := OrHold(tx, p.current.key, now)), if tx.1.Clear? then Cleared(p.current.key) else Nothing)
    case CallSubmit(result) =>
      if !p.current.Cleared? then w
      else WithCurrent(w.(submits := w.submits + [Submit(p.current.key, |w.store.events|, result)]), Called(p.current.key, result))
    case Bind(now, progress) =>
      if !p.current.Called? then w
      else
        var k := p.current.key;
        (match p.current.result
         case NotSubmitted => WithCurrent(w.(store := OrHold(RecordAbandoned(w.store, k, now, progress), k, now)), Nothing)
         case Unclear => WithCurrent(w.(store := OrHold(RecordAmbiguous(w.store, k, now), k, now)), Nothing)
         case Receipt(m) =>
           var tx := RecordSubmission(w.store, ReceiptKey(k, m), now);
           WithCurrent(w.(store := OrHold(tx, k, now)), if tx.1.Failed? then Nothing else Waiting(ReceiptKey(k, m))))
    case FinalizeCurrent(now, seen, forced) =>
      if !p.current.Waiting? then w
      else WithCurrent(w.(store := Finalize(w.store, p.current.receipt, now, seen, false, forced).0), Nothing)
    case EndPass => w.(phase := Idle)
    case _ => w
  }

  function Run(lin: Lineages, w: World, steps: seq<Step>): World
    decreases |steps|
  {
    if steps == [] then w else Run(lin, Next(lin, w, steps[0]), steps[1..])
  }

  const START := World(Store([], map[]), Idle, [])
}
