/**
  The updater as a concurrent system: one job runner, one watchdog and any number of
  control requests, sharing a durable record, one host gate and one host. Each event is
  one atomic step of one thread, an instant passing, or a crash of the whole process.
 */
module System {
  import opened Wrappers
  import opened Text
  import opened Release
  import opened State
  import opened Changes

  /* ---------- The world ---------- */

  /** The image a Compose environment selects; a tag-only image has an empty digest. */
  datatype ImageRef = ImageRef(version: string, digest: string)

  /** A canonical image reference: a stable version, with or without a digest. */
  predicate KnownImage(image: ImageRef) {
    ParseVersion(image.version).Some? && (image.digest == "" || ImageDigest(image.digest))
  }

  /**
    What the updater changes on the host: the configured image and the committed backup.
    `image` is what the environment file says and `kept` holds every image a crash may leave
    in it: the last one synced and those written since then.
    `settled` says that no rotation is half done, so the slot survives a crash as it is.
    The counters, which the code does not have, record how often each job's backup was
    restored and how often its service was restarted since the restart was last accepted.
   */
  datatype Host = Host(
    image: ImageRef,
    kept: set<ImageRef>,
    slot: Option<BackupMetadata>,
    settled: bool,
    restores: map<string, nat>,
    restarts: map<string, nat>)

  /** The image is configured, and a crash leaves no other. */
  predicate Configured(h: Host, image: ImageRef) {
    h.image == image && h.kept == {image}
  }

  /** An image write replaced the environment file and synced its directory, or failed to sync it. */
  function Configure(h: Host, image: ImageRef, synced: bool): Host {
    h.(image := image, kept := if synced then {image} else h.kept + {image})
  }

  function CountOf(counter: map<string, nat>, id: string): nat {
    if id in counter then counter[id] else 0
  }

  function CountUp(counter: map<string, nat>, id: string): map<string, nat> {
    counter[id := CountOf(counter, id) + 1]
  }

  datatype HostOp = PrepareOp | ActivateOp | CheckTargetOp | RestoreOp | CheckRestoredOp | RestartOp

  /**
    What a host operation answered: success; a failure that left the host alone; a refused
    preparation, with whether the service still runs and whether the source's digest is to
    blame; or a failed activation after the target was being written.
   */
  datatype Answer = Yes | No | Refused(available: bool, untrusted: bool) | Mutated

  function YesNo(ok: bool): Answer {
    if ok then Yes else No
  }

  /** What the engine's call did last: nothing that matters, a saved count, or a host operation. */
  datatype Did = Nothing | AttemptCounted | OpEnded(op: HostOp, answer: Answer)

  datatype EnginePc = Resting | Between(id: string, did: Did) | Operating(id: string, op: HostOp)

  /** The engine holds the job, between two operations. */
  predicate Held(pc: EnginePc, id: string) {
    pc.Between? && pc.id == id
  }

  datatype RepairResult = Interrupted | Repaired | NotRepaired

  /** Where Watchdog.Reconcile stands; `now` is the instant it started at. */
  datatype WatchPc =
    | Idle
    | Observing(now: Instant)
    | Reporting(now: Instant, healthy: bool)
    | Suppressing
    | Rechecking(now: Instant)
    | Waiting(now: Instant)
    | Locked(now: Instant)
    | Published(now: Instant)
    | LockedSuppressing
    | Repairing(now: Instant)
    | Finishing(now: Instant, result: RepairResult)
    | Releasing

  datatype Request =
    | CreateRequest(key: string, target: string)
    | ReplayRequest(key: string, target: string)
    | DesiredRequest(desired: DesiredState)
    | RestartRequest(id: string, token: Option<string>)

  /** Where a control request stands. */
  datatype RequestPc =
    | Arrived(r: Request)
    | Ungated(r: Request)
    | Entering(r: Request)
    | Queueing(r: Request)
    | Holding(r: Request)
    | HoldingVersion(r: Request, version: string)
    | Leaving(r: Request)

  datatype Owner = WatchdogOwns | RequestOwns(n: nat)

  /** HostOperationGate: the operation lock and the published repair session. */
  datatype Gate = Gate(lock: Option<Owner>, published: bool, cancelled: bool)

  /**
    `visible` is what the state file holds for the running process and `durable` what is on
    disk: they differ only after a save replaced the file but could not sync its directory,
    until the system happens to write the directory back. `issued` holds the job tokens handed to callers, by hash.
   */
  datatype World = World(
    visible: RuntimeState,
    durable: RuntimeState,
    host: Host,
    gate: Gate,
    engine: EnginePc,
    watch: WatchPc,
    requests: map<nat, RequestPc>,
    issued: set<(string, string)>,
    clock: Instant)

  /* ---------- Saving ---------- */

  /** StateStore.Update outcomes: saved; replaced but not synced (an error); not replaced (an error). */
  datatype Outcome = Saved | Unsynced | Lost

  /** The transaction is not refused and its result is valid, so the store accepts it. */
  predicate Accepted(x: Externals, s: RuntimeState, c: Change) {
    Effect(s, c).Ok? && StateValid(x, Effect(s, c).value)
  }

  function NextVisible(x: Externals, w: World, c: Change, o: Outcome): RuntimeState {
    if Accepted(x, w.visible, c) && o != Lost then Effect(w.visible, c).value else w.visible
  }

  function NextDurable(x: Externals, w: World, c: Change, o: Outcome): RuntimeState {
    if Accepted(x, w.visible, c) && o == Saved then Effect(w.visible, c).value else w.durable
  }

  /** The caller of Update saw no error. */
  predicate Acknowledged(x: Externals, w: World, c: Change, o: Outcome) {
    Accepted(x, w.visible, c) && o == Saved
  }

  /** A newly accepted restart starts counting from zero. */
  function NextHost(x: Externals, w: World, c: Change, o: Outcome): Host {
    if !Accepted(x, w.visible, c) || o == Lost then w.host
    else if c.FromApi? && c.command.RestartJob? then w.host.(restarts := w.host.restarts[c.command.id := 0])
    else w.host
  }

  function Write(x: Externals, w: World, c: Change, o: Outcome): World {
    w.(visible := NextVisible(x, w, c, o), durable := NextDurable(x, w, c, o), host := NextHost(x, w, c, o))
  }

  /* ---------- Engine steps ---------- */

  /** The image the job's hop number `hop` installs. */
  function Target(plans: map<string, Plan>, spec: JobSpec, hop: int): ImageRef {
    match spec.direct
    case Some(release) => ImageRef(release.version, release.imageDigest)
    case None =>
      if spec.planHash in plans && 0 <= hop < |plans[spec.planHash].chain|
      then var m := plans[spec.planHash].chain[hop].manifest; ImageRef(m.version, m.imageDigest)
      else ImageRef("", "")
  }

  /** The image the job's current hop installs. */
  function Goal(s: RuntimeState, j: Job): ImageRef {
    Target(s.plans, j.spec, j.run.currentHop)
  }

  /** The exact image a recovery point restores. */
  function RecoveryImage(m: BackupMetadata): ImageRef {
    ImageRef(m.version, m.imageDigest)
  }

  predicate Preparing(status: JobStatus) {
    status == Validating || status == BackingUp
  }

  predicate Activating(status: JobStatus) {
    status == Pulling || status == Stopping || status == Migrating || status == Starting
  }

  /** The backup just committed is this job's, describes the configured image, and is the one the slot holds. */
  predicate FreshRecovery(h: Host, j: Job, meta: BackupMetadata) {
    && MetadataShapeValid(meta)
    && meta.jobId == j.spec.id && meta.version == j.run.currentVersion
    && h.slot == Some(meta) && h.settled
    && h.image.version == j.run.currentVersion
    && (h.image.digest != "" ==> meta.imageDigest == h.image.digest)
  }

  /** PrepareBackup and ActivateTarget report their phases in order; Migrating follows the image write. */
  predicate MayProgress(op: HostOp, r: JobRun, next: JobStatus, targetWritten: bool) {
    match op
    case PrepareOp => Preparing(next) && Preparing(r.status)
    case ActivateOp =>
      Activating(next) && Activating(r.status) && (Rank(next) >= Rank(Migrating) ==> targetWritten)
    case _ => false
  }

  /** The engine's code reaches this transaction only in these situations. */
  predicate EngineMay(w: World, id: string, e: JobEdit) {
    && w.engine != Resting && id == w.engine.id && id in w.visible.jobs
    && var j := w.visible.jobs[id];
    && (if e.Progress?
        then w.engine.Operating? && MayProgress(w.engine.op, j.run, e.next, Configured(w.host, Goal(w.visible, j)))
        else
          && w.engine.Between? && Follows(w.engine.did, j.run.status, e) && MayEdit(w.host, Goal(w.visible, j), j, e)
          && (w.engine.did == Nothing ==> RefusesOnlyUnbound(w.visible, j, e)))
  }

  /** The job's current hop binds no digest of its source. */
  predicate Unbound(s: RuntimeState, j: Job) {
    && j.spec.direct.None? && j.spec.planHash in s.plans
    && 0 <= j.run.currentHop < |s.plans[j.spec.planHash].chain|
    && s.plans[j.spec.planHash].chain[j.run.currentHop].sourceImageDigests == []
  }

  /** Without an operation only an unbound hop ends a job: by rollback once it may have changed the host. */
  predicate RefusesOnlyUnbound(s: RuntimeState, j: Job, e: JobEdit) {
    var begun := j.run.recovery.Some? && Rank(j.run.status) >= Rank(Stopping);
    && (e.BeginRollback? ==> Unbound(s, j) && begun)
    && (e.FailBeforeMutation? ==> Unbound(s, j) && !begun && e.available == j.run.available)
  }

  /** A transaction that records an operation's outcome comes right after the operation, and fits its answer. */
  predicate Follows(did: Did, status: JobStatus, e: JobEdit) {
    match e
    case RecordRecovery(_, _) => did == OpEnded(PrepareOp, Yes)
    case RejectSource(_) => did == OpEnded(PrepareOp, Yes)
    case EnterHealthCheck(_) => did == OpEnded(ActivateOp, Yes)
    case FinishHop(_, _) => did == OpEnded(CheckTargetOp, Yes)
    case FinishDirect(_) => did == OpEnded(CheckTargetOp, Yes)
    case MarkRestored => did == OpEnded(RestoreOp, Yes)
    case FinishRollback => did == OpEnded(CheckRestoredOp, Yes)
    case RecoveryFailed => did == OpEnded(RestoreOp, No) || did == OpEnded(CheckRestoredOp, No)
    case RestartFailed => did == OpEnded(RestartOp, No)
    case RestartDone => did == OpEnded(RestartOp, Yes)
    case BeginRollback(code) =>
      || (did == OpEnded(ActivateOp, Mutated) && Activating(status) && code == ActivationFailed)
      || (did == OpEnded(CheckTargetOp, No) && status == HealthCheck && code == TargetUnhealthy)
      || (did == Nothing && code == SourceUntrusted)
    case FailBeforeMutation(code, available) =>
      (match did
       case OpEnded(PrepareOp, Refused(serving, untrusted)) =>
         Preparing(status) && available == serving && code == if untrusted then SourceUntrusted else BackupFailed
       case OpEnded(PrepareOp, Yes) => Preparing(status) && available && code == BackupInvalid
       case OpEnded(ActivateOp, No) => Activating(status) && available && code == ActivationFailed
       case Nothing => code == SourceUntrusted
       case _ => false)
    case _ => true
  }

  /** The engine after a transaction: only a saved count is remembered. */
  function AfterEdit(pc: EnginePc, e: JobEdit, saved: bool): EnginePc {
    if pc.Between? then pc.(did := if saved && e.CountAttempt? then AttemptCounted else Nothing) else pc
  }

  predicate MayEdit(h: Host, goal: ImageRef, j: Job, e: JobEdit) {
    var r := j.run;
    match e
    case StartJob => r.status == Queued
    case RecordRecovery(meta, completed) =>
      Preparing(r.status) && FreshRecovery(h, j, meta) && completed == STEPS_PER_HOP * r.currentHop + 2
    case RejectSource(meta) => Preparing(r.status) && FreshRecovery(h, j, meta)
    case EnterHealthCheck(completed) =>
      r.status == Starting && Configured(h, goal) && completed == STEPS_PER_HOP * r.currentHop + 6
    case FinishHop(version, final) =>
      && r.status == HealthCheck && j.spec.direct.None? && version == goal.version
      && final == (r.currentHop + 1 == j.spec.totalHops)
    case FinishDirect(version) => r.status == HealthCheck && j.spec.direct.Some? && version == goal.version
    case BeginRollback(code) => Rank(r.status) >= Rank(Stopping) && r.recovery.Some? && code != NoError
    case CountAttempt => (r.status == RollingBack && r.step == RestoreBackup) || r.status == Restarting
    case MarkRestored =>
      && r.status == RollingBack && r.step == RestoreBackup
      && r.recovery.Some? && Configured(h, RecoveryImage(r.recovery.value))
    case FinishRollback => r.status == RollingBack && r.step == CheckRestored
    case RecoveryFailed => r.status == RollingBack
    case RestartFailed => r.status == Restarting
    case RestartDone => r.status == Restarting
    case FailBeforeMutation(code, _) => (Preparing(r.status) || Activating(r.status)) && code != NoError
    case _ => false
  }

  /** The running process and a crash agree on how far the job has come. */
  predicate Settled(w: World, id: string) {
    id in w.visible.jobs && id in w.durable.jobs && w.visible.jobs[id].run == w.durable.jobs[id].run
  }

  /** The answers an operation can give. */
  predicate Answers(op: HostOp, answer: Answer) {
    match answer
    case Yes => true
    case Refused(_, _) => op == PrepareOp
    case Mutated => op == ActivateOp
    case No => op != PrepareOp
  }

  predicate JustCounted(pc: EnginePc) {
    pc.Between? && pc.did == AttemptCounted
  }

  /** A restore and a restart begin only right after their count was saved. */
  predicate MayBegin(w: World, id: string, op: HostOp) {
    && id in w.visible.jobs
    && var r := w.visible.jobs[id].run;
    match op
    case PrepareOp => Preparing(r.status)
    case ActivateOp => Activating(r.status)
    case CheckTargetOp => r.status == HealthCheck
    case RestoreOp =>
      && r.status == RollingBack && r.step == RestoreBackup && r.recovery.Some? && JustCounted(w.engine)
      && w.host.slot == r.recovery && CountOf(w.host.restores, id) < r.attempts && Settled(w, id)
    case CheckRestoredOp => r.status == RollingBack && r.step == CheckRestored
    case RestartOp =>
      r.status == Restarting && JustCounted(w.engine) && CountOf(w.host.restarts, id) < r.attempts && Settled(w, id)
  }

  /* ---------- Watchdog and request steps ---------- */

  predicate WatchMay(watch: WatchPc, e: WatchdogEdit) {
    match watch
    case Suppressing => e == Suppress
    case LockedSuppressing => e == Suppress
    case Reporting(now, healthy) => e == if healthy then ObservedHealthy(now) else ObservedFailure(now)
    case Finishing(now, Interrupted) => e == RefundRepair
    case Finishing(now, Repaired) => e == RepairSucceeded(now)
    case Finishing(now, NotRepaired) => e == RepairFailed(now)
    case _ => false
  }

  function WatchAfter(x: Externals, w: World, c: Change, o: Outcome): WatchPc {
    match w.watch
    case LockedSuppressing => Releasing
    case Finishing(_, _) => Releasing
    case Reporting(now, healthy) =>
      if !healthy && Acknowledged(x, w, c, o) && w.visible.desired == Running && RepairDue(w.visible.watchdog, now)
      then Rechecking(now) else Idle
    case _ => Idle
  }

  /** The transaction a request runs, given the random values it draws. */
  predicate RequestMay(pc: RequestPc, c: Command) {
    match pc
    case Ungated(CreateRequest(key, target)) => c.RotateTicket? && c.key == key && c.target == target
    case Ungated(ReplayRequest(key, target)) => c.RotateTicket? && c.key == key && c.target == target
    case Holding(DesiredRequest(desired)) => c == SetDesired(desired)
    case Holding(RestartRequest(id, token)) => c == RestartJob(id, token)
    case HoldingVersion(CreateRequest(key, target), version) =>
      && c.CreateJob? && c.key == key && c.target == target && c.current == version
      && OlderText(version, target)
    case _ => false
  }

  /** Where a request goes after looking at the record once; none when it answers at once. */
  function AfterSnapshot(s: RuntimeState, r: Request): Option<RequestPc> {
    match r
    case ReplayRequest(_, _) => Some(Ungated(r))
    case DesiredRequest(_) => Some(Entering(r))
    case CreateRequest(key, _) =>
      if key in s.idempotency then Some(Ungated(r))
      else if HasActive(s) || s.desired != Running then None
      else Some(Entering(r))
    case RestartRequest(id, token) =>
      if id in s.jobs && TokenAllowed(s.jobs[id], token) && RestartOffered(s.jobs[id])
      then Some(Entering(r)) else None
  }

  function SetRequest(w: World, n: nat, pc: Option<RequestPc>): World {
    w.(requests := if pc.Some? then w.requests[n := pc.value] else w.requests - {n})
  }

  /** The token a successful command hands out: a job id and the token's hash. */
  function Issued(s: RuntimeState, c: Command): set<(string, string)> {
    match c
    case CreateJob(key, _, _, newId, bearer) =>
      {(if key in s.idempotency then s.idempotency[key] else newId, bearer)}
    case RotateTicket(key, _, bearer) =>
      if key in s.idempotency then {(s.idempotency[key], bearer)} else {}
    case _ => {}
  }

  /* ---------- Events ---------- */

  datatype Event =
    | Tick(now: Instant)
    | WriteBack
    | Crash(keepVisible: bool, image: ImageRef, slot: Option<BackupMetadata>)
    | EngineLoad(id: string)
    | EngineRest
    | EngineBegin(op: HostOp)
    | EngineEnd(answer: Answer)
    | EngineWrite(id: string, edit: JobEdit, o: Outcome)
    | RotateBackup(slot: Option<BackupMetadata>, settled: bool)
    | WriteTarget(synced: bool)
    | WriteRecovery(synced: bool)
    | WatchLoad
    | WatchLoadFailed
    | WatchObserved(healthy: bool)
    | WatchWrite(watch: WatchdogEdit, o: Outcome)
    | WatchRecheck
    | WatchLock
    | WatchPublish
    | WatchReload
    | WatchRepaired(ok: bool)
    | WatchRelease
    | Arrive(n: nat, r: Request)
    | Snapshot(n: nat)
    | GiveUp(n: nat)
    | CancelRepair(n: nat)
    | TakeLock(n: nat)
    | ReadVersion(n: nat)
    | RequestWrite(n: nat, c: Command, o: Outcome)
    | ReleaseLock(n: nat)

  predicate EngineEvent(e: Event) {
    || e.EngineLoad? || e.EngineRest? || e.EngineBegin? || e.EngineEnd? || e.EngineWrite? || e.RotateBackup?
    || e.WriteTarget? || e.WriteRecovery?
  }

  predicate Enabled(w: World, e: Event) {
    match e
    case Tick(now) => now >= w.clock
    case WriteBack => true
    case Crash(_, image, slot) => image in w.host.kept && (w.host.settled ==> slot == w.host.slot)
    case EngineLoad(id) => w.engine == Resting && IsActive(w.visible, id)
    case EngineRest => w.engine.Between?
    case EngineBegin(op) => w.engine.Between? && MayBegin(w, w.engine.id, op)
    case EngineEnd(answer) => w.engine.Operating? && Answers(w.engine.op, answer)
    case EngineWrite(id, edit, _) => EngineMay(w, id, edit)
    case RotateBackup(_, _) =>
      && w.engine.Operating? && w.engine.op == PrepareOp && Settled(w, w.engine.id)
      && Preparing(w.visible.jobs[w.engine.id].run.status)
    case WriteTarget(_) =>
      && w.engine.Operating? && w.engine.op == ActivateOp && Settled(w, w.engine.id)
      && var status := w.visible.jobs[w.engine.id].run.status;
      && Activating(status) && status != Pulling
    case WriteRecovery(_) =>
      && w.engine.Operating? && w.engine.op == RestoreOp && Settled(w, w.engine.id)
      && var r := w.visible.jobs[w.engine.id].run;
      && r.status == RollingBack && r.step == RestoreBackup && r.recovery.Some?
    case WatchLoad => w.watch == Idle
    case WatchLoadFailed => w.watch.Rechecking? || w.watch.Published?
    case WatchObserved(_) => w.watch.Observing?
    case WatchWrite(edit, o) =>
      WatchMay(w.watch, edit) && (w.watch == LockedSuppressing && w.gate.cancelled ==> o == Lost)
    case WatchRecheck => w.watch.Rechecking?
    case WatchLock => w.watch.Waiting? && w.gate.lock == None
    case WatchPublish => w.watch.Locked?
    case WatchReload => w.watch.Published? && !w.gate.cancelled
    case WatchRepaired(_) => w.watch.Repairing?
    case WatchRelease => w.watch == Releasing
    case Arrive(n, _) => n !in w.requests
    case Snapshot(n) => n in w.requests && w.requests[n].Arrived?
    case GiveUp(n) => n in w.requests && !w.requests[n].Queueing? && !w.requests[n].Leaving?
    case CancelRepair(n) => n in w.requests && w.requests[n].Entering?
    case TakeLock(n) => n in w.requests && w.requests[n].Queueing? && w.gate.lock == None
    case ReadVersion(n) => n in w.requests && w.requests[n].Holding? && w.requests[n].r.CreateRequest?
    case RequestWrite(n, c, _) => n in w.requests && RequestMay(w.requests[n], c)
    case ReleaseLock(n) => n in w.requests && w.requests[n].Leaving?
  }

  /**
    The process dies and starts again: every thread is gone and the backup slot has been
    recovered. The state file is found as it was last replaced or as the disk has it, and
    the environment file as one of the versions a crash may leave; one that was visible
    before may still be lost in a later crash, another one is what the disk has.
   */
  function Crashed(w: World, keepVisible: bool, image: ImageRef, slot: Option<BackupMetadata>): World {
    var kept := if image == w.host.image then w.host.kept else {image};
    w.(visible := if keepVisible then w.visible else w.durable,
       host := w.host.(image := image, kept := kept, slot := slot, settled := true),
       gate := Gate(None, false, false), engine := Resting, watch := Idle, requests := map[])
  }

  predicate Gated(pc: RequestPc) {
    pc.Holding? || pc.HoldingVersion? || pc.Leaving?
  }

  function Step(x: Externals, w: World, e: Event): World
    requires Enabled(w, e)
  {
    match e
    case Tick(now) => w.(clock := now)
    case WriteBack => w.(durable := w.visible)
    case Crash(keepVisible, image, slot) => Crashed(w, keepVisible, image, slot)
    case EngineLoad(id) => w.(engine := Between(id, Nothing))
    case EngineRest => w.(engine := Resting)
    case EngineBegin(op) =>
      w.(engine := Operating(w.engine.id, op),
         host := w.host.(
           restores := if op == RestoreOp then CountUp(w.host.restores, w.engine.id) else w.host.restores,
           restarts := if op == RestartOp then CountUp(w.host.restarts, w.engine.id) else w.host.restarts))
    case EngineEnd(answer) => w.(engine := Between(w.engine.id, OpEnded(w.engine.op, answer)))
    case EngineWrite(id, edit, o) =>
      Write(x, w, OnJob(id, edit), o).(engine := AfterEdit(w.engine, edit, Acknowledged(x, w, OnJob(id, edit), o)))
    case RotateBackup(slot, settled) => w.(host := w.host.(slot := slot, settled := settled))
    case WriteTarget(synced) =>
      w.(host := Configure(w.host, Goal(w.visible, w.visible.jobs[w.engine.id]), synced))
    case WriteRecovery(synced) =>
      w.(host := Configure(w.host, RecoveryImage(w.visible.jobs[w.engine.id].run.recovery.value), synced))
    case WatchLoad => w.(watch := if w.visible.desired == Running then Observing(w.clock) else Suppressing)
    case WatchLoadFailed => w.(watch := if w.watch.Published? then Releasing else Idle)
    case WatchObserved(healthy) => w.(watch := Reporting(w.watch.now, healthy))
    case WatchWrite(edit, o) => Write(x, w, OnWatchdog(edit), o).(watch := WatchAfter(x, w, OnWatchdog(edit), o))
    case WatchRecheck => w.(watch := if w.visible.desired == Running then Waiting(w.watch.now) else Suppressing)
    case WatchLock => w.(watch := Locked(w.watch.now), gate := w.gate.(lock := Some(WatchdogOwns)))
    case WatchPublish =>
      w.(watch := Published(w.watch.now), gate := w.gate.(published := true, cancelled := false))
    case WatchReload =>
      w.(watch := if w.visible.desired == Running then Repairing(w.watch.now) else LockedSuppressing)
    case WatchRepaired(ok) =>
      w.(watch := Finishing(w.watch.now,
                            if w.gate.cancelled then Interrupted else if ok then Repaired else NotRepaired))
    case WatchRelease => w.(watch := Idle, gate := Gate(None, false, false))
    case Arrive(n, r) => SetRequest(w, n, Some(Arrived(r)))
    case Snapshot(n) => SetRequest(w, n, AfterSnapshot(w.visible, w.requests[n].r))
    case GiveUp(n) => SetRequest(w, n, if Gated(w.requests[n]) then Some(Leaving(w.requests[n].r)) else None)
    case CancelRepair(n) =>
      SetRequest(w, n, Some(Queueing(w.requests[n].r))).(
        gate := w.gate.(cancelled := w.gate.cancelled || w.gate.published))
    case TakeLock(n) =>
      SetRequest(w, n, Some(Holding(w.requests[n].r))).(gate := w.gate.(lock := Some(RequestOwns(n))))
    case ReadVersion(n) => SetRequest(w, n, Some(HoldingVersion(w.requests[n].r, w.host.image.version)))
    case RequestWrite(n, c, o) =>
      SetRequest(Write(x, w, FromApi(c), o), n, if Gated(w.requests[n]) then Some(Leaving(w.requests[n].r)) else None).(
        issued := w.issued + if Acknowledged(x, w, FromApi(c), o) then Issued(w.visible, c) else {})
    case ReleaseLock(n) => SetRequest(w, n, None).(gate := w.gate.(lock := None))
  }
}
