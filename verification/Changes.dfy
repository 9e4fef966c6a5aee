/**
  Every transaction the updater runs on its durable record, as a value, and what each
  one does. A transaction reads the record, changes it, and hands the result to the
  store, which validates it before replacing the file.
 */
module Changes {
  import opened Wrappers
  import opened Text
  import opened Release
  import opened State

  /** What the job engine does to its job. */
  datatype JobEdit =
    | StartJob
    | Progress(next: JobStatus)
    | RecordRecovery(meta: BackupMetadata, completed: int)
    | RejectSource(meta: BackupMetadata)
    | EnterHealthCheck(completed: int)
    | FinishHop(version: string, final: bool)
    | FinishDirect(version: string)
    | BeginRollback(code: ErrorCode)
    | CountAttempt
    | MarkRestored
    | FinishRollback
    | RecoveryFailed
    | RestartFailed
    | RestartDone
    | FailBeforeMutation(code: ErrorCode, available: bool)

  /** What the watchdog does to its own record. */
  datatype WatchdogEdit =
    | Suppress
    | ObservedHealthy(now: Instant)
    | ObservedFailure(now: Instant)
    | RepairSucceeded(now: Instant)
    | RepairFailed(now: Instant)
    | RefundRepair

  /** What control requests ask for; random values and token hashes are arguments. */
  datatype Command =
    | SetDesired(desired: DesiredState)
    | CreateJob(key: string, target: string, current: string, newId: string, bearer: string)
    | RotateTicket(key: string, target: string, bearer: string)
    | RestartJob(id: string, token: Option<string>)

  datatype Change =
    | OnJob(id: string, edit: JobEdit)
    | OnWatchdog(watch: WatchdogEdit)
    | FromApi(command: Command)

  datatype Refusal =
    | JobGone | OperationInProgress | DesiredStateReserved | DesiredStateNotRunning
    | IdempotencyNotFound | StateInconsistent | IdempotencyConflict
    | JobNotFound | JobTokenRequired | OperationNotAvailable

  /* ---------- Job edits ---------- */

  /** Transactions on the way to a rollback's or a restart's end. */
  predicate RecoveryEdit(e: JobEdit) {
    || e.BeginRollback? || e.CountAttempt? || e.MarkRestored? || e.FinishRollback? || e.RecoveryFailed?
    || e.RestartFailed? || e.RestartDone?
  }

  /** The phases during which the service is announced as unavailable. */
  predicate Interrupting(phase: JobStatus) {
    phase in {BackingUp, Stopping, Migrating, Starting}
  }

  /** The progress callback never moves a job back to an earlier phase. */
  function Progressed(r: JobRun, next: JobStatus): JobRun {
    if Rank(r.status) > Rank(next) then r
    else r.(status := next, step := AtPhase(next),
            completedSteps := r.currentHop * STEPS_PER_HOP + Rank(next),
            available := if Interrupting(next) then false else if next == Pulling then true else r.available)
  }

  function HopFinished(r: JobRun, version: string, final: bool): JobRun {
    r.(currentVersion := version,
       currentHop := r.currentHop + 1,
       completedSteps := (r.currentHop + 1) * STEPS_PER_HOP,
       available := true,
       lastSafeVersion := version,
       errorCode := NoError, errorMessage := NoMessage,
       status := if final then Succeeded else Validating,
       step := if final then Complete else AtPhase(Validating))
  }

  function RolledBackRun(plans: map<string, Plan>, spec: JobSpec, r: JobRun): JobRun
    requires r.recovery.Some?
  {
    var version := r.recovery.value.version;
    var hop := if spec.planHash in plans then CompletedHop(plans[spec.planHash], version)
               else if spec.direct.Some? then 0 else r.currentHop;
    var completed := if spec.planHash in plans || spec.direct.Some? then hop * STEPS_PER_HOP else r.completedSteps;
    r.(status := RolledBack, step := Complete, available := true,
       lastSafeVersion := version, currentVersion := version,
       currentHop := hop, completedSteps := completed,
       errorMessage := if r.errorCode != NoError then PreviousRestored else NoMessage)
  }

  function Stopped(r: JobRun, code: ErrorCode, message: Message): JobRun {
    r.(status := Failed, step := Complete, errorCode := code, errorMessage := message)
  }

  /** Only the newest recovery point stays recorded: finished jobs give theirs up. */
  function WithoutOldRecoveries(jobs: map<string, Job>, id: string): map<string, Job> {
    map other | other in jobs ::
      if other != id && !Active(jobs[other].run.status)
      then jobs[other].(run := jobs[other].run.(recovery := None)) else jobs[other]
  }

  /* ---------- Watchdog edits ---------- */

  function Suppressed(w: WatchdogState): WatchdogState {
    w.(status := WatchSuppressed, failures := 0, cooldownUntil := 0, errorCode := NoWatchError)
  }

  /** recentWatchdogAttempts: the attempts still inside the sliding window. */
  function Recent(attempts: seq<Instant>, now: Instant): seq<Instant> {
    if attempts == [] then []
    else if attempts[0] + REPAIR_WINDOW > now then [attempts[0]] + Recent(attempts[1..], now)
    else Recent(attempts[1..], now)
  }

  /** The next failed observation at `now` is the third in a row, outside any cooldown. */
  predicate ThresholdReached(w: WatchdogState, now: Instant) {
    w.cooldownUntil <= now && w.failures + 1 >= OBSERVATION_THRESHOLD
  }

  /** The failed observation at `now` spends one repair from the budget. */
  predicate RepairDue(w: WatchdogState, now: Instant) {
    ThresholdReached(w, now) && |Recent(w.attempts, now)| < MAX_REPAIRS
  }

  function AfterFailedObservation(w: WatchdogState, now: Instant): WatchdogState {
    var seen := w.(lastObservedAt := now, errorCode := ObservationFailed, attempts := Recent(w.attempts, now));
    if w.cooldownUntil > now then seen.(status := WatchDegraded, failures := 0)
    else if !ThresholdReached(w, now) then
      seen.(cooldownUntil := 0, failures := w.failures + 1, status := WatchObserving)
    else if !RepairDue(w, now) then
      seen.(failures := 0, status := WatchDegraded, cooldownUntil := now + REPAIR_COOLDOWN)
    else
      seen.(cooldownUntil := 0, failures := 0, attempts := seen.attempts + [now],
            lastRepairAt := now, status := WatchRepairing)
  }

  function AfterHealthyObservation(w: WatchdogState, now: Instant): WatchdogState {
    w.(status := WatchHealthy, failures := 0, cooldownUntil := 0, lastObservedAt := now,
       errorCode := NoWatchError, attempts := Recent(w.attempts, now))
  }

  function AfterRepairSuccess(w: WatchdogState, now: Instant): WatchdogState {
    w.(status := WatchHealthy, failures := 0, cooldownUntil := 0, lastObservedAt := now, errorCode := NoWatchError)
  }

  function AfterRepairFailure(w: WatchdogState, now: Instant): WatchdogState {
    if |w.attempts| >= MAX_REPAIRS
    then w.(failures := 0, errorCode := RepairUnsuccessful, status := WatchDegraded,
            cooldownUntil := now + REPAIR_COOLDOWN)
    else w.(failures := 0, errorCode := RepairUnsuccessful, status := WatchObserving)
  }

  /** restoreInterruptedRepair: the interrupted attempt, if it is the last one, is given back. */
  function AfterRefund(w: WatchdogState): WatchdogState {
    var n := |w.attempts|;
    var kept := if n > 0 && w.attempts[n - 1] == w.lastRepairAt then w.attempts[..n - 1] else w.attempts;
    w.(attempts := kept, status := WatchObserving, failures := 0, lastRepairAt := 0,
       errorCode := ObservationFailed)
  }

  /* ---------- Control API edits ---------- */

  /** publicJobOperations offers a restart. */
  predicate RestartOffered(j: Job) {
    j.run.status == Failed && !j.run.available
  }

  /** jobTokenAllowed, on the hash of the presented token (none when it is empty). */
  predicate TokenAllowed(j: Job, token: Option<string>) {
    token.Some? && token.value in j.bearers
  }

  function NewJob(key: string, target: string, current: string, id: string, bearer: string): Job {
    Job(JobSpec(id, key, "", "", Some(DirectRelease(target, "")), target, STEPS_PER_HOP, 1),
        [bearer],
        JobRun(Queued, current, AtPhase(Validating), 0, 0, true, current, NoError, NoMessage, None, 0))
  }

  function Rotated(s: RuntimeState, key: string, target: string, bearer: string): (r: Result<RuntimeState, Refusal>)
    ensures r.Ok? ==> r.value == s.(jobs := r.value.jobs)
    ensures r.Ok? && WellKeyed(s) ==>
              && key in s.idempotency
              && r.value.jobs.Keys == s.jobs.Keys
              && forall id :: id in s.jobs ==>
                   r.value.jobs[id] == s.jobs[id].(
                     bearers := s.jobs[id].bearers + if id == s.idempotency[key] then [bearer] else [])
  {
    if key !in s.idempotency then Err(IdempotencyNotFound)
    else if s.idempotency[key] !in s.jobs then Err(StateInconsistent)
    else
      var j := s.jobs[s.idempotency[key]];
      if j.spec.targetVersion != target then Err(IdempotencyConflict)
      else Ok(s.(jobs := s.jobs[j.spec.id := j.(bearers := j.bearers + [bearer])]))
  }

  /* ---------- The transactions ---------- */

  /** What an engine transaction makes of its job. */
  function JobEffect(plans: map<string, Plan>, spec: JobSpec, r: JobRun, e: JobEdit): JobRun {
    match e
    case StartJob => r.(status := Validating, step := AtPhase(Validating))
    case Progress(next) => Progressed(r, next)
    case RecordRecovery(meta, completed) =>
      r.(recovery := Some(meta), status := Pulling, completedSteps := completed, available := true,
         step := AtPhase(Pulling))
    case RejectSource(meta) =>
      Stopped(r, SourceUntrusted, SourceNotApproved).(
        recovery := Some(meta), available := true, lastSafeVersion := r.currentVersion)
    case EnterHealthCheck(completed) =>
      r.(status := HealthCheck, completedSteps := completed, available := false, step := AtPhase(HealthCheck))
    case FinishHop(version, final) => HopFinished(r, version, final)
    case FinishDirect(version) =>
      r.(currentVersion := version, currentHop := 1, completedSteps := STEPS_PER_HOP, available := true,
         lastSafeVersion := version, errorCode := NoError, errorMessage := NoMessage, status := Succeeded,
         step := Complete)
    case BeginRollback(code) =>
      r.(status := RollingBack, step := RestoreBackup, available := false, errorCode := code,
         errorMessage := RestoringPrevious)
    case CountAttempt => r.(attempts := r.attempts + 1)
    case MarkRestored => r.(step := CheckRestored)
    case FinishRollback => if r.recovery.Some? then RolledBackRun(plans, spec, r) else r
    case RecoveryFailed =>
      if r.attempts >= MAX_RECOVERY_ATTEMPTS
      then Stopped(r, RollbackFailed, RecoveryExhausted).(available := false)
      else r.(available := false, step := RestoreBackup)
    case RestartFailed =>
      if r.attempts >= MAX_RECOVERY_ATTEMPTS
      then Stopped(r, RestartUnsuccessful, RestartExhausted).(available := false)
      else r.(available := false)
    case RestartDone =>
      r.(status := Failed, step := Complete, available := true,
         lastSafeVersion := if r.lastSafeVersion == "" then r.currentVersion else r.lastSafeVersion)
    case FailBeforeMutation(code, available) =>
      Stopped(r, code, StoppedBeforeMutation).(
        available := available, lastSafeVersion := r.currentVersion)
  }

  /** The desired state an engine transaction leaves behind. */
  function DesiredEffect(desired: DesiredState, r: JobRun, e: JobEdit): DesiredState {
    match e
    case RejectSource(_) => Running
    case FinishHop(_, final) => if final then Running else desired
    case FinishDirect(_) => Running
    case FinishRollback => Running
    case RecoveryFailed => if r.attempts >= MAX_RECOVERY_ATTEMPTS then Maintenance else desired
    case RestartFailed => if r.attempts >= MAX_RECOVERY_ATTEMPTS then Maintenance else desired
    case RestartDone => Running
    case FailBeforeMutation(_, _) => Running
    case _ => desired
  }

  function EngineEffect(s: RuntimeState, id: string, e: JobEdit): (r: Result<RuntimeState, Refusal>)
    ensures r.Ok? <==> id in s.jobs
    ensures r.Ok? ==> r.value == s.(jobs := r.value.jobs, desired := r.value.desired)
    ensures r.Ok? ==> r.value.jobs.Keys == s.jobs.Keys
    ensures r.Ok? ==> forall other :: other in s.jobs ==>
                        && r.value.jobs[other].spec == s.jobs[other].spec
                        && r.value.jobs[other].bearers == s.jobs[other].bearers
    ensures r.Ok? ==> forall other :: other in s.jobs && other != id ==>
                        r.value.jobs[other].run == s.jobs[other].run.(recovery := r.value.jobs[other].run.recovery)
    ensures r.Ok? ==> forall other :: other in s.jobs && other != id && Active(s.jobs[other].run.status) ==>
                        r.value.jobs[other] == s.jobs[other]
  {
    if id !in s.jobs then Err(JobGone)
    else
      var j := s.jobs[id];
      var others := if e.RecordRecovery? then WithoutOldRecoveries(s.jobs, id) else s.jobs;
      Ok(s.(jobs := others[id := j.(run := JobEffect(s.plans, j.spec, j.run, e))],
            desired := DesiredEffect(s.desired, j.run, e)))
  }

  function WatchdogEffect(s: RuntimeState, e: WatchdogEdit): (r: RuntimeState)
    ensures r == s.(watchdog := r.watchdog)
  {
    var w := s.watchdog;
    match e
    case Suppress => s.(watchdog := Suppressed(w))
    case ObservedHealthy(now) => s.(watchdog := AfterHealthyObservation(w, now))
    case ObservedFailure(now) =>
      s.(watchdog := if s.desired != Running then Suppressed(w) else AfterFailedObservation(w, now))
    case RepairSucceeded(now) => s.(watchdog := AfterRepairSuccess(w, now))
    case RepairFailed(now) => s.(watchdog := AfterRepairFailure(w, now))
    case RefundRepair =>
      if s.desired != Running || HasActive(s) || w.status != WatchRepairing then s
      else s.(watchdog := AfterRefund(w))
  }

  function ApiEffect(s: RuntimeState, c: Command): Result<RuntimeState, Refusal> {
    match c
    case SetDesired(desired) =>
      if HasActive(s) then Err(OperationInProgress)
      else if desired == Upgrading then Err(DesiredStateReserved)
      else Ok(s.(desired := desired, watchdog := Suppressed(s.watchdog)))
    case CreateJob(key, target, current, newId, bearer) =>
      if key in s.idempotency then Rotated(s, key, target, bearer)
      else if HasActive(s) then Err(OperationInProgress)
      else if s.desired != Running then Err(DesiredStateNotRunning)
      else Ok(s.(jobs := s.jobs[newId := NewJob(key, target, current, newId, bearer)],
                 idempotency := s.idempotency[key := newId],
                 desired := Upgrading,
                 watchdog := Suppressed(s.watchdog)))
    case RotateTicket(key, target, bearer) => Rotated(s, key, target, bearer)
    case RestartJob(id, token) =>
      if id !in s.jobs then Err(JobNotFound)
      else if !TokenAllowed(s.jobs[id], token) then Err(JobTokenRequired)
      else if !RestartOffered(s.jobs[id]) then Err(OperationNotAvailable)
      else Ok(s.(jobs := s.jobs[id := s.jobs[id].(
                     run := s.jobs[id].run.(available := false, attempts := 0, status := Restarting,
                                            step := Restart))],
                 desired := Upgrading,
                 watchdog := Suppressed(s.watchdog)))
  }

  /** What a transaction does to the record it reads. */
  function Effect(s: RuntimeState, c: Change): Result<RuntimeState, Refusal> {
    match c
    case OnJob(id, edit) => EngineEffect(s, id, edit)
    case OnWatchdog(edit) => Ok(WatchdogEffect(s, edit))
    case FromApi(command) => ApiEffect(s, command)
  }
}
