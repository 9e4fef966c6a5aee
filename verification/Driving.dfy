/**
  Reachable states, built up event by event: a request that creates a job, and the engine
  that drives a direct job through its phases while every save succeeds. Each lemma
  extends a run that ends in `w` to one that ends in the world it returns.
 */
module Driving {
  import opened Wrappers
  import opened Text
  import opened Release
  import opened State
  import opened Changes
  import opened Ledger
  import opened System
  import opened Safety
  import opened Runs
  import opened Acceptance
  import opened Races

  /* ---------- Single events ---------- */

  /** A saved transaction of the engine. */
  lemma Saves(x: Externals, w: World, id: string, e: JobEdit) returns (w': World)
    requires Reachable(x, w) && EngineMay(w, id, e)
    requires !(e.CountAttempt? && w.visible.jobs[id].run.attempts == MAX_RECOVERY_ATTEMPTS)
    ensures Reachable(x, w')
    ensures w' == w.(visible := w'.visible, durable := w'.visible, engine := AfterEdit(w.engine, e, true))
    ensures w'.visible == w.visible.(jobs := w'.visible.jobs, desired := w'.visible.desired)
    ensures w'.visible.jobs.Keys == w.visible.jobs.Keys && id in w'.visible.jobs
    ensures w'.visible.jobs[id] == w.visible.jobs[id].(run := Edited(w, id, e))
    ensures w'.visible.desired == DesiredEffect(w.visible.desired, w.visible.jobs[id].run, e)
  {
    hide Reachable, Step, Enabled, EngineMay, Edited, DesiredEffect, Inv;
    ReachableInv(x, w);
    SavedEdit(x, w, id, e);
    StepIsReachable(x, w, EngineWrite(id, e, Saved));
    w' := Step(x, w, EngineWrite(id, e, Saved));
  }

  /** A host operation other than a restore or restart begins. */
  lemma Begins(x: Externals, w: World, id: string, op: HostOp) returns (w': World)
    requires Reachable(x, w) && Held(w.engine, id) && MayBegin(w, id, op) && op != RestoreOp && op != RestartOp
    ensures Reachable(x, w') && w' == w.(engine := Operating(id, op))
  {
    hide Reachable, MayBegin;
    StepIsReachable(x, w, EngineBegin(op));
    w' := Step(x, w, EngineBegin(op));
  }

  lemma Ends(x: Externals, w: World, id: string, answer: Answer) returns (w': World)
    requires Reachable(x, w) && w.engine.Operating? && w.engine.id == id && Answers(w.engine.op, answer)
    ensures Reachable(x, w') && w' == w.(engine := Between(id, OpEnded(w.engine.op, answer)))
  {
    hide Reachable;
    StepIsReachable(x, w, EngineEnd(answer));
    w' := Step(x, w, EngineEnd(answer));
  }

  /** The engine's call is over. */
  lemma Rests(x: Externals, w: World) returns (w': World)
    requires Reachable(x, w) && w.engine.Between?
    ensures Reachable(x, w') && w' == w.(engine := Resting)
  {
    hide Reachable;
    StepIsReachable(x, w, EngineRest);
    w' := Step(x, w, EngineRest);
  }

  /** The engine is woken and turns to the active job. */
  lemma Loads(x: Externals, w: World, id: string) returns (w': World)
    requires Reachable(x, w) && w.engine == Resting && id in w.visible.jobs && Active(w.visible.jobs[id].run.status)
    ensures Reachable(x, w') && w' == w.(engine := Between(id, Nothing))
  {
    hide Reachable;
    StepIsReachable(x, w, EngineLoad(id));
    w' := Step(x, w, EngineLoad(id));
  }

  /* ---------- A direct job on its way ---------- */

  /**
    The engine's job stands at `r` on disk and in memory, the host is `h`, and everything
    else is as in `base`.
   */
  predicate Stands(base: World, w: World, id: string, r: JobRun, h: Host) {
    && w == base.(visible := w.visible, durable := w.visible, host := h, engine := w.engine)
    && w.visible == base.visible.(jobs := w.visible.jobs)
    && w.visible.jobs.Keys == base.visible.jobs.Keys && id in base.visible.jobs
    && w.visible.jobs[id] == base.visible.jobs[id].(run := r)
  }

  /** A direct job for `release`, newly queued for the version that is configured for good. */
  predicate FreshlyQueued(w: World, id: string, release: DirectRelease) {
    && w.visible == w.durable && Held(w.engine, id) && id in w.visible.jobs
    && var j := w.visible.jobs[id];
    && j.spec.direct == Some(release) && j.spec.totalHops == 1
    && j.run.status == Queued && j.run.currentHop == 0 && j.run.attempts == 0
    && w.host.image.version == j.run.currentVersion
  }

  /** The recovery point is this job's and describes the configured image. */
  predicate Fits(meta: BackupMetadata, id: string, image: ImageRef) {
    MetadataShapeValid(meta) && meta.jobId == id && meta.version == image.version &&
    (image.digest != "" ==> meta.imageDigest == image.digest)
  }

  /** The progress of a job at one of the phases it reports. */
  predicate AtStage(w: World, id: string, status: JobStatus, version: string, recovery: Option<BackupMetadata>) {
    && id in w.visible.jobs
    && var r := w.visible.jobs[id].run;
    && r.status == status && r.currentVersion == version && r.recovery == recovery && r.currentHop == 0 &&
       r.attempts == 0
  }

  /** Everything but the active job's progress, the host and the engine is as in `base`. */
  predicate Driven(base: World, w: World, id: string) {
    id in w.visible.jobs && Stands(base, w, id, w.visible.jobs[id].run, w.host)
  }

  /** The engine prepares the job: validation, the backup and its commit, and the recovery point. */
  lemma Prepares(x: Externals, base: World, id: string, release: DirectRelease, meta: BackupMetadata) returns (w: World)
    requires Reachable(x, base) && FreshlyQueued(base, id, release) && Fits(meta, id, base.host.image)
    ensures Reachable(x, w) && Driven(base, w, id) && Held(w.engine, id)
    ensures AtStage(w, id, Pulling, base.visible.jobs[id].run.currentVersion, Some(meta))
    ensures w.host == base.host.(slot := Some(meta), settled := true)
  {
    hide Reachable, MetadataShapeValid;
    w := Saves(x, base, id, StartJob);
    w := Begins(x, w, id, PrepareOp);
    w := Saves(x, w, id, Progress(Validating));
    w := Saves(x, w, id, Progress(BackingUp));
    w := Rotates(x, w, id, w.host.slot, false);
    w := Rotates(x, w, id, Some(meta), true);
    w := Ends(x, w, id, Yes);
    OwnId(x, w, id);
    w := Saves(x, w, id, RecordRecovery(meta, 2));
  }

  lemma Rotates(x: Externals, w: World, id: string, slot: Option<BackupMetadata>, settled: bool) returns (w': World)
    requires Reachable(x, w) && w.engine == Operating(id, PrepareOp) && w.visible == w.durable
    requires id in w.visible.jobs && Preparing(w.visible.jobs[id].run.status)
    ensures Reachable(x, w') && w' == w.(host := w.host.(slot := slot, settled := settled))
  {
    hide Reachable;
    StepIsReachable(x, w, RotateBackup(slot, settled));
    w' := Step(x, w, RotateBackup(slot, settled));
  }

  lemma OwnId(x: Externals, w: World, id: string)
    requires Reachable(x, w) && id in w.visible.jobs
    ensures w.visible.jobs[id].spec.id == id
  {
    hide Reachable, Inv, StateValid, ExecutionValid;
    ReachableInv(x, w);
    ValidInInv(x, w);
    ValidExecution(x, w.visible, id);
  }

  /** The engine has reported that it stops the service, within the activation. */
  lemma Stops(x: Externals, base: World, w: World, id: string, version: string, recovery: Option<BackupMetadata>)
    returns (w': World)
    requires Reachable(x, w) && Driven(base, w, id) && Held(w.engine, id)
    requires AtStage(w, id, Pulling, version, recovery)
    ensures Reachable(x, w') && Driven(base, w', id) && w'.engine == Operating(id, ActivateOp)
    ensures AtStage(w', id, Stopping, version, recovery) && w'.host == w.host
  {
    hide Reachable;
    w' := Begins(x, w, id, ActivateOp);
    w' := Saves(x, w', id, Progress(Pulling));
    w' := Saves(x, w', id, Progress(Stopping));
  }

  /** The image a direct job installs. */
  function ReleaseImage(release: DirectRelease): ImageRef {
    ImageRef(release.version, release.imageDigest)
  }

  /** The environment file is replaced with the target; without the sync the write is an error. */
  lemma WritesTarget(
      x: Externals, base: World, w: World, id: string, release: DirectRelease, version: string,
      recovery: Option<BackupMetadata>, synced: bool)
    returns (w': World)
    requires Reachable(x, w) && Driven(base, w, id) && w.engine == Operating(id, ActivateOp)
    requires AtStage(w, id, Stopping, version, recovery) && w.visible.jobs[id].spec.direct == Some(release)
    ensures Reachable(x, w') && w' == w.(host := Configure(w.host, ReleaseImage(release), synced))
    ensures Driven(base, w', id) && AtStage(w', id, Stopping, version, recovery)
  {
    hide Reachable;
    StepIsReachable(x, w, WriteTarget(synced));
    w' := Step(x, w, WriteTarget(synced));
  }

  lemma Migrates(
      x: Externals, base: World, w: World, id: string, release: DirectRelease, version: string,
      recovery: Option<BackupMetadata>)
    returns (w': World)
    requires Reachable(x, w) && Driven(base, w, id) && w.engine == Operating(id, ActivateOp)
    requires AtStage(w, id, Stopping, version, recovery) && w.visible.jobs[id].spec.direct == Some(release)
    requires Configured(w.host, ReleaseImage(release))
    ensures Reachable(x, w') && Driven(base, w', id) && w'.engine == w.engine && w'.host == w.host
    ensures AtStage(w', id, Migrating, version, recovery)
  {
    hide Reachable;
    w' := Saves(x, w, id, Progress(Migrating));
  }

  /** The service is migrated and started on the target. */
  lemma ReachesHealthCheck(
      x: Externals, base: World, w: World, id: string, release: DirectRelease, version: string,
      recovery: Option<BackupMetadata>)
    returns (w': World)
    requires Reachable(x, w) && Driven(base, w, id) && w.engine == Operating(id, ActivateOp)
    requires AtStage(w, id, Migrating, version, recovery) && w.visible.jobs[id].spec.direct == Some(release)
    requires Configured(w.host, ReleaseImage(release))
    ensures Reachable(x, w') && Driven(base, w', id) && Held(w'.engine, id) && w'.host == w.host
    ensures AtStage(w', id, HealthCheck, version, recovery)
  {
    hide Reachable;
    w' := Saves(x, w, id, Progress(Starting));
    w' := Ends(x, w', id, Yes);
    w' := Saves(x, w', id, EnterHealthCheck(6));
  }

  /** The health check succeeds and the job is over. */
  lemma Succeeds(
      x: Externals, base: World, w: World, id: string, release: DirectRelease, version: string,
      recovery: Option<BackupMetadata>)
    returns (w': World)
    requires Reachable(x, w) && Driven(base, w, id) && Held(w.engine, id)
    requires AtStage(w, id, HealthCheck, version, recovery) && w.visible.jobs[id].spec.direct == Some(release)
    ensures Reachable(x, w') && w'.engine == Resting && w'.visible.desired == Running
    ensures id in w'.visible.jobs && w'.visible.jobs[id].run.status == Succeeded
    ensures w' == base.(visible := w'.visible, durable := w'.visible, host := w.host, engine := Resting)
    ensures w'.visible == base.visible.(jobs := w'.visible.jobs, desired := Running)
    ensures w'.visible.jobs.Keys == base.visible.jobs.Keys
  {
    hide Reachable;
    w' := Begins(x, w, id, CheckTargetOp);
    w' := Ends(x, w', id, Yes);
    w' := Saves(x, w', id, FinishDirect(release.version));
    w' := Rests(x, w');
  }

  /* ---------- Rolling back ---------- */

  /** The job is rolling back, `attempts` of its recovery attempts have failed. */
  predicate RollsBack(w: World, id: string, recovery: Option<BackupMetadata>, attempts: int) {
    && w.visible == w.durable && Held(w.engine, id) && id in w.visible.jobs
    && var r := w.visible.jobs[id].run;
    r.status == RollingBack && r.step == RestoreBackup && r.attempts == attempts && r.recovery == recovery
  }

  lemma BeginsRollback(
      x: Externals, base: World, w: World, id: string, version: string, recovery: Option<BackupMetadata>)
    returns (w': World)
    requires Reachable(x, w) && Driven(base, w, id) && w.engine == Operating(id, ActivateOp)
    requires AtStage(w, id, Stopping, version, recovery) && recovery.Some?
    ensures Reachable(x, w') && RollsBack(w', id, recovery, 0) && OnlyProgress(w, w') && w'.host == w.host
  {
    hide Reachable;
    w' := Ends(x, w, id, Mutated);
    w' := Saves(x, w', id, BeginRollback(ActivationFailed));
  }

  /** Only the record's jobs and desired state, the host and the engine differ. */
  predicate OnlyProgress(w: World, w': World) {
    && w' == w.(visible := w'.visible, durable := w'.visible, host := w'.host, engine := w'.engine)
    && w'.visible == w.visible.(jobs := w'.visible.jobs, desired := w'.visible.desired)
    && w'.visible.jobs.Keys == w.visible.jobs.Keys
  }

  /** The attempt is counted and the recovery image written, but the write's sync fails. */
  lemma RestoresInVain(x: Externals, w: World, id: string, meta: BackupMetadata, attempts: int) returns (w': World)
    requires Reachable(x, w) && RollsBack(w, id, Some(meta), attempts) && 0 <= attempts < MAX_RECOVERY_ATTEMPTS
    ensures Reachable(x, w') && OnlyProgress(w, w') && w'.engine == Between(id, OpEnded(RestoreOp, No))
    ensures RollsBack(w', id, Some(meta), attempts + 1) && w'.visible.desired == w.visible.desired
    ensures w'.host == Configure(w.host, RecoveryImage(meta), false).(restores := w'.host.restores)
  {
    hide Reachable, CountOf, CountUp;
    RestorableThen(x, w, id);
    w' := Saves(x, w, id, CountAttempt);
    assert MayBegin(w', id, RestoreOp);
    StepIsReachable(x, w', EngineBegin(RestoreOp));
    w' := Step(x, w', EngineBegin(RestoreOp));
    w' := WritesRecovery(x, w', id, meta);
    w' := Ends(x, w', id, No);
  }

  lemma WritesRecovery(x: Externals, w: World, id: string, meta: BackupMetadata) returns (w': World)
    requires Reachable(x, w) && w.engine == Operating(id, RestoreOp) && w.visible == w.durable && id in w.visible.jobs
    requires var r := w.visible.jobs[id].run;
             r.status == RollingBack && r.step == RestoreBackup && r.recovery == Some(meta)
    ensures Reachable(x, w') && w' == w.(host := Configure(w.host, RecoveryImage(meta), false))
  {
    hide Reachable, RecoveryImage;
    StepIsReachable(x, w, WriteRecovery(false));
    w' := Step(x, w, WriteRecovery(false));
  }

  /** The failed restore is recorded, and the engine is woken again. */
  lemma FailsRestore(x: Externals, w: World, id: string, meta: BackupMetadata, attempts: int) returns (w': World)
    requires Reachable(x, w) && RollsBack(w, id, Some(meta), attempts) && 0 <= attempts < MAX_RECOVERY_ATTEMPTS - 1
    ensures Reachable(x, w') && OnlyProgress(w, w') && RollsBack(w', id, Some(meta), attempts + 1)
    ensures w'.host == Configure(w.host, RecoveryImage(meta), false).(restores := w'.host.restores)
  {
    hide Reachable, RecoveryImage;
    w' := RestoresInVain(x, w, id, meta, attempts);
    w' := Saves(x, w', id, RecoveryFailed);
    w' := Rests(x, w');
    w' := Loads(x, w', id);
  }

  /** The third failed restore is recorded: the job is over and the service in maintenance. */
  lemma ExhaustsRestores(x: Externals, w: World, id: string, meta: BackupMetadata) returns (w': World)
    requires Reachable(x, w) && RollsBack(w, id, Some(meta), MAX_RECOVERY_ATTEMPTS - 1)
    ensures Reachable(x, w') && OnlyProgress(w, w') && w'.engine == Resting && w'.visible.desired == Maintenance
    ensures w'.host == Configure(w.host, RecoveryImage(meta), false).(restores := w'.host.restores)
  {
    hide Reachable, RecoveryImage;
    w' := RestoresInVain(x, w, id, meta, MAX_RECOVERY_ATTEMPTS - 1);
    w' := Saves(x, w', id, RecoveryFailed);
    w' := Rests(x, w');
  }

  lemma RestorableThen(x: Externals, w: World, id: string)
    requires Reachable(x, w) && id in w.visible.jobs && w.visible.jobs[id].run.status == RollingBack
    ensures var r := w.visible.jobs[id].run;
            r.recovery.Some? && w.host.slot == r.recovery && CountOf(w.host.restores, id) <= r.attempts
  {
    hide Reachable, StateValid, Extends, RecordTracks, CountOf;
    ReachableInv(x, w);
    assert IsActive(w.visible, id);
    ActiveTracks(w.visible, w.host, id);
  }

  /* ---------- A request that creates a job ---------- */

  /** Nobody stands inside the gate and no repair is published. */
  predicate GateFree(w: World) {
    w.gate == Gate(None, false, false)
  }

  /** A new creation request arrives and finds the service running and no job active. */
  lemma Arrives(x: Externals, w: World, n: nat, key: string, target: string) returns (w': World)
    requires Reachable(x, w) && n !in w.requests
    requires key !in w.visible.idempotency && w.visible.desired == Running
    ensures Reachable(x, w') && w' == w.(requests := w.requests[n := Entering(CreateRequest(key, target))])
  {
    hide Reachable, StateValid, HasActive, Inv;
    var r := CreateRequest(key, target);
    ReachableInv(x, w);
    ValidInInv(x, w);
    RunningIsIdle(x, w.visible);
    StepIsReachable(x, w, Arrive(n, r));
    w' := Step(x, w, Arrive(n, r));
    StepIsReachable(x, w', Snapshot(n));
    w' := Step(x, w', Snapshot(n));
    assert w'.requests == w.requests[n := Entering(r)];
  }

  /** It enters the gate and reads the configured version. */
  lemma Reads(x: Externals, w: World, n: nat, r: Request) returns (w': World)
    requires Reachable(x, w) && n in w.requests && w.requests[n] == Entering(r) && r.CreateRequest? && GateFree(w)
    ensures Reachable(x, w')
    ensures w' == w.(requests := w.requests[n := HoldingVersion(r, w.host.image.version)],
                     gate := Gate(Some(RequestOwns(n)), false, false))
  {
    hide Reachable, EngineMay, MayBegin, Settled, Goal, WatchMay, RequestMay, NextVisible, NextDurable, NextHost,
         WatchAfter, AfterSnapshot, RecoveryImage, Issued, HasActive, RepairDue, Acknowledged;
    w' := Locks(x, w, n, r);
    StepIsReachable(x, w', ReadVersion(n));
    w' := Step(x, w', ReadVersion(n));
    assert w'.requests == w.requests[n := HoldingVersion(r, w.host.image.version)];
  }

  /** The record with a new job. */
  function WithJob(s: RuntimeState, c: Command): RuntimeState
    requires c.CreateJob?
  {
    s.(jobs := s.jobs[c.newId := NewJob(c.key, c.target, c.current, c.newId, c.bearer)],
       idempotency := s.idempotency[c.key := c.newId], desired := Upgrading, watchdog := Suppressed(s.watchdog))
  }

  /** The command is one the store accepts from a record in the running state. */
  predicate Fresh(s: RuntimeState, c: Command) {
    && c.CreateJob? && c.key !in s.idempotency && c.key != "" && c.newId != "" && c.newId !in s.jobs
    && HexDigest(c.bearer) && OlderText(c.current, c.target) && s.desired == Running
  }

  /** Its transaction is saved and it leaves the gate. */
  lemma Creates(x: Externals, w: World, n: nat, c: Command) returns (w': World)
    requires Reachable(x, w) && Fresh(w.visible, c) && n in w.requests
    requires w.requests[n] == HoldingVersion(CreateRequest(c.key, c.target), c.current)
    ensures Reachable(x, w')
    ensures w' == w.(visible := WithJob(w.visible, c), durable := WithJob(w.visible, c), requests := w.requests - {n},
                     issued := w.issued + {(c.newId, c.bearer)}, gate := w.gate.(lock := None))
  {
    hide Reachable, Step, Enabled, Fresh;
    CreationStep(x, w, n, c);
    StepIsReachable(x, w, RequestWrite(n, c, Saved));
    w' := Step(x, w, RequestWrite(n, c, Saved));
    LeavingStep(x, w', n);
    StepIsReachable(x, w', ReleaseLock(n));
    w' := Step(x, w', ReleaseLock(n));
    assert w'.requests == w.requests - {n};
  }

  lemma CreationStep(x: Externals, w: World, n: nat, c: Command)
    requires Reachable(x, w) && Fresh(w.visible, c) && n in w.requests
    requires w.requests[n] == HoldingVersion(CreateRequest(c.key, c.target), c.current)
    ensures Enabled(w, RequestWrite(n, c, Saved))
    ensures Step(x, w, RequestWrite(n, c, Saved)) ==
            w.(visible := WithJob(w.visible, c), durable := WithJob(w.visible, c),
               issued := w.issued + {(c.newId, c.bearer)},
               requests := w.requests[n := Leaving(w.requests[n].r)])
  {
    hide Reachable, StateValid, HexDigest, OlderText, Inv, HasActive, Suppressed;
    ReachableInv(x, w);
    ValidInInv(x, w);
    RunningIsIdle(x, w.visible);
    CreationAcceptedIffFresh(x, w.visible, c);
  }

  lemma LeavingStep(x: Externals, w: World, n: nat)
    requires n in w.requests && w.requests[n].Leaving?
    ensures Enabled(w, ReleaseLock(n))
    ensures Step(x, w, ReleaseLock(n)) == w.(requests := w.requests - {n}, gate := w.gate.(lock := None))
  {
  }

  /* ---------- A request that changes the desired state ---------- */

  /** With no job active, an operator's request to run the service goes through. */
  lemma SetsRunning(x: Externals, w: World, n: nat) returns (w': World)
    requires Reachable(x, w) && n !in w.requests && GateFree(w) && !HasActive(w.visible)
    ensures Reachable(x, w')
    ensures w' == w.(visible := RunningAgain(w.visible), durable := RunningAgain(w.visible))
  {
    hide Reachable, HasActive, Step, Enabled;
    var r := DesiredRequest(Running);
    w' := GetsInside(x, w, n, r);
    RunningStep(x, w', n);
    StepIsReachable(x, w', RequestWrite(n, SetDesired(Running), Saved));
    w' := Step(x, w', RequestWrite(n, SetDesired(Running), Saved));
    LeavingStep(x, w', n);
    StepIsReachable(x, w', ReleaseLock(n));
    w' := Step(x, w', ReleaseLock(n));
    assert w'.requests == w.requests;
  }

  function RunningAgain(s: RuntimeState): RuntimeState {
    s.(desired := Running, watchdog := Suppressed(s.watchdog))
  }

  lemma GetsInside(x: Externals, w: World, n: nat, r: Request) returns (w': World)
    requires Reachable(x, w) && n !in w.requests && GateFree(w) && r.DesiredRequest?
    ensures Reachable(x, w')
    ensures w' == w.(requests := w.requests[n := Holding(r)], gate := Gate(Some(RequestOwns(n)), false, false))
  {
    hide Reachable, EngineMay, MayBegin, Settled, Goal, WatchMay, RequestMay, NextVisible, NextDurable, NextHost,
         WatchAfter, RecoveryImage, Issued, HasActive, RepairDue, Acknowledged;
    StepIsReachable(x, w, Arrive(n, r));
    w' := Step(x, w, Arrive(n, r));
    StepIsReachable(x, w', Snapshot(n));
    w' := Step(x, w', Snapshot(n));
    w' := Locks(x, w', n, r);
    assert w'.requests == w.requests[n := Holding(r)];
  }

  lemma Locks(x: Externals, w: World, n: nat, r: Request) returns (w': World)
    requires Reachable(x, w) && n in w.requests && w.requests[n] == Entering(r) && GateFree(w)
    ensures Reachable(x, w')
    ensures w' == w.(requests := w.requests[n := Holding(r)], gate := Gate(Some(RequestOwns(n)), false, false))
  {
    hide Reachable, EngineMay, MayBegin, Settled, Goal, WatchMay, RequestMay, NextVisible, NextDurable, NextHost,
         WatchAfter, AfterSnapshot, RecoveryImage, Issued, HasActive, RepairDue, Acknowledged;
    StepIsReachable(x, w, CancelRepair(n));
    w' := Step(x, w, CancelRepair(n));
    StepIsReachable(x, w', TakeLock(n));
    w' := Step(x, w', TakeLock(n));
    assert w'.requests == w.requests[n := Holding(r)];
  }

  lemma RunningStep(x: Externals, w: World, n: nat)
    requires Reachable(x, w) && n in w.requests && w.requests[n] == Holding(DesiredRequest(Running)) &&
             !HasActive(w.visible)
    ensures Enabled(w, RequestWrite(n, SetDesired(Running), Saved))
    ensures Step(x, w, RequestWrite(n, SetDesired(Running), Saved)) ==
            w.(visible := RunningAgain(w.visible), durable := RunningAgain(w.visible),
               requests := w.requests[n := Leaving(w.requests[n].r)])
  {
    hide Reachable, StateValid, Inv, HasActive, Suppressed;
    ReachableInv(x, w);
    ValidInInv(x, w);
    DesiredAcceptedIffIdle(x, w.visible, Running);
  }
}
