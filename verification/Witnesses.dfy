/**
  Runs from a fresh installation that show the weak spots of the design to be real: each
  lemma ends in a reachable state in which something has gone wrong.
 */
module Witnesses {
  import opened Wrappers
  import opened Text
  import opened Release
  import opened State
  import opened Changes
  import opened Ledger
  import opened System
  import opened Safety
  import opened Images
  import opened Runs
  import opened Acceptance
  import opened Races
  import opened Versions
  import opened Store
  import opened Start
  import opened Driving

  /** What a caller and the host contribute to a first upgrade from `image`: a fresh job and its backup. */
  predicate Upgrades(image: ImageRef, c: Command, meta: BackupMetadata) {
    && c.CreateJob? && c.current == image.version && OlderText(c.current, c.target)
    && c.key != "" && c.newId != "" && HexDigest(c.bearer)
    && Fits(meta, c.newId, image)
  }

  /** What a script of events makes of a reachable state is reachable. */
  lemma {:induction false} ScriptIsReachable(x: Externals, w: World, script: seq<Event>)
    requires Reachable(x, w) && Play(x, w, script).Some?
    ensures Reachable(x, Play(x, w, script).value)
    decreases |script|
  {
    hide Reachable, Step, Enabled;
    if script != [] {
      StepIsReachable(x, w, script[0]);
      ScriptIsReachable(x, Step(x, w, script[0]), script[1..]);
    }
  }

  /** The request's job is queued, and the engine has turned to it. */
  lemma PickedUp(x: Externals, w: World, n: nat, c: Command) returns (w': World)
    requires Reachable(x, w) && Fresh(w.visible, c) && n !in w.requests && GateFree(w) && w.engine == Resting
    requires c.current == w.host.image.version
    ensures Reachable(x, w') && FreshlyQueued(w', c.newId, DirectRelease(c.target, ""))
    ensures w' == w.(visible := WithJob(w.visible, c), durable := WithJob(w.visible, c),
                     engine := Between(c.newId, Nothing),
                     issued := w'.issued)
  {
    hide Reachable, HexDigest, OlderText;
    w' := Arrives(x, w, n, c.key, c.target);
    w' := Reads(x, w', n, CreateRequest(c.key, c.target));
    w' := Creates(x, w', n, c);
    assert w'.requests == w.requests;
    w' := Loads(x, w', c.newId);
  }

  /** The first upgrade of a fresh installation is prepared and about to stop the service. */
  lemma FirstStopping(x: Externals, image: ImageRef, clock: Instant, n: nat, c: Command, meta: BackupMetadata)
    returns (base: World, w: World)
    requires Upgrades(image, c, meta)
    ensures Reachable(x, w) && Driven(base, w, c.newId) && w.engine == Operating(c.newId, ActivateOp)
    ensures AtStage(w, c.newId, Stopping, image.version, Some(meta))
    ensures w.visible.jobs[c.newId].spec.direct == Some(DirectRelease(c.target, "")) && w.visible.desired == Upgrading
    ensures w.host == Installed(image, clock).host.(slot := Some(meta)) && w.requests == map[] && GateFree(w)
    ensures w.visible.jobs.Keys == {c.newId} && w.visible.idempotency == map[c.key := c.newId]
  {
    hide Reachable, HexDigest, OlderText, Initial, MetadataShapeValid;
    InstalledIsInitial(x, image, clock);
    StartIsReachable(x, Installed(image, clock));
    base := PickedUp(x, Installed(image, clock), n, c);
    w := Prepares(x, base, c.newId, DirectRelease(c.target, ""), meta);
    w := Stops(x, base, w, c.newId, image.version, Some(meta));
  }

  /* ---------- Jobs that end as they should not ---------- */

  /**
    A crash during migration, and then a pull that fails, leave an upgraded service behind
    whose job reports that nothing was changed and that the old version is in place.
   */
  lemma UpgradedButReportedUnchanged(
      x: Externals, image: ImageRef, clock: Instant, n: nat, c: Command, meta: BackupMetadata) returns (w: World)
    requires Upgrades(image, c, meta)
    ensures Reachable(x, w) && c.newId in w.visible.jobs && w.visible.desired == Running
    ensures var r := w.visible.jobs[c.newId].run;
            r.status == Failed && r.errorMessage == StoppedBeforeMutation && r.lastSafeVersion == image.version
    ensures w.host.image == ImageRef(c.target, "") && c.target != image.version
  {
    hide Reachable, HexDigest, OlderText, MetadataShapeValid, Inv, Play, ResumedInVain;
    var id, release := c.newId, DirectRelease(c.target, "");
    var base, w0 := FirstStopping(x, image, clock, n, c, meta);
    var w1 := WritesTarget(x, base, w0, id, release, image.version, Some(meta), true);
    var w2 := Migrates(x, base, w1, id, release, image.version, Some(meta));
    ReachableInv(x, w2);
    PullFailureAfterWrite(x, w2, id);
    var script := ResumedInVain(w2, id) + [EngineWrite(id, FailBeforeMutation(ActivationFailed, true), Saved)];
    ScriptIsReachable(x, w2, script);
    w := Play(x, w2, script).value;
    NewerIsOther(image.version, c.target);
  }

  lemma NewerIsOther(a: string, b: string)
    requires OlderText(a, b)
    ensures a != b
  {
    hide OlderText;
    OlderTextIsTotalOrder(a, b, a);
  }

  /** A crash after the third count leaves a rollback whose next count the store refuses. */
  lemma RollbackIsStuck(
      x: Externals, image: ImageRef, clock: Instant, n: nat, c: Command, meta: BackupMetadata) returns (w: World)
    requires Upgrades(image, c, meta)
    ensures Reachable(x, w) && IsActive(w.visible, c.newId) && c.newId in w.visible.jobs
    ensures var r := w.visible.jobs[c.newId].run;
            r.status == RollingBack && r.step == RestoreBackup && r.attempts == MAX_RECOVERY_ATTEMPTS
    ensures !Accepted(x, w.visible, OnJob(c.newId, CountAttempt)) && StuckAt(w, c.newId)
  {
    hide Reachable, HexDigest, OlderText, MetadataShapeValid, Inv, Play, Accepted, IsActive;
    var id, release := c.newId, DirectRelease(c.target, "");
    var base, w0 := FirstStopping(x, image, clock, n, c, meta);
    var w1 := WritesTarget(x, base, w0, id, release, image.version, Some(meta), true);
    var w2 := BeginsRollback(x, base, w1, id, image.version, Some(meta));
    var w3 := FailsRestore(x, w2, id, meta, 0);
    var w4 := FailsRestore(x, w3, id, meta, 1);
    ReachableInv(x, w4);
    ValidInInv(x, w4);
    DyingAfterThirdCount(x, w4, id, true, w4.host.image);
    var script := [EngineWrite(id, CountAttempt, Saved), Crash(true, w4.host.image, w4.host.slot)];
    ScriptIsReachable(x, w4, script);
    w := Play(x, w4, script).value;
    StillThere(w.visible, id);
  }

  /**
    Whatever image a crash may leave instead of the configured one, a job created now can
    find it configured while it pulls.
   */
  lemma UnsureJobsLoseTheirSource(x: Externals, w: World, n: nat, c: Command, meta: BackupMetadata, image: ImageRef)
    returns (w': World)
    requires Reachable(x, w) && Fresh(w.visible, c) && n !in w.requests && GateFree(w) && w.engine == Resting
    requires c.current == w.host.image.version && Fits(meta, c.newId, w.host.image) && image in w.host.kept
    ensures Reachable(x, w') && c.newId in w'.visible.jobs && w'.host.image == image
    ensures var r := w'.visible.jobs[c.newId].run;
            r.status == Pulling && r.currentVersion == w.host.image.version && r.recovery == Some(meta)
  {
    hide Reachable, HexDigest, OlderText, MetadataShapeValid;
    var w1 := PickedUp(x, w, n, c);
    var w2 := Prepares(x, w1, c.newId, DirectRelease(c.target, ""), meta);
    StepIsReachable(x, w2, Crash(true, image, w2.host.slot));
    w' := Step(x, w2, Crash(true, image, w2.host.slot));
  }

  /**
    The condition on a job's image is needed: with an image in doubt that does not agree
    with the configured one, a job created now can pull while its source is not configured.
    The backup may record either of two digests when the source is configured by tag.
   */
  lemma SureImageIsNeeded(x: Externals, w: World, n: nat, c: Command, meta: BackupMetadata, other: BackupMetadata)
    returns (w': World)
    requires Reachable(x, w) && Fresh(w.visible, c) && n !in w.requests && GateFree(w) && w.engine == Resting
    requires c.current == w.host.image.version && Fits(meta, c.newId, w.host.image) &&
             Fits(other, c.newId, w.host.image)
    requires w.host.image.digest == "" ==> meta.imageDigest != other.imageDigest
    requires !ImageSure(w.host)
    ensures Reachable(x, w') && c.newId in w'.visible.jobs && w'.visible.jobs[c.newId].run.status == Pulling
    ensures !AtSource(w'.host.image, w'.visible.jobs[c.newId].run)
  {
    hide Reachable, HexDigest, OlderText, MetadataShapeValid, Fresh;
    var i :| i in w.host.kept && !Agrees(w.host.image, i);
    var recorded := if i.digest == meta.imageDigest && w.host.image.digest == "" then other else meta;
    w' := UnsureJobsLoseTheirSource(x, w, n, c, recorded, i);
  }

  /**
    The target's image write is an error after the file was replaced, the save that would
    begin the rollback is lost, and the retried pull fails: the job ends before mutation. A
    second job starts from the version that is now configured, and when it pulls a crash
    brings the older file back.
   */
  lemma CrashUndoesImageWrite(
      x: Externals, image: ImageRef, clock: Instant, n: nat, c: Command, meta: BackupMetadata, next: Command,
      meta': BackupMetadata) returns (w: World)
    requires Upgrades(image, c, meta) && Upgrades(ImageRef(c.target, ""), next, meta')
    requires next.key != c.key && next.newId != c.newId
    ensures Reachable(x, w) && next.newId in w.visible.jobs && w.visible.jobs[next.newId].run.status == Pulling
    ensures w.host.image.version != w.visible.jobs[next.newId].run.currentVersion
  {
    hide Reachable, HexDigest, OlderText, MetadataShapeValid;
    var base, w0 := FirstStopping(x, image, clock, n, c, meta);
    var w1 := WritesTarget(x, base, w0, c.newId, DirectRelease(c.target, ""), image.version, Some(meta), false);
    w1 := LosesRollback(x, base, w1, c.newId, image.version, Some(meta));
    var w2 := GivesUp(x, base, w1, c.newId, image.version, Some(meta));
    NewerIsOther(image.version, c.target);
    w := UnsureJobsLoseTheirSource(x, w2, n, next, meta', image);
  }

  /**
    It is not enough that the last written image is the last synced one. The target's write
    and the three restores after it all replaced the file without a sync, so the recovery
    image is configured; when the operator runs the service again and a second job pulls, a
    crash can still leave the target.
   */
  lemma RestoresHideImageWrite(
      x: Externals, image: ImageRef, clock: Instant, n: nat, c: Command, meta: BackupMetadata, next: Command,
      meta': BackupMetadata) returns (w: World)
    requires Upgrades(image, c, meta) && Upgrades(RecoveryImage(meta), next, meta')
    requires next.key != c.key && next.newId != c.newId
    ensures Reachable(x, w) && next.newId in w.visible.jobs && w.visible.jobs[next.newId].run.status == Pulling
    ensures w.visible.jobs[next.newId].run.currentVersion == image.version && w.host.image == ImageRef(c.target, "")
  {
    hide Reachable, HexDigest, OlderText, MetadataShapeValid, HasActive;
    var id := c.newId;
    var base, w0 := FirstStopping(x, image, clock, n, c, meta);
    var w1 := WritesTarget(x, base, w0, id, DirectRelease(c.target, ""), image.version, Some(meta), false);
    var w2 := BeginsRollback(x, base, w1, id, image.version, Some(meta));
    w2 := FailsRestore(x, w2, id, meta, 0);
    w2 := FailsRestore(x, w2, id, meta, 1);
    var w3 := ExhaustsRestores(x, w2, id, meta);
    ReachableIdle(x, w3);
    var w4 := SetsRunning(x, w3, n);
    w := UnsureJobsLoseTheirSource(x, w4, n, next, meta', ImageRef(c.target, ""));
  }

  lemma ReachableIdle(x: Externals, w: World)
    requires Reachable(x, w) && w.visible.desired != Upgrading
    ensures !HasActive(w.visible)
  {
    hide Reachable, Inv, StateValid, HasActive, AtMostOneActive;
    ReachableInv(x, w);
    ValidInInv(x, w);
    ValidIsSingle(x, w.visible);
  }

  /** The save of the failed activation's rollback is lost, and the engine is woken again. */
  lemma LosesRollback(
      x: Externals, base: World, w: World, id: string, version: string, recovery: Option<BackupMetadata>)
    returns (w': World)
    requires Reachable(x, w) && Driven(base, w, id) && w.engine == Operating(id, ActivateOp)
    requires AtStage(w, id, Stopping, version, recovery) && recovery.Some?
    ensures Reachable(x, w') && w' == w.(engine := Between(id, Nothing))
  {
    hide Reachable, Step;
    w' := Ends(x, w, id, Mutated);
    StepIsReachable(x, w', EngineWrite(id, BeginRollback(ActivationFailed), Lost));
    w' := Step(x, w', EngineWrite(id, BeginRollback(ActivationFailed), Lost));
    LostSave(x, w.(engine := Between(id, OpEnded(ActivateOp, Mutated))), id, BeginRollback(ActivationFailed));
    w' := Rests(x, w');
    w' := Loads(x, w', id);
  }

  lemma LostSave(x: Externals, w: World, id: string, e: JobEdit)
    requires EngineMay(w, id, e)
    ensures Step(x, w, EngineWrite(id, e, Lost)) == w.(engine := AfterEdit(w.engine, e, false))
  {
    hide EngineMay, Accepted, Effect;
  }

  /** The activation that is tried again gives up at its pull. */
  lemma GivesUp(
      x: Externals, base: World, w: World, id: string, version: string, recovery: Option<BackupMetadata>)
    returns (w': World)
    requires Reachable(x, w) && Driven(base, w, id) && Held(w.engine, id)
    requires AtStage(w, id, Stopping, version, recovery)
    ensures Reachable(x, w') && w' == w.(visible := w'.visible, durable := w'.visible, engine := Resting)
    ensures w'.visible == w.visible.(jobs := w'.visible.jobs, desired := Running)
    ensures w'.visible.jobs.Keys == w.visible.jobs.Keys
  {
    hide Reachable;
    w' := Begins(x, w, id, ActivateOp);
    w' := Saves(x, w', id, Progress(Pulling));
    w' := Ends(x, w', id, No);
    w' := Saves(x, w', id, FailBeforeMutation(ActivationFailed, true));
    w' := Rests(x, w');
  }

  /* ---------- A stale job ---------- */

  /**
    A request sees an idle service, waits for the gate, and reads the version inside it while
    another request's job is running. The job succeeds, and the request then creates a job
    for the version that has just been replaced.
   */
  lemma StaleJobIsCreated(
      x: Externals, image: ImageRef, clock: Instant, n: nat, m: nat, c: Command, meta: BackupMetadata, late: Command)
    returns (w: World)
    requires Upgrades(image, c, meta) && n != m
    requires late.CreateJob? && late.current == image.version && OlderText(late.current, late.target)
    requires late.key != "" && late.newId != "" && HexDigest(late.bearer) && late.key != c.key && late.newId != c.newId
    ensures Reachable(x, w) && late.newId in w.visible.jobs && Stale(w, late.newId)
  {
    hide Reachable, HexDigest, OlderText, MetadataShapeValid, Initial;
    var id, release := c.newId, DirectRelease(c.target, "");
    var base := ReadsBehindJob(x, image, clock, n, m, c, late);
    w := Prepares(x, base, id, release, meta);
    w := Stops(x, base, w, id, image.version, Some(meta));
    w := WritesTarget(x, base, w, id, release, image.version, Some(meta), true);
    w := Migrates(x, base, w, id, release, image.version, Some(meta));
    w := ReachesHealthCheck(x, base, w, id, release, image.version, Some(meta));
    w := Succeeds(x, base, w, id, release, image.version, Some(meta));
    w := Creates(x, w, n, late);
    NewerIsOther(image.version, c.target);
  }

  /** The late request has read the version, behind the job of the other one. */
  lemma ReadsBehindJob(x: Externals, image: ImageRef, clock: Instant, n: nat, m: nat, c: Command, late: Command)
    returns (w: World)
    requires c.CreateJob? && c.current == image.version && OlderText(c.current, c.target)
    requires c.key != "" && c.newId != "" && HexDigest(c.bearer) && n != m && late.CreateJob?
    ensures Reachable(x, w) && FreshlyQueued(w, c.newId, DirectRelease(c.target, ""))
    ensures w.host == Installed(image, clock).host && w.visible == WithJob(NEW_STATE, c)
    ensures w.requests == map[n := HoldingVersion(CreateRequest(late.key, late.target), image.version)]
  {
    hide Reachable, HexDigest, OlderText, Initial;
    InstalledIsInitial(x, image, clock);
    StartIsReachable(x, Installed(image, clock));
    w := Arrives(x, Installed(image, clock), n, late.key, late.target);
    w := PickedUp(x, w, m, c);
    w := Reads(x, w, n, CreateRequest(late.key, late.target));
  }

  /* ---------- The watchdog ---------- */

  /** A failed observation is kept; the third in a row asks for a repair. */
  lemma ObservesFailure(x: Externals, w: World) returns (w': World)
    requires Reachable(x, w) && w.watch == Idle && w.visible.desired == Running
    requires WatchdogValid(AfterFailedObservation(w.visible.watchdog, w.clock))
    ensures Reachable(x, w')
    ensures var s := w.visible.(watchdog := AfterFailedObservation(w.visible.watchdog, w.clock));
            w' == w.(visible := s, durable := s,
                     watch := if RepairDue(w.visible.watchdog, w.clock) then Rechecking(w.clock) else Idle)
  {
    hide Reachable, StateValid, Inv, WatchdogValid, AfterFailedObservation, RepairDue;
    StepIsReachable(x, w, WatchLoad);
    w' := Step(x, w, WatchLoad);
    StepIsReachable(x, w', WatchObserved(false));
    w' := Step(x, w', WatchObserved(false));
    ReachableInv(x, w');
    ValidInInv(x, w');
    WatchdogAcceptedIffValid(x, w'.visible, ObservedFailure(w.clock));
    StepIsReachable(x, w', WatchWrite(ObservedFailure(w.clock), Saved));
    w' := Step(x, w', WatchWrite(ObservedFailure(w.clock), Saved));
  }

  /** Three failed observations on a fresh installation take the watchdog to the lock. */
  lemma TakesLock(x: Externals, image: ImageRef, clock: Instant) returns (w: World)
    requires clock > 0
    ensures Reachable(x, w) && w.watch == Locked(clock) && w.visible.desired == Running && w.requests == map[]
    ensures w.visible.watchdog.attempts == [clock]
  {
    hide Reachable, Initial, Inv;
    InstalledIsInitial(x, image, clock);
    StartIsReachable(x, Installed(image, clock));
    w := ObservesFailure(x, Installed(image, clock));
    w := ObservesFailure(x, w);
    w := ObservesFailure(x, w);
    StepIsReachable(x, w, WatchRecheck);
    w := Step(x, w, WatchRecheck);
    StepIsReachable(x, w, WatchLock);
    w := Step(x, w, WatchLock);
  }

  /** A cancellation falls between the lock and the published session: the repair runs all the same. */
  lemma RepairOutlivesCancellation(x: Externals, image: ImageRef, clock: Instant, n: nat) returns (w: World)
    requires clock > 0
    ensures Reachable(x, w) && w.watch.Repairing? && !w.gate.cancelled
    ensures n in w.requests && w.requests[n].Queueing? && !Enabled(w, TakeLock(n))
  {
    hide Reachable, Inv, Play, GateHeld;
    var w2 := LockedWithRequest(x, image, clock, n);
    ReachablePublishes(x, w2);
    CancellationCanMiss(x, w2, n);
    var script := [CancelRepair(n), WatchPublish, WatchReload];
    ScriptIsReachable(x, w2, script);
    w := Play(x, w2, script).value;
  }

  /** The watchdog has the lock, and a request to change the desired state is about to enter the gate. */
  lemma LockedWithRequest(x: Externals, image: ImageRef, clock: Instant, n: nat) returns (w: World)
    requires clock > 0
    ensures Reachable(x, w) && w.watch == Locked(clock) && w.visible.desired == Running
    ensures w.visible.watchdog.attempts == [clock] && w.requests == map[n := Entering(DesiredRequest(Maintenance))]
  {
    hide Reachable;
    var r := DesiredRequest(Maintenance);
    w := TakesLock(x, image, clock);
    StepIsReachable(x, w, Arrive(n, r));
    w := Step(x, w, Arrive(n, r));
    StepIsReachable(x, w, Snapshot(n));
    w := Step(x, w, Snapshot(n));
  }

  /**
    A session cancelled before its reload: the reload fails, the round is over without a
    repair, and the attempt stays spent.
   */
  lemma AttemptIsSpentInVain(x: Externals, image: ImageRef, clock: Instant, n: nat) returns (cancelled: World, w: World)
    requires clock > 0
    ensures Reachable(x, cancelled) && cancelled.watch == WatchPc.Published(clock) && cancelled.gate.cancelled
    ensures Reachable(x, w) && w.watch == Idle && w.visible == cancelled.visible &&
            w.visible.watchdog.attempts == [clock]
    ensures Play(x, cancelled, [WatchLoadFailed, WatchRelease]) == Some(w)
  {
    hide Reachable;
    var w0 := LockedWithRequest(x, image, clock, n);
    StepIsReachable(x, w0, WatchPublish);
    var w1 := Step(x, w0, WatchPublish);
    StepIsReachable(x, w1, CancelRepair(n));
    cancelled := Step(x, w1, CancelRepair(n));
    w := GivesUpRound(x, cancelled);
  }

  lemma GivesUpRound(x: Externals, w: World) returns (w': World)
    requires Reachable(x, w) && w.watch.Published?
    ensures Reachable(x, w') && w' == w.(watch := Idle, gate := Gate(None, false, false))
    ensures Play(x, w, [WatchLoadFailed, WatchRelease]) == Some(w')
  {
    hide Reachable, Play;
    StepIsReachable(x, w, WatchLoadFailed);
    var w1 := Step(x, w, WatchLoadFailed);
    StepIsReachable(x, w1, WatchRelease);
    w' := Step(x, w1, WatchRelease);
    PlayOne(x, w, WatchLoadFailed, [WatchRelease]);
    assert [WatchLoadFailed] + [WatchRelease] == [WatchLoadFailed, WatchRelease];
    PlayOne(x, w1, WatchRelease, []);
    assert [WatchRelease] + [] == [WatchRelease];
    NothingLeft(x, w');
  }

  lemma ReachablePublishes(x: Externals, w: World)
    requires Reachable(x, w)
    ensures PublishedInside(w) && GateHeld(w)
  {
    hide Initial, StepAt, PublishedInside, GateHeld;
    var worlds, events :| RunEndsIn(x, worlds, events, w);
    RunPublishes(x, worlds, events, |worlds| - 1);
  }

  /**
    A job is created while a healthy observation is on its way into the record, and the
    observation undoes the suppression.
   */
  lemma SuppressionIsLost(
      x: Externals, image: ImageRef, clock: Instant, n: nat, c: Command)
    returns (w: World, e: Event)
    requires c.CreateJob? && c.current == image.version && OlderText(c.current, c.target)
    requires c.key != "" && c.newId != "" && HexDigest(c.bearer)
    ensures Reachable(x, w) && Enabled(w, e) && BlindHealthyWrite(x, w, e)
    ensures SuppressedUnlessRunning(w.visible) && !SuppressedUnlessRunning(Step(x, w, e).visible)
  {
    hide Reachable, HexDigest, OlderText, Initial, Inv, StateValid;
    var start := Installed(image, clock);
    InstalledIsInitial(x, image, clock);
    StartIsReachable(x, start);
    StepIsReachable(x, start, WatchLoad);
    w := Step(x, start, WatchLoad);
    StepIsReachable(x, w, WatchObserved(true));
    w := Step(x, w, WatchObserved(true));
    w := PickedUp(x, w, n, c);
    ReachableInv(x, w);
    ValidInInv(x, w);
    WatchdogAcceptedIffValid(x, w.visible, ObservedHealthy(clock));
    e := WatchWrite(ObservedHealthy(clock), Saved);
  }
}
