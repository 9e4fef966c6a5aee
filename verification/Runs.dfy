/**
  Runs of the updater: any interleaving of its threads, with any save outcome and any
  crash, from a host where at most one job is queued. The theorems hold in every state of
  every run.
 */
module Runs {
  import opened Wrappers
  import opened Text
  import opened Release
  import opened State
  import opened Changes
  import opened Ledger
  import opened System
  import opened Safety
  import opened Images

  /** A direct job on its way to the target is leaving an older version. */
  predicate AimsHigher(j: Job) {
    j.spec.direct.Some? && (j.run.status == Queued || Rank(j.run.status) >= 0) ==>
      OlderText(j.run.currentVersion, j.spec.targetVersion)
  }

  /** The updater has just started: nothing is half done, and an unfinished job is at most queued. */
  ghost predicate Initial(x: Externals, w: World) {
    && StateValid(x, w.visible) && w.durable == w.visible
    && w.host.image in w.host.kept && w.host.settled && w.host.restores == map[] && w.host.restarts == map[]
    && w.gate == Gate(None, false, false) && w.engine == Resting && w.watch == Idle && w.requests == map[]
    && w.issued == {}
    && (forall id :: id in w.visible.jobs && IsActive(w.visible, id) ==>
          && var r := w.visible.jobs[id].run;
          && r.status == Queued && Reports(r) && r.attempts == 0 && r.completedSteps == STEPS_PER_HOP * r.currentHop
          && AimsHigher(w.visible.jobs[id]))
  }

  /** The events of a run and the worlds between them. */
  ghost predicate IsRun(x: Externals, worlds: seq<World>, events: seq<Event>) {
    && |worlds| == |events| + 1
    && Initial(x, worlds[0])
    && forall k :: 0 <= k < |events| ==> StepAt(x, worlds, events, k)
  }

  ghost predicate StepAt(x: Externals, worlds: seq<World>, events: seq<Event>, k: nat)
    requires k < |events| && |worlds| == |events| + 1
  {
    Enabled(worlds[k], events[k]) && worlds[k + 1] == Step(x, worlds[k], events[k])
  }

  lemma RunStep(x: Externals, worlds: seq<World>, events: seq<Event>, k: nat)
    requires IsRun(x, worlds, events) && k < |events|
    ensures |worlds| == |events| + 1 && StepAt(x, worlds, events, k)
  {
    hide Step, Enabled, Initial;
  }

  lemma RunIsLong(x: Externals, worlds: seq<World>, events: seq<Event>)
    requires IsRun(x, worlds, events)
    ensures |worlds| == |events| + 1
  {
    hide Initial, StepAt;
  }

  lemma InitialInv(x: Externals, w: World)
    requires Initial(x, w)
    ensures Inv(x, w)
  {
    hide StateValid, Extends;
    ExtendsItself(w.visible);
    forall id | id in w.visible.jobs && IsActive(w.visible, id) ensures JobTracks(w.visible, w.host, id) {
    }
  }

  /** The invariant holds throughout every run. */
  lemma {:induction false} RunKeepsInv(x: Externals, worlds: seq<World>, events: seq<Event>, k: nat)
    requires IsRun(x, worlds, events) && k < |worlds|
    ensures Inv(x, worlds[k])
  {
    hide Inv, Initial, Step, Enabled;
    if k == 0 {
      InitialInv(x, worlds[0]);
    } else {
      RunKeepsInv(x, worlds, events, k - 1);
      assert StepAt(x, worlds, events, k - 1);
      StepKeepsInv(x, worlds[k - 1], events[k - 1]);
    }
  }

  lemma RunExtends(x: Externals, worlds: seq<World>, events: seq<Event>, e: Event)
    requires IsRun(x, worlds, events) && Enabled(worlds[|worlds| - 1], e)
    ensures IsRun(x, worlds + [Step(x, worlds[|worlds| - 1], e)], events + [e])
  {
    hide Initial, Step, Enabled;
    var more, es := worlds + [Step(x, worlds[|worlds| - 1], e)], events + [e];
    forall k | 0 <= k < |es| ensures StepAt(x, more, es, k) {
      if k < |events| {
        assert StepAt(x, worlds, events, k);
      }
    }
  }

  /* ---------- Reachable states ---------- */

  ghost predicate Reachable(x: Externals, w: World) {
    exists worlds, events :: RunEndsIn(x, worlds, events, w)
  }

  ghost predicate RunEndsIn(x: Externals, worlds: seq<World>, events: seq<Event>, w: World) {
    IsRun(x, worlds, events) && worlds[|worlds| - 1] == w
  }

  lemma StartIsReachable(x: Externals, w: World)
    requires Initial(x, w)
    ensures Reachable(x, w)
  {
    hide Initial;
    assert RunEndsIn(x, [w], [], w);
  }

  /** What an event makes of a reachable state is reachable. */
  lemma StepIsReachable(x: Externals, w: World, e: Event)
    requires Reachable(x, w) && Enabled(w, e)
    ensures Reachable(x, Step(x, w, e))
  {
    hide IsRun, Step, Enabled;
    var worlds, events :| RunEndsIn(x, worlds, events, w);
    RunExtends(x, worlds, events, e);
    assert RunEndsIn(x, worlds + [Step(x, w, e)], events + [e], Step(x, w, e));
  }

  lemma ReachableInv(x: Externals, w: World)
    requires Reachable(x, w)
    ensures Inv(x, w)
  {
    hide Initial, StepAt, Inv;
    var worlds, events :| RunEndsIn(x, worlds, events, w);
    RunKeepsInv(x, worlds, events, |worlds| - 1);
  }

  /* ---------- Theorems about every state ---------- */

  /**
    A watchdog repair and an engine operation on the host never overlap, and no other
    thread is inside the gate during the repair.
   */
  lemma RepairNeverOverlaps(x: Externals, worlds: seq<World>, events: seq<Event>, k: nat)
    requires IsRun(x, worlds, events) && k < |worlds| && worlds[k].watch.Repairing?
    ensures !worlds[k].engine.Operating?
    ensures worlds[k].visible.desired == Running && !HasActive(worlds[k].visible)
    ensures forall n :: n in worlds[k].requests ==> !Gated(worlds[k].requests[n])
  {
    hide StateValid, IsRun, IsActive;
    RunKeepsInv(x, worlds, events, k);
    var w := worlds[k];
    if w.engine.Operating? {
      OnlyActive(x, w.visible, w.engine.id);
      assert false;
    }
    RunningIsIdle(x, w.visible);
  }

  /** The record as the process sees it, or as a crash would leave it. */
  function Copy(w: World, afterCrash: bool): RuntimeState {
    if afterCrash then w.durable else w.visible
  }

  /**
    From pulling through the health check, and throughout a rollback, the job's recovery
    point is its own, is for the version it started from, and is the committed backup: the
    restore's comparison with the slot succeeds.
   */
  lemma RollbackFindsItsBackup(
      x: Externals, worlds: seq<World>, events: seq<Event>, k: nat, afterCrash: bool, id: string)
    requires IsRun(x, worlds, events) && k < |worlds|
    requires id in Copy(worlds[k], afterCrash).jobs
    requires var r := Copy(worlds[k], afterCrash).jobs[id].run;
             Rank(r.status) >= Rank(Pulling) || r.status == RollingBack
    ensures var r := Copy(worlds[k], afterCrash).jobs[id].run;
            && r.recovery.Some? && MetadataShapeValid(r.recovery.value)
            && r.recovery.value.jobId == id && r.recovery.value.version == r.currentVersion
            && worlds[k].host.slot == r.recovery && worlds[k].host.settled
  {
    hide StateValid, IsRun, MetadataShapeValid;
    RunKeepsInv(x, worlds, events, k);
    var s := Copy(worlds[k], afterCrash);
    assert IsActive(s, id);
    ActiveTracks(s, worlds[k].host, id);
    ValidExecution(x, s, id);
  }

  /** A crash could not take the configured image away when the job came on record, or at the start. */
  ghost predicate SureAtCreation(worlds: seq<World>, k: nat, id: string)
    requires k < |worlds|
  {
    if k == 0 || id !in worlds[k - 1].visible.jobs then ImageSure(worlds[k].host)
    else SureAtCreation(worlds, k - 1, id)
  }

  /**
    The configured image follows the persisted phase, whichever copy of the record and
    whatever version of the environment file a crash leaves: the target from migrating on,
    the recovery image once a restore is recorded. Before that the image is the source's,
    or in stopping and restoring one of the two, when every image a crash could leave
    agreed with the configured one as the job came on record.
   */
  lemma ImageFollowsPhase(
      x: Externals, worlds: seq<World>, events: seq<Event>, k: nat, lostRecord: bool, image: ImageRef, id: string)
    requires IsRun(x, worlds, events) && k < |worlds| && image in worlds[k].host.kept
    requires id in Copy(worlds[k], lostRecord).jobs
    ensures id in worlds[k].visible.jobs && worlds[k].host.image in worlds[k].host.kept
    ensures var s := Copy(worlds[k], lostRecord);
            var r, goal := s.jobs[id].run, Goal(s, s.jobs[id]);
            && (r.status == Migrating || r.status == Starting || r.status == HealthCheck ==> image == goal)
            && (r.status == RollingBack && r.step != RestoreBackup ==>
                  r.recovery.Some? && image == RecoveryImage(r.recovery.value) && image.version == r.currentVersion)
            && (SureAtCreation(worlds, k, id) ==>
                  && (r.status == Pulling ==> AtSource(image, r))
                  && (r.status == Stopping || (r.status == RollingBack && r.step == RestoreBackup) ==>
                        AtSource(image, r) || image == goal))
  {
    hide StateValid, IsRun, Goal, AtSource, SureAtCreation;
    RunKeepsInv(x, worlds, events, k);
    var s := Copy(worlds[k], lostRecord);
    if IsActive(s, id) {
      ActiveTracks(s, worlds[k].host, id);
    }
    if SureAtCreation(worlds, k, id) {
      SureJobsAreSourced(x, worlds, events, k, id);
    }
  }

  lemma {:induction false} SureJobsAreSourced(x: Externals, worlds: seq<World>, events: seq<Event>, k: nat, id: string)
    requires IsRun(x, worlds, events) && k < |worlds| && id in worlds[k].visible.jobs && SureAtCreation(worlds, k, id)
    ensures JobSourced(worlds[k], id)
  {
    hide Step, Enabled, StateValid, RecordInv, Inv, Sourced;
    if k == 0 {
      QueuedIsSourced(x, worlds[0], id);
    } else {
      var w, w' := worlds[k - 1], worlds[k];
      RunKeepsInv(x, worlds, events, k - 1);
      InvGivesRecordInv(x, w);
      assert StepAt(x, worlds, events, k - 1);
      if id in w.visible.jobs {
        SureJobsAreSourced(x, worlds, events, k - 1, id);
      } else {
        ArrivalKeepsImages(x, w, events[k - 1], id);
      }
      StepKeepsSource(x, w, events[k - 1], id);
    }
  }

  lemma QueuedIsSourced(x: Externals, w: World, id: string)
    requires Initial(x, w) && id in w.visible.jobs && ImageSure(w.host)
    ensures JobSourced(w, id)
  {
    hide StateValid, Target;
    if !IsActive(w.visible, id) {
      IdleIsSourced(w.host, Goal(w.visible, w.visible.jobs[id]), w.visible.jobs[id].run);
    }
  }

  /** A job comes on record through a transaction, which leaves the images alone. */
  lemma ArrivalKeepsImages(x: Externals, w: World, e: Event, id: string)
    requires RecordInv(x, w) && Enabled(w, e) && id !in w.visible.jobs && id in Step(x, w, e).visible.jobs
    ensures Step(x, w, e).host.image == w.host.image && Step(x, w, e).host.kept == w.host.kept
  {
    hide StateValid, RecordTracks, RestoresBounded, Step, Write, EngineMay, Settled, MayBegin, WatchMay, RequestMay,
         NextHost;
    StepRecord(x, w, e);
    if Writes(e) {
      NextHostImages(x, w, ChangeOf(e), OutcomeOf(e));
      WriteHost(x, w, ChangeOf(e), OutcomeOf(e));
    } else if e.Crash? {
      CrashStep(x, w, e);
      assert false;
    }
  }

  /**
    While a job is active its record announces the service as running exactly while it is
    queued, validating or pulling, names the step it is in, and calls the version it
    started from safe.
   */
  lemma RecordFollowsPhase(
      x: Externals, worlds: seq<World>, events: seq<Event>, k: nat, afterCrash: bool, id: string)
    requires IsRun(x, worlds, events) && k < |worlds|
    requires IsActive(Copy(worlds[k], afterCrash), id)
    ensures id in Copy(worlds[k], afterCrash).jobs && Reports(Copy(worlds[k], afterCrash).jobs[id].run)
  {
    hide StateValid, IsRun;
    RunKeepsInv(x, worlds, events, k);
    ActiveTracks(Copy(worlds[k], afterCrash), worlds[k].host, id);
  }

  /** Completed steps count whole hops and the phases of the current one. */
  lemma StepsFollowPhase(
      x: Externals, worlds: seq<World>, events: seq<Event>, k: nat, afterCrash: bool, id: string)
    requires IsRun(x, worlds, events) && k < |worlds|
    requires id in Copy(worlds[k], afterCrash).jobs
    requires Rank(Copy(worlds[k], afterCrash).jobs[id].run.status) >= 0
    ensures var r := Copy(worlds[k], afterCrash).jobs[id].run;
            r.completedSteps == STEPS_PER_HOP * r.currentHop + Rank(r.status) && r.attempts == 0
  {
    hide StateValid, IsRun;
    RunKeepsInv(x, worlds, events, k);
    var s := Copy(worlds[k], afterCrash);
    assert IsActive(s, id);
    ActiveTracks(s, worlds[k].host, id);
  }

  /** Jobs and idempotency keys name each other, and at most one job is active. */
  lemma RecordStaysConsistent(x: Externals, worlds: seq<World>, events: seq<Event>, k: nat, afterCrash: bool)
    requires IsRun(x, worlds, events) && k < |worlds|
    ensures WellKeyed(Copy(worlds[k], afterCrash)) && AtMostOneActive(Copy(worlds[k], afterCrash))
    ensures Copy(worlds[k], afterCrash).desired == Upgrading <==> HasActive(Copy(worlds[k], afterCrash))
  {
    hide IsRun, StateValid, HasActive, AtMostOneActive, WellKeyed;
    RunKeepsInv(x, worlds, events, k);
    ValidIsWellKeyed(x, Copy(worlds[k], afterCrash));
    ValidIsSingle(x, Copy(worlds[k], afterCrash));
  }

  lemma ValidIsSingle(x: Externals, s: RuntimeState)
    requires StateValid(x, s)
    ensures AtMostOneActive(s) && (s.desired == Upgrading <==> HasActive(s))
  {
    hide JobValid, PlanValid, DiscoveryValid;
  }

  /** A finished job is complete, and a success has reached its target without error. */
  predicate FinishedProperly(spec: JobSpec, r: JobRun) {
    && (r.status in {Succeeded, Failed, RolledBack} ==> r.step == Complete)
    && (r.status == Failed ==> r.errorCode != NoError)
    && (r.status == Succeeded ==>
          && r.available && r.errorCode == NoError && r.errorMessage == NoMessage
          && r.currentHop == spec.totalHops && r.completedSteps == spec.totalSteps
          && r.currentVersion == spec.targetVersion)
  }

  /** An unfinished job has a plausible place among its hops and steps. */
  predicate PlacedProperly(spec: JobSpec, r: JobRun) {
    && 0 <= r.completedSteps <= spec.totalSteps && 0 <= r.attempts <= 3
    && (r.status !in {Succeeded, Failed, RolledBack} ==>
          && r.step != NoStep && spec.totalHops >= 1 && spec.totalSteps == 7 * spec.totalHops
          && 0 <= r.currentHop <= spec.totalHops
          && (r.currentHop == spec.totalHops ==> r.status == RollingBack || r.status == Restarting))
    && (r.status == RollingBack ==> r.recovery.Some?) && (r.status == Restarting ==> r.step == Restart)
    && (r.recovery.Some? ==> MetadataShapeValid(r.recovery.value) && r.recovery.value.jobId == spec.id)
  }

  /** A job is for its direct release, or stands at a version of its plan's chain. */
  predicate AimsProperly(s: RuntimeState, spec: JobSpec, r: JobRun) {
    if spec.direct.Some? then
      && spec.targetVersion == spec.direct.value.version && spec.planHash == "" && spec.totalHops == 1
      && ParseVersion(r.currentVersion).Some? && ParseVersion(spec.targetVersion).Some?
      && (r.currentVersion == spec.targetVersion || OlderText(r.currentVersion, spec.targetVersion))
    else
      && spec.planHash in s.plans
      && var plan := s.plans[spec.planHash];
      && spec.targetVersion == plan.manifest.version && spec.manifestDigest == plan.manifestDigest
      && spec.totalHops == |plan.chain| && 0 <= r.currentHop <= |plan.chain|
      && r.currentVersion ==
         if r.currentHop == 0 then plan.currentVersion else plan.chain[r.currentHop - 1].manifest.version
  }

  /** In every state, in memory and on disk, every job's record makes sense. */
  lemma RecordsMakeSense(x: Externals, worlds: seq<World>, events: seq<Event>, k: nat, afterCrash: bool, id: string)
    requires IsRun(x, worlds, events) && k < |worlds| && id in Copy(worlds[k], afterCrash).jobs
    ensures var s, j := Copy(worlds[k], afterCrash), Copy(worlds[k], afterCrash).jobs[id];
            && id != "" && j.spec.id == id && j.spec.key != "" && !j.run.status.UnknownStatus?
            && j.bearers != [] && (forall n :: 0 <= n < |j.bearers| ==> HexDigest(j.bearers[n]))
            && FinishedProperly(j.spec, j.run) && PlacedProperly(j.spec, j.run) && AimsProperly(s, j.spec, j.run)
  {
    hide IsRun, StateValid, FinishedProperly, PlacedProperly, AimsProperly, HexDigest;
    RunKeepsInv(x, worlds, events, k);
    ValidMakesSense(x, Copy(worlds[k], afterCrash), id);
  }

  lemma ValidMakesSense(x: Externals, s: RuntimeState, id: string)
    requires StateValid(x, s) && id in s.jobs
    ensures var j := s.jobs[id];
            && id != "" && j.spec.id == id && j.spec.key != "" && !j.run.status.UnknownStatus?
            && j.bearers != [] && (forall n :: 0 <= n < |j.bearers| ==> HexDigest(j.bearers[n]))
            && FinishedProperly(j.spec, j.run) && PlacedProperly(j.spec, j.run) && AimsProperly(s, j.spec, j.run)
  {
    hide DiscoveryValid, PlanValid, WatchdogValid, HexDigest, HasActive, AtMostOneActive, ExecutionValid, TargetValid,
         FinishedProperly, PlacedProperly, AimsProperly;
    var j := s.jobs[id];
    assert JobValid(s.plans, s.idempotency, id, j);
    ExecutionMakesSense(j.spec, j.run);
    TargetMakesSense(s, j.spec, j.run);
  }

  lemma ExecutionMakesSense(spec: JobSpec, r: JobRun)
    requires ExecutionValid(spec, r) && !r.status.UnknownStatus?
    ensures FinishedProperly(spec, r) && PlacedProperly(spec, r)
  {
    hide MetadataShapeValid;
  }

  lemma TargetMakesSense(s: RuntimeState, spec: JobSpec, r: JobRun)
    requires TargetValid(s.plans, spec, r)
    ensures AimsProperly(s, spec, r)
  {
    hide ParseVersion, OlderText;
    OlderTextIsTotalOrder(r.currentVersion, spec.targetVersion, "");
  }

  /* ---------- Theorems about whole runs ---------- */

  /** Jobs, keys and tokens that reached the disk stay there for the rest of the run. */
  lemma {:induction false} RecordOnlyGrows(x: Externals, worlds: seq<World>, events: seq<Event>, i: nat, j: nat)
    requires IsRun(x, worlds, events) && i <= j < |worlds|
    ensures Extends(worlds[i].durable, worlds[j].durable)
    ensures Extends(worlds[i].durable, worlds[j].visible)
    decreases j - i
  {
    hide Initial, Step, Enabled, StateValid, Extends;
    RunKeepsInv(x, worlds, events, j);
    if i == j {
      ExtendsItself(worlds[i].durable);
    } else {
      RecordOnlyGrows(x, worlds, events, i, j - 1);
      RunKeepsInv(x, worlds, events, j - 1);
      assert StepAt(x, worlds, events, j - 1);
      StepKeepsInv(x, worlds[j - 1], events[j - 1]);
      ExtendsTransitive(worlds[i].durable, worlds[j - 1].durable, worlds[j].durable);
    }
    ExtendsTransitive(worlds[i].durable, worlds[j].durable, worlds[j].visible);
  }

  /** A token handed to a caller is accepted for its job for the rest of the run, crashes included. */
  lemma TokensStayAccepted(
      x: Externals, worlds: seq<World>, events: seq<Event>, i: nat, j: nat, afterCrash: bool, id: string, hash: string)
    requires IsRun(x, worlds, events) && i <= j < |worlds| && (id, hash) in worlds[i].issued
    ensures id in Copy(worlds[j], afterCrash).jobs
    ensures hash in Copy(worlds[j], afterCrash).jobs[id].bearers
  {
    hide IsRun, StateValid;
    RunKeepsInv(x, worlds, events, i);
    RecordOnlyGrows(x, worlds, events, i, j);
    var s := worlds[i].durable;
    assert id in s.jobs && hash in s.jobs[id].bearers by {
      assert (id, hash).0 == id && (id, hash).1 == hash;
    }
    assert SameJob(s.jobs[id], Copy(worlds[j], afterCrash).jobs[id]);
  }

  /** How many restores of the job's backup began among the first `k` events. */
  ghost function RestoresBegun(worlds: seq<World>, events: seq<Event>, k: nat, id: string): nat
    requires k <= |events| && |worlds| == |events| + 1
  {
    if k == 0 then 0
    else RestoresBegun(worlds, events, k - 1, id) +
         if events[k - 1] == EngineBegin(RestoreOp) && Held(worlds[k - 1].engine, id) then 1 else 0
  }

  lemma {:induction false} RestoresAreCounted(x: Externals, worlds: seq<World>, events: seq<Event>, k: nat, id: string)
    requires IsRun(x, worlds, events) && k < |worlds|
    ensures RestoresBegun(worlds, events, k, id) == CountOf(worlds[k].host.restores, id)
  {
    hide Step, StateValid, EngineMay, MayBegin;
    if k > 0 {
      RestoresAreCounted(x, worlds, events, k - 1, id);
      assert StepAt(x, worlds, events, k - 1);
      RestoreCounterStep(x, worlds[k - 1], events[k - 1]);
    }
  }

  /**
    However often the process crashes, a job's backup is restored at most three times, and
    every restore is already counted in the attempts the disk holds when it begins.
   */
  lemma AtMostThreeRestores(x: Externals, worlds: seq<World>, events: seq<Event>, k: nat, id: string)
    requires IsRun(x, worlds, events) && k < |events|
    ensures RestoresBegun(worlds, events, k + 1, id) <= MAX_RECOVERY_ATTEMPTS
    ensures events[k] == EngineBegin(RestoreOp) && Held(worlds[k].engine, id) ==>
              && id in worlds[k].durable.jobs
              && RestoresBegun(worlds, events, k + 1, id) <= worlds[k].durable.jobs[id].run.attempts
  {
    hide Step, StateValid, EngineMay, MayBegin, Initial, Extends, RecordTracks;
    RestoresAreCounted(x, worlds, events, k, id);
    RestoresAreCounted(x, worlds, events, k + 1, id);
    RunKeepsInv(x, worlds, events, k + 1);
    assert StepAt(x, worlds, events, k);
    RestoreCounterStep(x, worlds[k], events[k]);
  }

  /** How many restarts of the job's service began since its restart was last accepted. */
  ghost function RestartsBegun(x: Externals, worlds: seq<World>, events: seq<Event>, k: nat, id: string): nat
    requires k <= |events| && |worlds| == |events| + 1
  {
    if k == 0 then 0
    else if RestartAccepted(x, worlds[k - 1], events[k - 1], id) then 0
    else RestartsBegun(x, worlds, events, k - 1, id) +
         if events[k - 1] == EngineBegin(RestartOp) && Held(worlds[k - 1].engine, id) then 1 else 0
  }

  predicate RestartAccepted(x: Externals, w: World, e: Event, id: string) {
    e.RequestWrite? && e.c.RestartJob? && e.c.id == id && e.o != Lost && Accepted(x, w.visible, FromApi(e.c))
  }

  lemma RestartCounterStep(x: Externals, w: World, e: Event, id: string)
    requires Enabled(w, e)
    ensures CountOf(Step(x, w, e).host.restarts, id) ==
            if RestartAccepted(x, w, e, id) then 0
            else CountOf(w.host.restarts, id) + if e == EngineBegin(RestartOp) && Held(w.engine, id) then 1 else 0
    ensures e == EngineBegin(RestartOp) && Held(w.engine, id) ==>
              Settled(w, id) && CountOf(w.host.restarts, id) < w.visible.jobs[id].run.attempts
  {
    hide Enabled, Step, Write, Settled, Accepted;
    StepRecord(x, w, e);
    if Writes(e) {
      WriteCounts(x, w, ChangeOf(e), OutcomeOf(e));
    } else if e.Crash? {
      CrashStep(x, w, e);
    } else if EngineEvent(e) {
      HostCounts(x, w, e);
    }
  }

  lemma {:induction false} RestartsAreCounted(x: Externals, worlds: seq<World>, events: seq<Event>, k: nat, id: string)
    requires IsRun(x, worlds, events) && k < |worlds|
    ensures RestartsBegun(x, worlds, events, k, id) == CountOf(worlds[k].host.restarts, id)
  {
    hide Step, StateValid, Enabled, RestartAccepted;
    if k > 0 {
      RestartsAreCounted(x, worlds, events, k - 1, id);
      assert StepAt(x, worlds, events, k - 1);
      RestartCounterStep(x, worlds[k - 1], events[k - 1], id);
    }
  }

  /** An accepted restart runs at most three times, each run already counted on disk. */
  lemma AtMostThreeRestarts(x: Externals, worlds: seq<World>, events: seq<Event>, k: nat, id: string)
    requires IsRun(x, worlds, events) && k < |events|
    requires events[k] == EngineBegin(RestartOp) && Held(worlds[k].engine, id)
    ensures id in worlds[k].durable.jobs
    ensures RestartsBegun(x, worlds, events, k + 1, id) <= worlds[k].durable.jobs[id].run.attempts
    ensures worlds[k].durable.jobs[id].run.attempts <= MAX_RECOVERY_ATTEMPTS
  {
    hide Step, StateValid, EngineMay, MayBegin, Initial, Extends, RecordTracks, RestartAccepted;
    RestartsAreCounted(x, worlds, events, k, id);
    RestartsAreCounted(x, worlds, events, k + 1, id);
    RunKeepsInv(x, worlds, events, k);
    assert StepAt(x, worlds, events, k);
    RestartCounterStep(x, worlds[k], events[k], id);
    ValidExecution(x, worlds[k].visible, id);
  }
}
