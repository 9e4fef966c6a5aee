/**
  The job engine: it drives the single active job through its phases, saving every
  transition before or after the host operation it belongs to, and resumes wherever the
  saved record says the job stands.
 */
module Engine {
  import opened Wrappers
  import opened Text
  import opened Release
  import opened State
  import opened Changes
  import opened System
  import opened Safety
  import opened Images
  import opened Runs
  import opened Acceptance
  import opened Machine
  import opened Process
  import opened Runtime

  /** How many more calls of the engine a job can need when nothing crashes and every save succeeds. */
  function CallsLeft(r: JobRun): int {
    if r.status == Queued || Rank(r.status) >= 0 then MAX_RECOVERY_ATTEMPTS
    else if r.status == RollingBack && r.step != JobStep.RestoreBackup then MAX_RECOVERY_ATTEMPTS + 1 - r.attempts
    else if r.status == RollingBack || r.status == Restarting then MAX_RECOVERY_ATTEMPTS - r.attempts
    else 0
  }

  predicate LastSaid(log: seq<Said>, command: HostCommand, ok: bool) {
    log != [] && log[|log| - 1] == Said(command, ok)
  }

  /** The job is given up, with its own version reported as the safe one. */
  predicate GivenUp(r: JobRun, after: JobRun, code: ErrorCode, available: bool) {
    && after.status == Failed && after.errorCode == code && after.available == available
    && after.lastSafeVersion == after.currentVersion == r.currentVersion
  }

  /** The rollback will be tried again from the start. */
  predicate Retrying(r: JobRun, attempts: int) {
    r.status == RollingBack && r.step == JobStep.RestoreBackup && r.attempts == attempts < MAX_RECOVERY_ATTEMPTS
  }

  /** Every recovery attempt failed. */
  predicate Exhausted(r: JobRun) {
    r.status == Failed && r.errorCode == RollbackFailed
  }

  /** The rollback of `r` is over: the recovery point's version is installed and safe. */
  predicate RolledBackTo(r: JobRun, after: JobRun) {
    && after.status == RolledBack && after.available && after.recovery == r.recovery && r.recovery.Some?
    && after.currentVersion == r.recovery.value.version && after.lastSafeVersion == after.currentVersion
  }

  /**
    What the answers of a restore and of the check behind it make of a rollback: it is over
    if both were yes, and otherwise tried again unless this was the third attempt.
   */
  predicate RollbackOutcome(
      r: JobRun, after: JobRun, code: ErrorCode, attempts: int, restored: bool, verified: bool)
  {
    && (if restored && verified then RolledBackTo(r, after) && after.attempts == attempts
        else if attempts >= MAX_RECOVERY_ATTEMPTS then Exhausted(after)
        else Retrying(after, attempts))
    && (if restored && verified then true else !after.available)
    && (!Exhausted(after) ==> after.errorCode == code)
  }

  /** The attempts on record once the rollback's restore was counted. */
  function AttemptsCounted(r: JobRun): int {
    if r.step == JobStep.RestoreBackup then r.attempts + 1 else r.attempts
  }

  /** What the outcome of a preparation makes of its job. */
  predicate PrepareDecided(
      id: string, r: Result<BackupMetadata, PrepareError>, bound: Option<seq<string>>, was: JobRun, now: JobRun)
  {
    match r
    case Err(e) => GivenUp(was, now, if e.untrusted then SourceUntrusted else BackupFailed, e.available)
    case Ok(meta) =>
      if !MetadataShapeValid(meta) || meta.jobId != id || meta.version != was.currentVersion
      then GivenUp(was, now, BackupInvalid, true)
      else if bound.Some? && meta.imageDigest !in bound.value
      then GivenUp(was, now, SourceUntrusted, true)
      else now.status == Pulling && now.recovery == Some(meta)
  }

  /** The job has succeeded: its target is the version it reports and the image that is configured. */
  predicate SucceededAt(j: Job, h: Host, goal: ImageRef) {
    j.run.status == Succeeded && j.run.available && j.run.currentVersion == goal.version && Configured(h, goal)
  }

  /** What one undamaged call makes of an active job: it is over, or its recovery will be tried again. */
  predicate Resolved(r: JobRun, after: JobRun) {
    || Terminal(after.status)
    || (r.status != Restarting && Retrying(after, if r.status != RollingBack then 1
                                                 else if r.step == JobStep.RestoreBackup then r.attempts + 1
                                                 else r.attempts))
    || (r.status == Restarting && after.status == Restarting &&
        after.attempts == r.attempts + 1 < MAX_RECOVERY_ATTEMPTS)
  }

  class JobEngine {
    const d: Daemon
    const runtime: ComposeRuntime

    constructor (runtime: ComposeRuntime)
      ensures this.runtime == runtime && d == runtime.d
    {
      this.runtime, d := runtime, runtime.d;
    }

    /** The engine holds the active job, between two operations. */
    ghost predicate Holds(id: string)
      reads this, runtime, d, runtime.d, runtime.backups`disk
    {
      && d == runtime.d && runtime.Linked()
      && Held(d.engine, id) && IsActive(d.visible, id) && id in d.visible.jobs
    }

    /** The engine has let the job go, or is about to. */
    ghost predicate Left(id: string)
      reads this, runtime, d, runtime.d, runtime.backups`disk
    {
      d == runtime.d && runtime.Linked() && Held(d.engine, id) && id in d.visible.jobs
    }

    function JobNow(id: string): Job
      requires id in d.visible.jobs
      reads d
    {
      d.visible.jobs[id]
    }

    function RunNow(id: string): JobRun
      requires id in d.visible.jobs
      reads d
    {
      d.visible.jobs[id].run
    }

    function GoalNow(id: string): ImageRef
      requires id in d.visible.jobs
      reads d
    {
      Goal(d.visible, d.visible.jobs[id])
    }

    /** What every reachable state says about the job the engine holds. */
    lemma Facts(id: string)
      requires Holds(id)
      ensures Tracks(d.host, id, GoalNow(id), RunNow(id))
      ensures JobNow(id).spec.id == id && ExecutionValid(JobNow(id).spec, RunNow(id))
    {
      hide Inv, Tracks, ExecutionValid, Target;
      d.Reachable();
      FactsOf(d.x, d.Now(), id);
    }

    /** A pulling job's own version is configured, if the job started from a sure image. */
    lemma PullingFacts(id: string)
      requires Holds(id)
      ensures RunNow(id).status == Pulling && d.Sure(id) ==> d.host.image.version == RunNow(id).currentVersion
    {
      hide Initial, StepAt, SureAtCreation, IsActive, Inv;
      if d.Sure(id) {
        d.Reachable();
        ImageIsKept(d.x, d.Now());
        ImageFollowsPhase(d.x, d.worlds, d.events, |d.worlds| - 1, false, d.host.image, id);
      }
    }

    lemma DirectHop(id: string)
      requires Holds(id) && JobNow(id).spec.direct.Some?
      ensures Rank(RunNow(id).status) >= 0 ==> RunNow(id).currentHop == 0
    {
      hide Inv;
      d.Reachable();
      DirectHopOf(d.x, d.Now(), id);
    }

    /** updateJob: one transaction on the job, outside the host operations. */
    method Save(id: string, e: JobEdit) returns (ok: bool)
      requires Holds(id) && !e.Progress? && Follows(d.engine.did, RunNow(id).status, e)
      requires MayEdit(d.host, GoalNow(id), JobNow(id), e)
      requires d.engine.did == Nothing ==> RefusesOnlyUnbound(d.visible, JobNow(id), e)
      modifies d
      ensures Left(id) && old(d.worlds) <= d.worlds && d.host == old(d.host)
      ensures JobNow(id).spec == old(JobNow(id).spec) && d.visible.plans == old(d.visible.plans)
      ensures var r := old(RunNow(id));
              var r' := JobEffect(old(d.visible.plans), old(JobNow(id).spec), r, e);
              && (ok ==> RunNow(id) == r' && Settled(d.Now(), id))
              && d.engine == AfterEdit(old(d.engine), e, ok)
              && (ok ==> d.visible.desired == DesiredEffect(old(d.visible.desired), r, e))
              && (!ok ==> RunNow(id) == r || RunNow(id) == r')
              && (e.CountAttempt? && r.attempts == MAX_RECOVERY_ATTEMPTS ==> !ok && RunNow(id) == r)
              && (d.reliable && !(e.CountAttempt? && r.attempts == MAX_RECOVERY_ATTEMPTS) ==> ok)
    {
      hide Daemon.Valid, EngineMay, JobEffect, MayEdit, Settled, IsActive, Target, Backup.Safe, Backup.ApplyAll,
           DesiredEffect;
      MaySave(d.Now(), id, e);
      ok := d.Update(id, e);
    }

    /** finishBeforeMutationFailure */
    method FinishBeforeMutationFailure(id: string, code: ErrorCode, available: bool)
      requires Holds(id) && code != NoError
      requires Preparing(RunNow(id).status) || Activating(RunNow(id).status)
      requires Follows(d.engine.did, RunNow(id).status, FailBeforeMutation(code, available))
      requires d.engine.did == Nothing ==>
                 RefusesOnlyUnbound(d.visible, JobNow(id), FailBeforeMutation(code, available))
      modifies d
      ensures Left(id) && old(d.worlds) <= d.worlds && d.host == old(d.host)
      ensures d.reliable ==> GivenUp(old(RunNow(id)), RunNow(id), code, available) && d.visible.desired == Running
    {
      hide Daemon.Valid, ComposeRuntime.Linked, IsActive, Settled, Target, Backup.Safe, Backup.ApplyAll;
      var ok := Save(id, FailBeforeMutation(code, available));
    }

    /** recordRecoveryFailure: the third failure ends the job, an earlier one starts over. */
    method RecordRecoveryFailure(id: string)
      requires Holds(id) && RunNow(id).status == RollingBack
      requires d.engine.did == OpEnded(RestoreOp, No) || d.engine.did == OpEnded(CheckRestoredOp, No)
      modifies d
      ensures Left(id) && old(d.worlds) <= d.worlds && d.host == old(d.host)
      ensures d.reliable ==>
                var r := old(RunNow(id));
                RollbackOutcome(r, RunNow(id), r.errorCode, r.attempts, false, false)
    {
      hide Daemon.Valid, ComposeRuntime.Linked, IsActive, Settled, Target, Backup.Safe, Backup.ApplyAll;
      var ok := Save(id, RecoveryFailed);
    }

    /**
      resumeRollback. Every restore follows a durable count; a count of four is refused by
      the store, and then the job stays as it is.
     */
    method ResumeRollback(id: string) returns (ghost restored: bool, ghost verified: bool)
      requires Holds(id) && RunNow(id).status == RollingBack
      modifies d, runtime.machine, runtime.backups`failures
      ensures Left(id) && old(d.worlds) <= d.worlds && old(runtime.machine.log) <= runtime.machine.log
      ensures old(Stuck(RunNow(id))) ==> RunNow(id) == old(RunNow(id))
      ensures var r := old(RunNow(id));
              d.reliable && !Stuck(r) ==>
                RollbackOutcome(r, RunNow(id), r.errorCode, AttemptsCounted(r), restored, verified)
      ensures d.reliable && restored ==> LastSaid(runtime.machine.log, ConfirmHealth, verified)
      ensures old(RunNow(id).step) == JobStep.RestoreBackup && restored ==> runtime.StartedOnBackup()
      ensures d.reliable && RunNow(id).status == RolledBack ==>
                old(RunNow(id).recovery).Some? && Configured(d.host, RecoveryImage(old(RunNow(id).recovery.value)))
      ensures d.reliable && runtime.machine.cooperative && runtime.backups.reliable && !old(Stuck(RunNow(id))) ==>
                RolledBackTo(old(RunNow(id)), RunNow(id))
    {
      hide Daemon.Valid, ComposeRuntime.Linked, IsActive, Settled, Target, Backup.Safe, Backup.ApplyAll, Tracks,
           ExecutionValid, MayBegin, MayEdit, JobEffect, RecoveryImage;
      Facts(id);
      RollingBackFacts(d.host, id, GoalNow(id), JobNow(id));
      restored, verified := true, false;
      if RunNow(id).step == JobStep.RestoreBackup {
        var marked;
        marked, restored := RestoreCounted(id);
        if !marked {
          return;
        }
        StatusActive(d.visible, id);
      }
      verified := FinishRestored(id);
    }

    /** The attempt is counted, the backup is restored, and that is recorded. */
    method RestoreCounted(id: string) returns (marked: bool, ghost restored: bool)
      requires Holds(id) && RunNow(id).status == RollingBack && RunNow(id).step == JobStep.RestoreBackup
      modifies d, runtime.machine, runtime.backups`failures
      ensures Left(id) && old(d.worlds) <= d.worlds && old(runtime.machine.log) <= runtime.machine.log
      ensures (marked ==> d.engine.did == Nothing && restored) && (d.reliable ==> marked == restored)
      ensures restored ==> runtime.StartedOnBackup()
      ensures old(Stuck(RunNow(id))) ==> !marked && RunNow(id) == old(RunNow(id))
      ensures var r := old(RunNow(id));
              marked ==>
                && RunNow(id) == r.(attempts := r.attempts + 1, step := CheckRestored)
                && r.recovery.Some? && Configured(d.host, RecoveryImage(r.recovery.value))
      ensures var r := old(RunNow(id));
              d.reliable && !marked && !Stuck(r) ==>
                !restored && RollbackOutcome(r, RunNow(id), r.errorCode, r.attempts + 1, false, false)
      ensures d.reliable && runtime.machine.cooperative && runtime.backups.reliable && !old(Stuck(RunNow(id))) ==>
                marked
    {
      hide Daemon.Valid, ComposeRuntime.Linked, IsActive, Settled, Target, Backup.Safe, Backup.ApplyAll, MayBegin,
           Tracks, ExecutionValid, RecoveryImage, CountOf, JobEffect, RollbackOutcome;
      Facts(id);
      RollingBackFacts(d.host, id, GoalNow(id), JobNow(id));
      ghost var before := d.host;
      CountEffect(d.visible.plans, JobNow(id));
      restored := false;
      var counted := Save(id, CountAttempt);
      if !counted {
        return false, restored;
      }
      StatusActive(d.visible, id);
      MayRestore(d.Now(), id, before);
      ghost var counting := RunNow(id);
      marked, restored := RestoreNow(id);
      OutcomeCarriesOver(
        counting, old(RunNow(id)), RunNow(id), counting.errorCode, counting.attempts, false, false);
    }

    /** The restore, once its count is on disk, and the record of its outcome. */
    method RestoreNow(id: string) returns (marked: bool, ghost restored: bool)
      requires Holds(id) && MayBegin(d.Now(), id, RestoreOp) && d.host.settled
      requires RunNow(id).status == RollingBack && RunNow(id).step == JobStep.RestoreBackup
      requires RunNow(id).recovery.Some?
      modifies d, runtime.machine, runtime.backups`failures
      ensures Left(id) && old(d.worlds) <= d.worlds && old(runtime.machine.log) <= runtime.machine.log
      ensures (marked ==> d.engine.did == Nothing && restored) && (d.reliable ==> marked == restored)
      ensures restored ==> runtime.StartedOnBackup()
      ensures var r := old(RunNow(id));
              && (marked ==>
                    RunNow(id) == r.(step := CheckRestored) && Configured(d.host, RecoveryImage(r.recovery.value)))
              && (d.reliable && !marked ==> RollbackOutcome(r, RunNow(id), r.errorCode, r.attempts, false, false))
      ensures d.reliable && runtime.machine.cooperative && runtime.backups.reliable ==> marked
    {
      hide Daemon.Valid, ComposeRuntime.Linked, IsActive, Settled, Target, Backup.Safe, Backup.ApplyAll, MayBegin,
           Tracks, ExecutionValid, RecoveryImage, CountOf, JobEffect, RollbackOutcome;
      var done;
      ghost var trace;
      done, trace := runtime.RestoreBackup(id);
      restored := done;
      StatusActive(d.visible, id);
      if !done {
        RecordRecoveryFailure(id);
        return false, restored;
      }
      MarkEffect(d.visible.plans, JobNow(id));
      marked := Save(id, MarkRestored);
    }

    /** The restored release is checked; only then the job is over. */
    method FinishRestored(id: string) returns (ghost verified: bool)
      requires Holds(id) && RunNow(id).status == RollingBack && RunNow(id).step == CheckRestored
      modifies d, runtime.machine
      ensures Left(id) && old(d.worlds) <= d.worlds && SameImages(old(d.host), d.host)
      ensures d.reliable ==>
                RollbackOutcome(
                  old(RunNow(id)), RunNow(id), old(RunNow(id).errorCode), old(RunNow(id).attempts), true, verified)
      ensures runtime.machine.log == old(runtime.machine.log) + [Said(ConfirmHealth, verified)]
      ensures runtime.machine.atStart == old(runtime.machine.atStart)
      ensures d.reliable && runtime.machine.cooperative ==> RolledBackTo(old(RunNow(id)), RunNow(id))
    {
      hide Daemon.Valid, ComposeRuntime.Linked, IsActive, Settled, Target, Backup.Safe, Backup.ApplyAll, Tracks,
           ExecutionValid, CompletedHop, RecoveryImage;
      Facts(id);
      RollingBackFacts(d.host, id, GoalNow(id), JobNow(id));
      MayCheckRestored(d.Now(), id);
      var healthy := runtime.Check(id, CheckRestoredOp);
      verified := healthy;
      StatusActive(d.visible, id);
      if !healthy {
        RecordRecoveryFailure(id);
        return;
      }
      var saved := Save(id, FinishRollback);
    }

    /** beginAndRunRollback, for a job that has its recovery point. */
    method BeginAndRunRollback(id: string, code: ErrorCode) returns (ghost restored: bool, ghost verified: bool)
      requires Holds(id) && Rank(RunNow(id).status) >= Rank(Stopping) && code != NoError
      requires Follows(d.engine.did, RunNow(id).status, BeginRollback(code))
      requires d.engine.did == Nothing ==> RefusesOnlyUnbound(d.visible, JobNow(id), BeginRollback(code))
      modifies d, runtime.machine, runtime.backups`failures
      ensures Left(id) && old(d.worlds) <= d.worlds && old(runtime.machine.log) <= runtime.machine.log
      ensures d.reliable ==> RollbackOutcome(old(RunNow(id)), RunNow(id), code, 1, restored, verified)
      ensures restored ==> runtime.StartedOnBackup()
      ensures d.reliable && restored ==> LastSaid(runtime.machine.log, ConfirmHealth, verified)
    {
      hide Daemon.Valid, ComposeRuntime.Linked, IsActive, Settled, Target, Backup.Safe, Backup.ApplyAll, Tracks,
           ExecutionValid, MetadataShapeValid, JobEffect, RollbackOutcome;
      Facts(id);
      UpgradingFacts(d.host, id, GoalNow(id), JobNow(id));
      BeginEffect(d.visible.plans, JobNow(id), code);
      restored, verified := false, false;
      var begun := Save(id, BeginRollback(code));
      if !begun {
        return;
      }
      StatusActive(d.visible, id);
      ghost var begin := RunNow(id);
      restored, verified := ResumeRollback(id);
      OutcomeCarriesOver(begin, old(RunNow(id)), RunNow(id), code, 1, restored, verified);
    }

    /** resumeRestart, counted like a restore. */
    method ResumeRestart(id: string) returns (ghost restarted: bool)
      requires Holds(id) && RunNow(id).status == Restarting
      modifies d, runtime.machine
      ensures Left(id) && old(d.worlds) <= d.worlds && SameImages(old(d.host), d.host)
      ensures old(Stuck(RunNow(id))) ==> RunNow(id) == old(RunNow(id))
      ensures var r := old(RunNow(id));
              d.reliable && !Stuck(r) ==>
                && RunNow(id).available == restarted && RunNow(id).attempts == r.attempts + 1
                && RunNow(id).currentVersion == r.currentVersion
                && RunNow(id).status ==
                   (if restarted || r.attempts + 1 >= MAX_RECOVERY_ATTEMPTS then Failed else Restarting)
                && RunNow(id).errorCode ==
                   (if RunNow(id).status == Failed && !restarted then RestartUnsuccessful else r.errorCode)
      ensures restarted ==> LastSaid(runtime.machine.log, ConfirmHealth, true)
      ensures d.reliable && RunNow(id).status == Failed && RunNow(id).available ==>
                d.host.image.version == RunNow(id).currentVersion ||
                  d.host.image.version == JobNow(id).spec.targetVersion
    {
      hide Daemon.Valid, ComposeRuntime.Linked, IsActive, Settled, Target, Backup.Safe, Backup.ApplyAll, MayBegin,
           Tracks, ExecutionValid, CountOf, RecoveryImage, JobEffect;
      Facts(id);
      RestartingFacts(d.host, id, GoalNow(id), JobNow(id));
      CountEffect(d.visible.plans, JobNow(id));
      ghost var before := d.host;
      restarted := false;
      var counted := Save(id, CountAttempt);
      if !counted {
        return;
      }
      StatusActive(d.visible, id);
      MayRestart(d.Now(), id, before);
      var done;
      ghost var n;
      done, n := runtime.RestartCurrent(id);
      restarted := done;
      StatusActive(d.visible, id);
      EndRestart(id, done);
    }

    /** The restart's outcome is saved. */
    method EndRestart(id: string, restarted: bool)
      requires Holds(id) && RunNow(id).status == Restarting && d.engine.did == OpEnded(RestartOp, YesNo(restarted))
      modifies d
      ensures Left(id) && old(d.worlds) <= d.worlds && d.host == old(d.host)
      ensures JobNow(id).spec == old(JobNow(id).spec)
      ensures d.reliable && restarted ==>
                && RunNow(id).status == Failed && RunNow(id).available
                && RunNow(id).errorCode == old(RunNow(id).errorCode) && RunNow(id).attempts == old(RunNow(id).attempts)
                && RunNow(id).currentVersion == old(RunNow(id).currentVersion)
      ensures d.reliable && !restarted ==>
                && !RunNow(id).available && RunNow(id).attempts == old(RunNow(id).attempts)
                && RunNow(id).currentVersion == old(RunNow(id).currentVersion)
                && RunNow(id).status == (if RunNow(id).attempts >= MAX_RECOVERY_ATTEMPTS then Failed else Restarting)
                && RunNow(id).errorCode ==
                   (if RunNow(id).status == Failed then RestartUnsuccessful else old(RunNow(id).errorCode))
    {
      hide Daemon.Valid, ComposeRuntime.Linked, IsActive, Settled, Target, Backup.Safe, Backup.ApplyAll, JobEffect;
      RestartEffects(d.visible.plans, JobNow(id));
      if restarted {
        var saved := Save(id, RestartDone);
      } else {
        var saved := Save(id, RestartFailed);
      }
    }

    /* ---------- The stages of one hop ---------- */

    /**
      Validating and backing up. A planned step binds the digests its source may have; the
      prepared recovery point is checked once more before it is recorded.
     */
    method PrepareStage(id: string, bound: Option<seq<string>>, base: int)
      returns (ok: bool, ghost answer: Result<BackupMetadata, PrepareError>, ghost t: Option<PrepareTrace>)
      requires Holds(id) && Preparing(RunNow(id).status) && base == STEPS_PER_HOP * RunNow(id).currentHop
      modifies runtime, d, runtime.backups, runtime.machine
      ensures Left(id) && old(d.worlds) <= d.worlds && SameImages(old(d.host), d.host)
      ensures ok ==>
                && JobNow(id).spec == old(JobNow(id).spec) && d.visible.plans == old(d.visible.plans)
                && RunNow(id).status == Pulling && RunNow(id).currentHop == old(RunNow(id).currentHop)
                && RunNow(id).currentVersion == old(RunNow(id).currentVersion)
                && RunNow(id).recovery.Some? && d.host.slot == RunNow(id).recovery
                && (bound.Some? ==> RunNow(id).recovery.value.imageDigest in bound.value)
      ensures d.reliable ==> PrepareDecided(id, answer, bound, old(RunNow(id)), RunNow(id))
      ensures d.reliable ==> ok == (RunNow(id).status == Pulling)
      ensures t.Some? ==>
                runtime.Staged(
                  t.value, old(runtime.machine.log), old(d.host), old(runtime.backups.Files()), id, answer)
      ensures t.None? ==> runtime.machine.log == old(runtime.machine.log) && answer.Err?
      ensures old(runtime.Undisturbed(id, bound)) ==> ok && runtime.NothingHalfDone()
    {
      hide Daemon.Valid, ComposeRuntime.Linked, IsActive, Settled, Target, Backup.Safe, Backup.ApplyAll,
           MetadataShapeValid, Tracks, ExecutionValid;
      var r;
      r, t := runtime.PrepareBackup(id, bound);
      answer := r;
      StatusActive(d.visible, id);
      ok := RecordPrepared(id, r, bound, base);
    }

    /** The prepared recovery point is recorded if it passes the engine's own checks. */
    method RecordPrepared(id: string, r: Result<BackupMetadata, PrepareError>, bound: Option<seq<string>>, base: int)
      returns (ok: bool)
      requires Holds(id) && Preparing(RunNow(id).status) && base == STEPS_PER_HOP * RunNow(id).currentHop
      requires d.engine.did == OpEnded(PrepareOp, PrepareAnswer(r))
      requires r.Ok? ==> d.host.slot == Some(r.value) && d.host.settled && Describes(r.value, d.host.image)
      requires r.Ok? ==> d.host.image.version == RunNow(id).currentVersion
      modifies d
      ensures Left(id) && old(d.worlds) <= d.worlds && d.host == old(d.host)
      ensures ok ==>
                && r.Ok? && JobNow(id).spec == old(JobNow(id).spec) && d.visible.plans == old(d.visible.plans)
                && RunNow(id).status == Pulling && RunNow(id).currentHop == old(RunNow(id).currentHop)
                && RunNow(id).currentVersion == old(RunNow(id).currentVersion)
                && RunNow(id).recovery == Some(r.value)
                && (bound.Some? ==> r.value.imageDigest in bound.value)
      ensures d.reliable ==> PrepareDecided(id, r, bound, old(RunNow(id)), RunNow(id))
      ensures d.reliable ==> ok == (RunNow(id).status == Pulling)
    {
      hide Daemon.Valid, ComposeRuntime.Linked, IsActive, Settled, Target, Backup.Safe, Backup.ApplyAll,
           MetadataShapeValid, Tracks, ExecutionValid;
      ok := false;
      Facts(id);
      if r.Err? {
        FinishBeforeMutationFailure(id, if r.error.untrusted then SourceUntrusted else BackupFailed, r.error.available);
        return;
      }
      var recovery := r.value;
      if !MetadataShapeValid(recovery) {
        FinishBeforeMutationFailure(id, BackupInvalid, true);
        return;
      }
      if recovery.jobId != id || recovery.version != RunNow(id).currentVersion {
        FinishBeforeMutationFailure(id, BackupInvalid, true);
        return;
      }
      if bound.Some? && recovery.imageDigest !in bound.value {
        var rejected := Save(id, RejectSource(recovery));
        return;
      }
      ok := Save(id, RecordRecovery(recovery, base + 2));
    }

    /**
      Pulling to starting. A failure before the target was written ends the job; any later
      one rolls it back. When the failing activation began in pulling, the image of the
      job's own version is still in place, if the job started from a sure image.
     */
    method ActivateStage(id: string, base: int)
      returns (ok: bool, ghost answer: Activation, ghost t: ActivateTrace, ghost restored: bool, ghost verified: bool)
      requires Holds(id) && Activating(RunNow(id).status) && base == STEPS_PER_HOP * RunNow(id).currentHop
      modifies d, runtime.machine, runtime.backups`failures
      ensures Left(id) && old(d.worlds) <= d.worlds
      ensures ActivateDecided(t, answer, d.reliable) &&
              old(runtime.machine.log) + ActivateSaid(t) <= runtime.machine.log
      ensures ok ==>
                && JobNow(id).spec == old(JobNow(id).spec) && d.visible.plans == old(d.visible.plans)
                && RunNow(id).status == HealthCheck && RunNow(id).currentHop == old(RunNow(id).currentHop)
      ensures d.reliable ==>
                match answer
                case Activated => ok
                case NotActivated(mutated) =>
                  && !ok
                  && if mutated
                     then RollbackOutcome(old(RunNow(id)), RunNow(id), ActivationFailed, 1, restored, verified)
                     else GivenUp(old(RunNow(id)), RunNow(id), ActivationFailed, true)
      ensures !ok && d.reliable && RunNow(id).status == Failed && RunNow(id).errorCode == ActivationFailed ==>
                && SameImages(old(d.host), d.host)
                && (old(RunNow(id).status == Pulling && d.Sure(id)) ==>
                      d.host.image.version == old(RunNow(id).currentVersion))
      ensures runtime.machine.cooperative && d.reliable ==> ok
    {
      hide Daemon.Valid, ComposeRuntime.Linked, IsActive, Settled, Target, Backup.Safe, Backup.ApplyAll, Tracks,
           ExecutionValid, JobEffect, RollbackOutcome;
      Facts(id);
      PullingFacts(id);
      var activation;
      activation, t := runtime.ActivateTarget(id);
      answer, restored, verified, ok := activation, false, false, false;
      StatusActive(d.visible, id);
      if activation.NotActivated? {
        if !activation.mutated {
          FinishBeforeMutationFailure(id, ActivationFailed, true);
        } else {
          ghost var failing := RunNow(id);
          restored, verified := BeginAndRunRollback(id, ActivationFailed);
          OutcomeCarriesOver(failing, old(RunNow(id)), RunNow(id), ActivationFailed, 1, restored, verified);
        }
        return;
      }
      HealthCheckEffect(d.visible.plans, JobNow(id), base + 6);
      ok := Save(id, EnterHealthCheck(base + 6));
    }

    /** The phases before the health check, from whichever the job stands in. */
    method ReachHealthCheck(id: string, bound: Option<seq<string>>, base: int) returns (ok: bool)
      requires Holds(id) && Rank(RunNow(id).status) >= 0 && base == STEPS_PER_HOP * RunNow(id).currentHop
      modifies runtime, d, runtime.backups, runtime.machine
      ensures Left(id) && old(d.worlds) <= d.worlds
      ensures ok ==>
                && IsActive(d.visible, id) && RunNow(id).status == HealthCheck
                && JobNow(id).spec == old(JobNow(id).spec) && d.visible.plans == old(d.visible.plans)
                && RunNow(id).currentHop == old(RunNow(id).currentHop)
      ensures d.reliable && !ok ==> Resolved(old(RunNow(id)), RunNow(id))
      ensures old(Preparing(RunNow(id).status) && runtime.Undisturbed(id, bound)) ==> ok && runtime.NothingHalfDone()
    {
      hide Daemon.Valid, ComposeRuntime.Linked, IsActive, Settled, Target, Backup.Safe, Backup.ApplyAll, Tracks,
           ExecutionValid, MetadataShapeValid, KnownImage, JobEffect, MayEdit;
      if Preparing(RunNow(id).status) {
        var prepared;
        ghost var answer, t;
        prepared, answer, t := PrepareStage(id, bound, base);
        if !prepared {
          return false;
        }
        StatusActive(d.visible, id);
      }
      if Activating(RunNow(id).status) {
        var activated;
        ghost var answer, t, restored, verified;
        activated, answer, t, restored, verified := ActivateStage(id, base);
        if !activated {
          return false;
        }
        StatusActive(d.visible, id);
      }
      ok := true;
    }

    /** The health check of a direct job, and its success. */
    method CheckDirectStage(id: string) returns (ghost healthy: bool, ghost restored: bool, ghost verified: bool)
      requires Holds(id) && RunNow(id).status == HealthCheck && JobNow(id).spec.direct.Some?
      modifies d, runtime.machine, runtime.backups`failures
      ensures Left(id) && old(d.worlds) <= d.worlds
      ensures old(runtime.machine.log) + [Said(ConfirmHealth, healthy)] <= runtime.machine.log
      ensures d.reliable && healthy ==> SucceededAt(JobNow(id), d.host, old(GoalNow(id)))
      ensures d.reliable && !healthy ==>
                RollbackOutcome(old(RunNow(id)), RunNow(id), TargetUnhealthy, 1, restored, verified)
      ensures runtime.machine.cooperative && d.reliable ==> SucceededAt(JobNow(id), d.host, old(GoalNow(id)))
    {
      hide Daemon.Valid, ComposeRuntime.Linked, IsActive, Settled, Target, Backup.Safe, Backup.ApplyAll, Tracks,
           ExecutionValid;
      Facts(id);
      CheckingFacts(d.host, id, GoalNow(id), RunNow(id));
      MayCheckTarget(d.Now(), id);
      var ok := runtime.Check(id, CheckTargetOp);
      healthy, restored, verified := ok, false, false;
      StatusActive(d.visible, id);
      if !ok {
        restored, verified := BeginAndRunRollback(id, TargetUnhealthy);
        return;
      }
      var saved := Save(id, FinishDirect(GoalNow(id).version));
    }

    /** The health check of one hop of a planned job; after the last hop the job has succeeded. */
    method CheckHopStage(id: string, final: bool)
      returns (again: bool, ghost healthy: bool, ghost restored: bool, ghost verified: bool)
      requires Holds(id) && RunNow(id).status == HealthCheck && JobNow(id).spec.direct.None?
      requires final == (RunNow(id).currentHop + 1 == JobNow(id).spec.totalHops)
      modifies d, runtime.machine, runtime.backups`failures
      ensures Left(id) && old(d.worlds) <= d.worlds
      ensures old(runtime.machine.log) + [Said(ConfirmHealth, healthy)] <= runtime.machine.log
      ensures d.reliable ==> again == (healthy && !final)
      ensures again ==>
                && d.engine.did == Nothing && !final && RunNow(id).status == Validating
                && RunNow(id).currentHop == old(RunNow(id).currentHop) + 1
                && JobNow(id).spec == old(JobNow(id).spec) && d.visible.plans == old(d.visible.plans)
                && Configured(d.host, old(GoalNow(id)))
                && RunNow(id).currentVersion == old(GoalNow(id).version)
      ensures d.reliable && healthy && final ==> SucceededAt(JobNow(id), d.host, old(GoalNow(id)))
      ensures d.reliable && !healthy ==>
                RollbackOutcome(old(RunNow(id)), RunNow(id), TargetUnhealthy, 1, restored, verified)
      ensures runtime.machine.cooperative && d.reliable ==>
                again || (final && SucceededAt(JobNow(id), d.host, old(GoalNow(id))))
    {
      hide Daemon.Valid, ComposeRuntime.Linked, IsActive, Settled, Target, Backup.Safe, Backup.ApplyAll, Tracks,
           ExecutionValid;
      Facts(id);
      CheckingFacts(d.host, id, GoalNow(id), RunNow(id));
      MayCheckTarget(d.Now(), id);
      var ok := runtime.Check(id, CheckTargetOp);
      again, healthy, restored, verified := false, ok, false, false;
      StatusActive(d.visible, id);
      if !ok {
        restored, verified := BeginAndRunRollback(id, TargetUnhealthy);
        return;
      }
      var saved := Save(id, FinishHop(GoalNow(id).version, final));
      again := saved && !final;
    }

    /* ---------- Whole runs of the engine ---------- */

    /** The engine turns to the job. */
    method Turn(id: string)
      requires d == runtime.d && runtime.Linked() && d.engine == Resting && IsActive(d.visible, id)
      requires id in d.visible.jobs
      modifies d
      ensures Holds(id) && old(d.worlds) <= d.worlds
      ensures d.Now() == old(d.Now()).(engine := Between(id, Nothing))
      ensures SmoothDirect(id) == old(SmoothDirect(id)) && SmoothPlanned(id) == old(SmoothPlanned(id))
    {
      hide Daemon.Valid, IsActive, Backup.Safe, Backup.ApplyAll, KnownImage;
      d.Pick(id);
    }

    /** The call is over. */
    method Release(id: string)
      requires Left(id)
      modifies d
      ensures runtime.Linked() && old(d.worlds) <= d.worlds
      ensures d.Now() == old(d.Now()).(engine := Resting)
    {
      hide Daemon.Valid, Backup.Safe, Backup.ApplyAll;
      d.Rest();
    }

    /** A direct job about to run undisturbed. */
    ghost predicate SmoothDirect(id: string)
      requires id in d.visible.jobs
      reads this, runtime, d, runtime.d, runtime.backups`disk
    {
      (RunNow(id).status == Queued || Preparing(RunNow(id).status)) && runtime.Undisturbed(id, None)
    }

    /** runDirectActive: one call, from wherever the job stands. */
    method RunDirectActive(id: string)
      requires Holds(id) && JobNow(id).spec.direct.Some?
      modifies runtime, d, runtime.backups, runtime.machine
      ensures Left(id) && old(d.worlds) <= d.worlds
      ensures old(Stuck(RunNow(id))) ==> RunNow(id) == old(RunNow(id))
      ensures d.reliable && !old(Stuck(RunNow(id))) ==> Resolved(old(RunNow(id)), RunNow(id))
      ensures old(SmoothDirect(id)) ==> SucceededAt(JobNow(id), d.host, old(GoalNow(id)))
    {
      hide Daemon.Valid, ComposeRuntime.Linked, IsActive, Settled, Target, Backup.Safe, Backup.ApplyAll, Tracks,
           ExecutionValid, MetadataShapeValid, KnownImage, JobEffect, MayEdit;
      if RunNow(id).status == Queued {
        MayStart(d.host, GoalNow(id), d.visible.plans, JobNow(id));
        var started := Save(id, StartJob);
        if !started {
          return;
        }
        StatusActive(d.visible, id);
      }
      if RunNow(id).status == RollingBack {
        ghost var restored, verified := ResumeRollback(id);
        return;
      }
      if RunNow(id).status == Restarting {
        ghost var restarted := ResumeRestart(id);
        return;
      }
      ActiveKinds(d.visible, id);
      RunDirectPhases(id);
    }

    method RunDirectPhases(id: string)
      requires Holds(id) && JobNow(id).spec.direct.Some? && Rank(RunNow(id).status) >= 0
      modifies runtime, d, runtime.backups, runtime.machine
      ensures Left(id) && old(d.worlds) <= d.worlds
      ensures d.reliable ==> Resolved(old(RunNow(id)), RunNow(id))
      ensures old(Preparing(RunNow(id).status) && runtime.Undisturbed(id, None)) ==>
                SucceededAt(JobNow(id), d.host, old(GoalNow(id)))
    {
      hide Daemon.Valid, ComposeRuntime.Linked, IsActive, Settled, Target, Backup.Safe, Backup.ApplyAll, Tracks,
           ExecutionValid, MetadataShapeValid, KnownImage, JobEffect, MayEdit;
      DirectHop(id);
      var reached := ReachHealthCheck(id, None, 0);
      if !reached {
        return;
      }
      ghost var healthy, restored, verified := CheckDirectStage(id);
    }

    /** StateStore.Load, which may fail. */
    method Load() returns (s: Option<RuntimeState>)
      ensures s.Some? ==> s.value == d.visible
      ensures d.reliable ==> s.Some?
    {
      var readable: bool := *;
      if d.reliable {
        readable := true;
      }
      s := if readable then Some(d.visible) else None;
    }

    function PlanNow(id: string): Plan
      requires id in d.visible.jobs && JobNow(id).spec.planHash in d.visible.plans
      reads d
    {
      d.visible.plans[JobNow(id).spec.planHash]
    }

    /** A planned job whose remaining hops start from bound releases, about to run undisturbed. */
    ghost predicate SmoothPlanned(id: string)
      requires id in d.visible.jobs
      reads this, runtime, d, runtime.d, runtime.backups`disk
    {
      && JobNow(id).spec.planHash in d.visible.plans
      && 0 <= RunNow(id).currentHop < |PlanNow(id).chain|
      && (RunNow(id).status == Queued || Preparing(RunNow(id).status))
      && runtime.Undisturbed(id, Some(PlanNow(id).chain[RunNow(id).currentHop].sourceImageDigests))
      && (forall k :: RunNow(id).currentHop < k < |PlanNow(id).chain| ==> BoundToPrevious(PlanNow(id), k))
    }

    /** What every reachable state says about a planned job and its plan. */
    lemma PlannedFacts(id: string)
      requires Holds(id) && JobNow(id).spec.direct.None?
      ensures JobNow(id).spec.planHash in d.visible.plans && ChainValid(d.x, PlanNow(id))
      ensures JobNow(id).spec.totalHops == |PlanNow(id).chain|
      ensures RunNow(id).status == Queued || Rank(RunNow(id).status) >= 0 ==>
                0 <= RunNow(id).currentHop < |PlanNow(id).chain|
    {
      hide Inv, ChainValid;
      d.Reachable();
      PlannedFactsOf(d.x, d.Now(), id);
    }

    /**
      One turn of RunActive's loop for a planned job: at most one hop; another turn follows
      unless the call is over.
     */
    method RunHop(id: string) returns (again: bool)
      requires Holds(id) && JobNow(id).spec.direct.None? && d.engine.did == Nothing
      modifies runtime, d, runtime.backups, runtime.machine
      ensures Left(id) && old(d.worlds) <= d.worlds
      ensures old(Stuck(RunNow(id))) ==> !again && RunNow(id) == old(RunNow(id))
      ensures again ==>
                && Holds(id) && JobNow(id).spec == old(JobNow(id).spec) && d.visible.plans == old(d.visible.plans)
                && RunNow(id).status == Validating && d.engine.did == Nothing
                && (if old(RunNow(id).status) == Queued then RunNow(id).currentHop == old(RunNow(id).currentHop)
                    else Rank(old(RunNow(id).status)) >= 0
                         && RunNow(id).currentHop == old(RunNow(id).currentHop) + 1 < JobNow(id).spec.totalHops)
      ensures d.reliable && !old(Stuck(RunNow(id))) && !again ==> Resolved(old(RunNow(id)), RunNow(id))
      ensures old(SmoothPlanned(id)) ==>
                if again then SmoothPlanned(id)
                else SucceededAt(JobNow(id), d.host, PlanTarget(old(PlanNow(id))))
    {
      hide Daemon.Valid, ComposeRuntime.Linked, IsActive, Settled, Target, Backup.Safe, Backup.ApplyAll, Tracks,
           ExecutionValid, MetadataShapeValid, KnownImage, JobEffect, MayEdit, SucceededAt;
      again := false;
      var loaded := Load();
      if loaded.None? {
        return;
      }
      var r := loaded.value.jobs[id].run;
      if r.status == Queued {
        MayStart(d.host, GoalNow(id), d.visible.plans, JobNow(id));
        again := Save(id, StartJob);
        StatusActive(d.visible, id);
        return;
      }
      if r.status == RollingBack {
        ghost var restored, verified := ResumeRollback(id);
        return;
      }
      if r.status == Restarting {
        ghost var restarted := ResumeRestart(id);
        return;
      }
      ActiveKinds(d.visible, id);
      again := RunHopPhases(id);
    }

    /** What becomes of a job whose hop binds no source digest. */
    predicate RefusedUnbound(r: JobRun, after: JobRun, restored: bool, verified: bool) {
      if Rank(r.status) >= Rank(Stopping) then RollbackOutcome(r, after, SourceUntrusted, 1, restored, verified)
      else GivenUp(r, after, SourceUntrusted, r.available)
    }

    /** The phases of the current hop, from whichever the job stands in. */
    method RunHopPhases(id: string) returns (again: bool)
      requires Holds(id) && JobNow(id).spec.direct.None? && Rank(RunNow(id).status) >= 0 && d.engine.did == Nothing
      modifies runtime, d, runtime.backups, runtime.machine
      ensures Left(id) && old(d.worlds) <= d.worlds
      ensures again ==>
                && Holds(id) && JobNow(id).spec == old(JobNow(id).spec) && d.visible.plans == old(d.visible.plans)
                && RunNow(id).status == Validating && d.engine.did == Nothing
                && RunNow(id).currentHop == old(RunNow(id).currentHop) + 1 < JobNow(id).spec.totalHops
      ensures d.reliable && !again ==> Resolved(old(RunNow(id)), RunNow(id))
      ensures d.reliable && old(Unbound(d.visible, JobNow(id))) ==>
                exists restored, verified :: RefusedUnbound(old(RunNow(id)), RunNow(id), restored, verified)
      ensures old(SmoothPlanned(id)) ==>
                if again then SmoothPlanned(id)
                else SucceededAt(JobNow(id), d.host, PlanTarget(old(PlanNow(id))))
    {
      hide Daemon.Valid, ComposeRuntime.Linked, IsActive, Settled, Target, Backup.Safe, Backup.ApplyAll, Tracks,
           ExecutionValid, MetadataShapeValid, KnownImage, JobEffect, MayEdit, ChainValid, Goal, RefusedUnbound;
      PlannedFacts(id);
      var plan, hop := PlanNow(id), RunNow(id).currentHop;
      var step, base := plan.chain[hop], STEPS_PER_HOP * hop;
      PlannedGoal(d.x, d.visible, JobNow(id));
      if step.sourceImageDigests == [] {
        ghost var restored, verified := RefuseUnbound(id);
        return false;
      }
      var reached := ReachHealthCheck(id, Some(step.sourceImageDigests), base);
      if !reached {
        return false;
      }
      PlannedGoal(d.x, d.visible, JobNow(id));
      ghost var healthy, restored, verified;
      again, healthy, restored, verified := CheckHopStage(id, hop + 1 == |plan.chain|);
      if again {
        StatusActive(d.visible, id);
        if old(SmoothPlanned(id)) {
          assert BoundToPrevious(plan, hop + 1);
          assert PlanNow(id) == plan;
        }
      }
      LastStepIsTarget(d.x, plan);
    }

    /** A hop that binds no source digest is given up, or rolled back if it had begun to change the host. */
    method RefuseUnbound(id: string) returns (ghost restored: bool, ghost verified: bool)
      requires Holds(id) && Rank(RunNow(id).status) >= 0 && d.engine.did == Nothing && Unbound(d.visible, JobNow(id))
      modifies d, runtime.machine, runtime.backups`failures
      ensures Left(id) && old(d.worlds) <= d.worlds
      ensures d.reliable ==> Resolved(old(RunNow(id)), RunNow(id))
      ensures d.reliable ==> RefusedUnbound(old(RunNow(id)), RunNow(id), restored, verified)
    {
      hide Daemon.Valid, ComposeRuntime.Linked, IsActive, Settled, Target, Backup.Safe, Backup.ApplyAll, Tracks,
           ExecutionValid, MetadataShapeValid, JobEffect, MayEdit;
      Facts(id);
      UpgradingFacts(d.host, id, GoalNow(id), JobNow(id));
      restored, verified := false, false;
      if RunNow(id).recovery.Some? && Rank(RunNow(id).status) >= Rank(Stopping) {
        restored, verified := BeginAndRunRollback(id, SourceUntrusted);
      } else {
        FinishBeforeMutationFailure(id, SourceUntrusted, RunNow(id).available);
      }
    }

    /** RunActive's loop over the hops of a planned job. */
    method RunPlannedActive(id: string)
      requires Holds(id) && JobNow(id).spec.direct.None? && d.engine.did == Nothing
      modifies runtime, d, runtime.backups, runtime.machine
      ensures Left(id) && old(d.worlds) <= d.worlds
      ensures old(Stuck(RunNow(id))) ==> RunNow(id) == old(RunNow(id))
      ensures d.reliable && !old(Stuck(RunNow(id))) ==> Resolved(old(RunNow(id)), RunNow(id))
      ensures old(SmoothPlanned(id)) ==> SucceededAt(JobNow(id), d.host, PlanTarget(old(PlanNow(id))))
    {
      hide Daemon.Valid, ComposeRuntime.Linked, IsActive, Settled, Target, Backup.Safe, Backup.ApplyAll,
           SmoothPlanned, SucceededAt;
      ghost var first := RunNow(id);
      PlannedFacts(id);
      var again := RunHop(id);
      while again
        invariant Left(id) && old(d.worlds) <= d.worlds
        invariant again ==>
                    && Holds(id) && JobNow(id).spec == old(JobNow(id).spec) && d.visible.plans == old(d.visible.plans)
                    && JobNow(id).spec.direct.None? && d.engine.did == Nothing
                    && RunNow(id).status == Validating && (first.status == Queued || Rank(first.status) >= 0)
        invariant Stuck(first) ==> !again && RunNow(id) == first
        invariant d.reliable && !Stuck(first) && !again ==> Resolved(first, RunNow(id))
        invariant old(SmoothPlanned(id)) ==>
                    if again then SmoothPlanned(id)
                    else SucceededAt(JobNow(id), d.host, PlanTarget(old(PlanNow(id))))
        decreases if again then old(JobNow(id).spec.totalHops) - RunNow(id).currentHop + 1 else 0
      {
        PlannedFacts(id);
        again := RunHop(id);
      }
    }

    /**
      RunActive. The engine works on the one active job, if there is one, and rests again
      whatever happens.
     */
    method RunActive() returns (found: Option<string>)
      requires d == runtime.d && runtime.Linked() && d.engine == Resting
      modifies runtime, d, runtime.backups, runtime.machine
      ensures runtime.Linked() && d.engine == Resting && old(d.worlds) <= d.worlds
      ensures found.Some? ==> old(IsActive(d.visible, found.value)) && found.value in d.visible.jobs
      ensures d.reliable ==> (found.Some? <==> old(HasActive(d.visible)))
      ensures found.None? ==> d.visible == old(d.visible)
      ensures found.Some? && old(Stuck(RunNow(found.value))) ==> RunNow(found.value) == old(RunNow(found.value))
      ensures found.Some? && d.reliable && !old(Stuck(RunNow(found.value))) ==>
                Resolved(old(RunNow(found.value)), RunNow(found.value))
      ensures found.Some? && old(JobNow(found.value).spec.direct.Some? && SmoothDirect(found.value)) ==>
                SucceededAt(JobNow(found.value), d.host, old(GoalNow(found.value)))
      ensures found.Some? && old(JobNow(found.value).spec.direct.None? && SmoothPlanned(found.value)) ==>
                SucceededAt(JobNow(found.value), d.host, PlanTarget(old(PlanNow(found.value))))
    {
      hide Daemon.Valid, ComposeRuntime.Linked, IsActive, Settled, Target, Backup.Safe, Backup.ApplyAll,
           SmoothPlanned, SmoothDirect, SucceededAt, Resolved, Stuck;
      var loaded := Load();
      if loaded.None? {
        return None;
      }
      if id :| id in loaded.value.jobs && IsActive(loaded.value, id) {
        found := Some(id);
        Turn(id);
        if JobNow(id).spec.direct.Some? {
          RunDirectActive(id);
        } else {
          RunPlannedActive(id);
        }
        Release(id);
      } else {
        found := None;
      }
    }

    /**
      The engine is called whenever it is woken, while the other threads run. When no save
      fails and nothing crashes, the job is over after at most `CallsLeft` calls, three for
      a queued one, whatever the host answers.
     */
    method RunUntilOver(id: string, limit: nat) returns (calls: nat)
      requires d == runtime.d && runtime.Linked() && d.engine == Resting && IsActive(d.visible, id)
      requires id in d.visible.jobs
      modifies runtime, d, runtime.backups, runtime.machine
      ensures runtime.Linked() && old(d.worlds) <= d.worlds && id in d.visible.jobs
      ensures calls <= limit
      ensures d.reliable && !old(Stuck(RunNow(id))) ==> CallsLeft(RunNow(id)) <= old(CallsLeft(RunNow(id))) - calls
      ensures d.reliable && !old(Stuck(RunNow(id))) && old(CallsLeft(RunNow(id))) <= limit ==>
                Terminal(RunNow(id).status)
      ensures old(Stuck(RunNow(id))) ==> RunNow(id) == old(RunNow(id))
    {
      hide Daemon.Valid, ComposeRuntime.Linked, IsActive, Settled, Target, Backup.Safe, Backup.ApplyAll,
           SmoothPlanned, SmoothDirect, SucceededAt, Resolved, Stuck, CallsLeft;
      ghost var first := RunNow(id);
      calls := 0;
      ActiveAlone(id);
      if !Stuck(first) {
        CallsLeftIsPositive(first);
      }
      while calls < limit && IsActive(d.visible, id)
        invariant d == runtime.d && runtime.Linked() && d.engine == Resting && old(d.worlds) <= d.worlds
        invariant id in d.visible.jobs && calls <= limit
        invariant Stuck(first) ==> RunNow(id) == first && IsActive(d.visible, id)
        invariant d.reliable && !Stuck(first) ==>
                    !Stuck(RunNow(id)) && CallsLeft(RunNow(id)) <= CallsLeft(first) - calls
        invariant d.reliable && !Stuck(first) ==>
                    if IsActive(d.visible, id) then CallsLeft(RunNow(id)) >= 1 else Terminal(RunNow(id).status)
      {
        WakeOnce(id);
        calls := calls + 1;
      }
    }

    /** The engine is woken once. */
    method WakeOnce(id: string)
      requires d == runtime.d && runtime.Linked() && d.engine == Resting && IsActive(d.visible, id)
      requires id in d.visible.jobs
      modifies runtime, d, runtime.backups, runtime.machine
      ensures runtime.Linked() && d.engine == Resting && old(d.worlds) <= d.worlds && id in d.visible.jobs
      ensures old(Stuck(RunNow(id))) ==> RunNow(id) == old(RunNow(id)) && IsActive(d.visible, id)
      ensures d.reliable && !old(Stuck(RunNow(id))) ==>
                && !Stuck(RunNow(id)) && CallsLeft(RunNow(id)) < old(CallsLeft(RunNow(id)))
                && if IsActive(d.visible, id) then CallsLeft(RunNow(id)) >= 1 else Terminal(RunNow(id).status)
    {
      hide Daemon.Valid, ComposeRuntime.Linked, IsActive, Settled, Target, Backup.Safe, Backup.ApplyAll,
           SmoothPlanned, SmoothDirect, SucceededAt, Resolved, Stuck, CallsLeft, HasActive, Active, Terminal;
      Wait(id);
      ghost var before := RunNow(id);
      ActiveAlone(id);
      var found := RunActive();
      if found.Some? {
        assert found.value == id;
        if d.reliable && !Stuck(before) {
          ResolvedIsLighter(before, RunNow(id));
        }
      }
      StatusDecides(d.visible, id, before);
    }

    /** The other threads run before the engine is woken. */
    method Wait(id: string)
      requires d == runtime.d && runtime.Linked() && d.engine == Resting && IsActive(d.visible, id)
      requires id in d.visible.jobs
      modifies d
      ensures runtime.Linked() && d.engine == Resting && old(d.worlds) <= d.worlds
      ensures IsActive(d.visible, id) && id in d.visible.jobs && RunNow(id) == old(RunNow(id))
    {
      hide Daemon.Valid, IsActive, Settled, Backup.Safe, Backup.ApplyAll;
      ghost var start := d.Now();
      d.Others(id);
      UntouchedStaysActive(start, d.Now(), id);
    }

    lemma ActiveAlone(id: string)
      requires runtime.Linked() && d == runtime.d && IsActive(d.visible, id) && id in d.visible.jobs
      ensures HasActive(d.visible)
      ensures forall other :: IsActive(d.visible, other) ==> other == id
      ensures Active(RunNow(id).status) && 0 <= RunNow(id).attempts <= MAX_RECOVERY_ATTEMPTS
    {
      hide Inv;
      d.Reachable();
      AloneIn(d.x, d.Now(), id);
    }
  }

  lemma FactsOf(x: Externals, w: World, id: string)
    requires Inv(x, w) && IsActive(w.visible, id)
    ensures id in w.visible.jobs
    ensures Tracks(w.host, id, Goal(w.visible, w.visible.jobs[id]), w.visible.jobs[id].run)
    ensures w.visible.jobs[id].spec.id == id && ExecutionValid(w.visible.jobs[id].spec, w.visible.jobs[id].run)
  {
    hide StateValid, Tracks, ExecutionValid, Target, IsActive, RecordTracks;
    StillThere(w.visible, id);
    ActiveTracks(w.visible, w.host, id);
    ValidExecution(x, w.visible, id);
  }

  lemma ImageIsKept(x: Externals, w: World)
    requires Inv(x, w)
    ensures w.host.image in w.host.kept
  {
    hide StateValid, RecordTracks;
  }

  lemma MaySave(w: World, id: string, e: JobEdit)
    requires Held(w.engine, id) && id in w.visible.jobs && !e.Progress?
    requires Follows(w.engine.did, w.visible.jobs[id].run.status, e)
    requires MayEdit(w.host, Goal(w.visible, w.visible.jobs[id]), w.visible.jobs[id], e)
    requires w.engine.did == Nothing ==> RefusesOnlyUnbound(w.visible, w.visible.jobs[id], e)
    ensures EngineMay(w, id, e)
  {
    hide MayEdit, Target;
  }

  /** A rollback has its recovery point in the slot and stands at one of its two steps. */
  lemma RollingBackFacts(h: Host, id: string, goal: ImageRef, j: Job)
    requires Tracks(h, id, goal, j.run) && ExecutionValid(j.spec, j.run) && j.run.status == RollingBack
    ensures j.run.recovery.Some? && h.slot == j.run.recovery && h.settled
    ensures j.run.step == JobStep.RestoreBackup || j.run.step == CheckRestored
    ensures CountOf(h.restores, id) <= j.run.attempts <= MAX_RECOVERY_ATTEMPTS
    ensures j.run.recovery.value.version == j.run.currentVersion
    ensures j.run.step == CheckRestored ==> Configured(h, RecoveryImage(j.run.recovery.value))
  {
    hide MetadataShapeValid, CountOf;
  }

  lemma UpgradingFacts(h: Host, id: string, goal: ImageRef, j: Job)
    requires Tracks(h, id, goal, j.run) && ExecutionValid(j.spec, j.run)
    ensures Rank(j.run.status) >= Rank(Pulling) ==> j.run.recovery.Some?
    ensures Rank(j.run.status) >= 0 ==> j.run.attempts == 0 && 0 <= j.run.currentHop < j.spec.totalHops
  {
    hide MetadataShapeValid, CountOf;
  }

  lemma RestartingFacts(h: Host, id: string, goal: ImageRef, j: Job)
    requires Tracks(h, id, goal, j.run) && ExecutionValid(j.spec, j.run) && j.run.status == Restarting
    ensures CountOf(h.restarts, id) <= j.run.attempts <= MAX_RECOVERY_ATTEMPTS && j.run.errorCode != NoError
  {
    hide MetadataShapeValid, CountOf;
  }

  /** After the count is durable, the restore may begin. */
  lemma MayRestore(w: World, id: string, before: Host)
    requires id in w.visible.jobs && Settled(w, id) && w.host == before && JustCounted(w.engine)
    requires var r := w.visible.jobs[id].run;
             && r.status == RollingBack && r.step == JobStep.RestoreBackup && r.recovery.Some?
             && before.slot == r.recovery && CountOf(before.restores, id) < r.attempts
    ensures MayBegin(w, id, RestoreOp)
  {
    hide Settled;
  }

  lemma MayCheckRestored(w: World, id: string)
    requires id in w.visible.jobs
    requires w.visible.jobs[id].run.status == RollingBack && w.visible.jobs[id].run.step == CheckRestored
    ensures MayBegin(w, id, CheckRestoredOp)
  {
  }

  lemma MayRestart(w: World, id: string, before: Host)
    requires id in w.visible.jobs && Settled(w, id) && w.host == before && JustCounted(w.engine)
    requires w.visible.jobs[id].run.status == Restarting &&
             CountOf(before.restarts, id) < w.visible.jobs[id].run.attempts
    ensures MayBegin(w, id, RestartOp)
  {
    hide Settled;
  }

  lemma CountEffect(plans: map<string, Plan>, j: Job)
    ensures JobEffect(plans, j.spec, j.run, CountAttempt) == j.run.(attempts := j.run.attempts + 1)
  {
  }

  lemma BeginEffect(plans: map<string, Plan>, j: Job, code: ErrorCode)
    ensures var r := JobEffect(plans, j.spec, j.run, BeginRollback(code));
            && r.status == RollingBack && r.step == JobStep.RestoreBackup && r.errorCode == code
            && r.attempts == j.run.attempts && r.recovery == j.run.recovery
  {
  }

  lemma MarkEffect(plans: map<string, Plan>, j: Job)
    ensures JobEffect(plans, j.spec, j.run, MarkRestored) == j.run.(step := CheckRestored)
  {
  }

  lemma HealthCheckEffect(plans: map<string, Plan>, j: Job, completed: int)
    ensures var r := JobEffect(plans, j.spec, j.run, JobEdit.EnterHealthCheck(completed));
            r.status == HealthCheck && r.currentHop == j.run.currentHop
  {
  }

  /** Of the job before the rollback its outcome needs only the recovery point; a failure is the third attempt's. */
  lemma OutcomeCarriesOver(
      r: JobRun, was: JobRun, after: JobRun, code: ErrorCode, attempts: int, restored: bool, verified: bool)
    requires r.recovery == was.recovery
    ensures RollbackOutcome(r, after, code, attempts, restored, verified) ==
            RollbackOutcome(was, after, code, attempts, restored, verified)
    ensures RollbackOutcome(r, after, code, attempts, restored, verified) && after.status == Failed ==>
              after.errorCode == RollbackFailed
  {
  }

  /** What a restart's outcome makes of its job. */
  lemma RestartEffects(plans: map<string, Plan>, j: Job)
    ensures var done := JobEffect(plans, j.spec, j.run, RestartDone);
            && done.status == Failed && done.available && done.currentVersion == j.run.currentVersion
            && done.errorCode == j.run.errorCode && done.attempts == j.run.attempts
    ensures var failed := JobEffect(plans, j.spec, j.run, RestartFailed);
            && !failed.available && failed.attempts == j.run.attempts
            && failed.currentVersion == j.run.currentVersion
            && (if j.run.attempts >= MAX_RECOVERY_ATTEMPTS
                then failed.status == Failed && failed.errorCode == RestartUnsuccessful
                else failed.status == j.run.status && failed.errorCode == j.run.errorCode)
  {
  }

  lemma CheckingFacts(h: Host, id: string, goal: ImageRef, r: JobRun)
    requires Tracks(h, id, goal, r)
    ensures r.status == HealthCheck ==> Configured(h, goal)
  {
    hide CountOf;
  }

  lemma MayCheckTarget(w: World, id: string)
    requires id in w.visible.jobs && w.visible.jobs[id].run.status == HealthCheck
    ensures MayBegin(w, id, CheckTargetOp)
  {
  }

  lemma MayStart(h: Host, goal: ImageRef, plans: map<string, Plan>, j: Job)
    requires j.run.status == Queued
    ensures MayEdit(h, goal, j, StartJob)
    ensures JobEffect(plans, j.spec, j.run, StartJob) == j.run.(status := Validating, step := AtPhase(Validating))
  {
  }

  lemma DirectHopOf(x: Externals, w: World, id: string)
    requires Inv(x, w) && IsActive(w.visible, id) && id in w.visible.jobs && w.visible.jobs[id].spec.direct.Some?
    ensures Rank(w.visible.jobs[id].run.status) >= 0 ==> w.visible.jobs[id].run.currentHop == 0
  {
    hide StateValid, Tracks, RecordTracks, MetadataShapeValid, ParseVersion, OlderText;
    ValidJob(x, w.visible, id);
  }

  lemma ActiveKinds(s: RuntimeState, id: string)
    requires IsActive(s, id)
    ensures id in s.jobs
    ensures var status := s.jobs[id].run.status;
            status == Queued || Rank(status) >= 0 || status == RollingBack || status == Restarting
  {
  }

  function PlanTarget(plan: Plan): ImageRef {
    ImageRef(plan.manifest.version, plan.manifest.imageDigest)
  }

  lemma PlannedFactsOf(x: Externals, w: World, id: string)
    requires Inv(x, w) && IsActive(w.visible, id) && id in w.visible.jobs && w.visible.jobs[id].spec.direct.None?
    ensures var s, j := w.visible, w.visible.jobs[id];
            && j.spec.planHash in s.plans && ChainValid(x, s.plans[j.spec.planHash])
            && j.spec.totalHops == |s.plans[j.spec.planHash].chain|
            && (j.run.status == Queued || Rank(j.run.status) >= 0 ==> 0 <= j.run.currentHop < j.spec.totalHops)
  {
    hide StateValid, Tracks, RecordTracks, MetadataShapeValid, ParseVersion, OlderText, ChainValid;
    ValidJob(x, w.visible, id);
    PlanHashesAreDigests(x, w.visible);
  }

  lemma PlannedGoal(x: Externals, s: RuntimeState, j: Job)
    requires j.spec.direct.None? && j.spec.planHash in s.plans && ChainValid(x, s.plans[j.spec.planHash])
    requires 0 <= j.run.currentHop < |s.plans[j.spec.planHash].chain|
    ensures var m := s.plans[j.spec.planHash].chain[j.run.currentHop].manifest;
            Goal(s, j) == ImageRef(m.version, m.imageDigest) && KnownImage(Goal(s, j)) && m.imageDigest != ""
  {
    hide ParseVersion;
    assert StepValid(x, s.plans[j.spec.planHash], j.run.currentHop);
  }

  lemma LastStepIsTarget(x: Externals, plan: Plan)
    requires ChainValid(x, plan)
    ensures plan.chain != [] && plan.chain[|plan.chain| - 1].manifest == plan.manifest
  {
  }

  lemma AloneIn(x: Externals, w: World, id: string)
    requires Inv(x, w) && IsActive(w.visible, id)
    ensures id in w.visible.jobs && HasActive(w.visible)
    ensures forall other :: IsActive(w.visible, other) ==> other == id
    ensures var r := w.visible.jobs[id].run; Active(r.status) && 0 <= r.attempts <= MAX_RECOVERY_ATTEMPTS
  {
    hide StateValid, RecordTracks, MetadataShapeValid;
    OnlyActive(x, w.visible, id);
    ValidExecution(x, w.visible, id);
    forall other | IsActive(w.visible, other) ensures other == id {
      StillThere(w.visible, other);
    }
  }

  lemma CallsLeftIsPositive(r: JobRun)
    requires Active(r.status) && 0 <= r.attempts <= MAX_RECOVERY_ATTEMPTS && !Stuck(r)
    ensures CallsLeft(r) >= 1
  {
  }

  /** Every undamaged call brings the job's end nearer. */
  lemma ResolvedIsLighter(r: JobRun, after: JobRun)
    requires Active(r.status) && 0 <= r.attempts <= MAX_RECOVERY_ATTEMPTS && !Stuck(r) && Resolved(r, after)
    ensures !Stuck(after) && CallsLeft(after) < CallsLeft(r)
    ensures Terminal(after.status) || (CallsLeft(after) >= 1 && Active(after.status))
  {
  }

  lemma StatusDecides(s: RuntimeState, id: string, before: JobRun)
    requires id in s.jobs
    ensures var r := s.jobs[id].run;
            && (IsActive(s, id) <==> Active(r.status))
            && (Terminal(r.status) ==> !Active(r.status))
            && (r == before ==> Active(r.status) == Active(before.status))
  {
  }
}
