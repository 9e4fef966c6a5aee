/**
  What the interleavings allow at the edges: which outcome of a job matches the host,
  which crash leaves a job stuck, which cancellation misses a repair, and which write
  leaves the watchdog unsuppressed. Each weakness is stated with the exact condition
  under which it does or does not occur.
 */
module Races {
  import opened Wrappers
  import opened Text
  import opened Release
  import opened State
  import opened Changes
  import opened Ledger
  import opened System
  import opened Safety
  import opened Images
  import opened Runs
  import opened Acceptance

  /* ---------- Outcomes and the configured image ---------- */

  /** How the transaction changes the job's progress. */
  function Edited(w: World, id: string, e: JobEdit): JobRun
    requires id in w.visible.jobs
  {
    JobEffect(w.visible.plans, w.visible.jobs[id].spec, w.visible.jobs[id].run, e)
  }

  /**
    A job that ends in success, ends in a rollback, or moves on to its next hop reports
    the version whose image is configured at that moment, for good, also as its last safe version.
   */
  lemma OutcomeMatchesImage(x: Externals, w: World, id: string, e: JobEdit)
    requires Inv(x, w) && EngineMay(w, id, e) && (e.FinishHop? || e.FinishDirect? || e.FinishRollback?)
    ensures var r', image := Edited(w, id, e), w.host.image;
            && w.host.kept == {image}
            && r'.currentVersion == image.version && r'.lastSafeVersion == image.version && r'.available
            && (r'.status == Succeeded ==>
                  image == Goal(w.visible, w.visible.jobs[id]) &&
                  image.version == w.visible.jobs[id].spec.targetVersion)
            && (r'.status == RolledBack ==> r'.recovery.Some? && image == RecoveryImage(r'.recovery.value))
            && (r'.status == RolledBack ==> RolledBackReport(w.visible.jobs[id], r'))
  {
    hide StateValid, Target, CompletedHop, Tracks, RecordTracks, Extends, ExecutionValid, TargetValid, MayEdit,
         JobEffect, ChainValid;
    EngineMayOnActive(w, id, e);
    StillThere(w.visible, id);
    ActiveTracks(w.visible, w.host, id);
    ValidJob(x, w.visible, id);
    PlanHashesAreDigests(x, w.visible);
    var j := w.visible.jobs[id];
    PlainEdit(w, id, e);
    if e.FinishRollback? {
      RolledBackMatches(w.visible.plans, w.host, Goal(w.visible, j), j);
      RolledBackReports(x, w.visible, w.host, Goal(w.visible, j), j);
    } else {
      FinishedMatches(w.visible.plans, w.host, Goal(w.visible, j), j, e);
      if e.FinishDirect? || e.final {
        FinishesAtTarget(x, w.visible.plans, w.host, j, e);
      }
    }
  }

  /** A rolled-back job keeps the error that caused it and stands at the hop it started from. */
  predicate RolledBackReport(j: Job, r: JobRun) {
    && r.errorCode == j.run.errorCode && r.errorCode != NoError && r.errorMessage == PreviousRestored
    && r.completedSteps == STEPS_PER_HOP * r.currentHop
    && (j.spec.direct.None? ==> r.currentHop == j.run.currentHop)
  }

  lemma RolledBackReports(x: Externals, s: RuntimeState, h: Host, goal: ImageRef, j: Job)
    requires TargetValid(s.plans, j.spec, j.run) && "" !in s.plans
    requires forall hash :: hash in s.plans ==> ChainValid(x, s.plans[hash])
    requires Tracks(h, j.spec.id, goal, j.run) && MayEdit(h, goal, j, FinishRollback)
    ensures RolledBackReport(j, JobEffect(s.plans, j.spec, j.run, FinishRollback))
  {
    hide ChainValid, CompletedHop, CountOf, ParseVersion, OlderText, DirectReleaseValid;
    if j.spec.direct.None? {
      RollbackKeepsHop(x, s.plans, h, goal, j);
    }
  }

  lemma RolledBackMatches(plans: map<string, Plan>, h: Host, goal: ImageRef, j: Job)
    requires Tracks(h, j.spec.id, goal, j.run) && MayEdit(h, goal, j, FinishRollback)
    ensures var r' := JobEffect(plans, j.spec, j.run, FinishRollback);
            && r'.status == RolledBack && r'.available && r'.recovery.Some? &&
               Configured(h, RecoveryImage(r'.recovery.value))
            && r'.currentVersion == h.image.version && r'.lastSafeVersion == h.image.version
  {
    hide CompletedHop, CountOf;
  }

  lemma FinishedMatches(plans: map<string, Plan>, h: Host, goal: ImageRef, j: Job, e: JobEdit)
    requires Tracks(h, j.spec.id, goal, j.run) && MayEdit(h, goal, j, e) && (e.FinishHop? || e.FinishDirect?)
    ensures var r' := JobEffect(plans, j.spec, j.run, e);
            && (r'.status == Succeeded <==> e.FinishDirect? || e.final) && r'.status != RolledBack && r'.available
            && Configured(h, goal) && e.version == goal.version
            && r'.currentVersion == h.image.version && r'.lastSafeVersion == h.image.version
  {
    hide CountOf;
  }

  /**
    A failure before any mutation is reported as leaving the job's own version in place.
    While the job is pulling that is so, and in stopping the target may be configured
    instead, if the job started from a sure image. Once it is recorded as migrating or
    starting the target is configured, and a resumed activation whose pull fails still ends
    this way.
   */
  lemma PreMutationFailureImage(x: Externals, w: World, id: string, code: ErrorCode, available: bool)
    requires Inv(x, w) && EngineMay(w, id, FailBeforeMutation(code, available))
    ensures var r, r' := w.visible.jobs[id].run, Edited(w, id, FailBeforeMutation(code, available));
            var h, goal := w.host, Goal(w.visible, w.visible.jobs[id]);
            && r'.status == Failed && r'.lastSafeVersion == r.currentVersion && r'.errorMessage == StoppedBeforeMutation
            && (r.status == Migrating || r.status == Starting ==> Configured(h, goal))
            && (JobSourced(w, id) ==>
                  && (Preparing(r.status) ==> ImageSure(h))
                  && (r.status == Pulling ==> forall i :: i in h.kept ==> AtSource(i, r))
                  && (r.status == Stopping ==> forall i :: i in h.kept ==> AtEither(i, goal, r)))
  {
    hide StateValid, Target, RecordTracks, Extends, CountOf;
    EngineMayOnActive(w, id, FailBeforeMutation(code, available));
    StillThere(w.visible, id);
    ActiveTracks(w.visible, w.host, id);
  }

  /** That report is wrong whenever the target is configured: the job was leaving an older version. */
  lemma ReportAfterWriteIsWrong(x: Externals, w: World, id: string, code: ErrorCode, available: bool)
    requires Inv(x, w) && EngineMay(w, id, FailBeforeMutation(code, available))
    requires AllAimHigher(w.visible)
    ensures Goal(w.visible, w.visible.jobs[id]).version !=
            Edited(w, id, FailBeforeMutation(code, available)).lastSafeVersion
  {
    hide StateValid, RecordTracks, Extends, CountOf, Tracks, ChainValid, ExecutionValid, OlderText, ParseVersion;
    var e := FailBeforeMutation(code, available);
    EngineMayOnActive(w, id, e);
    StillThere(w.visible, id);
    ValidJob(x, w.visible, id);
    PlanHashesAreDigests(x, w.visible);
    var j := w.visible.jobs[id];
    if j.spec.direct.None? {
      var plan, hop := w.visible.plans[j.spec.planHash], j.run.currentHop;
      UpgradingHop(j.spec, j.run);
      ChainVersionsIncrease(x, plan, hop, hop + 1);
      OlderTextIsTotalOrder(VersionAtHop(plan, hop), VersionAtHop(plan, hop), VersionAtHop(plan, hop));
    } else {
      assert AimsHigher(j);
      OlderTextIsTotalOrder(j.run.currentVersion, j.run.currentVersion, j.run.currentVersion);
    }
  }

  predicate AllAimHigher(s: RuntimeState) {
    forall id :: id in s.jobs ==> AimsHigher(s.jobs[id])
  }

  /** Nothing but a finished hop changes an upgrading job's version, and a direct job has only one hop. */
  lemma WriteKeepsAim(x: Externals, w: World, c: Change, o: Outcome)
    requires StateValid(x, w.visible) && AllAimHigher(w.visible)
    requires c.OnJob? ==> EngineMay(w, c.id, c.edit)
    requires c.FromApi? && c.command.CreateJob? ==> OlderText(c.command.current, c.command.target)
    ensures AllAimHigher(NextVisible(x, w, c, o))
  {
    hide StateValid, EngineEffect, ApiEffect, WatchdogEffect, OlderText, EngineMay, JobEffect;
    if Accepted(x, w.visible, c) && o != Lost {
      match c {
        case OnJob(id, edit) =>
          EngineMayOnActive(w, id, edit);
          StillThere(w.visible, id);
          EditedJob(w.visible, id, edit);
          EditKeepsAim(w, id, edit);
        case OnWatchdog(edit) => SameJobsAim(w.visible, WatchdogEffect(w.visible, edit));
        case FromApi(command) => CommandKeepsAim(x, w.visible, command);
      }
    }
  }

  lemma SameJobsAim(s: RuntimeState, t: RuntimeState)
    requires AllAimHigher(s) && t.jobs == s.jobs
    ensures AllAimHigher(t)
  {
  }

  lemma EditKeepsAim(w: World, id: string, e: JobEdit)
    requires id in w.visible.jobs && AimsHigher(w.visible.jobs[id]) && EngineMay(w, id, e)
    ensures AimsHigher(w.visible.jobs[id].(run := Edited(w, id, e)))
  {
    hide OlderText, Target, FreshRecovery, CompletedHop;
  }

  lemma CommandKeepsAim(x: Externals, s: RuntimeState, c: Command)
    requires StateValid(x, s) && AllAimHigher(s) && ApiEffect(s, c).Ok?
    requires c.CreateJob? ==> OlderText(c.current, c.target)
    ensures AllAimHigher(ApiEffect(s, c).value)
  {
    hide StateValid, WellKeyed, Rotated, HasActive, Suppressed, TokenAllowed, OlderText;
    ValidIsWellKeyed(x, s);
  }

  lemma {:induction false} RunsAimHigher(x: Externals, worlds: seq<World>, events: seq<Event>, k: nat)
    requires IsRun(x, worlds, events) && k < |worlds|
    ensures AllAimHigher(worlds[k].visible) && AllAimHigher(worlds[k].durable)
  {
    hide Step, StateValid, AllAimHigher, Inv, EngineMay, MayBegin, Settled, OlderText;
    if k == 0 {
      StartAims(x, worlds[0]);
    } else {
      var w, e := worlds[k - 1], events[k - 1];
      RunsAimHigher(x, worlds, events, k - 1);
      assert StepAt(x, worlds, events, k - 1);
      RunKeepsInv(x, worlds, events, k - 1);
      ValidInInv(x, w);
      StepRecord(x, w, e);
      if Writes(e) {
        CreationAims(w, e);
        WriteKeepsAim(x, w, ChangeOf(e), OutcomeOf(e));
      } else if e.Crash? {
        CrashStep(x, w, e);
      }
    }
  }

  lemma StartAims(x: Externals, w: World)
    requires Initial(x, w)
    ensures AllAimHigher(w.visible) && AllAimHigher(w.durable)
  {
    hide StateValid, OlderText, Reports;
    forall id | id in w.visible.jobs ensures AimsHigher(w.visible.jobs[id]) {
      StatusIsActive(w.visible, id);
    }
  }

  lemma StatusIsActive(s: RuntimeState, id: string)
    requires id in s.jobs
    ensures s.jobs[id].run.status == Queued || Rank(s.jobs[id].run.status) >= 0 ==> IsActive(s, id)
  {
  }

  /** A job is created only for a version newer than the one that was read. */
  lemma CreationAims(w: World, e: Event)
    requires Enabled(w, e)
    ensures e.RequestWrite? && e.c.CreateJob? ==> OlderText(e.c.current, e.c.target)
  {
    hide OlderText, EngineMay;
  }

  lemma UpgradingHop(spec: JobSpec, r: JobRun)
    requires ExecutionValid(spec, r)
    ensures Rank(r.status) >= 0 ==> 0 <= r.currentHop < spec.totalHops
  {
    hide MetadataShapeValid;
  }

  /**
    The engine's transactions also decide what the service should do: maintenance exactly
    when the last of three recovery attempts failed, with a restart on offer, upgrading
    while the job goes on, and running when it ends otherwise.
   */
  lemma EndDecidesService(x: Externals, w: World, id: string, e: JobEdit)
    requires Inv(x, w) && EngineMay(w, id, e) && Accepted(x, w.visible, OnJob(id, e))
    ensures var t := EngineEffect(w.visible, id, e).value;
            && id in t.jobs && t.jobs[id].run == Edited(w, id, e)
            && ServiceFollows(t.desired, t.jobs[id], LastAttemptFails(w.visible.jobs[id].run, e))
  {
    hide StateValid, Target, RecordTracks, Extends, ExecutionValid, MayEdit, JobEffect, MayProgress, DesiredEffect,
         Tracks;
    EngineMayOnActive(w, id, e);
    StillThere(w.visible, id);
    EditedJob(w.visible, id, e);
    EditedRecord(w.visible, id, e);
    OnlyActive(x, w.visible, id);
    ValidExecution(x, w.visible, id);
    if e.Progress? {
      ProgressEffect(w.visible.plans, w.visible.jobs[id], e.next);
      ProgressedActive(w.visible.jobs[id].run, e.next, w.engine.op,
                       Configured(w.host, Goal(w.visible, w.visible.jobs[id])));
      ProgressService(w.visible.jobs[id], e.next);
    } else {
      PlainEdit(w, id, e);
      EndOfJob(w.visible.plans, w.host, Goal(w.visible, w.visible.jobs[id]), w.visible.jobs[id], e);
    }
  }

  lemma ProgressService(j: Job, next: JobStatus)
    requires Active(Progressed(j.run, next).status)
    ensures ServiceFollows(DesiredEffect(Upgrading, j.run, Progress(next)), j.(run := Progressed(j.run, next)), false)
  {
  }

  /** The transaction records that the third recovery attempt failed. */
  predicate LastAttemptFails(r: JobRun, e: JobEdit) {
    (e.RecoveryFailed? || e.RestartFailed?) && r.attempts == MAX_RECOVERY_ATTEMPTS
  }

  /** What the service should do, by where the job stands. */
  predicate ServiceFollows(desired: DesiredState, j: Job, lastFailed: bool) {
    && (desired == Upgrading <==> Active(j.run.status))
    && (desired == Maintenance <==> lastFailed)
    && (desired == Running <==> Terminal(j.run.status) && !lastFailed)
    && (desired == Maintenance ==> RestartOffered(j))
    && (desired == Running && j.run.status != Failed ==> j.run.available)
  }

  lemma EndOfJob(plans: map<string, Plan>, h: Host, goal: ImageRef, j: Job, e: JobEdit)
    requires ExecutionValid(j.spec, j.run) && MayEdit(h, goal, j, e)
    ensures ServiceFollows(DesiredEffect(Upgrading, j.run, e), j.(run := JobEffect(plans, j.spec, j.run, e)),
                           LastAttemptFails(j.run, e))
  {
    hide MetadataShapeValid, CompletedHop, FreshRecovery;
  }

  /** Once a job's recovery point is recorded it is the only one on record. */
  lemma OneRecoveryPoint(x: Externals, w: World, id: string, meta: BackupMetadata, completed: int, other: string)
    requires Inv(x, w) && EngineMay(w, id, RecordRecovery(meta, completed))
    ensures var t := EngineEffect(w.visible, id, RecordRecovery(meta, completed)).value;
            && id in t.jobs && t.jobs[id].run.recovery == Some(meta)
            && (other in t.jobs && other != id ==> t.jobs[other].run.recovery.None?)
  {
    hide StateValid, Target, RecordTracks, Extends, Tracks, MayEdit;
    var e := RecordRecovery(meta, completed);
    EngineMayOnActive(w, id, e);
    StillThere(w.visible, id);
    EditedJob(w.visible, id, e);
    OnlyActive(x, w.visible, id);
    if other in w.visible.jobs && other != id {
      IdleIsInactive(w.visible, other);
    }
  }

  lemma IdleIsInactive(s: RuntimeState, id: string)
    requires id in s.jobs && !IsActive(s, id)
    ensures !Active(s.jobs[id].run.status)
  {
  }

  /* ---------- Scripts of events ---------- */

  /** The world after a script of events, if each of them is possible in turn. */
  ghost function Play(x: Externals, w: World, script: seq<Event>): Option<World>
    decreases |script|
  {
    if script == [] then Some(w)
    else if Enabled(w, script[0]) then Play(x, Step(x, w, script[0]), script[1..])
    else None
  }

  lemma PlayOne(x: Externals, w: World, e: Event, rest: seq<Event>)
    requires Enabled(w, e)
    ensures Play(x, w, [e] + rest) == Play(x, Step(x, w, e), rest)
  {
    hide Enabled, Step;
    assert ([e] + rest)[1..] == rest;
  }

  /** What the engine's transaction leaves, when it is saved. */
  lemma SavedEdit(x: Externals, w: World, id: string, e: JobEdit)
    requires Inv(x, w) && EngineMay(w, id, e)
    requires !(e.CountAttempt? && w.visible.jobs[id].run.attempts == MAX_RECOVERY_ATTEMPTS)
    ensures Enabled(w, EngineWrite(id, e, Saved))
    ensures var w' := Step(x, w, EngineWrite(id, e, Saved));
            && Inv(x, w') && w'.visible == w'.durable
            && w' == w.(visible := w'.visible, durable := w'.visible, engine := AfterEdit(w.engine, e, true))
            && w'.visible == w.visible.(jobs := w'.visible.jobs, desired := w'.visible.desired)
            && w'.visible.jobs.Keys == w.visible.jobs.Keys && id in w'.visible.jobs
            && w'.visible.jobs[id] == w.visible.jobs[id].(run := Edited(w, id, e))
            && w'.visible.desired == DesiredEffect(w.visible.desired, w.visible.jobs[id].run, e)
  {
    hide DesiredEffect, Inv, EngineMay, JobEffect, EngineEffect, StateValid, RecordInv;
    var event := EngineWrite(id, e, Saved);
    StepKeepsInv(x, w, event);
    EngineMayOnActive(w, id, e);
    StillThere(w.visible, id);
    InvGivesRecordInv(x, w);
    EngineIsNeverRefused(x, w, id, e);
    EditedJob(w.visible, id, e);
    EditedRecord(w.visible, id, e);
    SavedStep(x, w, id, e);
  }

  lemma SavedStep(x: Externals, w: World, id: string, e: JobEdit)
    requires id in w.visible.jobs && Accepted(x, w.visible, OnJob(id, e))
    ensures var w' := Write(x, w, OnJob(id, e), Saved);
            && w'.visible == EngineEffect(w.visible, id, e).value && w'.durable == w'.visible
            && w'.host == w.host && w'.engine == w.engine
  {
    hide EngineEffect, StateValid;
  }

  /* ---------- A crash after the third count ---------- */

  /** On disk and in memory the third attempt is counted without an outcome, and the engine is at no operation. */
  predicate StuckAt(w: World, id: string) {
    && Settled(w, id) && Stuck(w.visible.jobs[id].run)
    && (w.engine == Resting || (w.engine.Between? && w.engine.did == Nothing))
  }

  /** Nothing any thread does moves a stuck job, and no crash does. */
  lemma StuckStep(x: Externals, w: World, e: Event, id: string)
    requires Inv(x, w) && Enabled(w, e) && StuckAt(w, id)
    ensures StuckAt(Step(x, w, e), id) && Step(x, w, e).visible.jobs[id].run == w.visible.jobs[id].run
  {
    hide StateValid, Extends, RecordTracks, TokensKept, GateHeld, RestoresBounded, Step, Enabled, Accepted, Stuck,
         Settled, EngineMay;
    SettledJob(w, id);
    StuckIsActive(w, id);
    OnlyActive(x, w.visible, id);
    InvGivesRecordInv(x, w);
    StepRecord(x, w, e);
    if e.Crash? {
      CrashStep(x, w, e);
      SettledAs(Step(x, w, e), id);
    } else if e.EngineWrite? {
      StuckWrite(x, w, e, id);
      SameRecordSettled(w, Step(x, w, e), id);
    } else if EngineEvent(e) {
      StuckEngine(x, w, e, id);
      SameRecordSettled(w, Step(x, w, e), id);
    } else {
      OthersLeaveJobAlone(x, w, e, id);
    }
  }

  lemma StuckIsActive(w: World, id: string)
    requires id in w.visible.jobs && Stuck(w.visible.jobs[id].run)
    ensures IsActive(w.visible, id)
  {
  }

  lemma SettledAs(w: World, id: string)
    requires id in w.visible.jobs && id in w.durable.jobs && w.visible.jobs[id].run == w.durable.jobs[id].run
    ensures Settled(w, id)
  {
  }

  lemma SameRecordSettled(w: World, w': World, id: string)
    requires w'.visible == w.visible && w'.durable == w.durable
    ensures Settled(w', id) == Settled(w, id)
  {
  }

  /** The only transaction left is the count, and the store refuses it. */
  lemma StuckWrite(x: Externals, w: World, e: Event, id: string)
    requires StateValid(x, w.visible) && Enabled(w, e) && e.EngineWrite? && StuckAt(w, id)
    requires forall other :: other in w.visible.jobs && IsActive(w.visible, other) ==> other == id
    ensures var w' := Step(x, w, e);
            w'.visible == w.visible && w'.durable == w.durable && w'.engine == w.engine
  {
    hide StateValid, EngineEffect, Goal, MetadataShapeValid, Accepted;
    EngineMayOnActive(w, e.id, e.edit);
    StillThere(w.visible, e.id);
    ValidExecution(x, w.visible, id);
    assert e.id == id && e.edit == CountAttempt;
    FourthAttemptRefused(x, w.visible, id);
  }

  /** No operation begins, because a restore and a restart need their count first. */
  lemma StuckEngine(x: Externals, w: World, e: Event, id: string)
    requires Enabled(w, e) && EngineEvent(e) && !e.EngineWrite? && StuckAt(w, id)
    requires forall other :: other in w.visible.jobs && IsActive(w.visible, other) ==> other == id
    ensures var w' := Step(x, w, e);
            && w'.visible == w.visible && w'.durable == w.durable
            && (w'.engine == Resting || (w'.engine.Between? && w'.engine.did == Nothing))
  {
    hide Goal, RecoveryImage, NextVisible, NextDurable, NextHost, AfterSnapshot, RequestMay, WatchMay, EngineMay,
         CountUp, CountOf, Configure, WatchAfter, Issued, Acknowledged, RepairDue, HasActive, Settled;
    SettledJob(w, id);
  }

  /**
    Once the third attempt is counted in both copies and the engine is at no operation, the
    job stays exactly where it is for the rest of the run, whatever the threads do, however
    saves end and however often the process crashes.
   */
  lemma {:induction false} StuckJobsStayStuck(
      x: Externals, worlds: seq<World>, events: seq<Event>, i: nat, k: nat, id: string)
    requires IsRun(x, worlds, events) && i <= k < |worlds| && StuckAt(worlds[i], id)
    ensures StuckAt(worlds[k], id) && worlds[k].visible.jobs[id].run == worlds[i].visible.jobs[id].run
    ensures worlds[k].visible.desired == Upgrading && IsActive(worlds[k].visible, id)
    decreases k
  {
    hide IsRun, Inv, StateValid, Step, Enabled, Stuck;
    RunKeepsInv(x, worlds, events, k);
    if i < k {
      StuckJobsStayStuck(x, worlds, events, i, k - 1, id);
      RunKeepsInv(x, worlds, events, k - 1);
      RunIsLong(x, worlds, events);
      RunStep(x, worlds, events, k - 1);
      StuckStep(x, worlds[k - 1], events[k - 1], id);
    }
    StuckIsActive(worlds[k], id);
    ValidInInv(x, worlds[k]);
    OnlyActive(x, worlds[k].visible, id);
  }

  /**
    If the process dies after the third attempt is counted and before its outcome is
    saved, the job stays rolling back with three attempts, and the store refuses the count
    that any further attempt would need.
   */
  lemma DyingAfterThirdCount(x: Externals, w: World, id: string, keepVisible: bool, image: ImageRef)
    requires Inv(x, w) && Held(w.engine, id) && id in w.visible.jobs && image in w.host.kept
    requires var r := w.visible.jobs[id].run;
             r.status == RollingBack && r.step == JobStep.RestoreBackup && r.attempts == MAX_RECOVERY_ATTEMPTS - 1
    ensures var end := Play(x, w, [EngineWrite(id, CountAttempt, Saved), Crash(keepVisible, image, w.host.slot)]);
            && end.Some? && Inv(x, end.value) && IsActive(end.value.visible, id)
            && end.value.visible.jobs[id].run == w.visible.jobs[id].run.(attempts := MAX_RECOVERY_ATTEMPTS)
            && !Accepted(x, end.value.visible, OnJob(id, CountAttempt)) && StuckAt(end.value, id)
  {
    hide Inv, StateValid, EngineEffect, Effect;
    var count, crash := EngineWrite(id, CountAttempt, Saved), Crash(keepVisible, image, w.host.slot);
    SavedEdit(x, w, id, CountAttempt);
    var w1 := Step(x, w, count);
    StepKeepsInv(x, w1, crash);
    var w2 := Step(x, w1, crash);
    assert IsActive(w2.visible, id);
    ValidInInv(x, w2);
    FourthAttemptRefused(x, w2.visible, id);
    PlayOne(x, w, count, [crash]);
    PlayOne(x, w1, crash, []);
    assert [crash] + [] == [crash] && [count] + [crash] == [count, crash];
  }

  lemma ValidInInv(x: Externals, w: World)
    requires Inv(x, w)
    ensures StateValid(x, w.visible) && StateValid(x, w.durable) && w.host.image in w.host.kept
  {
    hide StateValid, Extends, RecordTracks;
  }

  /* ---------- A pull that fails after the target was written ---------- */

  /** The process dies during an activation, restarts, and the engine resumes the activation, which gives up. */
  function ResumedInVain(w: World, id: string): seq<Event> {
    [Crash(true, w.host.image, w.host.slot), EngineLoad(id), EngineBegin(ActivateOp), EngineEnd(No)]
  }

  lemma AfterResumedInVain(x: Externals, w: World, id: string)
    requires Inv(x, w) && id in w.visible.jobs && w.visible.jobs[id].run.status == Migrating
    ensures var end := Play(x, w, ResumedInVain(w, id));
            && end.Some? && Inv(x, end.value) && end.value.visible == w.visible && end.value.host.image == w.host.image
            && end.value.engine == Between(id, OpEnded(ActivateOp, No))
  {
    hide Inv, StateValid;
    ValidInInv(x, w);
    var w1 := Step(x, w, Crash(true, w.host.image, w.host.slot));
    StepKeepsInv(x, w, Crash(true, w.host.image, w.host.slot));
    var w2 := Step(x, w1, EngineLoad(id));
    StepKeepsInv(x, w1, EngineLoad(id));
    var w3 := Step(x, w2, EngineBegin(ActivateOp));
    StepKeepsInv(x, w2, EngineBegin(ActivateOp));
    StepKeepsInv(x, w3, EngineEnd(No));
    PlayOne(x, w, Crash(true, w.host.image, w.host.slot), [EngineLoad(id), EngineBegin(ActivateOp), EngineEnd(No)]);
    PlayOne(x, w1, EngineLoad(id), [EngineBegin(ActivateOp), EngineEnd(No)]);
    PlayOne(x, w2, EngineBegin(ActivateOp), [EngineEnd(No)]);
    PlayOne(x, w3, EngineEnd(No), []);
  }

  lemma {:induction false} PlayConcat(x: Externals, w: World, first: seq<Event>, rest: seq<Event>)
    requires Play(x, w, first).Some?
    ensures Play(x, w, first + rest) == Play(x, Play(x, w, first).value, rest)
    decreases |first|
  {
    hide Enabled, Step;
    if first == [] {
      assert first + rest == rest;
    } else {
      PlayConcat(x, Step(x, w, first[0]), first[1..], rest);
      assert (first + rest)[1..] == first[1..] + rest;
    }
  }

  /**
    When the resumed activation's pull fails after a crash during migration, the job ends
    as a failure before mutation, with the target configured and the service announced as running.
   */
  lemma PullFailureAfterWrite(x: Externals, w: World, id: string)
    requires Inv(x, w) && id in w.visible.jobs && w.visible.jobs[id].run.status == Migrating
    ensures var write := EngineWrite(id, FailBeforeMutation(ActivationFailed, true), Saved);
            var end := Play(x, w, ResumedInVain(w, id) + [write]);
            && end.Some? && id in end.value.visible.jobs
            && var r := end.value.visible.jobs[id].run;
            && r.status == Failed && r.errorMessage == StoppedBeforeMutation
            && r.lastSafeVersion == w.visible.jobs[id].run.currentVersion
            && end.value.host.image == Goal(w.visible, w.visible.jobs[id])
            && end.value.visible.desired == Running
  {
    hide Inv, StateValid, EngineEffect, Effect, Target, Step, ResumedInVain, Enabled;
    var fail := FailBeforeMutation(ActivationFailed, true);
    AfterResumedInVain(x, w, id);
    var mid := Play(x, w, ResumedInVain(w, id)).value;
    SavedEdit(x, mid, id, fail);
    PreMutationFailureImage(x, mid, id, ActivationFailed, true);
    PlayConcat(x, w, ResumedInVain(w, id), [EngineWrite(id, fail, Saved)]);
    PlayOne(x, mid, EngineWrite(id, fail, Saved), []);
    assert [EngineWrite(id, fail, Saved)] + [] == [EngineWrite(id, fail, Saved)];
  }

  /* ---------- Suppression ---------- */

  predicate SuppressedUnlessRunning(s: RuntimeState) {
    s.desired != Running ==> s.watchdog.status == WatchSuppressed
  }

  /** A healthy observation is recorded although the service is no longer meant to run. */
  predicate BlindHealthyWrite(x: Externals, w: World, e: Event) {
    && e.WatchWrite? && e.watch.ObservedHealthy? && e.o != Lost && Accepted(x, w.visible, OnWatchdog(e.watch))
    && w.visible.desired != Running
  }

  /**
    Leaving the running state always suppresses the watchdog, and exactly one transaction
    undoes that: the healthy observation, which does not look at the desired state again.
   */
  lemma SuppressionIsLostExactlyBy(x: Externals, w: World, e: Event)
    requires Inv(x, w) && Enabled(w, e)
    requires SuppressedUnlessRunning(w.visible) && SuppressedUnlessRunning(w.durable)
    ensures SuppressedUnlessRunning(Step(x, w, e).visible) <==> !BlindHealthyWrite(x, w, e)
  {
    hide StateValid, Extends, RecordTracks, TokensKept, GateHeld, RestoresBounded, Step, Effect, EngineMay, IsActive,
         MayBegin, WatchMay, RequestMay, Settled;
    StepRecord(x, w, e);
    if Writes(e) {
      if Accepted(x, w.visible, ChangeOf(e)) {
        WriteKeepsSuppression(x, w, e);
      }
    } else if e.Crash? {
      CrashStep(x, w, e);
    }
  }

  lemma WriteKeepsSuppression(x: Externals, w: World, e: Event)
    requires Inv(x, w) && Enabled(w, e) && Writes(e) && Accepted(x, w.visible, ChangeOf(e))
    requires SuppressedUnlessRunning(w.visible)
    ensures SuppressedUnlessRunning(Effect(w.visible, ChangeOf(e)).value) <==>
            !(e.WatchWrite? && e.watch.ObservedHealthy? && w.visible.desired != Running)
  {
    hide StateValid, Extends, RecordTracks, TokensKept, GateHeld, RestoresBounded, Effect, EngineMay, IsActive,
         WatchMay, RequestMay, SuppressedUnlessRunning;
    match e {
      case EngineWrite(id, edit, _) =>
        EngineMayOnActive(w, id, edit);
        OnlyActive(x, w.visible, id);
        StillThere(w.visible, id);
        EngineKeepsSuppression(w.visible, id, edit);
      case WatchWrite(edit, _) => WatchdogKeepsSuppression(w, edit);
      case RequestWrite(_, command, _) => CommandKeepsSuppression(w.visible, command);
    }
  }

  lemma EngineKeepsSuppression(s: RuntimeState, id: string, e: JobEdit)
    requires id in s.jobs && s.desired == Upgrading && SuppressedUnlessRunning(s)
    ensures Effect(s, OnJob(id, e)).Ok? && SuppressedUnlessRunning(Effect(s, OnJob(id, e)).value)
  {
    hide JobEffect, DesiredEffect, WithoutOldRecoveries;
  }

  lemma WatchdogKeepsSuppression(w: World, e: WatchdogEdit)
    requires SuppressedUnlessRunning(w.visible) && WatchMay(w.watch, e)
    requires InRepair(w.watch) ==> w.visible.desired == Running
    ensures SuppressedUnlessRunning(Effect(w.visible, OnWatchdog(e)).value) <==>
            !(e.ObservedHealthy? && w.visible.desired != Running)
  {
    hide Recent, HasActive;
  }

  lemma CommandKeepsSuppression(s: RuntimeState, c: Command)
    requires SuppressedUnlessRunning(s) && Effect(s, FromApi(c)).Ok?
    ensures SuppressedUnlessRunning(Effect(s, FromApi(c)).value)
  {
    hide HasActive, TokenAllowed, RestartOffered;
  }

  /* ---------- Cancelling a repair ---------- */

  /** The repair session is published from right after the lock is taken until it is released. */
  predicate PublishedInside(w: World) {
    && (w.gate.published <==> LockHeld(w.watch) && !w.watch.Locked?)
    && (w.gate.cancelled ==> w.gate.published)
  }

  lemma StepKeepsPublished(x: Externals, w: World, e: Event)
    requires GateHeld(w) && PublishedInside(w) && Enabled(w, e)
    ensures PublishedInside(Step(x, w, e))
  {
    hide NextVisible, NextDurable, NextHost, EngineMay, MayBegin, Settled, Goal, Acknowledged, RecoveryImage,
         IsActive, Issued, HasActive, TokenAllowed, RestartOffered, RepairDue, RequestMay;
  }

  lemma {:induction false} RunPublishes(x: Externals, worlds: seq<World>, events: seq<Event>, k: nat)
    requires IsRun(x, worlds, events) && k < |worlds|
    ensures PublishedInside(worlds[k]) && GateHeld(worlds[k])
  {
    hide Step, Enabled, StateValid, GateHeld, Extends, RecordTracks;
    RunKeepsInv(x, worlds, events, k);
    if k > 0 {
      RunPublishes(x, worlds, events, k - 1);
      assert StepAt(x, worlds, events, k - 1);
      StepKeepsPublished(x, worlds[k - 1], events[k - 1]);
    }
  }

  /**
    A request's cancellation reaches the repair that holds the lock if and only if that
    repair has already published its session.
   */
  lemma CancellationReachesPublished(x: Externals, worlds: seq<World>, events: seq<Event>, k: nat, n: nat)
    requires IsRun(x, worlds, events) && k < |events| && events[k] == CancelRepair(n) && LockHeld(worlds[k].watch)
    ensures worlds[k + 1].gate.cancelled <==> !worlds[k].watch.Locked?
    ensures worlds[k + 1].watch == worlds[k].watch
  {
    hide IsRun, GateHeld;
    RunStep(x, worlds, events, k);
    RunPublishes(x, worlds, events, k);
  }

  /**
    A cancellation that falls between taking the lock and publishing is missed: the repair
    goes ahead uncancelled while the request waits for the lock.
   */
  lemma CancellationCanMiss(x: Externals, w: World, n: nat)
    requires GateHeld(w) && PublishedInside(w) && w.watch.Locked? && w.visible.desired == Running
    requires n in w.requests && w.requests[n].Entering?
    ensures var end := Play(x, w, [CancelRepair(n), WatchPublish, WatchReload]);
            && end.Some? && end.value.watch.Repairing? && !end.value.gate.cancelled
            && n in end.value.requests && end.value.requests[n].Queueing? && !Enabled(end.value, TakeLock(n))
  {
    hide EngineMay, MayBegin, Settled, Goal, AfterSnapshot, NextVisible, NextDurable, NextHost, RequestMay, WatchMay,
         Issued, Acknowledged, RecoveryImage, IsActive, RepairDue, WatchAfter, Play;
    var w1 := Step(x, w, CancelRepair(n));
    PublishAndReload(x, w1);
    PlayOne(x, w, CancelRepair(n), [WatchPublish, WatchReload]);
    assert [CancelRepair(n)] + [WatchPublish, WatchReload] == [CancelRepair(n), WatchPublish, WatchReload];
  }

  lemma PublishAndReload(x: Externals, w: World)
    requires w.watch.Locked? && w.visible.desired == Running
    ensures Play(x, w, [WatchPublish, WatchReload]) ==
            Some(w.(watch := Repairing(w.watch.now), gate := w.gate.(published := true, cancelled := false)))
  {
    hide EngineMay, MayBegin, Settled, Goal, AfterSnapshot, NextVisible, NextDurable, NextHost, RequestMay, WatchMay,
         Issued, Acknowledged, RecoveryImage, IsActive, RepairDue, WatchAfter;
    var w1 := Step(x, w, WatchPublish);
    PlayOne(x, w1, WatchReload, []);
    assert [WatchReload] + [] == [WatchReload];
    PlayOne(x, w, WatchPublish, [WatchReload]);
  }
}
