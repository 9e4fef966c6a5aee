/**
  The store never refuses the engine: from any reachable record, every transaction the
  engine's code can reach yields a record that validates, except counting a fourth
  recovery attempt.
 */
module Acceptance {
  import opened Wrappers
  import opened Text
  import opened Release
  import opened State
  import opened Changes
  import opened Ledger
  import opened System
  import opened Safety

  /** The hop a finished rollback records. */
  function RolledBackHop(plans: map<string, Plan>, j: Job): int {
    if j.spec.planHash in plans && j.run.recovery.Some?
    then CompletedHop(plans[j.spec.planHash], j.run.recovery.value.version)
    else if j.spec.direct.Some? then 0 else j.run.currentHop
  }

  lemma UpgradeEditKeepsExecution(plans: map<string, Plan>, h: Host, j: Job, goal: ImageRef, e: JobEdit)
    requires ExecutionValid(j.spec, j.run) && TargetValid(plans, j.spec, j.run)
    requires Tracks(h, j.spec.id, goal, j.run) && MayEdit(h, goal, j, e) && !RecoveryEdit(e)
    requires e.FinishDirect? || (e.FinishHop? && e.final) ==> e.version == j.spec.targetVersion
    ensures ExecutionValid(j.spec, JobEffect(plans, j.spec, j.run, e))
  {
    hide ParseVersion, MetadataShapeValid, CountOf, OlderText, DirectReleaseValid;
  }

  lemma RecoveryEditKeepsExecution(plans: map<string, Plan>, h: Host, j: Job, goal: ImageRef, e: JobEdit)
    requires ExecutionValid(j.spec, j.run) && TargetValid(plans, j.spec, j.run)
    requires Tracks(h, j.spec.id, goal, j.run) && MayEdit(h, goal, j, e) && RecoveryEdit(e)
    requires e.CountAttempt? ==> j.run.attempts < MAX_RECOVERY_ATTEMPTS
    requires "" !in plans
    ensures ExecutionValid(j.spec, JobEffect(plans, j.spec, j.run, e))
  {
    hide ExecutionValid, TargetValid, Tracks, MayEdit, JobEffect;
    if e.FinishRollback? {
      RollbackKeepsExecution(plans, h, j, goal);
    } else if e.BeginRollback? || e.CountAttempt? || e.MarkRestored? {
      AttemptKeepsExecution(plans, h, j, goal, e);
    } else {
      OutcomeKeepsExecution(plans, h, j, goal, e);
    }
  }

  lemma RollbackKeepsExecution(plans: map<string, Plan>, h: Host, j: Job, goal: ImageRef)
    requires ExecutionValid(j.spec, j.run) && TargetValid(plans, j.spec, j.run) && "" !in plans
    requires MayEdit(h, goal, j, FinishRollback)
    ensures ExecutionValid(j.spec, JobEffect(plans, j.spec, j.run, FinishRollback))
  {
    hide ParseVersion, MetadataShapeValid, CompletedHop, OlderText, DirectReleaseValid;
  }

  lemma AttemptKeepsExecution(plans: map<string, Plan>, h: Host, j: Job, goal: ImageRef, e: JobEdit)
    requires ExecutionValid(j.spec, j.run) && MayEdit(h, goal, j, e)
    requires e.BeginRollback? || (e.CountAttempt? && j.run.attempts < MAX_RECOVERY_ATTEMPTS) || e.MarkRestored?
    ensures ExecutionValid(j.spec, JobEffect(plans, j.spec, j.run, e))
  {
    hide MetadataShapeValid;
  }

  lemma OutcomeKeepsExecution(plans: map<string, Plan>, h: Host, j: Job, goal: ImageRef, e: JobEdit)
    requires ExecutionValid(j.spec, j.run) && Tracks(h, j.spec.id, goal, j.run) && MayEdit(h, goal, j, e)
    requires e.RecoveryFailed? || e.RestartFailed? || e.RestartDone?
    ensures ExecutionValid(j.spec, JobEffect(plans, j.spec, j.run, e))
  {
    hide MetadataShapeValid, CountOf;
  }

  /** The hop, the version and the target stay consistent through every engine transaction. */
  lemma EditKeepsTarget(plans: map<string, Plan>, h: Host, j: Job, e: JobEdit)
    requires ExecutionValid(j.spec, j.run) && TargetValid(plans, j.spec, j.run)
    requires Tracks(h, j.spec.id, Target(plans, j.spec, j.run.currentHop), j.run)
    requires MayEdit(h, Target(plans, j.spec, j.run.currentHop), j, e)
    requires e.FinishRollback? && j.spec.direct.None? ==> RolledBackHop(plans, j) == j.run.currentHop
    requires e.FinishDirect? ==> ParseVersion(e.version).Some? && !OlderText(j.spec.targetVersion, e.version)
    requires "" !in plans
    ensures TargetValid(plans, j.spec, JobEffect(plans, j.spec, j.run, e))
  {
    hide TargetValid, ExecutionValid, Tracks, JobEffect, Target, RolledBackHop, MetadataShapeValid, ParseVersion,
         OlderText;
    if e.FinishRollback? {
      RollbackKeepsTarget(plans, h, j);
    } else if e.FinishHop? {
      CheckingHop(j.spec, h, Target(plans, j.spec, j.run.currentHop), j, e);
      FinishHopKeepsTarget(plans, h, j, e);
    } else if e.FinishDirect? {
      FinishDirectKeepsTarget(plans, h, Target(plans, j.spec, j.run.currentHop), j, e);
    } else {
      SameHopKeepsTarget(plans, j, e);
    }
  }

  lemma RollbackKeepsTarget(plans: map<string, Plan>, h: Host, j: Job)
    requires ExecutionValid(j.spec, j.run) && TargetValid(plans, j.spec, j.run) && j.run.status == RollingBack
    requires Tracks(h, j.spec.id, Target(plans, j.spec, j.run.currentHop), j.run)
    requires j.spec.direct.None? ==> RolledBackHop(plans, j) == j.run.currentHop
    requires "" !in plans
    ensures TargetValid(plans, j.spec, JobEffect(plans, j.spec, j.run, FinishRollback))
  {
    hide ParseVersion, MetadataShapeValid, CompletedHop, CountOf, OlderText, DirectReleaseValid;
  }

  lemma FinishHopKeepsTarget(plans: map<string, Plan>, h: Host, j: Job, e: JobEdit)
    requires e.FinishHop? && TargetValid(plans, j.spec, j.run) && 0 <= j.run.currentHop < j.spec.totalHops
    requires MayEdit(h, Target(plans, j.spec, j.run.currentHop), j, e)
    ensures TargetValid(plans, j.spec, JobEffect(plans, j.spec, j.run, e))
  {
    hide ParseVersion, OlderText, DirectReleaseValid;
  }

  lemma FinishDirectKeepsTarget(plans: map<string, Plan>, h: Host, goal: ImageRef, j: Job, e: JobEdit)
    requires e.FinishDirect? && TargetValid(plans, j.spec, j.run) && MayEdit(h, goal, j, e)
    requires ParseVersion(e.version).Some? && !OlderText(j.spec.targetVersion, e.version)
    ensures TargetValid(plans, j.spec, JobEffect(plans, j.spec, j.run, e))
  {
    hide ParseVersion, OlderText, DirectReleaseValid, CompletedHop;
  }

  lemma CheckingHop(spec: JobSpec, h: Host, goal: ImageRef, j: Job, e: JobEdit)
    requires e.FinishHop? && ExecutionValid(spec, j.run) && MayEdit(h, goal, j, e)
    ensures 0 <= j.run.currentHop < spec.totalHops
  {
    hide MetadataShapeValid;
  }

  lemma SameHopKeepsTarget(plans: map<string, Plan>, j: Job, e: JobEdit)
    requires TargetValid(plans, j.spec, j.run) && !e.FinishRollback? && !e.FinishHop? && !e.FinishDirect?
    ensures TargetValid(plans, j.spec, JobEffect(plans, j.spec, j.run, e))
  {
    hide ParseVersion, OlderText, DirectReleaseValid;
  }

  lemma ProgressKeepsJob(plans: map<string, Plan>, j: Job, op: HostOp, next: JobStatus, written: bool)
    requires ExecutionValid(j.spec, j.run) && TargetValid(plans, j.spec, j.run)
    requires MayProgress(op, j.run, next, written)
    ensures ExecutionValid(j.spec, Progressed(j.run, next)) && TargetValid(plans, j.spec, Progressed(j.run, next))
  {
    hide ParseVersion, MetadataShapeValid, OlderText, DirectReleaseValid;
  }

  lemma PlanHashesAreDigests(x: Externals, s: RuntimeState)
    requires StateValid(x, s)
    ensures "" !in s.plans
    ensures forall hash :: hash in s.plans ==> ChainValid(x, s.plans[hash])
  {
    hide JobValid, DiscoveryValid, WatchdogValid, ChainValid, ManifestValid;
    forall hash | hash in s.plans ensures hash != "" && ChainValid(x, s.plans[hash]) {
      assert PlanValid(x, hash, s.plans[hash]);
    }
  }

  /** The final hop of a valid chain installs the plan's target. */
  lemma FinalHopInstallsTarget(x: Externals, plan: Plan, spec: JobSpec, hop: int)
    requires ChainValid(x, plan) && spec.totalHops == |plan.chain| && hop + 1 == spec.totalHops
    ensures plan.chain[hop].manifest == plan.manifest
  {
    hide StepValid, DirectContractValid;
  }

  /** The transaction's version is the job's target, when it ends the job. */
  lemma FinishesAtTarget(x: Externals, plans: map<string, Plan>, h: Host, j: Job, e: JobEdit)
    requires TargetValid(plans, j.spec, j.run) && ExecutionValid(j.spec, j.run)
    requires forall hash :: hash in plans ==> ChainValid(x, plans[hash])
    requires MayEdit(h, Target(plans, j.spec, j.run.currentHop), j, e)
    requires e.FinishDirect? || (e.FinishHop? && e.final)
    ensures e.version == j.spec.targetVersion
    ensures e.FinishDirect? ==> ParseVersion(e.version).Some? && !OlderText(j.spec.targetVersion, e.version)
  {
    hide ParseVersion, ChainValid, MetadataShapeValid, OlderText;
    OlderTextIsTotalOrder(e.version, e.version, e.version);
    if e.FinishHop? {
      FinalHopInstallsTarget(x, plans[j.spec.planHash], j.spec, j.run.currentHop);
    }
  }

  /** A rollback from a tracked job ends at the hop it started from. */
  lemma RollbackKeepsHop(x: Externals, plans: map<string, Plan>, h: Host, goal: ImageRef, j: Job)
    requires TargetValid(plans, j.spec, j.run) && j.spec.direct.None?
    requires forall hash :: hash in plans ==> ChainValid(x, plans[hash])
    requires Tracks(h, j.spec.id, goal, j.run) && j.run.status == RollingBack
    ensures RolledBackHop(plans, j) == j.run.currentHop
  {
    hide ChainValid, CompletedHop;
    CompletedHopInverts(x, plans[j.spec.planHash], j.run.currentHop);
  }

  /** The edited job validates. */
  lemma EditKeepsJob(x: Externals, s: RuntimeState, h: Host, id: string, e: JobEdit)
    requires StateValid(x, s) && id in s.jobs && JobTracks(s, h, id)
    requires MayEdit(h, Goal(s, s.jobs[id]), s.jobs[id], e)
    requires e.CountAttempt? ==> s.jobs[id].run.attempts < MAX_RECOVERY_ATTEMPTS
    ensures var j := s.jobs[id];
            JobValid(s.plans, s.idempotency, id, j.(run := JobEffect(s.plans, j.spec, j.run, e)))
  {
    hide StateValid, TargetValid, ExecutionValid, MayEdit, ChainValid, JobEffect, Target, Tracks, HexDigest;
    var j := s.jobs[id];
    ValidJob(x, s, id);
    PlanHashesAreDigests(x, s);
    if e.FinishDirect? || (e.FinishHop? && e.final) {
      FinishesAtTarget(x, s.plans, h, j, e);
    }
    if e.FinishRollback? && j.spec.direct.None? {
      RollingBackWhenFinishing(h, Goal(s, j), j);
      RollbackKeepsHop(x, s.plans, h, Goal(s, j), j);
    }
    EditKeepsTarget(s.plans, h, j, e);
    if RecoveryEdit(e) {
      RecoveryEditKeepsExecution(s.plans, h, j, Goal(s, j), e);
    } else {
      UpgradeEditKeepsExecution(s.plans, h, j, Goal(s, j), e);
    }
    KnownStatus(s.plans, h, Goal(s, j), j, e);
  }

  lemma RollingBackWhenFinishing(h: Host, goal: ImageRef, j: Job)
    requires MayEdit(h, goal, j, FinishRollback)
    ensures j.run.status == RollingBack
  {
  }

  lemma KnownStatus(plans: map<string, Plan>, h: Host, goal: ImageRef, j: Job, e: JobEdit)
    requires !j.run.status.UnknownStatus? && MayEdit(h, goal, j, e)
    ensures !JobEffect(plans, j.spec, j.run, e).status.UnknownStatus?
  {
    hide CompletedHop, MetadataShapeValid;
  }

  lemma ValidJob(x: Externals, s: RuntimeState, id: string)
    requires StateValid(x, s) && id in s.jobs
    ensures JobValid(s.plans, s.idempotency, id, s.jobs[id])
  {
    hide JobValid, DiscoveryValid, WatchdogValid, PlanValid;
  }

  /** A record stays valid when its one active job is replaced by a valid later version of itself. */
  lemma ReplacedJobKeepsState(x: Externals, s: RuntimeState, t: RuntimeState, id: string)
    requires StateValid(x, s) && IsActive(s, id)
    requires t == s.(jobs := t.jobs, desired := t.desired) && t.jobs.Keys == s.jobs.Keys
    requires forall other :: other in s.jobs ==> t.jobs[other].spec == s.jobs[other].spec
    requires forall other :: other in s.jobs ==> JobValid(t.plans, t.idempotency, other, t.jobs[other])
    requires forall other :: other in s.jobs && other != id ==> t.jobs[other].run.status == s.jobs[other].run.status
    requires !t.desired.InvalidDesired? && (t.desired == Upgrading <==> Active(t.jobs[id].run.status))
    ensures StateValid(x, t)
  {
    hide JobValid, DiscoveryValid, WatchdogValid, PlanValid, Active;
    OnlyActiveAfter(x, s, t, id);
  }

  lemma OnlyActiveAfter(x: Externals, s: RuntimeState, t: RuntimeState, id: string)
    requires StateValid(x, s) && IsActive(s, id) && t.jobs.Keys == s.jobs.Keys
    requires forall other :: other in s.jobs && other != id ==> t.jobs[other].run.status == s.jobs[other].run.status
    ensures forall other :: other in t.jobs && IsActive(t, other) ==> other == id
    ensures HasActive(t) <==> Active(t.jobs[id].run.status)
  {
    hide StateValid, Active;
    OnlyActive(x, s, id);
    forall other | other in t.jobs && IsActive(t, other) ensures other == id {
      if other != id {
        SameStatusActive(s, t, other);
      }
    }
    if Active(t.jobs[id].run.status) {
      assert IsActive(t, id);
    }
  }

  lemma SameStatusActive(s: RuntimeState, t: RuntimeState, id: string)
    requires id in s.jobs && id in t.jobs && s.jobs[id].run.status == t.jobs[id].run.status
    ensures IsActive(s, id) == IsActive(t, id)
  {
  }

  /** A finished job without its recovery point is still valid. */
  lemma OthersStayValid(x: Externals, s: RuntimeState, id: string, e: JobEdit, other: string)
    requires StateValid(x, s) && id in s.jobs && other in s.jobs && other != id
    ensures var t := EngineEffect(s, id, e).value;
            other in t.jobs && JobValid(t.plans, t.idempotency, other, t.jobs[other])
  {
    hide StateValid, EngineEffect, HexDigest, TargetValid, MetadataShapeValid;
    ValidJob(x, s, other);
    OtherAfterEdit(s, id, e, other);
    SameTarget(s.plans, s.jobs[other].spec, s.jobs[other].run);
  }

  lemma OtherAfterEdit(s: RuntimeState, id: string, e: JobEdit, other: string)
    requires id in s.jobs && other in s.jobs && other != id
    ensures var t := EngineEffect(s, id, e).value;
            && other in t.jobs
            && (t.jobs[other] == s.jobs[other] ||
                (!Active(s.jobs[other].run.status) &&
                 t.jobs[other] == s.jobs[other].(run := s.jobs[other].run.(recovery := None))))
  {
    hide JobEffect, DesiredEffect;
  }

  lemma SameTarget(plans: map<string, Plan>, spec: JobSpec, r: JobRun)
    ensures TargetValid(plans, spec, r.(recovery := None)) == TargetValid(plans, spec, r)
  {
  }

  /** The desired state always follows the job: upgrading while it is active, never afterwards. */
  lemma DesiredFollowsEdit(s: RuntimeState, h: Host, goal: ImageRef, j: Job, e: JobEdit)
    requires s.desired == Upgrading && ExecutionValid(j.spec, j.run)
    requires MayEdit(h, goal, j, e) || (e.Progress? && Active(Progressed(j.run, e.next).status))
    ensures var d := DesiredEffect(s.desired, j.run, e);
            !d.InvalidDesired? && (d == Upgrading <==> Active(JobEffect(s.plans, j.spec, j.run, e).status))
  {
    hide CompletedHop, MetadataShapeValid;
  }

  lemma EditedRecord(s: RuntimeState, id: string, e: JobEdit)
    requires id in s.jobs
    ensures EngineEffect(s, id, e).Ok?
    ensures EngineEffect(s, id, e).value.desired == DesiredEffect(s.desired, s.jobs[id].run, e)
  {
    hide JobEffect, WithoutOldRecoveries, DesiredEffect;
  }

  lemma ProgressedJobValid(x: Externals, w: World, id: string, next: JobStatus)
    requires StateValid(x, w.visible) && EngineMay(w, id, Progress(next))
    ensures var j := w.visible.jobs[id];
            && JobValid(w.visible.plans, w.visible.idempotency, id, j.(run := Progressed(j.run, next)))
            && Active(Progressed(j.run, next).status)
  {
    hide StateValid, TargetValid, ExecutionValid, HexDigest, Goal;
    var j := w.visible.jobs[id];
    ValidJob(x, w.visible, id);
    ProgressKeepsJob(w.visible.plans, j, w.engine.op, next, Configured(w.host, Goal(w.visible, j)));
  }

  /**
    The store accepts every transaction the engine's code can reach from a tracked record,
    if and only if it is not the count of a fourth recovery attempt.
   */
  lemma EngineIsNeverRefused(x: Externals, w: World, id: string, e: JobEdit)
    requires RecordInv(x, w) && EngineMay(w, id, e)
    ensures Accepted(x, w.visible, OnJob(id, e)) <==>
            !(e.CountAttempt? && w.visible.jobs[id].run.attempts == MAX_RECOVERY_ATTEMPTS)
  {
    hide StateValid, Extends, RecordTracks, RestoresBounded, EngineEffect, EngineMay, Accepted;
    EngineMayOnActive(w, id, e);
    StillThere(w.visible, id);
    if e.CountAttempt? && w.visible.jobs[id].run.attempts == MAX_RECOVERY_ATTEMPTS {
      FourthAttemptRefused(x, w.visible, id);
    } else {
      ReachableEditAccepted(x, w, id, e);
    }
  }

  lemma PlainEdit(w: World, id: string, e: JobEdit)
    requires EngineMay(w, id, e) && !e.Progress?
    ensures MayEdit(w.host, Goal(w.visible, w.visible.jobs[id]), w.visible.jobs[id], e)
  {
    hide MayEdit, MayProgress, Goal;
  }

  lemma ReachableEditAccepted(x: Externals, w: World, id: string, e: JobEdit)
    requires RecordInv(x, w) && EngineMay(w, id, e) && IsActive(w.visible, id) && id in w.visible.jobs
    requires !(e.CountAttempt? && w.visible.jobs[id].run.attempts == MAX_RECOVERY_ATTEMPTS)
    ensures Accepted(x, w.visible, OnJob(id, e))
  {
    hide StateValid, Extends, RecordTracks, JobTracks, RestoresBounded, EngineEffect, MayEdit, MayProgress, JobValid,
         JobEffect, Progressed, DesiredEffect, IsActive, Goal, ExecutionValid, Active, EngineMay,
         Accepted;
    var s, j := w.visible, w.visible.jobs[id];
    var t := EngineEffect(s, id, e).value;
    OnlyActive(x, s, id);
    ActiveTracks(s, w.host, id);
    EditedJob(s, id, e);
    EditedRecord(s, id, e);
    AttemptsBelowLimit(x, s, id);
    if e.Progress? {
      ProgressedJobValid(x, w, id, e.next);
      ProgressEffect(s.plans, j, e.next);
    } else {
      PlainEdit(w, id, e);
      EditKeepsJob(x, s, w.host, id, e);
    }
    ValidExecution(x, s, id);
    DesiredFollowsEdit(s, w.host, Goal(s, j), j, e);
    AllStayValid(x, s, id, e);
    ReplacedJobKeepsState(x, s, t, id);
    ValidEditAccepted(x, s, id, e);
  }

  lemma ValidEditAccepted(x: Externals, s: RuntimeState, id: string, e: JobEdit)
    requires EngineEffect(s, id, e).Ok? && StateValid(x, EngineEffect(s, id, e).value)
    ensures Accepted(x, s, OnJob(id, e))
  {
    hide StateValid, EngineEffect;
  }

  lemma AllStayValid(x: Externals, s: RuntimeState, id: string, e: JobEdit)
    requires StateValid(x, s) && id in s.jobs && EngineEffect(s, id, e).Ok?
    requires var t := EngineEffect(s, id, e).value; JobValid(t.plans, t.idempotency, id, t.jobs[id])
    ensures var t := EngineEffect(s, id, e).value;
            forall other :: other in s.jobs ==> JobValid(t.plans, t.idempotency, other, t.jobs[other])
  {
    hide StateValid, EngineEffect, JobValid;
    var t := EngineEffect(s, id, e).value;
    forall other | other in s.jobs ensures JobValid(t.plans, t.idempotency, other, t.jobs[other]) {
      if other != id {
        OthersStayValid(x, s, id, e, other);
      }
    }
  }

  lemma AttemptsBelowLimit(x: Externals, s: RuntimeState, id: string)
    requires StateValid(x, s) && id in s.jobs
    ensures s.jobs[id].run.attempts <= MAX_RECOVERY_ATTEMPTS
  {
    hide StateValid;
    ValidExecution(x, s, id);
  }

  /** The third attempt was counted, but its outcome was never saved. */
  predicate Stuck(r: JobRun) {
    && r.attempts >= MAX_RECOVERY_ATTEMPTS
    && ((r.status == RollingBack && r.step == JobStep.RestoreBackup) || r.status == Restarting)
  }

  /**
    A process that dies after the third durable count and before saving the outcome leaves
    a job whose next count the store refuses.
   */
  lemma FourthAttemptRefused(x: Externals, s: RuntimeState, id: string)
    requires StateValid(x, s) && id in s.jobs && s.jobs[id].run.attempts == MAX_RECOVERY_ATTEMPTS
    ensures !Accepted(x, s, OnJob(id, CountAttempt))
  {
    hide StateValid, EngineEffect, JobEffect;
    EditedJob(s, id, CountAttempt);
    CountedRun(s.plans, s.jobs[id]);
    if Accepted(x, s, OnJob(id, CountAttempt)) {
      AttemptsBelowLimit(x, EngineEffect(s, id, CountAttempt).value, id);
      assert false;
    }
  }

  lemma CountedRun(plans: map<string, Plan>, j: Job)
    ensures JobEffect(plans, j.spec, j.run, CountAttempt).attempts == j.run.attempts + 1
  {
  }

  /* ---------- The watchdog ---------- */

  /** A write of the watchdog is accepted if and only if the watchdog's own record stays valid. */
  lemma WatchdogAcceptedIffValid(x: Externals, s: RuntimeState, e: WatchdogEdit)
    requires StateValid(x, s)
    ensures Accepted(x, s, OnWatchdog(e)) <==> WatchdogValid(WatchdogEffect(s, e).watchdog)
  {
    hide WatchdogEffect, WatchdogValid, DiscoveryValid, PlanValid, JobValid;
    SameActives(s, WatchdogEffect(s, e));
  }

  /* ---------- Control requests ---------- */

  /** Adding one valid job under a fresh id and key keeps a record valid. */
  lemma AddedJobKeepsState(x: Externals, s: RuntimeState, t: RuntimeState, id: string, j: Job)
    requires StateValid(x, s) && !HasActive(s) && id !in s.jobs && j.spec.key !in s.idempotency && j.spec.key != ""
    requires t == s.(jobs := s.jobs[id := j], idempotency := s.idempotency[j.spec.key := id], desired := Upgrading,
                     watchdog := Suppressed(s.watchdog))
    requires JobValid(t.plans, t.idempotency, id, j) && Active(j.run.status)
    ensures StateValid(x, t)
  {
    hide DiscoveryValid, PlanValid, TargetValid, ExecutionValid, HexDigest, Active;
    forall other | other in t.jobs ensures JobValid(t.plans, t.idempotency, other, t.jobs[other]) {
      if other != id {
        ValidJob(x, s, other);
      }
    }
    forall key | key in t.idempotency
      ensures key != "" && t.idempotency[key] in t.jobs && t.jobs[t.idempotency[key]].spec.key == key
    {
    }
    NewlyActive(t, id, j);
    forall other | other in t.jobs && IsActive(t, other) ensures other == id {
      if other != id {
        SameRunActive(s, t, other);
      }
    }
    SuppressedIsValid(s.watchdog);
  }

  /** A change of the desired state is accepted if and only if no job is active and it is not the reserved state. */
  lemma DesiredAcceptedIffIdle(x: Externals, s: RuntimeState, desired: DesiredState)
    requires StateValid(x, s) && !desired.InvalidDesired?
    ensures Accepted(x, s, FromApi(SetDesired(desired))) <==> !HasActive(s) && desired != Upgrading
  {
    hide DiscoveryValid, PlanValid, JobValid, HasActive, AtMostOneActive;
    SuppressedIsValid(s.watchdog);
    SameActives(s, s.(desired := desired, watchdog := Suppressed(s.watchdog)));
  }

  lemma SuppressedIsValid(w: WatchdogState)
    requires WatchdogValid(w)
    ensures WatchdogValid(Suppressed(w))
  {
  }

  /**
    An authorised creation for a newer version is accepted if and only if the job id that
    was drawn is not in use.
   */
  lemma CreationAcceptedIffFresh(x: Externals, s: RuntimeState, c: Command)
    requires StateValid(x, s) && s.desired == Running
    requires c.CreateJob? && c.key !in s.idempotency && c.key != "" && c.newId != "" && HexDigest(c.bearer)
    requires OlderText(c.current, c.target)
    ensures Accepted(x, s, FromApi(c)) <==> c.newId !in s.jobs
  {
    hide StateValid, HexDigest, TargetValid, ExecutionValid, HasActive, DiscoveryValid, PlanValid;
    RunningIsIdle(x, s);
    if c.newId in s.jobs {
      CollidingJobIdIsRefused(x, s, c);
    } else {
      var j := NewJob(c.key, c.target, c.current, c.newId, c.bearer);
      NewJobIsValid(s.plans, c);
      AddedJobKeepsState(x, s, ApiEffect(s, c).value, c.newId, j);
    }
  }

  lemma NewJobIsValid(plans: map<string, Plan>, c: Command)
    requires c.CreateJob? && OlderText(c.current, c.target)
    ensures var j := NewJob(c.key, c.target, c.current, c.newId, c.bearer);
            TargetValid(plans, j.spec, j.run) && ExecutionValid(j.spec, j.run) && Active(j.run.status)
  {
    hide ParseVersion;
    OlderTextIsTotalOrder(c.target, c.current, c.target);
    OlderTextIsTotalOrder(c.current, c.target, c.current);
  }

  /** The progress figures an active job must have; a finished job's record may lack them. */
  predicate Restartable(j: Job) {
    && j.spec.totalHops >= 1 && 0 <= j.run.currentHop <= j.spec.totalHops
    && j.spec.totalSteps == STEPS_PER_HOP * j.spec.totalHops
  }

  function RestartedRun(r: JobRun): JobRun {
    r.(available := false, attempts := 0, status := Restarting, step := JobStep.Restart)
  }

  lemma RestartedIsValid(plans: map<string, Plan>, j: Job)
    requires ExecutionValid(j.spec, j.run) && TargetValid(plans, j.spec, j.run) && RestartOffered(j)
    ensures TargetValid(plans, j.spec, RestartedRun(j.run))
    ensures ExecutionValid(j.spec, RestartedRun(j.run)) <==> Restartable(j)
  {
    hide MetadataShapeValid, ParseVersion, OlderText, DirectReleaseValid;
  }

  /**
    A permitted restart is accepted if and only if no other job is active and the job's
    progress is in order. The transaction itself looks at neither; validation does.
   */
  lemma RestartAcceptedIffIdle(x: Externals, s: RuntimeState, id: string, token: Option<string>)
    requires StateValid(x, s) && id in s.jobs && TokenAllowed(s.jobs[id], token) && RestartOffered(s.jobs[id])
    ensures Accepted(x, s, FromApi(RestartJob(id, token))) <==> !HasActive(s) && Restartable(s.jobs[id])
  {
    hide StateValid, TargetValid, ExecutionValid, HasActive, TokenAllowed, RestartOffered, Restartable, Suppressed;
    var j := s.jobs[id];
    var t := ApiEffect(s, RestartJob(id, token)).value;
    var restarted := j.(run := RestartedRun(j.run));
    ValidJob(x, s, id);
    RestartedIsValid(s.plans, j);
    assert t == s.(jobs := s.jobs[id := restarted], desired := Upgrading, watchdog := Suppressed(s.watchdog));
    NewlyActive(t, id, restarted);
    if StateValid(x, t) {
      ValidExecution(x, t, id);
      OnlyRestarted(x, s, t, id);
    }
    if !HasActive(s) && Restartable(j) {
      RestartKeepsState(x, s, t, id, restarted);
    }
  }

  /** The restarted job can only be the one active job if none was active before. */
  lemma OnlyRestarted(x: Externals, s: RuntimeState, t: RuntimeState, id: string)
    requires StateValid(x, t) && IsActive(t, id) && id in s.jobs && RestartOffered(s.jobs[id])
    requires t.jobs == s.jobs[id := t.jobs[id]]
    ensures !HasActive(s)
  {
    hide StateValid;
    OnlyActive(x, t, id);
    forall other | other in s.jobs ensures !IsActive(s, other) {
      if other != id && IsActive(s, other) {
        SameRunActive(s, t, other);
      }
    }
  }

  lemma RestartKeepsState(x: Externals, s: RuntimeState, t: RuntimeState, id: string, j: Job)
    requires StateValid(x, s) && !HasActive(s) && id in s.jobs && j.spec == s.jobs[id].spec
    requires t == s.(jobs := s.jobs[id := j], desired := Upgrading, watchdog := Suppressed(s.watchdog))
    requires JobValid(t.plans, t.idempotency, id, j) && IsActive(t, id)
    ensures StateValid(x, t)
  {
    hide DiscoveryValid, PlanValid, TargetValid, ExecutionValid, HexDigest, Active;
    forall other | other in t.jobs ensures JobValid(t.plans, t.idempotency, other, t.jobs[other]) {
      if other != id {
        ValidJob(x, s, other);
      }
    }
    forall key | key in t.idempotency
      ensures key != "" && t.idempotency[key] in t.jobs && t.jobs[t.idempotency[key]].spec.key == key
    {
    }
    forall other | other in t.jobs && IsActive(t, other) ensures other == id {
      if other != id {
        SameRunActive(s, t, other);
      }
    }
    SuppressedIsValid(s.watchdog);
  }
}
