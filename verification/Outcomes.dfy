/**
  What the transactions of a run do, stated for the run's own events: which are accepted,
  what an ended job says about the host, and what requests can and cannot change.
 */
module Outcomes {
  import opened Wrappers
  import opened Text
  import opened Release
  import opened State
  import opened Changes
  import opened Ledger
  import opened System
  import opened Safety
  import opened Images
  import opened Runs
  import opened Acceptance
  import opened Races
  import opened Versions

  /** The engine runs this transaction as the run's event number `k`. */
  predicate EngineRuns(events: seq<Event>, k: nat, id: string, e: JobEdit) {
    k < |events| && events[k].EngineWrite? && events[k].id == id && events[k].edit == e
  }

  /** A request runs this command as the run's event number `k`. */
  predicate RequestRuns(events: seq<Event>, k: nat, c: Command) {
    k < |events| && events[k].RequestWrite? && events[k].c == c
  }

  lemma EngineRan(x: Externals, worlds: seq<World>, events: seq<Event>, k: nat, id: string, e: JobEdit)
    requires IsRun(x, worlds, events) && EngineRuns(events, k, id, e)
    ensures |worlds| == |events| + 1 && Inv(x, worlds[k]) && EngineMay(worlds[k], id, e) && id in worlds[k].visible.jobs
  {
    hide IsRun, Inv, EngineMay, Step;
    RunStep(x, worlds, events, k);
    RunKeepsInv(x, worlds, events, k);
    EngineMayOnActive(worlds[k], id, e);
    StillThere(worlds[k].visible, id);
  }

  lemma RequestRan(x: Externals, worlds: seq<World>, events: seq<Event>, k: nat, c: Command)
    requires IsRun(x, worlds, events) && RequestRuns(events, k, c)
    ensures |worlds| == |events| + 1 && StateValid(x, worlds[k].visible)
    ensures worlds[k + 1].visible == NextVisible(x, worlds[k], FromApi(c), events[k].o)
  {
    hide IsRun, Inv, RequestMay, Step, StateValid;
    RunStep(x, worlds, events, k);
    RunKeepsInv(x, worlds, events, k);
    ValidInInv(x, worlds[k]);
    StepRecord(x, worlds[k], events[k]);
  }

  /* ---------- The engine ---------- */

  /** Validation accepts every transaction of the engine, except exactly the count of a fourth attempt. */
  lemma EngineWritesAreAccepted(x: Externals, worlds: seq<World>, events: seq<Event>, k: nat, id: string, e: JobEdit)
    requires IsRun(x, worlds, events) && EngineRuns(events, k, id, e)
    ensures |worlds| == |events| + 1 && id in worlds[k].visible.jobs
    ensures Accepted(x, worlds[k].visible, OnJob(id, e)) <==>
            !(e.CountAttempt? && worlds[k].visible.jobs[id].run.attempts == MAX_RECOVERY_ATTEMPTS)
  {
    hide IsRun, Inv, RecordInv, EngineMay, Accepted;
    EngineRan(x, worlds, events, k, id, e);
    InvGivesRecordInv(x, worlds[k]);
    EngineIsNeverRefused(x, worlds[k], id, e);
  }

  /**
    A job that succeeds, is rolled back, or goes on to its next hop reports the version
    whose image is configured at that moment, and a crash cannot undo that.
   */
  lemma FinishedJobsMatchTheImage(x: Externals, worlds: seq<World>, events: seq<Event>, k: nat, id: string, e: JobEdit)
    requires IsRun(x, worlds, events) && EngineRuns(events, k, id, e)
    requires e.FinishHop? || e.FinishDirect? || e.FinishRollback?
    ensures |worlds| == |events| + 1 && id in worlds[k].visible.jobs
    ensures var w := worlds[k];
            var r', image := Edited(w, id, e), w.host.image;
            && w.host.kept == {image}
            && r'.currentVersion == image.version && r'.lastSafeVersion == image.version && r'.available
            && (r'.status == Succeeded ==>
                  image == Goal(w.visible, w.visible.jobs[id]) &&
                    image.version == w.visible.jobs[id].spec.targetVersion)
            && (r'.status == RolledBack ==> r'.recovery.Some? && image == RecoveryImage(r'.recovery.value))
            && (r'.status == RolledBack ==> RolledBackReport(w.visible.jobs[id], r'))
  {
    hide IsRun, Inv, EngineMay, Goal, Edited, RecoveryImage, RolledBackReport;
    EngineRan(x, worlds, events, k, id, e);
    OutcomeMatchesImage(x, worlds[k], id, e);
  }

  /**
    A failure reported as before any mutation calls the job's own version the safe one in
    place. That report is wrong for migrating and starting jobs, and for any job once the
    target is configured. For a job that came on record with a sure image it is right while
    preparing unless the job is stale, while pulling, and while stopping exactly if the
    target is not configured.
   */
  lemma PreMutationFailures(
      x: Externals, worlds: seq<World>, events: seq<Event>, k: nat, id: string, code: ErrorCode, available: bool,
      image: ImageRef)
    requires IsRun(x, worlds, events) && EngineRuns(events, k, id, FailBeforeMutation(code, available))
    requires |worlds| == |events| + 1 && image in worlds[k].host.kept
    ensures |worlds| == |events| + 1 && id in worlds[k].visible.jobs
    ensures var w := worlds[k];
            var r, r' := w.visible.jobs[id].run, Edited(w, id, FailBeforeMutation(code, available));
            var goal := Goal(w.visible, w.visible.jobs[id]);
            && r'.status == Failed && r'.lastSafeVersion == r.currentVersion && r'.errorMessage == StoppedBeforeMutation
            && goal.version != r'.lastSafeVersion
            && (r.status == Migrating || r.status == Starting ==> image == goal)
            && (Preparing(r.status) && (SureAtCreation(worlds, k, id) || image == w.host.image) ==>
                  (image.version == r'.lastSafeVersion <==> !Stale(w, id)))
            && (SureAtCreation(worlds, k, id) ==>
                  && (r.status == Pulling ==> AtSource(image, r) && image.version == r'.lastSafeVersion)
                  && (r.status == Stopping ==> (image.version == r'.lastSafeVersion <==> image != goal)))
  {
    hide IsRun, Inv, EngineMay, Goal, Edited, JobSourced, SureAtCreation;
    EngineRan(x, worlds, events, k, id, FailBeforeMutation(code, available));
    PreMutationFailureImage(x, worlds[k], id, code, available);
    RunsAimHigher(x, worlds, events, k);
    ReportAfterWriteIsWrong(x, worlds[k], id, code, available);
    if SureAtCreation(worlds, k, id) {
      SureJobsAreSourced(x, worlds, events, k, id);
    }
  }

  /**
    A saved transaction of the engine leaves the service in maintenance exactly when it
    records the third failed recovery attempt, upgrading exactly while the job is active,
    and running otherwise.
   */
  lemma EndedJobsDecideTheService(x: Externals, worlds: seq<World>, events: seq<Event>, k: nat, id: string, e: JobEdit)
    requires IsRun(x, worlds, events) && EngineRuns(events, k, id, e) && events[k].o == Saved
    requires |worlds| == |events| + 1 && id in worlds[k].visible.jobs && Accepted(x, worlds[k].visible, OnJob(id, e))
    ensures var t := worlds[k + 1].visible;
            && id in t.jobs && t.jobs[id].run == Edited(worlds[k], id, e) && worlds[k + 1].durable == t
            && ServiceFollows(t.desired, t.jobs[id], LastAttemptFails(worlds[k].visible.jobs[id].run, e))
  {
    hide IsRun, Inv, RecordInv, EngineMay, EngineEffect, Edited, StateValid, Step, ServiceFollows, LastAttemptFails;
    EngineRan(x, worlds, events, k, id, e);
    RunStep(x, worlds, events, k);
    StepRecord(x, worlds[k], events[k]);
    SavedStep(x, worlds[k], id, e);
    EndDecidesService(x, worlds[k], id, e);
  }

  /**
    The engine ran this operation on the job from the run's event `i` to its event `j`,
    which gave this answer, and has run no transaction since.
   */
  ghost predicate JustEnded(
      worlds: seq<World>, events: seq<Event>, i: nat, j: nat, k: nat, id: string, op: HostOp, answer: Answer)
  {
    && i < j < k < |worlds| == |events| + 1
    && events[i] == EngineBegin(op) && events[j] == EngineEnd(answer)
    && (forall n :: i < n <= j ==> worlds[n].engine == Operating(id, op))
    && (forall n :: j < n <= k ==> worlds[n].engine == Between(id, OpEnded(op, answer)))
  }

  /** The last thing the engine did was this operation on the job, and it gave this answer. */
  ghost predicate Answered(worlds: seq<World>, events: seq<Event>, k: nat, id: string, op: HostOp, answer: Answer) {
    exists i, j :: JustEnded(worlds, events, i, j, k, id, op, answer)
  }

  lemma {:induction false} OperationsBegan(
      x: Externals, worlds: seq<World>, events: seq<Event>, j: nat, id: string, op: HostOp)
    returns (i: nat)
    requires IsRun(x, worlds, events) && j < |worlds| && worlds[j].engine == Operating(id, op)
    ensures i < j && events[i] == EngineBegin(op)
    ensures forall n :: i < n <= j ==> worlds[n].engine == Operating(id, op)
    decreases j
  {
    hide StateValid;
    RunIsLong(x, worlds, events);
    RunStep(x, worlds, events, j - 1);
    EngineMoves(x, worlds[j - 1], events[j - 1]);
    if worlds[j - 1].engine == Operating(id, op) {
      i := OperationsBegan(x, worlds, events, j - 1, id, op);
    } else {
      i := j - 1;
    }
  }

  lemma {:induction false} AnswersComeFirst(
      x: Externals, worlds: seq<World>, events: seq<Event>, k: nat, id: string, op: HostOp, answer: Answer)
    returns (i: nat, j: nat)
    requires IsRun(x, worlds, events) && k < |worlds| && worlds[k].engine == Between(id, OpEnded(op, answer))
    ensures JustEnded(worlds, events, i, j, k, id, op, answer)
    decreases k
  {
    hide StateValid;
    RunIsLong(x, worlds, events);
    RunStep(x, worlds, events, k - 1);
    EngineMoves(x, worlds[k - 1], events[k - 1]);
    if worlds[k - 1].engine == worlds[k].engine {
      i, j := AnswersComeFirst(x, worlds, events, k - 1, id, op, answer);
    } else {
      j := k - 1;
      i := OperationsBegan(x, worlds, events, j, id, op);
    }
  }

  /** What an event can make of the engine's place. */
  lemma EngineMoves(x: Externals, w: World, e: Event)
    requires Enabled(w, e)
    ensures var pc, next := w.engine, Step(x, w, e).engine;
            || next == pc || next == Resting
            || (next.Between? && (next.did == Nothing || next.did == AttemptCounted))
            || (pc.Between? && e.EngineBegin? && next == Operating(pc.id, e.op))
            || (pc.Operating? && e.EngineEnd? && next == Between(pc.id, OpEnded(pc.op, e.answer)))
  {
    hide EngineMay, MayBegin, Settled, Goal, NextVisible, NextDurable, NextHost, WatchAfter, Acknowledged,
         AfterSnapshot, RecoveryImage, Issued, WatchMay, RequestMay;
  }

  /** The engine's last operation on the job, if it has just ended one, gave this answer. */
  ghost predicate Truthful(worlds: seq<World>, events: seq<Event>, k: nat, id: string, did: Did) {
    did.OpEnded? ==> Answered(worlds, events, k, id, did.op, did.answer)
  }

  /**
    A change in a job's progress and what the engine had just done fit together: only the
    one answer leads to each of the outcomes.
   */
  predicate Explained(s: RuntimeState, j: Job, r': JobRun, did: Did) {
    var r := j.run;
    && (r.status == HealthCheck && r'.status != HealthCheck && r'.status != RollingBack ==>
          did == OpEnded(CheckTargetOp, Yes))
    && (r'.status == Succeeded && r.status != Succeeded ==> did == OpEnded(CheckTargetOp, Yes))
    && (r'.currentHop > r.currentHop && r'.status != RolledBack ==> did == OpEnded(CheckTargetOp, Yes))
    && (r'.status == RolledBack && r.status != RolledBack ==> did == OpEnded(CheckRestoredOp, Yes))
    && (r'.step == CheckRestored && r.step != CheckRestored ==> did == OpEnded(RestoreOp, Yes))
    && (r.status == RollingBack && r'.status == Failed ==>
          did == OpEnded(RestoreOp, No) || did == OpEnded(CheckRestoredOp, No))
    && (r.status == Restarting && r'.status == Failed ==> did == OpEnded(RestartOp, YesNo(r'.available)))
    && (r'.status == HealthCheck && r.status != HealthCheck ==> did == OpEnded(ActivateOp, Yes))
    && (Preparing(r.status) && Activating(r'.status) ==> did == OpEnded(PrepareOp, Yes))
    && (r'.status == RollingBack && r.status != RollingBack ==> RollbackIsDue(s, j, r'.errorCode, did))
    && (Preparing(r.status) && r'.status == Failed ==> RefusalIsDue(s, j, r', did))
    && (Activating(r.status) && r'.status == Failed ==>
          || (r'.errorCode == ActivationFailed && did == OpEnded(ActivateOp, No))
          || (r'.errorCode == SourceUntrusted && Unbound(s, j)))
  }

  /** A rollback's error code says why it began: the activation, the health check, or a hop without a bound source. */
  predicate RollbackIsDue(s: RuntimeState, j: Job, code: ErrorCode, did: Did) {
    || (code == ActivationFailed && did == OpEnded(ActivateOp, Mutated))
    || (code == TargetUnhealthy && did == OpEnded(CheckTargetOp, No))
    || (code == SourceUntrusted && Unbound(s, j))
  }

  /**
    A job that fails while it is being prepared was refused by the preparation, with the
    availability and the reason it reports, or by the engine's own checks of its result.
   */
  predicate RefusalIsDue(s: RuntimeState, j: Job, r': JobRun, did: Did) {
    || (r'.errorCode == BackupFailed && did == OpEnded(PrepareOp, Refused(r'.available, false)))
    || (r'.errorCode == SourceUntrusted && did == OpEnded(PrepareOp, Refused(r'.available, true)))
    || (r'.errorCode in {SourceUntrusted, BackupInvalid} && r'.available && did == OpEnded(PrepareOp, Yes))
    || (r'.errorCode == SourceUntrusted && Unbound(s, j))
  }

  /**
    What the host answered decides what becomes of a job. In every run, when a job leaves
    a phase for the next one, finishes a hop, succeeds, counts as rolled back or restarted,
    begins a rollback or fails, the operation on it that just ended gave the answer for that.
   */
  lemma OutcomesNeedTheirAnswer(x: Externals, worlds: seq<World>, events: seq<Event>, k: nat, id: string)
    returns (did: Did)
    requires IsRun(x, worlds, events) && k < |events| && !events[k].Crash?
    requires |worlds| == |events| + 1 && id in worlds[k].visible.jobs && id in worlds[k + 1].visible.jobs
    ensures Truthful(worlds, events, k, id, did)
    ensures Explained(worlds[k].visible, worlds[k].visible.jobs[id], worlds[k + 1].visible.jobs[id].run, did)
  {
    hide IsRun, Inv, EngineMay, Edited, Step, Explained, JustEnded, Enabled, Truthful, OtherRunChange;
    RunStep(x, worlds, events, k);
    RunKeepsInv(x, worlds, events, k);
    var w, e := worlds[k], events[k];
    did := if w.engine.Between? && w.engine.id == id then w.engine.did else Nothing;
    DidIsTruthful(x, worlds, events, k, id, did);
    OnlyTheEngineDecides(x, w, e, id);
    if OtherRunChange(w.visible.jobs[id].run, worlds[k + 1].visible.jobs[id].run) {
      OthersDecideNothing(w.visible, w.visible.jobs[id], worlds[k + 1].visible.jobs[id].run, did);
    } else {
      assert EngineMay(w, id, e.edit) by { EngineWriteIsAllowed(w, e); }
      EditsFollowAnswers(w, id, e.edit);
    }
  }

  lemma DidIsTruthful(x: Externals, worlds: seq<World>, events: seq<Event>, k: nat, id: string, did: Did)
    requires IsRun(x, worlds, events) && k < |worlds|
    requires did == Nothing || worlds[k].engine == Between(id, did)
    ensures Truthful(worlds, events, k, id, did)
  {
    hide IsRun, JustEnded;
    if did.OpEnded? {
      var i, j := AnswersComeFirst(x, worlds, events, k, id, did.op, did.answer);
    }
  }

  lemma EngineWriteIsAllowed(w: World, e: Event)
    requires Enabled(w, e) && e.EngineWrite?
    ensures EngineMay(w, e.id, e.edit)
  {
    hide EngineMay;
  }

  /** What requests, and the engine's work on other jobs, can make of a job's progress. */
  predicate OtherRunChange(r: JobRun, r': JobRun) {
    || r' == r.(recovery := r'.recovery)
    || (r.status == Failed && r' == r.(available := false, attempts := 0, status := Restarting, step := Restart))
  }

  lemma OthersDecideNothing(s: RuntimeState, j: Job, r': JobRun, did: Did)
    requires OtherRunChange(j.run, r')
    ensures Explained(s, j, r', did)
  {
  }

  lemma OnlyTheEngineDecides(x: Externals, w: World, e: Event, id: string)
    requires Inv(x, w) && Enabled(w, e) && !e.Crash? && id in w.visible.jobs && id in Step(x, w, e).visible.jobs
    ensures OtherRunChange(w.visible.jobs[id].run, Step(x, w, e).visible.jobs[id].run) ||
            (e.EngineWrite? && e.id == id && Step(x, w, e).visible.jobs[id].run == Edited(w, id, e.edit))
  {
    hide Enabled, Step, Inv, StateValid, JobEffect, DesiredEffect, ApiEffect, WatchdogEffect;
    ValidInInv(x, w);
    StepRecord(x, w, e);
    if e.RequestWrite? && Accepted(x, w.visible, FromApi(e.c)) {
      RequestsOnlyRestart(x, w.visible, e.c, id);
    }
  }

  /** A request leaves every job's progress alone, except that it restarts a failed one. */
  lemma RequestsOnlyRestart(x: Externals, s: RuntimeState, c: Command, id: string)
    requires StateValid(x, s) && ApiEffect(s, c).Ok? && StateValid(x, ApiEffect(s, c).value) && id in s.jobs
    ensures id in ApiEffect(s, c).value.jobs && OtherRunChange(s.jobs[id].run, ApiEffect(s, c).value.jobs[id].run)
  {
    hide StateValid, HasActive, Suppressed, TokenAllowed, Rotated;
    ValidIsWellKeyed(x, s);
    if c.CreateJob? && c.key !in s.idempotency && c.newId in s.jobs {
      CollidingJobIdIsRefused(x, s, c);
    }
  }

  /** What the engine makes of a job follows what the host answered. */
  lemma EditsFollowAnswers(w: World, id: string, e: JobEdit)
    requires EngineMay(w, id, e)
    ensures w.engine != Resting && w.engine.id == id
    ensures var did := if w.engine.Between? then w.engine.did else Nothing;
            id in w.visible.jobs && Explained(w.visible, w.visible.jobs[id], Edited(w, id, e), did)
  {
    hide Target, MetadataShapeValid, RecoveryImage, Settled, CompletedHop;
  }

  /** A job's progress up to the fields that a report of its end may change. */
  predicate SameProgress(r: JobRun, r': JobRun) {
    r'.currentVersion == r.currentVersion && r'.currentHop == r.currentHop && r'.completedSteps == r.completedSteps
  }

  /**
    What the record of a job that has just ended says: it is complete, a success has no
    error, a rollback keeps the error that began it, a restart that helped keeps the job's
    error, and every other failure names its reason, its message and what is safe.
   */
  predicate ReportsItsEnd(r: JobRun, r': JobRun) {
    && r'.step == Complete && r'.attempts == r.attempts
    && (r'.recovery != r.recovery ==>
          Preparing(r.status) && r'.errorCode == SourceUntrusted && r'.errorMessage == SourceNotApproved)
    && match r'.status
       case Succeeded =>
         && r'.available && r'.errorCode == NoError && r'.errorMessage == NoMessage
         && r'.lastSafeVersion == r'.currentVersion && r'.completedSteps == 7 * r'.currentHop
       case RolledBack =>
         && r'.available && r'.errorCode == r.errorCode && r'.lastSafeVersion == r'.currentVersion
         && r'.errorMessage == (if r.errorCode == NoError then NoMessage else PreviousRestored)
       case Failed =>
         && SameProgress(r, r')
         && (if r.status == Restarting && r'.available then
               && r'.errorCode == r.errorCode && r'.errorMessage == r.errorMessage
               && r'.lastSafeVersion == (if r.lastSafeVersion == "" then r.currentVersion else r.lastSafeVersion)
             else if r.status == Restarting then
               && r'.errorCode == RestartUnsuccessful && r'.errorMessage == RestartExhausted
               && r'.lastSafeVersion == r.lastSafeVersion
             else if r.status == RollingBack then
               && !r'.available && r'.errorCode == RollbackFailed && r'.errorMessage == RecoveryExhausted
               && r'.lastSafeVersion == r.lastSafeVersion
             else
               && r'.lastSafeVersion == r.currentVersion
               && (r'.errorMessage == StoppedBeforeMutation ||
                   (r'.errorMessage == SourceNotApproved && r'.errorCode == SourceUntrusted && r'.available &&
                    r'.recovery.Some?)))
       case _ => false
  }

  /** A rollback that begins announces the outage and the restore, and changes nothing else of the job. */
  predicate ReportsRollback(r: JobRun, r': JobRun) {
    && r' == r.(status := RollingBack, step := r'.step, available := r'.available, errorCode := r'.errorCode,
                errorMessage := r'.errorMessage)
    && r'.step == RestoreBackup && !r'.available && r'.errorMessage == RestoringPrevious && r'.errorCode != NoError
  }

  /** In every run the record of a job that ends, or begins to roll back, says so completely. */
  lemma EndedJobsReport(x: Externals, worlds: seq<World>, events: seq<Event>, k: nat, id: string)
    requires IsRun(x, worlds, events) && k < |events| && !events[k].Crash?
    requires |worlds| == |events| + 1 && id in worlds[k].visible.jobs && id in worlds[k + 1].visible.jobs
    ensures var r, r' := worlds[k].visible.jobs[id].run, worlds[k + 1].visible.jobs[id].run;
            && (Active(r.status) && Terminal(r'.status) ==> ReportsItsEnd(r, r'))
            && (r.status != RollingBack && r'.status == RollingBack ==> ReportsRollback(r, r'))
  {
    hide IsRun, Inv, EngineMay, Edited, Step, Enabled, OtherRunChange, ReportsItsEnd, ReportsRollback, ExecutionValid;
    RunStep(x, worlds, events, k);
    RunKeepsInv(x, worlds, events, k);
    var w, e := worlds[k], events[k];
    OnlyTheEngineDecides(x, w, e, id);
    if OtherRunChange(w.visible.jobs[id].run, worlds[k + 1].visible.jobs[id].run) {
      OthersEndNothing(w.visible.jobs[id].run, worlds[k + 1].visible.jobs[id].run);
    } else {
      assert EngineMay(w, id, e.edit) by { EngineWriteIsAllowed(w, e); }
      EditsReport(w, id, e.edit);
    }
  }

  lemma OthersEndNothing(r: JobRun, r': JobRun)
    requires OtherRunChange(r, r')
    ensures !(Active(r.status) && Terminal(r'.status)) && !(r.status != RollingBack && r'.status == RollingBack)
  {
  }

  lemma EditsReport(w: World, id: string, e: JobEdit)
    requires EngineMay(w, id, e)
    ensures id in w.visible.jobs
    ensures var r, r' := w.visible.jobs[id].run, Edited(w, id, e);
            && (Active(r.status) && Terminal(r'.status) ==> ReportsItsEnd(r, r'))
            && (r.status != RollingBack && r'.status == RollingBack ==> ReportsRollback(r, r'))
  {
    hide Target, MetadataShapeValid, RecoveryImage, Settled, MayEdit, Follows, Unbound, ReportsItsEnd, ReportsRollback,
         JobEffect, Configured;
    var j := w.visible.jobs[id];
    if e.Progress? {
      ReportedPhase(w.visible.plans, j, e.next);
    } else {
      EditReports(w.visible.plans, w.host, Goal(w.visible, j), j, e);
    }
  }

  lemma ReportedPhase(plans: map<string, Plan>, j: Job, next: JobStatus)
    requires Preparing(next) || Activating(next)
    ensures var r' := JobEffect(plans, j.spec, j.run, JobEdit.Progress(next));
            r'.status == j.run.status || (!Terminal(r'.status) && r'.status != RollingBack)
  {
  }

  lemma EditReports(plans: map<string, Plan>, h: Host, goal: ImageRef, j: Job, e: JobEdit)
    requires !e.Progress? && MayEdit(h, goal, j, e)
    ensures var r, r' := j.run, JobEffect(plans, j.spec, j.run, e);
            && (Active(r.status) && Terminal(r'.status) ==> ReportsItsEnd(r, r'))
            && (r.status != RollingBack && r'.status == RollingBack ==> ReportsRollback(r, r'))
  {
    hide RecoveryImage, CompletedHop, FreshRecovery, Configured;
  }

  /** A saved recovery point is the only one on record. */
  lemma OnlyOneRecoveryPoint(
      x: Externals, worlds: seq<World>, events: seq<Event>, k: nat, id: string, meta: BackupMetadata, completed: int,
      other: string)
    requires IsRun(x, worlds, events) && EngineRuns(events, k, id, RecordRecovery(meta, completed)) &&
             events[k].o == Saved
    ensures |worlds| == |events| + 1
    ensures var t := worlds[k + 1].durable;
            && id in t.jobs && t.jobs[id].run.recovery == Some(meta)
            && (other in t.jobs && other != id ==> t.jobs[other].run.recovery.None?)
  {
    hide IsRun, Inv, RecordInv, EngineMay, EngineEffect, StateValid, Step;
    var e := RecordRecovery(meta, completed);
    EngineRan(x, worlds, events, k, id, e);
    RunStep(x, worlds, events, k);
    StepRecord(x, worlds[k], events[k]);
    EngineWritesAreAccepted(x, worlds, events, k, id, e);
    SavedStep(x, worlds[k], id, e);
    OneRecoveryPoint(x, worlds[k], id, meta, completed, other);
  }

  /* ---------- Requests ---------- */

  /** A creation that draws a job id in use changes nothing. */
  lemma CollidingIdsChangeNothing(x: Externals, worlds: seq<World>, events: seq<Event>, k: nat, c: Command)
    requires IsRun(x, worlds, events) && RequestRuns(events, k, c) && c.CreateJob?
    requires |worlds| == |events| + 1 && c.key !in worlds[k].visible.idempotency && c.newId in worlds[k].visible.jobs
    ensures worlds[k + 1].visible == worlds[k].visible
  {
    hide IsRun, StateValid, ApiEffect;
    RequestRan(x, worlds, events, k, c);
    CollidingJobIdIsRefused(x, worlds[k].visible, c);
  }

  /**
    A replay, and a creation with a known key, gives the key's job one more token if the
    job has the requested target, and changes nothing otherwise.
   */
  lemma ReplaysAddTokens(x: Externals, worlds: seq<World>, events: seq<Event>, k: nat, c: Command)
    requires IsRun(x, worlds, events) && RequestRuns(events, k, c) && |worlds| == |events| + 1
    requires c.RotateTicket? || (c.CreateJob? && c.key in worlds[k].visible.idempotency)
    ensures var s, t := worlds[k].visible, worlds[k + 1].visible;
            var matches := c.key in s.idempotency && s.idempotency[c.key] in s.jobs &&
                           s.jobs[s.idempotency[c.key]].spec.targetVersion == c.target;
            && (Accepted(x, s, FromApi(c)) <==> matches && HexDigest(c.bearer))
            && (matches && HexDigest(c.bearer) && events[k].o != Lost ==>
                  var j := s.jobs[s.idempotency[c.key]];
                  t == s.(jobs := s.jobs[s.idempotency[c.key] := j.(bearers := j.bearers + [c.bearer])]))
            && (!(matches && HexDigest(c.bearer)) || events[k].o == Lost ==> t == s)
  {
    hide IsRun, StateValid, HasActive, HexDigest, Rotated;
    RequestRan(x, worlds, events, k, c);
    RotationIsExact(x, worlds[k].visible, c.key, c.target, c.bearer);
  }

  /** Rotation succeeds exactly for a known key with the requested target, and appends the token. */
  lemma RotationIsExact(x: Externals, s: RuntimeState, key: string, target: string, bearer: string)
    requires StateValid(x, s)
    ensures var r := Rotated(s, key, target, bearer);
            && (r == Err(IdempotencyNotFound) <==> key !in s.idempotency)
            && (key in s.idempotency ==>
                  && s.idempotency[key] in s.jobs
                  && var j := s.jobs[s.idempotency[key]];
                     if j.spec.targetVersion != target then r == Err(IdempotencyConflict)
                     else
                       && r == Ok(s.(jobs := s.jobs[s.idempotency[key] := j.(bearers := j.bearers + [bearer])]))
                       && (StateValid(x, r.value) <==> HexDigest(bearer)))
  {
    hide PlanValid, WatchdogValid, DiscoveryValid, TargetValid, ExecutionValid, HexDigest, HasActive, AtMostOneActive;
    ValidIsWellKeyed(x, s);
    if key in s.idempotency && s.jobs[s.idempotency[key]].spec.targetVersion == target {
      var id := s.idempotency[key];
      var j := s.jobs[id];
      var more := j.(bearers := j.bearers + [bearer]);
      var t := s.(jobs := s.jobs[id := more]);
      RotatedActives(s, t, id);
      assert JobValid(s.plans, s.idempotency, id, j);
      assert more.bearers[|j.bearers|] == bearer;
      if HexDigest(bearer) {
        assert JobValid(t.plans, t.idempotency, id, more);
      }
      if StateValid(x, t) {
        assert JobValid(t.plans, t.idempotency, id, t.jobs[id]);
      }
    }
  }

  lemma RotatedActives(s: RuntimeState, t: RuntimeState, id: string)
    requires id in s.jobs && id in t.jobs
    requires t == s.(jobs := s.jobs[id := s.jobs[id].(bearers := t.jobs[id].bearers)])
    ensures HasActive(t) == HasActive(s) && AtMostOneActive(t) == AtMostOneActive(s)
  {
    forall other ensures IsActive(t, other) == IsActive(s, other) {
    }
    if AtMostOneActive(s) {
      assert AtMostOneActive(t);
    }
    if AtMostOneActive(t) {
      assert AtMostOneActive(s);
    }
  }

  /** A creation that goes through adds exactly the job it asked for, queued, with the version that was read. */
  lemma CreationsAddTheirJob(x: Externals, worlds: seq<World>, events: seq<Event>, k: nat, c: Command)
    requires IsRun(x, worlds, events) && RequestRuns(events, k, c) && |worlds| == |events| + 1
    requires c.CreateJob? && c.key !in worlds[k].visible.idempotency
    ensures var s, t := worlds[k].visible, worlds[k + 1].visible;
            if Accepted(x, s, FromApi(c)) && events[k].o != Lost then
              && !HasActive(s) && s.desired == Running && c.newId !in s.jobs && c.newId in t.jobs
              && t == s.(jobs := s.jobs[c.newId := t.jobs[c.newId]], idempotency := s.idempotency[c.key := c.newId],
                         desired := Upgrading, watchdog := t.watchdog)
              && IsSuppressed(s.watchdog, t.watchdog) && IsNewJob(t.jobs[c.newId], c)
            else t == s
  {
    hide IsRun, StateValid, HasActive;
    RequestRan(x, worlds, events, k, c);
    if c.newId in worlds[k].visible.jobs {
      CollidingJobIdIsRefused(x, worlds[k].visible, c);
    }
  }

  /** One hop of seven steps to the target, not begun, with the service available and one token. */
  predicate IsNewJob(j: Job, c: Command)
    requires c.CreateJob?
  {
    && j.spec.id == c.newId && j.spec.key == c.key && j.spec.targetVersion == c.target && j.bearers == [c.bearer]
    && j.spec.direct == Some(DirectRelease(c.target, "")) && j.spec.planHash == "" && j.spec.manifestDigest == ""
    && j.spec.totalHops == 1 && j.spec.totalSteps == 7
    && j.run.status == Queued && j.run.step == AtPhase(Validating) && j.run.currentHop == 0
    && j.run.completedSteps == 0 && j.run.attempts == 0 && j.run.available && j.run.recovery.None?
    && j.run.currentVersion == c.current && j.run.lastSafeVersion == c.current
    && j.run.errorCode == NoError && j.run.errorMessage == NoMessage
  }

  /** A replay, and a creation with a known key, adds no job and changes no job's progress. */
  lemma ReplaysCreateNothing(x: Externals, worlds: seq<World>, events: seq<Event>, k: nat, c: Command)
    requires IsRun(x, worlds, events) && RequestRuns(events, k, c) && |worlds| == |events| + 1
    requires c.RotateTicket? || (c.CreateJob? && c.key in worlds[k].visible.idempotency)
    ensures worlds[k + 1].visible.jobs.Keys == worlds[k].visible.jobs.Keys
    ensures worlds[k + 1].visible == worlds[k].visible.(jobs := worlds[k + 1].visible.jobs)
    ensures forall id :: id in worlds[k].visible.jobs ==>
              worlds[k + 1].visible.jobs[id].run == worlds[k].visible.jobs[id].run
  {
    hide IsRun, StateValid, Rotated, HasActive;
    RequestRan(x, worlds, events, k, c);
    ValidIsWellKeyed(x, worlds[k].visible);
    if Accepted(x, worlds[k].visible, FromApi(c)) {
      ReplayCreatesNothing(x, worlds[k].visible, c);
    }
  }

  /** The watchdog stands back: its attempts and its last instants stay, and nothing else. */
  predicate IsSuppressed(w: WatchdogState, after: WatchdogState) {
    && after.status == WatchSuppressed && after.failures == 0 && after.cooldownUntil == 0
    && after.errorCode == NoWatchError && after.attempts == w.attempts
    && after.lastObservedAt == w.lastObservedAt && after.lastRepairAt == w.lastRepairAt
  }

  /** A change of the desired state that goes through changes that, suppresses the watchdog, and nothing else. */
  lemma DesiredChangesExactly(
      x: Externals, worlds: seq<World>, events: seq<Event>, k: nat, desired: DesiredState)
    requires IsRun(x, worlds, events) && RequestRuns(events, k, SetDesired(desired)) && |worlds| == |events| + 1
    requires !desired.InvalidDesired?
    ensures var s, t := worlds[k].visible, worlds[k + 1].visible;
            if !HasActive(s) && desired != Upgrading && events[k].o != Lost then
              && t == s.(desired := desired, watchdog := t.watchdog) && IsSuppressed(s.watchdog, t.watchdog)
            else t == s
  {
    hide IsRun, StateValid, HasActive;
    RequestRan(x, worlds, events, k, SetDesired(desired));
    DesiredAcceptedIffIdle(x, worlds[k].visible, desired);
  }

  /** The presented token is one of those on record for the job. */
  predicate OnRecord(s: RuntimeState, id: string, token: Option<string>) {
    id in s.jobs && token.Some? && exists n :: 0 <= n < |s.jobs[id].bearers| && s.jobs[id].bearers[n] == token.value
  }

  /** The job failed with the service down, no job is active, and its progress figures are in order. */
  predicate CanRestart(s: RuntimeState, id: string) {
    && id in s.jobs && s.jobs[id].run.status == Failed && !s.jobs[id].run.available
    && !HasActive(s) && Restartable(s.jobs[id])
  }

  /**
    A restart goes through exactly with a token that is on record for its job, and only for
    a job that can be restarted; any other attempt changes nothing.
   */
  lemma RestartsNeedTheirToken(
      x: Externals, worlds: seq<World>, events: seq<Event>, k: nat, id: string, token: Option<string>)
    requires IsRun(x, worlds, events) && RequestRuns(events, k, RestartJob(id, token)) && |worlds| == |events| + 1
    ensures var s, t := worlds[k].visible, worlds[k + 1].visible;
            var granted := OnRecord(s, id, token) && CanRestart(s, id);
            && (Accepted(x, s, FromApi(RestartJob(id, token))) <==> granted)
            && (!granted ==> t == s && worlds[k + 1].durable == worlds[k].durable)
            && (granted && events[k].o != Lost ==>
                  && id in t.jobs
                  && t == s.(jobs := s.jobs[id := t.jobs[id]], desired := Upgrading, watchdog := t.watchdog)
                  && IsSuppressed(s.watchdog, t.watchdog)
                  && t.jobs[id] == s.jobs[id].(run := t.jobs[id].run)
                  && t.jobs[id].run == s.jobs[id].run.(
                       status := Restarting, step := JobStep.Restart, available := false, attempts := 0))
  {
    hide IsRun, StateValid, HasActive, Restartable, Enabled, Step;
    RunStep(x, worlds, events, k);
    StepRecord(x, worlds[k], events[k]);
    RequestRan(x, worlds, events, k, RestartJob(id, token));
    var s := worlds[k].visible;
    if id in s.jobs && TokenAllowed(s.jobs[id], token) && RestartOffered(s.jobs[id]) {
      RestartAcceptedIffIdle(x, s, id, token);
    }
  }

  /** Already the first look at the record turns a restart away without a token that is on record. */
  lemma RestartsAreScreened(x: Externals, w: World, n: nat, id: string, token: Option<string>)
    requires n in w.requests && w.requests[n] == Arrived(RestartRequest(id, token))
    ensures Enabled(w, Snapshot(n))
    ensures var passes := OnRecord(w.visible, id, token) && w.visible.jobs[id].run.status == Failed &&
                          !w.visible.jobs[id].run.available;
            Step(x, w, Snapshot(n)).requests ==
            if passes then w.requests[n := Entering(RestartRequest(id, token))] else w.requests - {n}
  {
  }

  /* ---------- The watchdog ---------- */

  /** Suppression outside the running state is lost through exactly one kind of event. */
  lemma SuppressionLostOnlyBlindly(x: Externals, worlds: seq<World>, events: seq<Event>, k: nat)
    requires IsRun(x, worlds, events) && k < |events| && |worlds| == |events| + 1
    requires SuppressedUnlessRunning(worlds[k].visible) && SuppressedUnlessRunning(worlds[k].durable)
    ensures SuppressedUnlessRunning(worlds[k + 1].visible) <==> !BlindHealthyWrite(x, worlds[k], events[k])
  {
    hide IsRun, Inv, SuppressedUnlessRunning, BlindHealthyWrite, Step, Enabled;
    RunStep(x, worlds, events, k);
    RunKeepsInv(x, worlds, events, k);
    SuppressionIsLostExactlyBy(x, worlds[k], events[k]);
  }
}
