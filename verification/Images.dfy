/**
  The image a job starts from. Until the target is written durably, the configured image
  is the one the upgrade started from, provided that every image a crash could leave agreed
  with it when the job came on record.
 */
module Images {
  import opened Wrappers
  import opened Text
  import opened Release
  import opened State
  import opened Changes
  import opened Ledger
  import opened System
  import opened Safety

  /** The image the upgrade started from: the recovery image, unless it was configured by tag alone. */
  predicate AtSource(image: ImageRef, r: JobRun) {
    && image.version == r.currentVersion && r.recovery.Some?
    && (image.digest != "" ==> image == RecoveryImage(r.recovery.value))
  }

  /** The other image is the configured one, or names its version by tag alone. */
  predicate Agrees(image: ImageRef, other: ImageRef) {
    other == image || (other.version == image.version && other.digest == "")
  }

  /** Every image a crash may leave agrees with the configured one. */
  predicate ImageSure(h: Host) {
    forall i :: i in h.kept ==> Agrees(h.image, i)
  }

  /** One of the two images an upgrade moves between. */
  predicate AtEither(image: ImageRef, goal: ImageRef, r: JobRun) {
    AtSource(image, r) || image == goal
  }

  /**
    Before the job changes the image a crash leaves only the source's; from then on it
    leaves one of the job's two images.
   */
  predicate Sourced(h: Host, goal: ImageRef, r: JobRun) {
    && (r.status == Queued || Preparing(r.status) ==> ImageSure(h))
    && (r.status == Pulling ==> forall i :: i in h.kept ==> AtSource(i, r))
    && (r.status == Stopping || (r.status == RollingBack && r.step == RestoreBackup) ==>
          forall i :: i in h.kept ==> AtEither(i, goal, r))
  }

  predicate SourcedIn(s: RuntimeState, h: Host, id: string) {
    id in s.jobs ==> Sourced(h, Goal(s, s.jobs[id]), s.jobs[id].run)
  }

  /** In both copies of the record. */
  predicate JobSourced(w: World, id: string) {
    SourcedIn(w.visible, w.host, id) && SourcedIn(w.durable, w.host, id)
  }

  /* ---------- Transactions ---------- */

  lemma EditKeepsSource(plans: map<string, Plan>, h: Host, j: Job, e: JobEdit)
    requires Tracks(h, j.spec.id, Target(plans, j.spec, j.run.currentHop), j.run)
    requires Sourced(h, Target(plans, j.spec, j.run.currentHop), j.run)
    requires MayEdit(h, Target(plans, j.spec, j.run.currentHop), j, e)
    ensures var r' := JobEffect(plans, j.spec, j.run, e); Sourced(h, Target(plans, j.spec, r'.currentHop), r')
  {
    hide ParseVersion, MetadataShapeValid, Target, CompletedHop, CountOf;
  }

  lemma ProgressKeepsSource(h: Host, goal: ImageRef, op: HostOp, r: JobRun, next: JobStatus)
    requires Sourced(h, goal, r) && MayProgress(op, r, next, Configured(h, goal))
    ensures Sourced(h, goal, Progressed(r, next)) && Progressed(r, next).currentHop == r.currentHop
  {
  }

  lemma EngineKeepsSource(x: Externals, w: World, id: string, e: JobEdit, job: string)
    requires RecordInv(x, w) && EngineMay(w, id, e) && SourcedIn(w.visible, w.host, job)
    ensures EngineEffect(w.visible, id, e).Ok? && SourcedIn(EngineEffect(w.visible, id, e).value, w.host, job)
  {
    hide StateValid, JobEffect, EngineEffect, MayEdit, MayProgress, Tracks, Target, IsActive, Progressed, Extends,
         RecordTracks, RestoresBounded, Sourced, Active, ExecutionValid;
    var s, j := w.visible, w.visible.jobs[id];
    EngineMayOnActive(w, id, e);
    ValidExecution(x, s, id);
    ActiveTracks(s, w.host, id);
    EditedJob(s, id, e);
    if job != id {
      if job in s.jobs {
        IdleHasNoSource(w.host, Goal(s, s.jobs[job]), s.jobs[job].run, EngineEffect(s, id, e).value.jobs[job].run);
      }
    } else if e.Progress? {
      ProgressKeepsSource(w.host, Goal(s, j), w.engine.op, j.run, e.next);
      ProgressEffect(s.plans, j, e.next);
    } else {
      EditKeepsSource(s.plans, w.host, j, e);
    }
  }

  /** Giving up an old recovery point concerns finished jobs only. */
  lemma IdleHasNoSource(h: Host, goal: ImageRef, r: JobRun, r': JobRun)
    requires Sourced(h, goal, r) && r' == r.(recovery := r'.recovery) && (Active(r.status) ==> r' == r)
    ensures Sourced(h, goal, r')
  {
  }

  lemma CommandKeepsSource(x: Externals, s: RuntimeState, h: Host, c: Command, job: string)
    requires StateValid(x, s) && ApiEffect(s, c).Ok? && StateValid(x, ApiEffect(s, c).value)
    requires if job in s.jobs then SourcedIn(s, h, job) else ImageSure(h)
    ensures SourcedIn(ApiEffect(s, c).value, h, job)
  {
    hide StateValid, WellKeyed, Rotated, HasActive, Suppressed, TokenAllowed, RestartOffered, Target, AtSource;
    ValidIsWellKeyed(x, s);
    if c.CreateJob? && c.key !in s.idempotency {
      CreationIsNew(x, s, c);
    }
  }

  /** Only the images matter to where a job started from. */
  lemma SourceIsImages(s: RuntimeState, h: Host, h': Host, job: string)
    requires SourcedIn(s, h, job) && h'.image == h.image && h'.kept == h.kept
    ensures SourcedIn(s, h', job)
  {
    hide Target, AtSource;
  }

  /** The job is on record already, or no unsynced image write is outstanding as it comes on record. */
  predicate SureFor(w: World, job: string) {
    if job in w.visible.jobs then JobSourced(w, job) else ImageSure(w.host)
  }

  lemma WriteKeepsSource(x: Externals, w: World, c: Change, o: Outcome, job: string)
    requires RecordInv(x, w) && (c.OnJob? ==> EngineMay(w, c.id, c.edit)) && SureFor(w, job)
    ensures var w' := Write(x, w, c, o); SourcedIn(w'.visible, w'.host, job) && SourcedIn(w'.durable, w'.host, job)
  {
    hide StateValid, RecordTracks, RestoresBounded, EngineEffect, WatchdogEffect, ApiEffect, EngineMay, SourcedIn,
         ImageSure, NextHost;
    var h' := NextHost(x, w, c, o);
    NextHostImages(x, w, c, o);
    UnrecordedIsSourced(w, job);
    SourceIsImages(w.visible, w.host, h', job);
    SourceIsImages(w.durable, w.host, h', job);
    if Accepted(x, w.visible, c) && o != Lost {
      match c {
        case OnJob(id, edit) => EngineKeepsSource(x, w, id, edit, job);
        case OnWatchdog(edit) => SameJobsSource(w.visible, WatchdogEffect(w.visible, edit), w.host, job);
        case FromApi(command) => CommandKeepsSource(x, w.visible, w.host, command, job);
      }
      SourceIsImages(Effect(w.visible, c).value, w.host, h', job);
    }
  }

  lemma UnrecordedIsSourced(w: World, job: string)
    requires SureFor(w, job) && Extends(w.durable, w.visible)
    ensures SourcedIn(w.visible, w.host, job) && SourcedIn(w.durable, w.host, job)
  {
    hide Sourced, Target;
  }

  lemma SameJobsSource(s: RuntimeState, t: RuntimeState, h: Host, job: string)
    requires SourcedIn(s, h, job) && t.jobs == s.jobs && t.plans == s.plans
    ensures SourcedIn(t, h, job)
  {
    hide Sourced, Target;
  }

  /* ---------- Host operations and crashes ---------- */

  /** An image write leaves the environment file, or what a crash leaves of it, with one of the job's two images. */
  lemma HostKeepsSource(h: Host, h': Host, id: string, goal: ImageRef, r: JobRun, e: Event)
    requires Tracks(h, id, goal, r) && Sourced(h, goal, r) && HostChange(h, h', id, goal, r, e)
    ensures Sourced(h', goal, r)
  {
    hide CountOf, Reports;
  }

  lemma IdleIsSourced(h: Host, goal: ImageRef, r: JobRun)
    requires !Active(r.status)
    ensures Sourced(h, goal, r)
  {
  }

  lemma HostStepKeepsSource(x: Externals, w: World, e: Event, job: string)
    requires RecordInv(x, w) && Enabled(w, e) && EngineEvent(e) && !Writes(e) && JobSourced(w, job)
    ensures SourcedIn(w.visible, Step(x, w, e).host, job) && SourcedIn(w.durable, Step(x, w, e).host, job)
  {
    hide StateValid, Extends, RecordTracks, RestoresBounded, Target, Sourced, Tracks, Active, Step, Enabled, HostChange,
         Settled;
    var h' := Step(x, w, e).host;
    if h' != w.host {
      HostEventChanges(x, w, e);
      var id := w.engine.id;
      SettledJob(w, id);
      SameGoal(w, id);
      SettledActive(w, id, w.visible.jobs[id]);
      ChangingIsActive(w.host, h', id, Goal(w.visible, w.visible.jobs[id]), w.visible.jobs[id].run, e);
      if job == id {
        ActiveTracks(w.visible, w.host, id);
        HostKeepsSource(w.host, h', id, Goal(w.visible, w.visible.jobs[id]), w.visible.jobs[id].run, e);
      } else {
        OtherIsIdle(x, w.visible, id, job, h');
        OtherIsIdle(x, w.durable, id, job, h');
      }
    }
  }

  lemma OtherIsIdle(x: Externals, s: RuntimeState, id: string, job: string, h: Host)
    requires StateValid(x, s) && IsActive(s, id) && job != id
    ensures SourcedIn(s, h, job)
  {
    hide StateValid, Target, Sourced;
    OnlyActive(x, s, id);
    if job in s.jobs {
      assert !IsActive(s, job);
      IdleIsSourced(h, Goal(s, s.jobs[job]), s.jobs[job].run);
    }
  }

  lemma CrashKeepsSource(s: RuntimeState, h: Host, h': Host, job: string)
    requires SourcedIn(s, h, job) && h'.image in h.kept
    requires h'.kept == (if h'.image == h.image then h.kept else {h'.image})
    ensures SourcedIn(s, h', job)
  {
    hide Target, AtSource;
  }

  /* ---------- One step ---------- */

  /** A job that starts from a sure image knows the configured image until it changes it. */
  lemma StepKeepsSource(x: Externals, w: World, e: Event, job: string)
    requires RecordInv(x, w) && Enabled(w, e) && SureFor(w, job) && job in Step(x, w, e).visible.jobs
    ensures JobSourced(Step(x, w, e), job)
  {
    hide StateValid, Extends, RecordTracks, RestoresBounded, Step, Write, EngineMay, Settled, MayBegin, WatchMay,
         RequestMay, SourcedIn, ImageSure;
    StepRecord(x, w, e);
    if Writes(e) {
      WriteKeepsSource(x, w, ChangeOf(e), OutcomeOf(e), job);
    } else if e.Crash? {
      CrashStep(x, w, e);
      UnrecordedIsSourced(w, job);
      CrashKeepsSource(w.visible, w.host, Step(x, w, e).host, job);
      CrashKeepsSource(w.durable, w.host, Step(x, w, e).host, job);
    } else if EngineEvent(e) {
      HostStepKeepsSource(x, w, e, job);
    }
  }
}
