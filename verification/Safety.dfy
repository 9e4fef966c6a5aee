/**
  What holds in every state of every run: the repair never overlaps an engine operation,
  a rollback always finds its recovery point in the slot, the configured image follows the
  persisted phase, and handed-out tokens stay accepted, whatever interleaving, save
  failure or crash the run contains.
 */
module Safety {
  import opened Wrappers
  import opened Text
  import opened Release
  import opened State
  import opened Changes
  import opened Ledger
  import opened System

  /* ---------- The invariant ---------- */

  /** The recorded recovery point is this version's and is the committed backup. */
  predicate Anchored(h: Host, r: JobRun) {
    && r.recovery.Some? && r.recovery.value.version == r.currentVersion
    && h.slot == r.recovery && h.settled
  }

  /** The phases in which the service is announced as running. */
  predicate Announced(status: JobStatus) {
    status == Queued || status == Validating || status == Pulling
  }

  /**
    What an active job's record says about itself: step, availability, error and last safe
    version follow the phase.
   */
  predicate Reports(r: JobRun) {
    && (r.available <==> Announced(r.status))
    && (r.status == Queued ==> r.step == AtPhase(Validating))
    && (Rank(r.status) >= 0 ==> r.step == AtPhase(r.status))
    && (Rank(r.status) >= 0 || r.status == Queued ==> r.errorCode == NoError && r.errorMessage == NoMessage)
    && (r.status == RollingBack ==> r.errorMessage == RestoringPrevious)
    && (r.status != Restarting ==> r.lastSafeVersion == r.currentVersion)
  }

  /** What the host looks like while a job stands in a given phase. */
  predicate Tracks(h: Host, id: string, goal: ImageRef, r: JobRun) {
    && Reports(r)
    && (Rank(r.status) >= 0 || r.status == Queued ==>
          && r.attempts == 0 && CountOf(h.restores, id) == 0
          && r.completedSteps == STEPS_PER_HOP * r.currentHop + if r.status == Queued then 0 else Rank(r.status))
    && (Rank(r.status) >= Rank(Pulling) || r.status == RollingBack ==> Anchored(h, r))
    && (Rank(r.status) >= Rank(Migrating) ==> Configured(h, goal))
    && (r.status == RollingBack ==>
          && (r.step == RestoreBackup || r.step == CheckRestored)
          && (r.step == CheckRestored ==> Configured(h, RecoveryImage(r.recovery.value)))
          && CountOf(h.restores, id) <= r.attempts && r.errorCode != NoError)
    && (r.status == Restarting ==> CountOf(h.restarts, id) <= r.attempts && r.errorCode != NoError)
  }

  predicate JobTracks(s: RuntimeState, h: Host, id: string)
    requires id in s.jobs
  {
    Tracks(h, id, Goal(s, s.jobs[id]), s.jobs[id].run)
  }

  /** Every active job of the record is tracked by the host. */
  predicate RecordTracks(s: RuntimeState, h: Host) {
    forall id :: id in s.jobs && IsActive(s, id) ==> JobTracks(s, h, id)
  }

  predicate LockHeld(watch: WatchPc) {
    watch.Locked? || watch.Published? || watch.LockedSuppressing? || watch.Repairing? || watch.Finishing? ||
    watch.Releasing?
  }

  /** Restores are counted for durably recorded jobs only, and never beyond the limit. */
  predicate RestoresBounded(w: World) {
    forall id :: id in w.host.restores ==> id in w.durable.jobs && w.host.restores[id] <= MAX_RECOVERY_ATTEMPTS
  }

  /** The lock names its holder, and only its holder stands inside the gate. */
  predicate GateHeld(w: World) {
    && (w.gate.lock == Some(WatchdogOwns) <==> LockHeld(w.watch))
    && (forall n :: n in w.requests && Gated(w.requests[n]) ==> w.gate.lock == Some(RequestOwns(n)))
  }

  predicate TokensKept(w: World) {
    forall t :: t in w.issued ==> t.0 in w.durable.jobs && t.1 in w.durable.jobs[t.0].bearers
  }

  /** From the reload that lets the repair start until its outcome is saved. */
  predicate InRepair(watch: WatchPc) {
    watch.Repairing? || watch.Finishing?
  }

  predicate Inv(x: Externals, w: World) {
    && StateValid(x, w.visible) && StateValid(x, w.durable)
    && Extends(w.durable, w.visible)
    && RecordTracks(w.visible, w.host) && RecordTracks(w.durable, w.host)
    && w.host.image in w.host.kept
    && (w.engine.Operating? ==> IsActive(w.visible, w.engine.id))
    && GateHeld(w)
    && (InRepair(w.watch) ==> w.visible.desired == Running)
    && TokensKept(w)
    && RestoresBounded(w)
  }

  /* ---------- Saving ---------- */

  /** Both copies of the record stay valid and only grow, whatever the save's outcome. */
  lemma WriteKeepsRecord(x: Externals, w: World, c: Change, o: Outcome)
    requires StateValid(x, w.visible) && StateValid(x, w.durable) && Extends(w.durable, w.visible)
    ensures var w' := Write(x, w, c, o);
            && StateValid(x, w'.visible) && StateValid(x, w'.durable)
            && Extends(w'.durable, w'.visible)
            && Extends(w.visible, w'.visible) && Extends(w.durable, w'.durable)
  {
    hide StateValid, Effect, Extends;
    ExtendsItself(w.visible);
    ExtendsItself(w.durable);
    if Accepted(x, w.visible, c) {
      var t := Effect(w.visible, c).value;
      AcceptedChangeExtends(x, w.visible, c);
      ExtendsTransitive(w.durable, w.visible, t);
      ExtendsItself(t);
    }
  }

  lemma ExtendsItself(s: RuntimeState)
    ensures Extends(s, s)
  {
  }

  /** Tokens are never forgotten when the durable record only grows. */
  lemma TokensStayKept(w: World, w': World)
    requires TokensKept(w) && Extends(w.durable, w'.durable) && w'.issued == w.issued
    ensures TokensKept(w')
  {
    forall t | t in w.issued ensures t.0 in w'.durable.jobs && t.1 in w'.durable.jobs[t.0].bearers {
      assert SameJob(w.durable.jobs[t.0], w'.durable.jobs[t.0]);
    }
  }

  /** The restart counters may go down: fewer restarts have happened than before. */
  lemma FewerTracks(s: RuntimeState, h: Host, h': Host)
    requires RecordTracks(s, h) && h' == h.(restarts := h'.restarts)
    requires forall id :: CountOf(h'.restarts, id) <= CountOf(h.restarts, id)
    ensures RecordTracks(s, h')
  {
    forall id | id in s.jobs && IsActive(s, id) ensures JobTracks(s, h', id) {
      assert JobTracks(s, h, id);
    }
  }

  /** A record whose active jobs have come exactly as far is tracked just as well. */
  lemma SameProgressTracks(s: RuntimeState, t: RuntimeState, h: Host)
    requires RecordTracks(s, h) && s.plans == t.plans
    requires forall id :: id in t.jobs && IsActive(t, id) ==>
               id in s.jobs && s.jobs[id].spec == t.jobs[id].spec && s.jobs[id].run == t.jobs[id].run
    ensures RecordTracks(t, h)
  {
    forall id | id in t.jobs && IsActive(t, id) ensures JobTracks(t, h, id) {
      assert IsActive(s, id) && JobTracks(s, h, id);
    }
  }

  /* ---------- Engine transactions ---------- */

  /** Each engine transaction leads to a phase the host already matches. */
  lemma EditTracks(plans: map<string, Plan>, h: Host, j: Job, e: JobEdit)
    requires ExecutionValid(j.spec, j.run)
    requires Tracks(h, j.spec.id, Target(plans, j.spec, j.run.currentHop), j.run)
    requires MayEdit(h, Target(plans, j.spec, j.run.currentHop), j, e)
    ensures var r' := JobEffect(plans, j.spec, j.run, e);
            Active(r'.status) ==> Tracks(h, j.spec.id, Target(plans, j.spec, r'.currentHop), r')
  {
    hide Tracks, ExecutionValid, MayEdit, JobEffect, Target, Active;
    if RecoveryEdit(e) {
      RecoveryEditTracks(plans, h, j, e);
    } else {
      UpgradeEditTracks(plans, h, j, e);
    }
  }

  lemma UpgradeEditTracks(plans: map<string, Plan>, h: Host, j: Job, e: JobEdit)
    requires ExecutionValid(j.spec, j.run) && !RecoveryEdit(e)
    requires Tracks(h, j.spec.id, Target(plans, j.spec, j.run.currentHop), j.run)
    requires MayEdit(h, Target(plans, j.spec, j.run.currentHop), j, e)
    ensures var r' := JobEffect(plans, j.spec, j.run, e);
            Active(r'.status) ==> Tracks(h, j.spec.id, Target(plans, j.spec, r'.currentHop), r')
  {
    hide ParseVersion, MetadataShapeValid, Target, CompletedHop, CountOf;
  }

  lemma RecoveryEditTracks(plans: map<string, Plan>, h: Host, j: Job, e: JobEdit)
    requires ExecutionValid(j.spec, j.run) && RecoveryEdit(e)
    requires Tracks(h, j.spec.id, Target(plans, j.spec, j.run.currentHop), j.run)
    requires MayEdit(h, Target(plans, j.spec, j.run.currentHop), j, e)
    ensures var r' := JobEffect(plans, j.spec, j.run, e);
            Active(r'.status) ==> Tracks(h, j.spec.id, Target(plans, j.spec, r'.currentHop), r')
  {
    hide ParseVersion, MetadataShapeValid, Target, CompletedHop, CountOf;
  }

  /** Reporting a phase keeps the match too: the job moves on only when the image already did. */
  lemma ProgressTracks(h: Host, id: string, goal: ImageRef, op: HostOp, r: JobRun, next: JobStatus)
    requires Tracks(h, id, goal, r) && MayProgress(op, r, next, Configured(h, goal))
    ensures Tracks(h, id, goal, Progressed(r, next)) && Progressed(r, next).currentHop == r.currentHop
    ensures Active(Progressed(r, next).status)
  {
  }

  /** The engine only edits an active job. */
  lemma EngineMayOnActive(w: World, id: string, e: JobEdit)
    requires EngineMay(w, id, e)
    ensures IsActive(w.visible, id)
  {
  }

  lemma OnlyActive(x: Externals, s: RuntimeState, id: string)
    requires StateValid(x, s) && IsActive(s, id)
    ensures s.desired == Upgrading
    ensures forall other :: other in s.jobs && IsActive(s, other) ==> other == id
  {
    assert HasActive(s);
  }

  lemma ValidExecution(x: Externals, s: RuntimeState, id: string)
    requires StateValid(x, s) && id in s.jobs
    ensures s.jobs[id].spec.id == id && ExecutionValid(s.jobs[id].spec, s.jobs[id].run)
  {
    assert JobValid(s.plans, s.idempotency, id, s.jobs[id]);
  }

  /** What an engine transaction leaves of its job. */
  lemma EditedJob(s: RuntimeState, id: string, e: JobEdit)
    requires id in s.jobs
    ensures var t := EngineEffect(s, id, e);
            && t.Ok?
            && t.value.jobs[id] == s.jobs[id].(run := JobEffect(s.plans, s.jobs[id].spec, s.jobs[id].run, e))
  {
    hide JobEffect, WithoutOldRecoveries, DesiredEffect;
  }

  lemma EngineWriteTracks(x: Externals, w: World, id: string, e: JobEdit)
    requires StateValid(x, w.visible) && RecordTracks(w.visible, w.host) && EngineMay(w, id, e)
    ensures EngineEffect(w.visible, id, e).Ok?
    ensures RecordTracks(EngineEffect(w.visible, id, e).value, w.host)
  {
    hide StateValid, JobEffect, EngineEffect, MayEdit, MayProgress, Tracks, Target, ExecutionValid, IsActive,
         Progressed;
    var s, j := w.visible, w.visible.jobs[id];
    EngineMayOnActive(w, id, e);
    OnlyActive(x, s, id);
    ValidExecution(x, s, id);
    EditedJob(s, id, e);
    assert JobTracks(s, w.host, id);
    var t := EngineEffect(s, id, e).value;
    if e.Progress? {
      ProgressTracks(w.host, id, Goal(s, j), w.engine.op, j.run, e.next);
      ProgressEffect(s.plans, j, e.next);
    } else {
      EditTracks(s.plans, w.host, j, e);
    }
    forall other | other in t.jobs && IsActive(t, other) ensures JobTracks(t, w.host, other) {
      StaysInactive(s, id, e, other);
    }
  }

  lemma ProgressEffect(plans: map<string, Plan>, j: Job, next: JobStatus)
    ensures JobEffect(plans, j.spec, j.run, Progress(next)) == Progressed(j.run, next)
  {
  }

  lemma StaysInactive(s: RuntimeState, id: string, e: JobEdit, other: string)
    requires id in s.jobs && EngineEffect(s, id, e).Ok? && IsActive(EngineEffect(s, id, e).value, other)
    ensures other != id ==> IsActive(s, other)
    ensures other == id ==> Active(JobEffect(s.plans, s.jobs[id].spec, s.jobs[id].run, e).status)
  {
    hide EngineEffect, JobEffect;
    EditedJob(s, id, e);
  }

  /* ---------- Transactions of the other threads ---------- */

  /** A replay only adds a token. */
  lemma RotationTracks(s: RuntimeState, h: Host, key: string, target: string, bearer: string)
    requires RecordTracks(s, h) && WellKeyed(s) && Rotated(s, key, target, bearer).Ok?
    ensures RecordTracks(Rotated(s, key, target, bearer).value, h)
  {
    hide Rotated, WellKeyed, JobTracks, IsActive;
    var t := Rotated(s, key, target, bearer).value;
    forall id | id in t.jobs && IsActive(t, id)
      ensures id in s.jobs && s.jobs[id].spec == t.jobs[id].spec && s.jobs[id].run == t.jobs[id].run
    {
    }
    forall id | id in t.jobs && IsActive(t, id) ensures IsActive(s, id) {
      SameRunActive(s, t, id);
    }
    SameProgressTracks(s, t, h);
  }

  lemma SameRunActive(s: RuntimeState, t: RuntimeState, id: string)
    requires id in s.jobs && id in t.jobs && s.jobs[id].run == t.jobs[id].run
    ensures IsActive(s, id) == IsActive(t, id)
  {
  }

  /** With no other job active, a newly queued or newly restarting job is tracked from the start. */
  lemma FreshJobTracks(s: RuntimeState, t: RuntimeState, h: Host, id: string, j: Job)
    requires t == s.(jobs := s.jobs[id := j], idempotency := t.idempotency, desired := t.desired,
                     watchdog := t.watchdog)
    requires forall other :: other in t.jobs && IsActive(t, other) ==> other == id
    requires Tracks(h, id, Goal(t, j), j.run)
    ensures RecordTracks(t, h)
  {
    forall other | other in t.jobs && IsActive(t, other) ensures JobTracks(t, h, other) {
      assert other == id && t.jobs[other] == j;
    }
  }

  lemma CreationIsNew(x: Externals, s: RuntimeState, c: Command)
    requires StateValid(x, s) && c.CreateJob? && c.key !in s.idempotency
    requires ApiEffect(s, c).Ok? && StateValid(x, ApiEffect(s, c).value)
    ensures c.newId !in s.jobs
  {
    hide StateValid, ApiEffect;
    if c.newId in s.jobs {
      CollidingJobIdIsRefused(x, s, c);
      assert false;
    }
  }

  lemma CommandTracks(x: Externals, s: RuntimeState, h: Host, c: Command)
    requires StateValid(x, s) && RecordTracks(s, h) && h.restores.Keys <= s.jobs.Keys
    requires ApiEffect(s, c).Ok? && StateValid(x, ApiEffect(s, c).value)
    ensures RecordTracks(ApiEffect(s, c).value, if c.RestartJob? then h.(restarts := h.restarts[c.id := 0]) else h)
  {
    hide StateValid, WellKeyed, Rotated, RecordTracks, IsActive, Suppressed, HasActive, TokenAllowed, RestartOffered,
         Target;
    ValidIsWellKeyed(x, s);
    match c {
      case SetDesired(_) =>
        SameJobsTrack(s, ApiEffect(s, c).value, h);
      case RotateTicket(key, target, bearer) =>
        RotationTracks(s, h, key, target, bearer);
      case CreateJob(key, target, current, newId, bearer) =>
        if key in s.idempotency {
          RotationTracks(s, h, key, target, bearer);
        } else {
          CreationTracks(x, s, h, c);
        }
      case RestartJob(_, _) =>
        RestartTracks(x, s, h, c);
    }
  }

  lemma CreationTracks(x: Externals, s: RuntimeState, h: Host, c: Command)
    requires StateValid(x, s) && h.restores.Keys <= s.jobs.Keys && c.CreateJob? && c.key !in s.idempotency
    requires ApiEffect(s, c).Ok? && StateValid(x, ApiEffect(s, c).value)
    ensures RecordTracks(ApiEffect(s, c).value, h)
  {
    hide StateValid, RecordTracks, IsActive, Suppressed, HasActive, Target;
    var t := ApiEffect(s, c).value;
    var j := NewJob(c.key, c.target, c.current, c.newId, c.bearer);
    CreationIsNew(x, s, c);
    NewlyActive(t, c.newId, j);
    OnlyActive(x, t, c.newId);
    FreshJobTracks(s, t, h, c.newId, j);
  }

  lemma RestartTracks(x: Externals, s: RuntimeState, h: Host, c: Command)
    requires StateValid(x, s) && c.RestartJob?
    requires ApiEffect(s, c).Ok? && StateValid(x, ApiEffect(s, c).value)
    ensures RecordTracks(ApiEffect(s, c).value, h.(restarts := h.restarts[c.id := 0]))
  {
    hide StateValid, RecordTracks, IsActive, Suppressed, HasActive, TokenAllowed, Target, MetadataShapeValid;
    var t := ApiEffect(s, c).value;
    ValidExecution(x, s, c.id);
    NewlyActive(t, c.id, t.jobs[c.id]);
    OnlyActive(x, t, c.id);
    FreshJobTracks(s, t, h.(restarts := h.restarts[c.id := 0]), c.id, t.jobs[c.id]);
  }

  lemma NewlyActive(t: RuntimeState, id: string, j: Job)
    requires id in t.jobs && t.jobs[id] == j && Active(j.run.status)
    ensures IsActive(t, id)
  {
  }

  lemma SameJobsTrack(s: RuntimeState, t: RuntimeState, h: Host)
    requires RecordTracks(s, h) && t.jobs == s.jobs && t.plans == s.plans
    ensures RecordTracks(t, h)
  {
    forall id | id in t.jobs && IsActive(t, id) ensures JobTracks(t, h, id) {
      assert IsActive(s, id) && JobTracks(s, h, id);
    }
  }

  /** A write by any thread keeps both copies of the record tracked. */
  lemma WriteTracks(x: Externals, w: World, c: Change, o: Outcome)
    requires StateValid(x, w.visible) && RecordTracks(w.visible, w.host) && RecordTracks(w.durable, w.host)
    requires c.OnJob? ==> EngineMay(w, c.id, c.edit)
    requires w.host.restores.Keys <= w.visible.jobs.Keys
    ensures var w' := Write(x, w, c, o); RecordTracks(w'.visible, w'.host) && RecordTracks(w'.durable, w'.host)
  {
    hide StateValid, RecordTracks, EngineEffect, WatchdogEffect, ApiEffect, EngineMay;
    var h' := NextHost(x, w, c, o);
    FewerTracks(w.visible, w.host, h');
    FewerTracks(w.durable, w.host, h');
    if Accepted(x, w.visible, c) && o != Lost {
      match c {
        case OnJob(id, edit) =>
          EngineWriteTracks(x, w, id, edit);
        case OnWatchdog(edit) =>
          SameJobsTrack(w.visible, WatchdogEffect(w.visible, edit), w.host);
        case FromApi(command) =>
          CommandTracks(x, w.visible, w.host, command);
      }
    }
  }

  /* ---------- Host operations ---------- */

  /** Events that move threads or the host, without running a transaction. */
  predicate Writes(e: Event) {
    e.EngineWrite? || e.WatchWrite? || e.RequestWrite?
  }

  /** The two copies of an active job lead to the same image. */
  lemma SameGoal(w: World, id: string)
    requires Extends(w.durable, w.visible) && Settled(w, id)
    ensures Goal(w.durable, w.durable.jobs[id]) == Goal(w.visible, w.visible.jobs[id])
  {
    assert SameJob(w.durable.jobs[id], w.visible.jobs[id]);
  }

  /** A record with one active job is tracked when that job is. */
  lemma OneJobTracks(x: Externals, s: RuntimeState, h: Host, id: string)
    requires StateValid(x, s) && IsActive(s, id) && JobTracks(s, h, id)
    ensures RecordTracks(s, h)
  {
    hide StateValid, JobTracks;
    OnlyActive(x, s, id);
  }

  /** Whatever an engine event changes on the host, it changes for the one active job, as its phase allows. */
  lemma HostEventChanges(x: Externals, w: World, e: Event)
    requires Enabled(w, e) && EngineEvent(e) && !Writes(e) && Step(x, w, e).host != w.host
    ensures w.engine != Resting && Settled(w, w.engine.id) && w.engine.id in w.visible.jobs
    ensures var j := w.visible.jobs[w.engine.id];
            HostChange(w.host, Step(x, w, e).host, w.engine.id, Goal(w.visible, j), j.run, e)
  {
    hide Goal, RecoveryImage, NextVisible, NextDurable, NextHost, AfterSnapshot, RequestMay, WatchMay, EngineMay,
         CountUp, CountOf, WatchAfter, Issued, Acknowledged, RepairDue, HasActive;
  }

  lemma HostStepTracks(x: Externals, w: World, e: Event)
    requires StateValid(x, w.visible) && StateValid(x, w.durable) && Extends(w.durable, w.visible)
    requires RecordTracks(w.visible, w.host) && RecordTracks(w.durable, w.host)
    requires Enabled(w, e) && EngineEvent(e) && !Writes(e)
    ensures RecordTracks(w.visible, Step(x, w, e).host) && RecordTracks(w.durable, Step(x, w, e).host)
  {
    hide StateValid, Extends, RecordTracks, Target, IsActive, Step, Enabled, HostChange, Settled;
    var h' := Step(x, w, e).host;
    if h' != w.host {
      HostEventChanges(x, w, e);
      var id := w.engine.id;
      SettledJob(w, id);
      ChangingIsActive(w.host, h', id, Goal(w.visible, w.visible.jobs[id]), w.visible.jobs[id].run, e);
      SameGoal(w, id);
      SettledActive(w, id, w.visible.jobs[id]);
      ActiveTracks(w.visible, w.host, id);
      ActiveTracks(w.durable, w.host, id);
      HostStepTracksRun(w.host, h', id, Goal(w.visible, w.visible.jobs[id]), w.visible.jobs[id].run, e);
      OneJobTracks(x, w.visible, h', id);
      OneJobTracks(x, w.durable, h', id);
    }
  }

  lemma ChangingIsActive(h: Host, h': Host, id: string, goal: ImageRef, r: JobRun, e: Event)
    requires HostChange(h, h', id, goal, r, e)
    ensures Active(r.status)
  {
  }

  lemma SettledActive(w: World, id: string, j: Job)
    requires Settled(w, id) && j == w.visible.jobs[id]
    ensures Active(j.run.status) ==> IsActive(w.visible, id) && IsActive(w.durable, id)
  {
  }

  lemma ActiveTracks(s: RuntimeState, h: Host, id: string)
    requires RecordTracks(s, h) && IsActive(s, id)
    ensures JobTracks(s, h, id)
  {
  }

  /** What a host event changes, for the job it works on. */
  predicate HostChange(h: Host, h': Host, id: string, goal: ImageRef, r: JobRun, e: Event) {
    match e
    case EngineBegin(op) =>
      || (op == RestoreOp && r.status == RollingBack && CountOf(h.restores, id) < r.attempts
          && h' == h.(restores := CountUp(h.restores, id)))
      || (op == RestartOp && r.status == Restarting && CountOf(h.restarts, id) < r.attempts
          && h' == h.(restarts := CountUp(h.restarts, id)))
    case RotateBackup(slot, settled) => Preparing(r.status) && h' == h.(slot := slot, settled := settled)
    case WriteTarget(synced) => Activating(r.status) && r.status != Pulling && h' == Configure(h, goal, synced)
    case WriteRecovery(synced) =>
      && r.status == RollingBack && r.step == RestoreBackup && r.recovery.Some?
      && h' == Configure(h, RecoveryImage(r.recovery.value), synced)
    case _ => false
  }

  /** What each host operation changes is something the job's phase allows to change. */
  lemma HostStepTracksRun(h: Host, h': Host, id: string, goal: ImageRef, r: JobRun, e: Event)
    requires Tracks(h, id, goal, r) && HostChange(h, h', id, goal, r, e)
    ensures Tracks(h', id, goal, r)
  {
  }

  /** A crash and the recovery of the slot leave alone what an active job's phase relies on. */
  lemma CrashTracks(s: RuntimeState, h: Host, h': Host)
    requires RecordTracks(s, h) && (h.settled ==> h'.slot == h.slot)
    requires h'.image in h.kept && (h'.kept == h.kept || h'.kept == {h'.image})
    requires h' == h.(image := h'.image, kept := h'.kept, slot := h'.slot, settled := true)
    ensures RecordTracks(s, h')
  {
    forall id | id in s.jobs && IsActive(s, id) ensures JobTracks(s, h', id) {
      assert JobTracks(s, h, id);
    }
  }

  /* ---------- One step ---------- */

  /** The record's part of the invariant. */
  predicate RecordInv(x: Externals, w: World) {
    && StateValid(x, w.visible) && StateValid(x, w.durable)
    && Extends(w.durable, w.visible)
    && RecordTracks(w.visible, w.host) && RecordTracks(w.durable, w.host)
    && w.host.image in w.host.kept
    && RestoresBounded(w)
  }

  lemma InvGivesRecordInv(x: Externals, w: World)
    requires Inv(x, w)
    ensures RecordInv(x, w)
  {
    hide StateValid, Extends, RecordTracks;
  }

  /** No job is active while the service is meant to run. */
  lemma RunningIsIdle(x: Externals, s: RuntimeState)
    requires StateValid(x, s)
    ensures s.desired == Running ==> !HasActive(s)
  {
  }

  function ChangeOf(e: Event): Change
    requires Writes(e)
  {
    match e
    case EngineWrite(id, edit, _) => OnJob(id, edit)
    case WatchWrite(edit, _) => OnWatchdog(edit)
    case RequestWrite(_, c, _) => FromApi(c)
  }

  function OutcomeOf(e: Event): Outcome
    requires Writes(e)
  {
    match e
    case EngineWrite(_, _, o) => o
    case WatchWrite(_, o) => o
    case RequestWrite(_, _, o) => o
  }

  /** A transaction event changes the record and the host as its transaction says, and nothing else does. */
  lemma StepRecord(x: Externals, w: World, e: Event)
    requires Enabled(w, e)
    ensures Writes(e) ==>
              var after := Write(x, w, ChangeOf(e), OutcomeOf(e));
              var w' := Step(x, w, e);
              w'.visible == after.visible && w'.durable == after.durable && w'.host == after.host
    ensures !Writes(e) && !e.Crash? ==>
              && Step(x, w, e).visible == w.visible
              && Step(x, w, e).durable == if e.WriteBack? then w.visible else w.durable
    ensures !Writes(e) && !e.Crash? && !EngineEvent(e) ==> Step(x, w, e).host == w.host
  {
    hide Write, WatchAfter, Acknowledged, AfterSnapshot, Goal, EngineMay, WatchMay, RequestMay, MayBegin, Settled;
  }

  lemma CountedAreKnown(w: World)
    requires RestoresBounded(w) && Extends(w.durable, w.visible)
    ensures w.host.restores.Keys <= w.visible.jobs.Keys
  {
    forall id | id in w.host.restores ensures id in w.visible.jobs {
      assert id in w.durable.jobs;
    }
  }

  /** Host events leave the restore counters alone, except the beginning of a restore. */
  lemma RestoreCounterStep(x: Externals, w: World, e: Event)
    requires Enabled(w, e)
    ensures Step(x, w, e).host.restores ==
            if e == EngineBegin(RestoreOp) then CountUp(w.host.restores, w.engine.id) else w.host.restores
    ensures e == EngineBegin(RestoreOp) ==>
              var id := w.engine.id;
              Settled(w, id) && IsActive(w.visible, id) &&
                CountOf(w.host.restores, id) < w.visible.jobs[id].run.attempts
  {
    hide Enabled, Step, Write, Settled, CountUp, IsActive, CountOf;
    StepRecord(x, w, e);
    if Writes(e) {
      WriteCounts(x, w, ChangeOf(e), OutcomeOf(e));
    } else if e.Crash? {
      CrashStep(x, w, e);
    } else if EngineEvent(e) {
      HostCounts(x, w, e);
    }
  }

  lemma WriteCounts(x: Externals, w: World, c: Change, o: Outcome)
    ensures Write(x, w, c, o).host.restores == w.host.restores
    ensures Write(x, w, c, o).host.restarts ==
            if c.FromApi? && c.command.RestartJob? && Accepted(x, w.visible, c) && o != Lost
            then w.host.restarts[c.command.id := 0] else w.host.restarts
  {
    hide NextVisible, NextDurable, Accepted;
  }

  /** What the beginning of a restore or a restart counts, and what it waits for. */
  lemma HostCounts(x: Externals, w: World, e: Event)
    requires Enabled(w, e) && EngineEvent(e) && !Writes(e)
    ensures var h, h' := w.host, Step(x, w, e).host;
            && h'.restores == (if e == EngineBegin(RestoreOp) then CountUp(h.restores, w.engine.id) else h.restores)
            && h'.restarts == (if e == EngineBegin(RestartOp) then CountUp(h.restarts, w.engine.id) else h.restarts)
    ensures e == EngineBegin(RestoreOp) ==>
              var id := w.engine.id;
              Settled(w, id) && IsActive(w.visible, id) &&
                CountOf(w.host.restores, id) < w.visible.jobs[id].run.attempts
    ensures e == EngineBegin(RestartOp) ==>
              w.engine.Between? && Settled(w, w.engine.id) &&
              CountOf(w.host.restarts, w.engine.id) < w.visible.jobs[w.engine.id].run.attempts
  {
    hide EngineMay, WatchMay, RequestMay, Settled, Goal, CountUp, CountOf, RecoveryImage, NextVisible, NextDurable,
         NextHost, WatchAfter, AfterSnapshot, Issued, Acknowledged, RepairDue;
  }

  lemma RestoresStayBounded(x: Externals, w: World, e: Event)
    requires RecordInv(x, w) && Enabled(w, e)
    requires Extends(w.durable, Step(x, w, e).durable)
    ensures RestoresBounded(Step(x, w, e))
  {
    hide StateValid, RecordTracks, Step, IsActive, Settled, EngineMay, MayBegin;
    RestoreCounterStep(x, w, e);
    if e == EngineBegin(RestoreOp) {
      SettledJob(w, w.engine.id);
      ValidExecution(x, w.visible, w.engine.id);
    }
  }

  lemma SettledJob(w: World, id: string)
    requires Settled(w, id)
    ensures id in w.visible.jobs && id in w.durable.jobs && w.visible.jobs[id].run == w.durable.jobs[id].run
  {
  }

  lemma NextHostImages(x: Externals, w: World, c: Change, o: Outcome)
    ensures NextHost(x, w, c, o).image == w.host.image && NextHost(x, w, c, o).kept == w.host.kept
  {
    hide Accepted;
  }

  lemma WriteHost(x: Externals, w: World, c: Change, o: Outcome)
    ensures Write(x, w, c, o).host == NextHost(x, w, c, o)
  {
    hide NextVisible, NextDurable, NextHost;
  }

  /** A crash may leave the environment file as it is. */
  lemma ImageStaysKept(x: Externals, w: World, e: Event)
    requires Enabled(w, e) && w.host.image in w.host.kept
    ensures Step(x, w, e).host.image in Step(x, w, e).host.kept
  {
    hide Write, NextHost, Goal, RecoveryImage, EngineMay, WatchMay, RequestMay, MayBegin, Settled, AfterSnapshot,
         WatchAfter, Issued, Acknowledged, RepairDue, CountUp;
    StepRecord(x, w, e);
    if Writes(e) {
      NextHostImages(x, w, ChangeOf(e), OutcomeOf(e));
      WriteHost(x, w, ChangeOf(e), OutcomeOf(e));
    }
  }

  lemma StepKeepsRecord(x: Externals, w: World, e: Event)
    requires RecordInv(x, w) && Enabled(w, e)
    ensures RecordInv(x, Step(x, w, e))
    ensures Extends(w.durable, Step(x, w, e).durable)
    ensures !e.Crash? ==> Extends(w.visible, Step(x, w, e).visible)
  {
    hide StateValid, Extends, RecordTracks, RestoresBounded, Step, Write, EngineMay, Settled, MayBegin, WatchMay,
         RequestMay;
    StepRecord(x, w, e);
    CountedAreKnown(w);
    ExtendsItself(w.visible);
    ExtendsItself(w.durable);
    if Writes(e) {
      WriteKeepsRecord(x, w, ChangeOf(e), OutcomeOf(e));
      WriteTracks(x, w, ChangeOf(e), OutcomeOf(e));
    } else if e.Crash? {
      CrashStep(x, w, e);
      CrashTracks(w.visible, w.host, Step(x, w, e).host);
      CrashTracks(w.durable, w.host, Step(x, w, e).host);
    } else if EngineEvent(e) {
      HostStepTracks(x, w, e);
    }
    RestoresStayBounded(x, w, e);
    ImageStaysKept(x, w, e);
  }

  lemma CrashStep(x: Externals, w: World, e: Event)
    requires Enabled(w, e) && e.Crash?
    ensures Step(x, w, e) == Crashed(w, e.keepVisible, e.image, e.slot)
    ensures e.image in w.host.kept && (w.host.settled ==> e.slot == w.host.slot)
  {
  }

  /** The gate: whoever stands inside it owns the lock. */
  lemma StepKeepsGate(x: Externals, w: World, e: Event)
    requires GateHeld(w) && Enabled(w, e)
    ensures GateHeld(Step(x, w, e))
  {
    hide NextVisible, NextDurable, NextHost, EngineMay, MayBegin, Settled, Goal, Acknowledged, RecoveryImage,
         IsActive, Issued, HasActive, TokenAllowed, RestartOffered, RepairDue;
  }

  /** While a repair is under way nobody changes the desired state: it stays running. */
  lemma StepKeepsRepairWindow(x: Externals, w: World, e: Event)
    requires Inv(x, w) && Enabled(w, e)
    ensures InRepair(Step(x, w, e).watch) ==> Step(x, w, e).visible.desired == Running
  {
    hide StateValid, Extends, RecordTracks, TokensKept, GateHeld, NextVisible, NextDurable, NextHost, EngineMay,
         MayBegin, Settled, AfterSnapshot, Goal, Acknowledged, RecoveryImage, IsActive, Issued, RequestMay, RepairDue;
    if InRepair(w.watch) && e.EngineWrite? {
      EngineMayOnActive(w, e.id, e.edit);
      OnlyActive(x, w.visible, e.id);
      assert false;
    }
    if InRepair(w.watch) && e.RequestWrite? {
      UngatedDuringRepair(w, e.n);
      UngatedKeepsDesired(x, w, e.n, e.c, e.o);
    }
  }

  lemma UngatedDuringRepair(w: World, n: nat)
    requires GateHeld(w) && InRepair(w.watch) && n in w.requests
    ensures !Gated(w.requests[n])
  {
  }

  lemma UngatedKeepsDesired(x: Externals, w: World, n: nat, c: Command, o: Outcome)
    requires n in w.requests && RequestMay(w.requests[n], c) && !Gated(w.requests[n])
    ensures NextVisible(x, w, FromApi(c), o).desired == w.visible.desired
  {
    hide StateValid;
  }

  /** No other thread touches the progress of an active job, the plans, or the host. */
  predicate JobUntouched(w: World, w': World, id: string) {
    && id in w.visible.jobs && id in w'.visible.jobs
    && w'.visible.jobs[id].run == w.visible.jobs[id].run && w'.visible.jobs[id].spec == w.visible.jobs[id].spec
    && w'.visible.plans == w.visible.plans && w'.visible.desired == w.visible.desired
    && (Settled(w, id) ==> Settled(w', id))
    && w'.host == w.host && w'.engine == w.engine
  }

  lemma CommandLeavesJob(x: Externals, s: RuntimeState, c: Command, id: string)
    requires StateValid(x, s) && IsActive(s, id)
    requires ApiEffect(s, c).Ok? && StateValid(x, ApiEffect(s, c).value)
    ensures !c.RestartJob?
    ensures var t := ApiEffect(s, c).value;
            id in t.jobs && t.jobs[id].run == s.jobs[id].run && t.jobs[id].spec == s.jobs[id].spec &&
            t.plans == s.plans && t.desired == s.desired
  {
    hide StateValid, WellKeyed, Rotated, Suppressed, TokenAllowed, RestartOffered;
    ValidIsWellKeyed(x, s);
    var t := ApiEffect(s, c).value;
    CommandKeepsActive(s, c, id);
    if c.RestartJob? {
      RestartedWasIdle(s, c.id);
      NewlyActive(t, c.id, t.jobs[c.id]);
      OnlyActive(x, t, c.id);
      assert false;
    }
    assert HasActive(s);
  }

  lemma CommandKeepsActive(s: RuntimeState, c: Command, id: string)
    requires WellKeyed(s) && IsActive(s, id) && ApiEffect(s, c).Ok?
    ensures IsActive(ApiEffect(s, c).value, id)
  {
    hide Rotated, WellKeyed, TokenAllowed;
    assert HasActive(s);
  }

  lemma RestartedWasIdle(s: RuntimeState, id: string)
    requires id in s.jobs && RestartOffered(s.jobs[id])
    ensures !IsActive(s, id)
  {
  }

  lemma OthersLeaveJobAlone(x: Externals, w: World, e: Event, id: string)
    requires RecordInv(x, w) && IsActive(w.visible, id)
    requires Enabled(w, e) && !EngineEvent(e) && !e.Crash?
    ensures JobUntouched(w, Step(x, w, e), id)
  {
    hide StateValid, Extends, RecordTracks, Step, ApiEffect, WatchdogEffect, WatchMay, RequestMay, IsActive;
    StepRecord(x, w, e);
    EngineOnlyMovesItself(x, w, e);
    StillThere(w.visible, id);
    if e.RequestWrite? && Accepted(x, w.visible, FromApi(e.c)) {
      CommandLeavesJob(x, w.visible, e.c, id);
    }
  }

  lemma StillThere(s: RuntimeState, id: string)
    requires IsActive(s, id)
    ensures id in s.jobs
  {
  }

  lemma EngineOnlyMovesItself(x: Externals, w: World, e: Event)
    requires Enabled(w, e) && !EngineEvent(e) && !e.Crash?
    ensures Step(x, w, e).engine == w.engine
  {
    hide NextVisible, NextDurable, NextHost, WatchAfter, Acknowledged, AfterSnapshot, Goal, EngineMay, WatchMay,
         RequestMay, MayBegin, Settled;
  }

  /** While the engine operates on the host, its job is active. */
  lemma StepKeepsOperating(x: Externals, w: World, e: Event)
    requires Inv(x, w) && Enabled(w, e)
    ensures var w' := Step(x, w, e); w'.engine.Operating? ==> IsActive(w'.visible, w'.engine.id)
  {
    hide StateValid, Extends, RecordTracks, TokensKept, GateHeld, RequestMay, WatchMay, AfterSnapshot, Acknowledged,
         Goal, RepairDue, Settled;
    if e.Crash? {
    } else if EngineEvent(e) {
      if e.EngineWrite? && w.engine.Operating? {
        assert e.edit.Progress?;
        EngineMayOnActive(w, e.id, e.edit);
        EditedJob(w.visible, e.id, e.edit);
        ProgressEffect(w.visible.plans, w.visible.jobs[e.id], e.edit.next);
        ProgressedActive(w.visible.jobs[e.id].run, e.edit.next, w.engine.op,
                         Configured(w.host, Goal(w.visible, w.visible.jobs[e.id])));
      }
    } else if w.engine.Operating? {
      OthersLeaveJobAlone(x, w, e, w.engine.id);
    }
  }

  lemma ProgressedActive(r: JobRun, next: JobStatus, op: HostOp, written: bool)
    requires MayProgress(op, r, next, written)
    ensures Active(Progressed(r, next).status)
  {
  }

  /** Every token handed out is recorded durably before the caller sees it. */
  lemma StepKeepsTokens(x: Externals, w: World, e: Event)
    requires RecordInv(x, w) && TokensKept(w) && Enabled(w, e)
    ensures TokensKept(Step(x, w, e))
  {
    hide StateValid, Extends, RecordTracks, Step, TokensKept, Issued, RequestMay, WatchMay, EngineMay, ApiEffect,
         Acknowledged;
    StepKeepsRecord(x, w, e);
    var w' := Step(x, w, e);
    IssuedStep(x, w, e);
    TokensStayKept(w, w'.(issued := w.issued));
    if e.RequestWrite? && Acknowledged(x, w, FromApi(e.c), e.o) {
      AcknowledgedDurable(x, w, FromApi(e.c), e.o);
      IssuedRecorded(x, w.visible, e.c);
      NewTokensKept(w, w', Issued(w.visible, e.c));
    } else {
      assert w'.issued == w.issued;
      SameTokensKept(w'.(issued := w.issued), w');
    }
  }

  lemma SameTokensKept(w: World, w': World)
    requires TokensKept(w) && w'.issued == w.issued && w'.durable == w.durable
    ensures TokensKept(w')
  {
  }

  lemma NewTokensKept(w: World, w': World, tokens: set<(string, string)>)
    requires TokensKept(w'.(issued := w.issued)) && w'.issued == w.issued + tokens
    requires forall t :: t in tokens ==> t.0 in w'.durable.jobs && t.1 in w'.durable.jobs[t.0].bearers
    ensures TokensKept(w')
  {
    var o := w'.(issued := w.issued);
    forall t | t in w'.issued ensures t.0 in w'.durable.jobs && t.1 in w'.durable.jobs[t.0].bearers {
      if t in w.issued {
        assert t in o.issued;
      }
    }
  }

  lemma IssuedStep(x: Externals, w: World, e: Event)
    requires Enabled(w, e)
    ensures Step(x, w, e).issued ==
            if e.RequestWrite? && Acknowledged(x, w, FromApi(e.c), e.o)
            then w.issued + Issued(w.visible, e.c) else w.issued
    ensures Writes(e) ==> Step(x, w, e).durable == NextDurable(x, w, ChangeOf(e), OutcomeOf(e))
  {
    hide NextVisible, NextDurable, NextHost, Acknowledged, Issued, EngineMay, WatchMay, RequestMay, MayBegin, Settled,
         AfterSnapshot, Goal, RepairDue;
  }

  lemma AcknowledgedDurable(x: Externals, w: World, c: Change, o: Outcome)
    requires Acknowledged(x, w, c, o)
    ensures Effect(w.visible, c).Ok? && StateValid(x, Effect(w.visible, c).value)
    ensures NextDurable(x, w, c, o) == Effect(w.visible, c).value
  {
    hide StateValid, Effect;
  }

  /** The token a command hands out is among its job's tokens afterwards. */
  lemma IssuedRecorded(x: Externals, s: RuntimeState, c: Command)
    requires StateValid(x, s) && ApiEffect(s, c).Ok?
    ensures forall t :: t in Issued(s, c) ==>
              var after := ApiEffect(s, c).value; t.0 in after.jobs && t.1 in after.jobs[t.0].bearers
  {
    hide StateValid, WellKeyed, Rotated, Suppressed, HasActive, TokenAllowed, RestartOffered;
    ValidIsWellKeyed(x, s);
    match c {
      case RotateTicket(key, target, bearer) => RotationRecords(s, key, target, bearer);
      case CreateJob(key, target, _, newId, bearer) =>
        if key in s.idempotency {
          RotationRecords(s, key, target, bearer);
        }
      case _ =>
    }
  }

  lemma RotationRecords(s: RuntimeState, key: string, target: string, bearer: string)
    requires WellKeyed(s) && Rotated(s, key, target, bearer).Ok?
    ensures key in s.idempotency
    ensures s.idempotency[key] in Rotated(s, key, target, bearer).value.jobs
    ensures bearer in Rotated(s, key, target, bearer).value.jobs[s.idempotency[key]].bearers
  {
    hide Rotated;
    var id := s.idempotency[key];
    assert id in s.jobs;
    assert Rotated(s, key, target, bearer).value.jobs[id].bearers == s.jobs[id].bearers + [bearer];
  }

  /** One step of any thread, any save outcome and any crash keeps the invariant. */
  lemma StepKeepsInv(x: Externals, w: World, e: Event)
    requires Inv(x, w) && Enabled(w, e)
    ensures Inv(x, Step(x, w, e))
    ensures Extends(w.durable, Step(x, w, e).durable)
  {
    hide StateValid, Extends, RecordTracks, TokensKept, GateHeld, Step;
    StepKeepsRecord(x, w, e);
    StepKeepsGate(x, w, e);
    StepKeepsRepairWindow(x, w, e);
    StepKeepsOperating(x, w, e);
    StepKeepsTokens(x, w, e);
  }
}
