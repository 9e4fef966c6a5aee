/**
  The host operations the job engine performs, in the order the code performs them:
  progress reports, image writes, host commands and backup commits. What the commands
  answer is arbitrary, and decides what each operation answers.
 */
module Runtime {
  import opened Wrappers
  import opened Text
  import opened Release
  import opened State
  import opened Changes
  import opened System
  import opened Safety
  import opened Runs
  import opened Backup
  import opened Machine
  import opened Process

  /** Two moments of one upgrade phase: only the fields that progress reports write differ. */
  predicate SameGround(a: JobRun, b: JobRun) {
    b == a.(status := b.status, step := b.step, completedSteps := b.completedSteps, available := b.available)
  }

  predicate SameImages(h: Host, h': Host) {
    h'.image == h.image && h'.kept == h.kept
  }

  datatype PrepareError = PrepareError(available: bool, untrusted: bool)

  datatype Activation = Activated | NotActivated(mutated: bool)

  function PrepareAnswer(r: Result<BackupMetadata, PrepareError>): Answer {
    if r.Ok? then Yes else Refused(r.error.available, r.error.untrusted)
  }

  function ActivateAnswer(r: Activation): Answer {
    if r.Activated? then Yes else if r.mutated then Mutated else No
  }

  /* ---------- The commands of each operation ---------- */

  /** The source is started and confirmed; a digest is looked up when only a tag is configured. */
  function SourceCommands(image: ImageRef): seq<HostCommand> {
    [StartService, ConfirmHealth] + if image.digest == "" then [ResolveDigest] else []
  }

  const COPY_COMMANDS: seq<HostCommand> := [DumpDatabase, ListDump, ArchiveConfig, ArchiveData, ArchivePeers]

  /**
    What a preparation asked of the host: how many of the commands in each of its four parts
    were answered with yes, one after the other.
   */
  datatype PrepareTrace = PrepareTrace(source: nat, asked: bool, stopped: bool, copied: nat, again: nat)

  predicate TraceOf(t: PrepareTrace, image: ImageRef) {
    var n := |SourceCommands(image)|;
    t.source <= n && t.copied <= |COPY_COMMANDS| && t.again <= n && (t.asked ==> t.source == n)
  }

  /** The service is stopped only if the source was confirmed, and copied and started again once it is stopped. */
  function TraceSaid(t: PrepareTrace, image: ImageRef): seq<Said>
    requires TraceOf(t, image)
  {
    var source := Steps(SourceCommands(image), t.source);
    if !t.asked then source
    else if !t.stopped then source + [Said(StopService, false)]
    else source + [Said(StopService, true)] + Steps(COPY_COMMANDS, t.copied) + Steps(SourceCommands(image), t.again)
  }

  /** Every command of the preparation succeeded. */
  predicate TraceWhole(t: PrepareTrace, image: ImageRef) {
    && t.source == |SourceCommands(image)| && t.asked && t.stopped
    && t.copied == |COPY_COMMANDS| && t.again == |SourceCommands(image)|
  }

  /**
    The service counts as down: it could not be started and confirmed, could not be stopped,
    or after it was stopped something went wrong in starting it again.
   */
  predicate TraceDown(t: PrepareTrace, image: ImageRef) {
    t.source < 2 || (t.asked && (!t.stopped || t.again < |SourceCommands(image)|))
  }

  const ACTIVATE_COMMANDS: seq<HostCommand> := [PullImage, WriteImage, RecreateService]

  /** What an activation asked of the host: so many yeses, and then a no or a save that failed. */
  datatype ActivateTrace = ActivateTrace(n: nat, no: bool)

  predicate ActivateTraceOf(t: ActivateTrace) {
    t.n <= |ACTIVATE_COMMANDS| && (t.no ==> t.n < |ACTIVATE_COMMANDS|)
  }

  function ActivateSaid(t: ActivateTrace): seq<Said>
    requires ActivateTraceOf(t)
  {
    if t.no then Steps(ACTIVATE_COMMANDS, t.n) else AllYes(ACTIVATE_COMMANDS[..t.n])
  }

  /**
    Which answers of the host make an activation what it is: it succeeds when all three
    commands do, it leaves the host alone when the pull fails, and it is a mutation when a
    later command fails. Only a failed save can end it anywhere else.
   */
  predicate ActivateDecided(t: ActivateTrace, r: Activation, reliable: bool) {
    && ActivateTraceOf(t) && (reliable ==> t.no || t.n == |ACTIVATE_COMMANDS|)
    && (if t.no then r == NotActivated(t.n > 0)
        else if t.n <= 1 then r == NotActivated(false)
        else t.n == |ACTIVATE_COMMANDS| && reliable ==> r == Activated)
    && (r == Activated ==> !t.no && t.n == |ACTIVATE_COMMANDS|)
    && (r == NotActivated(false) ==> t.n <= 1)
  }

  const PUT_BACK_COMMANDS: seq<HostCommand> :=
    [WriteImage, StopService, RestoreConfig, RestoreData, RestorePeers, ResetDatabase, LoadDump, FlushDatabase,
     RecreateService]

  /** What a restore asked of the host: whether the image was there or could be pulled, and how far it got. */
  datatype RestoreTrace = RestoreTrace(found: bool, pulled: bool, n: nat)

  function RestoreSaid(t: RestoreTrace): seq<Said>
    requires t.n <= |PUT_BACK_COMMANDS|
  {
    [Said(FindImage, t.found)] + (if t.found then [] else [Said(PullImage, t.pulled)]) +
    if t.found || t.pulled then Steps(PUT_BACK_COMMANDS, t.n) else []
  }

  predicate RestoreWhole(t: RestoreTrace) {
    (t.found || t.pulled) && t.n == |PUT_BACK_COMMANDS|
  }

  /** The configured image is of the job's version, but not one of the digests its hop binds. */
  predicate Untrusted(image: ImageRef, version: string, bound: Option<seq<string>>) {
    bound.Some? && image.version == version && image.digest != "" && image.digest !in bound.value
  }

  /** The configured image is one the job may start from. */
  predicate Trusted(image: ImageRef, version: string, bound: Option<seq<string>>) {
    image.version == version && (bound.Some? ==> image.digest != "" && image.digest in bound.value)
  }

  /** The job is still being prepared, and only its phase has been reported. */
  predicate StillPreparing(w: World, w': World, id: string) {
    && id in w.visible.jobs && id in w'.visible.jobs
    && w'.visible.jobs[id].spec == w.visible.jobs[id].spec && w'.visible.plans == w.visible.plans
    && Preparing(w'.visible.jobs[id].run.status) && SameGround(w.visible.jobs[id].run, w'.visible.jobs[id].run)
    && SameImages(w.host, w'.host) && IsActive(w'.visible, id)
  }

  class ComposeRuntime {
    const d: Daemon
    const backups: BackupStore
    const machine: HostMachine
    /** The backups that have ever been prepared or were there at the start. */
    ghost var known: set<Option<BackupMetadata>>

    constructor (d: Daemon, backups: BackupStore, machine: HostMachine, ghost known: set<Option<BackupMetadata>>)
      ensures this.d == d && this.backups == backups && this.machine == machine && this.known == known
    {
      this.d, this.backups, this.machine, this.known := d, backups, machine, known;
    }

    /** The host's slot is what the backup store holds, whatever a crash leaves, unless a rotation is under way. */
    ghost predicate Linked()
      reads this, d, backups`disk
    {
      && d.Valid() && machine.Valid()
      && Safe(backups.disk, known)
      && (d.host.settled ==>
            && Safe(backups.disk, {d.host.slot}) && backups.Files().retiring.None?
            && d.host.slot == CurrentBackup(backups.Files()))
    }

    /** Nothing will go wrong: no call fails, the source is the bound release and no rotation is half done. */
    ghost predicate Undisturbed(id: string, bound: Option<seq<string>>)
      reads this, d, backups`disk
    {
      && Unfailing(id) && id in d.visible.jobs && d.host.image.version == d.visible.jobs[id].run.currentVersion
      && (bound.Some? ==> d.host.image.digest != "" && d.host.image.digest in bound.value)
      && NothingHalfDone()
    }

    /** No call fails, and the host describes itself properly. */
    ghost predicate Unfailing(id: string)
      reads d
    {
      machine.cooperative && d.reliable && backups.reliable && JobIdText(id) && KnownImage(d.host.image)
    }

    ghost predicate NothingHalfDone()
      reads backups`disk
    {
      backups.Files().retiring.None? && backups.Files().staging == map[]
    }

    /** Nothing runs. What the disk holds can be recovered, and to the slot itself unless a rotation was under way. */
    ghost predicate Stopped()
      reads this, d, backups`disk
    {
      && d.Valid() && machine.Valid() && Safe(backups.disk, known)
      && (d.host.settled ==> Safe(backups.disk, {d.host.slot}))
    }

    /** What staging a backup must keep recoverable. */
    ghost function Allowed(): set<Option<BackupMetadata>>
      reads this, d
    {
      if d.host.settled then {d.host.slot} else known
    }

    /** The process may die at any moment at which the host and the backups are linked. */
    lemma LinkedMayStop()
      requires Linked()
      ensures Stopped()
    {
      hide Daemon.Valid, ApplyAll, Safe;
    }

    /**
      The process starts after a crash, which left `root` of the backups, one of the two
      copies of the record and one of the images in doubt. Recovery either puts the slot in
      order, and then the crash event has happened and host and backups are linked again, or
      it fails and can be repeated.
     */
    method Restart(root: Root, keepVisible: bool, image: ImageRef) returns (ok: bool)
      requires Stopped() && CrashLeaves(backups.disk, root) && image in d.host.kept
      modifies d, backups
      ensures ok ==> Linked() && d.Now() == Crashed(old(d.Now()), keepVisible, image, CurrentBackup(backups.Files()))
      ensures ok && old(d.host.settled) ==> d.host.slot == old(d.host.slot)
      ensures ok ==> d.host.slot in known && backups.Files().staging == map[] && old(d.worlds) <= d.worlds
      ensures ok ==> RecoverableDirectory(backups.Files()) == RecoverableDirectory(root)
      ensures !ok ==> Stopped() && d.Now() == old(d.Now())
      ensures ok <==> backups.failures == old(backups.failures)
      ensures backups.reliable ==> ok
    {
      hide Daemon.Valid, Safe, CrashLeaves, ApplyAll, Sound;
      ghost var allowed := Allowed();
      if d.host.settled {
        SlotIsKnown(backups.disk, d.host.slot, known);
      }
      backups.Reopen(root, allowed);
      FlatFiles(root);
      ok := backups.Recover(|backups.history|, allowed);
      SafeForMore(backups.disk, allowed, known);
      if ok {
        SafeNow(backups.disk, allowed);
        RecoveredSlot(backups.Files(), allowed);
        ghost var slot := CurrentBackup(backups.Files());
        RecoveredIsSafe(backups.Files(), allowed);
        d.Take(Crash(keepVisible, image, CurrentBackup(backups.Files())));
      }
    }

    /** JobEngine.progress, called from within a host operation. */
    method Progress(id: string, next: JobStatus) returns (ok: bool)
      requires Linked() && d.engine.Operating? && id in d.visible.jobs && IsActive(d.visible, id)
      requires EngineMay(d.Now(), id, JobEdit.Progress(next))
      modifies d
      ensures Linked() && old(d.worlds) <= d.worlds
      ensures d.engine == old(d.engine) && d.host == old(d.host) && d.visible.plans == old(d.visible.plans)
      ensures id in d.visible.jobs && d.visible.jobs[id].spec == old(d.visible.jobs[id].spec)
      ensures var r := old(d.visible.jobs[id].run);
              && (ok ==> d.visible.jobs[id].run == Progressed(r, next) && Settled(d.Now(), id))
              && (!ok ==> d.visible.jobs[id].run == r || d.visible.jobs[id].run == Progressed(r, next))
      ensures d.reliable ==> ok
    {
      hide Daemon.Valid, EngineMay, IsActive, Settled, Progressed, Safe, ApplyAll;
      ProgressEffect(d.visible.plans, d.visible.jobs[id], next);
      ok := d.Update(id, JobEdit.Progress(next));
    }

    /* ---------- Preparing a backup ---------- */

    /**
      What the staged backup will say about its source: the configured version and digest,
      or for an image configured by tag the digest it resolves to locally.
     */
    method Describe(id: string) returns (meta: BackupMetadata)
      ensures meta.jobId == id && Describes(meta, d.host.image)
      ensures machine.cooperative && JobIdText(id) && KnownImage(d.host.image) ==> MetadataShapeValid(meta)
    {
      hide ParseVersion, JobIdText, ImageDigest;
      var version, digest := d.host.image.version, d.host.image.digest;
      meta := *;
      meta := meta.(jobId := id, version := version, imageDigest := if digest == "" then meta.imageDigest else digest);
      if machine.cooperative {
        digest := if digest == "" then SomeDigest() else digest;
        meta := BackupMetadata(1, id, version, digest, PinnedRef(version, digest), 1, 1, false, 1, []);
      }
    }

    /** ensureSourceReady and ensureDirectSourceReady, once the configured image is the right one. */
    method StartSource() returns (ok: bool, down: bool, ghost n: nat)
      requires machine.Valid()
      modifies machine
      ensures n <= |SourceCommands(d.host.image)| && (ok <==> n == |SourceCommands(d.host.image)|)
      ensures machine.log == old(machine.log) + Steps(SourceCommands(d.host.image), n) && (down <==> n < 2)
      ensures machine.atStop == old(machine.atStop) && (machine.cooperative ==> ok)
    {
      hide AllYes, Steps;
      ghost var commands, log := SourceCommands(d.host.image), machine.log;
      NoSteps(log, commands);
      NextStep(log, commands, 0);
      NextStep(log, commands, 1);
      ok := machine.Start(StartService);
      n := if ok then 1 else 0;
      if !ok {
        down := true;
        return;
      }
      ok := machine.Confirm();
      n := if ok then 2 else 1;
      down := !ok;
      if ok && d.host.image.digest == "" {
        NextStep(log, commands, 2);
        ok := machine.Give(ResolveDigest);
        n := if ok then 3 else 2;
      }
    }

    /**
      PrepareBackup and PrepareDirectBackup. The source must be the job's version, and for
      a planned step one of the bound digests; then the service is stopped, its data copied,
      and it is started again, and the staged backup is committed.
     */
    method PrepareBackup(id: string, bound: Option<seq<string>>)
      returns (r: Result<BackupMetadata, PrepareError>, ghost t: Option<PrepareTrace>)
      requires Linked() && Held(d.engine, id) && IsActive(d.visible, id)
      requires Preparing(d.visible.jobs[id].run.status)
      modifies this, d, backups, machine
      ensures Linked() && d.engine == Between(id, OpEnded(PrepareOp, PrepareAnswer(r)))
      ensures StillPreparing(old(d.Now()), d.Now(), id) && old(d.worlds) <= d.worlds
      ensures Prepared(t, old(machine.log), old(d.host), old(backups.Files()), id, bound, r)
      ensures d.reliable ==>
                (r.Err? && r.error.untrusted <==>
                 Untrusted(d.host.image, d.visible.jobs[id].run.currentVersion, bound))
      ensures r.Err? && r.error.untrusted ==> Untrusted(d.host.image, d.visible.jobs[id].run.currentVersion, bound)
      ensures backups.reliable ==> backups.Files().staging.Keys <= old(backups.Files().staging.Keys)
      ensures old(Undisturbed(id, bound)) ==> r.Ok? && NothingHalfDone()
    {
      hide Daemon.Valid, IsActive, Settled, Safe, MetadataShapeValid, ParseVersion, JobIdText, EngineMay, MayBegin,
           ApplyAll, CurrentBackup, ComposeRuntime.Staged, Trusted, Untrusted;
      StillThere(d.visible, id);
      PreparingMay(d.Now(), id);
      d.Begin(id, PrepareOp);
      StatusActive(d.visible, id);
      r, t := PrepareWithin(id, bound);
      d.End(PrepareAnswer(r));
    }

    /**
      What a preparation asked of the host, and what came of it. Success means that every
      command succeeded and the committed backup is the job's, describes its trusted source
      and holds the data the service was stopped with. After any failed command there is no
      success and the committed backup is as it was. The service is not stopped before the
      record on disk announces that.
     */
    ghost predicate Prepared(
        t: Option<PrepareTrace>, log: seq<Said>, host: Host, files: Root, id: string, bound: Option<seq<string>>,
        r: Result<BackupMetadata, PrepareError>)
      reads d`host, d`visible, d`durable, backups`disk, machine
    {
      && (t.None? ==> machine.log == log && r.Err? && r.error.available && SameBackup(host, files))
      && (t.Some? ==>
            && Staged(t.value, log, host, files, id, r) && id in d.visible.jobs
            && Trusted(d.host.image, d.visible.jobs[id].run.currentVersion, bound)
            && (t.value.asked ==> OutageAnnounced(id)))
    }

    /** The record, in memory and on disk, says that the job is backing up and the service down. */
    ghost predicate OutageAnnounced(id: string)
      reads d`visible, d`durable
    {
      && id in d.visible.jobs && id in d.durable.jobs && d.durable.jobs[id].run == d.visible.jobs[id].run
      && d.visible.jobs[id].run.status == BackingUp && !d.visible.jobs[id].run.available
    }

    /** The committed backup and the slot are as they were. */
    ghost predicate SameBackup(host: Host, files: Root)
      reads d`host, backups`disk
    {
      && d.host.slot == host.slot && d.host.settled == host.settled
      && backups.Files().current == files.current && backups.Files().retiring == files.retiring
    }

    method PrepareWithin(id: string, bound: Option<seq<string>>)
      returns (r: Result<BackupMetadata, PrepareError>, ghost t: Option<PrepareTrace>)
      requires Linked() && d.engine == Operating(id, PrepareOp) && IsActive(d.visible, id)
      requires Preparing(d.visible.jobs[id].run.status)
      modifies this, d, backups, machine
      ensures Linked() && d.engine == Operating(id, PrepareOp)
      ensures StillPreparing(old(d.Now()), d.Now(), id) && old(d.worlds) <= d.worlds
      ensures Prepared(t, old(machine.log), old(d.host), old(backups.Files()), id, bound, r)
      ensures d.reliable ==>
                (r.Err? && r.error.untrusted <==>
                 Untrusted(d.host.image, d.visible.jobs[id].run.currentVersion, bound))
      ensures r.Err? && r.error.untrusted ==> Untrusted(d.host.image, d.visible.jobs[id].run.currentVersion, bound)
      ensures backups.reliable ==> backups.Files().staging.Keys <= old(backups.Files().staging.Keys)
      ensures old(Undisturbed(id, bound)) ==> r.Ok? && NothingHalfDone()
    {
      hide Daemon.Valid, IsActive, Settled, Safe, MetadataShapeValid, ParseVersion, JobIdText, EngineMay, ApplyAll,
           CurrentBackup, Progressed, Preparing, ComposeRuntime.Staged, KnownImage;
      StillThere(d.visible, id);
      t := None;
      var reported := ReportPreparing(id, Validating);
      if !reported {
        return Err(PrepareError(true, false)), t;
      }
      if d.host.image.version != d.visible.jobs[id].run.currentVersion {
        return Err(PrepareError(true, false)), t;
      }
      if bound.Some? && d.host.image.digest == "" {
        return Err(PrepareError(true, false)), t;
      }
      if bound.Some? && d.host.image.digest !in bound.value {
        return Err(PrepareError(true, true)), t;
      }
      ghost var trace;
      r, trace := CheckAndStage(id);
      t := Some(trace);
    }

    /** A phase of the preparation is reported. */
    method ReportPreparing(id: string, next: JobStatus) returns (ok: bool)
      requires Linked() && d.engine == Operating(id, PrepareOp) && IsActive(d.visible, id)
      requires Preparing(d.visible.jobs[id].run.status) && (next == Validating || next == BackingUp)
      modifies d
      ensures Linked() && d.engine == old(d.engine) && d.host == old(d.host) && old(d.worlds) <= d.worlds
      ensures StillPreparing(old(d.Now()), d.Now(), id)
      ensures ok ==> Settled(d.Now(), id) && (next == BackingUp ==> OutageAnnounced(id))
      ensures d.reliable ==> ok
    {
      hide Daemon.Valid, IsActive, Safe, EngineMay, ApplyAll, Progressed, Preparing;
      StillThere(d.visible, id);
      MayReportPreparing(d.Now(), id, next);
      ok := Progress(id, next);
      PreparingProgress(old(d.visible.jobs[id].run), next);
      StatusActive(d.visible, id);
    }

    /** The part of Prepared that does not concern the source's version and digest. */
    ghost predicate Staged(
        t: PrepareTrace, log: seq<Said>, host: Host, files: Root, id: string, r: Result<BackupMetadata, PrepareError>)
      reads d`host, backups`disk, machine
    {
      && TraceOf(t, d.host.image) && machine.log == log + TraceSaid(t, d.host.image)
      && (r.Ok? ==>
            && TraceWhole(t, d.host.image) && d.host.slot == Some(r.value) && d.host.settled
            && r.value.jobId == id && MetadataShapeValid(r.value) && Describes(r.value, d.host.image)
            && backups.Files().current.Some? && backups.Files().current.value.content == Some(r.value)
            && (Recoverable(files) != Some(r.value) ==>
                  Captures(backups.Files().current.value.artifacts, machine.atStop)))
      && (!TraceWhole(t, d.host.image) ==> r.Err? && SameBackup(host, files))
      && (r.Err? ==> (r.error.available <==> !TraceDown(t, d.host.image)) && !r.error.untrusted)
    }

    /** With its phase on disk the source is started and described, and its backup staged in a new directory. */
    method CheckAndStage(id: string) returns (r: Result<BackupMetadata, PrepareError>, ghost t: PrepareTrace)
      requires Linked() && d.engine == Operating(id, PrepareOp) && IsActive(d.visible, id) && Settled(d.Now(), id)
      requires Preparing(d.visible.jobs[id].run.status)
      modifies this, d, backups, machine
      ensures Linked() && d.engine == Operating(id, PrepareOp)
      ensures StillPreparing(old(d.Now()), d.Now(), id) && old(d.worlds) <= d.worlds
      ensures backups.reliable ==> backups.Files().staging.Keys <= old(backups.Files().staging.Keys)
      ensures Staged(t, old(machine.log), old(d.host), old(backups.Files()), id, r)
      ensures t.asked ==> OutageAnnounced(id)
      ensures r.Err? ==> !r.error.untrusted
      ensures old(Unfailing(id) && NothingHalfDone()) ==> r.Ok? && NothingHalfDone()
    {
      hide Daemon.Valid, IsActive, Settled, Safe, MetadataShapeValid, ParseVersion, JobIdText, EngineMay, ApplyAll,
           CurrentBackup, Progressed, Preparing, SourceCommands, KnownImage, Steps, AllYes, Captures,
           ComposeRuntime.Linked;
      ghost var log, source := machine.log, 0;
      var ready, down;
      ready, down, source := EnsureSource();
      SourceIsTwo(d.host.image);
      StillThere(d.visible, id);
      t := PrepareTrace(source, false, false, 0, 0);
      if !ready {
        return Err(PrepareError(!down, false)), t;
      }
      var meta := Describe(id);
      var reported := ReportPreparing(id, BackingUp);
      if !reported {
        return Err(PrepareError(true, false)), t;
      }
      var name: string := *;
      var begun := BeginStaging(name);
      if !begun {
        return Err(PrepareError(true, false)), t;
      }
      r, t := CopyAndCommit(id, name, meta, log);
      if r.Err? {
        DiscardStaged(name);
      }
    }

    /** What staging keeps recoverable is safe, and the slot is a known backup. */
    lemma AllowedIsSafe()
      requires Linked()
      ensures Safe(backups.disk, Allowed()) && (d.host.settled ==> d.host.slot in known)
    {
      hide Daemon.Valid, Safe, ApplyAll;
      if d.host.settled {
        SlotIsKnown(backups.disk, d.host.slot, known);
      }
    }

    lemma StagingLinks()
      requires d.Valid() && machine.Valid() && Safe(backups.disk, Allowed())
      requires d.host.settled ==>
                 d.host.slot in known && backups.Files().retiring.None? && d.host.slot == CurrentBackup(backups.Files())
      ensures Linked()
    {
      hide Daemon.Valid, Safe, ApplyAll;
      SafeForMore(backups.disk, Allowed(), known);
    }

    /** BackupStore.Begin; only the staging directories change. */
    method BeginStaging(name: string) returns (ok: bool)
      requires Linked()
      modifies backups
      ensures Linked() && backups.Files() == old(backups.Files()).(staging := backups.Files().staging)
      ensures !ok ==> backups.Files() == old(backups.Files())
      ensures ok ==> name in backups.Files().staging && backups.Files().staging[name] == EMPTY_DIRECTORY
      ensures ok ==> backups.Files().staging.Keys == old(backups.Files()).staging.Keys + {name}
      ensures backups.reliable && old(backups.Files()).staging == map[] ==> ok
    {
      hide Daemon.Valid, Safe, ApplyAll;
      AllowedIsSafe();
      ok := backups.Begin(name, |backups.history|, Allowed());
      StagingLinks();
    }

    /** BackupStore.Discard; only the staging directories change. */
    method DiscardStaged(name: string)
      requires Linked()
      modifies backups
      ensures Linked() && backups.Files() == old(backups.Files()).(staging := backups.Files().staging)
      ensures backups.reliable ==> backups.Files().staging.Keys == old(backups.Files()).staging.Keys - {name}
    {
      hide Daemon.Valid, Safe, ApplyAll;
      AllowedIsSafe();
      backups.Discard(name, |backups.history|, Allowed());
      StagingLinks();
    }

    /** One command's output becomes an artifact of the staged backup, unless it fails. */
    method StoreCopy(name: string, command: HostCommand, artifact: Artifact) returns (ok: bool)
      requires Linked() && name in backups.Files().staging && !machine.serving
      modifies backups, machine`log, machine`volumes
      ensures Linked() && backups.failures == old(backups.failures)
      ensures machine.log == old(machine.log) + [Said(command, ok)] && (machine.cooperative ==> ok)
      ensures machine.volumes == old(machine.volumes)
      ensures OnlyStaging(old(backups.Files()), backups.Files()) && name in backups.Files().staging
      ensures ok ==> backups.Files().staging[name].artifacts ==
                     old(backups.Files()).staging[name].artifacts[artifact := Part(machine.volumes, artifact)]
    {
      hide Daemon.Valid, Safe, ApplyAll;
      var data;
      ok, data := machine.Copy(command, artifact);
      AllowedIsSafe();
      backups.Store(name, artifact, data, |backups.history|, Allowed());
      StagingLinks();
    }

    /** The dump and the archives, in order, until one of them fails. */
    method CopyVolumes(name: string) returns (ok: bool, ghost n: nat)
      requires Linked() && name in backups.Files().staging && !machine.serving
      requires backups.Files().staging[name] == EMPTY_DIRECTORY
      modifies backups, machine`log, machine`volumes
      ensures Linked() && n <= |COPY_COMMANDS| && (ok <==> n == |COPY_COMMANDS|)
      ensures machine.log == old(machine.log) + Steps(COPY_COMMANDS, n) && machine.volumes == old(machine.volumes)
      ensures OnlyStaging(old(backups.Files()), backups.Files()) && name in backups.Files().staging
      ensures ok ==> Captures(backups.Files().staging[name].artifacts, machine.volumes)
      ensures machine.cooperative ==> ok
    {
      hide Daemon.Valid, Safe, ApplyAll, ComposeRuntime.Linked, Steps, AllYes;
      ghost var log := machine.log;
      NoSteps(log, COPY_COMMANDS);
      NextStep(log, COPY_COMMANDS, 0);
      ok := StoreCopy(name, DumpDatabase, DatabaseDump);
      n := 0;
      if !ok {
        return;
      }
      NextStep(log, COPY_COMMANDS, 1);
      ok := ListTheDump();
      n := 1;
      if !ok {
        return;
      }
      NextStep(log, COPY_COMMANDS, 2);
      ok := StoreCopy(name, ArchiveConfig, ConfigArchive);
      n := 2;
      if !ok {
        return;
      }
      NextStep(log, COPY_COMMANDS, 3);
      ok := StoreCopy(name, ArchiveData, DataArchive);
      n := 3;
      if !ok {
        return;
      }
      NextStep(log, COPY_COMMANDS, 4);
      ok := StoreCopy(name, ArchivePeers, PeerArchive);
      n := if ok then 5 else 4;
    }

    method ListTheDump() returns (ok: bool)
      requires Linked()
      modifies machine`log, machine`volumes
      ensures Linked() && machine.log == old(machine.log) + [Said(ListDump, ok)]
      ensures (machine.cooperative ==> ok) && (!machine.serving ==> machine.volumes == old(machine.volumes))
    {
      hide Daemon.Valid, Safe, ApplyAll;
      ok := machine.Give(ListDump);
    }

    /** The source is started and confirmed, before its data are copied and afterwards. */
    method EnsureSource() returns (ok: bool, down: bool, ghost n: nat)
      requires Linked()
      modifies machine
      ensures Linked() && machine.atStop == old(machine.atStop) && (machine.cooperative ==> ok) && (down <==> n < 2)
      ensures n <= |SourceCommands(d.host.image)| && (ok <==> n == |SourceCommands(d.host.image)|)
      ensures machine.log == old(machine.log) + Steps(SourceCommands(d.host.image), n)
    {
      hide Daemon.Valid, Safe, ApplyAll, Steps, SourceCommands;
      ok, down, n := StartSource();
    }

    /**
      The service is stopped, its data are copied, and it is started again in any case; only
      a complete copy is described and committed.
     */
    method CopyAndCommit(id: string, name: string, meta: BackupMetadata, ghost log: seq<Said>)
      returns (r: Result<BackupMetadata, PrepareError>, ghost t: PrepareTrace)
      requires Linked() && d.engine == Operating(id, PrepareOp) && IsActive(d.visible, id) && Settled(d.Now(), id)
      requires Preparing(d.visible.jobs[id].run.status) && meta.jobId == id && Describes(meta, d.host.image)
      requires OutageAnnounced(id)
      requires name in backups.Files().staging && backups.Files().staging[name] == EMPTY_DIRECTORY
      requires machine.log == log + Steps(SourceCommands(d.host.image), |SourceCommands(d.host.image)|)
      modifies this, d, backups, machine
      ensures Linked() && d.engine == Operating(id, PrepareOp)
      ensures StillPreparing(old(d.Now()), d.Now(), id) && old(d.worlds) <= d.worlds
      ensures Staged(t, log, old(d.host), old(backups.Files()), id, r) && OutageAnnounced(id)
      ensures backups.reliable ==> backups.Files().staging.Keys <= old(backups.Files()).staging.Keys
      ensures r.Ok? ==> name !in backups.Files().staging
      ensures machine.cooperative && backups.reliable && MetadataShapeValid(meta) &&
              old(backups.Files().retiring.None?) ==>
                r.Ok? && backups.Files().retiring.None? &&
                backups.Files().staging.Keys <= old(backups.Files()).staging.Keys - {name}
    {
      hide Daemon.Valid, IsActive, Safe, MetadataShapeValid, ApplyAll, CurrentBackup, Preparing, SourceCommands,
           ComposeRuntime.Linked, Captures, Steps, AllYes;
      SourceIsTwo(d.host.image);
      StillThere(d.visible, id);
      t := PrepareTrace(|SourceCommands(d.host.image)|, true, false, 0, 0);
      var stopped := StopForCopy();
      if !stopped {
        return Err(PrepareError(false, false)), t;
      }
      ghost var copying, starting := 0, 0;
      var copied;
      copied, copying := CopyVolumes(name);
      CapturesAll(backups.Files().staging[name].artifacts, machine.volumes);
      var ready, down;
      ready, down, starting := EnsureSource();
      t := PrepareTrace(|SourceCommands(d.host.image)|, true, true, copying, starting);
      if !ready {
        return Err(PrepareError(false, false)), t;
      }
      if !copied {
        return Err(PrepareError(true, false)), t;
      }
      var sealed := SealStaged(name, meta);
      if !sealed {
        return Err(PrepareError(true, false)), t;
      }
      var ok := CommitBackup(id, name, meta);
      r := if ok then Ok(meta) else Err(PrepareError(true, false));
    }

    method StopForCopy() returns (ok: bool)
      requires Linked()
      modifies machine
      ensures Linked() && machine.log == old(machine.log) + [Said(StopService, ok)] && (machine.cooperative ==> ok)
      ensures ok ==> !machine.serving && machine.atStop == machine.volumes
    {
      hide Daemon.Valid, Safe, ApplyAll;
      ok := machine.Stop();
    }

    /** WriteBackupMetadata for the staged backup. */
    method SealStaged(name: string, meta: BackupMetadata) returns (ok: bool)
      requires Linked() && name in backups.Files().staging
      modifies backups
      ensures Linked() && backups.Files() == old(backups.Files()).(staging := backups.Files().staging)
      ensures backups.Files().staging.Keys == old(backups.Files()).staging.Keys
      ensures ok ==>
                && MetadataShapeValid(meta) && name in backups.Files().staging
                && old(backups.Files()).staging[name].artifacts.Keys == ALL_ARTIFACTS
                && backups.Files().staging[name] ==
                   Directory(old(backups.Files()).staging[name].artifacts, Some(meta), false)
      ensures old(backups.Files().staging[name].artifacts.Keys == ALL_ARTIFACTS) ==>
                (backups.reliable && MetadataShapeValid(meta) ==> ok)
    {
      hide Daemon.Valid, Safe, ApplyAll, MetadataShapeValid;
      AllowedIsSafe();
      ok := backups.Seal(name, meta, |backups.history|, Allowed());
      StagingLinks();
    }

    /** BackupStore.Commit; the slot is in doubt only while it lasts, and after it failed. */
    method CommitBackup(id: string, name: string, meta: BackupMetadata) returns (ok: bool)
      requires Linked() && d.engine == Operating(id, PrepareOp) && IsActive(d.visible, id)
      requires Preparing(d.visible.jobs[id].run.status) && Settled(d.Now(), id)
      requires name in backups.Files().staging && backups.Files().staging[name].content == Some(meta)
      requires backups.Files().staging[name].artifacts.Keys == ALL_ARTIFACTS
      modifies this, d, backups
      ensures Linked() && d.engine == old(d.engine) && old(d.worlds) <= d.worlds
      ensures id in d.visible.jobs && SameJobAndPlans(old(d.Now()), d.Now(), id) && IsActive(d.visible, id)
      ensures SameImages(old(d.host), d.host)
      ensures backups.SafeSince(old(|backups.history|), known) && known == old(known) + {Some(meta)}
      ensures ok ==> d.host.slot == Some(meta) && d.host.settled && backups.Committed(meta)
      ensures backups.Files().staging.Keys <= old(backups.Files()).staging.Keys
      ensures ok ==> backups.Files().staging.Keys <= old(backups.Files()).staging.Keys - {name}
      ensures ok && old(Recoverable(backups.Files())) != Some(meta) ==>
                backups.Files().current.value.artifacts == old(backups.Files()).staging[name].artifacts
      ensures !ok ==> !d.host.settled
      ensures backups.reliable && old(backups.Files().retiring.None?) ==> ok
    {
      hide Daemon.Valid, IsActive, Settled, Safe, EngineMay, ApplyAll, Preparing, Sound;
      known := known + {Some(meta)};
      SafeForMore(backups.disk, old(known), known);
      MayRotate(d.Now(), id, d.host.slot, false);
      d.OnHost(id, RotateBackup(d.host.slot, false));
      StatusActive(d.visible, id);
      ok := RotateInDoubt(name, meta);
      MayRotate(d.Now(), id, CurrentBackup(backups.Files()), ok);
      d.OnHost(id, RotateBackup(CurrentBackup(backups.Files()), ok));
      StatusActive(d.visible, id);
    }

    /** The rotation itself: while it lasts the host's slot is in doubt. */
    method RotateInDoubt(name: string, meta: BackupMetadata) returns (ok: bool)
      requires Linked() && !d.host.settled && Some(meta) in known
      requires name in backups.Files().staging && backups.Files().staging[name].content == Some(meta)
      requires backups.Files().staging[name].artifacts.Keys == ALL_ARTIFACTS
      modifies backups
      ensures Linked() && backups.SafeSince(old(|backups.history|), known)
      ensures backups.Files().staging.Keys <= old(backups.Files()).staging.Keys
      ensures ok ==>
                && backups.Committed(meta) && Safe(backups.disk, {CurrentBackup(backups.Files())})
                && backups.Files().staging.Keys <= old(backups.Files()).staging.Keys - {name}
                && (old(Recoverable(backups.Files())) != Some(meta) ==>
                      backups.Files().current.value.artifacts == old(backups.Files()).staging[name].artifacts)
      ensures backups.reliable && old(backups.Files().retiring.None?) ==> ok
    {
      hide Daemon.Valid, Safe, ApplyAll, Sound;
      var live: bool := *;
      if backups.reliable {
        live := true;
      }
      ok := backups.Commit(name, live, known);
      if ok {
        SafeNow(backups.disk, known);
        RecoveredIsSafe(backups.Files(), known);
      }
    }

    /* ---------- Activating the target ---------- */

    /**
      ActivateTarget and ActivateDirectTarget. Before the target is written a failure is
      reported as leaving the host alone, and from then on as a mutation.
     */
    method ActivateTarget(id: string) returns (r: Activation, ghost t: ActivateTrace)
      requires Linked() && Held(d.engine, id) && IsActive(d.visible, id)
      requires Activating(d.visible.jobs[id].run.status)
      modifies d, machine
      ensures Linked() && d.engine == Between(id, OpEnded(ActivateOp, ActivateAnswer(r))) && id in d.visible.jobs
      ensures d.visible.jobs[id].spec == old(d.visible.jobs[id].spec) && d.visible.plans == old(d.visible.plans)
      ensures Activating(d.visible.jobs[id].run.status)
      ensures SameGround(old(d.visible.jobs[id].run), d.visible.jobs[id].run)
      ensures d.host == old(d.host).(image := d.host.image, kept := d.host.kept) && old(d.worlds) <= d.worlds
      ensures r.Activated? ==>
                d.visible.jobs[id].run.status == Starting && Configured(d.host, Goal(d.visible, d.visible.jobs[id]))
      ensures r.NotActivated? && !r.mutated ==> d.host == old(d.host)
      ensures r.NotActivated? && r.mutated ==> d.visible.jobs[id].run.status != Pulling
      ensures ActivateDecided(t, r, d.reliable) && machine.log == old(machine.log) + ActivateSaid(t)
      ensures t.n == 3 || (t.n == 2 && t.no) ==> Rank(d.visible.jobs[id].run.status) >= Rank(Migrating)
      ensures machine.cooperative && d.reliable ==> r.Activated?
    {
      hide Daemon.Valid, IsActive, Settled, Safe, EngineMay, MayBegin, ApplyAll, CurrentBackup, Target, ActivateSaid;
      StillThere(d.visible, id);
      ActivatingMay(d.Now(), id);
      d.Begin(id, ActivateOp);
      StatusActive(d.visible, id);
      r, t := ActivateWithin(id);
      d.End(ActivateAnswer(r));
    }

    method ActivateWithin(id: string) returns (r: Activation, ghost t: ActivateTrace)
      requires Linked() && d.engine == Operating(id, ActivateOp) && IsActive(d.visible, id)
      requires Activating(d.visible.jobs[id].run.status)
      modifies d, machine
      ensures Linked() && d.engine == Operating(id, ActivateOp) && id in d.visible.jobs
      ensures d.visible.jobs[id].spec == old(d.visible.jobs[id].spec) && d.visible.plans == old(d.visible.plans)
      ensures Activating(d.visible.jobs[id].run.status)
      ensures SameGround(old(d.visible.jobs[id].run), d.visible.jobs[id].run)
      ensures d.host == old(d.host).(image := d.host.image, kept := d.host.kept) && old(d.worlds) <= d.worlds
      ensures r.Activated? ==>
                d.visible.jobs[id].run.status == Starting && Configured(d.host, Goal(d.visible, d.visible.jobs[id]))
      ensures r.NotActivated? && !r.mutated ==> d.host == old(d.host)
      ensures r.NotActivated? && r.mutated ==> d.visible.jobs[id].run.status != Pulling
      ensures ActivateDecided(t, r, d.reliable) && machine.log == old(machine.log) + ActivateSaid(t)
      ensures t.n == 3 || (t.n == 2 && t.no) ==> Rank(d.visible.jobs[id].run.status) >= Rank(Migrating)
      ensures machine.cooperative && d.reliable ==> r.Activated?
    {
      hide Daemon.Valid, IsActive, Settled, Safe, EngineMay, ApplyAll, CurrentBackup, Target, Progressed, Steps, AllYes;
      ghost var log := machine.log;
      NoSteps(log, ACTIVATE_COMMANDS);
      NextStep(log, ACTIVATE_COMMANDS, 0);
      t := ActivateTrace(0, false);
      var ok := Report(id, Pulling);
      if !ok {
        return NotActivated(false), t;
      }
      ok := PullTarget(id);
      if !ok {
        return NotActivated(false), ActivateTrace(0, true);
      }
      t := ActivateTrace(1, false);
      ok := Report(id, Stopping);
      if !ok {
        return NotActivated(false), t;
      }
      ok, t := ReplaceService(id, log);
      r := if ok then Activated else NotActivated(true);
    }

    /** pullVerifiedImage, which begins only once the phase is on disk. */
    method PullTarget(id: string) returns (ok: bool)
      requires Linked() && Settled(d.Now(), id)
      modifies machine`log, machine`volumes
      ensures Linked() && machine.log == old(machine.log) + [Said(PullImage, ok)] && (machine.cooperative ==> ok)
    {
      hide Daemon.Valid, Safe, ApplyAll;
      ok := machine.Give(PullImage);
    }

    /** From the image write on, every failure counts as a mutation. */
    method ReplaceService(id: string, ghost log: seq<Said>) returns (ok: bool, ghost t: ActivateTrace)
      requires Linked() && d.engine == Operating(id, ActivateOp) && IsActive(d.visible, id)
      requires Settled(d.Now(), id) && Rank(d.visible.jobs[id].run.status) >= Rank(Stopping)
      requires Activating(d.visible.jobs[id].run.status) && machine.log == log + AllYes(ACTIVATE_COMMANDS[..1])
      modifies d, machine
      ensures Linked() && d.engine == Operating(id, ActivateOp) && id in d.visible.jobs
      ensures d.visible.jobs[id].spec == old(d.visible.jobs[id].spec) && d.visible.plans == old(d.visible.plans)
      ensures Activating(d.visible.jobs[id].run.status) && d.visible.jobs[id].run.status != Pulling
      ensures SameGround(old(d.visible.jobs[id].run), d.visible.jobs[id].run)
      ensures d.host == old(d.host).(image := d.host.image, kept := d.host.kept) && old(d.worlds) <= d.worlds
      ensures ok ==>
                d.visible.jobs[id].run.status == Starting && Configured(d.host, Goal(d.visible, d.visible.jobs[id]))
      ensures ActivateTraceOf(t) && machine.log == log + ActivateSaid(t) && t.n >= 1 && (t.n == 1 ==> t.no)
      ensures (ok ==> t == ActivateTrace(3, false)) && (d.reliable ==> (ok <==> !t.no) && (t.no || t.n == 3))
      ensures t.n == 3 || (t.n == 2 && t.no) ==> Rank(d.visible.jobs[id].run.status) >= Rank(Migrating)
      ensures machine.cooperative && d.reliable ==> ok
    {
      hide Daemon.Valid, IsActive, Settled, Safe, EngineMay, ApplyAll, CurrentBackup, Target, Progressed, Steps, AllYes;
      NextStep(log, ACTIVATE_COMMANDS, 1);
      NextStep(log, ACTIVATE_COMMANDS, 2);
      ok := WriteTargetImage(id);
      t := ActivateTrace(if ok then 2 else 1, !ok);
      StatusActive(d.visible, id);
      if !ok {
        return;
      }
      ok := Report(id, Migrating);
      if !ok {
        return;
      }
      ok := machine.Start(RecreateService);
      t := ActivateTrace(if ok then 3 else 2, !ok);
      if !ok {
        return;
      }
      ok := Report(id, Starting);
    }

    /** A phase of the activation is reported. */
    method Report(id: string, next: JobStatus) returns (ok: bool)
      requires Linked() && d.engine == Operating(id, ActivateOp) && IsActive(d.visible, id)
      requires Activating(d.visible.jobs[id].run.status) && Activating(next)
      requires Rank(next) >= Rank(Migrating) ==> Configured(d.host, Goal(d.visible, d.visible.jobs[id]))
      modifies d
      ensures Linked() && old(d.worlds) <= d.worlds
      ensures d.engine == old(d.engine) && d.host == old(d.host) && d.visible.plans == old(d.visible.plans)
      ensures id in d.visible.jobs && d.visible.jobs[id].spec == old(d.visible.jobs[id].spec)
      ensures Goal(d.visible, d.visible.jobs[id]) == old(Goal(d.visible, d.visible.jobs[id]))
      ensures IsActive(d.visible, id) && Activating(d.visible.jobs[id].run.status)
      ensures SameGround(old(d.visible.jobs[id].run), d.visible.jobs[id].run)
      ensures Rank(d.visible.jobs[id].run.status) >= Rank(old(d.visible.jobs[id].run.status))
      ensures ok ==> Rank(d.visible.jobs[id].run.status) >= Rank(next) && Settled(d.Now(), id)
      ensures d.reliable ==> ok
    {
      hide Daemon.Valid, EngineMay, IsActive, Settled, Progressed, Safe, ApplyAll, Target, Activating, Rank;
      StillThere(d.visible, id);
      MayReportActivating(d.Now(), id, next);
      ok := Progress(id, next);
      ActivatingProgress(old(d.visible.jobs[id].run), next);
      StatusActive(d.visible, id);
    }

    /**
      writePinnedImage and writeAllowedImage with the target; an error may come after the
      file was replaced, and then a crash may undo it.
     */
    method WriteTargetImage(id: string) returns (ok: bool)
      requires Linked() && d.engine == Operating(id, ActivateOp) && IsActive(d.visible, id)
      requires Settled(d.Now(), id) && Rank(d.visible.jobs[id].run.status) >= Rank(Stopping)
      requires Activating(d.visible.jobs[id].run.status)
      modifies d, machine
      ensures Linked() && old(d.worlds) <= d.worlds && d.engine == old(d.engine)
      ensures id in d.visible.jobs && SameJobAndPlans(old(d.Now()), d.Now(), id)
      ensures d.host == old(d.host).(image := d.host.image, kept := d.host.kept)
      ensures ok ==> Configured(d.host, Goal(d.visible, d.visible.jobs[id]))
      ensures machine.log == old(machine.log) + [Said(WriteImage, ok)] && (machine.cooperative ==> ok)
    {
      hide Daemon.Valid, IsActive, Settled, Safe, ApplyAll, Target, EngineMay;
      StillThere(d.visible, id);
      ok := machine.Give(WriteImage);
      var replaced: bool := *;
      if ok || replaced {
        MayWriteTarget(d.Now(), id, ok);
        d.OnHost(id, WriteTarget(ok));
      }
    }

    /** CheckTarget, CheckDirectTarget and CheckRestored: the service passes the confirmation window. */
    method Check(id: string, op: HostOp) returns (ok: bool)
      requires Linked() && Held(d.engine, id) && IsActive(d.visible, id)
      requires op == CheckTargetOp || op == CheckRestoredOp
      requires MayBegin(d.Now(), id, op)
      modifies d, machine
      ensures Linked() && old(d.worlds) <= d.worlds
      ensures d.engine == Between(id, OpEnded(op, YesNo(ok))) && id in d.visible.jobs
      ensures SameJobAndPlans(old(d.Now()), d.Now(), id) && d.host == old(d.host)
      ensures machine.log == old(machine.log) + [Said(ConfirmHealth, ok)] && old(machine.probes) <= machine.probes
      ensures ok <==> Window(machine.probes[|old(machine.probes)|..], machine.wanted)
      ensures machine.atStart == old(machine.atStart) && (machine.cooperative ==> ok)
    {
      hide Daemon.Valid, IsActive, MayBegin, Settled, Safe, ApplyAll, Window;
      d.Begin(id, op);
      ghost var w := d.Now();
      ok := machine.Confirm();
      d.End(YesNo(ok));
      SettledIgnoresThreads(w, d.Now(), id);
    }

    /* ---------- Restoring a backup ---------- */

    /**
      RestoreBackup. The committed backup is compared with the recovery point; a rollback
      gets here only with the two equal, so only reading it can fail. Success means that
      every command succeeded and the service was started on the committed backup's data.
     */
    method RestoreBackup(id: string) returns (ok: bool, ghost t: Option<RestoreTrace>)
      requires Linked() && Held(d.engine, id) && IsActive(d.visible, id)
      requires MayBegin(d.Now(), id, RestoreOp) && d.host.settled
      modifies d, machine, backups`failures
      ensures Linked() && old(d.worlds) <= d.worlds
      ensures d.engine == Between(id, OpEnded(RestoreOp, YesNo(ok))) && id in d.visible.jobs
      ensures SameJobAndPlans(old(d.Now()), d.Now(), id)
      ensures d.host ==
                old(d.host).(image := d.host.image, kept := d.host.kept, restores := d.host.restores,
                             restarts := d.host.restarts)
      ensures ok ==> Configured(d.host, RecoveryImage(d.visible.jobs[id].run.recovery.value))
      ensures RestoreDecided(t, old(machine.log), old(backups.failures), ok)
      ensures machine.cooperative && backups.reliable ==> ok
    {
      hide Daemon.Valid, IsActive, MayBegin, Settled, Safe, ApplyAll, ComposeRuntime.RestoreDecided;
      StillThere(d.visible, id);
      RestorableNow(d.Now(), id);
      d.Begin(id, RestoreOp);
      StatusActive(d.visible, id);
      ok, t := RestoreWithin(id);
      ghost var w := d.Now();
      d.End(YesNo(ok));
      SettledIgnoresThreads(w, d.Now(), id);
    }

    /**
      A restore is not begun exactly when the committed backup cannot be read, and then
      succeeds exactly when every command does; the service is then started on the backup.
     */
    ghost predicate RestoreDecided(t: Option<RestoreTrace>, log: seq<Said>, failures: nat, ok: bool)
      reads this, backups, machine
    {
      && (t.None? <==> backups.failures > failures)
      && (t.None? ==> !ok && machine.log == log)
      && (t.Some? ==>
            && t.value.n <= |PUT_BACK_COMMANDS| && machine.log == log + RestoreSaid(t.value)
            && (ok <==> RestoreWhole(t.value)))
      && (ok ==> StartedOnBackup())
    }

    /** The service was last started on exactly the data of the committed backup. */
    ghost predicate StartedOnBackup()
      reads backups`disk, machine`atStart
    {
      backups.Files().current.Some? && Captures(backups.Files().current.value.artifacts, machine.atStart)
    }

    method RestoreWithin(id: string) returns (ok: bool, ghost t: Option<RestoreTrace>)
      requires Linked() && d.engine == Operating(id, RestoreOp) && IsActive(d.visible, id)
      requires id in d.visible.jobs && Settled(d.Now(), id)
      requires var r := d.visible.jobs[id].run;
               && r.status == RollingBack && r.step == JobStep.RestoreBackup && r.recovery.Some?
               && d.host.settled && d.host.slot == r.recovery
      modifies d, machine, backups`failures
      ensures Linked() && old(d.worlds) <= d.worlds
      ensures d.engine == old(d.engine) && id in d.visible.jobs && SameJobAndPlans(old(d.Now()), d.Now(), id)
      ensures d.host == old(d.host).(image := d.host.image, kept := d.host.kept)
      ensures ok ==> Configured(d.host, RecoveryImage(d.visible.jobs[id].run.recovery.value))
      ensures RestoreDecided(t, old(machine.log), old(backups.failures), ok)
      ensures machine.cooperative && backups.reliable ==> ok
    {
      hide Daemon.Valid, IsActive, Settled, Safe, ApplyAll, Steps, AllYes, Captures;
      t := None;
      var recovery := d.visible.jobs[id].run.recovery.value;
      SlotIsWhole();
      var current := backups.Current();
      if current.None? || current.value != recovery {
        return false, t;
      }
      var found := machine.Give(FindImage);
      var pulled := false;
      if !found {
        pulled := machine.Give(PullImage);
      }
      t := Some(RestoreTrace(found, pulled, 0));
      if !found && !pulled {
        return false, t;
      }
      ghost var n;
      ok, n := PutBack(id);
      t := Some(RestoreTrace(found, pulled, n));
    }

    /** The recovery image is configured, and the service replaced on the backup's data. */
    method PutBack(id: string) returns (ok: bool, ghost n: nat)
      requires Linked() && d.engine == Operating(id, RestoreOp) && IsActive(d.visible, id)
      requires id in d.visible.jobs && Settled(d.Now(), id)
      requires var r := d.visible.jobs[id].run;
               r.status == RollingBack && r.step == JobStep.RestoreBackup && r.recovery.Some?
      requires backups.Files().current.Some? && backups.Files().current.value.artifacts.Keys == ALL_ARTIFACTS
      modifies d, machine
      ensures Linked() && old(d.worlds) <= d.worlds
      ensures d.engine == old(d.engine) && id in d.visible.jobs && SameJobAndPlans(old(d.Now()), d.Now(), id)
      ensures d.host == old(d.host).(image := d.host.image, kept := d.host.kept)
      ensures ok ==> Configured(d.host, RecoveryImage(d.visible.jobs[id].run.recovery.value)) && StartedOnBackup()
      ensures n <= |PUT_BACK_COMMANDS| && (ok <==> n == |PUT_BACK_COMMANDS|)
      ensures machine.log == old(machine.log) + Steps(PUT_BACK_COMMANDS, n) && (machine.cooperative ==> ok)
    {
      hide Daemon.Valid, IsActive, Settled, Safe, ApplyAll, Steps, AllYes, Captures;
      ghost var log := machine.log;
      NoSteps(log, PUT_BACK_COMMANDS);
      NextStep(log, PUT_BACK_COMMANDS, 0);
      ok := WriteRecoveryImage(id);
      n := 0;
      if ok {
        ok, n := PutDataBack(log);
      }
    }

    /** What a settled slot holds is a complete backup. */
    lemma SlotIsWhole()
      requires Linked() && d.host.settled && d.host.slot.Some?
      ensures backups.Files().current.Some? && backups.Files().current.value.artifacts.Keys == ALL_ARTIFACTS
    {
      hide Daemon.Valid, Safe, ApplyAll;
      SafeNow(backups.disk, known);
    }

    /** writePinnedImage with the recovery point's reference. */
    method WriteRecoveryImage(id: string) returns (ok: bool)
      requires Linked() && d.engine == Operating(id, RestoreOp) && IsActive(d.visible, id)
      requires id in d.visible.jobs && Settled(d.Now(), id)
      requires var r := d.visible.jobs[id].run;
               r.status == RollingBack && r.step == JobStep.RestoreBackup && r.recovery.Some?
      modifies d, machine`log, machine`volumes
      ensures Linked() && old(d.worlds) <= d.worlds && d.engine == old(d.engine)
      ensures id in d.visible.jobs && SameJobAndPlans(old(d.Now()), d.Now(), id)
      ensures d.host == old(d.host).(image := d.host.image, kept := d.host.kept)
      ensures ok ==> Configured(d.host, RecoveryImage(d.visible.jobs[id].run.recovery.value))
      ensures machine.log == old(machine.log) + [Said(WriteImage, ok)] && (machine.cooperative ==> ok)
    {
      hide Daemon.Valid, IsActive, Settled, Safe, ApplyAll;
      ok := machine.Give(WriteImage);
      var replaced: bool := *;
      if ok || replaced {
        MayWriteRecovery(d.Now(), id, ok);
        d.OnHost(id, WriteRecovery(ok));
      }
    }

    /** The service is stopped, every part of its data is replaced, and it is started on them. */
    method PutDataBack(ghost log: seq<Said>) returns (ok: bool, ghost n: nat)
      requires machine.Valid() && machine.log == log + AllYes(PUT_BACK_COMMANDS[..1])
      requires backups.Files().current.Some? && backups.Files().current.value.artifacts.Keys == ALL_ARTIFACTS
      modifies machine
      ensures 1 <= n <= |PUT_BACK_COMMANDS| && (ok <==> n == |PUT_BACK_COMMANDS|)
      ensures machine.log == log + Steps(PUT_BACK_COMMANDS, n) && (machine.cooperative ==> ok)
      ensures ok ==> StartedOnBackup()
    {
      hide Steps, AllYes;
      var artifacts := backups.Files().current.value.artifacts;
      NextStep(log, PUT_BACK_COMMANDS, 1);
      ok := machine.Stop();
      n := 1;
      if !ok {
        return;
      }
      NextStep(log, PUT_BACK_COMMANDS, 2);
      ok := machine.PutBack(RestoreConfig, ConfigArchive, artifacts[ConfigArchive]);
      n := 2;
      if !ok {
        return;
      }
      ghost var v2 := machine.volumes;
      NextStep(log, PUT_BACK_COMMANDS, 3);
      ok := machine.PutBack(RestoreData, DataArchive, artifacts[DataArchive]);
      n := 3;
      if !ok {
        return;
      }
      assert Part(machine.volumes, ConfigArchive) == Part(v2, ConfigArchive);
      ghost var v3 := machine.volumes;
      NextStep(log, PUT_BACK_COMMANDS, 4);
      ok := machine.PutBack(RestorePeers, PeerArchive, artifacts[PeerArchive]);
      n := 4;
      if !ok {
        return;
      }
      assert Part(machine.volumes, ConfigArchive) == Part(v3, ConfigArchive);
      assert Part(machine.volumes, DataArchive) == Part(v3, DataArchive);
      ok, n := LoadDatabase(log, artifacts[DatabaseDump]);
      CapturesAll(artifacts, machine.atStart);
    }

    /** The database is emptied, the dump loaded and flushed, and the service created anew. */
    method LoadDatabase(ghost log: seq<Said>, dump: Data) returns (ok: bool, ghost n: nat)
      requires !machine.serving && machine.log == log + AllYes(PUT_BACK_COMMANDS[..5])
      modifies machine
      ensures 5 <= n <= |PUT_BACK_COMMANDS| && (ok <==> n == |PUT_BACK_COMMANDS|)
      ensures machine.log == log + Steps(PUT_BACK_COMMANDS, n) && (machine.cooperative ==> ok)
      ensures ok ==> machine.atStart == old(machine.volumes).(database := dump)
    {
      hide Steps, AllYes;
      ghost var before := machine.volumes;
      NextStep(log, PUT_BACK_COMMANDS, 5);
      ok := machine.Reset();
      n := 5;
      if !ok {
        return;
      }
      SameButDatabase(before, machine.volumes);
      NextStep(log, PUT_BACK_COMMANDS, 6);
      ok := machine.Load(dump);
      n := 6;
      if !ok {
        return;
      }
      SameButDatabase(before.(database := []), machine.volumes);
      assert [] + dump == dump;
      NextStep(log, PUT_BACK_COMMANDS, 7);
      ok := machine.Give(FlushDatabase);
      n := 7;
      if !ok {
        return;
      }
      NextStep(log, PUT_BACK_COMMANDS, 8);
      ok := machine.Start(RecreateService);
      n := if ok then 9 else 8;
    }

    /** RestartCurrent accepts only an image of the job's own two versions. */
    method RestartCurrent(id: string) returns (ok: bool, ghost n: nat)
      requires Linked() && Held(d.engine, id) && IsActive(d.visible, id)
      requires MayBegin(d.Now(), id, RestartOp)
      modifies d, machine
      ensures Linked() && old(d.worlds) <= d.worlds
      ensures d.engine == Between(id, OpEnded(RestartOp, YesNo(ok))) && id in d.visible.jobs
      ensures SameJobAndPlans(old(d.Now()), d.Now(), id)
      ensures d.host == old(d.host).(restores := d.host.restores, restarts := d.host.restarts)
      ensures n <= |RESTART_COMMANDS| && (ok <==> n == |RESTART_COMMANDS|)
      ensures machine.log == old(machine.log) +
                if n == 1 && !OfJob(d.host.image.version, d.visible.jobs[id]) then AllYes(RESTART_COMMANDS[..1])
                else Steps(RESTART_COMMANDS, n)
      ensures ok ==> OfJob(d.host.image.version, d.visible.jobs[id])
      ensures machine.cooperative && OfJob(d.host.image.version, d.visible.jobs[id]) ==> ok
    {
      hide Daemon.Valid, IsActive, MayBegin, Settled, Safe, ApplyAll, Steps, AllYes;
      StillThere(d.visible, id);
      d.Begin(id, RestartOp);
      ghost var w, log := d.Now(), machine.log;
      NoSteps(log, RESTART_COMMANDS);
      NextStep(log, RESTART_COMMANDS, 0);
      NextStep(log, RESTART_COMMANDS, 1);
      ok := machine.Start(StartService);
      n := if ok then 1 else 0;
      if ok {
        ok := OfJob(d.host.image.version, d.visible.jobs[id]);
        if ok {
          ok := machine.Confirm();
          n := if ok then 2 else 1;
        }
      }
      d.End(YesNo(ok));
      SettledIgnoresThreads(w, d.Now(), id);
    }
  }

  const RESTART_COMMANDS: seq<HostCommand> := [StartService, ConfirmHealth]

  /** Nothing but staging directories differs. */
  predicate OnlyStaging(r: Root, r': Root) {
    r' == r.(staging := r'.staging) && r'.staging.Keys == r.staging.Keys
  }

  lemma SourceIsTwo(image: ImageRef)
    ensures |SourceCommands(image)| >= 2
  {
  }

  lemma CapturesAll(artifacts: map<Artifact, Data>, v: Volumes)
    ensures Captures(artifacts, v) ==> artifacts.Keys == ALL_ARTIFACTS
    ensures artifacts.Keys == ALL_ARTIFACTS && (forall a :: a in artifacts ==> artifacts[a] == Part(v, a)) ==>
              Captures(artifacts, v)
  {
    if artifacts.Keys == ALL_ARTIFACTS && (forall a :: a in artifacts ==> artifacts[a] == Part(v, a)) {
      assert artifacts[DatabaseDump] == Part(v, DatabaseDump) && artifacts[ConfigArchive] == Part(v, ConfigArchive);
      assert artifacts[DataArchive] == Part(v, DataArchive) && artifacts[PeerArchive] == Part(v, PeerArchive);
    }
  }

  /** The image is of one of the job's two versions. */
  predicate OfJob(version: string, j: Job) {
    version == j.run.currentVersion || version == j.spec.targetVersion
  }

  lemma SameButDatabase(before: Volumes, after: Volumes)
    requires forall other :: other != DatabaseDump ==> Part(after, other) == Part(before, other)
    ensures after == before.(database := after.database)
  {
    assert Part(after, ConfigArchive) == Part(before, ConfigArchive);
    assert Part(after, DataArchive) == Part(before, DataArchive);
    assert Part(after, PeerArchive) == Part(before, PeerArchive);
  }

  /**
    The process starts for the first time on a host whose backups are sound: once startup
    recovery succeeds, host and backups are linked.
   */
  method Boot(
      x: Externals, w: World, root: Root, savesWork: bool, callsWork: bool, alone: bool, machine: HostMachine,
      ghost known: set<Option<BackupMetadata>>)
    returns (runtime: ComposeRuntime, started: bool)
    requires Initial(x, w) && Sound(root, {w.host.slot}) && w.host.slot in known && machine.Valid()
    ensures fresh(runtime) && fresh(runtime.d) && fresh(runtime.backups) && runtime.machine == machine
    ensures runtime.d.x == x && runtime.d.Now() == w && runtime.known == known
    ensures runtime.d.reliable == savesWork && runtime.d.alone == alone && runtime.backups.reliable == callsWork
    ensures started ==> runtime.Linked() && runtime.NothingHalfDone()
    ensures !started ==> runtime.Stopped()
    ensures started <==> runtime.backups.failures == 0
    ensures callsWork ==> started
  {
    hide Daemon.Valid, Safe, ApplyAll, Sound;
    var d := new Daemon(x, savesWork, alone, w);
    var backups := new BackupStore(root, callsWork);
    FlatIsSafe(root, {w.host.slot});
    started := backups.Recover(|backups.history|, {w.host.slot});
    SafeForMore(backups.disk, {w.host.slot}, known);
    SafeNow(backups.disk, {w.host.slot});
    runtime := new ComposeRuntime(d, backups, machine, known);
    if started {
      RecoveredSlot(backups.Files(), {w.host.slot});
    }
  }

  lemma FlatFiles(root: Root)
    ensures Live(Disk(root, [])) == root
  {
  }

  /** With nothing half done the slot is all that can be recovered. */
  lemma RecoveredIsSafe(root: Root, allowed: set<Option<BackupMetadata>>)
    requires Sound(root, allowed) && root.retiring.None?
    ensures Safe(Disk(root, []), {CurrentBackup(root)})
  {
    FlatIsSafe(root, {CurrentBackup(root)});
  }

  lemma FlatIsSafe(root: Root, allowed: set<Option<BackupMetadata>>)
    requires Sound(root, allowed)
    ensures Safe(Disk(root, []), allowed)
  {
    forall k | 0 <= k <= 0 ensures SoundAt(Disk(root, []), k, allowed) {
    }
  }

  lemma SlotIsKnown(d: Disk, slot: Option<BackupMetadata>, known: set<Option<BackupMetadata>>)
    requires Safe(d, {slot}) && Safe(d, known)
    ensures slot in known
  {
    hide ApplyAll, Whole;
    assert SoundAt(d, 0, {slot}) && SoundAt(d, 0, known);
  }

  /** After a successful recovery the slot is the backup that could be recovered. */
  lemma RecoveredSlot(root: Root, allowed: set<Option<BackupMetadata>>)
    requires Sound(root, allowed) && root.retiring.None?
    ensures CurrentBackup(root) in allowed && CurrentBackup(root) == Recoverable(root)
  {
  }

  function CurrentBackup(root: Root): Option<BackupMetadata> {
    if root.current.Some? then root.current.value.content else None
  }

  lemma PreparingMay(w: World, id: string)
    requires id in w.visible.jobs && Preparing(w.visible.jobs[id].run.status)
    ensures MayBegin(w, id, PrepareOp)
  {
  }

  lemma StatusActive(s: RuntimeState, id: string)
    requires id in s.jobs
    ensures var status := s.jobs[id].run.status;
            Preparing(status) || Activating(status) || status == HealthCheck || status == RollingBack ||
              status == Restarting || status == Queued ==>
              IsActive(s, id)
  {
  }

  /** Preparation reports only its own phases. */
  lemma MayReportPreparing(w: World, id: string, next: JobStatus)
    requires w.engine == Operating(id, PrepareOp) && id in w.visible.jobs
    requires Preparing(w.visible.jobs[id].run.status)
    requires next == Validating || next == BackingUp
    ensures EngineMay(w, id, JobEdit.Progress(next)) && Preparing(next)
  {
    hide Target;
  }

  lemma PreparingProgress(r: JobRun, next: JobStatus)
    requires Preparing(r.status) && Preparing(next)
    ensures Preparing(Progressed(r, next).status) && SameGround(r, Progressed(r, next))
    ensures next == BackingUp ==> Progressed(r, next).status == BackingUp && !Progressed(r, next).available
  {
  }

  lemma MayRotate(w: World, id: string, slot: Option<BackupMetadata>, settled: bool)
    requires w.engine == Operating(id, PrepareOp) && Settled(w, id) && Preparing(w.visible.jobs[id].run.status)
    ensures Enabled(w, RotateBackup(slot, settled))
    ensures forall x :: Step(x, w, RotateBackup(slot, settled)).host == w.host.(slot := slot, settled := settled)
  {
  }

  /** The metadata names the configured version, and its digest when it is configured by digest. */
  predicate Describes(meta: BackupMetadata, image: ImageRef) {
    meta.version == image.version && (image.digest != "" ==> meta.imageDigest == image.digest)
  }

  function SomeDigest(): (digest: string)
    ensures ImageDigest(digest) && digest != ""
  {
    var zeros := seq(64, k => '0');
    var digest := "sha256:" + zeros;
    assert digest[..7] == "sha256:" && digest[7..] == zeros;
    digest
  }

  lemma ActivatingMay(w: World, id: string)
    requires id in w.visible.jobs && Activating(w.visible.jobs[id].run.status)
    ensures MayBegin(w, id, ActivateOp)
  {
  }

  lemma MayReportActivating(w: World, id: string, next: JobStatus)
    requires w.engine == Operating(id, ActivateOp) && id in w.visible.jobs
    requires Activating(w.visible.jobs[id].run.status) && Activating(next)
    requires Rank(next) >= Rank(Migrating) ==> Configured(w.host, Goal(w.visible, w.visible.jobs[id]))
    ensures EngineMay(w, id, JobEdit.Progress(next))
  {
    hide Target;
  }

  lemma ActivatingProgress(r: JobRun, next: JobStatus)
    requires Activating(r.status) && Activating(next)
    ensures Activating(Progressed(r, next).status) && SameGround(r, Progressed(r, next))
    ensures Rank(Progressed(r, next).status) >= Rank(next) && Rank(Progressed(r, next).status) >= Rank(r.status)
  {
  }

  lemma MayWriteTarget(w: World, id: string, synced: bool)
    requires w.engine == Operating(id, ActivateOp) && Settled(w, id)
    requires Activating(w.visible.jobs[id].run.status) && Rank(w.visible.jobs[id].run.status) >= Rank(Stopping)
    ensures Enabled(w, WriteTarget(synced))
    ensures forall x :: Step(x, w, WriteTarget(synced)).host ==
              Configure(w.host, Goal(w.visible, w.visible.jobs[id]), synced)
  {
  }

  /** What holds when a restore may begin. */
  lemma RestorableNow(w: World, id: string)
    requires MayBegin(w, id, RestoreOp)
    ensures var r := w.visible.jobs[id].run;
            && r.status == RollingBack && r.step == JobStep.RestoreBackup && r.recovery.Some?
            && w.host.slot == r.recovery && Settled(w, id)
  {
  }

  lemma MayWriteRecovery(w: World, id: string, synced: bool)
    requires w.engine == Operating(id, RestoreOp) && Settled(w, id)
    requires var r := w.visible.jobs[id].run;
             r.status == RollingBack && r.step == JobStep.RestoreBackup && r.recovery.Some?
    ensures Enabled(w, WriteRecovery(synced))
    ensures forall x :: Step(x, w, WriteRecovery(synced)).host ==
                        Configure(w.host, RecoveryImage(w.visible.jobs[id].run.recovery.value), synced)
  {
  }
}
