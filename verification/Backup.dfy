/**
  The backup slot on disk: how a new backup replaces the committed one by directory
  renames, and why a complete backup survives any failure or crash in between.

  The crash model is ordered: a crash keeps some prefix of the directory operations that
  have not been synced, a failed sync makes nothing durable for certain, a removal may
  stop half way, and a directory whose files were never synced may come back incomplete.
 */
module Backup {
  import opened Wrappers
  import opened State

  type Data = seq<bv8>
  datatype Artifact = DatabaseDump | ConfigArchive | DataArchive | PeerArchive

  const ALL_ARTIFACTS: set<Artifact> := {DatabaseDump, ConfigArchive, DataArchive, PeerArchive}

  /** A backup directory: its artifacts, its metadata when it validates, and whether its files have been synced. */
  datatype Directory =
    Directory(artifacts: map<Artifact, Data>, content: Option<BackupMetadata>, synced: bool)

  const EMPTY_DIRECTORY: Directory := Directory(map[], None, false)
  const TORN_DIRECTORY: Directory := Directory(map[], None, true)

  /** What validation makes of the metadata: a directory that lacks an artifact does not validate. */
  function Validated(artifacts: map<Artifact, Data>, meta: BackupMetadata): Option<BackupMetadata> {
    if artifacts.Keys == ALL_ARTIFACTS then Some(meta) else None
  }

  /** The backup root: `current`, `.retiring` and the `.staging-*` directories. */
  datatype Root = Root(current: Option<Directory>, retiring: Option<Directory>, staging: map<string, Directory>)

  datatype Op =
    | CreateStaging(name: string)
    | WriteArtifact(name: string, artifact: Artifact, data: Data)
    | WriteMetadata(name: string, meta: BackupMetadata)
    | SyncStaging(name: string)
    | RetireCurrent
    | CommitStaging(name: string)
    | RestoreRetiring
    | TearRetiring
    | DropRetiring
    | TearStaging(name: string)
    | DropStaging(name: string)

  /** Renames onto a missing source or an existing directory do nothing. */
  function Apply(r: Root, op: Op): Root {
    match op
    case CreateStaging(name) => r.(staging := r.staging[name := EMPTY_DIRECTORY])
    case WriteArtifact(name, artifact, data) =>
      if name in r.staging
      then r.(staging := r.staging[name := Directory(r.staging[name].artifacts[artifact := data], None, false)]) else r
    case WriteMetadata(name, meta) =>
      if name in r.staging
      then r.(staging := r.staging[name := Directory(
                r.staging[name].artifacts, Validated(r.staging[name].artifacts, meta), false)])
      else r
    case SyncStaging(name) =>
      if name in r.staging then r.(staging := r.staging[name := r.staging[name].(synced := true)]) else r
    case RetireCurrent =>
      if r.current.Some? && r.retiring.None? then r.(current := None, retiring := r.current) else r
    case CommitStaging(name) =>
      if name in r.staging && r.current.None?
      then r.(current := Some(r.staging[name]), staging := r.staging - {name}) else r
    case RestoreRetiring =>
      if r.retiring.Some? && r.current.None? then r.(current := r.retiring, retiring := None) else r
    case TearRetiring => if r.retiring.Some? then r.(retiring := Some(TORN_DIRECTORY)) else r
    case DropRetiring => r.(retiring := None)
    case TearStaging(name) =>
      if name in r.staging then r.(staging := r.staging[name := TORN_DIRECTORY]) else r
    case DropStaging(name) => r.(staging := r.staging - {name})
  }

  function ApplyAll(r: Root, ops: seq<Op>): Root {
    if ops == [] then r else Apply(ApplyAll(r, ops[..|ops| - 1]), ops[|ops| - 1])
  }

  /** What is certainly on disk, and the operations since then, oldest first. */
  datatype Disk = Disk(durable: Root, pending: seq<Op>)

  function Live(d: Disk): Root {
    ApplyAll(d.durable, d.pending)
  }

  /** The backup startup recovery would commit. */
  function Recoverable(r: Root): Option<BackupMetadata> {
    if r.current.Some? then r.current.value.content
    else if r.retiring.Some? then r.retiring.value.content
    else None
  }

  /** Its whole directory, artifacts included. */
  function RecoverableDirectory(r: Root): Option<Directory> {
    if r.current.Some? then r.current else r.retiring
  }

  lemma RecoverableContent(r: Root)
    ensures Recoverable(r) == if RecoverableDirectory(r).Some? then RecoverableDirectory(r).value.content else None
  {
  }

  predicate Whole(d: Option<Directory>) {
    d.Some? ==> d.value.content.Some? && d.value.synced && d.value.artifacts.Keys == ALL_ARTIFACTS
  }

  /** A complete, valid and synced directory stands at `current`, or at `.retiring` when `current` is missing. */
  predicate Sound(r: Root, allowed: set<Option<BackupMetadata>>) {
    && Whole(r.current)
    && (r.current.None? ==> Whole(r.retiring))
    && (r.retiring.Some? ==> r.retiring.value.synced)
    && Recoverable(r) in allowed
  }

  /** Whatever prefix of the pending operations a crash keeps, the root is sound. */
  ghost predicate Safe(d: Disk, allowed: set<Option<BackupMetadata>>) {
    forall k :: 0 <= k <= |d.pending| ==> SoundAt(d, k, allowed)
  }

  ghost predicate SoundAt(d: Disk, k: nat, allowed: set<Option<BackupMetadata>>)
    requires k <= |d.pending|
  {
    Sound(ApplyAll(d.durable, d.pending[..k]), allowed)
  }

  /** `r` is what a crash may leave of `kept`: directories that were never synced may be incomplete. */
  ghost predicate Weathered(kept: Root, r: Root) {
    && WeatheredDirectory(kept.current, r.current) && WeatheredDirectory(kept.retiring, r.retiring)
    && r.staging.Keys == kept.staging.Keys
  }

  predicate WeatheredDirectory(kept: Option<Directory>, left: Option<Directory>) {
    && kept.Some? == left.Some?
    && (kept.Some? && kept.value.synced ==> left == kept)
  }

  /** The root a crash leaves behind. */
  ghost predicate CrashLeaves(d: Disk, r: Root) {
    exists k :: 0 <= k <= |d.pending| && Weathered(ApplyAll(d.durable, d.pending[..k]), r)
  }

  /** A crash of a safe disk leaves a sound root, so a complete backup survives it. */
  lemma CrashIsSound(d: Disk, allowed: set<Option<BackupMetadata>>, r: Root)
    requires Safe(d, allowed) && CrashLeaves(d, r)
    ensures Sound(r, allowed)
  {
    var k :| 0 <= k <= |d.pending| && Weathered(ApplyAll(d.durable, d.pending[..k]), r);
    assert SoundAt(d, k, allowed);
  }

  lemma OneMoreOp(d: Disk, op: Op, allowed: set<Option<BackupMetadata>>)
    requires Safe(d, allowed) && Sound(Apply(Live(d), op), allowed)
    ensures Live(d.(pending := d.pending + [op])) == Apply(Live(d), op)
    ensures Safe(d.(pending := d.pending + [op]), allowed)
  {
    var next := d.(pending := d.pending + [op]);
    assert next.pending[..|d.pending|] == d.pending;
    forall k | 0 <= k <= |next.pending| ensures SoundAt(next, k, allowed) {
      if k <= |d.pending| {
        assert next.pending[..k] == d.pending[..k];
        assert SoundAt(d, k, allowed);
      } else {
        assert next.pending[..k] == next.pending;
      }
    }
  }

  lemma SafeNow(d: Disk, allowed: set<Option<BackupMetadata>>)
    requires Safe(d, allowed)
    ensures Sound(Live(d), allowed)
    ensures Safe(Disk(Live(d), []), allowed)
  {
    assert SoundAt(d, |d.pending|, allowed);
    assert d.pending[..|d.pending|] == d.pending;
    var flat := Disk(Live(d), []);
    forall k | 0 <= k <= |flat.pending| ensures SoundAt(flat, k, allowed) {
    }
  }

  /* ---------- The store ---------- */

  /** BackupStore. The history records the disk after every operation, the points where a crash may strike. */
  class BackupStore {
    /** No system call fails. */
    const reliable: bool
    var disk: Disk
    ghost var history: seq<Disk>
    /** How many system calls have failed. */
    ghost var failures: nat

    /** Every disk since position `from` was safe. */
    ghost predicate SafeSince(from: nat, allowed: set<Option<BackupMetadata>>)
      reads this
    {
      && from <= |history|
      && (forall i :: from <= i < |history| ==> Safe(history[i], allowed))
      && Safe(disk, allowed)
    }

    constructor (root: Root, reliable: bool)
      ensures disk == Disk(root, []) && history == [] && failures == 0 && this.reliable == reliable
    {
      this.reliable := reliable;
      disk := Disk(root, []);
      history := [];
      failures := 0;
    }

    /** The process starts again on what a crash left of the disk. */
    method Reopen(root: Root, ghost allowed: set<Option<BackupMetadata>>)
      requires Safe(disk, allowed) && CrashLeaves(disk, root)
      modifies this`disk, this`history
      ensures disk == Disk(root, []) && Safe(disk, allowed) && history == old(history) + [disk]
    {
      hide Safe, CrashLeaves;
      CrashedDiskIsSafe(disk, allowed, root);
      disk := Disk(root, []);
      history := history + [disk];
    }

    function Files(): Root
      reads this`disk
    {
      Live(disk)
    }

    /** Failures are only added, and none when no system call fails. */
    ghost predicate Counts(before: nat)
      reads this
    {
      failures >= before && (reliable ==> failures == before)
    }

    /** Whether a system call succeeds. */
    method Attempt() returns (ok: bool)
      modifies this`failures
      ensures failures == old(failures) + if ok then 0 else 1
      ensures reliable ==> ok
    {
      ok := *;
      if reliable {
        ok := true;
      }
      failures := failures + if ok then 0 else 1;
    }

    /** One directory operation takes effect. */
    method Do(op: Op, ghost from: nat, ghost allowed: set<Option<BackupMetadata>>)
      requires SafeSince(from, allowed) && Sound(Apply(Files(), op), allowed)
      modifies this`disk, this`history
      ensures SafeSince(from, allowed) && Files() == Apply(old(Files()), op) && disk.durable == old(disk.durable)
      ensures history == old(history) + [disk]
    {
      hide Sound, Safe, Apply;
      OneMoreOp(disk, op, allowed);
      disk := disk.(pending := disk.pending + [op]);
      history := history + [disk];
    }

    /** syncDirectory on the backup root; a failure leaves everything in doubt as it was. */
    method SyncRoot(ghost from: nat, ghost allowed: set<Option<BackupMetadata>>) returns (ok: bool)
      requires SafeSince(from, allowed)
      modifies this
      ensures SafeSince(from, allowed) && Files() == old(Files())
      ensures ok ==> disk == Disk(Files(), []) && history == old(history) + [disk]
      ensures !ok ==> disk == old(disk) && history == old(history)
      ensures failures == old(failures) + if ok then 0 else 1
      ensures Counts(old(failures))
    {
      hide Sound, Safe, Apply;
      ok := Attempt();
      if ok {
        SafeNow(disk, allowed);
        disk := Disk(Live(disk), []);
        history := history + [disk];
      }
    }

    /** os.RemoveAll on `.retiring`, which may stop half way. */
    method RemoveRetiring(ghost from: nat, ghost allowed: set<Option<BackupMetadata>>) returns (ok: bool)
      requires SafeSince(from, allowed) && Files().current.Some?
      modifies this
      ensures SafeSince(from, allowed) && old(history) <= history
      ensures Files() == old(Files()).(retiring := Files().retiring)
      ensures ok <==> Files().retiring.None?
      ensures failures == old(failures) + if ok then 0 else 1
      ensures Counts(old(failures))
    {
      hide Safe;
      SafeNow(disk, allowed);
      if Files().retiring.None? {
        return true;
      }
      ok := Attempt();
      if !ok {
        return;
      }
      Do(TearRetiring, from, allowed);
      ok := Attempt();
      if ok {
        SafeNow(disk, allowed);
        Do(DropRetiring, from, allowed);
      }
    }

    /** os.RemoveAll on one staging directory. */
    method RemoveStaging(name: string, ghost from: nat, ghost allowed: set<Option<BackupMetadata>>) returns (ok: bool)
      requires SafeSince(from, allowed)
      modifies this
      ensures SafeSince(from, allowed) && old(history) <= history
      ensures Files() == old(Files()).(staging := Files().staging)
      ensures forall other :: other != name ==> SameEntry(old(Files()).staging, Files().staging, other)
      ensures ok ==> Files().staging.Keys == old(Files()).staging.Keys - {name}
      ensures !ok ==> Files().staging.Keys == old(Files()).staging.Keys
      ensures failures == old(failures) + if ok then 0 else 1
      ensures Counts(old(failures))
    {
      hide Safe;
      SafeNow(disk, allowed);
      if name !in Files().staging {
        return true;
      }
      ok := Attempt();
      if !ok {
        return;
      }
      Do(TearStaging(name), from, allowed);
      ok := Attempt();
      if ok {
        SafeNow(disk, allowed);
        Do(DropStaging(name), from, allowed);
      }
    }

    /** Begin: a new, empty staging directory under a name the system draws. */
    method Begin(name: string, ghost from: nat, ghost allowed: set<Option<BackupMetadata>>) returns (ok: bool)
      requires SafeSince(from, allowed)
      modifies this
      ensures SafeSince(from, allowed) && old(history) <= history
      ensures Files() == old(Files()).(staging := Files().staging)
      ensures ok ==> name !in old(Files()).staging
      ensures Files().staging == if ok then old(Files()).staging[name := EMPTY_DIRECTORY] else old(Files()).staging
      ensures failures == old(failures) && name !in old(Files()).staging ==> ok
      ensures Counts(old(failures))
    {
      hide Safe, Sound, Apply;
      ok := Attempt();
      if name in Files().staging || !ok {
        return false;
      }
      SafeNow(disk, allowed);
      StagingOpsAreSound(Files(), CreateStaging(name), allowed);
      StagingCreated(Files(), name);
      Do(CreateStaging(name), from, allowed);
    }

    /** A command's output is written into the staging directory, all of it or the part before it failed. */
    method Store(
        name: string, artifact: Artifact, data: Data, ghost from: nat, ghost allowed: set<Option<BackupMetadata>>)
      requires SafeSince(from, allowed) && name in Files().staging
      modifies this`disk, this`history
      ensures SafeSince(from, allowed) && old(history) <= history
      ensures var was := old(Files()).staging[name].artifacts;
              Files() == old(Files()).(
                staging := old(Files()).staging[name := Directory(was[artifact := data], None, false)])
    {
      hide Safe, Sound, Apply;
      SafeNow(disk, allowed);
      StagingOpsAreSound(Files(), WriteArtifact(name, artifact, data), allowed);
      ArtifactWritten(Files(), name, artifact, data);
      Do(WriteArtifact(name, artifact, data), from, allowed);
    }

    /** WriteBackupMetadata, last of all; it fails when an artifact is missing or the metadata is not in shape. */
    method Seal(name: string, meta: BackupMetadata, ghost from: nat, ghost allowed: set<Option<BackupMetadata>>)
      returns (ok: bool)
      requires SafeSince(from, allowed) && name in Files().staging
      modifies this
      ensures SafeSince(from, allowed) && old(history) <= history && Counts(old(failures))
      ensures var was := old(Files()).staging[name];
              if ok then
                && was.artifacts.Keys == ALL_ARTIFACTS && MetadataShapeValid(meta)
                && Files() == old(Files()).(
                     staging := old(Files()).staging[name := Directory(was.artifacts, Some(meta), false)])
              else Files() == old(Files())
      ensures MetadataShapeValid(meta) && old(Files()).staging[name].artifacts.Keys == ALL_ARTIFACTS ==>
                (ok <==> failures == old(failures))
    {
      hide Safe, Sound, Apply, MetadataShapeValid;
      if Files().staging[name].artifacts.Keys != ALL_ARTIFACTS || !MetadataShapeValid(meta) {
        return false;
      }
      ok := Attempt();
      if !ok {
        return;
      }
      SafeNow(disk, allowed);
      StagingOpsAreSound(Files(), WriteMetadata(name, meta), allowed);
      StagingSealed(Files(), name, meta);
      Do(WriteMetadata(name, meta), from, allowed);
    }

    /** Discard: a staging directory that was not committed goes away. */
    method Discard(name: string, ghost from: nat, ghost allowed: set<Option<BackupMetadata>>)
      requires SafeSince(from, allowed)
      modifies this
      ensures SafeSince(from, allowed) && old(history) <= history && Counts(old(failures))
      ensures Files() == old(Files()).(staging := Files().staging)
      ensures failures == old(failures) ==>
                disk == Disk(Files(), []) && Files().staging.Keys == old(Files()).staging.Keys - {name}
    {
      hide Safe, Sound, Apply;
      var removed := RemoveStaging(name, from, allowed);
      if removed {
        var synced := SyncRoot(from, allowed);
      }
    }

    /**
      BackupStore.Recover. When it succeeds only `current` is left, durably, and it is the
      backup that was recoverable before; when it fails that backup is still recoverable.
     */
    method Recover(ghost from: nat, ghost allowed: set<Option<BackupMetadata>>) returns (ok: bool)
      requires SafeSince(from, allowed)
      modifies this
      ensures SafeSince(from, allowed) && old(history) <= history && Counts(old(failures))
      ensures RecoverableDirectory(Files()) == old(RecoverableDirectory(Files()))
      ensures Files().staging.Keys <= old(Files()).staging.Keys
      ensures ok ==>
                && Files().retiring.None? && Files().staging == map[]
                && (Files().current.None? <==> Recoverable(Files()).None?)
                && disk == Disk(Files(), [])
      ensures ok <==> failures == old(failures)
    {
      hide Safe, Apply;
      SafeNow(disk, allowed);
      var inspected := Attempt();
      if !inspected {
        return false;
      }
      if Files().current.Some? && Files().retiring.Some? {
        var removed := RemoveRetiring(from, allowed);
        if !removed {
          return false;
        }
      } else if Files().current.None? && Files().retiring.Some? {
        var renamed := Attempt();
        if !renamed {
          return false;
        }
        RestoringIsSound(Files(), allowed);
        Do(RestoreRetiring, from, allowed);
      }
      var listed := Attempt();
      if !listed {
        return false;
      }
      SafeNow(disk, allowed);
      ghost var settled := Files();
      while Files().staging.Keys != {}
        invariant SafeSince(from, allowed) && old(history) <= history && failures == old(failures)
        invariant Files() == settled.(staging := Files().staging) && Files().staging.Keys <= settled.staging.Keys
        decreases Files().staging.Keys
      {
        var name :| name in Files().staging.Keys;
        var removed := RemoveStaging(name, from, allowed);
        if !removed {
          return false;
        }
      }
      assert Files().staging == map[];
      ok := SyncRoot(from, allowed);
    }

    /** BackupStore.Current: the committed backup, if it can be read and validates. */
    method Current() returns (found: Option<BackupMetadata>)
      modifies this`failures
      ensures found.Some? ==> Files().current.Some? && Files().current.value.content == found
      ensures failures == old(failures) && Files().current.Some? ==> found == Files().current.value.content
      ensures Counts(old(failures)) && failures <= old(failures) + 1 && (found.Some? ==> failures == old(failures))
    {
      var readable := Attempt();
      found := if readable && Files().current.Some? then Files().current.value.content else None;
    }

    /** recoverCommitFailure: success if and only if recovery durably completed the intended rotation after all. */
    method RecoverCommitFailure(expected: BackupMetadata, ghost from: nat, ghost allowed: set<Option<BackupMetadata>>)
      returns (ok: bool)
      requires SafeSince(from, allowed)
      modifies this
      ensures SafeSince(from, allowed) && old(history) <= history && Counts(old(failures))
      ensures RecoverableDirectory(Files()) == old(RecoverableDirectory(Files()))
      ensures Files().staging.Keys <= old(Files()).staging.Keys
      ensures ok ==> Committed(expected) && Files().staging == map[]
      ensures failures == old(failures) ==> (ok <==> Recoverable(old(Files())) == Some(expected))
      ensures ok ==> failures == old(failures)
    {
      hide Safe, Sound;
      RecoverableContent(Files());
      var recovered := Recover(from, allowed);
      RecoverableContent(Files());
      if !recovered {
        return false;
      }
      var current := Current();
      SafeNow(disk, allowed);
      CurrentIsSynced(Files(), allowed);
      ok := current == Some(expected);
    }

    /** Only `current` exists, durably, and holds the expected backup. */
    ghost predicate Committed(expected: BackupMetadata)
      reads this`disk
    {
      && disk == Disk(Files(), [])
      && Files().current.Some? && Files().current.value.content == Some(expected) && Files().current.value.synced
      && Files().retiring.None?
    }

    /**
      BackupStore.Commit. Whatever fails, and wherever a crash strikes, the old or the new
      backup stays recoverable; success means the new one is committed, durably and alone.
      With at most one failing call it succeeds exactly when the new one got to `current`.
      Once its context is cancelled it does nothing.
     */
    method Commit(name: string, live: bool, ghost allowed: set<Option<BackupMetadata>>) returns (ok: bool)
      requires Safe(disk, allowed)
      requires name in Files().staging && Files().staging[name].content.Some? ==>
                 Files().staging[name].content in allowed
      requires name in Files().staging && Files().staging[name].content.Some? ==>
                 Files().staging[name].artifacts.Keys == ALL_ARTIFACTS
      modifies this
      ensures old(history) <= history && SafeSince(|old(history)|, allowed) && Counts(old(failures))
      ensures Files().staging.Keys <= old(Files()).staging.Keys
      ensures ok ==>
                && name in old(Files()).staging && old(Files()).staging[name].content.Some?
                && Committed(old(Files()).staging[name].content.value)
                && Files().staging.Keys <= old(Files()).staging.Keys - {name}
                && (old(Recoverable(Files())) != old(Files()).staging[name].content ==>
                      Files().current == Some(old(Files()).staging[name].(synced := true)))
      ensures !live ==> !ok && disk == old(disk) && failures == old(failures)
      ensures live && failures == old(failures) && name in old(Files()).staging && old(Files()).retiring.None? ==>
                (ok <==> old(Files()).staging[name].content.Some?)
      ensures name in old(Files()).staging && old(Files()).staging[name].content.Some? &&
              old(Recoverable(Files())) != old(Files()).staging[name].content && failures <= old(failures) + 1 ==>
                (ok <==> Recoverable(Files()) == old(Files()).staging[name].content)
      ensures RecoverableDirectory(Files()) == old(RecoverableDirectory(Files())) ||
              (name in old(Files()).staging &&
               RecoverableDirectory(Files()) == Some(old(Files()).staging[name].(synced := true)))
      ensures live && name in old(Files()).staging && old(Files()).staging[name].content.None? &&
              failures == old(failures) ==>
                name !in Files().staging && disk == Disk(Files(), [])
    {
      hide Safe, Sound, Apply;
      ghost var from := |history|;
      RecoverableContent(Files());
      if !live {
        return false;
      }
      var found := Validate(name);
      if found.None? {
        var removed := RemoveStaging(name, from, allowed);
        if removed {
          var synced := SyncRoot(from, allowed);
        }
        RecoverableIgnoresStaging(old(Files()), Files());
        return false;
      }
      var synced := SyncStaged(name, from, allowed);
      if !synced {
        return false;
      }
      RecoverableIgnoresStaging(old(Files()), Files());
      ghost var middle := failures;
      var directory := Files().staging[name];
      if Files().retiring.Some? {
        return false;
      }
      ok := Rotate(name, directory, from, allowed);
    }

    /** validateBackupDirectory on a staging directory. */
    method Validate(name: string) returns (found: Option<BackupMetadata>)
      modifies this`failures
      ensures found.Some? ==> name in Files().staging && Files().staging[name].content == found
      ensures failures == old(failures) && name in Files().staging ==> found == Files().staging[name].content
      ensures Counts(old(failures)) && failures <= old(failures) + 1 && (found.Some? ==> failures == old(failures))
    {
      var readable := Attempt();
      found := if readable && name in Files().staging then Files().staging[name].content else None;
    }

    /** The staged files and their directory are synced. */
    method SyncStaged(name: string, ghost from: nat, ghost allowed: set<Option<BackupMetadata>>) returns (ok: bool)
      requires SafeSince(from, allowed) && name in Files().staging
      modifies this
      ensures SafeSince(from, allowed) && old(history) <= history && Counts(old(failures))
      ensures failures == old(failures) + if ok then 0 else 1
      ensures !ok ==> disk == old(disk)
      ensures ok ==>
                Files() == old(Files()).(
                  staging := old(Files()).staging[name := old(Files()).staging[name].(synced := true)])
    {
      hide Safe, Sound, Apply;
      ok := Attempt();
      if ok {
        SafeNow(disk, allowed);
        StagingOpsAreSound(Files(), SyncStaging(name), allowed);
        StagingSynced(Files(), name);
        Do(SyncStaging(name), from, allowed);
      }
    }

    /** os.Rename of `current` to `.retiring`. */
    method Retire(ghost from: nat, ghost allowed: set<Option<BackupMetadata>>) returns (ok: bool)
      requires SafeSince(from, allowed) && Files().current.Some? && Files().retiring.None?
      modifies this
      ensures SafeSince(from, allowed) && old(history) <= history && Counts(old(failures))
      ensures failures == old(failures) + if ok then 0 else 1
      ensures Files() == if ok then old(Files()).(current := None, retiring := old(Files()).current) else old(Files())
    {
      hide Safe, Sound, Apply;
      ok := Attempt();
      if ok {
        SafeNow(disk, allowed);
        RetiringIsSound(Files(), allowed);
        Do(RetireCurrent, from, allowed);
      }
    }

    /** os.Rename of the staging directory to `current`; a retirement before it is on disk. */
    method Promote(
        name: string, ghost directory: Directory, ghost from: nat, ghost allowed: set<Option<BackupMetadata>>)
      returns (ok: bool)
      requires SafeSince(from, allowed) && name in Files().staging && Files().staging[name] == directory
      requires directory.content.Some? && directory.content in allowed && directory.synced
      requires directory.artifacts.Keys == ALL_ARTIFACTS && Files().current.None?
      requires Files().retiring.Some? ==> disk == Disk(Files(), [])
      modifies this
      ensures SafeSince(from, allowed) && old(history) <= history && Counts(old(failures))
      ensures failures == old(failures) + if ok then 0 else 1
      ensures !ok ==> disk == old(disk)
      ensures ok ==>
                && Files().current == Some(directory) && Files().retiring == old(Files()).retiring
                && Files().staging.Keys == old(Files()).staging.Keys - {name}
    {
      hide Safe, Sound, Apply;
      ok := Attempt();
      if ok {
        SafeNow(disk, allowed);
        CommittingIsSound(Files(), name, directory, allowed);
        Do(CommitStaging(name), from, allowed);
      }
    }

    /** The retired backup is removed, once the new one is at `current` on disk. */
    method DropRetired(ghost from: nat, ghost allowed: set<Option<BackupMetadata>>) returns (ok: bool)
      requires SafeSince(from, allowed) && Files().current.Some? && disk == Disk(Files(), [])
      modifies this
      ensures SafeSince(from, allowed) && old(history) <= history
      ensures Files() == old(Files()).(retiring := Files().retiring)
      ensures ok <==> Files().retiring.None?
      ensures failures == old(failures) + if ok then 0 else 1
      ensures Counts(old(failures))
    {
      hide Safe, Sound, Apply;
      ok := RemoveRetiring(from, allowed);
    }

    /** The renames of Commit, once the staging directory is synced and nothing is being retired. */
    method Rotate(name: string, ghost directory: Directory, ghost from: nat, ghost allowed: set<Option<BackupMetadata>>)
      returns (ok: bool)
      requires SafeSince(from, allowed) && name in Files().staging && Files().staging[name] == directory
      requires directory.content.Some? && directory.content in allowed && directory.synced
      requires directory.artifacts.Keys == ALL_ARTIFACTS && Files().retiring.None?
      modifies this
      ensures SafeSince(from, allowed) && old(history) <= history && Counts(old(failures))
      ensures Files().staging.Keys <= old(Files()).staging.Keys
      ensures ok ==> Committed(directory.content.value)
      ensures ok && old(Recoverable(Files())) != directory.content ==> Files().current == Some(directory)
      ensures ok ==> Files().staging.Keys <= old(Files()).staging.Keys - {name}
      ensures failures == old(failures) ==> ok
      ensures old(Recoverable(Files())) != directory.content && failures <= old(failures) + 1 ==>
                (ok <==> Recoverable(Files()) == directory.content)
      ensures RecoverableDirectory(Files()) == old(RecoverableDirectory(Files())) ||
              RecoverableDirectory(Files()) == Some(directory)
    {
      hide Safe, Sound, Apply;
      ghost var before := RecoverableDirectory(Files());
      RecoverableContent(Files());
      var expected := Files().staging[name].content.value;
      SafeNow(disk, allowed);
      if Files().current.Some? {
        var retired := Retire(from, allowed);
        if !retired {
          return false;
        }
        RecoverableContent(Files());
        var durable := SyncRoot(from, allowed);
        if !durable {
          ok := RecoverCommitFailure(expected, from, allowed);
          RecoverableContent(Files());
          return;
        }
      }
      var committed := Promote(name, directory, from, allowed);
      if !committed {
        ok := RecoverCommitFailure(expected, from, allowed);
        RecoverableContent(Files());
        return;
      }
      ok := FinishRotation(expected, directory, from, allowed);
    }

    /** The rest of the rotation: the new backup is at `current`, and the retired one goes. */
    method FinishRotation(
        expected: BackupMetadata, ghost directory: Directory, ghost from: nat,
        ghost allowed: set<Option<BackupMetadata>>)
      returns (ok: bool)
      requires SafeSince(from, allowed) && Files().current == Some(directory)
      requires directory.content == Some(expected) && directory.synced
      modifies this
      ensures SafeSince(from, allowed) && old(history) <= history && Counts(old(failures))
      ensures Files().staging.Keys <= old(Files()).staging.Keys
      ensures RecoverableDirectory(Files()) == Some(directory)
      ensures ok ==> Committed(expected) && Files().current == Some(directory)
      ensures failures <= old(failures) + 1 ==> ok
    {
      hide Safe, Sound, Apply;
      RecoverableContent(Files());
      var durable := SyncRoot(from, allowed);
      if !durable {
        ok := RecoverCommitFailure(expected, from, allowed);
        return;
      }
      var removed := DropRetired(from, allowed);
      RecoverableContent(Files());
      if !removed {
        ok := RecoverCommitFailure(expected, from, allowed);
        return;
      }
      durable := SyncRoot(from, allowed);
      if !durable {
        ok := RecoverCommitFailure(expected, from, allowed);
        return;
      }
      ok := true;
    }
  }

  /** The entry is as it was. */
  predicate SameEntry(a: map<string, Directory>, b: map<string, Directory>, name: string) {
    (name in a <==> name in b) && (name in a ==> b[name] == a[name])
  }

  /* ---------- Why each rename is safe ---------- */

  lemma RestoringIsSound(r: Root, allowed: set<Option<BackupMetadata>>)
    requires Sound(r, allowed) && r.current.None? && r.retiring.Some?
    ensures Sound(Apply(r, RestoreRetiring), allowed)
    ensures var after := Apply(r, RestoreRetiring);
            && after == r.(current := r.retiring, retiring := None)
            && RecoverableDirectory(after) == RecoverableDirectory(r)
  {
  }

  lemma RetiringIsSound(r: Root, allowed: set<Option<BackupMetadata>>)
    requires Sound(r, allowed) && r.current.Some? && r.retiring.None?
    ensures Sound(Apply(r, RetireCurrent), allowed)
    ensures var after := Apply(r, RetireCurrent);
            && after == r.(current := None, retiring := r.current)
            && RecoverableDirectory(after) == RecoverableDirectory(r)
  {
  }

  lemma CommittingIsSound(r: Root, name: string, directory: Directory, allowed: set<Option<BackupMetadata>>)
    requires Sound(r, allowed) && r.current.None? && name in r.staging && r.staging[name] == directory
    requires directory.content.Some? && directory.content in allowed && directory.synced
    requires directory.artifacts.Keys == ALL_ARTIFACTS
    ensures Sound(Apply(r, CommitStaging(name)), allowed)
    ensures var after := Apply(r, CommitStaging(name));
            && after.current == Some(directory) && RecoverableDirectory(after) == Some(directory)
            && after.staging.Keys == r.staging.Keys - {name} && after.retiring == r.retiring
  {
  }

  lemma StagingOpsAreSound(r: Root, op: Op, allowed: set<Option<BackupMetadata>>)
    requires Sound(r, allowed)
    requires op.CreateStaging? || op.WriteArtifact? || op.WriteMetadata? || op.SyncStaging? || op.TearStaging? ||
             op.DropStaging?
    ensures Sound(Apply(r, op), allowed) && Apply(r, op) == r.(staging := Apply(r, op).staging)
  {
  }

  lemma StagingSynced(r: Root, name: string)
    requires name in r.staging
    ensures Apply(r, SyncStaging(name)) == r.(staging := r.staging[name := r.staging[name].(synced := true)])
  {
  }

  lemma StagingCreated(r: Root, name: string)
    ensures Apply(r, CreateStaging(name)).staging == r.staging[name := EMPTY_DIRECTORY]
  {
  }

  lemma ArtifactWritten(r: Root, name: string, artifact: Artifact, data: Data)
    requires name in r.staging
    ensures Apply(r, WriteArtifact(name, artifact, data)) ==
            r.(staging := r.staging[name := Directory(r.staging[name].artifacts[artifact := data], None, false)])
  {
  }

  lemma StagingSealed(r: Root, name: string, meta: BackupMetadata)
    requires name in r.staging && r.staging[name].artifacts.Keys == ALL_ARTIFACTS
    ensures Apply(r, WriteMetadata(name, meta)) ==
            r.(staging := r.staging[name := Directory(r.staging[name].artifacts, Some(meta), false)])
  {
  }

  /** More acceptable backups make a disk no less safe. */
  lemma SafeForMore(d: Disk, allowed: set<Option<BackupMetadata>>, more: set<Option<BackupMetadata>>)
    requires Safe(d, allowed) && allowed <= more
    ensures Safe(d, more)
  {
    forall k | 0 <= k <= |d.pending| ensures SoundAt(d, k, more) {
      assert SoundAt(d, k, allowed);
    }
  }

  lemma RecoverableIgnoresStaging(r: Root, after: Root)
    requires after == r.(staging := after.staging)
    ensures RecoverableDirectory(after) == RecoverableDirectory(r) && Recoverable(after) == Recoverable(r)
  {
  }

  lemma CurrentIsSynced(r: Root, allowed: set<Option<BackupMetadata>>)
    requires Sound(r, allowed)
    ensures r.current.Some? ==> r.current.value.synced
  {
  }

  /* ---------- Crashes ---------- */

  /**
    Startup recovery may itself be interrupted any number of times: what a crash leaves of
    a safe disk is again a disk that `Recover` accepts, with the old or the new backup in it.
   */
  lemma CrashedDiskIsSafe(d: Disk, allowed: set<Option<BackupMetadata>>, r: Root)
    requires Safe(d, allowed) && CrashLeaves(d, r)
    ensures Safe(Disk(r, []), allowed) && Recoverable(r) in allowed
  {
    CrashIsSound(d, allowed, r);
    forall k | 0 <= k <= 0 ensures SoundAt(Disk(r, []), k, allowed) {
    }
  }

  /**
    The order matters. After a failed sync of the committing rename, recovery removes the
    retired backup; were that removal to reach the disk before the rename, no backup would
    be left, although every ordered prefix is sound.
   */
  lemma ReorderedRemovalLosesTheBackup(was: Directory, replacement: Directory, name: string)
    requires Whole(Some(was)) && Whole(Some(replacement))
    ensures var start := Root(None, Some(was), map[name := replacement]);
            var d := Disk(start, [CommitStaging(name), TearRetiring, DropRetiring]);
            && Safe(d, {was.content, replacement.content})
            && RecoverableDirectory(Live(d)) == Some(replacement)
            && RecoverableDirectory(ApplyAll(start, [TearRetiring, DropRetiring])) == None
  {
    hide Whole, Sound, SoundAt;
    var start := Root(None, Some(was), map[name := replacement]);
    var allowed := {was.content, replacement.content};
    StartIsSafe(start, was, allowed);
    var d0 := Disk(start, []);
    CommittedIsSound(start, name, replacement, was, allowed);
    OneMoreOp(d0, CommitStaging(name), allowed);
    var d1 := Disk(start, [] + [CommitStaging(name)]);
    OneMoreOp(d1, TearRetiring, allowed);
    var d2 := Disk(start, d1.pending + [TearRetiring]);
    OneMoreOp(d2, DropRetiring, allowed);
    assert d2.pending + [DropRetiring] == [CommitStaging(name), TearRetiring, DropRetiring];
    var lost := [TearRetiring, DropRetiring];
    assert lost[..1] == [TearRetiring] && [TearRetiring][..0] == [];
    assert ApplyAll(start, [TearRetiring]) == Apply(ApplyAll(start, []), TearRetiring);
  }

  lemma StartIsSafe(start: Root, was: Directory, allowed: set<Option<BackupMetadata>>)
    requires start.current.None? && start.retiring == Some(was) && Whole(Some(was)) && was.content in allowed
    ensures Safe(Disk(start, []), allowed)
  {
    assert SoundAt(Disk(start, []), 0, allowed);
  }

  /** After the committing rename any removal of the retired backup is sound. */
  lemma CommittedIsSound(
      start: Root, name: string, replacement: Directory, was: Directory, allowed: set<Option<BackupMetadata>>)
    requires start == Root(None, Some(was), map[name := replacement])
    requires Whole(Some(was)) && Whole(Some(replacement)) && replacement.content in allowed
    ensures var r := Apply(start, CommitStaging(name));
            && r == Root(Some(replacement), Some(was), map[]) && Sound(r, allowed)
            && Sound(Apply(r, TearRetiring), allowed) && Sound(Apply(Apply(r, TearRetiring), DropRetiring), allowed)
  {
    assert map[name := replacement] - {name} == map[];
  }
}
