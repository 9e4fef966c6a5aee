/**
  The durable runtime record and the predicate every load and save enforces on it.
 */
module State {
  import opened Wrappers
  import opened Text
  import opened Release

  const STEPS_PER_HOP: int := 7
  const MAX_RECOVERY_ATTEMPTS: int := 3
  const OBSERVATION_THRESHOLD: int := 3
  const MAX_REPAIRS: int := 3
  const REPAIR_WINDOW: int := 600
  const REPAIR_COOLDOWN: int := 900
  const SCHEMA_VERSION: int := 6
  const DIRECT_CONTRACT_VERSION: int := 2

  /** Instants in seconds; zero stands for the unset time. */
  type Instant = nat

  /* ---------- Backups ---------- */

  datatype BackupArtifact = BackupArtifact(name: string, size: int, sha256: string)

  datatype BackupMetadata = BackupMetadata(
    schemaVersion: int,
    jobId: string,
    version: string,
    imageDigest: string,
    imageRef: string,
    databaseSchema: int,
    schemaCompatVersion: int,
    legacyBootstrapAssumption: bool,
    createdAt: Instant,
    artifacts: seq<BackupArtifact>)

  /** The name is its own last path element. */
  predicate BaseName(name: string) {
    name == "/" || '/' !in name
  }

  predicate ArtifactShapeValid(a: BackupArtifact) {
    a.name != "" && BaseName(a.name) && a.name != "metadata.json" && a.size >= 0 && HexDigest(a.sha256)
  }

  predicate MetadataShapeValid(m: BackupMetadata) {
    && m.schemaVersion == 1
    && JobIdText(m.jobId)
    && ParseVersion(m.version).Some?
    && ImageDigest(m.imageDigest)
    && m.imageRef == PinnedRef(m.version, m.imageDigest)
    && 1 <= m.schemaCompatVersion <= m.databaseSchema
    && (m.legacyBootstrapAssumption ==>
          m.version == LEGACY_INITIAL_VERSION && m.databaseSchema == 1 && m.schemaCompatVersion == 1)
    && m.createdAt != 0
    && (forall k :: 0 <= k < |m.artifacts| ==> ArtifactShapeValid(m.artifacts[k]))
    && Sorted(seq(|m.artifacts|, k requires 0 <= k < |m.artifacts| => m.artifacts[k].name))
  }

  /* ---------- Plans ---------- */

  datatype Plan = Plan(
    manifest: Manifest,
    manifestDigest: string,
    currentVersion: string,
    chain: seq<ReleaseStep>,
    directContractVersion: int,
    releaseIndexDigest: string,
    clientVersion: string,
    sourceImageDigest: string,
    sourceSchemaVersion: int,
    sourceSchemaCompatVersion: int,
    legacyUnbound: bool,
    expiresAt: Instant)

  /** The version installed once `hop` steps of the chain have completed. */
  function VersionAtHop(plan: Plan, hop: int): string
    requires 0 <= hop <= |plan.chain|
  {
    if hop == 0 then plan.currentVersion else plan.chain[hop - 1].manifest.version
  }

  predicate StepValid(x: Externals, plan: Plan, hop: int)
    requires 0 <= hop < |plan.chain|
  {
    var step := plan.chain[hop];
    && ManifestValid(x, step.manifest)
    && ImageDigest(step.manifestDigest)
    && x.manifestDigest(step.manifest) == step.manifestDigest
    && UpgradeAllowedFrom(x, step.manifest, VersionAtHop(plan, hop))
    && (step.sourceImageDigests == [] ==> plan.legacyUnbound)
    && SourceDigestsValid(step.sourceImageDigests)
  }

  /** The step starts from exactly the image the step before it installs. */
  predicate BoundToPrevious(plan: Plan, k: int)
    requires 0 < k < |plan.chain|
  {
    plan.chain[k].sourceImageDigests == [plan.chain[k - 1].manifest.imageDigest]
  }

  predicate DirectContractValid(plan: Plan) {
    && plan.directContractVersion == DIRECT_CONTRACT_VERSION
    && |plan.chain| == 1
    && ImageDigest(plan.releaseIndexDigest)
    && ImageDigest(plan.sourceImageDigest)
    && plan.sourceImageDigest in plan.chain[0].sourceImageDigests
    && ParseVersion(plan.currentVersion).Some?
    && 1 <= plan.sourceSchemaCompatVersion <= plan.sourceSchemaVersion
    && plan.manifest.schemaCompatVersion <= plan.sourceSchemaVersion
    && plan.sourceSchemaCompatVersion <= plan.manifest.schemaVersion
    && ParseVersion(plan.clientVersion).Some?
    && !OlderText(plan.clientVersion, plan.manifest.minimumClientVersion)
    && OlderText(plan.clientVersion, plan.manifest.maximumClientVersionExclusive)
  }

  predicate ChainValid(x: Externals, plan: Plan) {
    && plan.chain != []
    && (forall k :: 0 <= k < |plan.chain| ==> StepValid(x, plan, k))
    && plan.chain[|plan.chain| - 1].manifest == plan.manifest
    && plan.chain[|plan.chain| - 1].manifestDigest == plan.manifestDigest
    && (plan.directContractVersion == 0 || DirectContractValid(plan))
  }

  predicate PlanValid(x: Externals, hash: string, plan: Plan) {
    && HexDigest(hash)
    && ManifestValid(x, plan.manifest)
    && ImageDigest(plan.manifestDigest)
    && ChainValid(x, plan)
    && plan.expiresAt != 0
  }

  /* ---------- Jobs ---------- */

  datatype JobStatus =
    | Queued | Validating | BackingUp | Pulling | Stopping | Migrating | Starting | HealthCheck
    | RollingBack | Restarting | Succeeded | Failed | RolledBack | UnknownStatus(text: string)

  datatype JobStep =
    | NoStep | AtPhase(phase: JobStatus) | RestoreBackup | CheckRestored | Restart | Complete
    | UnknownStep(text: string)

  datatype DirectRelease = DirectRelease(version: string, imageDigest: string)

  /** Job error codes, with the text the API reports. */
  datatype ErrorCode =
    | NoError
    | BackupFailed             // backup_failed
    | BackupInvalid            // backup_invalid
    | SourceUntrusted          // source_image_digest_untrusted
    | ActivationFailed         // target_activation_failed
    | TargetUnhealthy          // target_health_failed
    | RollbackFailed           // rollback_failed
    | RestartUnsuccessful      // restart_failed
    | OtherError(text: string)

  /** The explanation shown with a job; which sentence it is, not its wording. */
  datatype Message =
    | NoMessage | StoppedBeforeMutation | SourceNotApproved | RestoringPrevious | PreviousRestored
    | RecoveryExhausted | RestartExhausted | OtherMessage(text: string)

  /** What a job is about; no transaction changes it. */
  datatype JobSpec = JobSpec(
    id: string,
    key: string,
    planHash: string,
    manifestDigest: string,
    direct: Option<DirectRelease>,
    targetVersion: string,
    totalSteps: int,
    totalHops: int)

  /** How far a job has come. */
  datatype JobRun = JobRun(
    status: JobStatus,
    currentVersion: string,
    step: JobStep,
    completedSteps: int,
    currentHop: int,
    available: bool,
    lastSafeVersion: string,
    errorCode: ErrorCode,
    errorMessage: Message,
    recovery: Option<BackupMetadata>,
    attempts: int)

  /** A persisted job; the source keeps these fields in one flat record. */
  datatype Job = Job(spec: JobSpec, bearers: seq<string>, run: JobRun)

  /** `b` is the same job as `a`, later: same identity and target, and no token forgotten. */
  predicate SameJob(a: Job, b: Job) {
    a.spec == b.spec && a.bearers <= b.bearers
  }

  /** Position of an upgrade phase inside one hop, or -1 outside the upgrade phases. */
  function Rank(status: JobStatus): int {
    match status
    case Validating => 0
    case BackingUp => 1
    case Pulling => 2
    case Stopping => 3
    case Migrating => 4
    case Starting => 5
    case HealthCheck => 6
    case _ => -1
  }

  predicate Active(status: JobStatus) {
    Rank(status) >= 0 || status == Queued || status == RollingBack || status == Restarting
  }

  predicate Terminal(status: JobStatus) {
    status == Succeeded || status == Failed || status == RolledBack
  }

  /** The phases of a hop, in the order in which they are reported. */
  const PHASES: seq<JobStatus> := [Validating, BackingUp, Pulling, Stopping, Migrating, Starting, HealthCheck]

  /** Ranks follow that order, and every known status is active or terminal, never both. */
  lemma PhasesInOrder(status: JobStatus)
    ensures |PHASES| == 7 && forall k :: 0 <= k < 7 ==> Rank(PHASES[k]) == k
    ensures Rank(status) >= 0 <==> status in PHASES
    ensures status.UnknownStatus? || (Active(status) <==> !Terminal(status))
  {
    assert PHASES[0] == Validating && PHASES[1] == BackingUp && PHASES[2] == Pulling && PHASES[3] == Stopping;
    assert PHASES[4] == Migrating && PHASES[5] == Starting && PHASES[6] == HealthCheck;
  }

  /** Job.validateExecutionState */
  predicate ExecutionValid(spec: JobSpec, r: JobRun) {
    && 0 <= r.completedSteps <= spec.totalSteps
    && 0 <= r.attempts <= MAX_RECOVERY_ATTEMPTS
    && (Active(r.status) ==>
          && spec.totalHops >= 1
          && 0 <= r.currentHop
          && (if r.status == RollingBack || r.status == Restarting
              then r.currentHop <= spec.totalHops else r.currentHop < spec.totalHops)
          && spec.totalSteps == STEPS_PER_HOP * spec.totalHops
          && r.step != NoStep)
    && (r.status == Queued ==> r.step == AtPhase(Validating))
    && (r.status == RollingBack ==> r.recovery.Some?)
    && (r.status == Restarting ==> r.step == Restart)
    && (r.recovery.Some? ==> MetadataShapeValid(r.recovery.value) && r.recovery.value.jobId == spec.id)
    && (Terminal(r.status) ==> r.step == Complete)
    && (r.status == Succeeded ==>
          && r.available && r.errorCode == NoError && r.errorMessage == NoMessage
          && r.currentHop == spec.totalHops && r.completedSteps == spec.totalSteps
          && r.currentVersion == spec.targetVersion)
    && (r.status == Failed ==> r.errorCode != NoError)
  }

  predicate DirectReleaseValid(release: DirectRelease) {
    ParseVersion(release.version).Some? && (release.imageDigest != "" ==> ImageDigest(release.imageDigest))
  }

  /** The job's target, hop and current version agree with its direct release or its plan. */
  predicate TargetValid(plans: map<string, Plan>, spec: JobSpec, r: JobRun) {
    match spec.direct
    case Some(release) =>
      && DirectReleaseValid(release)
      && spec.planHash == "" && spec.manifestDigest == ""
      && spec.targetVersion == release.version && spec.totalHops == 1 && 0 <= r.currentHop <= 1
      && ParseVersion(r.currentVersion).Some? && ParseVersion(spec.targetVersion).Some?
      && !OlderText(spec.targetVersion, r.currentVersion)
    case None =>
      && spec.planHash in plans
      && var plan := plans[spec.planHash];
      && spec.manifestDigest == plan.manifestDigest
      && spec.targetVersion == plan.manifest.version
      && spec.totalHops == |plan.chain|
      && 0 <= r.currentHop <= |plan.chain|
      && r.currentVersion == VersionAtHop(plan, r.currentHop)
  }

  predicate JobValid(plans: map<string, Plan>, idempotency: map<string, string>, id: string, j: Job) {
    && id != "" && j.spec.id == id
    && !j.run.status.UnknownStatus?
    && TargetValid(plans, j.spec, j.run)
    && j.spec.key != "" && j.spec.key in idempotency && idempotency[j.spec.key] == id
    && j.bearers != []
    && (forall k :: 0 <= k < |j.bearers| ==> HexDigest(j.bearers[k]))
    && ExecutionValid(j.spec, j.run)
  }

  /* ---------- Watchdog, discovery and the whole record ---------- */

  datatype WatchdogStatus =
    | WatchUnknown | WatchHealthy | WatchObserving | WatchRepairing | WatchDegraded | WatchSuppressed
    | InvalidWatchStatus(text: string)

  datatype WatchdogError =
    | NoWatchError
    | ObservationFailed        // observation_failed
    | RepairUnsuccessful       // repair_failed
    | InvalidWatchError(text: string)

  datatype WatchdogState = WatchdogState(
    status: WatchdogStatus,
    failures: int,
    attempts: seq<Instant>,
    cooldownUntil: Instant,
    lastObservedAt: Instant,
    lastRepairAt: Instant,
    errorCode: WatchdogError)

  predicate WatchdogValid(w: WatchdogState) {
    && !w.status.InvalidWatchStatus?
    && 0 <= w.failures <= OBSERVATION_THRESHOLD
    && |w.attempts| <= MAX_REPAIRS
    && (forall k :: 0 <= k < |w.attempts| ==> w.attempts[k] != 0)
    && (forall i, k :: 0 <= i < |w.attempts| && i < k < |w.attempts| ==> w.attempts[i] <= w.attempts[k])
    && !w.errorCode.InvalidWatchError?
    && (w.status == WatchDegraded ==> w.cooldownUntil != 0)
  }

  datatype DiscoveryStatus =
    | DiscoveryUnknown | DiscoveryFresh | DiscoveryStale | DiscoveryUnavailable
    | InvalidDiscovery(text: string)

  datatype Discovery = Discovery(
    status: DiscoveryStatus,
    checkedAt: Instant,
    manifest: Option<Manifest>,
    manifestDigest: string,
    index: Option<ReleaseIndex>,
    indexDigest: string,
    errorCode: string)

  const NO_DISCOVERY: Discovery := Discovery(DiscoveryUnknown, 0, None, "", None, "", "")

  predicate DiscoveryValid(x: Externals, d: Discovery) {
    && !d.status.InvalidDiscovery?
    && (d.manifest.Some? ==>
          && ManifestValid(x, d.manifest.value)
          && ImageDigest(d.manifestDigest)
          && (d.index.Some? ==>
                && IndexValid(x, d.index.value)
                && ImageDigest(d.indexDigest)
                && x.indexDigest(d.index.value) == d.indexDigest
                && var latest := d.index.value.releases[|d.index.value.releases| - 1];
                && latest.manifest == d.manifest.value && latest.manifestDigest == d.manifestDigest))
    && (d.status == DiscoveryFresh ==> d.manifest.Some? && d.index.Some? && d.checkedAt != 0)
  }

  datatype DesiredState = Running | Upgrading | Maintenance | Deprovisioned | InvalidDesired(text: string)

  datatype RuntimeState = RuntimeState(
    schemaVersion: int,
    desired: DesiredState,
    discovery: Discovery,
    watchdog: WatchdogState,
    plans: map<string, Plan>,
    jobs: map<string, Job>,
    idempotency: map<string, string>)

  predicate IsActive(s: RuntimeState, id: string) {
    id in s.jobs && Active(s.jobs[id].run.status)
  }

  /** hasActiveJob */
  predicate HasActive(s: RuntimeState) {
    exists id :: id in s.jobs && IsActive(s, id)
  }

  /** countActiveJobs is at most one. */
  predicate AtMostOneActive(s: RuntimeState) {
    forall a, b :: a in s.jobs && b in s.jobs && IsActive(s, a) && IsActive(s, b) ==> a == b
  }

  /** RuntimeState.normalizeAndValidate */
  predicate StateValid(x: Externals, s: RuntimeState) {
    && s.schemaVersion == SCHEMA_VERSION
    && !s.desired.InvalidDesired?
    && WatchdogValid(s.watchdog)
    && DiscoveryValid(x, s.discovery)
    && (forall hash :: hash in s.plans ==> PlanValid(x, hash, s.plans[hash]))
    && (forall id :: id in s.jobs ==> JobValid(s.plans, s.idempotency, id, s.jobs[id]))
    && (forall key :: key in s.idempotency ==>
          key != "" && s.idempotency[key] in s.jobs && s.jobs[s.idempotency[key]].spec.key == key)
    && AtMostOneActive(s)
    && (s.desired == Upgrading <==> HasActive(s))
  }

  /** Whether a job is active is decided by the jobs alone. */
  lemma SameActives(s: RuntimeState, t: RuntimeState)
    requires t.jobs == s.jobs
    ensures HasActive(t) == HasActive(s) && AtMostOneActive(t) == AtMostOneActive(s)
    ensures forall id :: IsActive(s, id) == IsActive(t, id)
  {
    if HasActive(s) {
      var id :| id in s.jobs && IsActive(s, id);
      assert IsActive(t, id);
    }
    if HasActive(t) {
      var id :| id in t.jobs && IsActive(t, id);
      assert IsActive(s, id);
    }
  }

  /** Jobs and idempotency keys name each other. */
  predicate WellKeyed(s: RuntimeState) {
    && (forall id :: id in s.jobs ==>
          s.jobs[id].spec.id == id && s.jobs[id].spec.key in s.idempotency && s.idempotency[s.jobs[id].spec.key] == id)
    && (forall key :: key in s.idempotency ==>
          s.idempotency[key] in s.jobs && s.jobs[s.idempotency[key]].spec.key == key)
  }

  /** completedHopForVersion: the number of completed hops at which the chain installs `version`. */
  function CompletedHop(plan: Plan, version: string): (hop: int)
    ensures 0 <= hop <= |plan.chain|
  {
    if version == plan.currentVersion then 0 else FirstHopTo(plan.chain, version)
  }

  function FirstHopTo(chain: seq<ReleaseStep>, version: string): (hop: int)
    ensures 0 <= hop <= |chain|
    ensures hop == 0 <==> forall k :: 0 <= k < |chain| ==> chain[k].manifest.version != version
    ensures hop > 0 ==> chain[hop - 1].manifest.version == version
  {
    if chain == [] then 0
    else if chain[0].manifest.version == version then 1
    else
      var later := FirstHopTo(chain[1..], version);
      if later == 0 then 0 else later + 1
  }

  /* ---------- Chain facts ---------- */

  /** Versions along a valid chain strictly increase. */
  lemma {:induction false} ChainVersionsIncrease(x: Externals, plan: Plan, a: int, b: int)
    requires ChainValid(x, plan)
    requires 0 <= a < b <= |plan.chain|
    ensures OlderText(VersionAtHop(plan, a), VersionAtHop(plan, b))
    decreases b - a
  {
    assert StepValid(x, plan, b - 1);
    if a < b - 1 {
      ChainVersionsIncrease(x, plan, a, b - 1);
      OlderTextIsTotalOrder(VersionAtHop(plan, a), VersionAtHop(plan, b - 1), VersionAtHop(plan, b));
    }
  }

  /** completedHopForVersion inverts the chain: it finds exactly the hop that installs the version. */
  lemma CompletedHopInverts(x: Externals, plan: Plan, hop: int)
    requires ChainValid(x, plan)
    requires 0 <= hop <= |plan.chain|
    ensures CompletedHop(plan, VersionAtHop(plan, hop)) == hop
  {
    var found := CompletedHop(plan, VersionAtHop(plan, hop));
    assert VersionAtHop(plan, found) == VersionAtHop(plan, hop) by {
      if found == 0 && hop > 0 {
        assert plan.chain[hop - 1].manifest.version == VersionAtHop(plan, hop);
      }
    }
    if found < hop {
      ChainVersionsIncrease(x, plan, found, hop);
    } else if hop < found {
      ChainVersionsIncrease(x, plan, hop, found);
    }
  }
}
