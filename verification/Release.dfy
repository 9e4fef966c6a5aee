/**
  Release manifests and the published release index: what makes them valid, and
  which upgrade edges they allow.
 */
module Release {
  import opened Wrappers
  import opened Text

  const REPOSITORY: string := "dirextalk/message-server"
  const LEGACY_INITIAL_VERSION: string := "v0.15.2"
  const FIRST_FORMAL_VERSION: string := "v1.0.0"

  datatype Manifest = Manifest(
    manifestVersion: int,
    version: string,
    image: string,
    imageDigest: string,
    upgradeFrom: seq<string>,
    schemaVersion: int,
    schemaCompatVersion: int,
    minimumClientVersion: string,
    maximumClientVersionExclusive: string,
    backupRequired: bool,
    rollbackSupported: bool,
    rollbackMode: string,
    releaseNotesUrl: string)

  datatype IndexedRelease = IndexedRelease(manifest: Manifest, manifestDigest: string)

  datatype UpgradeEdge = UpgradeEdge(fromVersion: string, fromImageDigests: seq<string>, toVersion: string)

  datatype ReleaseIndex = ReleaseIndex(
    indexVersion: int,
    latestVersion: string,
    releases: seq<IndexedRelease>,
    edges: seq<UpgradeEdge>)

  datatype ReleaseStep = ReleaseStep(manifest: Manifest, manifestDigest: string, sourceImageDigests: seq<string>)

  /**
    The code this model does not look into: SHA-256 over canonical JSON, the semantic
    version constraint language and URL parsing. Every result holds for any such functions.
   */
  datatype Externals = Externals(
    manifestDigest: Manifest -> string,
    indexDigest: ReleaseIndex -> string,
    constraintParses: string -> bool,
    constraintAllows: (string, Version) -> bool,
    notesUrlNames: (string, string) -> bool)

  function TaggedRef(version: string): string {
    REPOSITORY + ":" + version
  }

  function PinnedRef(version: string, digest: string): string {
    TaggedRef(version) + "@" + digest
  }

  predicate ManifestValid(x: Externals, m: Manifest) {
    && m.manifestVersion == 1
    && ParseVersion(m.version).Some?
    && m.image == TaggedRef(m.version)
    && ImageDigest(m.imageDigest)
    && (forall k :: 0 <= k < |m.upgradeFrom| ==>
          && x.constraintParses(m.upgradeFrom[k])
          && !x.constraintAllows(m.upgradeFrom[k], ParseVersion(m.version).value))
    && 1 <= m.schemaCompatVersion <= m.schemaVersion
    && OlderText(m.minimumClientVersion, m.maximumClientVersionExclusive)
    && m.backupRequired
    && m.rollbackMode == (if m.rollbackSupported then "restore_backup" else "")
    && x.notesUrlNames(m.releaseNotesUrl, m.version)
  }

  /**
    Manifest.ValidateUpgradeFrom: the current version is older than the target and the
    first constraint that either fails to parse or matches is one that matches.
   */
  predicate UpgradeAllowedFrom(x: Externals, m: Manifest, current: string) {
    OlderText(current, m.version) && SomeConstraintAllows(x, m.upgradeFrom, ParseVersion(current).value)
  }

  predicate SomeConstraintAllows(x: Externals, constraints: seq<string>, v: Version) {
    if constraints == [] || !x.constraintParses(constraints[0]) then false
    else x.constraintAllows(constraints[0], v) || SomeConstraintAllows(x, constraints[1..], v)
  }

  predicate SourceDigestsValid(digests: seq<string>) {
    && Sorted(digests)
    && (forall k :: 0 <= k < |digests| ==> ImageDigest(digests[k]))
    && (forall i, k :: 0 <= i < |digests| && 0 <= k < |digests| && k == i + 1 ==> digests[i] != digests[k])
  }

  predicate ReleaseValid(x: Externals, r: IndexedRelease) {
    ManifestValid(x, r.manifest) && ImageDigest(r.manifestDigest) && x.manifestDigest(r.manifest) == r.manifestDigest
  }

  predicate Indexed(releases: seq<IndexedRelease>, version: string) {
    exists k :: 0 <= k < |releases| && releases[k].manifest.version == version
  }

  predicate ReleasesValid(x: Externals, releases: seq<IndexedRelease>) {
    && (forall k :: 0 <= k < |releases| ==> ReleaseValid(x, releases[k]))
    && (forall i, k :: 0 <= i < |releases| && 0 <= k < |releases| && k == i + 1 ==>
          OlderText(releases[i].manifest.version, releases[k].manifest.version))
  }

  /** The edge's target is indexed and allows the edge, and its source digests are bound to the source release. */
  predicate EdgeValid(x: Externals, releases: seq<IndexedRelease>, edge: UpgradeEdge) {
    && OlderText(edge.fromVersion, edge.toVersion)
    && (exists k :: 0 <= k < |releases| && releases[k].manifest.version == edge.toVersion &&
                    UpgradeAllowedFrom(x, releases[k].manifest, edge.fromVersion))
    && edge.fromImageDigests != []
    && SourceDigestsValid(edge.fromImageDigests)
    && (if Indexed(releases, edge.fromVersion)
        then exists k :: 0 <= k < |releases| && releases[k].manifest.version == edge.fromVersion &&
                         edge.fromImageDigests == [releases[k].manifest.imageDigest]
        else edge.fromVersion == LEGACY_INITIAL_VERSION && edge.toVersion == FIRST_FORMAL_VERSION)
  }

  /** Published edges are listed by source version, then by target version. */
  predicate EdgeBefore(a: UpgradeEdge, b: UpgradeEdge) {
    || OlderText(a.fromVersion, b.fromVersion)
    || (a.fromVersion == b.fromVersion && OlderText(a.toVersion, b.toVersion))
  }

  predicate IndexValid(x: Externals, index: ReleaseIndex) {
    && index.indexVersion == 1
    && ParseVersion(index.latestVersion).Some?
    && index.releases != []
    && ReleasesValid(x, index.releases)
    && index.releases[|index.releases| - 1].manifest.version == index.latestVersion
    && (forall k :: 0 <= k < |index.edges| ==> EdgeValid(x, index.releases, index.edges[k]))
    && (forall i, k :: 0 <= i < |index.edges| && 0 <= k < |index.edges| && k == i + 1 ==>
          EdgeBefore(index.edges[i], index.edges[k]))
  }

  /** ReleaseIndex.stepFor: the first indexed release with the edge's target version. */
  function StepFor(releases: seq<IndexedRelease>, edge: UpgradeEdge): Option<ReleaseStep> {
    if releases == [] then None
    else if releases[0].manifest.version == edge.toVersion
    then Some(ReleaseStep(releases[0].manifest, releases[0].manifestDigest, edge.fromImageDigests))
    else StepFor(releases[1..], edge)
  }
}
