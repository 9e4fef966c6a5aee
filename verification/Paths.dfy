/**
  Upgrade paths over the published release index: the depth-first search that stops at its
  second hit, and why it is exact; and why every path it finds makes a valid plan.
 */
module Paths {
  import opened Wrappers
  import opened Text
  import opened Release
  import opened State

  /* ---------- Validated indexes ---------- */

  lemma {:induction false} ReleasesIncrease(x: Externals, releases: seq<IndexedRelease>, i: nat, k: nat)
    requires ReleasesValid(x, releases) && i < k < |releases|
    ensures OlderText(releases[i].manifest.version, releases[k].manifest.version)
    decreases k - i
  {
    hide ReleaseValid;
    if i + 1 < k {
      ReleasesIncrease(x, releases, i, k - 1);
      OlderTextIsTotalOrder(releases[i].manifest.version, releases[k - 1].manifest.version,
                            releases[k].manifest.version);
    }
  }

  lemma VersionsAreDistinct(x: Externals, releases: seq<IndexedRelease>, i: nat, k: nat)
    requires ReleasesValid(x, releases) && i < |releases| && k < |releases|
    requires releases[i].manifest.version == releases[k].manifest.version
    ensures i == k
  {
    hide ReleasesValid;
    var v := releases[i].manifest.version;
    OlderTextIsTotalOrder(v, v, v);
    if i < k {
      ReleasesIncrease(x, releases, i, k);
    } else if k < i {
      ReleasesIncrease(x, releases, k, i);
    }
  }

  /** The edges are listed in strict order. */
  predicate EdgesOrdered(edges: seq<UpgradeEdge>) {
    forall i, k :: 0 <= i < |edges| && 0 <= k < |edges| && k == i + 1 ==> EdgeBefore(edges[i], edges[k])
  }

  lemma {:induction false} EdgesIncrease(edges: seq<UpgradeEdge>, i: nat, k: nat)
    requires EdgesOrdered(edges) && i < k < |edges|
    ensures EdgeBefore(edges[i], edges[k])
    decreases k - i
  {
    hide OlderText;
    if i + 1 < k {
      EdgesIncrease(edges, i, k - 1);
      var a, b, c := edges[i], edges[k - 1], edges[k];
      OlderTextIsTotalOrder(a.fromVersion, b.fromVersion, c.fromVersion);
      OlderTextIsTotalOrder(a.toVersion, b.toVersion, c.toVersion);
    }
  }

  lemma EdgesAreDistinct(edges: seq<UpgradeEdge>, i: nat, k: nat)
    requires EdgesOrdered(edges) && i < k < |edges|
    ensures Endpoints(edges[i]) != Endpoints(edges[k])
  {
    hide EdgesOrdered, OlderText;
    EdgesIncrease(edges, i, k);
    var e := edges[i];
    OlderTextIsTotalOrder(e.fromVersion, e.fromVersion, e.fromVersion);
    OlderTextIsTotalOrder(e.toVersion, e.toVersion, e.toVersion);
  }

  function Endpoints(edge: UpgradeEdge): (string, string) {
    (edge.fromVersion, edge.toVersion)
  }

  /** Where the version stands among the releases, or -1. */
  function Position(releases: seq<IndexedRelease>, version: string): (k: int)
    ensures -1 <= k < |releases|
    ensures k >= 0 ==> releases[k].manifest.version == version
    ensures k < 0 ==> forall i :: 0 <= i < |releases| ==> releases[i].manifest.version != version
  {
    if releases == [] then -1
    else if releases[0].manifest.version == version then 0
    else
      var later := Position(releases[1..], version);
      if later < 0 then -1 else later + 1
  }

  /** How many releases an upgrade from the version can still go through. */
  function Left(index: ReleaseIndex, version: string): nat {
    |index.releases| - Position(index.releases, version)
  }

  /** Every published edge leads strictly forward. */
  lemma EdgeLeadsForward(x: Externals, index: ReleaseIndex, k: nat)
    requires IndexValid(x, index) && k < |index.edges|
    ensures Left(index, index.edges[k].toVersion) < Left(index, index.edges[k].fromVersion)
  {
    hide ReleasesValid, UpgradeAllowedFrom, SourceDigestsValid, OlderText;
    var edge := index.edges[k];
    assert EdgeValid(x, index.releases, edge);
    var a, b := Position(index.releases, edge.fromVersion), Position(index.releases, edge.toVersion);
    assert b >= 0;
    if a >= b {
      OlderTextIsTotalOrder(edge.fromVersion, edge.toVersion, edge.fromVersion);
      OlderTextIsTotalOrder(edge.toVersion, edge.toVersion, edge.toVersion);
      if a > b {
        ReleasesIncrease(x, index.releases, b, a);
      }
      assert false;
    }
  }

  /* ---------- Paths ---------- */

  predicate Distinct<T(==)>(items: seq<T>) {
    forall i, k :: 0 <= i < k < |items| ==> items[i] != items[k]
  }

  /** The edge leads to fewer remaining releases and its target is indexed. */
  predicate StepsForward(index: ReleaseIndex, k: nat)
    requires k < |index.edges|
  {
    && Left(index, index.edges[k].toVersion) < Left(index, index.edges[k].fromVersion)
    && StepFor(index.releases, index.edges[k]).Some?
  }

  /** What the search relies on: edges lead forward to indexed releases, and none is listed twice. */
  predicate Forward(index: ReleaseIndex) {
    && (forall k :: 0 <= k < |index.edges| ==> StepsForward(index, k))
    && Distinct(index.edges)
  }

  /** Every validated index has these properties. */
  lemma ValidIsForward(x: Externals, index: ReleaseIndex)
    requires IndexValid(x, index)
    ensures Forward(index)
  {
    hide IndexValid, EdgesOrdered;
    ValidIsOrdered(x, index);
    forall k | 0 <= k < |index.edges| ensures StepsForward(index, k) {
      EdgeLeadsForward(x, index, k);
      EdgeHasStep(x, index, k);
    }
    forall i, k | 0 <= i < k < |index.edges| ensures index.edges[i] != index.edges[k] {
      EdgesAreDistinct(index.edges, i, k);
    }
  }

  lemma ValidIsOrdered(x: Externals, index: ReleaseIndex)
    requires IndexValid(x, index)
    ensures EdgesOrdered(index.edges)
  {
    hide EdgeValid, EdgeBefore, ReleasesValid;
  }

  /** The edges are published and lead from one version to another. */
  predicate IsPath(index: ReleaseIndex, start: string, path: seq<UpgradeEdge>, end: string)
    decreases |path|
  {
    if path == [] then start == end
    else path[0] in index.edges && path[0].fromVersion == start && IsPath(index, path[0].toVersion, path[1..], end)
  }

  function Prefixed(edge: UpgradeEdge, paths: seq<seq<UpgradeEdge>>): seq<seq<UpgradeEdge>> {
    seq(|paths|, k requires 0 <= k < |paths| => [edge] + paths[k])
  }

  /** Every path from the version to the latest release, in the order the search meets them. */
  function AllPaths(index: ReleaseIndex, version: string): seq<seq<UpgradeEdge>>
    requires Forward(index)
    decreases Left(index, version), |index.edges| + 1
  {
    if version == index.latestVersion then [[]] else PathsFrom(index, version, 0)
  }

  /** The paths whose first edge is the `k`th one or a later one. */
  function PathsFrom(index: ReleaseIndex, version: string, k: nat): seq<seq<UpgradeEdge>>
    requires Forward(index) && k <= |index.edges|
    decreases Left(index, version), |index.edges| - k
  {
    if k == |index.edges| then []
    else if index.edges[k].fromVersion != version then PathsFrom(index, version, k + 1)
    else
      assert StepsForward(index, k);
      Prefixed(index.edges[k], AllPaths(index, index.edges[k].toVersion)) + PathsFrom(index, version, k + 1)
  }

  /** A path leads strictly forward. */
  lemma {:induction false} PathLeadsForward(index: ReleaseIndex, start: string, path: seq<UpgradeEdge>, end: string)
    requires Forward(index) && IsPath(index, start, path, end) && path != []
    ensures Left(index, end) < Left(index, start)
    decreases |path|
  {
    var k :| 0 <= k < |index.edges| && index.edges[k] == path[0];
    assert StepsForward(index, k);
    if |path| > 1 {
      PathLeadsForward(index, path[0].toVersion, path[1..], end);
    }
  }

  /** The enumeration lists exactly the paths to the latest release. */
  lemma {:induction false} AllPathsAreAll(index: ReleaseIndex, version: string, path: seq<UpgradeEdge>)
    requires Forward(index)
    ensures path in AllPaths(index, version) <==> IsPath(index, version, path, index.latestVersion)
    decreases Left(index, version), |index.edges| + 1
  {
    if version == index.latestVersion {
      assert [] in AllPaths(index, version);
      if path != [] && IsPath(index, version, path, index.latestVersion) {
        PathLeadsForward(index, version, path, index.latestVersion);
      }
    } else {
      PathsFromAreAll(index, version, 0, path);
      if path != [] && path[0] in index.edges {
        var k :| 0 <= k < |index.edges| && index.edges[k] == path[0];
        assert path[0] in index.edges[0..];
      }
      assert index.edges[0..] == index.edges;
    }
  }

  lemma {:induction false} PathsFromAreAll(
      index: ReleaseIndex, version: string, k: nat, path: seq<UpgradeEdge>)
    requires Forward(index) && k <= |index.edges|
    ensures path in PathsFrom(index, version, k) <==>
            path != [] && path[0] in index.edges[k..] && path[0].fromVersion == version &&
            IsPath(index, path[0].toVersion, path[1..], index.latestVersion)
    decreases Left(index, version), |index.edges| - k
  {
    if k < |index.edges| {
      var edge := index.edges[k];
      PathsFromAreAll(index, version, k + 1, path);
      assert index.edges[k..] == [edge] + index.edges[k + 1..];
      if edge.fromVersion == version {
        assert StepsForward(index, k);
        var onward := AllPaths(index, edge.toVersion);
        if path != [] {
          AllPathsAreAll(index, edge.toVersion, path[1..]);
        }
        InPrefixed(edge, onward, path);
      }
    }
  }

  lemma InPrefixed(edge: UpgradeEdge, paths: seq<seq<UpgradeEdge>>, path: seq<UpgradeEdge>)
    ensures path in Prefixed(edge, paths) <==> path != [] && path[0] == edge && path[1..] in paths
  {
    var all := Prefixed(edge, paths);
    if path in all {
      var k :| 0 <= k < |all| && all[k] == path;
      assert path[1..] == paths[k];
    }
    if path != [] && path[0] == edge && path[1..] in paths {
      var k :| 0 <= k < |paths| && paths[k] == path[1..];
      assert all[k] == path;
    }
  }

  /** The enumeration lists no path twice. */
  lemma {:induction false} AllPathsAreDistinct(index: ReleaseIndex, version: string)
    requires Forward(index)
    ensures Distinct(AllPaths(index, version))
    decreases Left(index, version), |index.edges| + 1
  {
    if version != index.latestVersion {
      PathsFromAreDistinct(index, version, 0);
    }
  }

  lemma {:induction false} PathsFromAreDistinct(index: ReleaseIndex, version: string, k: nat)
    requires Forward(index) && k <= |index.edges|
    ensures Distinct(PathsFrom(index, version, k))
    decreases Left(index, version), |index.edges| - k
  {
    if k < |index.edges| {
      PathsFromAreDistinct(index, version, k + 1);
      var edge := index.edges[k];
      if edge.fromVersion == version {
        assert StepsForward(index, k);
        AllPathsAreDistinct(index, edge.toVersion);
        var first, rest := Prefixed(edge, AllPaths(index, edge.toVersion)), PathsFrom(index, version, k + 1);
        forall i, j | 0 <= i < j < |first| ensures first[i] != first[j] {
          assert first[i][1..] == AllPaths(index, edge.toVersion)[i] &&
                 first[j][1..] == AllPaths(index, edge.toVersion)[j];
        }
        forall i, j | 0 <= i < |first| && 0 <= j < |rest| ensures first[i] != rest[j] {
          PathsFromAreAll(index, version, k + 1, rest[j]);
          assert rest[j] in rest && first[i][0] == edge;
          EdgeIsNotLater(index, k);
        }
        assert PathsFrom(index, version, k) == first + rest;
      }
    }
  }

  lemma EdgeIsNotLater(index: ReleaseIndex, k: nat)
    requires Forward(index) && k < |index.edges|
    ensures index.edges[k] !in index.edges[k + 1..]
  {
    forall i | k < i < |index.edges| ensures index.edges[i] != index.edges[k] {
    }
  }

  /* ---------- The search ---------- */

  /** The release steps of a path; an edge without an indexed target is skipped. */
  function Steps(releases: seq<IndexedRelease>, path: seq<UpgradeEdge>): seq<ReleaseStep> {
    if path == [] then []
    else
      var rest := Steps(releases, path[1..]);
      match StepFor(releases, path[0])
      case Some(step) => [step] + rest
      case None => rest
  }

  /** The step lists that extend `prefix` by one of the paths. */
  function Extended(
      releases: seq<IndexedRelease>, prefix: seq<ReleaseStep>, paths: seq<seq<UpgradeEdge>>): seq<seq<ReleaseStep>> {
    seq(|paths|, k requires 0 <= k < |paths| => prefix + Steps(releases, paths[k]))
  }

  /** The search keeps no more than two hits. */
  function FirstTwo<T>(items: seq<T>): seq<T> {
    if |items| > 2 then items[..2] else items
  }

  lemma FirstTwoAbsorbs<T>(a: seq<T>, b: seq<T>)
    ensures FirstTwo(FirstTwo(a) + b) == FirstTwo(a + b)
  {
  }

  lemma ExtendedConcat(
      releases: seq<IndexedRelease>, prefix: seq<ReleaseStep>, a: seq<seq<UpgradeEdge>>, b: seq<seq<UpgradeEdge>>)
    ensures Extended(releases, prefix, a + b) == Extended(releases, prefix, a) + Extended(releases, prefix, b)
  {
  }

  lemma ExtendedPrefixed(
      releases: seq<IndexedRelease>, prefix: seq<ReleaseStep>, edge: UpgradeEdge, step: ReleaseStep,
      paths: seq<seq<UpgradeEdge>>)
    requires StepFor(releases, edge) == Some(step)
    ensures Extended(releases, prefix, Prefixed(edge, paths)) == Extended(releases, prefix + [step], paths)
  {
    var a, b := Extended(releases, prefix, Prefixed(edge, paths)), Extended(releases, prefix + [step], paths);
    forall k | 0 <= k < |paths| ensures a[k] == b[k] {
      assert ([edge] + paths[k])[1..] == paths[k];
      assert prefix + ([step] + Steps(releases, paths[k])) == (prefix + [step]) + Steps(releases, paths[k]);
    }
  }

  /** On a validated index every published edge has its step. */
  lemma EdgeHasStep(x: Externals, index: ReleaseIndex, k: nat)
    requires IndexValid(x, index) && k < |index.edges|
    ensures var edge := index.edges[k];
            && StepFor(index.releases, edge).Some?
            && var step := StepFor(index.releases, edge).value;
            && ReleaseValid(x, IndexedRelease(step.manifest, step.manifestDigest))
            && step.manifest.version == edge.toVersion && step.sourceImageDigests == edge.fromImageDigests
            && UpgradeAllowedFrom(x, step.manifest, edge.fromVersion)
  {
    hide UpgradeAllowedFrom, SourceDigestsValid, OlderText, ManifestValid;
    var edge := index.edges[k];
    assert EdgeValid(x, index.releases, edge);
    var r :| 0 <= r < |index.releases| && index.releases[r].manifest.version == edge.toVersion &&
             UpgradeAllowedFrom(x, index.releases[r].manifest, edge.fromVersion);
    StepForFinds(x, index.releases, edge, r);
  }

  lemma StepForFinds(x: Externals, releases: seq<IndexedRelease>, edge: UpgradeEdge, r: nat)
    requires ReleasesValid(x, releases) && r < |releases| && releases[r].manifest.version == edge.toVersion
    ensures StepFor(releases, edge) ==
            Some(ReleaseStep(releases[r].manifest, releases[r].manifestDigest, edge.fromImageDigests))
  {
    hide ReleasesValid;
    StepForIsFirst(releases, edge);
    var p := Position(releases, edge.toVersion);
    VersionsAreDistinct(x, releases, p, r);
  }

  lemma {:induction false} StepForIsFirst(releases: seq<IndexedRelease>, edge: UpgradeEdge)
    ensures var p := Position(releases, edge.toVersion);
            StepFor(releases, edge) ==
            if p < 0 then None
            else Some(ReleaseStep(releases[p].manifest, releases[p].manifestDigest, edge.fromImageDigests))
  {
    if releases != [] && releases[0].manifest.version != edge.toVersion {
      StepForIsFirst(releases[1..], edge);
    }
  }

  class PathSearch {
    const x: Externals
    const index: ReleaseIndex
    /** The hits so far. */
    var paths: seq<seq<ReleaseStep>>

    constructor (x: Externals, index: ReleaseIndex)
      ensures this.x == x && this.index == index && paths == []
    {
      this.x, this.index, paths := x, index, [];
    }

    /**
      Validate: the releases are taken into a table by version, and the edges are checked
      against that table. Whatever the checks for duplicates reject is out of order too.
     */
    method Validate() returns (valid: bool)
      ensures valid <==> IndexValid(x, index)
    {
      hide ReleaseValid, EdgeValid, EdgeBefore, ParseVersion, OlderText;
      if index.indexVersion != 1 || ParseVersion(index.latestVersion).None? || index.releases == [] {
        return false;
      }
      var ordered, byVersion := ValidateReleases();
      if !ordered || index.releases[|index.releases| - 1].manifest.version != index.latestVersion {
        return false;
      }
      valid := ValidateEdges(byVersion);
    }

    /** The releases are valid and in strict order; the table finds each by its version. */
    method ValidateReleases() returns (valid: bool, byVersion: map<string, IndexedRelease>)
      ensures valid <==> ReleasesValid(x, index.releases)
      ensures valid ==> TableOf(index.releases, byVersion)
    {
      hide ReleaseValid, ParseVersion, OlderText, TableOf, ReleasesValid;
      byVersion := map[];
      var n := 0;
      EmptyTable(x);
      assert index.releases[..0] == [];
      while n < |index.releases|
        invariant n <= |index.releases| && ReleasesValid(x, index.releases[..n])
        invariant TableOf(index.releases[..n], byVersion)
      {
        var release := index.releases[n];
        PrefixOfReleases(x, index.releases, n);
        if !ReleaseValid(x, release) {
          return false, byVersion;
        }
        if release.manifest.version in byVersion {
          DuplicateIsOutOfOrder(x, index.releases, n, byVersion);
          return false, byVersion;
        }
        if n > 0 && !OlderText(index.releases[n - 1].manifest.version, release.manifest.version) {
          return false, byVersion;
        }
        TableGrows(index.releases, n, byVersion);
        byVersion := byVersion[release.manifest.version := release];
        n := n + 1;
      }
      assert index.releases[..n] == index.releases;
      valid := true;
    }

    /** Each edge is checked against the table of releases, the edges seen before it and the one right before it. */
    method ValidateEdges(byVersion: map<string, IndexedRelease>) returns (valid: bool)
      requires TableOf(index.releases, byVersion)
      ensures valid <==>
              && (forall k :: 0 <= k < |index.edges| ==> EdgeValid(x, index.releases, index.edges[k]))
              && (forall i, k :: 0 <= i < |index.edges| && 0 <= k < |index.edges| && k == i + 1 ==>
                    EdgeBefore(index.edges[i], index.edges[k]))
    {
      hide EdgeValid, EdgeBefore, TableOf, EdgeAllowed;
      var n := 0;
      var seen: set<(string, string)> := {};
      while n < |index.edges|
        invariant n <= |index.edges|
        invariant forall k :: 0 <= k < n ==> Endpoints(index.edges[k]) in seen
        invariant forall key :: key in seen ==> exists k :: 0 <= k < n && Endpoints(index.edges[k]) == key
        invariant forall k :: 0 <= k < n ==> EdgeValid(x, index.releases, index.edges[k])
        invariant forall i, k :: 0 <= i < n && 0 <= k < n && k == i + 1 ==> EdgeBefore(index.edges[i], index.edges[k])
      {
        TableDecides(x, index.releases, byVersion, index.edges[n]);
        if !EdgeAllowed(x, byVersion, index.edges[n]) {
          return false;
        }
        if Endpoints(index.edges[n]) in seen {
          var k :| 0 <= k < n && Endpoints(index.edges[k]) == Endpoints(index.edges[n]);
          RepeatedEdgeIsOutOfOrder(index.edges, k, n);
          return false;
        }
        seen := seen + {Endpoints(index.edges[n])};
        if n > 0 && !EdgeBefore(index.edges[n - 1], index.edges[n]) {
          return false;
        }
        n := n + 1;
      }
      valid := true;
    }

    /** The recursive closure of UpgradePath: it adds every path from the version, until there are two hits. */
    method Visit(version: string, path: seq<ReleaseStep>)
      requires Forward(index) && |paths| <= 2
      modifies this
      ensures paths == FirstTwo(old(paths) + Extended(index.releases, path, AllPaths(index, version)))
      decreases Left(index, version)
    {
      hide Extended, AllPaths, PathsFrom;
      if |paths| > 1 {
        return;
      }
      if version == index.latestVersion {
        LatestHasEmptyPath(index, path);
        paths := paths + [path];
        return;
      }
      var k := 0;
      SearchStarts(index, version);
      while k < |index.edges|
        invariant k <= |index.edges| && |paths| <= 2
        invariant FirstTwo(paths + Extended(index.releases, path, PathsFrom(index, version, k))) ==
                  FirstTwo(old(paths) + Extended(index.releases, path, AllPaths(index, version)))
      {
        var edge := index.edges[k];
        if edge.fromVersion == version {
          assert StepsForward(index, k);
          var step := StepFor(index.releases, edge).value;
          SearchGoesOn(index, version, k, path, step);
          ghost var before := paths;
          ghost var deeper := Extended(index.releases, path + [step], AllPaths(index, edge.toVersion));
          ghost var later := Extended(index.releases, path, PathsFrom(index, version, k + 1));
          Visit(edge.toVersion, path + [step]);
          FirstTwoAbsorbs(before + deeper, later);
          assert before + deeper + later == before + (deeper + later);
        } else {
          SearchSkips(index, version, k);
        }
        k := k + 1;
      }
      SearchEnds(index, version, path);
      assert paths + [] == paths;
    }

    /**
      UpgradePath. Nothing to do on the latest release; a direct edge to it is taken as it
      is; otherwise there is an answer if and only if exactly one path exists.
     */
    method UpgradePath(current: string) returns (r: Result<seq<ReleaseStep>, PathError>)
      requires IndexValid(x, index) && paths == []
      modifies this
      ensures ParseVersion(current).None? ==> r == Err(InvalidVersion)
      ensures current == index.latestVersion ==> r == Ok([])
      ensures ParseVersion(current).Some? && current != index.latestVersion &&
              !OlderText(current, index.latestVersion) ==>
                r == Err(Unsupported)
      ensures OlderText(current, index.latestVersion) && DirectEdge(index, current, index.latestVersion).Some? ==>
                var step := StepFor(index.releases, DirectEdge(index, current, index.latestVersion).value);
                step.Some? && r == Ok([step.value])
      ensures OlderText(current, index.latestVersion) && DirectEdge(index, current, index.latestVersion).None? ==>
                && (r.Ok? <==> HasOnePath(index, current))
                && (r.Ok? ==>
                      exists p :: IsPath(index, current, p, index.latestVersion) && r.value == Steps(index.releases, p))
                && (r == Err(Unsupported) <==> HasNoPath(index, current))
                && (r == Err(Ambiguous) <==> !HasOnePath(index, current) && !HasNoPath(index, current))
    {
      hide IndexValid, ParseVersion, Extended, AllPaths;
      LatestParses(x, index);
      ValidIsForward(x, index);
      OlderTextIsTotalOrder(current, index.latestVersion, current);
      if ParseVersion(current).None? {
        return Err(InvalidVersion);
      }
      if current == index.latestVersion {
        return Ok([]);
      }
      if !OlderText(current, index.latestVersion) {
        return Err(Unsupported);
      }
      var direct := FindEdge(current, index.latestVersion);
      if direct.Some? {
        DirectEdgeHasStep(x, index, current, index.latestVersion);
        return Ok([StepFor(index.releases, direct.value).value]);
      }
      Visit(current, []);
      ghost var all := AllPaths(index, current);
      CountDecides(index, current);
      HitsAreSteps(index.releases, all);
      if |paths| == 0 {
        return Err(Unsupported);
      }
      if |paths| > 1 {
        return Err(Ambiguous);
      }
      AllPathsAreAll(index, current, all[0]);
      r := Ok(paths[0]);
    }

    /** DirectUpgradeStep: the step of an explicitly published edge, and of nothing else. */
    method DirectUpgradeStep(current: string, target: string) returns (r: Result<ReleaseStep, StepError>)
      ensures r == Err(InvalidIndex) <==> !IndexValid(x, index)
      ensures IndexValid(x, index) ==> (r.Ok? <==> DirectEdge(index, current, target).Some?)
      ensures r.Ok? ==>
                && r.value.manifest.version == target && UpgradeAllowedFrom(x, r.value.manifest, current)
                && r.value.sourceImageDigests == DirectEdge(index, current, target).value.fromImageDigests
    {
      hide ReleasesValid, EdgeValid, ParseVersion, UpgradeAllowedFrom;
      var valid := Validate();
      if !valid {
        return Err(InvalidIndex);
      }
      DirectEdgeLeadsForward(x, index, current, target);
      if ParseVersion(current).None? || ParseVersion(target).None? {
        return Err(InvalidVersions);
      }
      if !OlderText(current, target) {
        return Err(NotNewer);
      }
      var found := FindEdge(current, target);
      if found.None? {
        return Err(NotPublished);
      }
      r := Ok(StepFor(index.releases, found.value).value);
    }

    /** The loop over the published edges that looks for one from one version to another. */
    method FindEdge(start: string, end: string) returns (found: Option<UpgradeEdge>)
      ensures found == DirectEdge(index, start, end)
    {
      var k := 0;
      while k < |index.edges|
        invariant k <= |index.edges| && FirstEdge(index.edges[k..], start, end) == DirectEdge(index, start, end)
      {
        assert index.edges[k..][1..] == index.edges[k + 1..];
        if index.edges[k].fromVersion == start && index.edges[k].toVersion == end {
          return Some(index.edges[k]);
        }
        k := k + 1;
      }
      found := None;
    }
  }

  datatype StepError = InvalidIndex | InvalidVersions | NotNewer | NotPublished

  /** A published edge between two versions goes from the older to the newer, to an indexed release that allows it. */
  lemma DirectEdgeLeadsForward(x: Externals, index: ReleaseIndex, start: string, end: string)
    requires IndexValid(x, index)
    ensures DirectEdge(index, start, end).Some? ==>
              var edge := DirectEdge(index, start, end).value;
              && OlderText(start, end) && StepFor(index.releases, edge).Some?
              && var step := StepFor(index.releases, edge).value;
              && step.manifest.version == end && UpgradeAllowedFrom(x, step.manifest, start)
              && step.sourceImageDigests == edge.fromImageDigests
  {
    hide IndexValid, ParseVersion;
    var found := DirectEdge(index, start, end);
    if found.Some? {
      var k :| 0 <= k < |index.edges| && index.edges[k] == found.value;
      EdgeHasStep(x, index, k);
    }
  }

  datatype PathError = InvalidVersion | Unsupported | Ambiguous

  function FirstEdge(edges: seq<UpgradeEdge>, start: string, end: string): (found: Option<UpgradeEdge>)
    ensures found.Some? ==> found.value in edges && found.value.fromVersion == start && found.value.toVersion == end
    ensures found.None? ==> forall e :: e in edges ==> e.fromVersion != start || e.toVersion != end
  {
    if edges == [] then None
    else if edges[0].fromVersion == start && edges[0].toVersion == end then Some(edges[0])
    else FirstEdge(edges[1..], start, end)
  }

  /** The published edge between two versions. */
  function DirectEdge(index: ReleaseIndex, start: string, end: string): Option<UpgradeEdge> {
    FirstEdge(index.edges, start, end)
  }

  ghost predicate HasNoPath(index: ReleaseIndex, current: string) {
    forall p :: !IsPath(index, current, p, index.latestVersion)
  }

  ghost predicate HasOnePath(index: ReleaseIndex, current: string) {
    exists p :: IsPath(index, current, p, index.latestVersion) && OnlyPath(index, current, p)
  }

  ghost predicate OnlyPath(index: ReleaseIndex, current: string, p: seq<UpgradeEdge>) {
    forall q :: IsPath(index, current, q, index.latestVersion) ==> q == p
  }

  lemma LatestParses(x: Externals, index: ReleaseIndex)
    requires IndexValid(x, index)
    ensures ParseVersion(index.latestVersion).Some?
  {
    hide ParseVersion, ReleasesValid, EdgeValid;
  }

  lemma DirectEdgeHasStep(x: Externals, index: ReleaseIndex, start: string, end: string)
    requires IndexValid(x, index) && DirectEdge(index, start, end).Some?
    ensures StepFor(index.releases, DirectEdge(index, start, end).value).Some?
  {
    hide IndexValid;
    var edge := DirectEdge(index, start, end).value;
    var k :| 0 <= k < |index.edges| && index.edges[k] == edge;
    EdgeHasStep(x, index, k);
  }

  lemma HitsAreSteps(releases: seq<IndexedRelease>, all: seq<seq<UpgradeEdge>>)
    ensures var hits := FirstTwo([] + Extended(releases, [], all));
            && (|hits| == 0 <==> |all| == 0) && (|hits| == 1 <==> |all| == 1)
            && (|all| == 1 ==> hits[0] == Steps(releases, all[0]))
  {
    assert forall k :: 0 <= k < |all| ==> [] + Steps(releases, all[k]) == Steps(releases, all[k]);
  }

  /** Counting the enumeration decides whether there is none, one, or more than one path. */
  lemma CountDecides(index: ReleaseIndex, current: string)
    requires Forward(index)
    ensures |AllPaths(index, current)| == 0 <==> HasNoPath(index, current)
    ensures |AllPaths(index, current)| == 1 <==> HasOnePath(index, current)
  {
    hide AllPaths, IsPath;
    var all := AllPaths(index, current);
    AllPathsAreDistinct(index, current);
    forall p ensures p in all <==> IsPath(index, current, p, index.latestVersion) {
      AllPathsAreAll(index, current, p);
    }
    if |all| > 0 {
      assert all[0] in all;
    }
    if |all| == 1 {
      assert OnlyPath(index, current, all[0]);
    }
    assert |all| > 1 ==> all[1] in all;
    if HasOnePath(index, current) {
      var p :| IsPath(index, current, p, index.latestVersion) && OnlyPath(index, current, p);
    }
  }

  /** A valid list of releases has valid prefixes, and grows by a valid, newer release. */
  lemma PrefixOfReleases(x: Externals, releases: seq<IndexedRelease>, n: nat)
    requires n < |releases|
    ensures ReleasesValid(x, releases[..n + 1]) <==>
            && ReleasesValid(x, releases[..n]) && ReleaseValid(x, releases[n])
            && (n > 0 ==> OlderText(releases[n - 1].manifest.version, releases[n].manifest.version))
    ensures ReleasesValid(x, releases) ==> ReleasesValid(x, releases[..n + 1])
  {
    hide ReleaseValid, OlderText;
    var short, long := releases[..n], releases[..n + 1];
    assert forall k :: 0 <= k < n ==> long[k] == short[k];
    if ReleasesValid(x, long) {
      assert ReleaseValid(x, long[n]);
      if n > 0 {
        assert OlderText(long[n - 1].manifest.version, long[n].manifest.version);
      }
      forall i, k | 0 <= i < n && 0 <= k < n && k == i + 1
        ensures OlderText(short[i].manifest.version, short[k].manifest.version)
      {
        assert OlderText(long[i].manifest.version, long[k].manifest.version);
      }
      forall k | 0 <= k < n ensures ReleaseValid(x, short[k]) {
        assert ReleaseValid(x, long[k]);
      }
    }
    if ReleasesValid(x, releases) {
      forall i, k | 0 <= i < |long| && 0 <= k < |long| && k == i + 1
        ensures OlderText(long[i].manifest.version, long[k].manifest.version)
      {
        assert OlderText(releases[i].manifest.version, releases[k].manifest.version);
      }
    }
  }

  /** The table holds exactly the releases, each under its version. */
  predicate TableOf(releases: seq<IndexedRelease>, byVersion: map<string, IndexedRelease>) {
    && (forall k :: 0 <= k < |releases| ==>
          releases[k].manifest.version in byVersion && byVersion[releases[k].manifest.version] == releases[k])
    && (forall v :: v in byVersion ==> byVersion[v].manifest.version == v && byVersion[v] in releases)
  }

  lemma EmptyTable(x: Externals)
    ensures TableOf([], map[]) && ReleasesValid(x, [])
  {
  }

  lemma TableGrows(releases: seq<IndexedRelease>, n: nat, byVersion: map<string, IndexedRelease>)
    requires n < |releases| && TableOf(releases[..n], byVersion) && releases[n].manifest.version !in byVersion
    ensures TableOf(releases[..n + 1], byVersion[releases[n].manifest.version := releases[n]])
  {
    var long, table := releases[..n + 1], byVersion[releases[n].manifest.version := releases[n]];
    assert long == releases[..n] + [releases[n]];
    forall k | 0 <= k < |long| ensures long[k].manifest.version in table && table[long[k].manifest.version] == long[k] {
      if k < n {
        assert long[k] == releases[..n][k];
      }
    }
  }

  /** A release whose version is in the table already cannot be newer than all before it. */
  lemma DuplicateIsOutOfOrder(
      x: Externals, releases: seq<IndexedRelease>, n: nat, byVersion: map<string, IndexedRelease>)
    requires n < |releases| && TableOf(releases[..n], byVersion) && releases[n].manifest.version in byVersion
    ensures !ReleasesValid(x, releases)
  {
    hide ReleasesValid;
    var k :| 0 <= k < n && releases[..n][k] == byVersion[releases[n].manifest.version];
    if ReleasesValid(x, releases) {
      VersionsAreDistinct(x, releases, k, n);
      assert false;
    }
  }

  lemma RepeatedEdgeIsOutOfOrder(edges: seq<UpgradeEdge>, i: nat, k: nat)
    requires i < k < |edges| && Endpoints(edges[i]) == Endpoints(edges[k])
    ensures !EdgesOrdered(edges)
  {
    hide EdgesOrdered;
    if EdgesOrdered(edges) {
      EdgesAreDistinct(edges, i, k);
      assert false;
    }
  }

  /** The checks on one edge, as they look releases up in the table. */
  predicate EdgeAllowed(x: Externals, byVersion: map<string, IndexedRelease>, edge: UpgradeEdge) {
    && OlderText(edge.fromVersion, edge.toVersion)
    && edge.toVersion in byVersion && UpgradeAllowedFrom(x, byVersion[edge.toVersion].manifest, edge.fromVersion)
    && edge.fromImageDigests != [] && SourceDigestsValid(edge.fromImageDigests)
    && if edge.fromVersion in byVersion
       then |edge.fromImageDigests| == 1 && edge.fromImageDigests[0] == byVersion[edge.fromVersion].manifest.imageDigest
       else edge.fromVersion == LEGACY_INITIAL_VERSION && edge.toVersion == FIRST_FORMAL_VERSION
  }

  /** Looking a release up in the table is finding it among the releases. */
  lemma TableDecides(
      x: Externals, releases: seq<IndexedRelease>, byVersion: map<string, IndexedRelease>, edge: UpgradeEdge)
    requires TableOf(releases, byVersion)
    ensures EdgeAllowed(x, byVersion, edge) <==> EdgeValid(x, releases, edge)
  {
    hide UpgradeAllowedFrom, SourceDigestsValid, OlderText;
    InTable(releases, byVersion, edge.toVersion);
    InTable(releases, byVersion, edge.fromVersion);
    if |edge.fromImageDigests| == 1 {
      assert edge.fromImageDigests == [edge.fromImageDigests[0]];
    }
  }

  lemma InTable(releases: seq<IndexedRelease>, byVersion: map<string, IndexedRelease>, v: string)
    requires TableOf(releases, byVersion)
    ensures v in byVersion <==> Indexed(releases, v)
    ensures v in byVersion ==> exists k :: 0 <= k < |releases| && releases[k] == byVersion[v]
    ensures forall k :: 0 <= k < |releases| && releases[k].manifest.version == v ==>
              v in byVersion && byVersion[v] == releases[k]
  {
    if v in byVersion {
      var k :| 0 <= k < |releases| && releases[k] == byVersion[v];
    }
  }

  lemma LatestHasEmptyPath(index: ReleaseIndex, path: seq<ReleaseStep>)
    requires Forward(index)
    ensures Extended(index.releases, path, AllPaths(index, index.latestVersion)) == [path]
  {
    assert path + Steps(index.releases, []) == path;
  }

  lemma SearchStarts(index: ReleaseIndex, version: string)
    requires Forward(index) && version != index.latestVersion
    ensures AllPaths(index, version) == PathsFrom(index, version, 0)
  {
  }

  lemma SearchSkips(index: ReleaseIndex, version: string, k: nat)
    requires Forward(index) && k < |index.edges| && index.edges[k].fromVersion != version
    ensures PathsFrom(index, version, k) == PathsFrom(index, version, k + 1)
  {
  }

  lemma SearchEnds(index: ReleaseIndex, version: string, path: seq<ReleaseStep>)
    requires Forward(index)
    ensures Extended(index.releases, path, PathsFrom(index, version, |index.edges|)) == []
  {
  }

  lemma SearchGoesOn(index: ReleaseIndex, version: string, k: nat, path: seq<ReleaseStep>, step: ReleaseStep)
    requires Forward(index) && k < |index.edges| && index.edges[k].fromVersion == version
    requires StepFor(index.releases, index.edges[k]) == Some(step)
    ensures Extended(index.releases, path, PathsFrom(index, version, k)) ==
            Extended(index.releases, path + [step], AllPaths(index, index.edges[k].toVersion)) +
            Extended(index.releases, path, PathsFrom(index, version, k + 1))
  {
    hide Extended;
    assert StepsForward(index, k);
    var onward := AllPaths(index, index.edges[k].toVersion);
    ExtendedConcat(index.releases, path, Prefixed(index.edges[k], onward), PathsFrom(index, version, k + 1));
    ExtendedPrefixed(index.releases, path, index.edges[k], step, onward);
  }

  /* ---------- Paths make plans ---------- */

  /** A plan built from a path: its target is the last step, and it binds its own source. */
  predicate FollowsPath(index: ReleaseIndex, plan: Plan, path: seq<UpgradeEdge>) {
    && path != [] && plan.chain == Steps(index.releases, path) && plan.chain != []
    && plan.currentVersion == path[0].fromVersion
    && plan.manifest == plan.chain[|plan.chain| - 1].manifest
    && plan.manifestDigest == plan.chain[|plan.chain| - 1].manifestDigest
    && plan.directContractVersion == 0
  }

  /** Along a path of published edges, the steps are the edges' own, one for one. */
  lemma {:induction false} StepsFollowEdges(
      x: Externals, index: ReleaseIndex, start: string, path: seq<UpgradeEdge>, end: string)
    requires IndexValid(x, index) && IsPath(index, start, path, end)
    ensures |Steps(index.releases, path)| == |path|
    ensures forall k :: 0 <= k < |path| ==>
              path[k] in index.edges && StepFor(index.releases, path[k]) == Some(Steps(index.releases, path)[k])
    ensures forall i, k :: 0 <= i < |path| && 0 <= k < |path| && k == i + 1 ==> path[k].fromVersion == path[i].toVersion
    ensures path != [] ==> path[0].fromVersion == start
    decreases |path|
  {
    hide IndexValid, StepFor;
    if path != [] {
      var e :| 0 <= e < |index.edges| && index.edges[e] == path[0];
      EdgeHasStep(x, index, e);
      StepsFollowEdges(x, index, path[0].toVersion, path[1..], end);
      var rest := Steps(index.releases, path[1..]);
      assert Steps(index.releases, path) == [StepFor(index.releases, path[0]).value] + rest;
      forall k | 0 <= k < |path|
        ensures path[k] in index.edges && StepFor(index.releases, path[k]) == Some(Steps(index.releases, path)[k])
      {
        if k > 0 {
          assert path[1..][k - 1] == path[k];
        }
      }
      forall i, k | 0 <= i < |path| && 0 <= k < |path| && k == i + 1 ensures path[k].fromVersion == path[i].toVersion {
        if i > 0 {
          assert path[1..][i - 1] == path[i] && path[1..][k - 1] == path[k];
        }
      }
    }
  }

  /** What each step of a followed path is, and where it starts. */
  lemma StepOfPath(x: Externals, index: ReleaseIndex, plan: Plan, path: seq<UpgradeEdge>, end: string, k: nat)
    requires IndexValid(x, index) && FollowsPath(index, plan, path) && IsPath(index, plan.currentVersion, path, end)
    requires k < |path|
    ensures |plan.chain| == |path| && path[k] in index.edges
    ensures VersionAtHop(plan, k) == path[k].fromVersion && plan.chain[k].manifest.version == path[k].toVersion
    ensures StepFor(index.releases, path[k]) == Some(plan.chain[k])
    ensures ReleaseValid(x, IndexedRelease(plan.chain[k].manifest, plan.chain[k].manifestDigest))
    ensures plan.chain[k].sourceImageDigests == path[k].fromImageDigests
    ensures UpgradeAllowedFrom(x, plan.chain[k].manifest, path[k].fromVersion)
  {
    hide IndexValid, StepFor, ReleaseValid, UpgradeAllowedFrom, IsPath;
    StepsFollowEdges(x, index, plan.currentVersion, path, end);
    var e :| 0 <= e < |index.edges| && index.edges[e] == path[k];
    EdgeHasStep(x, index, e);
    if k > 0 {
      var before :| 0 <= before < |index.edges| && index.edges[before] == path[k - 1];
      EdgeHasStep(x, index, before);
    }
  }

  /** The chain validator accepts every plan that follows a path of published edges. */
  lemma PathMakesValidChain(x: Externals, index: ReleaseIndex, plan: Plan, path: seq<UpgradeEdge>, end: string)
    requires IndexValid(x, index) && FollowsPath(index, plan, path) && IsPath(index, plan.currentVersion, path, end)
    ensures ChainValid(x, plan)
  {
    hide IndexValid, StepFor, IsPath, UpgradeAllowedFrom, SourceDigestsValid, ManifestValid, Steps, VersionAtHop;
    StepOfPath(x, index, plan, path, end, 0);
    forall k | 0 <= k < |plan.chain| ensures StepValid(x, plan, k) {
      StepOfPath(x, index, plan, path, end, k);
      EdgeDigestsValid(x, index, path[k]);
    }
  }

  lemma EdgeDigestsValid(x: Externals, index: ReleaseIndex, edge: UpgradeEdge)
    requires IndexValid(x, index) && edge in index.edges
    ensures edge.fromImageDigests != [] && SourceDigestsValid(edge.fromImageDigests)
  {
    hide ReleasesValid, SourceDigestsValid, UpgradeAllowedFrom, OlderText;
    var k :| 0 <= k < |index.edges| && index.edges[k] == edge;
    assert EdgeValid(x, index.releases, index.edges[k]);
  }

  /**
    Each later step trusts exactly the image the step before it installs, and the versions
    along the chain strictly increase.
   */
  lemma LaterStepsTrustThePrevious(
      x: Externals, index: ReleaseIndex, plan: Plan, path: seq<UpgradeEdge>, end: string, k: nat)
    requires IndexValid(x, index) && FollowsPath(index, plan, path) && IsPath(index, plan.currentVersion, path, end)
    requires 0 < k < |plan.chain|
    ensures BoundToPrevious(plan, k)
    ensures OlderText(plan.chain[k - 1].manifest.version, plan.chain[k].manifest.version)
  {
    hide IndexValid, StepFor, IsPath, UpgradeAllowedFrom, ReleaseValid, Steps, ChainValid, OlderText;
    StepOfPath(x, index, plan, path, end, 0);
    StepOfPath(x, index, plan, path, end, k - 1);
    StepOfPath(x, index, plan, path, end, k);
    FormalSourceIsBound(x, index, path[k], path[k - 1], plan.chain[k - 1]);
    PathMakesValidChain(x, index, plan, path, end);
    ChainVersionsIncrease(x, plan, k, k + 1);
  }

  lemma FormalSourceIsBound(
      x: Externals, index: ReleaseIndex, edge: UpgradeEdge, before: UpgradeEdge, step: ReleaseStep)
    requires IndexValid(x, index) && edge in index.edges && before.toVersion == edge.fromVersion
    requires StepFor(index.releases, before) == Some(step)
    ensures edge.fromImageDigests == [step.manifest.imageDigest]
  {
    hide ReleasesValid, SourceDigestsValid, UpgradeAllowedFrom, OlderText;
    var k :| 0 <= k < |index.edges| && index.edges[k] == edge;
    assert EdgeValid(x, index.releases, index.edges[k]);
    StepForIsFirst(index.releases, before);
    var p := Position(index.releases, before.toVersion);
    assert Indexed(index.releases, edge.fromVersion);
    var r :| 0 <= r < |index.releases| && index.releases[r].manifest.version == edge.fromVersion &&
             edge.fromImageDigests == [index.releases[r].manifest.imageDigest];
    VersionsAreDistinct(x, index.releases, p, r);
  }
}
