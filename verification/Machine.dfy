/**
  The host as the runtime meets it: commands that answer yes or no, a service that writes
  its data while it runs, and the confirmation window of the health probes. What was
  answered, and what the data were when the service was stopped and started, is on record.
 */
module Machine {
  import opened Wrappers
  import opened State
  import opened Backup

  /** The commands the runtime gives, each with what it is for. */
  datatype HostCommand =
    | StartService | ResolveDigest | StopService
    | DumpDatabase | ListDump | ArchiveConfig | ArchiveData | ArchivePeers
    | PullImage | WriteImage | RecreateService
    | FindImage | RestoreConfig | RestoreData | RestorePeers | ResetDatabase | LoadDump | FlushDatabase
    | ConfirmHealth

  datatype Said = Said(command: HostCommand, ok: bool)

  /** The commands in this order, each answered with yes. */
  function AllYes(commands: seq<HostCommand>): seq<Said> {
    seq(|commands|, k requires 0 <= k < |commands| => Said(commands[k], true))
  }

  /** The first `n` commands were answered with yes, and the next one, if there is one, with no. */
  function Steps(commands: seq<HostCommand>, n: nat): seq<Said>
    requires n <= |commands|
  {
    AllYes(commands[..n]) + if n < |commands| then [Said(commands[n], false)] else []
  }

  lemma NextStep(log: seq<Said>, commands: seq<HostCommand>, n: nat)
    requires n < |commands|
    ensures log + AllYes(commands[..n]) + [Said(commands[n], true)] == log + AllYes(commands[..n + 1])
    ensures log + AllYes(commands[..n]) + [Said(commands[n], false)] == log + Steps(commands, n)
    ensures n + 1 == |commands| ==> log + AllYes(commands[..n + 1]) == log + Steps(commands, n + 1)
  {
    assert commands[..n + 1] == commands[..n] + [commands[n]];
    assert AllYes(commands[..n]) + [Said(commands[n], true)] == AllYes(commands[..n + 1]);
  }

  lemma NoSteps(log: seq<Said>, commands: seq<HostCommand>)
    ensures log + AllYes(commands[..0]) == log
  {
  }

  lemma AllSteps(commands: seq<HostCommand>)
    ensures Steps(commands, |commands|) == AllYes(commands)
  {
    assert commands[..|commands|] == commands;
  }

  /** The service's data: its database and the three directories a backup holds. */
  datatype Volumes = Volumes(database: Data, config: Data, data: Data, peers: Data)

  function Part(v: Volumes, artifact: Artifact): Data {
    match artifact
    case DatabaseDump => v.database
    case ConfigArchive => v.config
    case DataArchive => v.data
    case PeerArchive => v.peers
  }

  /** The artifacts hold exactly these data. */
  predicate Captures(artifacts: map<Artifact, Data>, v: Volumes) {
    artifacts ==
    map[DatabaseDump := v.database, ConfigArchive := v.config, DataArchive := v.data, PeerArchive := v.peers]
  }

  /** So many probes in a row answered yes. */
  predicate Window(probes: seq<bool>, wanted: nat) {
    exists i :: 0 <= i <= |probes| - wanted && AllTrue(probes, i, wanted)
  }

  predicate AllTrue(probes: seq<bool>, from: int, count: int)
    requires 0 <= from <= |probes| - count
  {
    forall j :: from <= j < from + count ==> probes[j]
  }

  class HostMachine {
    /** Every command succeeds and every probe finds the service healthy. */
    const cooperative: bool
    /** How often the service is probed at most, and how many probes in a row must find it healthy. */
    const attempts: nat
    const wanted: nat

    var serving: bool
    var volumes: Volumes
    ghost var log: seq<Said>
    ghost var probes: seq<bool>
    /** The data when the service was last stopped, and when it was last started again. */
    ghost var atStop: Volumes
    ghost var atStart: Volumes

    constructor (cooperative: bool, attempts: nat, wanted: nat, serving: bool, volumes: Volumes)
      requires 0 < wanted <= attempts
      ensures Valid() && this.cooperative == cooperative && this.attempts == attempts && this.wanted == wanted
      ensures this.serving == serving && this.volumes == volumes && log == [] && probes == []
    {
      this.cooperative, this.attempts, this.wanted := cooperative, attempts, wanted;
      this.serving, this.volumes := serving, volumes;
      log, probes, atStop, atStart := [], [], volumes, volumes;
    }

    predicate Valid()
    {
      0 < wanted <= attempts
    }

    /** A command; the service goes on writing while it runs. */
    method Give(command: HostCommand) returns (ok: bool)
      modifies this`log, this`volumes
      ensures log == old(log) + [Said(command, ok)] && (cooperative ==> ok)
      ensures !serving ==> volumes == old(volumes)
    {
      ok := *;
      if cooperative {
        ok := true;
      }
      log := log + [Said(command, ok)];
      if serving {
        volumes := *;
      }
    }

    method Stop() returns (ok: bool)
      modifies this`log, this`volumes, this`serving, this`atStop
      ensures log == old(log) + [Said(StopService, ok)] && (cooperative ==> ok)
      ensures ok ==> !serving && atStop == volumes
    {
      ok := Give(StopService);
      if ok {
        serving, atStop := false, volumes;
      } else {
        serving := *;
      }
    }

    /** The service is started, or created anew; if it stood still it starts on the data as they were. */
    method Start(command: HostCommand) returns (ok: bool)
      modifies this`log, this`volumes, this`serving, this`atStart
      ensures log == old(log) + [Said(command, ok)] && (cooperative ==> ok)
      ensures ok ==> serving && (!old(serving) ==> atStart == old(volumes))
    {
      if !serving {
        atStart := volumes;
      }
      ok := Give(command);
      if ok {
        serving := true;
      } else {
        serving := *;
      }
      if serving {
        volumes := *;
      }
    }

    /** One part of the data is written out; a failing command may have written anything. */
    method Copy(command: HostCommand, artifact: Artifact) returns (ok: bool, data: Data)
      modifies this`log, this`volumes
      ensures log == old(log) + [Said(command, ok)] && (cooperative ==> ok)
      ensures !serving ==> volumes == old(volumes) && (ok ==> data == Part(volumes, artifact))
    {
      ok := Give(command);
      data := *;
      if ok {
        data := Part(volumes, artifact);
      }
    }

    /** A directory is emptied and filled from its archive. */
    method PutBack(command: HostCommand, artifact: Artifact, data: Data) returns (ok: bool)
      requires artifact != DatabaseDump
      modifies this`log, this`volumes
      ensures log == old(log) + [Said(command, ok)] && (cooperative ==> ok)
      ensures !serving && ok ==> Part(volumes, artifact) == data
      ensures !serving ==> forall other :: other != artifact ==> Part(volumes, other) == old(Part(volumes, other))
    {
      ok := Give(command);
      var left: Data := *;
      if ok {
        left := data;
      }
      volumes := match artifact
        case ConfigArchive => volumes.(config := left)
        case DataArchive => volumes.(data := left)
        case PeerArchive => volumes.(peers := left);
    }

    /** The database is emptied. */
    method Reset() returns (ok: bool)
      modifies this`log, this`volumes
      ensures log == old(log) + [Said(ResetDatabase, ok)] && (cooperative ==> ok)
      ensures !serving && ok ==> volumes.database == []
      ensures !serving ==> forall other :: other != DatabaseDump ==> Part(volumes, other) == old(Part(volumes, other))
    {
      ok := Give(ResetDatabase);
      var left: Data := *;
      volumes := volumes.(database := if ok then [] else left);
    }

    /** The dump is loaded into the database, on top of what is there. */
    method Load(data: Data) returns (ok: bool)
      modifies this`log, this`volumes
      ensures log == old(log) + [Said(LoadDump, ok)] && (cooperative ==> ok)
      ensures !serving && ok ==> volumes.database == old(volumes.database) + data
      ensures !serving ==> forall other :: other != DatabaseDump ==> Part(volumes, other) == old(Part(volumes, other))
    {
      ok := Give(LoadDump);
      var left: Data := *;
      volumes := volumes.(database := if ok then volumes.database + data else left);
    }

    /**
      The confirmation window: the service is probed until it was healthy often enough in a
      row, or until all attempts are used up.
     */
    method Confirm() returns (ok: bool)
      requires Valid()
      modifies this`log, this`volumes, this`probes
      ensures log == old(log) + [Said(ConfirmHealth, ok)] && (cooperative ==> ok)
      ensures old(probes) <= probes && |probes| - |old(probes)| <= attempts
      ensures ok <==> Window(probes[|old(probes)|..], wanted)
      ensures !ok ==> |probes| - |old(probes)| == attempts
      ensures !serving ==> volumes == old(volumes)
    {
      var consecutive := 0;
      var attempt := 0;
      ok := false;
      while attempt < attempts && !ok
        invariant log == old(log) && volumes == old(volumes)
        invariant attempt <= attempts && old(probes) <= probes && |probes| == |old(probes)| + attempt
        invariant consecutive <= attempt && (ok <==> consecutive >= wanted)
        invariant AllTrue(probes, |probes| - consecutive, consecutive)
        invariant consecutive < attempt ==> !probes[|probes| - consecutive - 1]
        invariant !ok ==> !Window(probes[|old(probes)|..], wanted)
        invariant ok ==> Window(probes[|old(probes)|..], wanted)
        invariant cooperative ==> consecutive == attempt
      {
        var healthy: bool := *;
        if cooperative {
          healthy := true;
        }
        ghost var before := probes[|old(probes)|..];
        probes := probes + [healthy];
        assert probes[|old(probes)|..] == before + [healthy];
        OneMoreProbe(before, healthy, wanted, consecutive);
        consecutive := if healthy then consecutive + 1 else 0;
        ok := consecutive >= wanted;
        attempt := attempt + 1;
      }
      log := log + [Said(ConfirmHealth, ok)];
      if serving {
        volumes := *;
      }
    }
  }

  /** A new probe completes a window exactly when enough of the latest ones answered yes. */
  lemma OneMoreProbe(probes: seq<bool>, healthy: bool, wanted: nat, consecutive: nat)
    requires !Window(probes, wanted) && 0 < wanted && consecutive <= |probes|
    requires AllTrue(probes, |probes| - consecutive, consecutive)
    requires consecutive < |probes| ==> !probes[|probes| - consecutive - 1]
    ensures Window(probes + [healthy], wanted) <==> healthy && consecutive + 1 >= wanted
  {
    var longer := probes + [healthy];
    if healthy && consecutive + 1 >= wanted {
      var i := |longer| - wanted;
      assert AllTrue(longer, i, wanted);
    }
    if Window(longer, wanted) {
      var i :| 0 <= i <= |longer| - wanted && AllTrue(longer, i, wanted);
      if i + wanted <= |probes| {
        forall j | i <= j < i + wanted ensures probes[j] {
          assert longer[j];
        }
        assert AllTrue(probes, i, wanted);
        assert false;
      }
      assert longer[|probes|] == healthy;
      assert consecutive < |probes| ==> !longer[|probes| - consecutive - 1];
    }
  }
}
