/**
  The archive of the host-state directory: what is written for a tree of directories and
  files, how an archive is unpacked, and why unpacking rebuilds the tree.
 */
module Archive {
  import opened Wrappers
  import opened Text

  type Mode = bv12
  const OWNER_ALL: Mode := 0x1C0
  const OWNER_READ_WRITE: Mode := 0x180

  /** A directory entry's node as the walk sees it. */
  datatype Tree =
    | File(mode: Mode, content: seq<bv8>)
    | Directory(mode: Mode, entries: seq<Named>)
    | SymbolicLink
    | Special(mode: Mode)
  datatype Named = Named(name: string, tree: Tree)

  datatype Kind = DirectoryEntry | FileEntry | OtherEntry

  /** One archive member: a header with a slash-separated name, and its data. */
  datatype Member = Member(name: string, kind: Kind, mode: Mode, data: seq<bv8>)

  /** A restored node; a path is the sequence of its components below the restored directory. */
  datatype Node = RestoredDirectory(mode: Mode) | RestoredFile(mode: Mode, content: seq<bv8>)
  type Path = seq<string>
  type Files = map<Path, Node>

  /** A file name as the operating system allows it. */
  predicate Component(name: string) {
    name != "" && name != "." && name != ".." && Free(name, '/')
  }

  /* ---------- Writing ---------- */

  function MemberOf(path: Path, tree: Tree): Member
    requires path != []
  {
    var name := Join(path, '/');
    match tree
    case File(mode, content) => Member(name, FileEntry, mode, content)
    case Directory(mode, _) => Member(name, DirectoryEntry, mode, [])
    case SymbolicLink => Member(name, OtherEntry, 0, [])
    case Special(mode) => Member(name, OtherEntry, mode, [])
  }

  /** The members for the entries of a directory: each entry before what is below it. */
  function Emit(prefix: Path, entries: seq<Named>): seq<Member>
    decreases entries
  {
    if entries == [] then []
    else
      var path := prefix + [entries[0].name];
      var below := if entries[0].tree.Directory? then Emit(path, entries[0].tree.entries) else [];
      [MemberOf(path, entries[0].tree)] + below + Emit(prefix, entries[1..])
  }

  /** No symbolic link anywhere: the walk stops with an error at the first one. */
  predicate Archivable(entries: seq<Named>)
    decreases entries
  {
    entries != [] ==>
      && !entries[0].tree.SymbolicLink?
      && (entries[0].tree.Directory? ==> Archivable(entries[0].tree.entries))
      && Archivable(entries[1..])
  }

  class ArchiveWriter {
    var members: seq<Member>

    constructor ()
      ensures members == []
    {
      members := [];
    }

    /** The walk below one directory; `Directory.entries` lists the names in order. */
    method Walk(prefix: Path, entries: seq<Named>) returns (ok: bool)
      modifies this
      ensures ok <==> Archivable(entries)
      ensures ok ==> members == old(members) + Emit(prefix, entries)
      decreases entries
    {
      if entries == [] {
        return true;
      }
      var path, tree := prefix + [entries[0].name], entries[0].tree;
      if tree.SymbolicLink? {
        return false;
      }
      members := members + [MemberOf(path, tree)];
      if tree.Directory? {
        ok := Walk(path, tree.entries);
        if !ok {
          return;
        }
      }
      ghost var soFar := members;
      ok := Walk(prefix, entries[1..]);
      if ok {
        var below := if tree.Directory? then Emit(path, tree.entries) else [];
        assert members == old(members) + ([MemberOf(path, tree)] + below + Emit(prefix, entries[1..]));
      }
    }
  }

  /* ---------- Unpacking ---------- */

  /** filepath.Clean on the components of a relative name. */
  function Cleaned(parts: seq<string>, kept: Path): Path
    decreases |parts|
  {
    if parts == [] then kept
    else if parts[0] == "" || parts[0] == "." then Cleaned(parts[1..], kept)
    else if parts[0] == ".." && kept != [] && kept[|kept| - 1] != ".." then Cleaned(parts[1..], kept[..|kept| - 1])
    else Cleaned(parts[1..], kept + [parts[0]])
  }

  /** The place of a member below the destination; none when its name is unsafe. */
  function SafePath(name: string): Option<Path> {
    var path := Cleaned(Split(name, '/'), []);
    if (name != "" && name[0] == '/') || path == [] || path[0] == ".." then None else Some(path)
  }

  function MakeAll(files: Files, path: Path, mode: Mode): Option<Files>
    decreases |path|
  {
    if path in files then (if files[path].RestoredDirectory? then Some(files) else None)
    else if path == [] then None
    else
      match MakeAll(files, path[..|path| - 1], mode)
      case Some(made) => Some(made[path := RestoredDirectory(mode)])
      case None => None
  }

  /** What unpacking one member does to the restored files. */
  function Unpack(files: Files, m: Member): Option<Files> {
    match SafePath(m.name)
    case None => None
    case Some(path) => UnpackAt(files, path, m)
  }

  function UnpackAt(files: Files, path: Path, m: Member): Option<Files>
    requires path != []
  {
    match m.kind
    case DirectoryEntry => MakeAll(files, path, m.mode & OWNER_ALL)
    case FileEntry =>
      (match MakeAll(files, path[..|path| - 1], OWNER_ALL)
       case Some(made) =>
         if path in made then None else Some(made[path := RestoredFile(m.mode & OWNER_READ_WRITE, m.data)])
       case None => None)
    case OtherEntry => None
  }

  function Rebuild(files: Files, members: seq<Member>): Option<Files>
    decreases |members|
  {
    if members == [] then Some(files)
    else
      match Unpack(files, members[0])
      case Some(more) => Rebuild(more, members[1..])
      case None => None
  }

  const EMPTY_DESTINATION: Files := map[[] := RestoredDirectory(OWNER_ALL)]

  /** The directory the code notes for a member: the member's own, or the one a file is put into. */
  function NotedFor(m: Member): set<Path> {
    match SafePath(m.name)
    case Some(path) =>
      if path != [] && m.kind == DirectoryEntry then {path}
      else if path != [] && m.kind == FileEntry then {path[..|path| - 1]} else {}
    case None => {}
  }

  function AllNoted(members: seq<Member>): set<Path> {
    if members == [] then {} else NotedFor(members[0]) + AllNoted(members[1..])
  }

  class HostState {
    /** No system call fails. */
    const reliable: bool
    var files: Files
    /** The directories synced since they were changed; `placed` when the destination's parent was. */
    ghost var synced: set<Path>
    ghost var placed: bool

    constructor (files: Files, reliable: bool)
      ensures this.files == files && this.reliable == reliable && synced == {} && !placed
    {
      this.files, this.reliable := files, reliable;
      synced, placed := {}, false;
    }

    /** Whether a system call succeeds. */
    method Attempt() returns (ok: bool)
      ensures reliable ==> ok
    {
      ok := *;
      if reliable {
        ok := true;
      }
    }

    /** The directory is removed and made again, empty. */
    method Clear() returns (ok: bool)
      modifies this
      ensures ok ==> files == EMPTY_DESTINATION && synced == {} && !placed
      ensures !ok ==> files == old(files) && synced == old(synced) && placed == old(placed)
      ensures reliable ==> ok
    {
      ok := Attempt();
      if ok {
        files, synced, placed := EMPTY_DESTINATION, {}, false;
      }
    }

    /** One member is unpacked, or nothing changes. */
    method UnpackOne(m: Member) returns (ok: bool)
      modifies this`files
      ensures ok ==> Unpack(old(files), m) == Some(files)
      ensures !ok ==> files == old(files)
      ensures reliable ==> (ok <==> Unpack(old(files), m).Some?)
    {
      hide Unpack;
      ok := Attempt();
      var next := Unpack(files, m);
      if next.None? {
        return false;
      }
      if ok {
        files := next.value;
      }
    }

    method SyncOne(path: Path) returns (ok: bool)
      modifies this`synced
      ensures synced == if ok then old(synced) + {path} else old(synced)
      ensures reliable ==> ok
    {
      ok := Attempt();
      if ok {
        synced := synced + {path};
      }
    }

    /**
      restoreDirectoryArchive: the directory is cleared, every member is unpacked in turn,
      and every directory noted on the way is synced, at last the destination's parent.
     */
    method Restore(members: seq<Member>) returns (ok: bool)
      modifies this
      ensures ok ==> Rebuild(EMPTY_DESTINATION, members) == Some(files)
      ensures ok ==> placed && synced == AllNoted(members) + {[]}
      ensures placed ==> ok || old(placed)
      ensures reliable && Rebuild(EMPTY_DESTINATION, members).Some? ==> ok
    {
      hide Unpack, AllNoted;
      var cleared := Clear();
      if !cleared {
        return false;
      }
      var unpacked, noted := UnpackInTurn(members);
      if !unpacked {
        return false;
      }
      ok := SyncAll(noted);
    }

    /** The members are unpacked in turn, until one cannot be. */
    method UnpackInTurn(members: seq<Member>) returns (ok: bool, noted: set<Path>)
      modifies this`files
      ensures ok ==> Rebuild(old(files), members) == Some(files) && noted == AllNoted(members) + {[]}
      ensures reliable && Rebuild(old(files), members).Some? ==> ok
    {
      hide Unpack, NotedFor;
      noted := {[]};
      var k := 0;
      while k < |members|
        invariant k <= |members| && Rebuild(files, members[k..]) == Rebuild(old(files), members)
        invariant noted + AllNoted(members[k..]) == AllNoted(members) + {[]}
      {
        assert members[k..][1..] == members[k + 1..];
        ok := UnpackOne(members[k]);
        if !ok {
          return false, noted;
        }
        noted := noted + NotedFor(members[k]);
        k := k + 1;
      }
      ok := true;
    }

    /** Each noted directory is synced, and the destination's parent. */
    method SyncAll(noted: set<Path>) returns (ok: bool)
      modifies this`synced, this`placed
      ensures ok ==> placed && synced == old(synced) + noted
      ensures placed ==> ok || old(placed)
      ensures reliable ==> ok
    {
      var left := noted;
      while left != {}
        invariant left <= noted && synced == old(synced) + (noted - left) && placed == old(placed)
        decreases left
      {
        var path :| path in left;
        ok := SyncOne(path);
        if !ok {
          return;
        }
        left := left - {path};
      }
      ok := Attempt();
      if ok {
        placed := true;
      }
    }
  }

  /** A crash after the restore loses no entry: every node's directory was synced. */
  ghost predicate EntriesSynced(files: Files, synced: set<Path>) {
    forall path :: path in files && path != [] ==> path[..|path| - 1] in synced
  }

  lemma {:induction false} NotedConcat(a: seq<Member>, b: seq<Member>)
    ensures AllNoted(a + b) == AllNoted(a) + AllNoted(b)
    decreases |a|
  {
    hide NotedFor;
    if a == [] {
      assert a + b == b;
    } else {
      assert (a + b)[1..] == a[1..] + b;
      NotedConcat(a[1..], b);
    }
  }

  /** The member is a directory at this place, or a file in it. */
  predicate Concerns(m: Member, place: Path) {
    && SafePath(m.name).Some?
    && var path := SafePath(m.name).value;
    && path != []
    && ((m.kind == DirectoryEntry && place == path) || (m.kind == FileEntry && place == path[..|path| - 1]))
  }

  /** Exactly the directories of the archive, and those its files are put into, are noted for a sync. */
  lemma {:induction false} NotedExactly(members: seq<Member>, place: Path)
    ensures place in AllNoted(members) <==> exists k :: 0 <= k < |members| && Concerns(members[k], place)
    decreases |members|
  {
    hide SafePath;
    if members != [] {
      NotedExactly(members[1..], place);
      if Concerns(members[0], place) {
        assert place in NotedFor(members[0]);
      }
      if place in AllNoted(members[1..]) {
        var k :| 0 <= k < |members[1..]| && Concerns(members[1..][k], place);
        assert Concerns(members[k + 1], place);
      }
      if k :| 0 <= k < |members| && Concerns(members[k], place) {
        if k > 0 {
          assert Concerns(members[1..][k - 1], place);
        }
      }
    }
  }

  /** Every entry's directory is the one that holds the archived entries, or is noted for a member. */
  lemma {:induction false} ParentsAreNoted(prefix: Path, entries: seq<Named>, path: Path)
    requires ValidNames(entries) && Ordinary(entries) && ValidPath(prefix) && path in Below(prefix, entries)
    ensures path != [] && (path[..|path| - 1] == prefix || path[..|path| - 1] in AllNoted(Emit(prefix, entries)))
    decreases entries
  {
    hide NotedFor, Masked;
    var first, tree := prefix + [entries[0].name], entries[0].tree;
    var below := if tree.Directory? then Emit(first, tree.entries) else [];
    var own := [MemberOf(first, tree)];
    assert own[1..] == [];
    NotedConcat(own, below);
    NotedConcat(own + below, Emit(prefix, entries[1..]));
    assert first[..|first| - 1] == prefix;
    if path != first && tree.Directory? && path in Below(first, tree.entries) {
      ParentsAreNoted(first, tree.entries, path);
      DirectoryIsNoted(first, tree);
    } else if path != first {
      ParentsAreNoted(prefix, entries[1..], path);
    }
  }

  lemma DirectoryIsNoted(path: Path, tree: Tree)
    requires path != [] && ValidPath(path) && tree.Directory?
    ensures AllNoted([MemberOf(path, tree)]) == {path}
  {
    NameLeadsBack(path);
    assert [MemberOf(path, tree)][1..] == [];
  }

  /** A successful restore of an archive the walk wrote is on disk, entry by entry. */
  lemma RestoreIsDurable(entries: seq<Named>)
    requires ValidNames(entries) && Ordinary(entries)
    ensures var members := Emit([], entries);
            && Rebuild(EMPTY_DESTINATION, members).Some?
            && EntriesSynced(Rebuild(EMPTY_DESTINATION, members).value, AllNoted(members) + {[]})
  {
    hide Rebuild, AllNoted, Below;
    OrdinaryIsArchivable(entries);
    RebuildAddsBelow(EMPTY_DESTINATION, [], entries);
    forall path | path in Rebuild(EMPTY_DESTINATION, Emit([], entries)).value && path != []
      ensures path[..|path| - 1] in AllNoted(Emit([], entries)) + {[]}
    {
      ParentsAreNoted([], entries, path);
    }
  }

  /** Directories that an archive leaves out are made but not noted, so their entries may be lost. */
  lemma LeftOutDirectoryIsNotSynced()
    ensures var members := [Member("a/b", DirectoryEntry, OWNER_ALL, [])];
            var restored := Rebuild(EMPTY_DESTINATION, members);
            restored.Some? && ["a", "b"] in restored.value && !EntriesSynced(restored.value, AllNoted(members) + {[]})
  {
    var path: Path := ["a", "b"];
    assert Join(path, '/') == "a/b" by {
      assert path[1..] == ["b"];
    }
    NameLeadsBack(path);
    assert path[..1] == ["a"] && ["a"][..0] == [];
    var m := Member("a/b", DirectoryEntry, OWNER_ALL, []);
    assert [m][1..] == [];
    assert MakeAll(EMPTY_DESTINATION, [], OWNER_ALL) == Some(EMPTY_DESTINATION);
    assert MakeAll(EMPTY_DESTINATION, ["a"], OWNER_ALL).Some?;
    assert AllNoted([m]) == {path};
  }

  /* ---------- Unpacking stays inside ---------- */

  /** Going to a name's place leads one level down, or up for "..", or nowhere. */
  function Levels(name: string): int {
    if name == "" || name == "." then 0 else if name == ".." then -1 else 1
  }

  /** How many levels below its start the walk along the names ends. */
  function Net(parts: seq<string>): int {
    if parts == [] then 0 else Levels(parts[0]) + Net(parts[1..])
  }

  /** The lowest point of the walk along the names: negative when it climbs above its start. */
  function Lowest(parts: seq<string>): (low: int)
    ensures low <= 0
  {
    if parts == [] then 0
    else var rest := Levels(parts[0]) + Lowest(parts[1..]); if rest < 0 then rest else 0
  }

  /** Cleaning finds out whether the walk climbs above its start, and otherwise where it ends. */
  lemma {:induction false} CleanedFollowsWalk(parts: seq<string>, kept: Path)
    requires ValidPath(kept) && forall k :: 0 <= k < |parts| ==> Free(parts[k], '/')
    ensures var path := Cleaned(parts, kept);
            if |kept| + Lowest(parts) < 0 then path != [] && path[0] == ".."
            else ValidPath(path) && |path| == |kept| + Net(parts)
    decreases |parts|
  {
    if parts != [] {
      if Levels(parts[0]) == 0 {
        CleanedFollowsWalk(parts[1..], kept);
      } else if parts[0] != ".." {
        CleanedFollowsWalk(parts[1..], kept + [parts[0]]);
      } else if kept != [] {
        CleanedFollowsWalk(parts[1..], kept[..|kept| - 1]);
      } else {
        assert kept + [parts[0]] == [".."];
        ClimbsForGood(parts[1..], [".."]);
      }
    }
  }

  lemma {:induction false} ClimbsForGood(parts: seq<string>, kept: Path)
    requires kept != [] && kept[0] == ".."
    ensures Cleaned(parts, kept) != [] && Cleaned(parts, kept)[0] == ".."
    decreases |parts|
  {
    if parts != [] {
      if Levels(parts[0]) == 0 {
        ClimbsForGood(parts[1..], kept);
      } else if parts[0] == ".." && kept[|kept| - 1] != ".." {
        ClimbsForGood(parts[1..], kept[..|kept| - 1]);
      } else {
        ClimbsForGood(parts[1..], kept + [parts[0]]);
      }
    }
  }

  /**
    A name is refused exactly when it is absolute, climbs above the destination, or leads
    nowhere below it; any other name's place is inside.
   */
  lemma UnsafeNamesAreRefused(name: string)
    ensures var parts := Split(name, '/');
            && (SafePath(name).None? <==> (name != "" && name[0] == '/') || Lowest(parts) < 0 || Net(parts) == 0)
            && (SafePath(name).Some? ==> ValidPath(SafePath(name).value) && |SafePath(name).value| == Net(parts))
  {
    hide Split, Cleaned, Lowest, Net;
    JoinSplit(name, '/');
    CleanedFollowsWalk(Split(name, '/'), []);
  }

  /** Every restored path is made of proper names. */
  ghost predicate Inside(files: Files) {
    forall path :: path in files ==> ValidPath(path)
  }

  lemma {:induction false} MadeInside(files: Files, path: Path, mode: Mode)
    requires Inside(files) && ValidPath(path)
    ensures MakeAll(files, path, mode).Some? ==> Inside(MakeAll(files, path, mode).value)
    decreases |path|
  {
    if path !in files && path != [] {
      MadeInside(files, path[..|path| - 1], mode);
    }
  }

  /** Whatever archive is unpacked, nothing is made outside the destination. */
  lemma {:induction false} RestoreStaysInside(files: Files, members: seq<Member>)
    requires Inside(files) && Rebuild(files, members).Some?
    ensures Inside(Rebuild(files, members).value)
    decreases |members|
  {
    hide SafePath, MakeAll;
    if members != [] {
      var m := members[0];
      UnsafeNamesAreRefused(m.name);
      var path := SafePath(m.name).value;
      if m.kind == DirectoryEntry {
        MadeInside(files, path, m.mode & OWNER_ALL);
      } else {
        MadeInside(files, path[..|path| - 1], OWNER_ALL);
      }
      RestoreStaysInside(Unpack(files, m).value, members[1..]);
    }
  }

  /* ---------- The round trip ---------- */

  predicate ValidNames(entries: seq<Named>)
    decreases entries
  {
    entries != [] ==>
      && Component(entries[0].name)
      && (forall k :: 0 < k < |entries| ==> entries[k].name != entries[0].name)
      && (entries[0].tree.Directory? ==> ValidNames(entries[0].tree.entries))
      && ValidNames(entries[1..])
  }

  /** Only directories and regular files. */
  predicate Ordinary(entries: seq<Named>)
    decreases entries
  {
    entries != [] ==>
      && (entries[0].tree.File? || (entries[0].tree.Directory? && Ordinary(entries[0].tree.entries)))
      && Ordinary(entries[1..])
  }

  /** The node found by following the path. */
  function NodeAt(entries: seq<Named>, path: Path): Option<Tree>
    decreases entries
  {
    if entries == [] || path == [] then None
    else if entries[0].name != path[0] then NodeAt(entries[1..], path)
    else if |path| == 1 then Some(entries[0].tree)
    else if entries[0].tree.Directory? then NodeAt(entries[0].tree.entries, path[1..])
    else None
  }

  /** The node as it comes back: only the owner's permissions are kept. */
  function Masked(tree: Tree): Node {
    match tree
    case File(mode, content) => RestoredFile(mode & OWNER_READ_WRITE, content)
    case Directory(mode, _) => RestoredDirectory(mode & OWNER_ALL)
    case _ => RestoredDirectory(0)
  }

  /** Everything below a directory, by its full path. */
  function Below(prefix: Path, entries: seq<Named>): Files
    decreases entries
  {
    if entries == [] then map[]
    else
      var path := prefix + [entries[0].name];
      var deeper := if entries[0].tree.Directory? then Below(path, entries[0].tree.entries) else map[];
      map[path := Masked(entries[0].tree)] + deeper + Below(prefix, entries[1..])
  }

  lemma {:induction false} CleanedIsPath(parts: seq<string>, kept: Path)
    requires forall k :: 0 <= k < |parts| ==> Component(parts[k])
    ensures Cleaned(parts, kept) == kept + parts
    decreases |parts|
  {
    if parts == [] {
      assert kept + parts == kept;
    } else {
      assert Component(parts[0]);
      CleanedIsPath(parts[1..], kept + [parts[0]]);
      assert kept + [parts[0]] + parts[1..] == kept + parts;
    }
  }

  /** A member's name leads back to the path it was made from. */
  lemma NameLeadsBack(path: Path)
    requires path != [] && forall k :: 0 <= k < |path| ==> Component(path[k])
    ensures SafePath(Join(path, '/')) == Some(path)
  {
    SplitJoin(path, '/');
    CleanedIsPath(path, []);
    assert [] + path == path;
    assert Component(path[0]);
    JoinStartsWithFirst(path);
  }

  lemma JoinStartsWithFirst(path: Path)
    requires path != [] && Component(path[0])
    ensures var name := Join(path, '/'); name != "" && name[0] != '/'
  {
    assert path[0][0] in path[0];
  }

  predicate ValidPath(path: Path) {
    forall k :: 0 <= k < |path| ==> Component(path[k])
  }

  /** Nothing is restored yet where the entries will go. */
  predicate Fresh(files: Files, prefix: Path, entries: seq<Named>) {
    forall path, k :: path in files && 0 <= k < |entries| ==> !(prefix + [entries[k].name] <= path)
  }

  /** Everything below the directory lies below one of its entries. */
  lemma {:induction false} BelowIsBelow(prefix: Path, entries: seq<Named>, path: Path)
    requires path in Below(prefix, entries)
    ensures exists k :: 0 <= k < |entries| && prefix + [entries[k].name] <= path
    decreases entries
  {
    var first := prefix + [entries[0].name];
    if path == first {
      assert prefix + [entries[0].name] <= path;
    } else if entries[0].tree.Directory? && path in Below(first, entries[0].tree.entries) {
      var below := entries[0].tree.entries;
      BelowIsBelow(first, below, path);
      var k :| 0 <= k < |below| && first + [below[k].name] <= path;
      assert first <= first + [below[k].name];
      assert prefix + [entries[0].name] <= path;
    } else {
      BelowIsBelow(prefix, entries[1..], path);
      var k :| 0 <= k < |entries[1..]| && prefix + [entries[1..][k].name] <= path;
      assert entries[k + 1] == entries[1..][k];
    }
  }

  lemma {:induction false} RebuildConcat(files: Files, first: seq<Member>, rest: seq<Member>)
    requires Rebuild(files, first).Some?
    ensures Rebuild(files, first + rest) == Rebuild(Rebuild(files, first).value, rest)
    decreases |first|
  {
    hide Unpack;
    if first == [] {
      assert first + rest == rest;
    } else {
      RebuildConcat(Unpack(files, first[0]).value, first[1..], rest);
      assert (first + rest)[1..] == first[1..] + rest;
    }
  }

  /** Unpacking a member whose directory is there and whose place is free adds exactly its node. */
  lemma UnpackAdds(files: Files, prefix: Path, entry: Named)
    requires ValidPath(prefix) && Component(entry.name)
    requires prefix in files && files[prefix].RestoredDirectory? && prefix + [entry.name] !in files
    requires entry.tree.File? || entry.tree.Directory?
    ensures Unpack(files, MemberOf(prefix + [entry.name], entry.tree)) ==
            Some(files[prefix + [entry.name] := Masked(entry.tree)])
  {
    var path := prefix + [entry.name];
    NameLeadsBack(path);
    assert path[..|path| - 1] == prefix;
    assert forall mode :: MakeAll(files, prefix, mode) == Some(files);
    assert forall mode :: MakeAll(files, path, mode) == Some(files[path := RestoredDirectory(mode)]);
    assert Unpack(files, MemberOf(path, entry.tree)) == UnpackAt(files, path, MemberOf(path, entry.tree));
  }

  /** Names that differ lead to places that do not contain each other. */
  lemma SiblingsApart(prefix: Path, a: string, b: string, path: Path)
    requires a != b && prefix + [a] <= path
    ensures !(prefix + [b] <= path)
  {
    assert (prefix + [a])[|prefix|] == a && (prefix + [b])[|prefix|] == b;
    assert path[|prefix|] == a;
  }

  lemma PrefixTransitive(a: Path, b: Path, c: Path)
    ensures a <= b && b <= c ==> a <= c
  {
  }

  /** Unpacking what the walk wrote for a directory adds exactly what is below it. */
  lemma {:induction false} RebuildAddsBelow(files: Files, prefix: Path, entries: seq<Named>)
    requires ValidPath(prefix) && ValidNames(entries) && Ordinary(entries)
    requires prefix in files && files[prefix].RestoredDirectory? && Fresh(files, prefix, entries)
    ensures Rebuild(files, Emit(prefix, entries)) == Some(files + Below(prefix, entries))
    decreases entries
  {
    hide Unpack, Masked, MemberOf, Rebuild, Fresh, Below, Emit, Component;
    if entries == [] {
      NothingToAdd(files, prefix);
    } else {
      var entry, path := entries[0], prefix + [entries[0].name];
      FirstIsFree(files, prefix, entries);
      UnpackAdds(files, prefix, entry);
      var made := files[path := Masked(entry.tree)];
      var deeper := if entry.tree.Directory? then Below(path, entry.tree.entries) else map[];
      if entry.tree.Directory? {
        DirectoryComesBack(entry.tree);
        FreshInside(files, made, prefix, entries);
        RebuildAddsBelow(made, path, entry.tree.entries);
      } else {
        NothingToAdd(made, path);
      }
      FreshBeside(files, made, deeper, prefix, entries);
      RebuildAddsBelow(made + deeper, prefix, entries[1..]);
      RebuildInSteps(files, made, made + deeper, prefix, entries);
      BelowInSteps(files, prefix, entries);
    }
  }

  lemma FirstIsFree(files: Files, prefix: Path, entries: seq<Named>)
    requires entries != [] && Fresh(files, prefix, entries)
    ensures prefix + [entries[0].name] !in files
  {
    assert prefix + [entries[0].name] <= prefix + [entries[0].name];
  }

  lemma BelowInSteps(files: Files, prefix: Path, entries: seq<Named>)
    requires entries != []
    ensures var path, tree := prefix + [entries[0].name], entries[0].tree;
            files[path := Masked(tree)] + (if tree.Directory? then Below(path, tree.entries) else map[]) +
            Below(prefix, entries[1..]) == files + Below(prefix, entries)
  {
    hide Masked;
  }

  lemma NothingToAdd(files: Files, prefix: Path)
    ensures Rebuild(files, []) == Some(files) && files + map[] == files && Emit(prefix, []) == [] &&
            Below(prefix, []) == map[]
  {
  }

  /** Unpacking a directory's members: its first entry, what is below that, and the other entries. */
  lemma RebuildInSteps(files: Files, made: Files, more: Files, prefix: Path, entries: seq<Named>)
    requires entries != []
    requires var path, tree := prefix + [entries[0].name], entries[0].tree;
             && Unpack(files, MemberOf(path, tree)) == Some(made)
             && Rebuild(made, if tree.Directory? then Emit(path, tree.entries) else []) == Some(more)
    ensures Rebuild(files, Emit(prefix, entries)) == Rebuild(more, Emit(prefix, entries[1..]))
  {
    hide Unpack, MemberOf;
    var path, tree := prefix + [entries[0].name], entries[0].tree;
    var inner, rest := if tree.Directory? then Emit(path, tree.entries) else [], Emit(prefix, entries[1..]);
    RebuildConcat(made, inner, rest);
    var all := [MemberOf(path, tree)] + (inner + rest);
    assert all[1..] == inner + rest;
    assert Emit(prefix, entries) == all;
  }

  lemma DirectoryComesBack(tree: Tree)
    requires tree.Directory?
    ensures Masked(tree).RestoredDirectory?
  {
  }

  lemma FreshInside(files: Files, made: Files, prefix: Path, entries: seq<Named>)
    requires entries != [] && entries[0].tree.Directory? && Fresh(files, prefix, entries)
    requires made == files[prefix + [entries[0].name] := Masked(entries[0].tree)]
    ensures Fresh(made, prefix + [entries[0].name], entries[0].tree.entries)
  {
    hide Masked;
    var path, below := prefix + [entries[0].name], entries[0].tree.entries;
    forall q, k | q in made && 0 <= k < |below| ensures !(path + [below[k].name] <= q) {
      PrefixTransitive(path, path + [below[k].name], q);
      assert q in files ==> !(prefix + [entries[0].name] <= q);
    }
  }

  lemma FreshBeside(files: Files, made: Files, deeper: Files, prefix: Path, entries: seq<Named>)
    requires entries != [] && ValidNames(entries) && Fresh(files, prefix, entries)
    requires made == files[prefix + [entries[0].name] := Masked(entries[0].tree)]
    requires deeper ==
               if entries[0].tree.Directory? then Below(prefix + [entries[0].name], entries[0].tree.entries) else map[]
    requires prefix in files && files[prefix].RestoredDirectory?
    ensures Fresh(made + deeper, prefix, entries[1..])
    ensures prefix in made + deeper && (made + deeper)[prefix].RestoredDirectory?
  {
    hide Masked, Below;
    var path := prefix + [entries[0].name];
    forall q | q in deeper ensures path <= q {
      var below := entries[0].tree.entries;
      BelowIsBelow(path, below, q);
      var k :| 0 <= k < |below| && path + [below[k].name] <= q;
      assert path <= path + [below[k].name];
    }
    forall q, k | q in made + deeper && 0 <= k < |entries[1..]| ensures !(prefix + [entries[1..][k].name] <= q) {
      assert entries[1..][k] == entries[k + 1];
      if q in deeper || q == path {
        SiblingsApart(prefix, entries[0].name, entries[k + 1].name, q);
      } else {
        assert q in files;
      }
    }
    assert |prefix| < |path|;
  }

  /** What is below a directory is what following paths finds there. */
  lemma {:induction false} BelowIsNodeAt(prefix: Path, entries: seq<Named>, rest: Path)
    requires ValidNames(entries)
    ensures prefix + rest in Below(prefix, entries) <==> NodeAt(entries, rest).Some?
    ensures NodeAt(entries, rest).Some? ==> Below(prefix, entries)[prefix + rest] == Masked(NodeAt(entries, rest).value)
    decreases entries
  {
    hide Masked;
    if rest == [] {
      assert prefix + rest == prefix;
      if prefix in Below(prefix, entries) {
        BelowIsBelow(prefix, entries, prefix);
      }
    } else if entries != [] {
      BelowOfEntry(prefix, entries, rest);
    }
  }

  lemma {:induction false} BelowOfEntry(prefix: Path, entries: seq<Named>, rest: Path)
    requires ValidNames(entries) && rest != [] && entries != []
    ensures prefix + rest in Below(prefix, entries) <==> NodeAt(entries, rest).Some?
    ensures NodeAt(entries, rest).Some? ==> Below(prefix, entries)[prefix + rest] == Masked(NodeAt(entries, rest).value)
    decreases entries, 0
  {
    hide Masked;
    var path, target := prefix + [entries[0].name], prefix + rest;
    var below := if entries[0].tree.Directory? then entries[0].tree.entries else [];
    var later := Below(prefix, entries[1..]);
    if rest[0] == entries[0].name {
      assert target == path + rest[1..];
      NotAmongOthers(prefix, entries, target);
      if entries[0].tree.Directory? {
        BelowIsNodeAt(path, below, rest[1..]);
      }
      assert |rest| == 1 <==> target == path;
    } else {
      BelowIsNodeAt(prefix, entries[1..], rest);
      assert target[|prefix|] == rest[0] && path[|prefix|] == entries[0].name;
      NotInside(prefix, entries[0].name, below, target);
    }
  }

  /** What lies below the first entry lies below no other. */
  lemma NotAmongOthers(prefix: Path, entries: seq<Named>, path: Path)
    requires ValidNames(entries) && entries != [] && prefix + [entries[0].name] <= path
    ensures path !in Below(prefix, entries[1..])
  {
    hide Below;
    if path in Below(prefix, entries[1..]) {
      BelowIsBelow(prefix, entries[1..], path);
      var k :| 0 <= k < |entries[1..]| && prefix + [entries[1..][k].name] <= path;
      assert entries[1..][k] == entries[k + 1];
      SiblingsApart(prefix, entries[0].name, entries[k + 1].name, path);
    }
  }

  lemma NotInside(prefix: Path, name: string, below: seq<Named>, path: Path)
    requires |path| > |prefix| && path[|prefix|] != name
    ensures path !in Below(prefix + [name], below) && path != prefix + [name]
  {
    hide Below;
    assert (prefix + [name])[|prefix|] == name;
    assert forall k :: 0 <= k < |below| ==> (prefix + [name] + [below[k].name])[|prefix|] == name;
    if path in Below(prefix + [name], below) {
      BelowIsBelow(prefix + [name], below, path);
    }
  }

  /**
    Archiving a directory of ordinary files and directories and unpacking the archive gives
    back exactly the same paths, kinds and contents, with the owner's permissions.
   */
  lemma RoundTrip(entries: seq<Named>, path: Path)
    requires ValidNames(entries) && Ordinary(entries)
    ensures Archivable(entries)
    ensures var restored := Rebuild(EMPTY_DESTINATION, Emit([], entries));
            && restored.Some?
            && [] in restored.value && restored.value[[]] == RestoredDirectory(OWNER_ALL)
            && (path in restored.value <==> path == [] || NodeAt(entries, path).Some?)
            && (NodeAt(entries, path).Some? ==> restored.value[path] == Masked(NodeAt(entries, path).value))
  {
    hide Below, Masked, Rebuild, NodeAt;
    OrdinaryIsArchivable(entries);
    RebuildAddsBelow(EMPTY_DESTINATION, [], entries);
    BelowIsNodeAt([], entries, path);
    BelowIsNodeAt([], entries, []);
    NothingAtRoot(entries);
    assert [] + path == path;
  }

  lemma NothingAtRoot(entries: seq<Named>)
    ensures NodeAt(entries, []).None?
  {
  }

  lemma {:induction false} OrdinaryIsArchivable(entries: seq<Named>)
    requires Ordinary(entries)
    ensures Archivable(entries)
    decreases entries
  {
    if entries != [] {
      if entries[0].tree.Directory? {
        OrdinaryIsArchivable(entries[0].tree.entries);
      }
      OrdinaryIsArchivable(entries[1..]);
    }
  }

  lemma {:induction false} OtherEntryRefused(files: Files, members: seq<Member>, k: nat)
    requires k < |members| && members[k].kind == OtherEntry
    ensures Rebuild(files, members).None?
    decreases k
  {
    if k > 0 && Unpack(files, members[0]).Some? {
      OtherEntryRefused(Unpack(files, members[0]).value, members[1..], k - 1);
    }
  }

  /** An archive that the walk wrote is unpacked if and only if it holds nothing but directories and files. */
  lemma {:induction false} RestorableIffOrdinary(entries: seq<Named>)
    requires ValidNames(entries) && Archivable(entries)
    ensures Rebuild(EMPTY_DESTINATION, Emit([], entries)).Some? <==> Ordinary(entries)
  {
    hide Rebuild;
    if Ordinary(entries) {
      RoundTrip(entries, []);
    } else {
      var k := SpecialIsEmitted([], entries);
      OtherEntryRefused(EMPTY_DESTINATION, Emit([], entries), k);
    }
  }

  lemma {:induction false} SpecialIsEmitted(prefix: Path, entries: seq<Named>) returns (k: nat)
    requires Archivable(entries) && !Ordinary(entries)
    ensures k < |Emit(prefix, entries)| && Emit(prefix, entries)[k].kind == OtherEntry
    decreases entries
  {
    var path, tree := prefix + [entries[0].name], entries[0].tree;
    var below := if tree.Directory? then Emit(path, tree.entries) else [];
    if tree.Special? {
      k := 0;
    } else if tree.Directory? && !Ordinary(tree.entries) {
      k := SpecialIsEmitted(path, tree.entries);
      k := k + 1;
    } else {
      k := SpecialIsEmitted(prefix, entries[1..]);
      k := k + 1 + |below|;
    }
  }
}
