/**
  The updater's first upgrade, from an installation without a state file: the creation
  request goes through and the engine picks the job up.
 */
module Start {
  import opened Wrappers
  import opened Text
  import opened Release
  import opened State
  import opened Changes
  import opened System
  import opened Safety
  import opened Runs
  import opened Acceptance
  import opened Races
  import opened Store

  /** Nothing has happened yet on a host that runs `image`. */
  function Installed(image: ImageRef, clock: Instant): World {
    World(NEW_STATE, NEW_STATE, Host(image, {image}, None, true, map[], map[]), Gate(None, false, false), Resting,
          Idle, map[], {}, clock)
  }

  lemma InstalledIsInitial(x: Externals, image: ImageRef, clock: Instant)
    ensures Initial(x, Installed(image, clock))
  {
    hide StateValid;
    LoadedIsValid(x, None);
  }

  /** The request's way to its transaction. */
  function Asking(n: nat, key: string, target: string): seq<Event> {
    [Arrive(n, CreateRequest(key, target)), Snapshot(n), CancelRepair(n), TakeLock(n), ReadVersion(n)]
  }

  lemma AskingIsPossible(x: Externals, image: ImageRef, clock: Instant, n: nat, key: string, target: string)
    ensures Play(x, Installed(image, clock), Asking(n, key, target)) ==
            Some(Installed(image, clock).(
              requests := map[n := HoldingVersion(CreateRequest(key, target), image.version)],
              gate := Gate(Some(RequestOwns(n)), false, false)))
  {
    hide Play, Enabled, Step;
    var w, r := Installed(image, clock), CreateRequest(key, target);
    EntersGate(x, w, n, r);
    var w3 := w.(requests := map[n := Queueing(r)]);
    InsideGate(x, w3, n, r);
    PlayConcat(x, w, [Arrive(n, r), Snapshot(n), CancelRepair(n)], [TakeLock(n), ReadVersion(n)]);
    assert [Arrive(n, r), Snapshot(n), CancelRepair(n)] + [TakeLock(n), ReadVersion(n)] == Asking(n, key, target);
  }

  lemma NobodyActive()
    ensures !HasActive(NEW_STATE)
  {
  }

  lemma OneRequest(w: World, n: nat, was: RequestPc, pc: RequestPc)
    requires w.requests == map[n := was]
    ensures SetRequest(w, n, Some(pc)) == w.(requests := map[n := pc])
  {
  }

  lemma EntersGate(x: Externals, w: World, n: nat, r: Request)
    requires r.CreateRequest? && w.requests == map[] && w.visible == NEW_STATE && w.gate == Gate(None, false, false)
    ensures Play(x, w, [Arrive(n, r), Snapshot(n), CancelRepair(n)]) == Some(w.(requests := map[n := Queueing(r)]))
  {
    hide Play, EngineMay, MayBegin, Settled, Goal, NextVisible, NextDurable, NextHost, WatchMay, RequestMay,
         RepairDue, HasActive, WatchAfter, Issued, Acknowledged, RecoveryImage, AfterSnapshot;
    var w1 := Step(x, w, Arrive(n, r));
    assert w1 == w.(requests := map[n := Arrived(r)]);
    LooksAndCancels(x, w1, n, r);
    PlayOne(x, w, Arrive(n, r), [Snapshot(n), CancelRepair(n)]);
    assert [Arrive(n, r)] + [Snapshot(n), CancelRepair(n)] == [Arrive(n, r), Snapshot(n), CancelRepair(n)];
  }

  lemma LooksAndCancels(x: Externals, w: World, n: nat, r: Request)
    requires r.CreateRequest? && w.requests == map[n := Arrived(r)] && w.visible == NEW_STATE
    requires w.gate == Gate(None, false, false)
    ensures Play(x, w, [Snapshot(n), CancelRepair(n)]) == Some(w.(requests := map[n := Queueing(r)]))
  {
    hide Play, EngineMay, MayBegin, Settled, Goal, NextVisible, NextDurable, NextHost, WatchMay, RequestMay,
         RepairDue, HasActive, WatchAfter, Issued, Acknowledged, RecoveryImage;
    var w1 := w.(requests := map[n := Entering(r)]);
    NobodyActive();
    OneRequest(w, n, Arrived(r), Entering(r));
    assert Step(x, w, Snapshot(n)) == w1;
    OneRequest(w1, n, Entering(r), Queueing(r));
    NothingLeft(x, Step(x, w1, CancelRepair(n)));
    PlayOne(x, w1, CancelRepair(n), []);
    PlayOne(x, w, Snapshot(n), [CancelRepair(n)]);
    assert [CancelRepair(n)] + [] == [CancelRepair(n)] &&
           [Snapshot(n)] + [CancelRepair(n)] == [Snapshot(n), CancelRepair(n)];
  }

  lemma InsideGate(x: Externals, w: World, n: nat, r: Request)
    requires r.CreateRequest? && w.requests == map[n := Queueing(r)] && w.gate == Gate(None, false, false)
    ensures Play(x, w, [TakeLock(n), ReadVersion(n)]) ==
            Some(w.(requests := map[n := HoldingVersion(r, w.host.image.version)],
                    gate := Gate(Some(RequestOwns(n)), false, false)))
  {
    hide Play, EngineMay, MayBegin, Settled, Goal, NextVisible, NextDurable, NextHost, WatchMay, RequestMay,
         RepairDue, HasActive, WatchAfter, Issued, Acknowledged, RecoveryImage, AfterSnapshot;
    OneRequest(w, n, Queueing(r), Holding(r));
    var w1 := Step(x, w, TakeLock(n));
    assert w1 == w.(requests := map[n := Holding(r)], gate := Gate(Some(RequestOwns(n)), false, false));
    OneRequest(w1, n, Holding(r), HoldingVersion(r, w.host.image.version));
    NothingLeft(x, Step(x, w1, ReadVersion(n)));
    PlayOne(x, w1, ReadVersion(n), []);
    PlayOne(x, w, TakeLock(n), [ReadVersion(n)]);
    assert [ReadVersion(n)] + [] == [ReadVersion(n)] &&
           [TakeLock(n)] + [ReadVersion(n)] == [TakeLock(n), ReadVersion(n)];
  }

  /** A first creation for a newer version is accepted, and its job is queued for the engine. */
  lemma FirstJobIsPickedUp(
      x: Externals, image: ImageRef, clock: Instant, n: nat, key: string, target: string, newId: string, bearer: string)
    requires OlderText(image.version, target) && key != "" && newId != "" && HexDigest(bearer)
    ensures Initial(x, Installed(image, clock))
    ensures var c := Command.CreateJob(key, target, image.version, newId, bearer);
            var end := Play(x, Installed(image, clock),
                            Asking(n, key, target) + [RequestWrite(n, c, Saved), EngineLoad(newId)]);
            && end.Some? && end.value.engine == Between(newId, Nothing) && end.value.visible == end.value.durable
            && end.value.visible.jobs == map[newId := NewJob(key, target, image.version, newId, bearer)]
            && end.value.visible.desired == Upgrading && (newId, bearer) in end.value.issued
  {
    hide StateValid, Play, Asking, Initial, HexDigest, OlderText, EngineMay, MayBegin, Settled, Goal, WatchMay,
         HasActive;
    var c := Command.CreateJob(key, target, image.version, newId, bearer);
    var write := RequestWrite(n, c, Saved);
    InstalledIsInitial(x, image, clock);
    AskingIsPossible(x, image, clock, n, key, target);
    var mid := Play(x, Installed(image, clock), Asking(n, key, target)).value;
    LoadedIsValid(x, None);
    CreationAcceptedIffFresh(x, mid.visible, c);
    CreatedFirst(x, mid, n, c);
    var made := Step(x, mid, write);
    PlayOne(x, made, EngineLoad(newId), []);
    NothingLeft(x, Step(x, made, EngineLoad(newId)));
    PlayOne(x, mid, write, [EngineLoad(newId)]);
    assert [EngineLoad(newId)] + [] == [EngineLoad(newId)];
    assert [write] + [EngineLoad(newId)] == [write, EngineLoad(newId)];
    PlayConcat(x, Installed(image, clock), Asking(n, key, target), [write, EngineLoad(newId)]);
  }

  lemma NothingLeft(x: Externals, w: World)
    ensures Play(x, w, []) == Some(w)
  {
  }

  lemma CreatedFirst(x: Externals, w: World, n: nat, c: Command)
    requires c.CreateJob? && w.visible == NEW_STATE && n in w.requests
    requires w.requests[n] == HoldingVersion(CreateRequest(c.key, c.target), c.current) &&
             OlderText(c.current, c.target)
    requires Accepted(x, w.visible, FromApi(c))
    ensures Enabled(w, RequestWrite(n, c, Saved))
    ensures var w' := Step(x, w, RequestWrite(n, c, Saved));
            && w'.visible == w'.durable && w'.engine == w.engine && w'.visible.desired == Upgrading
            && w'.visible.jobs == map[c.newId := NewJob(c.key, c.target, c.current, c.newId, c.bearer)]
            && IsActive(w'.visible, c.newId) && (c.newId, c.bearer) in w'.issued
  {
    hide StateValid, OlderText, HasActive;
  }
}
