/**
  The control API's handlers as the code runs them, on the shared daemon: a look at the
  record, the host gate where the request needs it, one transaction, and the way out.
 */
module ControlApi {
  import opened Wrappers
  import opened Text
  import opened Release
  import opened State
  import opened Changes
  import opened Ledger
  import opened System
  import opened Safety
  import opened Runs
  import opened Acceptance
  import opened Races
  import opened Outcomes
  import opened Process

  predicate OfRequest(e: Event, n: nat) {
    || (e.Arrive? && e.n == n) || (e.Snapshot? && e.n == n) || (e.GiveUp? && e.n == n)
    || (e.CancelRepair? && e.n == n) || (e.TakeLock? && e.n == n) || (e.ReadVersion? && e.n == n)
    || (e.RequestWrite? && e.n == n) || (e.ReleaseLock? && e.n == n)
  }

  lemma OthersLeaveRequest(x: Externals, w: World, e: Event, n: nat)
    requires Enabled(w, e) && !OfRequest(e, n) && !e.Crash?
    ensures n in Step(x, w, e).requests <==> n in w.requests
    ensures n in w.requests ==> Step(x, w, e).requests[n] == w.requests[n]
    ensures w.issued <= Step(x, w, e).issued
  {
    hide NextVisible, NextDurable, NextHost, EngineMay, MayBegin, Settled, Goal, Acknowledged, AfterSnapshot,
         RequestMay, WatchMay;
  }

  /** What the caller gets: a ticket for a job, a success without one, an error, or no answer yet. */
  datatype Reply = Ticket(id: string, bearer: string) | Done | Denied | Blocked

  class Control {
    const d: Daemon

    constructor (d: Daemon)
      ensures this.d == d
    {
      this.d := d;
    }

    /** Since event number `from` the request's command was accepted and saved. */
    ghost predicate Performed(from: nat, n: nat, c: Command)
      reads d
    {
      exists k :: from <= k < |d.events| && k < |d.worlds| && PerformedAt(k, n, c)
    }

    ghost predicate PerformedAt(k: nat, n: nat, c: Command)
      requires k < |d.events| && k < |d.worlds|
      reads d
    {
      d.events[k] == RequestWrite(n, c, Saved) && Accepted(d.x, d.worlds[k].visible, FromApi(c))
    }

    lemma HistoryIsLong()
      requires d.Valid()
      ensures |d.worlds| == |d.events| + 1 && d.worlds[|d.events|] == d.Now()
    {
      hide Initial, StepAt;
    }

    /** The other threads run for a while. */
    method Pause(n: nat)
      requires d.Valid() && n in d.requests
      modifies d
      ensures d.Valid() && n in d.requests && d.requests[n] == old(d.requests[n]) && old(d.issued) <= d.issued
      ensures old(d.events) <= d.events && old(d.worlds) <= d.worlds
      ensures d.alone ==> d.Now() == old(d.Now())
    {
      hide Daemon.Valid, Enabled, Step;
      var more: nat := *;
      if d.alone {
        more := 0;
      }
      while more > 0
        invariant d.alone ==> more == 0 && d.Now() == old(d.Now())
        invariant d.Valid() && n in d.requests && d.requests[n] == old(d.requests[n]) && old(d.issued) <= d.issued
        invariant old(d.events) <= d.events && old(d.worlds) <= d.worlds
      {
        var e: Event := *;
        if Enabled(d.Now(), e) && !OfRequest(e, n) && !e.Crash? {
          OthersLeaveRequest(d.x, d.Now(), e, n);
          d.Take(e);
        }
        more := more - 1;
      }
    }

    /** The request arrives and the handler looks at the record once. */
    method Look(n: nat, r: Request) returns (goesOn: bool)
      requires d.Valid() && n !in d.requests
      modifies d
      ensures d.Valid() && (goesOn <==> n in d.requests)
      ensures old(d.events) <= d.events && old(d.worlds) <= d.worlds
      ensures goesOn ==>
                || (d.requests[n] == Ungated(r) && (r.ReplayRequest? || r.CreateRequest?))
                || (d.requests[n] == Entering(r) && !r.ReplayRequest?)
      ensures d.alone ==>
                && SameGround(old(d.Now()), d.Now())
                && AfterSnapshot(d.visible, r) == if goesOn then Some(d.requests[n]) else None
    {
      hide Daemon.Valid, NextVisible, NextDurable, NextHost, EngineMay, MayBegin, Settled, Goal, Acknowledged,
           HasActive, RequestMay, WatchMay, TokenAllowed, RestartOffered;
      d.Take(Arrive(n, r));
      Pause(n);
      d.Take(Snapshot(n));
      goesOn := n in d.requests;
    }

    /** BeginMutation: a published repair is cancelled first, then the operation lock is awaited. */
    method EnterGate(n: nat) returns (entered: bool)
      requires d.Valid() && n in d.requests && d.requests[n].Entering?
      modifies d
      ensures d.Valid() && n in d.requests
      ensures old(d.events) <= d.events && old(d.worlds) <= d.worlds
      ensures d.requests[n] == if entered then Holding(old(d.requests[n].r)) else Queueing(old(d.requests[n].r))
      ensures d.alone ==>
                && d.visible == old(d.visible) && d.durable == old(d.durable) && d.host == old(d.host)
                && (entered <==> old(d.gate.lock) == None)
    {
      hide Daemon.Valid, NextVisible, NextDurable, NextHost, EngineMay, MayBegin, Settled, Goal, Acknowledged,
           HasActive, RequestMay, WatchMay, TokenAllowed, RestartOffered, AfterSnapshot;
      d.Take(CancelRepair(n));
      Pause(n);
      entered := d.gate.lock == None;
      if entered {
        d.Take(TakeLock(n));
      }
    }

    /** The transaction: a success is durable, and a ticket's token is recorded for its job. */
    method Commit(n: nat, c: Command) returns (ok: bool)
      requires d.Valid() && n in d.requests && RequestMay(d.requests[n], c)
      modifies d
      ensures d.Valid()
      ensures old(d.events) <= d.events && old(d.worlds) <= d.worlds
      ensures if old(Gated(d.requests[n]))
              then n in d.requests && d.requests[n] == Leaving(old(d.requests[n].r))
              else n !in d.requests
      ensures ok ==> ApiEffect(old(d.visible), c).Ok? && Issued(old(d.visible), c) <= d.issued
      ensures ok ==> Performed(old(|d.events|), n, c)
      ensures ok ==> Accepted(d.x, old(d.visible), FromApi(c))
      ensures d.reliable && Accepted(d.x, old(d.visible), FromApi(c)) ==> ok
    {
      hide Daemon.Valid, StateValid, ApiEffect, Issued, RequestMay, EngineMay, WatchMay, MayBegin, Settled, Goal,
           AfterSnapshot, RepairDue, RecoveryImage, WatchAfter, NextHost;
      var o: Outcome := *;
      if d.reliable {
        o := Saved;
      }
      ok := Acknowledged(d.x, d.Now(), FromApi(c), o);
      ghost var k := |d.events|;
      HistoryIsLong();
      d.Take(RequestWrite(n, c, o));
      if ok {
        assert PerformedAt(k, n, c);
      }
    }

    /** The deferred way out of the gate; what the request performed stays performed. */
    method LeaveGate(n: nat, ghost from: nat, ghost c: Command)
      requires d.Valid() && n in d.requests && d.requests[n].Leaving?
      modifies d
      ensures d.Valid() && n !in d.requests && old(d.issued) <= d.issued
      ensures old(d.events) <= d.events && old(d.worlds) <= d.worlds
      ensures old(Performed(from, n, c)) ==> Performed(from, n, c)
    {
      hide Daemon.Valid, Enabled, Step, Accepted;
      ghost var done, k: nat := Performed(from, n, c), 0;
      if done {
        k :| from <= k < |d.events| && k < |d.worlds| && PerformedAt(k, n, c);
      }
      Pause(n);
      Release(n);
      if done {
        assert PerformedAt(k, n, c);
      }
    }

    method Release(n: nat)
      requires d.Valid() && n in d.requests && d.requests[n].Leaving?
      modifies d
      ensures d.Valid() && n !in d.requests && d.issued == old(d.issued)
      ensures old(d.events) <= d.events && old(d.worlds) <= d.worlds
    {
      hide Daemon.Valid, NextVisible, NextDurable, NextHost, EngineMay, MayBegin, Settled, Goal, Acknowledged,
           HasActive, RequestMay, WatchMay, AfterSnapshot;
      d.Take(ReleaseLock(n));
    }

    /** A token the caller holds is on disk and accepted for its job. */
    lemma TicketIsGood(id: string, bearer: string)
      requires d.Valid() && (id, bearer) in d.issued
      ensures id in d.durable.jobs && bearer in d.durable.jobs[id].bearers
      ensures id in d.visible.jobs && bearer in d.visible.jobs[id].bearers
    {
      hide Daemon.Valid, Inv;
      d.Reachable();
      KeptToken(d.x, d.Now(), id, bearer);
    }

    /** rotateJobTicket, for a replay or for a creation whose key is already known. */
    method RotateTicket(n: nat, key: string, target: string, bearer: string) returns (reply: Reply)
      requires d.Valid() && n in d.requests
      requires d.requests[n] == Ungated(ReplayRequest(key, target)) ||
               d.requests[n] == Ungated(CreateRequest(key, target))
      modifies d
      ensures d.Valid() && n !in d.requests && (reply.Ticket? || reply == Denied)
      ensures reply.Ticket? ==> reply.bearer == bearer && (reply.id, bearer) in d.issued
      ensures old(d.events) <= d.events && old(d.worlds) <= d.worlds
      ensures reply.Ticket? ==> Performed(old(|d.events|), n, Command.RotateTicket(key, target, bearer))
      ensures d.alone && d.reliable ==>
                var id := old(KeyedJob(d.visible, key, target));
                reply == if id.Some? && HexDigest(bearer) then Ticket(id.value, bearer) else Denied
    {
      hide Daemon.Valid, StateValid, Accepted, HexDigest, Rotated, Inv;
      Pause(n);
      d.Reachable();
      ValidInInv(d.x, d.Now());
      RotationAccepted(d.x, d.visible, key, target, bearer);
      ghost var before := d.visible;
      var id := if key in d.visible.idempotency then d.visible.idempotency[key] else "";
      ghost var at := |d.events|;
      var ok := Commit(n, Command.RotateTicket(key, target, bearer));
      if ok {
        PerformedSince(old(|d.events|), at, n, Command.RotateTicket(key, target, bearer));
        assert (id, bearer) in Issued(before, Command.RotateTicket(key, target, bearer));
        return Ticket(id, bearer);
      }
      return Denied;
    }

    /** createJob. The random job id and token are arguments. */
    method CreateJob(n: nat, key: string, target: string, newId: string, bearer: string) returns (reply: Reply)
      requires d.Valid() && n !in d.requests
      modifies d
      ensures d.Valid() && (reply.Blocked? <==> n in d.requests)
      ensures reply.Ticket? ==>
                && reply.bearer == bearer && reply.id in d.durable.jobs
                && bearer in d.durable.jobs[reply.id].bearers
      ensures old(d.events) <= d.events && old(d.worlds) <= d.worlds
      ensures reply.Ticket? ==>
                || Performed(old(|d.events|), n, Command.RotateTicket(key, target, bearer))
                || (exists version :: OlderText(version, target) &&
                      Performed(old(|d.events|), n, Command.CreateJob(key, target, version, newId, bearer)))
      ensures d.alone && d.reliable && HexDigest(bearer) && key != "" && newId != "" ==>
                var s := old(d.visible);
                if key in s.idempotency then
                  var id := KeyedJob(s, key, target);
                  reply == if id.Some? then Ticket(id.value, bearer) else Denied
                else if s.desired != Running || HasActive(s) then reply == Denied
                else if old(d.gate.lock) != None then reply == Blocked
                else reply == if OlderText(old(d.host.image.version), target) && newId !in s.jobs
                              then Ticket(newId, bearer) else Denied
    {
      hide Daemon.Valid, TokenAllowed, Performed, HexDigest, OlderText, HasActive, KeyedJob;
      var goesOn := Look(n, CreateRequest(key, target));
      ghost var from := |d.events|;
      if !goesOn {
        return Denied;
      }
      if d.requests[n].Ungated? {
        reply := RotateTicket(n, key, target, bearer);
        if reply.Ticket? {
          TicketIsGood(reply.id, bearer);
          PerformedSince(old(|d.events|), from, n, Command.RotateTicket(key, target, bearer));
        }
        return;
      }
      var entered := EnterGate(n);
      if !entered {
        return Blocked;
      }
      Pause(n);
      var version := ReadVersion(n);
      from := |d.events|;
      reply := CreateInGate(n, key, target, version, newId, bearer);
      if reply.Ticket? {
        PerformedSince(old(|d.events|), from, n, Command.CreateJob(key, target, version, newId, bearer));
      }
    }

    lemma PerformedSince(earlier: nat, from: nat, n: nat, c: Command)
      requires earlier <= from && Performed(from, n, c)
      ensures Performed(earlier, n, c)
    {
      hide Accepted;
    }

    /** The rest of createJob, with the version read. */
    method CreateInGate(n: nat, key: string, target: string, version: string, newId: string, bearer: string)
      returns (reply: Reply)
      requires d.Valid() && n in d.requests && d.requests[n] == HoldingVersion(CreateRequest(key, target), version)
      modifies d
      ensures d.Valid() && n !in d.requests && (reply.Ticket? || reply == Denied)
      ensures reply.Ticket? ==>
                && reply.bearer == bearer && reply.id in d.durable.jobs
                && bearer in d.durable.jobs[reply.id].bearers
      ensures old(d.events) <= d.events && old(d.worlds) <= d.worlds
      ensures reply.Ticket? ==>
                OlderText(version, target) &&
                Performed(old(|d.events|), n, Command.CreateJob(key, target, version, newId, bearer))
      ensures var s := old(d.visible);
              d.alone && d.reliable && HexDigest(bearer) && key != "" && newId != "" && s.desired == Running &&
              key !in s.idempotency ==>
                reply == if OlderText(version, target) && newId !in s.jobs then Ticket(newId, bearer) else Denied
    {
      hide Daemon.Valid, StateValid, Accepted, TokenAllowed, RequestMay, ApiEffect, Performed, OlderText, HexDigest,
           Inv;
      Pause(n);
      d.Reachable();
      ValidInInv(d.x, d.Now());
      ghost var from := old(|d.events|);
      if !OlderText(version, target) {
        Abandon(n);
        LeaveGate(n, 0, SetDesired(Running));
        return Denied;
      }
      var id := if key in d.visible.idempotency then d.visible.idempotency[key] else newId;
      var c := Command.CreateJob(key, target, version, newId, bearer);
      CreationIsNext(d.requests[n], c);
      IssuedByCreation(d.visible, c);
      if d.alone && HexDigest(bearer) && key != "" && newId != "" && d.visible.desired == Running &&
         key !in d.visible.idempotency
      {
        CreationAcceptedIffFresh(d.x, d.visible, c);
      }
      ghost var at := |d.events|;
      var ok := Commit(n, c);
      if ok {
        PerformedSince(from, at, n, c);
      }
      LeaveGate(n, from, c);
      if ok {
        TicketIsGood(id, bearer);
        return Ticket(id, bearer);
      }
      return Denied;
    }

    /** The configured version is read inside the gate. */
    method ReadVersion(n: nat) returns (version: string)
      requires d.Valid() && n in d.requests && d.requests[n].Holding? && d.requests[n].r.CreateRequest?
      modifies d
      ensures d.Valid() && n in d.requests && d.requests[n] == HoldingVersion(old(d.requests[n].r), version)
      ensures version == old(d.host.image.version) && d.visible == old(d.visible)
      ensures old(d.events) <= d.events && old(d.worlds) <= d.worlds
    {
      hide Daemon.Valid, NextVisible, NextDurable, NextHost, EngineMay, MayBegin, Settled, Goal, Acknowledged,
           HasActive, RequestMay, WatchMay, AfterSnapshot;
      version := d.host.image.version;
      d.Take(System.Event.ReadVersion(n));
    }

    /** The handler returns early. */
    method Abandon(n: nat)
      requires d.Valid() && n in d.requests && Gated(d.requests[n]) && !d.requests[n].Leaving?
      modifies d
      ensures d.Valid() && n in d.requests && d.requests[n].Leaving?
      ensures old(d.events) <= d.events && old(d.worlds) <= d.worlds
    {
      hide Daemon.Valid, NextVisible, NextDurable, NextHost, EngineMay, MayBegin, Settled, Goal, Acknowledged,
           HasActive, RequestMay, WatchMay, AfterSnapshot;
      d.Take(GiveUp(n));
    }

    /** setDesiredState and startJobOperation: the gate, one transaction, and the way out. */
    method ChangeInGate(n: nat, r: Request, c: Command) returns (reply: Reply)
      requires d.Valid() && n !in d.requests
      requires (r.DesiredRequest? && c == SetDesired(r.desired)) ||
               (r.RestartRequest? && c == RestartJob(r.id, r.token))
      modifies d
      ensures d.Valid() && (reply.Blocked? <==> n in d.requests) && !reply.Ticket?
      ensures old(d.events) <= d.events && old(d.worlds) <= d.worlds
      ensures reply.Done? ==> Performed(old(|d.events|), n, c)
      ensures d.alone && d.reliable ==>
                var s := old(d.visible);
                if r.RestartRequest? && !Screened(s, r.id, r.token) then reply == Denied
                else if old(d.gate.lock) != None then reply == Blocked
                else reply == if ChangeIsDue(s, c) then Done else Denied
    {
      hide Daemon.Valid, StateValid, Accepted, Enabled, Step, ApiEffect, Issued, Inv, ChangeIsDue, HasActive,
           TokenAllowed, RestartOffered;
      if r.RestartRequest? {
        ScreenIsExact(d.visible, r.id, r.token);
      }
      var goesOn := Look(n, r);
      if !goesOn {
        return Denied;
      }
      var entered := EnterGate(n);
      if !entered {
        return Blocked;
      }
      ghost var at := |d.events|;
      reply := ChangeInside(n, c);
      if reply.Done? {
        PerformedSince(old(|d.events|), at, n, c);
      }
    }

    /** The transaction inside the gate, and the way out. */
    method ChangeInside(n: nat, c: Command) returns (reply: Reply)
      requires d.Valid() && n in d.requests && d.requests[n].Holding? && RequestMay(d.requests[n], c)
      requires c.RestartJob? || c.SetDesired?
      modifies d
      ensures d.Valid() && n !in d.requests && (reply == Done || reply == Denied)
      ensures old(d.events) <= d.events && old(d.worlds) <= d.worlds
      ensures reply == Done ==> Performed(old(|d.events|), n, c)
      ensures d.alone && d.reliable ==> reply == if ChangeIsDue(old(d.visible), c) then Done else Denied
    {
      hide Daemon.Valid, StateValid, Accepted, Enabled, Step, ApiEffect, Issued, Inv, ChangeIsDue, RequestMay;
      Pause(n);
      d.Reachable();
      ValidInInv(d.x, d.Now());
      ChangeIsAccepted(d.x, d.visible, c);
      ghost var at := |d.events|;
      var ok := Commit(n, c);
      if ok {
        PerformedSince(old(|d.events|), at, n, c);
      }
      LeaveGate(n, old(|d.events|), c);
      reply := if ok then Done else Denied;
    }
  }

  /** The record, the host and the gate are as before. */
  predicate SameGround(w: World, w': World) {
    w'.visible == w.visible && w'.durable == w.durable && w'.host == w.host && w'.gate == w.gate
  }

  /** The job the key is for, if it has the requested target. */
  function KeyedJob(s: RuntimeState, key: string, target: string): Option<string> {
    if key in s.idempotency && s.idempotency[key] in s.jobs && s.jobs[s.idempotency[key]].spec.targetVersion == target
    then Some(s.idempotency[key]) else None
  }

  lemma RotationAccepted(x: Externals, s: RuntimeState, key: string, target: string, bearer: string)
    requires StateValid(x, s)
    ensures Accepted(x, s, FromApi(Command.RotateTicket(key, target, bearer))) <==>
            KeyedJob(s, key, target).Some? && HexDigest(bearer)
  {
    hide StateValid, HexDigest, Rotated;
    RotationIsExact(x, s, key, target, bearer);
  }

  /** The first look lets a restart pass: the token is on record, and the job failed with the service down. */
  predicate Screened(s: RuntimeState, id: string, token: Option<string>) {
    OnRecord(s, id, token) && s.jobs[id].run.status == Failed && !s.jobs[id].run.available
  }

  lemma ScreenIsExact(s: RuntimeState, id: string, token: Option<string>)
    ensures AfterSnapshot(s, RestartRequest(id, token)) ==
            if Screened(s, id, token) then Some(Entering(RestartRequest(id, token))) else None
  {
  }

  /** A job can be restarted with a token on record; the desired state can be set while no job is active. */
  predicate ChangeIsDue(s: RuntimeState, c: Command) {
    match c
    case RestartJob(id, token) => OnRecord(s, id, token) && CanRestart(s, id)
    case SetDesired(desired) => !HasActive(s) && desired != Upgrading && !desired.InvalidDesired?
    case _ => false
  }

  lemma ChangeIsAccepted(x: Externals, s: RuntimeState, c: Command)
    requires StateValid(x, s) && (c.RestartJob? || c.SetDesired?)
    ensures Accepted(x, s, FromApi(c)) <==> ChangeIsDue(s, c)
  {
    hide StateValid, HasActive, Restartable, Suppressed;
    if c.SetDesired? {
      ValidDesired(x, s, c.desired);
      if !c.desired.InvalidDesired? {
        DesiredAcceptedIffIdle(x, s, c.desired);
      }
    } else if c.id in s.jobs && TokenAllowed(s.jobs[c.id], c.token) && RestartOffered(s.jobs[c.id]) {
      RestartAcceptedIffIdle(x, s, c.id, c.token);
    }
  }

  lemma ValidDesired(x: Externals, s: RuntimeState, desired: DesiredState)
    ensures Accepted(x, s, FromApi(SetDesired(desired))) ==> !desired.InvalidDesired?
  {
    hide DiscoveryValid, PlanValid, JobValid, HasActive, AtMostOneActive, WatchdogValid;
  }

  lemma KeptToken(x: Externals, w: World, id: string, bearer: string)
    requires Inv(x, w) && (id, bearer) in w.issued
    ensures id in w.durable.jobs && bearer in w.durable.jobs[id].bearers
    ensures id in w.visible.jobs && bearer in w.visible.jobs[id].bearers
  {
    hide StateValid, RecordTracks;
    assert (id, bearer).0 == id && (id, bearer).1 == bearer;
    assert SameJob(w.durable.jobs[id], w.visible.jobs[id]);
  }

  lemma CreationIsNext(pc: RequestPc, c: Command)
    requires pc.HoldingVersion? && pc.r.CreateRequest? && c.CreateJob?
    requires c.key == pc.r.key && c.target == pc.r.target && c.current == pc.version && OlderText(pc.version, c.target)
    ensures RequestMay(pc, c)
  {
    hide OlderText;
  }

  lemma IssuedByCreation(s: RuntimeState, c: Command)
    requires c.CreateJob?
    ensures (if c.key in s.idempotency then s.idempotency[c.key] else c.newId, c.bearer) in Issued(s, c)
  {
  }
}
