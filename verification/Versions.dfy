/**
  The version a job is created for. It is read inside the gate, before the transaction,
  and while it is read a job may still be running: this module says exactly when the new
  job starts from a version that is no longer configured, and what becomes of it then.
 */
module Versions {
  import opened Wrappers
  import opened Text
  import opened Release
  import opened State
  import opened Changes
  import opened Ledger
  import opened System
  import opened Safety
  import opened Images
  import opened Runs
  import opened Races

  /* ---------- The read ---------- */

  /** The request has read the configured version and not yet used it. */
  predicate HoldsVersion(w: World, n: nat, version: string) {
    n in w.requests && w.requests[n].HoldingVersion? && w.requests[n].version == version
  }

  /** From its read at event `i` until state `k` the request holds the version it read; nothing crashes. */
  ghost predicate HeldSince(worlds: seq<World>, events: seq<Event>, i: nat, k: nat, n: nat, version: string) {
    && i < k < |worlds| && k <= |events| && events[i] == ReadVersion(n)
    && version == worlds[i].host.image.version
    && (forall j :: i < j <= k ==> HoldsVersion(worlds[j], n, version))
    && NoCrash(events, i, k)
  }

  predicate NoCrash(events: seq<Event>, i: nat, k: nat) {
    forall j :: i <= j < k && j < |events| ==> !events[j].Crash?
  }

  lemma HoldingComesFromRead(x: Externals, w: World, e: Event, n: nat, version: string)
    requires Enabled(w, e) && HoldsVersion(Step(x, w, e), n, version)
    ensures !e.Crash?
    ensures (e == ReadVersion(n) && version == w.host.image.version) || HoldsVersion(w, n, version)
  {
    hide NextVisible, NextDurable, NextHost, EngineMay, MayBegin, Settled, Goal, Acknowledged, WatchMay,
         RecoveryImage, Issued, HasActive, RepairDue, TokenAllowed, RestartOffered;
  }

  /** A version a request holds was configured when the request read it. */
  lemma {:induction false} VersionWasRead(
      x: Externals, worlds: seq<World>, events: seq<Event>, k: nat, n: nat, version: string)
    returns (i: nat)
    requires IsRun(x, worlds, events) && k < |worlds| && HoldsVersion(worlds[k], n, version)
    ensures HeldSince(worlds, events, i, k, n, version)
  {
    hide StateValid, Step, Enabled, Inv;
    assert k > 0;
    assert StepAt(x, worlds, events, k - 1);
    HoldingComesFromRead(x, worlds[k - 1], events[k - 1], n, version);
    if events[k - 1] == ReadVersion(n) && version == worlds[k - 1].host.image.version {
      i := k - 1;
    } else {
      i := VersionWasRead(x, worlds, events, k - 1, n, version);
    }
  }

  /* ---------- A read while no job is active ---------- */

  /** While a request stands inside the gate and no job is active, nobody changes the image or makes a job active. */
  lemma QuietStep(x: Externals, w: World, e: Event, n: nat, version: string)
    requires Inv(x, w) && Enabled(w, e) && !HasActive(w.visible)
    requires HoldsVersion(w, n, version) && HoldsVersion(Step(x, w, e), n, version)
    ensures Step(x, w, e).host.image == w.host.image && !HasActive(Step(x, w, e).visible)
  {
    hide StateValid, Extends, RecordTracks, TokensKept, RestoresBounded, Step, EngineMay, IsActive, ApiEffect,
         WatchdogEffect, RequestMay, WatchMay, Goal, MayBegin, AfterSnapshot, HasActive;
    StepRecord(x, w, e);
    HoldingComesFromRead(x, w, e, n, version);
    if e.EngineWrite? {
      EngineMayOnActive(w, e.id, e.edit);
      ActiveIsActive(w.visible, e.id);
      assert false;
    } else if e.RequestWrite? {
      AloneInside(x, w, e, n, version);
      NextHostImages(x, w, ChangeOf(e), OutcomeOf(e));
      if Accepted(x, w.visible, FromApi(e.c)) {
        RotationStaysQuiet(x, w.visible, e.c);
      }
    } else if e.WatchWrite? {
      SameActives(w.visible, WatchdogEffect(w.visible, e.watch));
    } else if EngineEvent(e) {
      QuietHost(x, w, e);
    }
  }

  lemma ActiveIsActive(s: RuntimeState, id: string)
    requires IsActive(s, id)
    ensures HasActive(s)
  {
  }

  /** Any other request that writes stands outside the gate and only hands out tokens. */
  lemma AloneInside(x: Externals, w: World, e: Event, n: nat, version: string)
    requires GateHeld(w) && Enabled(w, e) && e.RequestWrite?
    requires HoldsVersion(w, n, version) && HoldsVersion(Step(x, w, e), n, version)
    ensures e.c.RotateTicket?
  {
    hide NextVisible, NextDurable, NextHost, Acknowledged, Issued, OlderText;
  }

  lemma RotationStaysQuiet(x: Externals, s: RuntimeState, c: Command)
    requires StateValid(x, s) && c.RotateTicket? && ApiEffect(s, c).Ok? && !HasActive(s)
    ensures !HasActive(ApiEffect(s, c).value)
  {
    hide StateValid, WellKeyed, Rotated, IsActive;
    ValidIsWellKeyed(x, s);
    var t := ApiEffect(s, c).value;
    forall id | id in t.jobs ensures !IsActive(t, id) {
      SameRunActive(s, t, id);
    }
  }

  /** Only an active job changes the image. */
  lemma QuietHost(x: Externals, w: World, e: Event)
    requires Enabled(w, e) && EngineEvent(e) && !e.EngineWrite? && !HasActive(w.visible)
    ensures Step(x, w, e).host.image == w.host.image
  {
    hide Goal, RecoveryImage, NextVisible, NextDurable, NextHost, AfterSnapshot, RequestMay, WatchMay, MayBegin,
         EngineMay, CountUp, WatchAfter, Issued, Acknowledged, RepairDue, HasActive;
    if w.engine.Operating? && IsActive(w.visible, w.engine.id) {
      ActiveIsActive(w.visible, w.engine.id);
      assert false;
    }
  }

  /** When no job is active at the read, the version read stays the configured one. */
  lemma {:induction false} IdleReadsStayCurrent(
      x: Externals, worlds: seq<World>, events: seq<Event>, i: nat, k: nat, n: nat, version: string)
    requires IsRun(x, worlds, events) && HeldSince(worlds, events, i, k, n, version)
    requires !HasActive(worlds[i].visible)
    ensures worlds[k].host.image == worlds[i].host.image && !HasActive(worlds[k].visible)
    decreases k
  {
    hide StateValid, Step, Enabled, Inv, HasActive;
    RunStep(x, worlds, events, k - 1);
    if k == i + 1 {
      ReadChangesNothing(x, worlds[i], n);
    } else {
      IdleReadsStayCurrent(x, worlds, events, i, k - 1, n, version);
      RunKeepsInv(x, worlds, events, k - 1);
      QuietStep(x, worlds[k - 1], events[k - 1], n, version);
    }
  }

  lemma ReadChangesNothing(x: Externals, w: World, n: nat)
    requires Enabled(w, ReadVersion(n))
    ensures Step(x, w, ReadVersion(n)).host == w.host && Step(x, w, ReadVersion(n)).visible == w.visible
  {
    hide Goal, MayBegin, Settled;
  }

  /* ---------- The creation ---------- */

  /** An accepted creation makes an active job for the version its request read. */
  lemma CreatedForVersionRead(x: Externals, w: World, n: nat, c: Command)
    requires StateValid(x, w.visible) && n in w.requests && RequestMay(w.requests[n], c) && c.CreateJob?
    requires c.key !in w.visible.idempotency && Accepted(x, w.visible, FromApi(c))
    ensures HoldsVersion(w, n, c.current) && c.newId !in w.visible.jobs
    ensures var t := Effect(w.visible, FromApi(c)).value;
            && c.newId in t.jobs && t.idempotency[c.key] == c.newId && IsActive(t, c.newId)
            && t.jobs[c.newId].run.status == Queued
            && OlderText(t.jobs[c.newId].run.currentVersion, t.jobs[c.newId].spec.targetVersion)
            && t.jobs[c.newId].run.currentVersion == c.current
  {
    hide StateValid, OlderText;
    CreationIsNew(x, w.visible, c);
  }

  /** The job is still preparing, for a version that is not configured. */
  predicate StaleRun(h: Host, r: JobRun) {
    (r.status == Queued || Preparing(r.status)) && r.currentVersion != h.image.version
  }

  predicate Stale(w: World, id: string)
    requires id in w.visible.jobs
  {
    StaleRun(w.host, w.visible.jobs[id].run)
  }

  /**
    A job starts from the version that was configured when its request read it. It is stale
    from the start if and only if the configured version changed between that read and the
    job's creation, and it never is when no job was active at the read.
   */
  lemma JobsStartFromTheVersionRead(
      x: Externals, worlds: seq<World>, events: seq<Event>, k: nat, n: nat, c: Command, o: Outcome) returns (i: nat)
    requires IsRun(x, worlds, events) && k < |events| && events[k] == RequestWrite(n, c, o) && c.CreateJob? && o != Lost
    requires |worlds| == |events| + 1 && c.key !in worlds[k].visible.idempotency
    requires Accepted(x, worlds[k].visible, FromApi(c))
    ensures HeldSince(worlds, events, i, k, n, c.current)
    ensures c.newId !in worlds[k].visible.jobs && c.newId in worlds[k + 1].visible.jobs
    ensures worlds[k + 1].visible.jobs[c.newId].run.currentVersion == worlds[i].host.image.version
    ensures Stale(worlds[k + 1], c.newId) <==> worlds[k].host.image.version != worlds[i].host.image.version
    ensures !HasActive(worlds[i].visible) ==>
              !Stale(worlds[k + 1], c.newId) && worlds[k].host.image == worlds[i].host.image
  {
    hide IsRun, Inv, StateValid, Step, HasActive, OlderText, Effect, Accepted, NextHost;
    RunStep(x, worlds, events, k);
    RunKeepsInv(x, worlds, events, k);
    ValidInInv(x, worlds[k]);
    WritesMay(worlds[k], events[k]);
    CreatedForVersionRead(x, worlds[k], n, c);
    i := VersionWasRead(x, worlds, events, k, n, c.current);
    StepRecord(x, worlds[k], events[k]);
    NextHostImages(x, worlds[k], FromApi(c), o);
    if !HasActive(worlds[i].visible) {
      IdleReadsStayCurrent(x, worlds, events, i, k, n, c.current);
    }
  }

  lemma WritesMay(w: World, e: Event)
    requires Enabled(w, e) && e.RequestWrite?
    ensures e.n in w.requests && RequestMay(w.requests[e.n], e.c)
  {
    hide RequestMay;
  }

  /* ---------- What becomes of a stale job ---------- */

  /** A crash leaves the image as it is and the job, if it leaves it at all, as stale. */
  predicate StaleOnDisk(w: World, id: string) {
    Configured(w.host, w.host.image) && (id in w.durable.jobs ==> StaleRun(w.host, w.durable.jobs[id].run))
  }

  /** No step of any thread takes a stale job past its preparation or changes the image. */
  lemma StaleStep(x: Externals, w: World, e: Event, id: string)
    requires Inv(x, w) && Enabled(w, e) && !e.Crash? && id in w.visible.jobs && Stale(w, id)
    ensures var w' := Step(x, w, e);
            && w'.host.image == w.host.image && w'.host.kept == w.host.kept && id in w'.visible.jobs
            && (Stale(w', id) || w'.visible.jobs[id].run.status == Failed)
            && (w'.durable == w.durable || w'.durable == w'.visible)
  {
    hide StateValid, Extends, RecordTracks, TokensKept, GateHeld, RestoresBounded, Step, Accepted, EngineMay, NextHost;
    StepRecord(x, w, e);
    StaleIsActive(w, id);
    InvGivesRecordInv(x, w);
    if Writes(e) {
      NextHostImages(x, w, ChangeOf(e), OutcomeOf(e));
    }
    if e.EngineWrite? {
      EngineMayOnActive(w, e.id, e.edit);
      OnlyActive(x, w.visible, id);
      StillThere(w.visible, e.id);
      EditedJob(w.visible, id, e.edit);
      StaleEdit(w, id, e.edit);
    } else if EngineEvent(e) {
      OnlyActive(x, w.visible, id);
      StaleHost(x, w, e, id);
    } else {
      OthersLeaveJobAlone(x, w, e, id);
    }
  }

  lemma StaleIsActive(w: World, id: string)
    requires id in w.visible.jobs && Stale(w, id)
    ensures IsActive(w.visible, id)
  {
  }

  lemma StaleEdit(w: World, id: string, e: JobEdit)
    requires id in w.visible.jobs && Stale(w, id) && EngineMay(w, id, e)
    ensures var r' := Edited(w, id, e);
            r'.status == Failed ||
              ((r'.status == Queued || Preparing(r'.status)) &&
               r'.currentVersion == w.visible.jobs[id].run.currentVersion)
  {
    hide MetadataShapeValid, Target;
  }

  lemma StaleHost(x: Externals, w: World, e: Event, id: string)
    requires id in w.visible.jobs && Stale(w, id) && Enabled(w, e) && EngineEvent(e) && !e.EngineWrite?
    requires forall other :: other in w.visible.jobs && IsActive(w.visible, other) ==> other == id
    ensures Step(x, w, e).host.image == w.host.image && Step(x, w, e).host.kept == w.host.kept
  {
    hide Goal, RecoveryImage, NextVisible, NextDurable, NextHost, WatchAfter, AfterSnapshot, RequestMay, WatchMay,
         Issued, Acknowledged, EngineMay, CountUp, MayBegin, HasActive, RepairDue, Answers, Configure;
  }

  /** A crash can lose a stale job that was not saved, or take it back to an earlier moment of its preparation. */
  lemma StaleCrash(x: Externals, w: World, e: Event, id: string)
    requires Enabled(w, e) && e.Crash? && id in w.visible.jobs && Stale(w, id) && StaleOnDisk(w, id)
    ensures var w' := Step(x, w, e);
            && w'.host.image == w.host.image
            && (id in w'.visible.jobs ==> Stale(w', id) && StaleOnDisk(w', id))
  {
    CrashStep(x, w, e);
  }

  /**
    Until it first fails, or is lost in a crash, a stale job is never anything but stale,
    and the configured image stays what it is: across crashes too, when the image and the
    job's staleness are on disk.
   */
  lemma {:induction false} StaleJobsOnlyFail(
      x: Externals, worlds: seq<World>, events: seq<Event>, i: nat, k: nat, id: string)
    requires IsRun(x, worlds, events) && i <= k < |worlds| && id in worlds[i].visible.jobs && Stale(worlds[i], id)
    requires NoCrash(events, i, k) || StaleOnDisk(worlds[i], id)
    requires forall j :: i <= j < k ==> id in worlds[j].visible.jobs && worlds[j].visible.jobs[id].run.status != Failed
    ensures worlds[k].host.image == worlds[i].host.image
    ensures NoCrash(events, i, k) ==> id in worlds[k].visible.jobs
    ensures id in worlds[k].visible.jobs ==>
              || worlds[k].visible.jobs[id].run.status == Failed
              || (Stale(worlds[k], id) && (StaleOnDisk(worlds[i], id) ==> StaleOnDisk(worlds[k], id)))
    decreases k
  {
    hide IsRun, Inv, StaleRun, Step, Enabled, StateValid, Configured;
    if i < k {
      RunIsLong(x, worlds, events);
      var w, e := worlds[k - 1], events[k - 1];
      StaleJobsOnlyFail(x, worlds, events, i, k - 1, id);
      RunStep(x, worlds, events, k - 1);
      RunKeepsInv(x, worlds, events, k - 1);
      if e.Crash? {
        StaleCrash(x, w, e, id);
      } else {
        StaleStep(x, w, e, id);
        if StaleOnDisk(w, id) && Stale(worlds[k], id) {
          StaleStaysOnDisk(w, worlds[k], id);
        }
      }
    }
  }

  lemma StaleStaysOnDisk(w: World, w': World, id: string)
    requires StaleOnDisk(w, id) && id in w'.visible.jobs && Stale(w', id)
    requires w'.host.image == w.host.image && w'.host.kept == w.host.kept
    requires w'.durable == w.durable || w'.durable == w'.visible
    ensures StaleOnDisk(w', id)
  {
  }
}
