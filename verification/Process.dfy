/**
  The running daemon as an object: the state file, the host and the threads it shares them
  with. Every change it makes is an event of the system, so its history is a run.
 */
module Process {
  import opened Wrappers
  import opened Text
  import opened Release
  import opened State
  import opened Changes
  import opened Ledger
  import opened System
  import opened Safety
  import opened Runs
  import opened Acceptance

  class Daemon {
    const x: Externals
    /** No save or load fails. */
    const reliable: bool
    /** The thread at work is the only one; the others never act. */
    const alone: bool

    var visible: RuntimeState
    var durable: RuntimeState
    var host: Host
    var gate: Gate
    var engine: EnginePc
    var watch: WatchPc
    var requests: map<nat, RequestPc>
    var issued: set<(string, string)>
    var clock: Instant

    ghost var worlds: seq<World>
    ghost var events: seq<Event>

    function Now(): World
      reads this
    {
      World(visible, durable, host, gate, engine, watch, requests, issued, clock)
    }

    /** The daemon's history is a run that ends in its present state. */
    ghost predicate Valid()
      reads this
    {
      IsRun(x, worlds, events) && worlds[|worlds| - 1] == Now()
    }

    /** No unsynced image write was outstanding when the job came on record. */
    ghost predicate Sure(id: string)
      requires Valid()
      reads this
    {
      SureAtCreation(worlds, |worlds| - 1, id)
    }

    constructor (x: Externals, reliable: bool, alone: bool, w: World)
      requires Initial(x, w)
      ensures Valid() && Now() == w && this.x == x && this.reliable == reliable && this.alone == alone
    {
      this.x, this.reliable, this.alone := x, reliable, alone;
      visible, durable, host, gate, engine := w.visible, w.durable, w.host, w.gate, w.engine;
      watch, requests, issued, clock := w.watch, w.requests, w.issued, w.clock;
      worlds, events := [w], [];
    }

    /** Everything proved about runs holds of the daemon. */
    lemma Reachable()
      requires Valid()
      ensures Inv(x, Now())
    {
      hide Inv, Initial;
      RunKeepsInv(x, worlds, events, |worlds| - 1);
    }

    /** One event happens. */
    method Take(e: Event)
      requires Valid() && Enabled(Now(), e)
      modifies this
      ensures Valid() && Now() == Step(x, old(Now()), e)
      ensures worlds == old(worlds) + [Now()] && events == old(events) + [e]
    {
      hide Initial, Step, Enabled;
      var w := Step(x, Now(), e);
      visible, durable, host, gate, engine := w.visible, w.durable, w.host, w.gate, w.engine;
      watch, requests, issued, clock := w.watch, w.requests, w.issued, w.clock;
      RunExtends(x, worlds, events, e);
      worlds, events := worlds + [w], events + [e];
    }

    /** The other threads run for a while; the active job's progress and the host stay as they are. */
    method Others(id: string)
      requires Valid() && IsActive(visible, id)
      modifies this
      ensures Valid() && JobUntouched(old(Now()), Now(), id)
      ensures old(worlds) <= worlds && (alone ==> Now() == old(Now()))
    {
      hide Valid, Inv, Enabled, IsActive, IsRun, Settled;
      ghost var start := Now();
      StillThere(visible, id);
      var more: nat := *;
      if alone {
        more := 0;
      }
      while more > 0
        invariant alone ==> more == 0 && Now() == start
        invariant Valid() && IsActive(visible, id) && JobUntouched(start, Now(), id) && start == old(Now())
        invariant old(worlds) <= worlds
      {
        var e: Event := *;
        if Enabled(Now(), e) && !EngineEvent(e) && !e.Crash? {
          ghost var before := Now();
          Reachable();
          InvGivesRecordInv(x, before);
          OthersLeaveJobAlone(x, before, e, id);
          Take(e);
          UntouchedStaysActive(before, Now(), id);
        }
        more := more - 1;
      }
    }

    /** StateStore.Update for an engine transaction; an error leaves the old or the new record behind. */
    method Update(id: string, e: JobEdit) returns (ok: bool)
      requires Valid() && IsActive(visible, id) && EngineMay(Now(), id, e)
      modifies this
      ensures Valid() && old(worlds) <= worlds
      ensures var r := old(visible.jobs[id].run);
              var r' := JobEffect(old(visible.plans), old(visible.jobs[id].spec), r, e);
              && (ok ==> Advanced(old(Now()), Now(), id, r') && Settled(Now(), id))
              && engine == AfterEdit(old(engine), e, ok)
              && (ok ==> visible.desired == DesiredEffect(old(visible.desired), r, e))
              && (!ok ==> Advanced(old(Now()), Now(), id, r) || Advanced(old(Now()), Now(), id, r'))
              && (e.CountAttempt? && r.attempts == MAX_RECOVERY_ATTEMPTS ==> !ok && Advanced(old(Now()), Now(), id, r))
              && (reliable && !(e.CountAttempt? && r.attempts == MAX_RECOVERY_ATTEMPTS) ==> ok)
    {
      hide IsRun, Inv, EngineMay, Settled, JobEffect, Step, RecordInv, IsActive, Accepted, DesiredEffect;
      EngineMayOnActive(Now(), id, e);
      StillThere(visible, id);
      ghost var start := Now();
      Others(id);
      UntouchedMay(start, Now(), id, e);
      Reachable();
      InvGivesRecordInv(x, Now());
      EngineIsNeverRefused(x, Now(), id, e);
      var o: Outcome := *;
      if reliable {
        o := Saved;
      }
      ok := Acknowledged(x, Now(), OnJob(id, e), o);
      EngineWriteAdvances(x, Now(), id, e, o);
      Take(EngineWrite(id, e, o));
    }

    /** The engine turns to the active job. */
    method Pick(id: string)
      requires Valid() && engine == Resting && IsActive(visible, id)
      modifies this
      ensures Valid() && old(worlds) <= worlds
      ensures Now() == old(Now()).(engine := Between(id, Nothing))
    {
      hide IsRun, IsActive;
      Take(EngineLoad(id));
    }

    /** The engine lets go of its job until it is woken again. */
    method Rest()
      requires Valid() && engine.Between?
      modifies this
      ensures Valid() && old(worlds) <= worlds
      ensures Now() == old(Now()).(engine := Resting)
    {
      hide IsRun;
      Take(EngineRest);
    }

    /** A host operation begins; the job and the plans stay as they are. */
    method Begin(id: string, op: HostOp)
      requires Valid() && Held(engine, id) && IsActive(visible, id) && MayBegin(Now(), id, op)
      modifies this
      ensures Valid() && old(worlds) <= worlds && engine == Operating(id, op)
      ensures id in visible.jobs && SameJobAndPlans(old(Now()), Now(), id)
      ensures host == old(host).(restores := host.restores, restarts := host.restarts)
      ensures (op != RestoreOp ==> host.restores == old(host.restores)) &&
              (op != RestartOp ==> host.restarts == old(host.restarts))
    {
      hide IsRun, IsActive, MayBegin, Settled;
      ghost var start := Now();
      Others(id);
      UntouchedMayBegin(start, Now(), id, op);
      ghost var middle := Now();
      Take(EngineBegin(op));
      SettledIgnoresThreads(middle, Now(), id);
    }

    /** The host operation is over, with this answer. */
    method End(answer: Answer)
      requires Valid() && engine.Operating? && Answers(engine.op, answer)
      modifies this
      ensures Valid() && old(worlds) <= worlds
      ensures Now() == old(Now()).(engine := Between(old(engine.id), OpEnded(old(engine.op), answer)))
    {
      hide IsRun;
      Take(EngineEnd(answer));
    }

    /** An event that changes only the host, within an operation. */
    method OnHost(id: string, e: Event)
      requires Valid() && engine.Operating? && engine.id == id && IsActive(visible, id)
      requires e.WriteTarget? || e.WriteRecovery? || e.RotateBackup?
      requires Enabled(Now(), e)
      modifies this
      ensures Valid() && old(worlds) <= worlds && engine == old(engine)
      ensures id in visible.jobs && SameJobAndPlans(old(Now()), Now(), id)
      ensures host == Step(x, old(Now()), e).host
    {
      hide IsRun, IsActive, Settled;
      ghost var start := Now();
      Others(id);
      UntouchedHostEvent(x, start, Now(), id, e);
      ghost var middle := Now();
      Take(e);
      SettledIgnoresThreads(middle, Now(), id);
    }
  }

  /** The job has come to `r`; its spec, the plans and the host are as before. */
  predicate Advanced(w: World, w': World, id: string, r: JobRun) {
    && id in w.visible.jobs && id in w'.visible.jobs
    && w'.visible.jobs[id].spec == w.visible.jobs[id].spec && w'.visible.jobs[id].run == r
    && w'.visible.plans == w.visible.plans && w'.host == w.host
  }

  /** The job's progress and the plans are as before, and agreement with the disk is not lost. */
  predicate SameJobAndPlans(w: World, w': World, id: string) {
    && id in w.visible.jobs && id in w'.visible.jobs
    && w'.visible.jobs[id].spec == w.visible.jobs[id].spec && w'.visible.jobs[id].run == w.visible.jobs[id].run
    && w'.visible.plans == w.visible.plans
    && (Settled(w, id) ==> Settled(w', id))
  }

  lemma UntouchedMayBegin(w: World, w': World, id: string, op: HostOp)
    requires JobUntouched(w, w', id) && MayBegin(w, id, op)
    ensures MayBegin(w', id, op)
  {
    hide Settled;
  }

  lemma SettledIgnoresThreads(w: World, w': World, id: string)
    requires w'.visible == w.visible && w'.durable == w.durable
    ensures Settled(w, id) == Settled(w', id)
  {
  }

  lemma UntouchedHostEvent(x: Externals, w: World, w': World, id: string, e: Event)
    requires JobUntouched(w, w', id) && Enabled(w, e) && w.engine.Operating? && w.engine.id == id
    requires e.WriteTarget? || e.WriteRecovery? || e.RotateBackup?
    ensures Enabled(w', e) && Step(x, w', e).host == Step(x, w, e).host
    ensures Step(x, w', e) == w'.(host := Step(x, w', e).host)
  {
    hide Settled, Target;
  }

  lemma UntouchedMay(w: World, w': World, id: string, e: JobEdit)
    requires JobUntouched(w, w', id) && EngineMay(w, id, e)
    ensures EngineMay(w', id, e)
  {
    hide MayProgress, MetadataShapeValid, Target, Settled, RecoveryImage;
  }

  lemma EngineWriteAdvances(x: Externals, w: World, id: string, e: JobEdit, o: Outcome)
    requires Enabled(w, EngineWrite(id, e, o))
    ensures var w' := Step(x, w, EngineWrite(id, e, o));
            var r := w.visible.jobs[id].run;
            var r' := JobEffect(w.visible.plans, w.visible.jobs[id].spec, r, e);
            && Advanced(w, w', id, if Accepted(x, w.visible, OnJob(id, e)) && o != Lost then r' else r)
            && w'.engine == AfterEdit(w.engine, e, Acknowledged(x, w, OnJob(id, e), o))
            && (Acknowledged(x, w, OnJob(id, e), o) ==>
                  Settled(w', id) && w'.visible.desired == DesiredEffect(w.visible.desired, r, e))
  {
    hide StateValid, JobEffect, EngineEffect, EngineMay, MayEdit, MayProgress, DesiredEffect;
    assert EngineMay(w, id, e);
    EngineMayOnActive(w, id, e);
    StillThere(w.visible, id);
    EditedJob(w.visible, id, e);
    EditedRecord(w.visible, id, e);
  }

  lemma UntouchedStaysActive(w: World, w': World, id: string)
    requires JobUntouched(w, w', id)
    ensures IsActive(w.visible, id) == IsActive(w'.visible, id)
  {
  }
}
