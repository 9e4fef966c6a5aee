/**
  Where a job's progress can go: forward through its phases and hops, on disk and in
  memory, whatever is resumed or repeated.
 */
module Progression {
  import opened Wrappers
  import opened Text
  import opened Release
  import opened State
  import opened Changes
  import opened Ledger
  import opened System
  import opened Safety
  import opened Runs

  /** How far a job has come, in steps; everything after the upgrade phases comes last. */
  function Stage(j: Job): int {
    if j.run.status == Queued || Rank(j.run.status) >= 0
    then STEPS_PER_HOP * j.run.currentHop + if j.run.status == Queued then 0 else Rank(j.run.status)
    else STEPS_PER_HOP * j.spec.totalHops
  }

  ghost predicate NoJobBehind(s: RuntimeState, t: RuntimeState) {
    forall id :: id in s.jobs ==> id in t.jobs && Stage(s.jobs[id]) <= Stage(t.jobs[id])
  }

  lemma EditMovesForward(plans: map<string, Plan>, h: Host, goal: ImageRef, j: Job, e: JobEdit)
    requires ExecutionValid(j.spec, j.run) && MayEdit(h, goal, j, e)
    requires var r' := JobEffect(plans, j.spec, j.run, e); ExecutionValid(j.spec, r')
    ensures Stage(j) <= Stage(j.(run := JobEffect(plans, j.spec, j.run, e)))
  {
    hide MetadataShapeValid, FreshRecovery, CompletedHop;
  }

  lemma ProgressMovesForward(j: Job, op: HostOp, next: JobStatus, written: bool)
    requires ExecutionValid(j.spec, j.run) && MayProgress(op, j.run, next, written)
    ensures Stage(j) <= Stage(j.(run := Progressed(j.run, next)))
  {
    hide MetadataShapeValid;
  }

  lemma EngineMovesForward(x: Externals, w: World, id: string, e: JobEdit)
    requires StateValid(x, w.visible) && EngineMay(w, id, e) && Accepted(x, w.visible, OnJob(id, e))
    ensures NoJobBehind(w.visible, Effect(w.visible, OnJob(id, e)).value)
  {
    hide StateValid, EngineEffect, ExecutionValid, MayEdit, MayProgress, JobEffect, Progressed, Goal, Stage;
    var s, j := w.visible, w.visible.jobs[id];
    var t := EngineEffect(s, id, e).value;
    ValidExecution(x, s, id);
    ValidExecution(x, t, id);
    EditedJob(s, id, e);
    if e.Progress? {
      ProgressEffect(s.plans, j, e.next);
      ProgressMovesForward(j, w.engine.op, e.next, Configured(w.host, Goal(s, j)));
    } else {
      EditMovesForward(s.plans, w.host, Goal(s, j), j, e);
    }
    forall other | other in s.jobs ensures other in t.jobs && Stage(s.jobs[other]) <= Stage(t.jobs[other]) {
      if other != id {
        SameStage(s.jobs[other], t.jobs[other]);
      }
    }
  }

  lemma SameStage(a: Job, b: Job)
    requires a.spec == b.spec && a.run.status == b.run.status && a.run.currentHop == b.run.currentHop
    ensures Stage(a) == Stage(b)
  {
  }

  lemma CommandMovesForward(x: Externals, s: RuntimeState, c: Command)
    requires StateValid(x, s) && ApiEffect(s, c).Ok? && StateValid(x, ApiEffect(s, c).value)
    ensures NoJobBehind(s, ApiEffect(s, c).value)
  {
    hide StateValid, WellKeyed, Rotated, HasActive, Suppressed, TokenAllowed, NewJob;
    ValidIsWellKeyed(x, s);
    if c.CreateJob? && c.key !in s.idempotency {
      CreationIsNew(x, s, c);
    }
  }

  lemma WriteMovesForward(x: Externals, w: World, c: Change, o: Outcome)
    requires StateValid(x, w.visible) && (c.OnJob? ==> EngineMay(w, c.id, c.edit))
    ensures NoJobBehind(w.visible, NextVisible(x, w, c, o))
  {
    hide StateValid, EngineEffect, ApiEffect, WatchdogEffect, EngineMay;
    if Accepted(x, w.visible, c) {
      match c {
        case OnJob(id, edit) => EngineMovesForward(x, w, id, edit);
        case OnWatchdog(_) =>
        case FromApi(command) => CommandMovesForward(x, w.visible, command);
      }
    }
  }

  /** The durable record never falls behind, and the visible one is never behind the durable one. */
  lemma StepMovesForward(x: Externals, w: World, e: Event)
    requires RecordInv(x, w) && Enabled(w, e) && NoJobBehind(w.durable, w.visible)
    ensures NoJobBehind(w.durable, Step(x, w, e).durable)
    ensures NoJobBehind(Step(x, w, e).durable, Step(x, w, e).visible)
  {
    hide StateValid, Extends, RecordTracks, RestoresBounded, Step, EngineMay, Settled, MayBegin, WatchMay, RequestMay,
         Stage, Effect;
    StepRecord(x, w, e);
    if Writes(e) {
      WriteMovesForward(x, w, ChangeOf(e), OutcomeOf(e));
    } else if e.Crash? {
      CrashStep(x, w, e);
    }
  }

  lemma {:induction false} VisibleNotBehind(x: Externals, worlds: seq<World>, events: seq<Event>, k: nat)
    requires IsRun(x, worlds, events) && k < |worlds|
    ensures NoJobBehind(worlds[k].durable, worlds[k].visible)
  {
    hide StateValid, Step, Enabled, Stage, RecordInv;
    if k > 0 {
      VisibleNotBehind(x, worlds, events, k - 1);
      RunKeepsInv(x, worlds, events, k - 1);
      assert StepAt(x, worlds, events, k - 1);
      InvGivesRecordInv(x, worlds[k - 1]);
      StepMovesForward(x, worlds[k - 1], events[k - 1]);
    }
  }

  lemma {:induction false} DurableMovesForward(x: Externals, worlds: seq<World>, events: seq<Event>, i: nat, j: nat)
    requires IsRun(x, worlds, events) && i <= j < |worlds|
    ensures NoJobBehind(worlds[i].durable, worlds[j].durable)
    decreases j - i
  {
    hide StateValid, Step, Enabled, Stage, RecordInv, Initial, Inv;
    if i < j {
      DurableMovesForward(x, worlds, events, i, j - 1);
      VisibleNotBehind(x, worlds, events, j - 1);
      RunKeepsInv(x, worlds, events, j - 1);
      assert StepAt(x, worlds, events, j - 1);
      InvGivesRecordInv(x, worlds[j - 1]);
      StepMovesForward(x, worlds[j - 1], events[j - 1]);
    }
  }

  /**
    The completed steps on disk never decrease while the job stays in its upgrade phases,
    although every resumed activation reports its earlier phases again.
   */
  lemma CompletedStepsNeverDecrease(
      x: Externals, worlds: seq<World>, events: seq<Event>, i: nat, j: nat, id: string)
    requires IsRun(x, worlds, events) && i <= j < |worlds|
    requires id in worlds[i].durable.jobs && id in worlds[j].durable.jobs
    requires Rank(worlds[i].durable.jobs[id].run.status) >= 0 && Rank(worlds[j].durable.jobs[id].run.status) >= 0
    ensures worlds[i].durable.jobs[id].run.completedSteps <= worlds[j].durable.jobs[id].run.completedSteps
  {
    hide IsRun;
    DurableMovesForward(x, worlds, events, i, j);
    StepsFollowPhase(x, worlds, events, i, true, id);
    StepsFollowPhase(x, worlds, events, j, true, id);
  }
}
