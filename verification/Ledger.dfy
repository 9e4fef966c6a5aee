/**
  The durable record as a ledger: jobs and idempotency keys are only ever added, and a
  job keeps its identity, its target and every token it was given.
 */
module Ledger {
  import opened Wrappers
  import opened Text
  import opened Release
  import opened State
  import opened Changes

  predicate Extends(s: RuntimeState, t: RuntimeState) {
    && s.plans == t.plans
    && (forall id :: id in s.jobs ==> id in t.jobs && SameJob(s.jobs[id], t.jobs[id]))
    && (forall key :: key in s.idempotency ==> key in t.idempotency && t.idempotency[key] == s.idempotency[key])
  }

  lemma ExtendsTransitive(s: RuntimeState, t: RuntimeState, u: RuntimeState)
    requires Extends(s, t) && Extends(t, u)
    ensures Extends(s, u)
  {
    forall id | id in s.jobs ensures id in u.jobs && SameJob(s.jobs[id], u.jobs[id]) {
      assert SameJob(s.jobs[id], t.jobs[id]) && SameJob(t.jobs[id], u.jobs[id]);
    }
  }

  lemma ValidIsWellKeyed(x: Externals, s: RuntimeState)
    requires StateValid(x, s)
    ensures WellKeyed(s)
  {
    forall id | id in s.jobs
      ensures s.jobs[id].spec.id == id && s.jobs[id].spec.key in s.idempotency &&
              s.idempotency[s.jobs[id].spec.key] == id
    {
      assert JobValid(s.plans, s.idempotency, id, s.jobs[id]);
    }
  }

  lemma RotationExtends(s: RuntimeState, key: string, target: string, bearer: string)
    requires WellKeyed(s) && Rotated(s, key, target, bearer).Ok?
    ensures Extends(s, Rotated(s, key, target, bearer).value)
  {
    hide Rotated;
  }

  lemma CreationExtends(s: RuntimeState, t: RuntimeState, id: string, j: Job)
    requires WellKeyed(s) && WellKeyed(t) && j.spec.key !in s.idempotency
    requires t == s.(jobs := s.jobs[id := j], idempotency := s.idempotency[j.spec.key := id],
                     desired := t.desired, watchdog := t.watchdog)
    ensures id !in s.jobs && Extends(s, t)
  {
    forall key | key in s.idempotency
      ensures key in t.idempotency && t.jobs[t.idempotency[key]].spec.key == key
    {
    }
  }

  lemma ApiChangeExtends(s: RuntimeState, c: Command)
    requires WellKeyed(s) && ApiEffect(s, c).Ok? && WellKeyed(ApiEffect(s, c).value)
    ensures Extends(s, ApiEffect(s, c).value)
  {
    hide Rotated, WellKeyed, HasActive, Suppressed, TokenAllowed, RestartOffered;
    match c {
      case SetDesired(_) =>
      case RotateTicket(key, target, bearer) => RotationExtends(s, key, target, bearer);
      case CreateJob(key, target, current, newId, bearer) =>
        if key in s.idempotency {
          RotationExtends(s, key, target, bearer);
        } else {
          CreationExtends(s, ApiEffect(s, c).value, newId, NewJob(key, target, current, newId, bearer));
        }
      case RestartJob(id, token) =>
    }
  }

  /**
    No transaction the store accepts loses a job, a key or a token, or rebinds one. A new
    job whose random id collides with an existing job is refused by validation, because
    the old key would no longer name its job.
   */
  lemma AcceptedChangeExtends(x: Externals, s: RuntimeState, c: Change)
    requires StateValid(x, s) && Effect(s, c).Ok? && StateValid(x, Effect(s, c).value)
    ensures Extends(s, Effect(s, c).value)
  {
    hide StateValid, WellKeyed, EngineEffect, WatchdogEffect, ApiEffect;
    ValidIsWellKeyed(x, s);
    ValidIsWellKeyed(x, Effect(s, c).value);
    match c {
      case OnJob(_, _) =>
      case OnWatchdog(_) =>
      case FromApi(command) => ApiChangeExtends(s, command);
    }
  }

  /** A colliding job id never reaches the durable record. */
  lemma CollidingJobIdIsRefused(x: Externals, s: RuntimeState, c: Command)
    requires StateValid(x, s) && c.CreateJob? && c.key !in s.idempotency && c.newId in s.jobs
    ensures ApiEffect(s, c).Ok? ==> !StateValid(x, ApiEffect(s, c).value)
  {
    hide StateValid, WellKeyed, Rotated, HasActive, Suppressed;
    ValidIsWellKeyed(x, s);
    if ApiEffect(s, c).Ok? && StateValid(x, ApiEffect(s, c).value) {
      ValidIsWellKeyed(x, ApiEffect(s, c).value);
      CreationExtends(s, ApiEffect(s, c).value, c.newId, NewJob(c.key, c.target, c.current, c.newId, c.bearer));
      assert false;
    }
  }

  /** Replaying a request never creates a job, and neither does repeating a creation with a known key. */
  lemma ReplayCreatesNothing(x: Externals, s: RuntimeState, c: Command)
    requires StateValid(x, s) && ApiEffect(s, c).Ok?
    requires c.RotateTicket? || (c.CreateJob? && c.key in s.idempotency)
    ensures ApiEffect(s, c).value.jobs.Keys == s.jobs.Keys
    ensures ApiEffect(s, c).value == s.(jobs := ApiEffect(s, c).value.jobs)
  {
    hide StateValid, WellKeyed, Rotated, HasActive, Suppressed;
    ValidIsWellKeyed(x, s);
  }
}
