/**
  How older state files become current ones: each schema's step as the code performs it in
  place, the function it computes, and what the whole migration keeps.
 */
module Migration {
  import opened Wrappers
  import opened Text
  import opened Release
  import opened State

  /* ---------- What each step does to the record ---------- */

  const NO_MANIFEST: Manifest := Manifest(0, "", "", "", [], 0, 0, "", "", false, false, "", "")
  /** What a lookup of an unknown plan yields. */
  const NO_PLAN: Plan := Plan(NO_MANIFEST, "", "", [], 0, "", "", "", 0, 0, false, 0)
  const NO_WATCHDOG: WatchdogState := WatchdogState(WatchUnknown, 0, [], 0, 0, 0, NoWatchError)

  /** The job's plan binds a source version and a manifest. */
  predicate Bound(plans: map<string, Plan>, j: Job) {
    && j.spec.planHash in plans
    && plans[j.spec.planHash].currentVersion != "" && plans[j.spec.planHash].manifestDigest != ""
  }

  function BoundJob(plan: Plan, j: Job): Job {
    j.(spec := j.spec.(manifestDigest := if j.spec.manifestDigest == "" then plan.manifestDigest
                                         else j.spec.manifestDigest),
       run := j.run.(currentVersion := if j.run.currentVersion == "" then plan.currentVersion
                                       else j.run.currentVersion))
  }

  function StartableJob(j: Job): Job {
    if j.run.status != Queued then j
    else j.(spec := j.spec.(totalSteps := STEPS_PER_HOP),
            run := j.run.(step := AtPhase(Validating), available := true, lastSafeVersion := j.run.currentVersion))
  }

  function ChainedPlan(x: Externals, plan: Plan): Plan {
    if plan.chain != [] then plan
    else
      var digest := x.manifestDigest(plan.manifest);
      plan.(manifestDigest := digest, chain := [ReleaseStep(plan.manifest, digest, [])], legacyUnbound := true)
  }

  function PlanOf(plans: map<string, Plan>, j: Job): Plan {
    if j.spec.planHash in plans then plans[j.spec.planHash] else NO_PLAN
  }

  function HoppingJob(plan: Plan, j: Job): Job {
    var hops := if j.spec.totalHops == 0 then |plan.chain| else j.spec.totalHops;
    var steps := if j.spec.totalSteps == STEPS_PER_HOP && hops > 1 then STEPS_PER_HOP * hops else j.spec.totalSteps;
    var spec := j.spec.(manifestDigest := plan.manifestDigest, totalHops := hops, totalSteps := steps);
    var r := j.run;
    if r.status == Succeeded then
      j.(spec := spec, run := r.(currentHop := hops, currentVersion := spec.targetVersion, completedSteps := steps))
    else if r.status == RolledBack then
      var hop := CompletedHop(plan, r.lastSafeVersion);
      j.(spec := spec,
         run := r.(currentHop := hop, currentVersion := r.lastSafeVersion, completedSteps := hop * STEPS_PER_HOP))
    else j.(spec := spec)
  }

  function StaleDiscovery(d: Discovery): Discovery {
    if d.status == DiscoveryFresh && d.index.None?
    then d.(status := DiscoveryStale, errorCode := "release_index_refresh_required") else d
  }

  predicate Referenced(jobs: map<string, Job>, hash: string) {
    exists id :: id in jobs && jobs[id].spec.planHash == hash && hash != ""
  }

  function From1(s: RuntimeState): Option<RuntimeState> {
    if exists id :: id in s.jobs && !Bound(s.plans, s.jobs[id]) then None
    else
      var jobs := map id | id in s.jobs :: BoundJob(PlanOf(s.plans, s.jobs[id]), s.jobs[id]);
      var desired := if HasActive(s.(jobs := jobs)) then Upgrading else s.desired;
      Some(s.(jobs := jobs, desired := desired, schemaVersion := 2))
  }

  function From2(s: RuntimeState): RuntimeState {
    s.(jobs := map id | id in s.jobs :: StartableJob(s.jobs[id]), schemaVersion := 3)
  }

  function From3(s: RuntimeState): RuntimeState {
    s.(watchdog := NO_WATCHDOG, schemaVersion := 4)
  }

  function From4(x: Externals, s: RuntimeState): RuntimeState {
    var plans := map hash | hash in s.plans :: ChainedPlan(x, s.plans[hash]);
    s.(plans := plans,
       jobs := map id | id in s.jobs :: HoppingJob(PlanOf(plans, s.jobs[id]), s.jobs[id]),
       discovery := StaleDiscovery(s.discovery), schemaVersion := 5)
  }

  function From5(s: RuntimeState): RuntimeState {
    s.(plans := map hash | hash in s.plans && Referenced(s.jobs, hash) :: s.plans[hash],
       discovery := NO_DISCOVERY, schemaVersion := 6)
  }

  /** The migrated record; none when the schema is unknown or a schema 1 job has no bound plan. */
  function Migrated(x: Externals, s: RuntimeState): Option<RuntimeState> {
    if s.schemaVersion == 6 then Some(s)
    else if s.schemaVersion == 5 then Some(From5(s))
    else if s.schemaVersion == 4 then Some(From5(From4(x, s)))
    else if s.schemaVersion == 3 then Some(From5(From4(x, From3(s))))
    else if s.schemaVersion == 2 then Some(From5(From4(x, From3(From2(s)))))
    else if s.schemaVersion == 1 then
      match From1(s)
      case Some(t) => Some(From5(From4(x, From3(From2(t)))))
      case None => None
    else None
  }

  /* ---------- The migration in place ---------- */

  /** The decoded state file while it is migrated. */
  class StateFile {
    const x: Externals
    var schemaVersion: int
    var desired: DesiredState
    var discovery: Discovery
    var watchdog: WatchdogState
    var plans: map<string, Plan>
    var jobs: map<string, Job>
    var idempotency: map<string, string>

    constructor (x: Externals, s: RuntimeState)
      ensures Contents() == s && this.x == x
    {
      this.x := x;
      schemaVersion, desired, discovery, watchdog := s.schemaVersion, s.desired, s.discovery, s.watchdog;
      plans, jobs, idempotency := s.plans, s.jobs, s.idempotency;
    }

    function Contents(): RuntimeState
      reads this
    {
      RuntimeState(schemaVersion, desired, discovery, watchdog, plans, jobs, idempotency)
    }

    /** migrateRuntimeState: every later step follows the one for the file's own schema. */
    method Migrate() returns (ok: bool)
      modifies this
      ensures ok <==> Migrated(x, old(Contents())).Some?
      ensures ok ==> Contents() == Migrated(x, old(Contents())).value
    {
      hide From1, From2, From3, From4, From5;
      if schemaVersion < 1 || schemaVersion > 6 {
        return false;
      }
      if schemaVersion == 1 {
        var bound := BindJobs();
        if !bound {
          return false;
        }
      }
      if schemaVersion == 2 {
        StartJobs();
      }
      if schemaVersion == 3 {
        ResetWatchdog();
      }
      if schemaVersion == 4 {
        ChainPlans();
      }
      if schemaVersion == 5 {
        DropPlans();
      }
      ok := true;
    }

    method BindJobs() returns (ok: bool)
      modifies this
      ensures ok <==> From1(old(Contents())).Some?
      ensures ok ==> Contents() == From1(old(Contents())).value && schemaVersion == 2
    {
      hide Active, BoundJob;
      ghost var before := jobs;
      var todo := jobs.Keys;
      while todo != {}
        invariant Contents() == old(Contents()).(jobs := jobs) && jobs.Keys == before.Keys && todo <= before.Keys
        invariant forall id :: id in before && id in todo ==> jobs[id] == before[id]
        invariant forall id :: id in before && id !in todo ==>
                    Bound(plans, before[id]) && jobs[id] == BoundJob(PlanOf(plans, before[id]), before[id])
        decreases todo
      {
        var id :| id in todo;
        if !Bound(plans, jobs[id]) {
          return false;
        }
        jobs := jobs[id := BoundJob(PlanOf(plans, jobs[id]), jobs[id])];
        todo := todo - {id};
      }
      assert jobs == map id | id in before :: BoundJob(PlanOf(plans, before[id]), before[id]);
      var active := AnyActive();
      if active {
        desired := Upgrading;
      }
      schemaVersion := 2;
      ok := true;
    }

    /** hasActiveJob, the loop over the jobs. */
    method AnyActive() returns (active: bool)
      ensures active <==> HasActive(Contents())
    {
      var todo := jobs.Keys;
      while todo != {}
        invariant todo <= jobs.Keys
        invariant forall id :: id in jobs && id !in todo ==> !IsActive(Contents(), id)
        decreases todo
      {
        var id :| id in todo;
        if Active(jobs[id].run.status) {
          assert IsActive(Contents(), id);
          return true;
        }
        todo := todo - {id};
      }
      active := false;
    }

    method StartJobs()
      modifies this
      ensures Contents() == From2(old(Contents())) && schemaVersion == 3
    {
      ghost var before := jobs;
      var todo := jobs.Keys;
      while todo != {}
        invariant Contents() == old(Contents()).(jobs := jobs) && jobs.Keys == before.Keys && todo <= before.Keys
        invariant forall id :: id in before ==> jobs[id] == if id in todo then before[id] else StartableJob(before[id])
        decreases todo
      {
        var id :| id in todo;
        if jobs[id].run.status == Queued {
          jobs := jobs[id := StartableJob(jobs[id])];
        }
        todo := todo - {id};
      }
      assert jobs == map id | id in before :: StartableJob(before[id]);
      schemaVersion := 3;
    }

    method ResetWatchdog()
      modifies this
      ensures Contents() == From3(old(Contents())) && schemaVersion == 4
    {
      watchdog := NO_WATCHDOG;
      schemaVersion := 4;
    }

    method ChainPlans()
      modifies this
      ensures Contents() == From4(x, old(Contents())) && schemaVersion == 5
    {
      ghost var oldPlans, oldJobs := plans, jobs;
      var todo := plans.Keys;
      while todo != {}
        invariant Contents() == old(Contents()).(plans := plans) && plans.Keys == oldPlans.Keys && todo <= oldPlans.Keys
        invariant forall hash :: hash in oldPlans ==>
                    plans[hash] == if hash in todo then oldPlans[hash] else ChainedPlan(x, oldPlans[hash])
        decreases todo
      {
        var hash :| hash in todo;
        if plans[hash].chain == [] {
          plans := plans[hash := ChainedPlan(x, plans[hash])];
        }
        todo := todo - {hash};
      }
      assert plans == map hash | hash in oldPlans :: ChainedPlan(x, oldPlans[hash]);
      HopJobs();
      discovery := StaleDiscovery(discovery);
      schemaVersion := 5;
    }

    method HopJobs()
      modifies this`jobs
      ensures jobs == map id | id in old(jobs) :: HoppingJob(PlanOf(plans, old(jobs)[id]), old(jobs)[id])
    {
      hide HoppingJob;
      ghost var before := jobs;
      var todo := jobs.Keys;
      while todo != {}
        invariant jobs.Keys == before.Keys && todo <= before.Keys
        invariant forall id :: id in before ==>
                    jobs[id] == if id in todo then before[id] else HoppingJob(PlanOf(plans, before[id]), before[id])
        decreases todo
      {
        var id :| id in todo;
        jobs := jobs[id := HoppingJob(PlanOf(plans, jobs[id]), jobs[id])];
        todo := todo - {id};
      }
    }

    method DropPlans()
      modifies this
      ensures Contents() == From5(old(Contents())) && schemaVersion == 6
    {
      ghost var before := plans;
      var referenced := ReferencedPlans();
      var todo := plans.Keys;
      while todo != {}
        invariant Contents() == old(Contents()).(plans := plans) && todo <= before.Keys
        invariant forall hash :: hash in plans <==> hash in before && (hash in todo || Referenced(jobs, hash))
        invariant forall hash :: hash in plans ==> plans[hash] == before[hash]
        decreases todo
      {
        var hash :| hash in todo;
        if hash !in referenced {
          plans := plans - {hash};
        }
        todo := todo - {hash};
      }
      assert plans == map hash | hash in before && Referenced(jobs, hash) :: before[hash];
      discovery := NO_DISCOVERY;
      schemaVersion := 6;
    }

    method ReferencedPlans() returns (referenced: set<string>)
      ensures forall hash :: hash in referenced <==> Referenced(jobs, hash)
    {
      referenced := {};
      var todo := jobs.Keys;
      while todo != {}
        invariant todo <= jobs.Keys
        invariant forall hash :: hash in referenced ==> Referenced(jobs, hash)
        invariant forall id :: id in jobs && id !in todo && jobs[id].spec.planHash != "" ==>
                    jobs[id].spec.planHash in referenced
        decreases todo
      {
        var id :| id in todo;
        if jobs[id].spec.planHash != "" {
          referenced := referenced + {jobs[id].spec.planHash};
        }
        todo := todo - {id};
      }
    }
  }

  /* ---------- What the migration keeps ---------- */

  /** The job is the same one: its id, key, tokens, plan, target and recovery point. */
  predicate SamePersistedJob(a: Job, b: Job) {
    && a.spec.id == b.spec.id && a.spec.key == b.spec.key && a.bearers == b.bearers
    && a.spec.planHash == b.spec.planHash && a.spec.targetVersion == b.spec.targetVersion &&
       a.spec.direct == b.spec.direct
    && a.run.status == b.run.status && a.run.recovery == b.run.recovery && a.run.attempts == b.run.attempts
  }

  predicate SameJobs(s: RuntimeState, t: RuntimeState) {
    && t.jobs.Keys == s.jobs.Keys && t.idempotency == s.idempotency
    && (forall id :: id in s.jobs ==> SamePersistedJob(s.jobs[id], t.jobs[id]))
  }

  lemma SameJobsTransitive(s: RuntimeState, t: RuntimeState, u: RuntimeState)
    requires SameJobs(s, t) && SameJobs(t, u)
    ensures SameJobs(s, u)
  {
    forall id | id in s.jobs ensures SamePersistedJob(s.jobs[id], u.jobs[id]) {
      assert SamePersistedJob(s.jobs[id], t.jobs[id]) && SamePersistedJob(t.jobs[id], u.jobs[id]);
    }
  }

  lemma From1Keeps(s: RuntimeState)
    requires From1(s).Some?
    ensures SameJobs(s, From1(s).value) && From1(s).value.plans == s.plans
  {
    hide HasActive;
    var t := From1(s).value;
    forall id | id in s.jobs ensures SamePersistedJob(s.jobs[id], t.jobs[id]) {
      assert t.jobs[id] == BoundJob(PlanOf(s.plans, s.jobs[id]), s.jobs[id]);
    }
  }

  lemma From2Keeps(s: RuntimeState)
    ensures SameJobs(s, From2(s)) && From2(s).plans == s.plans
  {
  }

  lemma From4Keeps(x: Externals, s: RuntimeState)
    ensures SameJobs(s, From4(x, s)) && From4(x, s).plans.Keys == s.plans.Keys
  {
    hide ChainedPlan, HoppingJob, StaleDiscovery;
    var t := From4(x, s);
    forall id | id in s.jobs ensures SamePersistedJob(s.jobs[id], t.jobs[id]) {
      HoppingKeeps(PlanOf(t.plans, s.jobs[id]), s.jobs[id]);
      assert t.jobs[id] == HoppingJob(PlanOf(t.plans, s.jobs[id]), s.jobs[id]);
    }
  }

  lemma HoppingKeeps(plan: Plan, j: Job)
    ensures SamePersistedJob(j, HoppingJob(plan, j))
  {
    hide CompletedHop;
  }

  /** The plans left over are exactly those some job refers to. */
  lemma ReferencedSame(s: RuntimeState, t: RuntimeState, hash: string)
    requires SameJobs(s, t)
    ensures Referenced(s.jobs, hash) == Referenced(t.jobs, hash)
  {
    if Referenced(s.jobs, hash) {
      var id :| id in s.jobs && s.jobs[id].spec.planHash == hash && hash != "";
      assert SamePersistedJob(s.jobs[id], t.jobs[id]);
    }
    if Referenced(t.jobs, hash) {
      var id :| id in t.jobs && t.jobs[id].spec.planHash == hash && hash != "";
      assert SamePersistedJob(s.jobs[id], t.jobs[id]);
    }
  }

  /** The record a schema 1 to 5 file has become when it reaches schema 5. */
  function AtSchema5(x: Externals, s: RuntimeState): Option<RuntimeState> {
    if s.schemaVersion == 5 then Some(s)
    else if s.schemaVersion == 4 then Some(From4(x, s))
    else if s.schemaVersion == 3 then Some(From4(x, From3(s)))
    else if s.schemaVersion == 2 then Some(From4(x, From3(From2(s))))
    else if s.schemaVersion == 1 && From1(s).Some? then Some(From4(x, From3(From2(From1(s).value))))
    else None
  }

  lemma AtSchema5Keeps(x: Externals, s: RuntimeState)
    requires AtSchema5(x, s).Some?
    ensures SameJobs(s, AtSchema5(x, s).value) && AtSchema5(x, s).value.plans.Keys == s.plans.Keys
  {
    hide From1, From2, From4, From5, SameJobs;
    SameJobsItself(s);
    var t := s;
    if s.schemaVersion == 1 {
      From1Keeps(t);
      t := From1(t).value;
    }
    if s.schemaVersion <= 2 {
      From2Keeps(t);
      SameJobsTransitive(s, t, From2(t));
      t := From2(t);
    }
    if s.schemaVersion <= 3 {
      SameJobsOnly(s, t, From3(t));
      t := From3(t);
    }
    if s.schemaVersion <= 4 {
      From4Keeps(x, t);
      SameJobsTransitive(s, t, From4(x, t));
    }
  }

  lemma SameJobsItself(s: RuntimeState)
    ensures SameJobs(s, s)
  {
  }

  lemma SameJobsOnly(s: RuntimeState, t: RuntimeState, u: RuntimeState)
    requires SameJobs(s, t) && u.jobs == t.jobs && u.idempotency == t.idempotency
    ensures SameJobs(s, u)
  {
  }

  /**
    The desired state changes only for a schema 1 file with an active job, and the watchdog's
    record is only ever unset.
   */
  lemma MigrationKeepsService(x: Externals, s: RuntimeState)
    requires 1 <= s.schemaVersion <= 6 && Migrated(x, s).Some?
    ensures var t := Migrated(x, s).value;
            && t.desired == (if s.schemaVersion == 1 && HasActive(s) then Upgrading else s.desired)
            && t.watchdog == if s.schemaVersion >= 4 then s.watchdog
                             else WatchdogState(WatchUnknown, 0, [], 0, 0, 0, NoWatchError)
  {
    hide BoundJob, StartableJob, HoppingJob, ChainedPlan, StaleDiscovery, Bound, HasActive;
    if s.schemaVersion == 1 {
      BindingKeepsActives(s);
    }
  }

  lemma BindingKeepsActives(s: RuntimeState)
    ensures var jobs := map id | id in s.jobs :: BoundJob(PlanOf(s.plans, s.jobs[id]), s.jobs[id]);
            HasActive(s.(jobs := jobs)) == HasActive(s)
  {
    var jobs := map id | id in s.jobs :: BoundJob(PlanOf(s.plans, s.jobs[id]), s.jobs[id]);
    forall id ensures IsActive(s.(jobs := jobs), id) == IsActive(s, id) {
    }
  }

  /**
    What a job has become, field by field: the fields its schema's steps name, each for the
    jobs they name, and every other field as it was.
   */
  predicate JobMigrated(schema: int, plan: Plan, was: Job, now: Job) {
    var early, queued := schema <= 4, schema <= 2 && was.run.status == Queued;
    var succeeded, rolledBack := early && was.run.status == Succeeded, early && was.run.status == RolledBack;
    var bound := if schema == 1 && was.run.currentVersion == "" then plan.currentVersion else was.run.currentVersion;
    && now.bearers == was.bearers && SameSpecBut(schema, plan, was.spec, now.spec, queued)
    && now.run.status == was.run.status && now.run.recovery == was.run.recovery
    && now.run.attempts == was.run.attempts && now.run.errorCode == was.run.errorCode
    && now.run.errorMessage == was.run.errorMessage
    && now.run.step == (if queued then AtPhase(Validating) else was.run.step)
    && now.run.available == (queued || was.run.available)
    && now.run.lastSafeVersion == (if queued then bound else was.run.lastSafeVersion)
    && now.run.currentVersion ==
         (if succeeded then was.spec.targetVersion else if rolledBack then was.run.lastSafeVersion else bound)
    && now.run.currentHop == (if succeeded then now.spec.totalHops
                              else if rolledBack then CompletedHop(plan, was.run.lastSafeVersion)
                              else was.run.currentHop)
    && now.run.completedSteps == (if succeeded then now.spec.totalSteps
                                  else if rolledBack then 7 * now.run.currentHop else was.run.completedSteps)
  }

  predicate SameSpecBut(schema: int, plan: Plan, was: JobSpec, now: JobSpec, queued: bool) {
    && now.id == was.id && now.key == was.key && now.planHash == was.planHash && now.direct == was.direct
    && now.targetVersion == was.targetVersion
    && now.manifestDigest == (if schema <= 4 then plan.manifestDigest else was.manifestDigest)
    && now.totalHops == (if schema <= 4 && was.totalHops == 0 then |plan.chain| else was.totalHops)
    && var steps := if queued then 7 else was.totalSteps;
       now.totalSteps == if schema <= 4 && steps == 7 && now.totalHops > 1 then 7 * now.totalHops else steps
  }

  /** The job's plan as the migration leaves it, and the zero plan of the lookup if there is none. */
  function PlanThen(x: Externals, s: RuntimeState, j: Job): Plan {
    if j.spec.planHash !in s.plans then NO_PLAN
    else if s.schemaVersion <= 4 then ChainedPlan(x, s.plans[j.spec.planHash])
    else s.plans[j.spec.planHash]
  }

  /** Every job's progress is carried over, whatever the schema of the file. */
  lemma MigrationKeepsProgress(x: Externals, s: RuntimeState, id: string)
    requires 1 <= s.schemaVersion <= 6 && Migrated(x, s).Some? && id in s.jobs
    ensures id in Migrated(x, s).value.jobs
    ensures JobMigrated(s.schemaVersion, PlanThen(x, s, s.jobs[id]), s.jobs[id], Migrated(x, s).value.jobs[id])
  {
    hide JobMigrated, BoundJob, StartableJob, HoppingJob, ChainedPlan, StaleDiscovery, HasActive, Bound, NO_PLAN;
    var j := s.jobs[id];
    var plan := PlanThen(x, s, j);
    JobSteps(s.schemaVersion, plan, PlanOf(s.plans, j), j);
    ChainingKeepsSource(x, PlanOf(s.plans, j));
    StepsKeepHash(j, PlanOf(s.plans, j));
  }

  lemma StepsKeepHash(j: Job, plan: Plan)
    ensures StartableJob(j).spec.planHash == j.spec.planHash
    ensures StartableJob(BoundJob(plan, j)).spec.planHash == j.spec.planHash
  {
  }

  lemma ChainingKeepsSource(x: Externals, plan: Plan)
    ensures ChainedPlan(x, plan).currentVersion == plan.currentVersion
  {
  }

  /** The steps of each schema, one after the other, on one job. */
  lemma JobSteps(schema: int, plan: Plan, was: Plan, j: Job)
    requires 1 <= schema <= 6
    ensures schema >= 5 ==> JobMigrated(schema, plan, j, j)
    ensures 3 <= schema <= 4 ==> JobMigrated(schema, plan, j, HoppingJob(plan, j))
    ensures schema == 2 ==> JobMigrated(schema, plan, j, HoppingJob(plan, StartableJob(j)))
    ensures schema == 1 && was.currentVersion == plan.currentVersion ==>
              JobMigrated(schema, plan, j, HoppingJob(plan, StartableJob(BoundJob(was, j))))
  {
    hide CompletedHop;
  }

  /**
    Migration from schema 1 to 5 keeps every job, key, token and recovery point, and keeps
    exactly the plans that some job refers to, a plan without a chain with one step to its
    own target.
   */
  lemma MigrationKeepsRecord(x: Externals, s: RuntimeState)
    requires 1 <= s.schemaVersion <= 5 && Migrated(x, s).Some?
    ensures var t := Migrated(x, s).value;
            && t.schemaVersion == SCHEMA_VERSION && SameJobs(s, t) && t.discovery == NO_DISCOVERY
            && (forall hash :: hash in t.plans <==> hash in s.plans && Referenced(s.jobs, hash))
            && (forall hash :: hash in t.plans ==> PlanMigrated(x, s.schemaVersion, s.plans[hash], t.plans[hash]))
  {
    hide From1, From2, From3, From4, SameJobs, Referenced, PlanMigrated;
    AtSchema5Keeps(x, s);
    ChainsOnlyWhereMissing(x, s);
    var u := AtSchema5(x, s).value;
    SameJobsOnly(s, u, From5(u));
    forall hash ensures Referenced(s.jobs, hash) == Referenced(u.jobs, hash) {
      ReferencedSame(s, u, hash);
    }
  }

  /** A plan that had its chain is as it was; another has one step to its own target, without bound sources. */
  predicate PlanMigrated(x: Externals, schema: int, was: Plan, now: Plan) {
    && now == was.(chain := now.chain, manifestDigest := now.manifestDigest, legacyUnbound := now.legacyUnbound)
    && if schema == 5 || |was.chain| > 0 then now == was
       else
         && now.legacyUnbound && now.manifestDigest == x.manifestDigest(was.manifest) && |now.chain| == 1
         && now.chain[0] == ReleaseStep(was.manifest, now.manifestDigest, [])
  }

  lemma ChainsOnlyWhereMissing(x: Externals, s: RuntimeState)
    requires AtSchema5(x, s).Some?
    ensures forall hash :: hash in s.plans ==>
              && hash in AtSchema5(x, s).value.plans
              && PlanMigrated(x, s.schemaVersion, s.plans[hash], AtSchema5(x, s).value.plans[hash])
  {
    hide From1, From2, From4, PlanMigrated;
    var t := s;
    if s.schemaVersion == 1 {
      From1Keeps(t);
      t := From1(t).value;
    }
    if s.schemaVersion <= 2 {
      From2Keeps(t);
      t := From2(t);
    }
    if s.schemaVersion <= 3 {
      t := From3(t);
    }
    From4Chains(x, t, s.schemaVersion);
    forall hash | hash in s.plans ensures PlanMigrated(x, 5, s.plans[hash], s.plans[hash]) {
      SamePlan(x, s.plans[hash]);
    }
  }

  lemma From4Chains(x: Externals, s: RuntimeState, schema: int)
    ensures forall hash :: hash in s.plans ==>
              && hash in From4(x, s).plans
              && (schema < 5 ==> PlanMigrated(x, schema, s.plans[hash], From4(x, s).plans[hash]))
  {
    hide HoppingJob, StaleDiscovery;
  }

  lemma SamePlan(x: Externals, plan: Plan)
    ensures PlanMigrated(x, 5, plan, plan)
  {
  }

  /**
    A schema 1 file is bound exactly if every job's plan is on record with a source version
    and a digest; a job then has its own version and digest, or the plan's where it had none.
   */
  lemma Schema1Binds(s: RuntimeState)
    ensures From1(s).Some? <==>
            forall id :: id in s.jobs ==>
              && s.jobs[id].spec.planHash in s.plans
              && s.plans[s.jobs[id].spec.planHash].currentVersion != ""
              && s.plans[s.jobs[id].spec.planHash].manifestDigest != ""
    ensures From1(s).Some? ==>
              && From1(s).value.jobs.Keys == s.jobs.Keys
              && forall id :: id in s.jobs ==>
                   && var j, now, plan := s.jobs[id], From1(s).value.jobs[id], s.plans[s.jobs[id].spec.planHash];
                   && now.spec == j.spec.(manifestDigest := now.spec.manifestDigest)
                   && now.run == j.run.(currentVersion := now.run.currentVersion) && now.bearers == j.bearers
                   && (if j.spec.manifestDigest == "" then now.spec.manifestDigest == plan.manifestDigest
                       else now.spec.manifestDigest == j.spec.manifestDigest)
                   && (if j.run.currentVersion == "" then now.run.currentVersion == plan.currentVersion
                       else now.run.currentVersion == j.run.currentVersion)
  {
    hide HasActive;
  }

  /** Only unknown schemas, and schema 1 jobs without a bound plan, cannot be migrated. */
  lemma MigratableIff(x: Externals, s: RuntimeState)
    ensures Migrated(x, s).Some? <==>
            1 <= s.schemaVersion <= 6 &&
              (s.schemaVersion == 1 ==> forall id :: id in s.jobs ==> Bound(s.plans, s.jobs[id]))
  {
    hide From2, From3, From4, From5, Bound, BoundJob, HasActive;
  }

  /** The record a schema 1 to 4 file has become when its plans are given their chains. */
  function AtSchema4(s: RuntimeState): Option<RuntimeState> {
    if s.schemaVersion == 4 then Some(s)
    else if s.schemaVersion == 3 then Some(From3(s))
    else if s.schemaVersion == 2 then Some(From3(From2(s)))
    else if s.schemaVersion == 1 && From1(s).Some? then Some(From3(From2(From1(s).value)))
    else None
  }

  lemma AtSchema4Keeps(s: RuntimeState, id: string)
    requires AtSchema4(s).Some? && id in s.jobs
    ensures var t := AtSchema4(s).value;
            && t.plans == s.plans && id in t.jobs
            && t.jobs[id].spec.planHash == s.jobs[id].spec.planHash &&
               t.jobs[id].spec.totalHops == s.jobs[id].spec.totalHops
    ensures s.schemaVersion == 1 ==> Bound(s.plans, s.jobs[id])
  {
    hide HasActive, Bound;
  }

  lemma ChainsAreGiven(x: Externals, s: RuntimeState, id: string)
    requires id in s.jobs && s.jobs[id].spec.planHash in s.plans
    ensures var hash, t := s.jobs[id].spec.planHash, From4(x, s);
            && id in t.jobs && hash in t.plans && t.jobs[id].spec.planHash == hash &&
               PlanFits(s.plans[hash], t.plans[hash], s.jobs[id], t.jobs[id])
  {
    hide CompletedHop, StaleDiscovery;
  }

  /** The migrated plan has a chain to the same target, and its job is bound to it. */
  predicate PlanFits(was: Plan, plan: Plan, before: Job, after: Job) {
    && plan.chain != [] && plan.manifest == was.manifest && plan.currentVersion == was.currentVersion
    && after.spec.manifestDigest == plan.manifestDigest
    && (before.spec.totalHops == 0 ==> after.spec.totalHops == |plan.chain|)
  }

  /**
    Nothing a job needs is lost on the way from an old schema: after all steps its plan is
    still on record, with a chain to the same target, and the job carries that plan's digest
    and, if it had no hops, as many as the chain. A schema 1 file with a job that has no plan
    does not get there.
   */
  lemma MigratedJobsHavePlans(x: Externals, s: RuntimeState, id: string)
    requires 1 <= s.schemaVersion <= 4 && Migrated(x, s).Some? && id in s.jobs
    ensures id in Migrated(x, s).value.jobs
    ensures var hash, t := s.jobs[id].spec.planHash, Migrated(x, s).value;
            && (s.schemaVersion == 1 ==> hash in s.plans)
            && (hash in s.plans && hash != "" ==>
                  hash in t.plans && PlanFits(s.plans[hash], t.plans[hash], s.jobs[id], t.jobs[id]))
  {
    hide From1, From2, From3, From4, Referenced, PlanFits;
    MigratableIff(x, s);
    AtSchema4Keeps(s, id);
    MigrationKeepsRecord(x, s);
    var hash, u := s.jobs[id].spec.planHash, AtSchema4(s).value;
    if hash in s.plans && hash != "" {
      ChainsAreGiven(x, u, id);
      JobRefers(s.jobs, id);
      SameFit(s.plans[hash], From4(x, u).plans[hash], u.jobs[id], s.jobs[id], From4(x, u).jobs[id]);
    }
  }

  lemma JobRefers(jobs: map<string, Job>, id: string)
    requires id in jobs && jobs[id].spec.planHash != ""
    ensures Referenced(jobs, jobs[id].spec.planHash)
  {
  }

  lemma SameFit(was: Plan, plan: Plan, a: Job, b: Job, after: Job)
    requires PlanFits(was, plan, a, after) && a.spec.totalHops == b.spec.totalHops
    ensures PlanFits(was, plan, b, after)
  {
  }

  /* ---------- What the migration makes valid ---------- */

  /** A schema 5 record that is valid apart from its version migrates to a valid one. */
  lemma Schema5StaysValid(x: Externals, s: RuntimeState)
    requires s.schemaVersion == 5 && StateValid(x, s.(schemaVersion := SCHEMA_VERSION))
    ensures Migrated(x, s).Some? && StateValid(x, Migrated(x, s).value)
  {
    hide PlanValid, WatchdogValid, JobValid, HasActive, IsActive, AtMostOneActive;
    var v, t := s.(schemaVersion := SCHEMA_VERSION), From5(s);
    forall id | id in t.jobs ensures JobValid(t.plans, t.idempotency, id, t.jobs[id]) {
      JobSurvivesDrop(x, v, id);
    }
    SameActives(v, t);
  }

  lemma JobSurvivesDrop(x: Externals, s: RuntimeState, id: string)
    requires StateValid(x, s) && id in s.jobs
    ensures var t := From5(s); JobValid(t.plans, t.idempotency, id, t.jobs[id])
  {
    hide PlanValid, WatchdogValid, DiscoveryValid, ExecutionValid, HexDigest, Referenced, ParseVersion, OlderText,
         HasActive, AtMostOneActive;
    assert JobValid(s.plans, s.idempotency, id, s.jobs[id]);
    if s.jobs[id].spec.direct.None? {
      ReferencedByJob(x, s, id);
    }
  }

  /** A job with a plan refers to it; the plan's hash is never empty. */
  lemma ReferencedByJob(x: Externals, s: RuntimeState, id: string)
    requires StateValid(x, s) && id in s.jobs && s.jobs[id].spec.direct.None?
    ensures s.jobs[id].spec.planHash in s.plans && Referenced(s.jobs, s.jobs[id].spec.planHash)
  {
    hide ExecutionValid, WatchdogValid, DiscoveryValid, ChainValid, ManifestValid;
    assert JobValid(s.plans, s.idempotency, id, s.jobs[id]);
    assert PlanValid(x, s.jobs[id].spec.planHash, s.plans[s.jobs[id].spec.planHash]);
  }

  /** A schema 1 file with one queued job, on a plan that is one valid upgrade edge. */
  predicate QueuedOnEdge(x: Externals, s: RuntimeState, id: string) {
    && s.schemaVersion == 1 && !s.desired.InvalidDesired? && s.jobs.Keys == {id} && id != ""
    && var j := s.jobs[id];
    && j.spec.id == id && j.spec.key != "" && s.idempotency == map[j.spec.key := id]
    && j.bearers != [] && (forall k :: 0 <= k < |j.bearers| ==> HexDigest(j.bearers[k]))
    && j.spec.direct.None? && HexDigest(j.spec.planHash) && j.spec.planHash in s.plans
    && var plan := s.plans[j.spec.planHash];
    && EdgePlan(x, plan)
    && j.spec.targetVersion == plan.manifest.version && (j.spec.totalHops == 0 || j.spec.totalHops == 1)
    && (j.run.currentVersion == "" || j.run.currentVersion == plan.currentVersion)
    && j.run.status == Queued && j.run.currentHop == 0 && 0 <= j.run.completedSteps <= STEPS_PER_HOP
    && 0 <= j.run.attempts <= MAX_RECOVERY_ATTEMPTS && j.run.recovery.None?
  }

  /** A plan from before release chains: the target manifest and the version it upgrades. */
  predicate EdgePlan(x: Externals, plan: Plan) {
    && plan.chain == [] && plan.directContractVersion == 0 && plan.expiresAt != 0 && plan.manifestDigest != ""
    && ManifestValid(x, plan.manifest) && ImageDigest(x.manifestDigest(plan.manifest))
    && UpgradeAllowedFrom(x, plan.manifest, plan.currentVersion)
  }

  /** What becomes of that job: it starts at validation, one hop, seven steps. */
  function QueuedJob(x: Externals, plan: Plan, j: Job): Job {
    j.(spec := j.spec.(manifestDigest := x.manifestDigest(plan.manifest), totalHops := 1, totalSteps := STEPS_PER_HOP),
       run := j.run.(currentVersion := plan.currentVersion, step := AtPhase(Validating), available := true,
                     lastSafeVersion := plan.currentVersion))
  }

  lemma QueuedJobMigrates(x: Externals, s: RuntimeState, id: string)
    requires QueuedOnEdge(x, s, id)
    ensures Migrated(x, s).Some?
    ensures var j := s.jobs[id];
            var plan := s.plans[j.spec.planHash];
            Migrated(x, s).value ==
            RuntimeState(SCHEMA_VERSION, Upgrading, NO_DISCOVERY, NO_WATCHDOG,
                         map[j.spec.planHash := ChainedPlan(x, plan)], map[id := QueuedJob(x, plan, j)], s.idempotency)
  {
    hide EdgePlan, HexDigest, StaleDiscovery, HasActive, From1, From2, From4, Referenced, ChainedPlan, QueuedJob,
         HoppingJob, StartableJob, BoundJob;
    var j := s.jobs[id];
    var plan := s.plans[j.spec.planHash];
    EdgeStartsSomewhere(x, plan);
    DigestIsText(j.spec.planHash);
    QueuedJobSteps(x, plan, j);
    ToSchema4(s, id);
    var s4 := From3(From2(From1(s).value));
    ToSchema5(x, s4, id);
    OnePlanLeft(From4(x, s4), id);
  }

  lemma DigestIsText(hash: string)
    requires HexDigest(hash)
    ensures hash != ""
  {
  }

  lemma ToSchema4(s: RuntimeState, id: string)
    requires s.jobs.Keys == {id} && Bound(s.plans, s.jobs[id]) && s.jobs[id].run.status == Queued
    ensures From1(s).Some?
    ensures From3(From2(From1(s).value)) ==
            s.(schemaVersion := 4, desired := Upgrading, watchdog := NO_WATCHDOG,
               jobs := map[id := StartableJob(BoundJob(s.plans[s.jobs[id].spec.planHash], s.jobs[id]))])
  {
    hide HasActive, StartableJob, BoundJob;
    BoundIsActive(s, id);
    assert From1(s).value.jobs == map[id := BoundJob(s.plans[s.jobs[id].spec.planHash], s.jobs[id])];
  }

  lemma ToSchema5(x: Externals, s: RuntimeState, id: string)
    requires s.jobs.Keys == {id} && s.jobs[id].spec.planHash in s.plans
    ensures var hash := s.jobs[id].spec.planHash;
            var t := From4(x, s);
            && t.jobs == map[id := HoppingJob(ChainedPlan(x, s.plans[hash]), s.jobs[id])]
            && hash in t.plans && t.plans[hash] == ChainedPlan(x, s.plans[hash])
            && t == s.(schemaVersion := 5, plans := t.plans, jobs := t.jobs, discovery := t.discovery)
  {
    hide ChainedPlan, HoppingJob, StaleDiscovery;
  }

  lemma QueuedJobSteps(x: Externals, plan: Plan, j: Job)
    requires plan.chain == [] && j.run.status == Queued && (j.spec.totalHops == 0 || j.spec.totalHops == 1)
    requires j.run.currentVersion == "" || j.run.currentVersion == plan.currentVersion
    ensures HoppingJob(ChainedPlan(x, plan), StartableJob(BoundJob(plan, j))) == QueuedJob(x, plan, j)
    ensures StartableJob(BoundJob(plan, j)).spec.planHash == j.spec.planHash
    ensures QueuedJob(x, plan, j).spec.planHash == j.spec.planHash
  {
    hide CompletedHop;
  }

  lemma EdgeStartsSomewhere(x: Externals, plan: Plan)
    requires EdgePlan(x, plan)
    ensures plan.currentVersion != "" && plan.chain == [] && plan.manifestDigest != ""
  {
    hide ManifestValid, ImageDigest;
  }

  lemma BoundIsActive(s: RuntimeState, id: string)
    requires From1(s).Some? && id in s.jobs && s.jobs[id].run.status == Queued
    ensures From1(s).value.desired == Upgrading
  {
    var jobs := map other | other in s.jobs :: BoundJob(PlanOf(s.plans, s.jobs[other]), s.jobs[other]);
    assert IsActive(s.(jobs := jobs), id);
  }

  lemma OnePlanLeft(s: RuntimeState, id: string)
    requires s.jobs.Keys == {id} && s.jobs[id].spec.planHash != "" && s.jobs[id].spec.planHash in s.plans
    ensures From5(s).plans == map[s.jobs[id].spec.planHash := s.plans[s.jobs[id].spec.planHash]]
  {
    var hash := s.jobs[id].spec.planHash;
    forall other ensures Referenced(s.jobs, other) <==> other == hash {
      if other == hash {
        assert id in s.jobs && s.jobs[id].spec.planHash == other;
      }
    }
  }

  lemma EdgePlanIsValid(x: Externals, hash: string, plan: Plan)
    requires EdgePlan(x, plan) && HexDigest(hash)
    ensures PlanValid(x, hash, ChainedPlan(x, plan))
  {
    hide ManifestValid, UpgradeAllowedFrom, HexDigest, ImageDigest;
    var chained := ChainedPlan(x, plan);
    assert StepValid(x, chained, 0);
  }

  /** Such a file migrates to a valid record, in which the job is still queued and now upgrading. */
  lemma QueuedSchema1BecomesValid(x: Externals, s: RuntimeState, id: string)
    requires QueuedOnEdge(x, s, id)
    ensures Migrated(x, s).Some? && StateValid(x, Migrated(x, s).value)
    ensures var t := Migrated(x, s).value; t.desired == Upgrading && IsActive(t, id) && t.jobs[id].run.status == Queued
  {
    hide PlanValid, HexDigest, ManifestValid, UpgradeAllowedFrom, ImageDigest, ChainedPlan, Migrated, HasActive;
    QueuedJobMigrates(x, s, id);
    var j := s.jobs[id];
    var plan := s.plans[j.spec.planHash];
    var t := Migrated(x, s).value;
    EdgePlanIsValid(x, j.spec.planHash, plan);
    ChainedPlanShape(x, plan);
    assert JobValid(t.plans, t.idempotency, id, t.jobs[id]);
    OneActiveJob(t, id);
  }

  lemma ChainedPlanShape(x: Externals, plan: Plan)
    requires plan.chain == []
    ensures var chained := ChainedPlan(x, plan);
            && |chained.chain| == 1 && chained.manifest == plan.manifest &&
               chained.currentVersion == plan.currentVersion
            && chained.manifestDigest == x.manifestDigest(plan.manifest)
  {
  }

  lemma OneActiveJob(s: RuntimeState, id: string)
    requires s.jobs.Keys == {id} && s.jobs[id].run.status == Queued
    ensures HasActive(s) && AtMostOneActive(s) && IsActive(s, id)
  {
    assert IsActive(s, id);
  }

  /** A finished job from before hops were recorded agrees with its plan afterwards, at the last hop. */
  lemma SucceededJobMigrates(x: Externals, plans: map<string, Plan>, j: Job)
    requires j.spec.planHash in plans && ChainValid(x, plans[j.spec.planHash]) && j.spec.direct.None?
    requires j.run.status == Succeeded && j.spec.targetVersion == plans[j.spec.planHash].manifest.version
    requires j.spec.totalHops == 0 || j.spec.totalHops == |plans[j.spec.planHash].chain|
    requires j.spec.totalSteps == STEPS_PER_HOP
    ensures var t := HoppingJob(plans[j.spec.planHash], j);
            && TargetValid(plans, t.spec, t.run)
            && t.run.currentHop == t.spec.totalHops &&
               t.run.completedSteps == t.spec.totalSteps == STEPS_PER_HOP * t.spec.totalHops
  {
    hide StepValid, DirectContractValid, CompletedHop;
  }

  /** A rolled-back job is placed at the hop whose version it fell back to. */
  lemma RolledBackJobMigrates(x: Externals, plans: map<string, Plan>, j: Job, hop: int)
    requires j.spec.planHash in plans && ChainValid(x, plans[j.spec.planHash]) && j.spec.direct.None?
    requires j.run.status == RolledBack && j.spec.targetVersion == plans[j.spec.planHash].manifest.version
    requires j.spec.totalHops == 0 || j.spec.totalHops == |plans[j.spec.planHash].chain|
    requires 0 <= hop <= |plans[j.spec.planHash].chain|
    requires j.run.lastSafeVersion == VersionAtHop(plans[j.spec.planHash], hop)
    ensures var t := HoppingJob(plans[j.spec.planHash], j);
            && TargetValid(plans, t.spec, t.run)
            && t.run.currentHop == hop && t.run.completedSteps == STEPS_PER_HOP * hop
  {
    hide ChainValid, CompletedHop;
    CompletedHopInverts(x, plans[j.spec.planHash], hop);
  }
}
