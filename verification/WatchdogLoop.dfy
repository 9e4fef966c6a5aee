/**
  The watchdog's reconciliation round as the code runs it, on the shared daemon: other
  threads may act between any two of its steps. What the runtime answers is an argument,
  and the round's own events, in order, say what was made of it.
 */
module WatchdogLoop {
  import opened Wrappers
  import opened Text
  import opened Release
  import opened State
  import opened Changes
  import opened System
  import opened Safety
  import opened Runs
  import opened Acceptance
  import opened Process
  import opened Timeline
  import opened Races

  predicate WatchEvent(e: Event) {
    || e.WatchLoad? || e.WatchLoadFailed? || e.WatchObserved? || e.WatchWrite? || e.WatchRecheck? || e.WatchLock?
    || e.WatchPublish? || e.WatchReload? || e.WatchRepaired? || e.WatchRelease?
  }

  /** The watchdog's own events, in order. */
  function Own(events: seq<Event>): seq<Event> {
    if events == [] then []
    else Own(events[..|events| - 1]) + if WatchEvent(events[|events| - 1]) then [events[|events| - 1]] else []
  }

  lemma OneMoreEvent(events: seq<Event>, e: Event)
    ensures Own(events + [e]) == Own(events) + if WatchEvent(e) then [e] else []
  {
    assert (events + [e])[..|events|] == events;
  }

  lemma OthersLeaveWatch(x: Externals, w: World, e: Event)
    requires Enabled(w, e) && !WatchEvent(e) && !e.Crash?
    ensures Step(x, w, e).watch == w.watch
  {
    hide NextVisible, NextDurable, NextHost, EngineMay, MayBegin, Settled, Goal, Acknowledged, AfterSnapshot,
         RequestMay;
  }

  /* ---------- What a round does, by the answers it gets ---------- */

  predicate Records(e: Event, edit: WatchdogEdit) {
    e.WatchWrite? && e.watch == edit
  }

  predicate RecordsOutcome(e: Event, now: Instant, answer: bool) {
    Records(e, if answer then RepairSucceeded(now) else RepairFailed(now))
  }

  /** The service is not meant to run, and the watchdog only suppresses itself. */
  predicate StoodBack(t: seq<Event>) {
    |t| == 2 && t[0] == WatchLoad && Records(t[1], Suppress)
  }

  /** The service is looked at, and the observation is recorded as it was. */
  predicate Looked(t: seq<Event>, now: Instant, healthy: bool) {
    && |t| == 3 && t[0] == WatchLoad && t[1] == WatchObserved(healthy)
    && Records(t[2], if healthy then ObservedHealthy(now) else ObservedFailure(now))
  }

  /** The part of a round before the gate; only a failed observation goes further, if the record can be read again. */
  predicate ObserveTrace(t: seq<Event>, now: Instant, healthy: bool, loads: bool, repair: bool) {
    if repair then !healthy && loads && |t| == 4 && Looked(t[..3], now, false) && t[3] == WatchRecheck
    else
      || StoodBack(t) || Looked(t, now, healthy)
      || (!healthy && !loads && |t| == 4 && Looked(t[..3], now, false) && t[3] == WatchLoadFailed)
      || (!healthy && loads && |t| == 5 && Looked(t[..3], now, false) && t[3] == WatchRecheck &&
          Records(t[4], Suppress))
  }

  /** The part inside the gate: the repair's answer is what is recorded, unless the session was cancelled. */
  predicate RepairTrace(t: seq<Event>, now: Instant, answer: bool, loads: bool, repaired: bool) {
    && |t| >= 3 && t[0] == WatchPublish && t[|t| - 1] == WatchRelease
    && if repaired
       then
         && loads && |t| == 5 && t[1] == WatchReload && t[2] == WatchRepaired(answer)
         && (Records(t[3], RefundRepair) || RecordsOutcome(t[3], now, answer))
       else
         || (|t| == 3 && t[1] == WatchLoadFailed)
         || (loads && |t| == 4 && t[1] == WatchReload && Records(t[2], Suppress))
  }

  datatype Round = Blocked | Ended(repaired: bool)

  /** What the round is told from outside: the two answers, and whether its second and third reading succeed. */
  datatype Told = Told(healthy: bool, answer: bool, second: bool, third: bool)

  predicate RoundTrace(t: seq<Event>, now: Instant, told: Told, round: Round) {
    || (round.Blocked? && ObserveTrace(t, now, told.healthy, told.second, true))
    || (round == Ended(false) && ObserveTrace(t, now, told.healthy, told.second, false))
    || (round.Ended? && |t| >= 5 && ObserveTrace(t[..4], now, told.healthy, told.second, true) && t[4] == WatchLock &&
        RepairTrace(t[5..], now, told.answer, told.third, round.repaired))
  }

  /** How many repairs were carried out. */
  function RepairsDone(events: seq<Event>): nat {
    if events == [] then 0
    else RepairsDone(events[..|events| - 1]) + if events[|events| - 1].WatchRepaired? then 1 else 0
  }

  lemma {:induction false} RepairsOfConcat(a: seq<Event>, b: seq<Event>)
    ensures RepairsDone(a + b) == RepairsDone(a) + RepairsDone(b)
    decreases |b|
  {
    if b == [] {
      assert a + b == a;
    } else {
      assert (a + b)[..|a + b| - 1] == a + b[..|b| - 1];
      RepairsOfConcat(a, b[..|b| - 1]);
    }
  }

  lemma {:induction false} NoRepairs(t: seq<Event>)
    requires forall k :: 0 <= k < |t| ==> !t[k].WatchRepaired?
    ensures RepairsDone(t) == 0
    decreases |t|
  {
    if t != [] {
      NoRepairs(t[..|t| - 1]);
    }
  }

  /** A round that follows its table repairs once if it says so, and otherwise not at all. */
  lemma RoundsRepairOnce(t: seq<Event>, now: Instant, told: Told, round: Round)
    requires RoundTrace(t, now, told, round)
    ensures RepairsDone(t) == if round == Ended(true) then 1 else 0
    ensures round == Ended(true) ==> !told.healthy && told.second && told.third
  {
    if round == Ended(true) {
      assert t[5..][2] == t[7] && t == t[..7] + [t[7]] + t[8..];
      NoRepairs(t[..7]);
      NoRepairs(t[8..]);
      RepairsOfConcat(t[..7] + [t[7]], t[8..]);
      RepairsOfConcat(t[..7], [t[7]]);
      assert [t[7]][..0] == [];
    } else {
      forall k | 0 <= k < |t| ensures !t[k].WatchRepaired? {
        if k >= 5 && round == Ended(false) {
          assert t[k] == t[5..][k - 5];
        }
      }
      NoRepairs(t);
    }
  }

  /* ---------- What a round leaves on record when nothing disturbs it ---------- */

  /** The positions of the instants in the window that ends at `now`. */
  function InWindow(times: seq<Instant>, now: Instant): set<int> {
    set i | 0 <= i < |times| && times[i] > now - 600
  }

  lemma {:induction false} RecentCounts(times: seq<Instant>, now: Instant)
    ensures |Recent(times, now)| == |InWindow(times, now)|
    decreases |times|
  {
    if times == [] {
      assert InWindow(times, now) == {};
    } else {
      var n := |times| - 1;
      var init := times[..n];
      RecentCounts(init, now);
      RecentOfLast(init, times[n], now);
      assert times == init + [times[n]];
      assert InWindow(times, now) ==
             InWindow(init, now) + if times[n] > now - 600 then {n} else {};
    }
  }

  lemma {:induction false} RecentOfLast(times: seq<Instant>, last: Instant, now: Instant)
    ensures Recent(times + [last], now) == Recent(times, now) + if last + REPAIR_WINDOW > now then [last] else []
    decreases |times|
  {
    if times == [] {
      assert times + [last] == [last] && [last][1..] == [];
    } else {
      assert (times + [last])[1..] == times[1..] + [last];
      RecentOfLast(times[1..], last, now);
    }
  }

  /** The clock is past every recorded attempt. */
  predicate Sensible(w: WatchdogState, now: Instant) {
    now > 0 && Upto(w.attempts, now)
  }

  /** The failed observation is the third in a row, outside any cooldown, with a repair left in the window. */
  predicate Due(w: WatchdogState, now: Instant) {
    w.cooldownUntil <= now && w.failures >= 2 && |InWindow(w.attempts, now)| < 3
  }

  lemma DueIsRepairDue(w: WatchdogState, now: Instant)
    ensures Due(w, now) <==> RepairDue(w, now)
  {
    RecentCounts(w.attempts, now);
  }

  /** A failed observation is on record, one further if it did not complete the third and no cooldown holds. */
  predicate FailureNoted(w: WatchdogState, after: WatchdogState, now: Instant) {
    && after.errorCode == ObservationFailed && after.lastObservedAt == now && after.lastRepairAt == w.lastRepairAt
    && after.attempts == Recent(w.attempts, now)
    && if w.cooldownUntil > now
       then after.status == WatchDegraded && after.failures == 0 && after.cooldownUntil == w.cooldownUntil
       else if w.failures < 2
       then after.status == WatchObserving && after.failures == w.failures + 1 && after.cooldownUntil == 0
       else after.status == WatchDegraded && after.failures == 0 && after.cooldownUntil == now + 900
  }

  /** The service was found healthy, or repaired, at `now`. */
  predicate HealthyNoted(after: WatchdogState, attempts: seq<Instant>, now: Instant) {
    && after.status == WatchHealthy && after.failures == 0 && after.cooldownUntil == 0
    && after.errorCode == NoWatchError && after.lastObservedAt == now && after.attempts == attempts
  }

  /** The repair that began at `now` did not help; the third in the window starts the cooldown. */
  predicate RepairFailureNoted(after: WatchdogState, attempts: seq<Instant>, now: Instant) {
    && after.errorCode == RepairUnsuccessful && after.failures == 0 && after.lastRepairAt == now
    && after.attempts == attempts
    && if |attempts| >= 3 then after.status == WatchDegraded && after.cooldownUntil == now + 900
       else after.status == WatchObserving && after.cooldownUntil == 0
  }

  /** What an undisturbed round leaves on record for the two answers it was given. */
  predicate RoundNoted(s: RuntimeState, now: Instant, healthy: bool, answer: bool, after: WatchdogState) {
    var w := s.watchdog;
    if s.desired != Running then
      after == w.(status := WatchSuppressed, failures := 0, cooldownUntil := 0, errorCode := NoWatchError)
    else if healthy then HealthyNoted(after, Recent(w.attempts, now), now) && after.lastRepairAt == w.lastRepairAt
    else if !Due(w, now) then FailureNoted(w, after, now)
    else if answer then HealthyNoted(after, Recent(w.attempts, now) + [now], now) && after.lastRepairAt == now
    else RepairFailureNoted(after, Recent(w.attempts, now) + [now], now)
  }

  /** With the clock past every attempt the watchdog's own edits are valid. */
  lemma EditsAreValid(w: WatchdogState, now: Instant)
    requires WatchdogValid(w) && Sensible(w, now)
    ensures WatchdogValid(Suppressed(w)) && WatchdogValid(AfterHealthyObservation(w, now))
    ensures WatchdogValid(AfterFailedObservation(w, now))
  {
    hide Recent, RepairDue, ThresholdReached, AfterFailedObservation;
    PrunedIsValid(w, now);
    FailedIsValid(w, Recent(w.attempts, now), now);
  }

  /** A list of attempts as a valid record has it, from `now` or before. */
  predicate Orderly(times: seq<Instant>, now: Instant) {
    && (forall k :: 0 <= k < |times| ==> times[k] != 0 && times[k] <= now)
    && (forall i, k :: 0 <= i < k < |times| ==> times[i] <= times[k])
  }

  lemma PrunedIsValid(w: WatchdogState, now: Instant)
    requires WatchdogValid(w) && Sensible(w, now)
    ensures Orderly(Recent(w.attempts, now), now) && |Recent(w.attempts, now)| <= MAX_REPAIRS
  {
    hide Recent;
    assert InOrder(w.attempts);
    var from := RecentIsSuffix(w.attempts, now);
    var recent := w.attempts[from..];
    forall k | 0 <= k < |recent| ensures recent[k] != 0 && recent[k] <= now {
      assert recent[k] == w.attempts[from + k];
    }
    forall i, k | 0 <= i < k < |recent| ensures recent[i] <= recent[k] {
      assert recent[i] == w.attempts[from + i] && recent[k] == w.attempts[from + k];
    }
  }

  lemma FailedIsValid(w: WatchdogState, recent: seq<Instant>, now: Instant)
    requires WatchdogValid(w) && now > 0 && recent == Recent(w.attempts, now)
    requires Orderly(recent, now) && |recent| <= MAX_REPAIRS
    ensures WatchdogValid(AfterFailedObservation(w, now))
  {
    hide Recent;
    if RepairDue(w, now) {
      LaterIsOrderly(recent, now);
    }
  }

  lemma LaterIsOrderly(times: seq<Instant>, now: Instant)
    requires Orderly(times, now) && now > 0
    ensures Orderly(times + [now], now)
  {
  }

  class Watchdog {
    const d: Daemon

    constructor (d: Daemon)
      ensures this.d == d
    {
      this.d := d;
    }

    /** Nothing goes wrong, and no other thread acts. */
    ghost predicate Quiet()
      reads d
    {
      d.alone && d.reliable && Sensible(d.visible.watchdog, d.clock)
    }

    /** recentWatchdogAttempts builds the list of attempts that are still in the window. */
    method RecentAttempts(attempts: seq<Instant>, now: Instant) returns (recent: seq<Instant>)
      ensures recent == Recent(attempts, now)
    {
      recent := [];
      var i := 0;
      while i < |attempts|
        invariant i <= |attempts| && recent + Recent(attempts[i..], now) == Recent(attempts, now)
      {
        if attempts[i] + REPAIR_WINDOW > now {
          recent := recent + [attempts[i]];
        }
        assert attempts[i..][1..] == attempts[i + 1..];
        i := i + 1;
      }
    }

    /** The other threads run for a while. */
    method Pause()
      requires d.Valid()
      modifies d
      ensures d.Valid() && d.watch == old(d.watch) && Own(d.events) == old(Own(d.events))
      ensures d.alone ==> d.Now() == old(d.Now())
    {
      hide Daemon.Valid, Enabled, Step;
      var more: nat := *;
      if d.alone {
        more := 0;
      }
      while more > 0
        invariant d.Valid() && d.watch == old(d.watch) && Own(d.events) == old(Own(d.events))
        invariant d.alone ==> more == 0 && d.Now() == old(d.Now())
      {
        var e: Event := *;
        if Enabled(d.Now(), e) && !WatchEvent(e) && !e.Crash? {
          OthersLeaveWatch(d.x, d.Now(), e);
          OneMoreEvent(d.events, e);
          d.Take(e);
        }
        more := more - 1;
      }
    }

    /** One step of the watchdog. */
    method Do(e: Event)
      requires d.Valid() && WatchEvent(e) && Enabled(d.Now(), e)
      modifies d
      ensures d.Valid() && d.Now() == Step(d.x, old(d.Now()), e)
      ensures Own(d.events) == old(Own(d.events)) + [e]
    {
      hide Daemon.Valid, Enabled, Step;
      OneMoreEvent(d.events, e);
      d.Take(e);
    }

    /** The desired state is read, and the round gets its instant. */
    method Load()
      requires d.Valid() && d.watch == Idle
      modifies d
      ensures d.Valid() && Own(d.events) == old(Own(d.events)) + [WatchLoad]
      ensures d.Now() ==
              old(d.Now()).(watch := if d.visible.desired == Running then Observing(d.clock) else Suppressing)
    {
      hide Daemon.Valid, NextVisible, NextDurable, NextHost, EngineMay, MayBegin, Settled, Goal, Acknowledged,
           AfterSnapshot, RequestMay, HasActive;
      Do(WatchLoad);
    }

    /** ObserveWatchdog answers. */
    method Look(healthy: bool)
      requires d.Valid() && d.watch.Observing?
      modifies d
      ensures d.Valid() && Own(d.events) == old(Own(d.events)) + [WatchObserved(healthy)]
      ensures d.Now() == old(d.Now()).(watch := Reporting(old(d.watch.now), healthy))
    {
      hide Daemon.Valid, NextVisible, NextDurable, NextHost, EngineMay, MayBegin, Settled, Goal, Acknowledged,
           AfterSnapshot, RequestMay, HasActive;
      Do(WatchObserved(healthy));
    }

    /** The record is read again before a repair. */
    method Recheck()
      requires d.Valid() && d.watch.Rechecking?
      modifies d
      ensures d.Valid() && Own(d.events) == old(Own(d.events)) + [WatchRecheck]
      ensures d.Now() ==
              old(d.Now()).(watch := if d.visible.desired == Running then Waiting(old(d.watch.now)) else Suppressing)
    {
      hide Daemon.Valid, NextVisible, NextDurable, NextHost, EngineMay, MayBegin, Settled, Goal, Acknowledged,
           AfterSnapshot, RequestMay, HasActive;
      Do(WatchRecheck);
    }

    /** The record could not be read. */
    method GiveUp()
      requires d.Valid() && (d.watch.Rechecking? || d.watch.Published?)
      modifies d
      ensures d.Valid() && Own(d.events) == old(Own(d.events)) + [WatchLoadFailed]
      ensures d.Now() == old(d.Now()).(watch := if old(d.watch.Published?) then Releasing else Idle)
    {
      hide Daemon.Valid, NextVisible, NextDurable, NextHost, EngineMay, MayBegin, Settled, Goal, Acknowledged,
           AfterSnapshot, RequestMay, HasActive;
      Do(WatchLoadFailed);
    }

    /** The operation lock is free and taken. */
    method Enter()
      requires d.Valid() && d.watch.Waiting? && d.gate.lock == None
      modifies d
      ensures d.Valid() && Own(d.events) == old(Own(d.events)) + [WatchLock]
      ensures d.Now() ==
              old(d.Now()).(watch := Locked(old(d.watch.now)), gate := old(d.gate).(lock := Some(WatchdogOwns)))
    {
      hide Daemon.Valid, NextVisible, NextDurable, NextHost, EngineMay, MayBegin, Settled, Goal, Acknowledged,
           AfterSnapshot, RequestMay, HasActive;
      Do(WatchLock);
    }

    /** The repair session is published, so that it can be cancelled. */
    method Publish()
      requires d.Valid() && d.watch.Locked?
      modifies d
      ensures d.Valid() && Own(d.events) == old(Own(d.events)) + [WatchPublish]
      ensures d.Now() ==
              old(d.Now()).(watch := Published(old(d.watch.now)),
                            gate := old(d.gate).(published := true, cancelled := false))
    {
      hide Daemon.Valid, NextVisible, NextDurable, NextHost, EngineMay, MayBegin, Settled, Goal, Acknowledged,
           AfterSnapshot, RequestMay, HasActive;
      Do(WatchPublish);
    }

    /** The record is read once more inside the gate. */
    method Reload()
      requires d.Valid() && d.watch.Published? && !d.gate.cancelled
      modifies d
      ensures d.Valid() && Own(d.events) == old(Own(d.events)) + [WatchReload]
      ensures d.Now() ==
              old(d.Now()).(
                watch := if d.visible.desired == Running then Repairing(old(d.watch.now)) else LockedSuppressing)
    {
      hide Daemon.Valid, NextVisible, NextDurable, NextHost, EngineMay, MayBegin, Settled, Goal, Acknowledged,
           AfterSnapshot, RequestMay, HasActive;
      Do(WatchReload);
    }

    /** RepairWatchdog answers; a cancellation counts as an interruption whatever it says. */
    method RunRepair(ok: bool)
      requires d.Valid() && d.watch.Repairing?
      modifies d
      ensures d.Valid() && Own(d.events) == old(Own(d.events)) + [WatchRepaired(ok)]
      ensures var result := if old(d.gate.cancelled) then Interrupted else if ok then Repaired else NotRepaired;
              d.Now() == old(d.Now()).(watch := Finishing(old(d.watch.now), result))
    {
      hide Daemon.Valid, NextVisible, NextDurable, NextHost, EngineMay, MayBegin, Settled, Goal, Acknowledged,
           AfterSnapshot, RequestMay, HasActive;
      Do(WatchRepaired(ok));
    }

    /** The gate is given back. */
    method Leave()
      requires d.Valid() && d.watch == Releasing
      modifies d
      ensures d.Valid() && Own(d.events) == old(Own(d.events)) + [WatchRelease]
      ensures d.Now() == old(d.Now()).(watch := Idle, gate := Gate(None, false, false))
    {
      hide Daemon.Valid, NextVisible, NextDurable, NextHost, EngineMay, MayBegin, Settled, Goal, Acknowledged,
           AfterSnapshot, RequestMay, HasActive;
      Do(WatchRelease);
    }

    /** Store.Update for the watchdog's pending transaction; the error is not looked at where the code does not. */
    method Save(edit: WatchdogEdit) returns (ghost e: Event)
      requires d.Valid() && WatchMay(d.watch, edit)
      modifies d
      ensures d.Valid() && Records(e, edit) && Own(d.events) == old(Own(d.events)) + [e]
      ensures d.watch == Idle || d.watch == Releasing || d.watch.Rechecking?
      ensures d.watch.Rechecking? ==> edit.ObservedFailure? && d.watch.now == edit.now
      ensures d.watch == Releasing <==> old(LockHeld(d.watch))
      ensures d.visible == NextVisible(d.x, old(d.Now()), OnWatchdog(edit), e.o)
      ensures d.clock == old(d.clock) && d.gate == old(d.gate)
      ensures d.reliable && !old(d.watch == LockedSuppressing && d.gate.cancelled) ==> e.o == Saved
      ensures !old(LockHeld(d.watch)) ==>
                (d.watch.Rechecking? <==>
                  && edit.ObservedFailure? && e.o == Saved && Accepted(d.x, old(d.visible), OnWatchdog(edit))
                  && old(d.visible.desired) == Running && RepairDue(old(d.visible.watchdog), edit.now))
    {
      hide Daemon.Valid, StateValid, Effect, RepairDue, NextHost, EngineMay, MayBegin, Settled, Goal, AfterSnapshot,
           RequestMay, HasActive, RecoveryImage, Issued;
      var o: Outcome := *;
      if d.reliable {
        o := Saved;
      }
      if d.watch == LockedSuppressing && d.gate.cancelled {
        o := Lost;
      }
      e := WatchWrite(edit, o);
      Do(WatchWrite(edit, o));
    }

    /** The record is valid, so an edit that keeps the watchdog's part valid is accepted. */
    lemma EditIsAccepted(edit: WatchdogEdit)
      requires d.Valid()
      ensures WatchdogValid(d.visible.watchdog)
      ensures WatchdogValid(WatchdogEffect(d.visible, edit).watchdog) ==>
                && Accepted(d.x, d.visible, OnWatchdog(edit))
                && Effect(d.visible, OnWatchdog(edit)).value == WatchdogEffect(d.visible, edit)
    {
      hide Daemon.Valid, Inv, WatchdogValid, WatchdogEffect, JobValid, PlanValid, DiscoveryValid;
      d.Reachable();
      ValidInInv(d.x, d.Now());
      WatchdogAcceptedIffValid(d.x, d.visible, edit);
    }

    /** A saved edit that is valid changes the watchdog's record, and nothing else of the record. */
    method SaveValid(edit: WatchdogEdit) returns (ghost e: Event)
      requires d.Valid() && WatchMay(d.watch, edit)
      modifies d
      ensures d.Valid() && Records(e, edit) && Own(d.events) == old(Own(d.events)) + [e]
      ensures d.watch == Idle || d.watch == Releasing || d.watch.Rechecking?
      ensures d.watch.Rechecking? ==> edit.ObservedFailure? && d.watch.now == edit.now
      ensures d.watch == Releasing <==> old(LockHeld(d.watch))
      ensures d.clock == old(d.clock) && d.gate == old(d.gate)
      ensures var s := old(d.visible);
              && WatchdogValid(s.watchdog)
              && (d.reliable && !old(d.watch == LockedSuppressing && d.gate.cancelled) &&
                  WatchdogValid(WatchdogEffect(s, edit).watchdog) ==>
                    && d.visible == WatchdogEffect(s, edit)
                    && (d.watch.Rechecking? <==>
                          !old(LockHeld(d.watch)) && edit.ObservedFailure? && s.desired == Running &&
                          RepairDue(s.watchdog, edit.now)))
    {
      hide Daemon.Valid, WatchdogValid, WatchdogEffect, Accepted, Effect, RepairDue, Watchdog.Quiet;
      EditIsAccepted(edit);
      e := Save(edit);
    }

    /** The service is observed and the observation recorded. */
    method Report(healthy: bool) returns (ghost e: Event)
      requires d.Valid() && d.watch.Observing?
      modifies d
      ensures d.Valid() && Looked([WatchLoad, WatchObserved(healthy), e], old(d.watch.now), healthy)
      ensures Own(d.events) == old(Own(d.events)) + [WatchObserved(healthy), e]
      ensures d.watch == Idle || d.watch == WatchPc.Rechecking(old(d.watch.now))
      ensures healthy ==> d.watch == Idle
      ensures old(Quiet() && d.visible.desired == Running && d.watch.now == d.clock) ==>
                && d.visible == ObservedRecord(old(d.visible), old(d.clock), healthy) && d.gate == old(d.gate)
                && (d.watch.Rechecking? <==> !healthy && RepairDue(old(d.visible.watchdog), old(d.clock)))
    {
      hide Daemon.Valid, Own, WatchdogValid, RepairDue, AfterFailedObservation, AfterHealthyObservation, Suppressed,
           Upto;
      if Quiet() {
        RecordValid();
        EditsAreValid(d.visible.watchdog, d.clock);
      }
      Look(healthy);
      Pause();
      e := SaveValid(if healthy then ObservedHealthy(d.watch.now) else ObservedFailure(d.watch.now));
    }

    /** An attempt was spent; the record is read again, and a repair follows if the service is still meant to run. */
    method Confirm(loads: bool) returns (repair: bool, ghost more: seq<Event>)
      requires d.Valid() && d.watch.Rechecking?
      modifies d
      ensures d.Valid() && Own(d.events) == old(Own(d.events)) + more
      ensures if repair then more == [WatchRecheck] && d.watch == Waiting(old(d.watch.now))
              else
                && d.watch == Idle
                && if !loads then more == [WatchLoadFailed]
                   else |more| == 2 && more[0] == WatchRecheck && Records(more[1], Suppress)
      ensures repair ==> loads
      ensures d.alone && d.reliable && loads && old(d.visible.desired) == Running ==>
                repair && d.visible == old(d.visible) && d.gate == old(d.gate)
    {
      hide Daemon.Valid, Own, WatchdogValid, Suppressed;
      repair := false;
      if !loads {
        GiveUp();
        return repair, [WatchLoadFailed];
      }
      Recheck();
      Pause();
      if d.watch == Suppressing {
        ghost var e := SaveValid(Suppress);
        return repair, [WatchRecheck, e];
      }
      return true, [WatchRecheck];
    }

    /**
      Reconcile up to the gate: the service is observed, the observation is recorded, and
      only if that spent an attempt, and the service is still meant to run, a repair is due.
     */
    method Observe(healthy: bool, loads: bool) returns (repair: bool, ghost t: seq<Event>)
      requires d.Valid() && d.watch == Idle
      modifies d
      ensures d.Valid() && Own(d.events) == old(Own(d.events)) + t
      ensures ObserveTrace(t, old(d.clock), healthy, loads, repair)
      ensures d.watch == if repair then Waiting(old(d.clock)) else Idle
      ensures old(Quiet()) && loads ==>
                && d.visible == ObservedRecord(old(d.visible), old(d.clock), healthy) && d.gate == old(d.gate)
                && (repair <==>
                      old(d.visible.desired) == Running && !healthy && RepairDue(old(d.visible.watchdog), old(d.clock)))
                && (if old(d.visible.desired) != Running then StoodBack(t)
                    else if repair then true else Looked(t, old(d.clock), healthy))
    {
      hide Daemon.Valid, Own, WatchdogValid, RepairDue, AfterFailedObservation, AfterHealthyObservation, Suppressed,
           Upto, Looked;
      repair := false;
      if Quiet() {
        RecordValid();
        EditsAreValid(d.visible.watchdog, d.clock);
      }
      Load();
      Pause();
      ghost var e;
      if d.watch == Suppressing {
        e := SaveValid(Suppress);
        return repair, [WatchLoad, e];
      }
      e := Report(healthy);
      t := [WatchLoad, WatchObserved(healthy), e];
      Pause();
      if d.watch.Rechecking? {
        ghost var more;
        repair, more := Confirm(loads);
        assert (t + more)[..3] == t;
        t := t + more;
      }
    }

    lemma RecordValid()
      requires d.Valid()
      ensures WatchdogValid(d.visible.watchdog)
    {
      hide Daemon.Valid, WatchdogValid, WatchdogEffect, Accepted, Effect;
      EditIsAccepted(Suppress);
    }

    /** The repair runs, and its outcome or its refund is recorded. */
    method RunAndRecord(answer: bool) returns (ghost e: Event)
      requires d.Valid() && d.watch.Repairing?
      modifies d
      ensures d.Valid() && d.watch == Releasing && Own(d.events) == old(Own(d.events)) + [WatchRepaired(answer), e]
      ensures Records(e, RefundRepair) || RecordsOutcome(e, old(d.watch.now), answer)
      ensures d.alone && d.reliable && old(!d.gate.cancelled && d.watch.now > 0) ==>
                RecordsOutcome(e, old(d.watch.now), answer) &&
                d.visible == RepairedRecord(old(d.visible), old(d.watch.now), answer)
    {
      hide Daemon.Valid, Own, WatchdogValid, AfterRepairSuccess, AfterRepairFailure, AfterRefund, HasActive;
      RecordValid();
      RepairEditsAreValid(d.visible.watchdog, d.watch.now);
      RunRepair(answer);
      Pause();
      e := SaveValid(match d.watch.result
                     case Interrupted => RefundRepair
                     case Repaired => RepairSucceeded(d.watch.now)
                     case NotRepaired => RepairFailed(d.watch.now));
    }

    /** With the session published the record is read once more, and the repair runs unless that fails or it is off. */
    method RepairPublished(answer: bool, loads: bool) returns (repaired: bool, ghost more: seq<Event>)
      requires d.Valid() && d.watch.Published?
      modifies d
      ensures d.Valid() && d.watch == Releasing && Own(d.events) == old(Own(d.events)) + more
      ensures if repaired then
                && loads && |more| == 3 && more[0] == WatchReload && more[1] == WatchRepaired(answer)
                && (Records(more[2], RefundRepair) || RecordsOutcome(more[2], old(d.watch.now), answer))
              else
                || more == [WatchLoadFailed]
                || (loads && |more| == 2 && more[0] == WatchReload && Records(more[1], Suppress))
      ensures d.alone && d.reliable && loads &&
              old(d.visible.desired == Running && !d.gate.cancelled && d.watch.now > 0) ==>
                && repaired && d.visible == RepairedRecord(old(d.visible), old(d.watch.now), answer)
                && RecordsOutcome(more[2], old(d.watch.now), answer)
    {
      hide Daemon.Valid, Own, WatchdogValid, AfterRepairSuccess, AfterRepairFailure, RecordsOutcome, Suppressed;
      repaired := false;
      if !loads || d.gate.cancelled {
        GiveUp();
        return repaired, [WatchLoadFailed];
      }
      Reload();
      Pause();
      ghost var e;
      if d.watch == LockedSuppressing {
        e := SaveValid(Suppress);
        return repaired, [WatchReload, e];
      }
      e := RunAndRecord(answer);
      return true, [WatchReload, WatchRepaired(answer), e];
    }

    /**
      Reconcile inside the gate: the desired state is read again, the repair runs unless
      it changed, its outcome or its refund is recorded, and the gate is given back in
      every case.
     */
    method Repair(answer: bool, loads: bool) returns (repaired: bool, ghost t: seq<Event>)
      requires d.Valid() && d.watch.Locked?
      modifies d
      ensures d.Valid() && d.watch == Idle && Own(d.events) == old(Own(d.events)) + t
      ensures RepairTrace(t, old(d.watch.now), answer, loads, repaired)
      ensures loads && old(d.alone && d.reliable && d.visible.desired == Running && d.watch.now > 0) ==>
                && repaired && d.visible == RepairedRecord(old(d.visible), old(d.watch.now), answer)
                && RecordsOutcome(t[3], old(d.watch.now), answer)
    {
      hide Daemon.Valid, Own, RecordsOutcome, RepairedRecord;
      Publish();
      Pause();
      ghost var more;
      repaired, more := RepairPublished(answer, loads);
      Pause();
      Leave();
      t := [WatchPublish] + more + [WatchRelease];
    }

    /**
      Reconcile: one round, with at most one repair; it ends unless it still waits for the
      gate. Its events carry what it was told from outside, and undisturbed it repairs exactly
      when a repair is due and leaves on record what the answers call for.
     */
    method Reconcile(told: Told) returns (round: Round, ghost t: seq<Event>)
      requires d.Valid() && d.watch == Idle
      modifies d
      ensures d.Valid() && Own(d.events) == old(Own(d.events)) + t
      ensures RoundTrace(t, old(d.clock), told, round)
      ensures d.watch == if round.Blocked? then Waiting(old(d.clock)) else Idle
      ensures RepairsDone(t) == if round == Ended(true) then 1 else 0
      ensures old(Quiet()) && told.second && told.third ==>
                && d.visible == old(d.visible).(watchdog := d.visible.watchdog)
                && (round == Ended(true) || round.Blocked? <==>
                      !told.healthy && old(d.visible.desired == Running && Due(d.visible.watchdog, d.clock)))
                && (round.Blocked? ==> old(d.gate.lock) != None)
                && (!round.Blocked? ==>
                      RoundNoted(old(d.visible), old(d.clock), told.healthy, told.answer, d.visible.watchdog))
    {
      hide Daemon.Valid, Step, Own, RepairDue, ObserveTrace, RepairTrace, Recent, InWindow, Upto;
      ghost var s, now, e := d.visible, d.clock, true;
      DueIsRepairDue(s.watchdog, now);
      var repair;
      repair, t := Observe(told.healthy, told.second);
      assert t + [] == t;
      RoundRecords(s, now, told.healthy, told.answer);
      if !repair {
        round := Ended(false);
        RoundsRepairOnce(t, now, told, round);
        return;
      }
      Pause();
      if d.gate.lock != None {
        round := Blocked;
        RoundsRepairOnce(t, now, told, round);
        return;
      }
      Enter();
      Pause();
      ghost var first := t;
      var repaired;
      ghost var rest;
      repaired, rest := Repair(told.answer, told.third);
      round := Ended(repaired);
      t := first + [WatchLock] + rest;
      GateTrace(first, rest, now, told, repaired);
      RoundsRepairOnce(t, now, told, round);
    }
  }

  /** The record after an observation. */
  function ObservedRecord(s: RuntimeState, now: Instant, healthy: bool): RuntimeState {
    s.(watchdog :=
         if s.desired != Running then Suppressed(s.watchdog)
         else if healthy then AfterHealthyObservation(s.watchdog, now)
         else AfterFailedObservation(s.watchdog, now))
  }

  /** The record after a repair that was not interrupted. */
  function RepairedRecord(s: RuntimeState, now: Instant, answer: bool): RuntimeState {
    s.(watchdog := if answer then AfterRepairSuccess(s.watchdog, now) else AfterRepairFailure(s.watchdog, now))
  }

  lemma RepairEditsAreValid(w: WatchdogState, now: Instant)
    requires WatchdogValid(w)
    ensures now > 0 ==> WatchdogValid(AfterRepairSuccess(w, now)) && WatchdogValid(AfterRepairFailure(w, now))
  {
  }

  /** What the observation's and the repair's edits leave on record. */
  lemma RoundRecords(s: RuntimeState, now: Instant, healthy: bool, answer: bool)
    ensures var seen := ObservedRecord(s, now, healthy);
            && seen.desired == s.desired
            && (if s.desired == Running && !healthy && RepairDue(s.watchdog, now)
                then RoundNoted(s, now, healthy, answer, RepairedRecord(seen, now, answer).watchdog)
                else RoundNoted(s, now, healthy, answer, seen.watchdog))
  {
    hide Recent, InWindow;
    DueIsRepairDue(s.watchdog, now);
  }

  lemma GateTrace(first: seq<Event>, rest: seq<Event>, now: Instant, told: Told, repaired: bool)
    requires ObserveTrace(first, now, told.healthy, told.second, true)
    requires RepairTrace(rest, now, told.answer, told.third, repaired)
    ensures RoundTrace(first + [WatchLock] + rest, now, told, Ended(repaired))
  {
    hide RepairTrace, Looked;
    var t := first + [WatchLock] + rest;
    assert t[..4] == first && t[5..] == rest;
  }
}
