/**
  One published round of the watchdog, from publishing its repair session to giving the
  gate back, in any run: which cancellation gives the round's attempt back.
 */
module Rounds {
  import opened Wrappers
  import opened Text
  import opened Release
  import opened State
  import opened Changes
  import opened System
  import opened Safety
  import opened Runs
  import opened Acceptance
  import opened Races
  import opened Timeline
  import opened History

  /** Event `p` publishes the repair session and event `q` gives the gate back; nothing crashes in between. */
  ghost predicate Round(worlds: seq<World>, events: seq<Event>, p: nat, q: nat) {
    && p < q < |events| && |worlds| == |events| + 1
    && events[p] == WatchPublish && events[q] == WatchRelease
    && (forall j :: p < j < q ==> events[j] != WatchRelease && !events[j].Crash?)
  }

  function Attempts(w: World): seq<Instant> {
    w.visible.watchdog.attempts
  }

  predicate InRound(watch: WatchPc, now: Instant) {
    || watch == WatchPc.Published(now) || watch == LockedSuppressing || watch == WatchPc.Repairing(now)
    || (watch.Finishing? && watch.now == now) || watch == Releasing
  }

  /** A request cancels the session at event `c`, while the repair is carried out. */
  predicate CancelsRepair(worlds: seq<World>, events: seq<Event>, c: nat) {
    c < |events| && c < |worlds| && events[c].CancelRepair? && worlds[c].watch.Repairing?
  }

  /** A request cancels the session at event `c`, before the reload that would start the repair. */
  predicate CancelsEarly(worlds: seq<World>, events: seq<Event>, c: nat) {
    c < |events| && c < |worlds| && events[c].CancelRepair? && worlds[c].watch.Published?
  }

  ghost predicate CancelledInRepair(worlds: seq<World>, events: seq<Event>, p: nat, k: nat) {
    exists c :: p < c < k && CancelsRepair(worlds, events, c)
  }

  ghost predicate CancelledEarly(worlds: seq<World>, events: seq<Event>, p: nat, k: nat) {
    exists c :: p < c < k && CancelsEarly(worlds, events, c)
  }

  lemma OneMoreEvent(worlds: seq<World>, events: seq<Event>, p: nat, k: nat)
    requires p < k
    ensures CancelledInRepair(worlds, events, p, k + 1) <==>
            CancelledInRepair(worlds, events, p, k) || CancelsRepair(worlds, events, k)
    ensures CancelledEarly(worlds, events, p, k + 1) <==>
            CancelledEarly(worlds, events, p, k) || CancelsEarly(worlds, events, k)
  {
    hide CancelsRepair, CancelsEarly;
  }

  /* ---------- One step ---------- */

  predicate RefundWrite(e: Event) {
    e.WatchWrite? && e.watch == RefundRepair
  }

  /** The refund is not lost, and the record still shows the repair as under way. */
  predicate GivesBack(w: World, e: Event) {
    RefundWrite(e) && e.o != Lost && w.visible.watchdog.status == WatchRepairing
  }

  /** How a round goes on, event by event. */
  predicate GoesOn(w: World, w': World, e: Event, now: Instant) {
    && InRound(w'.watch, now) && w'.gate.cancelled == (w.gate.cancelled || e.CancelRepair?)
    && match w.watch
       case Published(_) =>
         || w'.watch == w.watch || w'.watch == Releasing
         || (!w.gate.cancelled && !e.CancelRepair? &&
             (w'.watch == LockedSuppressing || w'.watch == WatchPc.Repairing(now)))
       case LockedSuppressing => w'.watch == w.watch || w'.watch == Releasing
       case Repairing(_) =>
         w'.watch == w.watch ||
         (w'.watch.Finishing? && (w'.watch.result == Interrupted <==> w.gate.cancelled) && !e.CancelRepair?)
       case Finishing(_, result) =>
         if e.WatchWrite? then w'.watch == Releasing && (result == Interrupted <==> RefundWrite(e))
         else w'.watch == w.watch
       case _ => w'.watch == Releasing
  }

  lemma RoundGoesOn(x: Externals, w: World, e: Event, now: Instant)
    requires Enabled(w, e) && !e.Crash? && e != WatchRelease && InRound(w.watch, now) && PublishedInside(w)
    ensures GoesOn(w, Step(x, w, e), e, now)
    ensures RefundWrite(e) ==> w.watch.Finishing? && w.watch.result == Interrupted
  {
    hide NextVisible, NextDurable, NextHost, EngineMay, MayBegin, Settled, Goal, Acknowledged, RecoveryImage,
         IsActive, Issued, HasActive, TokenAllowed, RestartOffered, RepairDue, RequestMay, AfterSnapshot;
  }

  /** Inside the round nothing but the refund touches the recorded attempts. */
  lemma RoundKeepsAttempts(x: Externals, w: World, e: Event, now: Instant)
    requires Enabled(w, e) && !e.Crash? && InRound(w.watch, now) && !RefundWrite(e)
    ensures Attempts(Step(x, w, e)) == Attempts(w)
  {
    hide Step, Enabled, StateValid, Effect, HasActive, EngineMay, RequestMay;
    StepRecord(x, w, e);
    if Writes(e) && Accepted(x, w.visible, ChangeOf(e)) {
      EffectIsNote(w.visible, ChangeOf(e));
      if e.WatchWrite? {
        RoundWrites(w, e, now);
      } else {
        NoteIsOfRound(x, w, e);
      }
    }
  }

  /** The watchdog's own writes inside the gate note a suppression or the repair's outcome. */
  lemma RoundWrites(w: World, e: Event, now: Instant)
    requires Enabled(w, e) && e.WatchWrite? && InRound(w.watch, now) && !RefundWrite(e)
    ensures var note := NoteOf(w.visible, ChangeOf(e));
            note == [Suppression] || note == [RepairSuccess(now)] || note == [RepairFailure(now)]
  {
    hide HasActive;
  }

  /* ---------- The attempt at the start of the round ---------- */

  lemma {:induction false} SuppressionsKeepAttempts(start: WatchdogState, notes: seq<Note>, p: nat, k: nat)
    requires p < k <= |notes| && forall i :: p < i < k ==> notes[i] == Suppression
    ensures Replay(start, notes, k).attempts == Replay(start, notes, p + 1).attempts
  {
    if p + 1 < k {
      SuppressionsKeepAttempts(start, notes, p, k - 1);
    }
  }

  /** While a repair is considered, its attempt is the last recorded one. */
  lemma NotedIsRecorded(start: WatchdogState, notes: seq<Note>, now: Instant)
    requires Noted(start, notes, now)
    ensures var attempts := Replay(start, notes, |notes|).attempts; attempts != [] && attempts[|attempts| - 1] == now
  {
    hide Recent, Replay;
    var i :| 0 <= i < |notes| && NotedAt(start, notes, now, i);
    SpentIsLast(start, notes, i);
    SuppressionsKeepAttempts(start, notes, i, |notes|);
  }

  lemma RoundStarts(x: Externals, worlds: seq<World>, events: seq<Event>, p: nat)
    requires IsRun(x, worlds, events) && p < |worlds| && worlds[p].watch.Locked?
    ensures Attempts(worlds[p]) != [] && Attempts(worlds[p])[|Attempts(worlds[p])| - 1] == worlds[p].watch.now
  {
    hide IsRun, HistoriesAt, Timely, Latest, Noted, Replay;
    RunIsLong(x, worlds, events);
    RecordIsReplay(x, worlds, events, p);
    NotedIsRecorded(worlds[0].visible.watchdog, HistoriesAt(x, worlds, events, p).visible, worlds[p].watch.now);
  }

  /* ---------- The whole round ---------- */

  function Front(times: seq<Instant>): seq<Instant> {
    if times == [] then [] else times[..|times| - 1]
  }

  /** The round's refund ran as event `f`, and decided what became of the attempt. */
  ghost predicate RefundDecides(worlds: seq<World>, events: seq<Event>, p: nat, k: nat, f: nat) {
    && p < f < k && k < |worlds| && k <= |events| && RefundWrite(events[f]) && CancelledInRepair(worlds, events, p, f)
    && Attempts(worlds[k]) ==
       if GivesBack(worlds[f], events[f]) then Front(Attempts(worlds[p])) else Attempts(worlds[p])
  }

  /** What holds inside the round, before event `k`. */
  ghost predicate RoundSoFar(worlds: seq<World>, events: seq<Event>, p: nat, k: nat, now: Instant)
    requires p < k < |worlds|
  {
    var w, cancelled := worlds[k], CancelledInRepair(worlds, events, p, k);
    && InRound(w.watch, now)
    && (w.watch != Releasing ==> Attempts(w) == Attempts(worlds[p]) && NoRefund(events, p, k))
    && (w.watch.Published? || w.watch == LockedSuppressing ==> !cancelled)
    && (w.watch.Repairing? ==> (w.gate.cancelled <==> cancelled))
    && (w.watch.Finishing? ==> (w.watch.result == Interrupted <==> cancelled))
    && (w.watch == Releasing && !cancelled ==> Attempts(w) == Attempts(worlds[p]) && NoRefund(events, p, k))
    && (w.watch == Releasing && cancelled ==>
          exists f :: RefundDecides(worlds, events, p, k, f) && NoRefundBut(events, p, k, f))
  }

  ghost predicate NoRefund(events: seq<Event>, p: nat, k: nat) {
    forall j :: p < j < k && j < |events| ==> !RefundWrite(events[j])
  }

  ghost predicate NoRefundBut(events: seq<Event>, p: nat, k: nat, f: nat) {
    forall j :: p < j < k && j < |events| && j != f ==> !RefundWrite(events[j])
  }

  /** A session cancelled before the reload has seen no repair and sees none. */
  ghost predicate EarlyIsIdle(worlds: seq<World>, events: seq<Event>, p: nat, k: nat)
    requires p < k < |worlds|
  {
    && (worlds[k].watch.Published? ==> Unrepaired(worlds, p, k))
    && (CancelledEarly(worlds, events, p, k) ==>
          worlds[k].gate.cancelled && (worlds[k].watch.Published? || worlds[k].watch == Releasing) &&
            Unrepaired(worlds, p, k))
  }

  ghost predicate Unrepaired(worlds: seq<World>, p: nat, k: nat)
    requires k < |worlds|
  {
    forall j :: p < j <= k ==> !worlds[j].watch.Repairing?
  }

  /** The refund drops exactly the round's attempt when the record still shows the repair. */
  lemma RefundDrops(x: Externals, worlds: seq<World>, events: seq<Event>, k: nat)
    requires IsRun(x, worlds, events) && k < |events| && |worlds| == |events| + 1 && RefundWrite(events[k])
    ensures Attempts(worlds[k + 1]) ==
              if GivesBack(worlds[k], events[k]) then Front(Attempts(worlds[k])) else Attempts(worlds[k])
  {
    hide IsRun, Replay, HistoriesAt, Recent, Spends, Step, Enabled, Accepted;
    RunStep(x, worlds, events, k);
    if events[k].o == Lost {
      StepRecord(x, worlds[k], events[k]);
    } else {
      InterruptedRepairIsRefunded(x, worlds, events, k, events[k].o);
    }
  }

  lemma RoundSoFarStep(x: Externals, worlds: seq<World>, events: seq<Event>, p: nat, k: nat, now: Instant)
    requires IsRun(x, worlds, events) && p < k < |events| && |worlds| == |events| + 1
    requires RoundSoFar(worlds, events, p, k, now) && events[k] != WatchRelease && !events[k].Crash?
    ensures RoundSoFar(worlds, events, p, k + 1, now)
  {
    hide IsRun, Step, Enabled, Attempts, CancelledInRepair, CancelledEarly, GateHeld, Front, NoRefund, NoRefundBut,
         RefundDecides;
    var w, e := worlds[k], events[k];
    RunStep(x, worlds, events, k);
    RunPublishes(x, worlds, events, k);
    RoundGoesOn(x, w, e, now);
    OneMoreEvent(worlds, events, p, k);
    if RefundWrite(e) {
      RefundDrops(x, worlds, events, k);
      RefundIsDecisive(worlds, events, p, k);
    } else {
      RoundKeepsAttempts(x, w, e, now);
      NoRefundYet(events, p, k);
      if w.watch == Releasing && CancelledInRepair(worlds, events, p, k) {
        var f :| RefundDecides(worlds, events, p, k, f) && NoRefundBut(events, p, k, f);
        StaysDecided(worlds, events, p, k, f);
      }
    }
  }

  lemma NoRefundYet(events: seq<Event>, p: nat, k: nat)
    requires p < k < |events| && !RefundWrite(events[k])
    ensures NoRefund(events, p, k) ==> NoRefund(events, p, k + 1)
  {
    hide RefundWrite;
  }

  lemma RefundIsDecisive(worlds: seq<World>, events: seq<Event>, p: nat, k: nat)
    requires p < k < |events| && |worlds| == |events| + 1 && RefundWrite(events[k])
    requires CancelledInRepair(worlds, events, p, k) && NoRefund(events, p, k) &&
             Attempts(worlds[k]) == Attempts(worlds[p])
    requires Attempts(worlds[k + 1]) ==
               if GivesBack(worlds[k], events[k]) then Front(Attempts(worlds[k])) else Attempts(worlds[k])
    ensures RefundDecides(worlds, events, p, k + 1, k) && NoRefundBut(events, p, k + 1, k)
  {
    hide CancelledInRepair, Attempts, Front, GivesBack, RefundWrite;
  }

  lemma StaysDecided(worlds: seq<World>, events: seq<Event>, p: nat, k: nat, f: nat)
    requires p < k < |events| && |worlds| == |events| + 1 && !RefundWrite(events[k])
    requires RefundDecides(worlds, events, p, k, f) && NoRefundBut(events, p, k, f)
    requires Attempts(worlds[k + 1]) == Attempts(worlds[k])
    ensures RefundDecides(worlds, events, p, k + 1, f) && NoRefundBut(events, p, k + 1, f)
  {
    hide CancelledInRepair, Attempts, Front, GivesBack, RefundWrite;
  }

  lemma EarlyStaysIdle(x: Externals, worlds: seq<World>, events: seq<Event>, p: nat, k: nat, now: Instant)
    requires IsRun(x, worlds, events) && p < k < |events| && |worlds| == |events| + 1
    requires InRound(worlds[k].watch, now) && EarlyIsIdle(worlds, events, p, k)
    requires events[k] != WatchRelease && !events[k].Crash?
    ensures EarlyIsIdle(worlds, events, p, k + 1)
  {
    hide IsRun, Step, Enabled, CancelledInRepair, CancelledEarly, GateHeld;
    RunStep(x, worlds, events, k);
    RunPublishes(x, worlds, events, k);
    RoundGoesOn(x, worlds[k], events[k], now);
    OneMoreEvent(worlds, events, p, k);
  }

  lemma RoundBegins(x: Externals, worlds: seq<World>, events: seq<Event>, p: nat)
    requires IsRun(x, worlds, events) && p < |events| && |worlds| == |events| + 1 && events[p] == WatchPublish
    ensures worlds[p].watch.Locked?
    ensures RoundSoFar(worlds, events, p, p + 1, worlds[p].watch.now) && EarlyIsIdle(worlds, events, p, p + 1)
  {
    hide IsRun;
    RunStep(x, worlds, events, p);
  }

  lemma {:induction false} RoundHolds(x: Externals, worlds: seq<World>, events: seq<Event>, p: nat, q: nat, k: nat)
    requires IsRun(x, worlds, events) && Round(worlds, events, p, q) && p < k <= q
    ensures worlds[p].watch.Locked?
    ensures RoundSoFar(worlds, events, p, k, worlds[p].watch.now) && EarlyIsIdle(worlds, events, p, k)
  {
    hide IsRun, EarlyIsIdle;
    RoundBegins(x, worlds, events, p);
    if p + 1 < k {
      RoundHolds(x, worlds, events, p, q, k - 1);
      RoundSoFarStep(x, worlds, events, p, k - 1, worlds[p].watch.now);
      EarlyStaysIdle(x, worlds, events, p, k - 1, worlds[p].watch.now);
    }
  }

  /** A request cancels the repair itself, and its refund is saved while the record still shows the repair. */
  ghost predicate Refunds(worlds: seq<World>, events: seq<Event>, p: nat, q: nat, c: nat, f: nat) {
    p < c < f < q && q <= |events| && q < |worlds| && CancelsRepair(worlds, events, c) &&
      GivesBack(worlds[f], events[f])
  }

  /**
    The attempt of a published round comes back if and only if a request cancels the
    session after the reload, while the repair is carried out, the record is not suppressed
    before the refund, and the refund is not lost. Without that it stays spent. A session
    cancelled before its reload carries out no repair, and its attempt stays spent too.
   */
  lemma CancelledRoundsAttempt(x: Externals, worlds: seq<World>, events: seq<Event>, p: nat, q: nat)
    requires IsRun(x, worlds, events) && Round(worlds, events, p, q)
    ensures worlds[p].watch.Locked?
    ensures var before, after := Attempts(worlds[p]), Attempts(worlds[q + 1]);
            && before != [] && before[|before| - 1] == worlds[p].watch.now
            && (after == before || after == Front(before))
            && (after == Front(before) <==> exists c, f :: Refunds(worlds, events, p, q, c, f))
            && (CancelledEarly(worlds, events, p, q) ==> after == before && Unrepaired(worlds, p, q))
  {
    hide IsRun, Step, Enabled, CancelledEarly, Unrepaired, RefundWrite;
    RoundHolds(x, worlds, events, p, q, q);
    RoundStarts(x, worlds, events, p);
    RunStep(x, worlds, events, q);
    ReleaseEndsRound(x, worlds[q]);
    RefundsAreDecisive(worlds, events, p, q, worlds[p].watch.now);
    if CancelledEarly(worlds, events, p, q) {
      UnrepairedIsUncancelled(worlds, events, p, q);
    }
  }

  /** The one refund of the round is the one that decides. */
  lemma RefundsAreDecisive(worlds: seq<World>, events: seq<Event>, p: nat, q: nat, now: Instant)
    requires Round(worlds, events, p, q) && RoundSoFar(worlds, events, p, q, now) && worlds[q].watch == Releasing
    requires Attempts(worlds[p]) != []
    ensures Attempts(worlds[q]) == Attempts(worlds[p]) || Attempts(worlds[q]) == Front(Attempts(worlds[p]))
    ensures Attempts(worlds[q]) == Front(Attempts(worlds[p])) <==> exists c, f :: Refunds(worlds, events, p, q, c, f)
    ensures !CancelledInRepair(worlds, events, p, q) ==> Attempts(worlds[q]) == Attempts(worlds[p])
  {
    hide Attempts, CancelsRepair;
    if CancelledInRepair(worlds, events, p, q) {
      var f: nat :| RefundDecides(worlds, events, p, q, f) && NoRefundBut(events, p, q, f);
      if GivesBack(worlds[f], events[f]) {
        var c :| p < c < f && CancelsRepair(worlds, events, c);
        assert Refunds(worlds, events, p, q, c, f);
      }
    }
  }

  lemma UnrepairedIsUncancelled(worlds: seq<World>, events: seq<Event>, p: nat, k: nat)
    requires k < |worlds| && Unrepaired(worlds, p, k)
    ensures !CancelledInRepair(worlds, events, p, k)
  {
  }

  lemma ReleaseEndsRound(x: Externals, w: World)
    requires Enabled(w, WatchRelease)
    ensures w.watch == Releasing && Attempts(Step(x, w, WatchRelease)) == Attempts(w)
  {
  }
}
