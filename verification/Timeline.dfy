/**
  The watchdog's record as the result of the notes it keeps: failed and healthy
  observations, suppressions, repair outcomes and refunds, in the order they were saved.
 */
module Timeline {
  import opened Wrappers
  import opened State
  import opened Changes

  /** A kept change of the watchdog record; `now` is when the watchdog started its round. */
  datatype Note =
    | Failure(now: Instant)
    | Healthy(now: Instant)
    | Suppression
    | RepairSuccess(now: Instant)
    | RepairFailure(now: Instant)
    | Refund

  function Apply(w: WatchdogState, note: Note): WatchdogState {
    match note
    case Failure(now) => AfterFailedObservation(w, now)
    case Healthy(now) => AfterHealthyObservation(w, now)
    case Suppression => Suppressed(w)
    case RepairSuccess(now) => AfterRepairSuccess(w, now)
    case RepairFailure(now) => AfterRepairFailure(w, now)
    case Refund => AfterRefund(w)
  }

  /** The record after the first `k` notes. */
  function Replay(start: WatchdogState, notes: seq<Note>, k: nat): WatchdogState
    requires k <= |notes|
  {
    if k == 0 then start else Apply(Replay(start, notes, k - 1), notes[k - 1])
  }

  /** The instant of the latest dated note among the first `k`. */
  function Latest(since: Instant, notes: seq<Note>, k: nat): Instant
    requires k <= |notes|
  {
    if k == 0 then since
    else if Dated(notes[k - 1]) then notes[k - 1].now else Latest(since, notes, k - 1)
  }

  predicate Dated(note: Note) {
    !note.Suppression? && !note.Refund?
  }

  /** The clock never runs backwards, and a refund answers the attempt spent right before it. */
  predicate TimelyAt(start: WatchdogState, since: Instant, notes: seq<Note>, k: nat)
    requires k < |notes|
  {
    && (Dated(notes[k]) ==> notes[k].now >= Latest(since, notes, k))
    && (notes[k].Refund? ==> k > 0 && Spends(start, notes, k - 1))
  }

  ghost predicate Timely(start: WatchdogState, since: Instant, notes: seq<Note>) {
    forall k :: 0 <= k < |notes| ==> TimelyAt(start, since, notes, k)
  }

  /** A record from before the first note: few enough attempts, in order and in the past. */
  predicate Sane(w: WatchdogState, since: Instant) {
    |w.attempts| <= MAX_REPAIRS && InOrder(w.attempts) && Upto(w.attempts, since)
  }

  predicate InOrder(times: seq<Instant>) {
    forall i, j :: 0 <= i <= j < |times| ==> times[i] <= times[j]
  }

  predicate Upto(times: seq<Instant>, now: Instant) {
    forall i :: 0 <= i < |times| ==> times[i] <= now
  }

  /** The observation spends an attempt: a repair will be tried. */
  predicate Spends(start: WatchdogState, notes: seq<Note>, k: nat)
    requires k < |notes|
  {
    notes[k].Failure? && RepairDue(Replay(start, notes, k), notes[k].now)
  }

  /** Every attempt ever spent among the first `k` notes and not refunded since. */
  function Spent(start: WatchdogState, notes: seq<Note>, k: nat): seq<Instant>
    requires k <= |notes|
  {
    if k == 0 then start.attempts
    else
      var before := Spent(start, notes, k - 1);
      if Spends(start, notes, k - 1) then before + [notes[k - 1].now]
      else if notes[k - 1].Refund? && before != [] then before[..|before| - 1]
      else before
  }

  /* ---------- The sliding window ---------- */

  /** The instants from position `from` on are exactly those inside the window that ends at `now`. */
  predicate Cut(times: seq<Instant>, now: Instant, from: nat) {
    && from <= |times|
    && (forall i :: 0 <= i < from ==> times[i] + REPAIR_WINDOW <= now)
    && (forall i :: from <= i < |times| ==> times[i] + REPAIR_WINDOW > now)
  }

  /** Pruning an ordered list drops exactly the instants that left the window. */
  lemma {:induction false} RecentIsSuffix(times: seq<Instant>, now: Instant) returns (from: nat)
    requires InOrder(times)
    ensures Cut(times, now, from) && Recent(times, now) == times[from..]
  {
    if times == [] {
      from := 0;
    } else {
      var rest := times[1..];
      var later := RecentIsSuffix(rest, now);
      if times[0] + REPAIR_WINDOW > now {
        from := 0;
        forall i | 0 <= i < |times| ensures times[i] + REPAIR_WINDOW > now {
          assert times[0] <= times[i];
        }
        assert rest != [] ==> rest[0] + REPAIR_WINDOW > now;
        assert Recent(times, now) == [times[0]] + rest[0..];
      } else {
        from := later + 1;
        forall i | 0 <= i < from ensures times[i] + REPAIR_WINDOW <= now {
          if i > 0 {
            assert times[i] == rest[i - 1];
          }
        }
        forall i | from <= i < |times| ensures times[i] + REPAIR_WINDOW > now {
          assert times[i] == rest[i - 1];
        }
      }
    }
  }

  /** Nothing that left the window earlier comes back. */
  lemma {:induction false} RecentOfConcat(gone: seq<Instant>, kept: seq<Instant>, now: Instant)
    requires forall i :: 0 <= i < |gone| ==> gone[i] + REPAIR_WINDOW <= now
    ensures Recent(gone + kept, now) == Recent(kept, now)
    decreases |gone|
  {
    if gone == [] {
      assert gone + kept == kept;
    } else {
      RecentOfConcat(gone[1..], kept, now);
      assert (gone + kept)[1..] == gone[1..] + kept;
    }
  }

  /** `all` ends with `kept`, and whatever comes before left the window by `now`. */
  predicate Remembers(all: seq<Instant>, kept: seq<Instant>, now: Instant) {
    && |kept| <= |all| && all[|all| - |kept|..] == kept
    && (forall i :: 0 <= i < |all| - |kept| ==> all[i] + REPAIR_WINDOW <= now)
  }

  lemma RemembersWindow(all: seq<Instant>, kept: seq<Instant>, since: Instant, now: Instant)
    requires Remembers(all, kept, since) && since <= now
    ensures Recent(all, now) == Recent(kept, now)
  {
    var gone := all[..|all| - |kept|];
    assert all == gone + kept;
    RecentOfConcat(gone, kept, now);
  }

  lemma RecentIsShorter(times: seq<Instant>, now: Instant)
    ensures |Recent(times, now)| <= |times|
  {
  }

  /* ---------- What every replayed record satisfies ---------- */

  /** The record and the list of spent attempts agree. */
  predicate Kept(w: WatchdogState, all: seq<Instant>, now: Instant) {
    |w.attempts| <= MAX_REPAIRS && InOrder(all) && Upto(all, now) && Remembers(all, w.attempts, now)
  }

  lemma PrunedKeeps(w: WatchdogState, all: seq<Instant>, since: Instant, now: Instant)
    requires Kept(w, all, since) && since <= now
    ensures InOrder(w.attempts) && |Recent(w.attempts, now)| <= |w.attempts|
    ensures Upto(all, now) && Remembers(all, Recent(w.attempts, now), now)
  {
    var gone := |all| - |w.attempts|;
    forall i, j | 0 <= i <= j < |w.attempts| ensures w.attempts[i] <= w.attempts[j] {
      assert w.attempts[i] == all[gone + i] && w.attempts[j] == all[gone + j];
    }
    var from := RecentIsSuffix(w.attempts, now);
    forall i | 0 <= i < |all| - |w.attempts[from..]| ensures all[i] + REPAIR_WINDOW <= now {
      if i >= gone {
        assert all[i] == w.attempts[i - gone];
      }
    }
    assert all[|all| - |w.attempts[from..]|..] == w.attempts[from..];
  }

  lemma SpendingKeeps(all: seq<Instant>, kept: seq<Instant>, now: Instant)
    requires InOrder(all) && Upto(all, now) && Remembers(all, kept, now)
    ensures InOrder(all + [now]) && Upto(all + [now], now) && Remembers(all + [now], kept + [now], now)
  {
  }

  lemma RefundKeeps(w: WatchdogState, all: seq<Instant>, now: Instant)
    requires Kept(w, all, now) && w.attempts != [] && w.attempts[|w.attempts| - 1] == w.lastRepairAt
    ensures all != [] && Kept(AfterRefund(w), all[..|all| - 1], now)
    ensures AfterRefund(w).attempts == w.attempts[..|w.attempts| - 1]
  {
    var fewer, left := all[..|all| - 1], w.attempts[..|w.attempts| - 1];
    assert fewer[|fewer| - |left|..] == left;
  }

  /** Whatever the watchdog keeps, its record remembers every attempt that still counts. */
  lemma {:induction false} ReplayKeeps(start: WatchdogState, since: Instant, notes: seq<Note>, k: nat)
    requires Sane(start, since) && Timely(start, since, notes) && k <= |notes|
    ensures Kept(Replay(start, notes, k), Spent(start, notes, k), Latest(since, notes, k))
  {
    hide Recent, Remembers, InOrder, Upto;
    if k == 0 {
      StartKept(start, since);
    } else {
      ReplayKeeps(start, since, notes, k - 1);
      assert TimelyAt(start, since, notes, k - 1);
      NoteKeeps(start, since, notes, k - 1);
    }
  }

  lemma StartKept(start: WatchdogState, since: Instant)
    requires Sane(start, since)
    ensures Kept(start, start.attempts, since)
  {
    assert start.attempts[0..] == start.attempts;
  }

  lemma NoteKeeps(start: WatchdogState, since: Instant, notes: seq<Note>, k: nat)
    requires k < |notes| && TimelyAt(start, since, notes, k)
    requires Kept(Replay(start, notes, k), Spent(start, notes, k), Latest(since, notes, k))
    ensures Kept(Replay(start, notes, k + 1), Spent(start, notes, k + 1), Latest(since, notes, k + 1))
  {
    hide Recent, Remembers, InOrder, Upto;
    var w, all, last := Replay(start, notes, k), Spent(start, notes, k), Latest(since, notes, k);
    match notes[k] {
      case Failure(now) =>
        PrunedKeeps(w, all, last, now);
        SpendingKeeps(all, Recent(w.attempts, now), now);
      case Healthy(now) => PrunedKeeps(w, all, last, now);
      case RepairSuccess(now) => LaterKeeps(w, all, last, now);
      case RepairFailure(now) => LaterKeeps(w, all, last, now);
      case Suppression =>
      case Refund =>
        SpentIsLast(start, notes, k - 1);
        RefundKeeps(w, all, last);
    }
  }

  /** The attempt just spent is the last of the recorded ones. */
  lemma SpentIsLast(start: WatchdogState, notes: seq<Note>, k: nat)
    requires k < |notes| && Spends(start, notes, k)
    ensures var w, before := Replay(start, notes, k + 1), Replay(start, notes, k);
            && w.attempts == Recent(before.attempts, notes[k].now) + [notes[k].now]
            && w.lastRepairAt == notes[k].now && w.status == WatchRepairing
  {
    hide Recent;
  }

  lemma LaterKeeps(w: WatchdogState, all: seq<Instant>, since: Instant, now: Instant)
    requires Kept(w, all, since) && since <= now
    ensures Kept(w, all, now)
  {
  }

  /* ---------- The budget ---------- */

  /**
    At any instant at most three attempts, spent and not refunded, lie in the ten minutes
    before it, and pruning has lost none of them.
   */
  lemma BudgetHolds(start: WatchdogState, since: Instant, notes: seq<Note>, k: nat, now: Instant)
    requires Sane(start, since) && Timely(start, since, notes) && k <= |notes|
    requires now >= Latest(since, notes, k)
    ensures Recent(Spent(start, notes, k), now) == Recent(Replay(start, notes, k).attempts, now)
    ensures |Recent(Spent(start, notes, k), now)| <= MAX_REPAIRS
  {
    ReplayKeeps(start, since, notes, k);
    RemembersWindow(Spent(start, notes, k), Replay(start, notes, k).attempts, Latest(since, notes, k), now);
    RecentIsShorter(Replay(start, notes, k).attempts, now);
  }

  /**
    A refund answers the observation right before it, which spent the attempt, and brings
    back exactly the pruned list from before that attempt.
   */
  lemma RefundRestores(start: WatchdogState, since: Instant, notes: seq<Note>, k: nat)
    requires Timely(start, since, notes) && k < |notes| && notes[k].Refund?
    ensures k > 0 && Spends(start, notes, k - 1)
    ensures var before := Replay(start, notes, k - 1);
            Replay(start, notes, k + 1).attempts == Recent(before.attempts, notes[k - 1].now)
    ensures Spent(start, notes, k + 1) == Spent(start, notes, k - 1)
  {
    hide Recent;
    assert TimelyAt(start, since, notes, k);
    assert Replay(start, notes, k) == Apply(Replay(start, notes, k - 1), notes[k - 1]);
    var pruned := Recent(Replay(start, notes, k - 1).attempts, notes[k - 1].now);
    assert (pruned + [notes[k - 1].now])[..|pruned|] == pruned;
    var spent := Spent(start, notes, k - 1);
    assert (spent + [notes[k - 1].now])[..|spent|] == spent;
  }

  /* ---------- The threshold ---------- */

  /** The observation is counted and nothing else: no cooldown, and the threshold is not reached. */
  predicate Counted(start: WatchdogState, notes: seq<Note>, k: nat)
    requires k < |notes|
  {
    && notes[k].Failure?
    && var w := Replay(start, notes, k);
    w.cooldownUntil <= notes[k].now && !ThresholdReached(w, notes[k].now)
  }

  /**
    The failure count is the number of counted observations at the very end, together with
    the ones counted before the first note when nothing has reset the count since.
   */
  lemma {:induction false} FailuresAreConsecutive(start: WatchdogState, notes: seq<Note>, k: nat)
    requires k <= |notes| && start.failures >= 0
    ensures 0 <= Replay(start, notes, k).failures
    ensures k > 0 || start.failures < OBSERVATION_THRESHOLD ==> Replay(start, notes, k).failures < OBSERVATION_THRESHOLD
    ensures Replay(start, notes, k).failures > k ==> Replay(start, notes, k).failures == k + start.failures
    ensures forall i :: 0 <= i < k && k - Replay(start, notes, k).failures <= i ==> Counted(start, notes, i)
  {
    hide Recent;
    if k > 0 {
      FailuresAreConsecutive(start, notes, k - 1);
    }
  }

  /**
    Each attempt follows three failed observations that come one after the other, with
    nothing kept between them: no healthy observation, suppression, cooldown or repair.
    The first of them may be from before the first note.
   */
  lemma ThreeFailuresBeforeRepair(start: WatchdogState, notes: seq<Note>, k: nat)
    requires k < |notes| && start.failures >= 0 && Spends(start, notes, k)
    ensures notes[k].Failure? && Earned(start, notes, k)
    ensures Replay(start, notes, k).cooldownUntil <= notes[k].now
  {
    hide Recent;
    FailuresAreConsecutive(start, notes, k);
  }

  /** The two notes before the `k`th are counted observations, or as many as the start's count lacks of two. */
  predicate Earned(start: WatchdogState, notes: seq<Note>, k: nat)
    requires k <= |notes|
  {
    && (forall i :: 0 <= i < k && k - 2 <= i ==> Counted(start, notes, i))
    && k + start.failures >= OBSERVATION_THRESHOLD - 1
  }

  /* ---------- What the record reports ---------- */

  /** The status tells which kind of error, if any, is reported, and only counting observations leave a count. */
  lemma StatusExplainsError(start: WatchdogState, notes: seq<Note>, k: nat)
    requires 0 < k <= |notes|
    ensures var w := Replay(start, notes, k);
            && (w.status == WatchHealthy || w.status == WatchSuppressed ==>
                  w.errorCode == NoWatchError && w.failures == 0 && w.cooldownUntil == 0)
            && (w.status == WatchRepairing ==> w.errorCode == ObservationFailed && w.failures == 0)
            && (w.status == WatchObserving || w.status == WatchDegraded ==> w.errorCode != NoWatchError)
            && (w.failures != 0 ==> w.status == WatchObserving && Counted(start, notes, k - 1))
  {
    hide Recent;
  }

  /** The last observation recorded is the latest that was kept, failed, healthy or confirmed by a repair. */
  lemma {:induction false} LastObservationIsLatest(start: WatchdogState, notes: seq<Note>, k: nat)
    requires k <= |notes|
    ensures Replay(start, notes, k).lastObservedAt == LastObserved(start.lastObservedAt, notes, k)
  {
    hide Recent;
    if k > 0 {
      LastObservationIsLatest(start, notes, k - 1);
    }
  }

  /** The recorded last repair is the latest attempt spent, and none after a refund. */
  lemma {:induction false} LastRepairIsLatest(start: WatchdogState, since: Instant, notes: seq<Note>, k: nat)
    requires Timely(start, since, notes) && k <= |notes|
    ensures Replay(start, notes, k).lastRepairAt == LastSpent(start, notes, k)
  {
    hide Recent;
    if k > 0 {
      LastRepairIsLatest(start, since, notes, k - 1);
      assert TimelyAt(start, since, notes, k - 1);
    }
  }

  function LastSpent(start: WatchdogState, notes: seq<Note>, k: nat): Instant
    requires k <= |notes|
  {
    if k == 0 then start.lastRepairAt
    else if Spends(start, notes, k - 1) then notes[k - 1].now
    else if notes[k - 1].Refund? then 0
    else LastSpent(start, notes, k - 1)
  }

  function LastObserved(since: Instant, notes: seq<Note>, k: nat): Instant
    requires k <= |notes|
  {
    if k == 0 then since
    else if notes[k - 1].Failure? || notes[k - 1].Healthy? || notes[k - 1].RepairSuccess? then notes[k - 1].now
    else LastObserved(since, notes, k - 1)
  }

  /* ---------- The cooldown ---------- */

  /** The note ends the round in the degraded state, with a cooldown starting at its instant. */
  predicate Degrades(start: WatchdogState, notes: seq<Note>, k: nat)
    requires k < |notes|
  {
    && (notes[k].Failure? || notes[k].RepairFailure?)
    && Replay(start, notes, k + 1).status == WatchDegraded
    && Replay(start, notes, k + 1).cooldownUntil == notes[k].now + REPAIR_COOLDOWN
  }

  /** The third failure in a row degrades the watchdog when the budget is spent, and so does a third failed repair. */
  lemma SpentBudgetDegrades(start: WatchdogState, notes: seq<Note>, k: nat)
    requires k < |notes| && AsksForRepair(start, notes, k)
    requires notes[k].Failure? ==> !Spends(start, notes, k)
    requires notes[k].RepairFailure? ==> |Replay(start, notes, k).attempts| >= MAX_REPAIRS
    ensures Degrades(start, notes, k)
  {
    hide Recent;
  }

  /** A third failed observation in a row, or a failed repair. */
  predicate AsksForRepair(start: WatchdogState, notes: seq<Note>, k: nat)
    requires k < |notes|
  {
    || (notes[k].Failure? && ThresholdReached(Replay(start, notes, k), notes[k].now))
    || notes[k].RepairFailure?
  }

  /** The note neither ends a cooldown early nor comes after it. */
  predicate Within(note: Note, end: Instant) {
    match note
    case Failure(now) => now < end
    case RepairFailure(now) => true
    case Refund => true
    case _ => false
  }

  lemma {:induction false} CooldownLasts(start: WatchdogState, since: Instant, notes: seq<Note>, i: nat, k: nat)
    requires Timely(start, since, notes) && i < k <= |notes| && Degrades(start, notes, i)
    requires forall j :: i < j < k ==> Within(notes[j], notes[i].now + REPAIR_COOLDOWN)
    ensures Replay(start, notes, k).cooldownUntil >= notes[i].now + REPAIR_COOLDOWN
    ensures Latest(since, notes, k) >= notes[i].now
  {
    hide Recent;
    if i + 1 < k {
      CooldownLasts(start, since, notes, i, k - 1);
      assert TimelyAt(start, since, notes, k - 1);
      assert Within(notes[k - 1], notes[i].now + REPAIR_COOLDOWN);
    }
  }

  /**
    After degrading, unless the service is observed healthy, is repaired or is suppressed,
    no attempt is spent for fifteen minutes.
   */
  lemma NoRepairDuringCooldown(start: WatchdogState, since: Instant, notes: seq<Note>, i: nat, k: nat)
    requires Timely(start, since, notes) && i < k < |notes| && Degrades(start, notes, i) && Spends(start, notes, k)
    requires forall j :: i < j < k ==> notes[j].Failure? || notes[j].RepairFailure? || notes[j].Refund?
    ensures notes[k].now >= notes[i].now + REPAIR_COOLDOWN
  {
    hide Recent, Replay;
    if notes[k].now < notes[i].now + REPAIR_COOLDOWN {
      forall j | i < j < k ensures Within(notes[j], notes[i].now + REPAIR_COOLDOWN) {
        LatestIsMonotone(start, since, notes, j, k);
      }
      CooldownLasts(start, since, notes, i, k);
      assert false;
    }
  }

  lemma {:induction false} LatestIsMonotone(start: WatchdogState, since: Instant, notes: seq<Note>, j: nat, k: nat)
    requires Timely(start, since, notes) && j < k < |notes|
    ensures Dated(notes[j]) && Dated(notes[k]) ==> notes[j].now <= notes[k].now
    ensures Dated(notes[j]) ==> notes[j].now <= Latest(since, notes, k)
    decreases k
  {
    assert TimelyAt(start, since, notes, k);
    if j + 1 < k {
      LatestIsMonotone(start, since, notes, j, k - 1);
      assert TimelyAt(start, since, notes, k - 1);
    }
  }

  /** Until an attempt is spent, an observation after the cooldown finds none left in the window. */
  lemma CooldownEndsEmpty(start: WatchdogState, since: Instant, notes: seq<Note>, i: nat, k: nat)
    requires Sane(start, since) && Timely(start, since, notes)
    requires i < k < |notes| && Degrades(start, notes, i) && notes[k].Failure?
    requires forall j :: i < j < k ==> !Spends(start, notes, j)
    requires notes[k].now >= notes[i].now + REPAIR_COOLDOWN
    ensures Recent(Replay(start, notes, k).attempts, notes[k].now) == []
  {
    AttemptsStayOld(start, since, notes, i, k);
    AllGone(Replay(start, notes, k).attempts, notes[k].now);
  }

  lemma {:induction false} AllGone(times: seq<Instant>, now: Instant)
    requires forall i :: 0 <= i < |times| ==> times[i] + REPAIR_WINDOW <= now
    ensures Recent(times, now) == []
  {
    if times != [] {
      AllGone(times[1..], now);
    }
  }

  /** While none is spent attempts are only dropped, so all of them are from before. */
  lemma {:induction false} AttemptsStayOld(start: WatchdogState, since: Instant, notes: seq<Note>, i: nat, k: nat)
    requires Sane(start, since) && Timely(start, since, notes)
    requires i < k <= |notes| && Degrades(start, notes, i)
    requires forall j :: i < j < k ==> !Spends(start, notes, j)
    ensures Upto(Replay(start, notes, k).attempts, notes[i].now)
  {
    hide Recent, Remembers;
    if i + 1 == k {
      ReplayKeeps(start, since, notes, k);
      KeptIsPast(Replay(start, notes, k), Spent(start, notes, k), notes[i].now);
    } else {
      AttemptsStayOld(start, since, notes, i, k - 1);
      assert TimelyAt(start, since, notes, k - 1) && !Spends(start, notes, k - 1);
      NoteAddsNone(start, notes, k - 1, notes[i].now);
    }
  }

  /**
    When three attempts of the last ten minutes are spent and not refunded, neither a third
    failed observation in a row nor a failed repair leads to a fourth: unless the service is observed healthy, is
    repaired or is suppressed, the next attempt comes fifteen minutes later at the earliest,
    and then none of the earlier ones counts any more.
   */
  lemma FourthRepairWaits(start: WatchdogState, since: Instant, notes: seq<Note>, i: nat, k: nat)
    requires Sane(start, since) && Timely(start, since, notes) && i < k < |notes|
    requires AsksForRepair(start, notes, i)
    requires |Recent(Spent(start, notes, i), notes[i].now)| >= MAX_REPAIRS
    requires Spends(start, notes, k)
    requires forall j :: i < j < k ==> (notes[j].Failure? || notes[j].RepairFailure?) && !Spends(start, notes, j)
    ensures !Spends(start, notes, i)
    ensures notes[k].now >= notes[i].now + REPAIR_COOLDOWN
    ensures Recent(Spent(start, notes, k), notes[k].now) == []
  {
    hide Recent, Replay, Spent, Latest, Degrades;
    assert TimelyAt(start, since, notes, i) && TimelyAt(start, since, notes, k);
    BudgetHolds(start, since, notes, i, notes[i].now);
    BudgetHolds(start, since, notes, k, notes[k].now);
    RecentIsShorter(Replay(start, notes, i).attempts, notes[i].now);
    SpentBudgetDegrades(start, notes, i);
    NoRepairDuringCooldown(start, since, notes, i, k);
    CooldownEndsEmpty(start, since, notes, i, k);
  }

  lemma NoteAddsNone(start: WatchdogState, notes: seq<Note>, k: nat, limit: Instant)
    requires k < |notes| && !Spends(start, notes, k) && Upto(Replay(start, notes, k).attempts, limit)
    ensures Upto(Replay(start, notes, k + 1).attempts, limit)
  {
    hide Recent;
    var w := Replay(start, notes, k);
    if notes[k].Failure? || notes[k].Healthy? {
      RecentIsPast(w.attempts, notes[k].now, limit);
    }
  }

  lemma KeptIsPast(w: WatchdogState, all: seq<Instant>, now: Instant)
    requires Kept(w, all, now)
    ensures Upto(w.attempts, now)
  {
    forall i | 0 <= i < |w.attempts| ensures w.attempts[i] <= now {
      assert w.attempts[i] == all[|all| - |w.attempts| + i];
    }
  }

  lemma {:induction false} RecentIsPast(times: seq<Instant>, now: Instant, limit: Instant)
    requires Upto(times, limit)
    ensures Upto(Recent(times, now), limit)
  {
    if times != [] {
      RecentIsPast(times[1..], now, limit);
    }
  }
}
