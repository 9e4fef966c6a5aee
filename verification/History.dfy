/**
  The watchdog's notes in a run of the whole updater: which of them the process has kept
  and which of them a crash would keep, and that the record is always their replay. With
  this every result about replayed notes holds in every run.
 */
module History {
  import opened Wrappers
  import opened Text
  import opened Release
  import opened State
  import opened Changes
  import opened Ledger
  import opened System
  import opened Safety
  import opened Runs
  import opened Acceptance
  import opened Timeline

  /** The notes in the record as the process sees it, and in the record on disk. */
  datatype Histories = Histories(visible: seq<Note>, durable: seq<Note>)

  /** What a transaction writes into the watchdog's history, if anything. */
  function NoteOf(s: RuntimeState, c: Change): seq<Note> {
    match c
    case OnJob(_, _) => []
    case OnWatchdog(Suppress) => [Suppression]
    case OnWatchdog(ObservedHealthy(now)) => [Healthy(now)]
    case OnWatchdog(ObservedFailure(now)) => [if s.desired != Running then Suppression else Failure(now)]
    case OnWatchdog(RepairSucceeded(now)) => [RepairSuccess(now)]
    case OnWatchdog(RepairFailed(now)) => [RepairFailure(now)]
    case OnWatchdog(RefundRepair) =>
      if s.desired != Running || HasActive(s) || s.watchdog.status != WatchRepairing then [] else [Refund]
    case FromApi(SetDesired(_)) => [Suppression]
    case FromApi(CreateJob(key, _, _, _, _)) => if key in s.idempotency then [] else [Suppression]
    case FromApi(RotateTicket(_, _, _)) => []
    case FromApi(RestartJob(_, _)) => [Suppression]
  }

  /** Each accepted transaction changes the watchdog's record exactly as its note says. */
  lemma EffectIsNote(s: RuntimeState, c: Change)
    requires Effect(s, c).Ok?
    ensures |NoteOf(s, c)| <= 1
    ensures Effect(s, c).value.watchdog ==
            if NoteOf(s, c) == [] then s.watchdog else Apply(s.watchdog, NoteOf(s, c)[0])
  {
    hide Recent, JobEffect, DesiredEffect, WithoutOldRecoveries, HasActive, TokenAllowed, RestartOffered, NewJob,
         RepairDue, ThresholdReached;
  }

  /** The histories after the first `k` events. */
  ghost function HistoriesAt(x: Externals, worlds: seq<World>, events: seq<Event>, k: nat): Histories
    requires k <= |events| && |worlds| == |events| + 1
  {
    if k == 0 then Histories([], [])
    else Told(x, worlds[k - 1], events[k - 1], HistoriesAt(x, worlds, events, k - 1))
  }

  /** How an event changes the histories. */
  function Told(x: Externals, w: World, e: Event, h: Histories): Histories {
    if e.Crash? then
      Histories(if e.keepVisible then h.visible else h.durable, h.durable)
    else if e.WriteBack? then Histories(h.visible, h.visible)
    else if Writes(e) && Accepted(x, w.visible, ChangeOf(e)) && OutcomeOf(e) != Lost then
      var longer := h.visible + NoteOf(w.visible, ChangeOf(e));
      Histories(longer, if OutcomeOf(e) == Saved then longer else h.durable)
    else h
  }

  lemma {:induction false} ReplayOfPrefix(start: WatchdogState, notes: seq<Note>, more: seq<Note>, k: nat)
    requires k <= |notes|
    ensures Replay(start, notes + more, k) == Replay(start, notes, k)
  {
    if k > 0 {
      ReplayOfPrefix(start, notes, more, k - 1);
      assert (notes + more)[k - 1] == notes[k - 1];
    }
  }

  lemma {:induction false} LatestOfPrefix(since: Instant, notes: seq<Note>, more: seq<Note>, k: nat)
    requires k <= |notes|
    ensures Latest(since, notes + more, k) == Latest(since, notes, k)
  {
    if k > 0 {
      LatestOfPrefix(since, notes, more, k - 1);
    }
  }

  /* ---------- The record is the replay ---------- */

  /** `w` is what the notes lead to, and they are all from `upto` or before. */
  ghost predicate Explains(start: WatchdogState, since: Instant, notes: seq<Note>, w: WatchdogState, upto: Instant) {
    Timely(start, since, notes) && Replay(start, notes, |notes|) == w && Latest(since, notes, |notes|) <= upto
  }

  lemma NoteExplains(
      start: WatchdogState, since: Instant, notes: seq<Note>, w: WatchdogState, upto: Instant, note: Note)
    requires Explains(start, since, notes, w, upto)
    requires Dated(note) ==> note.now == upto
    requires note.Refund? ==> SpendsLast(start, notes)
    ensures Explains(start, since, notes + [note], Apply(w, note), upto)
  {
    hide Apply;
    var longer := notes + [note];
    ReplayOfPrefix(start, notes, [note], |notes|);
    LatestOfPrefix(since, notes, [note], |notes|);
    forall k | 0 <= k < |longer| ensures TimelyAt(start, since, longer, k) {
      ReplayOfPrefix(start, notes, [note], k);
      ReplayOfPrefix(start, notes, [note], if k > 0 then k - 1 else 0);
      LatestOfPrefix(since, notes, [note], k);
      if k < |notes| {
        assert TimelyAt(start, since, notes, k) && longer[k] == notes[k];
      }
    }
  }

  /** The last note spends an attempt. */
  predicate SpendsLast(start: WatchdogState, notes: seq<Note>) {
    notes != [] && Spends(start, notes, |notes| - 1)
  }

  lemma ExplainsLater(
      start: WatchdogState, since: Instant, notes: seq<Note>, w: WatchdogState, upto: Instant, later: Instant)
    requires Explains(start, since, notes, w, upto) && upto <= later
    ensures Explains(start, since, notes, w, later)
  {
  }

  /** The instant of the round the watchdog is in, if it is in one. */
  function RoundOf(watch: WatchPc): Option<Instant> {
    match watch
    case Observing(now) => Some(now)
    case Reporting(now, _) => Some(now)
    case Rechecking(now) => Some(now)
    case Waiting(now) => Some(now)
    case Locked(now) => Some(now)
    case Published(now) => Some(now)
    case Repairing(now) => Some(now)
    case Finishing(now, _) => Some(now)
    case _ => None
  }

  /** The latest instant a note can have. */
  function Horizon(w: World): Instant {
    if RoundOf(w.watch).Some? then RoundOf(w.watch).value else w.clock
  }

  /** A repair is being considered or carried out. */
  predicate Repairs(watch: WatchPc) {
    watch.Rechecking? || watch.Waiting? || watch.Locked? || watch.Published? || watch.Repairing? || watch.Finishing?
  }

  /** The attempt of the round at `now` is noted, and only suppressions came after it. */
  ghost predicate Noted(start: WatchdogState, notes: seq<Note>, now: Instant) {
    exists p :: 0 <= p < |notes| && NotedAt(start, notes, now, p)
  }

  predicate NotedAt(start: WatchdogState, notes: seq<Note>, now: Instant, p: nat)
    requires p < |notes|
  {
    && notes[p] == Failure(now) && Spends(start, notes, p)
    && (forall i :: p < i < |notes| ==> notes[i] == Suppression)
  }

  lemma SuppressionKeepsNoted(start: WatchdogState, notes: seq<Note>, now: Instant)
    requires Noted(start, notes, now)
    ensures Noted(start, notes + [Suppression], now)
  {
    var p :| 0 <= p < |notes| && NotedAt(start, notes, now, p);
    ReplayOfPrefix(start, notes, [Suppression], p);
    assert NotedAt(start, notes + [Suppression], now, p);
  }

  lemma SpendingIsNoted(start: WatchdogState, notes: seq<Note>, w: WatchdogState, now: Instant)
    requires Replay(start, notes, |notes|) == w && RepairDue(w, now)
    ensures Noted(start, notes + [Failure(now)], now)
  {
    ReplayOfPrefix(start, notes, [Failure(now)], |notes|);
    assert NotedAt(start, notes + [Failure(now)], now, |notes|);
  }

  /** While the record says so, the repair's attempt is the last thing noted. */
  lemma NotedIsLast(start: WatchdogState, notes: seq<Note>, now: Instant)
    requires Noted(start, notes, now) && Replay(start, notes, |notes|).status == WatchRepairing
    ensures SpendsLast(start, notes) && notes[|notes| - 1] == Failure(now)
  {
    hide RepairDue;
    var p :| 0 <= p < |notes| && NotedAt(start, notes, now, p);
    if p < |notes| - 1 {
      assert false;
    }
  }

  /** What the histories say about a state of the run. */
  ghost predicate Faithful(start: WatchdogState, since: Instant, w: World, h: Histories) {
    && Horizon(w) <= w.clock
    && Explains(start, since, h.visible, w.visible.watchdog, Horizon(w))
    && Explains(start, since, h.durable, w.durable.watchdog, Horizon(w))
    && (Repairs(w.watch) ==>
          Noted(start, h.visible, RoundOf(w.watch).value) && Noted(start, h.durable, RoundOf(w.watch).value))
  }

  lemma NoteOfExplains(
      start: WatchdogState, since: Instant, s: RuntimeState, c: Change, notes: seq<Note>, upto: Instant)
    requires Explains(start, since, notes, s.watchdog, upto) && Effect(s, c).Ok?
    requires NoteOf(s, c) != [] && Dated(NoteOf(s, c)[0]) ==> NoteOf(s, c)[0].now == upto
    requires NoteOf(s, c) == [Refund] ==> SpendsLast(start, notes)
    ensures Explains(start, since, notes + NoteOf(s, c), Effect(s, c).value.watchdog, upto)
  {
    hide Effect, Apply, Explains, HasActive, SpendsLast;
    EffectIsNote(s, c);
    if NoteOf(s, c) == [] {
      assert notes + NoteOf(s, c) == notes;
    } else {
      var note := NoteOf(s, c)[0];
      assert NoteOf(s, c) == [note];
      NoteExplains(start, since, notes, s.watchdog, upto, note);
    }
  }

  /** The watchdog dates its notes with its round; the other threads only ever suppress. */
  lemma NoteIsOfRound(x: Externals, w: World, e: Event)
    requires Enabled(w, e) && Writes(e)
    ensures var note := NoteOf(w.visible, ChangeOf(e));
            && (note != [] && Dated(note[0]) ==> e.WatchWrite? && RoundOf(w.watch) == Some(note[0].now))
            && (!e.WatchWrite? ==> note == [] || note == [Suppression])
  {
    hide EngineMay, RequestMay, HasActive;
  }

  /** Between its transactions the watchdog only moves on within its round. */
  lemma RoundMoves(x: Externals, w: World, e: Event)
    requires Enabled(w, e) && !e.WatchWrite? && !e.Crash? && Horizon(w) <= w.clock
    ensures var w' := Step(x, w, e);
            && Horizon(w) <= Horizon(w') <= w'.clock
            && (Repairs(w'.watch) ==> Repairs(w.watch) && RoundOf(w'.watch) == RoundOf(w.watch))
            && (Writes(e) ==> w'.watch == w.watch && w'.clock == w.clock)
  {
    hide NextVisible, NextDurable, NextHost, EngineMay, MayBegin, Settled, Goal, Acknowledged, RecoveryImage,
         IsActive, Issued, HasActive, TokenAllowed, RestartOffered, RepairDue, RequestMay, AfterSnapshot, WatchMay;
  }

  lemma WriteMoves(x: Externals, w: World, e: Event)
    requires Enabled(w, e) && e.WatchWrite?
    ensures var w' := Step(x, w, e);
            && w'.clock == w.clock && RoundOf(w'.watch).Some? == Repairs(w'.watch)
            && (Repairs(w'.watch) ==>
                  && RoundOf(w'.watch) == RoundOf(w.watch)
                  && Acknowledged(x, w, ChangeOf(e), OutcomeOf(e))
                  && RepairDue(w.visible.watchdog, RoundOf(w.watch).value)
                  && NoteOf(w.visible, ChangeOf(e)) == [Failure(RoundOf(w.watch).value)])
  {
    hide NextVisible, NextDurable, NextHost, Acknowledged, RepairDue, HasActive;
  }

  lemma StepTold(x: Externals, start: WatchdogState, since: Instant, w: World, e: Event, h: Histories)
    requires Enabled(w, e) && Faithful(start, since, w, h)
    ensures Faithful(start, since, Step(x, w, e), Told(x, w, e, h))
  {
    hide Step, Enabled, StateValid, Explains, Noted, NoteOf, Effect, RepairDue, Horizon, RoundOf, Repairs;
    if e.Crash? {
      CrashTold(x, start, since, w, e, h);
    } else if e.WatchWrite? {
      WatchWriteTold(x, start, since, w, e, h);
    } else {
      RoundMoves(x, w, e);
      StepRecord(x, w, e);
      if Writes(e) {
        OtherWriteTold(x, start, since, w, e, h);
      } else {
        ExplainsLater(start, since, h.visible, w.visible.watchdog, Horizon(w), Horizon(Step(x, w, e)));
        ExplainsLater(start, since, h.durable, w.durable.watchdog, Horizon(w), Horizon(Step(x, w, e)));
      }
    }
  }

  lemma CrashTold(x: Externals, start: WatchdogState, since: Instant, w: World, e: Event, h: Histories)
    requires Enabled(w, e) && Faithful(start, since, w, h) && e.Crash?
    ensures Faithful(start, since, Step(x, w, e), Told(x, w, e, h))
  {
    hide Step, StateValid, Explains, Noted, NoteOf, Effect;
    CrashStep(x, w, e);
    ExplainsLater(start, since, h.visible, w.visible.watchdog, Horizon(w), w.clock);
    ExplainsLater(start, since, h.durable, w.durable.watchdog, Horizon(w), w.clock);
  }

  lemma OtherWriteTold(x: Externals, start: WatchdogState, since: Instant, w: World, e: Event, h: Histories)
    requires Enabled(w, e) && Faithful(start, since, w, h) && Writes(e) && !e.WatchWrite?
    ensures Faithful(start, since, Step(x, w, e), Told(x, w, e, h))
  {
    hide Step, Enabled, StateValid, Explains, Noted, NoteOf, Effect, Horizon, HasActive;
    RoundMoves(x, w, e);
    SameHorizon(x, w, e);
    StepRecord(x, w, e);
    NoteIsOfRound(x, w, e);
    var c := ChangeOf(e);
    if Accepted(x, w.visible, c) && OutcomeOf(e) != Lost {
      NoteOfExplains(start, since, w.visible, c, h.visible, Horizon(w));
      assert h.visible + [] == h.visible;
      if Repairs(w.watch) && NoteOf(w.visible, c) != [] {
        SuppressionKeepsNoted(start, h.visible, RoundOf(w.watch).value);
      }
    }
  }

  lemma SameHorizon(x: Externals, w: World, e: Event)
    requires Enabled(w, e) && !e.WatchWrite? && Writes(e)
    ensures Horizon(Step(x, w, e)) == Horizon(w)
  {
    hide NextVisible, NextDurable, NextHost, EngineMay, Acknowledged, Issued, RequestMay;
  }

  lemma WatchWriteTold(x: Externals, start: WatchdogState, since: Instant, w: World, e: Event, h: Histories)
    requires Enabled(w, e) && Faithful(start, since, w, h) && e.WatchWrite?
    ensures Faithful(start, since, Step(x, w, e), Told(x, w, e, h))
  {
    hide Step, Enabled, StateValid, Explains, Noted, NoteOf, Effect, RoundOf, Repairs, HasActive, RepairDue;
    WriteMoves(x, w, e);
    StepRecord(x, w, e);
    NoteIsOfRound(x, w, e);
    var c, w' := ChangeOf(e), Step(x, w, e);
    var told := Told(x, w, e, h);
    if Accepted(x, w.visible, c) && OutcomeOf(e) != Lost {
      ExplainedReplay(start, since, h.visible, w.visible.watchdog, Horizon(w));
      if NoteOf(w.visible, c) == [Refund] {
        RefundIsOfRepair(x, w, e);
        NotedIsLast(start, h.visible, RoundOf(w.watch).value);
      }
      NoteOfExplains(start, since, w.visible, c, h.visible, Horizon(w));
    }
    ExplainsLater(start, since, told.visible, w'.visible.watchdog, Horizon(w), Horizon(w'));
    ExplainsLater(start, since, told.durable, w'.durable.watchdog, Horizon(w), Horizon(w'));
    if Repairs(w'.watch) {
      ExplainedReplay(start, since, h.visible, w.visible.watchdog, Horizon(w));
      SpendingIsNoted(start, h.visible, w.visible.watchdog, RoundOf(w.watch).value);
    }
  }

  /** A refund is noted only at the end of a repair that the record still shows as under way. */
  lemma RefundIsOfRepair(x: Externals, w: World, e: Event)
    requires Enabled(w, e) && e.WatchWrite? && NoteOf(w.visible, ChangeOf(e)) == [Refund]
    ensures Repairs(w.watch) && RoundOf(w.watch).Some? && w.visible.watchdog.status == WatchRepairing
  {
    hide HasActive;
  }

  lemma ExplainedReplay(start: WatchdogState, since: Instant, notes: seq<Note>, w: WatchdogState, upto: Instant)
    requires Explains(start, since, notes, w, upto)
    ensures Replay(start, notes, |notes|) == w
  {
  }

  /** In every state of every run the histories explain the record, on disk and in memory. */
  lemma {:induction false} RecordIsReplay(x: Externals, worlds: seq<World>, events: seq<Event>, k: nat)
    requires IsRun(x, worlds, events) && k < |worlds|
    ensures Faithful(worlds[0].visible.watchdog, worlds[0].clock, worlds[k], HistoriesAt(x, worlds, events, k))
  {
    hide StateValid, Step, Enabled, Told, Faithful;
    if k == 0 {
      FaithfulAtStart(x, worlds[0]);
    } else {
      RecordIsReplay(x, worlds, events, k - 1);
      assert StepAt(x, worlds, events, k - 1);
      StepTold(x, worlds[0].visible.watchdog, worlds[0].clock, worlds[k - 1], events[k - 1],
               HistoriesAt(x, worlds, events, k - 1));
    }
  }

  lemma FaithfulAtStart(x: Externals, w: World)
    requires Initial(x, w)
    ensures Faithful(w.visible.watchdog, w.clock, w, Histories([], []))
  {
    hide StateValid;
  }

  /* ---------- The watchdog's promises, in every run ---------- */

  /** The attempts on record when the updater starts are not in the future. */
  predicate StartsSane(w: World) {
    Upto(w.visible.watchdog.attempts, w.clock)
  }

  lemma StartIsSane(x: Externals, worlds: seq<World>, events: seq<Event>)
    requires IsRun(x, worlds, events)
    ensures worlds[0].visible.watchdog.failures >= 0
    ensures StartsSane(worlds[0]) ==> Sane(worlds[0].visible.watchdog, worlds[0].clock)
  {
    hide StepAt, JobValid, PlanValid, DiscoveryValid, HasActive, AtMostOneActive;
  }

  function Notes(h: Histories, afterCrash: bool): seq<Note> {
    if afterCrash then h.durable else h.visible
  }

  /** Either copy's notes, ready for the results about replayed notes. */
  lemma NotesExplain(x: Externals, worlds: seq<World>, events: seq<Event>, k: nat, afterCrash: bool)
    requires IsRun(x, worlds, events) && k < |worlds|
    ensures |worlds| == |events| + 1
    ensures var start, notes := worlds[0].visible.watchdog, Notes(HistoriesAt(x, worlds, events, k), afterCrash);
            && Timely(start, worlds[0].clock, notes)
            && Replay(start, notes, |notes|) == Copy(worlds[k], afterCrash).watchdog
            && Latest(worlds[0].clock, notes, |notes|) <= worlds[k].clock
            && (worlds[k].watch.Repairing? ==>
                  Noted(start, notes, worlds[k].watch.now) && worlds[k].watch.now <= worlds[k].clock)
  {
    hide StateValid, Initial, StepAt, HistoriesAt, Replay, Timely, Latest, Noted;
    RecordIsReplay(x, worlds, events, k);
  }

  /**
    At most three attempts that were spent and not given back lie within ten minutes,
    whichever copy of the record one looks at, and the record lists exactly these.
   */
  lemma BudgetHoldsInRuns(x: Externals, worlds: seq<World>, events: seq<Event>, k: nat, afterCrash: bool, now: Instant)
    requires IsRun(x, worlds, events) && k < |worlds| && StartsSane(worlds[0]) && now >= worlds[k].clock
    ensures var start, notes := worlds[0].visible.watchdog, Notes(HistoriesAt(x, worlds, events, k), afterCrash);
            && Recent(Spent(start, notes, |notes|), now) == Recent(Copy(worlds[k], afterCrash).watchdog.attempts, now)
            && |Recent(Spent(start, notes, |notes|), now)| <= MAX_REPAIRS
  {
    hide IsRun, HistoriesAt, Timely, Spent, Recent, Replay, Latest, Counted, Spends, Degrades, Sane;
    NotesExplain(x, worlds, events, k, afterCrash);
    StartIsSane(x, worlds, events);
    var notes := Notes(HistoriesAt(x, worlds, events, k), afterCrash);
    BudgetHolds(worlds[0].visible.watchdog, worlds[0].clock, notes, |notes|, now);
  }

  /** The saved failure count is below three, except that a record may start with three until the first note. */
  lemma CountStaysBelowThreshold(x: Externals, worlds: seq<World>, events: seq<Event>, k: nat, afterCrash: bool)
    requires IsRun(x, worlds, events) && k < |worlds|
    ensures |worlds| == |events| + 1 && 0 <= Copy(worlds[k], afterCrash).watchdog.failures
    ensures Copy(worlds[k], afterCrash).watchdog.failures < OBSERVATION_THRESHOLD <==>
            Notes(HistoriesAt(x, worlds, events, k), afterCrash) != [] ||
            worlds[0].visible.watchdog.failures < OBSERVATION_THRESHOLD
  {
    hide IsRun, HistoriesAt, Timely, Spent, Recent, Replay, Latest, Counted, Spends, Degrades, Sane;
    NotesExplain(x, worlds, events, k, afterCrash);
    StartIsSane(x, worlds, events);
    var notes := Notes(HistoriesAt(x, worlds, events, k), afterCrash);
    FailuresAreConsecutive(worlds[0].visible.watchdog, notes, |notes|);
    NoNotes(worlds[0].visible.watchdog);
  }

  lemma NoNotes(start: WatchdogState)
    ensures Replay(start, [], 0) == start
  {
  }

  /**
    A repair is carried out only for an attempt that is recorded on disk too, spent by the
    third of three failed observations with nothing kept between them. The first of them
    may have been counted before the updater started.
   */
  lemma RepairsAreEarned(x: Externals, worlds: seq<World>, events: seq<Event>, k: nat, afterCrash: bool)
    requires IsRun(x, worlds, events) && k < |worlds| && worlds[k].watch.Repairing?
    ensures |worlds| == |events| + 1
    ensures var start, notes := worlds[0].visible.watchdog, Notes(HistoriesAt(x, worlds, events, k), afterCrash);
            exists p :: 0 <= p < |notes| && NotedAt(start, notes, worlds[k].watch.now, p) && Earned(start, notes, p)
  {
    hide IsRun, HistoriesAt, Timely, Spent, Recent, Replay, Latest, Counted, Spends, Degrades, Sane;
    NotesExplain(x, worlds, events, k, afterCrash);
    var start, notes := worlds[0].visible.watchdog, Notes(HistoriesAt(x, worlds, events, k), afterCrash);
    assert Noted(start, notes, worlds[k].watch.now);
    var p :| 0 <= p < |notes| && NotedAt(start, notes, worlds[k].watch.now, p);
    StartIsSane(x, worlds, events);
    ThreeFailuresBeforeRepair(start, notes, p);
  }

  /**
    What becomes of the attempt of an interrupted repair, when the refund is not lost. If
    the record still shows the repair, its attempt was spent by the last note, and the
    record's attempts are again those before it, pruned. If the watchdog was suppressed
    meanwhile, the attempt stays spent.
   */
  lemma InterruptedRepairIsRefunded(x: Externals, worlds: seq<World>, events: seq<Event>, k: nat, o: Outcome)
    requires IsRun(x, worlds, events) && k < |events| && |worlds| == |events| + 1
    requires events[k] == WatchWrite(RefundRepair, o) && o != Lost
    ensures var start, notes := worlds[0].visible.watchdog, HistoriesAt(x, worlds, events, k).visible;
            var before, after, now := worlds[k].visible.watchdog, worlds[k + 1].visible.watchdog,
              RoundOf(worlds[k].watch);
            && now.Some?
            && (before.status == WatchRepairing ==>
                  && SpendsLast(start, notes) && notes[|notes| - 1] == Failure(now.value)
                  && before.attempts == after.attempts + [now.value]
                  && after.attempts == Recent(Replay(start, notes, |notes| - 1).attempts, now.value))
            && (before.status != WatchRepairing ==> after == before)
  {
    hide IsRun, StateValid, HistoriesAt, Timely, Latest, Recent, Replay, Inv, Step, Spends, Noted, Accepted;
    RecordIsReplay(x, worlds, events, k);
    var w, start, notes := worlds[k], worlds[0].visible.watchdog, HistoriesAt(x, worlds, events, k).visible;
    var edit: WatchdogEdit := RefundRepair;
    RunStep(x, worlds, events, k);
    RunKeepsInv(x, worlds, events, k);
    ValidVisible(x, w);
    RefundWindow(x, w, edit, o);
    StepRecord(x, w, events[k]);
    RefundIsAccepted(x, w.visible);
    if w.visible.watchdog.status == WatchRepairing {
      NotedIsLast(start, notes, RoundOf(w.watch).value);
      SpentIsLast(start, notes, |notes| - 1);
      var pruned := Recent(Replay(start, notes, |notes| - 1).attempts, RoundOf(w.watch).value);
      RefundDropsLast(w.visible.watchdog, pruned);
    }
  }

  lemma RefundIsAccepted(x: Externals, s: RuntimeState)
    requires StateValid(x, s) && s.desired == Running && !HasActive(s)
    ensures Accepted(x, s, OnWatchdog(RefundRepair))
    ensures Effect(s, OnWatchdog(RefundRepair)).value.watchdog ==
            if s.watchdog.status == WatchRepairing then AfterRefund(s.watchdog) else s.watchdog
  {
    hide Accepted, HasActive;
    WatchdogAcceptedIffValid(x, s, RefundRepair);
    ValidWatchdog(x, s);
    RefundIsValid(s.watchdog);
  }

  lemma ValidWatchdog(x: Externals, s: RuntimeState)
    requires StateValid(x, s)
    ensures WatchdogValid(s.watchdog)
  {
    hide JobValid, PlanValid, DiscoveryValid, HasActive, AtMostOneActive, WatchdogValid;
  }

  lemma RefundIsValid(w: WatchdogState)
    requires WatchdogValid(w)
    ensures WatchdogValid(AfterRefund(w))
  {
  }

  lemma RefundDropsLast(w: WatchdogState, pruned: seq<Instant>)
    requires w.attempts == pruned + [w.lastRepairAt]
    ensures AfterRefund(w).attempts == pruned
  {
    assert w.attempts[..|pruned|] == pruned;
  }

  lemma ValidVisible(x: Externals, w: World)
    requires Inv(x, w)
    ensures StateValid(x, w.visible) && (InRepair(w.watch) ==> !HasActive(w.visible) && w.visible.desired == Running)
  {
    hide StateValid, Extends, RecordTracks, HasActive;
    RunningIsIdle(x, w.visible);
  }

  lemma RefundWindow(x: Externals, w: World, e: WatchdogEdit, o: Outcome)
    requires e == RefundRepair && Enabled(w, WatchWrite(e, o))
    ensures w.watch.Finishing? && RoundOf(w.watch).Some?
  {
  }

  /**
    After degrading, the next repair starts fifteen minutes later at the earliest, unless
    something reset the watchdog.
   */
  lemma RepairsRespectCooldown(
      x: Externals, worlds: seq<World>, events: seq<Event>, k: nat, afterCrash: bool, i: nat, p: nat)
    requires IsRun(x, worlds, events) && k < |worlds| && worlds[k].watch.Repairing?
    requires var start, notes := worlds[0].visible.watchdog, Notes(HistoriesAt(x, worlds, events, k), afterCrash);
             && i < p < |notes| && NotedAt(start, notes, worlds[k].watch.now, p) && Degrades(start, notes, i)
             && (forall j :: i < j < p ==> notes[j].Failure? || notes[j].RepairFailure? || notes[j].Refund?)
    ensures var notes := Notes(HistoriesAt(x, worlds, events, k), afterCrash);
            worlds[k].clock >= worlds[k].watch.now >= notes[i].now + REPAIR_COOLDOWN
  {
    hide IsRun, HistoriesAt, Timely, Spent, Recent, Replay, Latest, Counted, Spends, Degrades, Sane;
    NotesExplain(x, worlds, events, k, afterCrash);
    var start, notes := worlds[0].visible.watchdog, Notes(HistoriesAt(x, worlds, events, k), afterCrash);
    NoRepairDuringCooldown(start, worlds[0].clock, notes, i, p);
  }
}
