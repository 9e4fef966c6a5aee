/**
  Where a job's tokens come from: every token on record was there at the start or was
  brought by an accepted creation or replay for that very job.
 */
module Tokens {
  import opened Wrappers
  import opened Text
  import opened Release
  import opened State
  import opened Changes
  import opened Ledger
  import opened System
  import opened Safety
  import opened Runs
  import opened Acceptance
  import opened Races
  import opened Outcomes

  /** The request's command gives this token to this job: the one it creates or the one its key is for. */
  predicate Brings(s: RuntimeState, c: Command, id: string, token: string) {
    match c
    case CreateJob(key, _, _, newId, bearer) =>
      bearer == token && id == if key in s.idempotency then s.idempotency[key] else newId
    case RotateTicket(key, _, bearer) => bearer == token && key in s.idempotency && id == s.idempotency[key]
    case _ => false
  }

  /** Event number `j` is an accepted write that gives the token to the job. */
  ghost predicate GrantedBy(
      x: Externals, worlds: seq<World>, events: seq<Event>, j: nat, id: string, token: string)
    requires j < |events| && j < |worlds|
  {
    && events[j].RequestWrite? && Brings(worlds[j].visible, events[j].c, id, token)
    && Accepted(x, worlds[j].visible, FromApi(events[j].c)) && events[j].o != Lost
  }

  /** The token was on record for the job at the start, or one of the first `k` events brought it. */
  ghost predicate Granted(x: Externals, worlds: seq<World>, events: seq<Event>, k: nat, id: string, token: string)
    requires k <= |events| && |worlds| == |events| + 1
  {
    || Bears(worlds[0].visible, id, token)
    || exists j :: 0 <= j < k && GrantedBy(x, worlds, events, j, id, token)
  }

  predicate Bears(s: RuntimeState, id: string, token: string) {
    id in s.jobs && token in s.jobs[id].bearers
  }

  /** Every token in either copy of the record was granted. */
  lemma {:induction false} TokensAreGranted(
      x: Externals, worlds: seq<World>, events: seq<Event>, k: nat, afterCrash: bool, id: string, token: string)
    requires IsRun(x, worlds, events) && k < |worlds| == |events| + 1
    requires Bears(Copy(worlds[k], afterCrash), id, token)
    ensures Granted(x, worlds, events, k, id, token)
    decreases k
  {
    hide StateValid, Inv, Step, Enabled, Brings, Accepted, Bears, IsActive;
    if k > 0 {
      RunStep(x, worlds, events, k - 1);
      RunKeepsInv(x, worlds, events, k - 1);
      TokenStep(x, worlds[k - 1], events[k - 1], afterCrash, id, token);
      if GrantedBy(x, worlds, events, k - 1, id, token) {
      } else if Bears(Copy(worlds[k - 1], true), id, token) {
        TokensAreGranted(x, worlds, events, k - 1, true, id, token);
      } else {
        TokensAreGranted(x, worlds, events, k - 1, false, id, token);
      }
    }
  }

  /** One event brings a token only as an accepted write of a request for its job. */
  lemma TokenStep(x: Externals, w: World, e: Event, afterCrash: bool, id: string, token: string)
    requires Inv(x, w) && Enabled(w, e) && Bears(Copy(Step(x, w, e), afterCrash), id, token)
    ensures || Bears(w.visible, id, token) || Bears(w.durable, id, token)
            || (e.RequestWrite? && Brings(w.visible, e.c, id, token) && Accepted(x, w.visible, FromApi(e.c)) &&
                e.o != Lost)
  {
    hide StateValid, Inv, Step, Enabled, EngineEffect, WatchdogEffect, ApiEffect, Brings;
    ValidInInv(x, w);
    StepRecord(x, w, e);
    if e.Crash? {
      CrashStep(x, w, e);
    } else if Writes(e) && Accepted(x, w.visible, ChangeOf(e)) && e.RequestWrite? {
      if Bears(Effect(w.visible, ChangeOf(e)).value, id, token) {
        RequestBrings(x, w.visible, e.c, id, token);
      }
    }
  }

  lemma RequestBrings(x: Externals, s: RuntimeState, c: Command, id: string, token: string)
    requires StateValid(x, s) && ApiEffect(s, c).Ok? && Bears(ApiEffect(s, c).value, id, token)
    ensures Bears(s, id, token) || Brings(s, c, id, token)
  {
    hide StateValid, HasActive, TokenAllowed, RestartOffered, Suppressed, Rotated;
    ValidIsWellKeyed(x, s);
  }

  /** A restart is accepted only with a token that was granted to its job; any other token changes nothing. */
  lemma RestartsShowGrantedTokens(
      x: Externals, worlds: seq<World>, events: seq<Event>, k: nat, id: string, token: Option<string>)
    requires IsRun(x, worlds, events) && RequestRuns(events, k, RestartJob(id, token)) && |worlds| == |events| + 1
    ensures Accepted(x, worlds[k].visible, FromApi(RestartJob(id, token))) ==>
              token.Some? && Granted(x, worlds, events, k, id, token.value)
    ensures !(token.Some? && Granted(x, worlds, events, k, id, token.value)) ==>
              worlds[k + 1].visible == worlds[k].visible && worlds[k + 1].durable == worlds[k].durable
  {
    hide IsRun, Granted, CanRestart, Accepted;
    RestartsNeedTheirToken(x, worlds, events, k, id, token);
    if OnRecord(worlds[k].visible, id, token) {
      TokensAreGranted(x, worlds, events, k, false, id, token.value);
    }
  }
}
