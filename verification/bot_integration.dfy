/**
 * The run-tracking scopes of `BotIntegration` (src/bot_integration.py). The
 * two context managers become functions that take the scope's body as a
 * function from the entered state to the state it leaves, the database
 * calls it made and whether it raised.
 */
module BotIntegration {
  import opened Wrappers
  import A = Analytics

  /** `current_account_id`, `current_session_id`, `current_run_id` and the shared analytics state. */
  datatype State = State(accountId: Option<string>, sessionId: Option<string>, runId: Option<string>, analytics: A.State)

  /** How a scope ended: the state, the database calls made, and whether an exception propagates. */
  datatype Exit = Exit(state: State, calls: seq<A.Call>, raised: bool)

  type Body = State -> Exit

  function Init(): (s: State)
    ensures s.accountId.None? && s.sessionId.None? && s.runId.None? && s.analytics == A.Init()
  {
    State(None, None, None, A.Init())
  }

  /**
   * `track_bot_session`: sets the account, starts a session, runs the body.
   * On leaving (normally or by exception, which is re-raised) it records
   * account usage and clears the session and account ids, but only if a
   * session id is set at that point.
   */
  function TrackBotSession(s: State, accountId: string, platform: string, created: Option<string>, body: Body)
    : (r: Exit)
    ensures var entered := EnterSession(s, accountId, platform, created);
            var inner := body(entered);
            && r.raised == inner.raised
            && r.state.runId == inner.state.runId && r.state.analytics == inner.state.analytics
            && (Truthy(inner.state.sessionId) ==>
                  r.state.sessionId.None? && r.state.accountId.None?
                  && r.calls == [A.CreateSession(accountId, platform)] + inner.calls + [A.UpdateAccountUsage(accountId)])
            && (!Truthy(inner.state.sessionId) ==>
                  r.state == inner.state && r.calls == [A.CreateSession(accountId, platform)] + inner.calls)
  {
    var entered := EnterSession(s, accountId, platform, created);
    var inner := body(entered);
    if Truthy(inner.state.sessionId) then
      Exit(inner.state.(sessionId := None, accountId := None),
           [A.CreateSession(accountId, platform)] + inner.calls + [A.UpdateAccountUsage(accountId)], inner.raised)
    else Exit(inner.state, [A.CreateSession(accountId, platform)] + inner.calls, inner.raised)
  }

  /** Entering the session scope: the account id is set before the session is started. */
  function EnterSession(s: State, accountId: string, platform: string, created: Option<string>): (e: State)
    ensures e.accountId == Some(accountId) && e.sessionId == created && e.runId == s.runId
    ensures e.analytics == A.StartSession(s.analytics, accountId, platform, created).0
  {
    State(Some(accountId), created, s.runId, A.StartSession(s.analytics, accountId, platform, created).0)
  }

  /** A body that leaves the session id alone: usage is recorded iff the session was obtained. */
  lemma SessionCleanupIffObtained(s: State, accountId: string, platform: string, created: Option<string>, body: Body)
    requires body(EnterSession(s, accountId, platform, created)).state.sessionId == created
    ensures var r := TrackBotSession(s, accountId, platform, created, body);
            (A.UpdateAccountUsage(accountId) in r.calls <==> Truthy(created) || A.UpdateAccountUsage(accountId) in body(EnterSession(s, accountId, platform, created)).calls)
    ensures !Truthy(created) ==>
              TrackBotSession(s, accountId, platform, created, body).state.accountId
              == body(EnterSession(s, accountId, platform, created)).state.accountId
  {
  }

  /**
   * `track_bot_run`: starts an analytics run and remembers its id, runs the
   * body, and on every exit resets the run id to None; exceptions are re-raised.
   */
  function TrackBotRun(s: State, platform: string, botType: string, created: Option<string>, now: nat, body: Body)
    : (r: Exit)
    ensures var started := A.StartRun(s.analytics, platform, botType, created, now);
            var inner := body(s.(runId := started.1, analytics := started.0));
            && r.state == inner.state.(runId := None)
            && r.raised == inner.raised
            && r.calls == started.2 + inner.calls
  {
    var started := A.StartRun(s.analytics, platform, botType, created, now);
    var inner := body(s.(runId := started.1, analytics := started.0));
    Exit(inner.state.(runId := None), started.2 + inner.calls, inner.raised)
  }

  /** Whatever the body does, the run id is None after the run scope. */
  lemma RunScopeAlwaysResets(s: State, platform: string, botType: string, created: Option<string>, now: nat, body: Body)
    ensures TrackBotRun(s, platform, botType, created, now, body).state.runId.None?
  {
  }

  /** `log_bot_event`: forwarded to analytics only while a run id is set. */
  function LogBotEvent(s: State, eventType: string, eventName: string, timestampMs: int, details: Option<map<string, string>>)
    : (r: State)
    ensures !Truthy(s.runId) ==> r == s
    ensures Truthy(s.runId) ==>
              r == s.(analytics := A.RecordEvent(s.analytics, eventType, eventName, timestampMs, details))
    ensures |r.analytics.events| == |s.analytics.events| + (if Truthy(s.runId) then 1 else 0)
  {
    if Truthy(s.runId) then s.(analytics := A.RecordEvent(s.analytics, eventType, eventName, timestampMs, details))
    else s
  }

  /**
   * `end_bot_run`: False with no run and no calls; otherwise the analytics
   * `end_run` result, followed by an account-stats update with the same
   * success flag iff an account id is set.
   */
  function EndBotRun(s: State, success: bool, now: nat): (r: (bool, seq<A.Call>))
    ensures !Truthy(s.runId) ==> r == (false, [])
    ensures Truthy(s.runId) ==> r.0 == A.EndRun(s.analytics, success, now).0
    ensures Truthy(s.runId) ==>
              (A.UpdateAccountStats(s.accountId.GetOr(""), success) in r.1 <==> Truthy(s.accountId))
    ensures Truthy(s.runId) && Truthy(s.accountId) ==> r.1[|r.1| - 1] == A.UpdateAccountStats(s.accountId.value, success)
  {
    if !Truthy(s.runId) then (false, [])
    else
      var (ok, calls) := A.EndRun(s.analytics, success, now);
      (ok, calls + if Truthy(s.accountId) then [A.UpdateAccountStats(s.accountId.value, success)] else [])
  }
}
