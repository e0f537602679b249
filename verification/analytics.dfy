/**
 * The `Analytics` run-tracking state of src/analytics.py. Database calls
 * are recorded in an outgoing call list; what the database answers (new
 * row ids) and the clock are oracle inputs. The database layer catches its
 * own exceptions, so none reach this state machine.
 */
module Analytics {
  import opened Wrappers
  import opened Seqs

  const UnknownPlatform := "unknown"

  datatype Event = Event(eventType: string, eventName: string, timestampMs: int, details: map<string, string>)

  /** `current_run_id`, `current_session_id`, `run_start_time` (a clock reading in ms) and `performance_events`. */
  datatype State = State(runId: Option<string>, sessionId: Option<string>, runStart: Option<nat>, events: seq<Event>)

  /** The database calls the tracker makes, with the arguments that matter here. */
  datatype Call =
    | CreateSession(accountId: string, platform: string)
    | CreateBotRun(sessionId: string, platform: string, botType: string)
    | UpdateBotRun(runId: string, success: bool, durationMs: int)
    | RecordCaptcha(runId: string, platform: string, success: bool)
    | RecordProxy(address: string, platform: string, success: bool, detected: bool)
    | CreatePurchaseAttempt(runId: string, platform: string)
    | UpdatePurchaseAttempt(attemptId: string, success: bool)
    | RecordNotification(runId: string, channel: string, success: bool)
    | UpdateAccountUsage(accountId: string)
    | UpdateAccountStats(accountId: string, success: bool)

  /** The state after `__init__`. */
  function Init(): (s: State)
    ensures s.runId.None? && s.sessionId.None? && s.runStart.None? && s.events == []
  {
    State(None, None, None, [])
  }

  /** `start_session`: the session id is whatever the database returned (None on failure). */
  function StartSession(s: State, accountId: string, platform: string, created: Option<string>)
    : (r: (State, Option<string>, seq<Call>))
    ensures r.0 == s.(sessionId := created) && r.1 == created
    ensures r.2 == [CreateSession(accountId, platform)]
  {
    (s.(sessionId := created), created, [CreateSession(accountId, platform)])
  }

  /**
   * `start_run`: without a session nothing happens and the result is None;
   * otherwise the run id becomes the database's answer (even None), the start
   * time is set and the event list is emptied.
   */
  function StartRun(s: State, platform: string, botType: string, created: Option<string>, now: nat)
    : (r: (State, Option<string>, seq<Call>))
    ensures !Truthy(s.sessionId) ==> r == (s, None, [])
    ensures Truthy(s.sessionId) ==>
              r.1 == created && r.0.runId == created && r.0.runStart == Some(now) && r.0.events == []
              && r.0.sessionId == s.sessionId && r.2 == [CreateBotRun(s.sessionId.value, platform, botType)]
  {
    if !Truthy(s.sessionId) then (s, None, [])
    else (s.(runId := created, runStart := Some(now), events := []), created,
          [CreateBotRun(s.sessionId.value, platform, botType)])
  }

  /** `record_event`: appends exactly one event, details defaulting to {}; nothing else changes. */
  function RecordEvent(s: State, eventType: string, eventName: string, timestampMs: int, details: Option<map<string, string>>)
    : (r: State)
    ensures |r.events| == |s.events| + 1 && r.events[..|s.events|] == s.events
    ensures r.events[|s.events|] == Event(eventType, eventName, timestampMs, if details.Some? then details.value else map[])
    ensures r.runId == s.runId && r.sessionId == s.sessionId && r.runStart == s.runStart
  {
    s.(events := s.events + [Event(eventType, eventName, timestampMs, if details.Some? && |details.value| > 0 then details.value else map[])])
  }

  /**
   * `end_run`: False with no run id or start time; otherwise one bot-run
   * update with the elapsed milliseconds, and True. The run id is not
   * cleared, so the state is unchanged either way.
   */
  function EndRun(s: State, success: bool, now: nat): (r: (bool, seq<Call>))
    ensures r.0 <==> Truthy(s.runId) && s.runStart.Some?
    ensures !r.0 ==> r.1 == []
    ensures r.0 ==> r.1 == [UpdateBotRun(s.runId.value, success, now - s.runStart.value)]
  {
    if !Truthy(s.runId) || s.runStart.None? then (false, [])
    else (true, [UpdateBotRun(s.runId.value, success, now - s.runStart.value)])
  }

  /** Since `end_run` leaves the state alone, ending the same run again proceeds again. */
  lemma EndRunRepeats(s: State, success: bool, now: nat, later: nat)
    requires EndRun(s, success, now).0
    ensures EndRun(s, success, later).0
  {
  }

  /** `record_captcha_attempt`: needs an active run; the platform defaults to "unknown". */
  function RecordCaptchaAttempt(s: State, success: bool, platform: Option<string>): (r: (bool, seq<Call>))
    ensures r.0 <==> Truthy(s.runId)
    ensures !r.0 ==> r.1 == []
    ensures r.0 ==> r.1 == [RecordCaptcha(s.runId.value, if Truthy(platform) then platform.value else UnknownPlatform, success)]
  {
    if !Truthy(s.runId) then (false, [])
    else (true, [RecordCaptcha(s.runId.value, if Truthy(platform) then platform.value else UnknownPlatform, success)])
  }

  /** `record_proxy_performance`: needs no run; forwards one call and returns True. */
  function RecordProxyPerformance(address: string, platform: string, success: bool, detected: bool)
    : (r: (bool, seq<Call>))
    ensures r.0 && r.1 == [RecordProxy(address, platform, success, detected)]
  {
    (true, [RecordProxy(address, platform, success, detected)])
  }

  /**
   * `record_purchase_attempt`: needs an active run; creates the attempt and,
   * only if the database returned an id, updates it and returns True.
   */
  function RecordPurchaseAttempt(s: State, platform: string, success: bool, created: Option<string>)
    : (r: (bool, seq<Call>))
    ensures !Truthy(s.runId) ==> r == (false, [])
    ensures Truthy(s.runId) ==> 0 < |r.1| && r.1[0] == CreatePurchaseAttempt(s.runId.value, platform)
    ensures r.0 <==> Truthy(s.runId) && Truthy(created)
    ensures r.0 ==> r.1 == [CreatePurchaseAttempt(s.runId.value, platform), UpdatePurchaseAttempt(created.value, success)]
    ensures Truthy(s.runId) && !r.0 ==> |r.1| == 1
  {
    if !Truthy(s.runId) then (false, [])
    else if Truthy(created) then
      (true, [CreatePurchaseAttempt(s.runId.value, platform), UpdatePurchaseAttempt(created.value, success)])
    else (false, [CreatePurchaseAttempt(s.runId.value, platform)])
  }

  /** `record_notification`: needs an active run. */
  function RecordNotificationSent(s: State, channel: string, success: bool): (r: (bool, seq<Call>))
    ensures r.0 <==> Truthy(s.runId)
    ensures r.0 ==> r.1 == [RecordNotification(s.runId.value, channel, success)]
    ensures !r.0 ==> r.1 == []
  {
    if !Truthy(s.runId) then (false, []) else (true, [RecordNotification(s.runId.value, channel, success)])
  }

  /** The event types, one per event, in event order. */
  function EventTypes(events: seq<Event>): (ts: seq<string>)
    ensures |ts| == |events| && forall k :: 0 <= k < |events| ==> ts[k] == events[k].eventType
  {
    seq(|events|, k requires 0 <= k < |events| => events[k].eventType)
  }

  /** The distinct event types, in order of first occurrence. */
  function DistinctTypes(events: seq<Event>): (ts: seq<string>)
    ensures forall t :: t in ts <==> exists k :: 0 <= k < |events| && events[k].eventType == t
    ensures forall i, j :: 0 <= i < j < |ts| ==> ts[i] != ts[j]
    ensures |ts| <= |events|
  {
    Distinct(EventTypes(events))
  }

  /** `generate_performance_report`. */
  datatype Report = NoEvents | Summary(totalEvents: nat, events: seq<Event>, eventTypes: seq<string>)

  /**
   * With no events the report is {total_events: 0, events: []}; otherwise
   * it counts and lists the events and names their distinct types.
   */
  function PerformanceReport(s: State): (r: Report)
    ensures r.NoEvents? <==> |s.events| == 0
    ensures r.Summary? ==> r.totalEvents == |s.events| && r.events == s.events
    ensures r.Summary? ==> forall t :: t in r.eventTypes <==> exists k :: 0 <= k < |s.events| && s.events[k].eventType == t
    ensures r.Summary? ==> |r.eventTypes| <= |s.events|
    ensures r.Summary? ==> forall i, j :: 0 <= i < j < |r.eventTypes| ==> r.eventTypes[i] != r.eventTypes[j]
  {
    if |s.events| == 0 then NoEvents
    else
      Summary(|s.events|, s.events, DistinctTypes(s.events))
  }

  /** Records a list of events one by one. */
  function RecordAll(s: State, evs: seq<Event>): (r: State)
    decreases |evs|
  {
    if |evs| == 0 then s
    else
      var e := evs[|evs| - 1];
      RecordEvent(RecordAll(s, evs[..|evs| - 1]), e.eventType, e.eventName, e.timestampMs, Some(e.details))
  }

  /** After a started run, the report counts exactly the events recorded since. */
  lemma {:induction false} ReportCountsEventsSinceStart(
    s: State, platform: string, botType: string, created: Option<string>, now: nat, evs: seq<Event>)
    requires Truthy(s.sessionId)
    ensures |RecordAll(StartRun(s, platform, botType, created, now).0, evs).events| == |evs|
    ensures |evs| == 0 <==> PerformanceReport(RecordAll(StartRun(s, platform, botType, created, now).0, evs)).NoEvents?
    decreases |evs|
  {
    if |evs| > 0 {
      ReportCountsEventsSinceStart(s, platform, botType, created, now, evs[..|evs| - 1]);
    }
  }
}
