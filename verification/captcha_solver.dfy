/**
 * CAPTCHA client decision logic of src/captcha_solver.py. The HTTP answers
 * of the 2Captcha service and the clock readings of the polling loop are
 * oracle inputs; the operator prompt is an event recorded in the result.
 */
module CaptchaSolver {
  import opened Wrappers

  const TwoCaptchaPlaceholder := "YOUR_2CAPTCHA_API_KEY"
  const AntiCaptchaPlaceholder := "YOUR_ANTICAPTCHA_API_KEY"
  const NotReadyText := "CAPCHA_NOT_READY"
  const ManualMarker := "manual"
  const DefaultService := "2captcha"
  const DefaultMaxSolveTime := 120

  /** The keys of CAPTCHA_CONFIG that are read, absent ones as None. */
  datatype CaptchaConfig = CaptchaConfig(autoSolve: Option<bool>, solverService: Option<string>, maxSolveTime: Option<int>)

  /** The service keys of API_KEYS. */
  datatype ApiKeys = ApiKeys(twoCaptcha: Option<string>, antiCaptcha: Option<string>)

  /** One JSON answer of the service, or an exception while obtaining or decoding it. */
  datatype Answer = Answer(status: Option<int>, request: Option<string>) | Raised

  /** One loop iteration: the clock reading of the `while` test and the answer polled after it. */
  datatype Tick = Tick(now: real, answer: Answer)

  /** How the polling loop ends. */
  datatype PollEnd = Solved(token: Option<string>) | Failed | RaisedInPoll | TimedOut

  /** What one call to the solver did: its return value, and whether it prompted, submitted, polled. */
  datatype Outcome = Outcome(token: Option<string>, prompted: bool, submitted: bool, polls: nat)

  function MaxWait(cfg: CaptchaConfig): int {
    cfg.maxSolveTime.GetOr(DefaultMaxSolveTime)
  }

  predicate InTime(t: Tick, start: real, maxWait: int) {
    t.now - start < maxWait as real
  }

  predicate Ready(a: Answer) {
    a.Answer? && a.status == Some(1)
  }

  predicate NotReady(a: Answer) {
    a.Answer? && a.status != Some(1) && a.request == Some(NotReadyText)
  }

  /** The clock trace ends with a reading past the deadline, so the loop ends within it. */
  predicate ReachesDeadline(ticks: seq<Tick>, start: real, maxWait: int) {
    |ticks| > 0 && !InTime(ticks[|ticks| - 1], start, maxWait)
  }

  /**
   * The polling loop from iteration `i`: returns how it ends and the index
   * `n` one past the last poll (or of the reading past the deadline).
   * Exactly the readings in [i, n) were in time, all answers but the last
   * were "not ready", and the last answer decides the outcome.
   */
  function PollFrom(ticks: seq<Tick>, start: real, maxWait: int, i: nat): (r: (PollEnd, nat))
    requires i < |ticks| && ReachesDeadline(ticks, start, maxWait)
    ensures i <= r.1 <= |ticks|
    ensures forall k :: i <= k < r.1 ==> InTime(ticks[k], start, maxWait)
    ensures forall k :: i <= k < r.1 - 1 ==> NotReady(ticks[k].answer)
    ensures r.0.TimedOut? ==> r.1 < |ticks| && !InTime(ticks[r.1], start, maxWait)
    ensures r.0.TimedOut? ==> forall k :: i <= k < r.1 ==> NotReady(ticks[k].answer)
    ensures !r.0.TimedOut? ==> i < r.1 && !NotReady(ticks[r.1 - 1].answer)
    ensures r.0.Solved? <==> !r.0.TimedOut? && Ready(ticks[r.1 - 1].answer)
    ensures r.0.Solved? ==> r.0.token == ticks[r.1 - 1].answer.request
    ensures r.0.RaisedInPoll? <==> !r.0.TimedOut? && ticks[r.1 - 1].answer.Raised?
    decreases |ticks| - i
  {
    if !InTime(ticks[i], start, maxWait) then (TimedOut, i)
    else match ticks[i].answer
      case Raised => (RaisedInPoll, i + 1)
      case Answer(status, request) =>
        if status == Some(1) then (Solved(request), i + 1)
        else if request == Some(NotReadyText) then PollFrom(ticks, start, maxWait, i + 1)
        else (Failed, i + 1)
  }

  /**
   * The loop solves the CAPTCHA iff some in-time poll answers status 1 and
   * every poll before it was in time and answered "not ready".
   */
  lemma {:induction false} PollSolvedIff(ticks: seq<Tick>, start: real, maxWait: int)
    requires ReachesDeadline(ticks, start, maxWait)
    ensures PollFrom(ticks, start, maxWait, 0).0.Solved? <==>
            exists k :: 0 <= k < |ticks| && InTime(ticks[k], start, maxWait) && Ready(ticks[k].answer)
                        && forall j :: 0 <= j < k ==> InTime(ticks[j], start, maxWait) && NotReady(ticks[j].answer)
  {
  }

  /** `solve_with_2captcha`: key check, one submission, then the polling loop. */
  function SolveWith2Captcha(keys: ApiKeys, cfg: CaptchaConfig, submit: Answer, start: real, ticks: seq<Tick>)
    : (o: Outcome)
    requires ReachesDeadline(ticks, start, MaxWait(cfg))
    ensures !o.prompted && o.polls <= |ticks|
    ensures !KeyUsable(keys) ==> o == Outcome(None, false, false, 0)
    ensures o.submitted && !Ready(submit) ==> o.token.None? && o.polls == 0
    ensures o.token.Some? ==> o.submitted && Ready(submit) && 0 < o.polls
                              && Ready(ticks[o.polls - 1].answer) && o.token == ticks[o.polls - 1].answer.request
                              && InTime(ticks[o.polls - 1], start, MaxWait(cfg))
    ensures forall k :: 0 <= k < o.polls ==> InTime(ticks[k], start, MaxWait(cfg))
    ensures KeyUsable(keys) ==> o.submitted
    ensures KeyUsable(keys) && Ready(submit) ==>
              var end := PollFrom(ticks, start, MaxWait(cfg), 0);
              o.polls == end.1 && o.token == (if end.0.Solved? then end.0.token else None)
  {
    if !KeyUsable(keys) then
      Outcome(None, false, false, 0)
    else if !Ready(submit) then
      Outcome(None, false, true, 0)
    else
      var (end, n) := PollFrom(ticks, start, MaxWait(cfg), 0);
      Outcome(if end.Solved? then end.token else None, false, true, n)
  }

  /** A 2Captcha key that is set, non-empty and not the shipped placeholder. */
  predicate KeyUsable(keys: ApiKeys) {
    Truthy(keys.twoCaptcha) && keys.twoCaptcha.value != TwoCaptchaPlaceholder
  }

  /**
   * With a usable key and an accepted submission, if poll `k` is the first
   * in-time status-1 answer and every poll before it was in time and "not
   * ready", the solver makes exactly k + 1 polls and returns that answer's request.
   */
  lemma {:induction false} TwoCaptchaReturnsFirstReady(keys: ApiKeys, cfg: CaptchaConfig, submit: Answer,
                                                      start: real, ticks: seq<Tick>, k: nat)
    requires ReachesDeadline(ticks, start, MaxWait(cfg))
    requires KeyUsable(keys) && Ready(submit)
    requires k < |ticks| && InTime(ticks[k], start, MaxWait(cfg)) && Ready(ticks[k].answer)
    requires forall j :: 0 <= j < k ==> InTime(ticks[j], start, MaxWait(cfg)) && NotReady(ticks[j].answer)
    ensures SolveWith2Captcha(keys, cfg, submit, start, ticks) == Outcome(ticks[k].answer.request, false, true, k + 1)
  {
    PollReachesFirstReady(ticks, start, MaxWait(cfg), 0, k);
  }

  lemma {:induction false} PollReachesFirstReady(ticks: seq<Tick>, start: real, maxWait: int, i: nat, k: nat)
    requires ReachesDeadline(ticks, start, maxWait)
    requires i <= k < |ticks| && InTime(ticks[k], start, maxWait) && Ready(ticks[k].answer)
    requires forall j :: i <= j < k ==> InTime(ticks[j], start, maxWait) && NotReady(ticks[j].answer)
    ensures PollFrom(ticks, start, maxWait, i) == (Solved(ticks[k].answer.request), k + 1)
    decreases k - i
  {
    if i < k {
      PollReachesFirstReady(ticks, start, maxWait, i + 1, k);
    }
  }

  /** `solve_with_anticaptcha`: the integration is a stub that never yields a token. */
  function SolveWithAntiCaptcha(keys: ApiKeys): (o: Outcome)
    ensures o.token.None? && !o.submitted && !o.prompted && o.polls == 0
  {
    Outcome(None, false, false, 0)
  }

  /**
   * `solve_captcha`: manual mode (requested, or auto-solve off or unset)
   * prompts the operator and returns the "manual" marker; otherwise the
   * configured service (default 2captcha) is used, and an unknown one gives None.
   */
  function SolveCaptcha(cfg: CaptchaConfig, keys: ApiKeys, manual: bool, submit: Answer, start: real, ticks: seq<Tick>)
    : (o: Outcome)
    requires ReachesDeadline(ticks, start, MaxWait(cfg))
    ensures (manual || !cfg.autoSolve.GetOr(false)) <==> o.prompted
    ensures o.prompted ==> o == Outcome(Some(ManualMarker), true, false, 0)
    ensures !o.prompted ==>
              var service := cfg.solverService.GetOr(DefaultService);
              (service == DefaultService ==> o == SolveWith2Captcha(keys, cfg, submit, start, ticks))
              && (service != DefaultService ==> o.token.None? && !o.submitted)
  {
    if manual || !cfg.autoSolve.GetOr(false) then Outcome(Some(ManualMarker), true, false, 0)
    else
      var service := cfg.solverService.GetOr(DefaultService);
      if service == DefaultService then SolveWith2Captcha(keys, cfg, submit, start, ticks)
      else if service == "anticaptcha" then SolveWithAntiCaptcha(keys)
      else Outcome(None, false, false, 0)
  }
}
