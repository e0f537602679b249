/**
 * The decision and aggregation logic of `SupabaseManager`
 * (src/supabase_client.py). The client itself is left out: the rows a query
 * returns are inputs, and each write is returned as a value. A null value
 * that Python would add to a number raises TypeError, which the method
 * catches and turns into its failure value; the model does the same.
 */
module SupabaseClient {
  import opened Wrappers
  import opened Rows

  /** `is_connected`: initialised and a client object present. */
  predicate IsConnected(initialized: bool, hasClient: bool) {
    initialized && hasClient
  }

  // ---- accounts ----------------------------------------------------------

  datatype AccountCounts = AccountCounts(successCount: Field, failureCount: Field)

  /**
   * `update_account_stats`: with a connection and a found account, writes
   * the success or the failure count plus one (a missing or null count
   * reading as 0) and returns True.
   */
  function UpdateAccountStats(connected: bool, account: Option<AccountCounts>, success: bool)
    : (r: (bool, Option<AccountCounts>))
    ensures r.0 <==> connected && account.Some?
    ensures r.1.Some? <==> r.0
    ensures r.0 && success ==>
              r.1.value.successCount == Num(OrZero(account.value.successCount) + 1)
              && r.1.value.failureCount == account.value.failureCount
    ensures r.0 && !success ==>
              r.1.value.failureCount == Num(OrZero(account.value.failureCount) + 1)
              && r.1.value.successCount == account.value.successCount
  {
    if !connected || account.None? then (false, None)
    else if success then (true, Some(account.value.(successCount := Num(OrZero(account.value.successCount) + 1))))
    else (true, Some(account.value.(failureCount := Num(OrZero(account.value.failureCount) + 1))))
  }

  /** Exactly one of the two counters goes up, by one. */
  lemma AccountStatsAddOne(account: AccountCounts, success: bool)
    ensures var r := UpdateAccountStats(true, Some(account), success).1.value;
            OrZero(r.successCount) + OrZero(r.failureCount)
            == OrZero(account.successCount) + OrZero(account.failureCount) + 1
  {
  }

  // ---- keyword-argument rewrite -------------------------------------------

  /** A keyword-argument value, as far as the rewrite can tell them apart. */
  datatype Value = Bool(b: bool) | Str(s: string) | Int(i: int) | NoneValue

  const CompletedAt := "completed_at"

  /** `completed_at=True` becomes the current timestamp; every other pair passes through. */
  function RewriteOne(kv: (string, Value), now: string): (r: (string, Value))
    ensures r.0 == kv.0
    ensures kv == (CompletedAt, Bool(true)) ==> r.1 == Str(now)
    ensures kv != (CompletedAt, Bool(true)) ==> r == kv
  {
    if kv.0 == CompletedAt && kv.1 == Bool(true) then (kv.0, Str(now)) else kv
  }

  /** The update dict built by `update_bot_run` and `update_research_session`. */
  function RewriteKwargs(kwargs: seq<(string, Value)>, now: string): (r: seq<(string, Value)>)
    ensures |r| == |kwargs|
    ensures forall k :: 0 <= k < |r| ==> r[k] == RewriteOne(kwargs[k], now)
  {
    seq(|kwargs|, k requires 0 <= k < |kwargs| => RewriteOne(kwargs[k], now))
  }

  /** After the rewrite no `completed_at=True` is left, so a second rewrite changes nothing. */
  lemma RewriteIdempotent(kwargs: seq<(string, Value)>, now: string, later: string)
    ensures forall k :: 0 <= k < |kwargs| ==> RewriteKwargs(kwargs, now)[k] != (CompletedAt, Bool(true))
    ensures RewriteKwargs(RewriteKwargs(kwargs, now), later) == RewriteKwargs(kwargs, now)
  {
  }

  /** A table update: the target id and the data written. */
  datatype Update = Update(id: string, data: seq<(string, Value)>)

  /** `update_bot_run(run_id, **kwargs)` and `update_research_session(session_id, **kwargs)`. */
  function UpdateWithKwargs(connected: bool, id: string, kwargs: seq<(string, Value)>, now: string)
    : (r: (bool, Option<Update>))
    ensures r.0 <==> connected
    ensures r.1.Some? <==> connected
    ensures connected ==> r.1.value.id == id && |r.1.value.data| == |kwargs|
    ensures connected ==> forall k :: 0 <= k < |kwargs| ==> r.1.value.data[k].0 == kwargs[k].0
    ensures connected ==> forall k :: 0 <= k < |kwargs| ==>
              r.1.value.data[k].1 == (if kwargs[k] == (CompletedAt, Bool(true)) then Str(now) else kwargs[k].1)
    ensures connected ==> r.1.value.data == RewriteKwargs(kwargs, now)
  {
    if !connected then (false, None) else (true, Some(Update(id, RewriteKwargs(kwargs, now))))
  }

  // ---- proxy performance ----------------------------------------------------

  datatype ProxyRow = ProxyRow(successCount: Field, failureCount: Field, detectionCount: Field, lastSuccess: Option<string>)

  /** The write `record_proxy_performance` makes, if any. */
  datatype ProxyWrite = UpdatedRow(row: ProxyRow) | InsertedRow(row: ProxyRow) | NoWrite

  function Bump(f: Field, inc: bool): Field
    requires !f.Null?
  {
    Num(GetOr0(f).value + (if inc then 1 else 0))
  }

  /**
   * `record_proxy_performance`: on an existing (address, platform) row, one
   * of success/failure goes up by one, detection goes up iff detected, and
   * `last_success` changes only on success; a null count raises and nothing
   * is written. A new pair gets counts (1, 0) or (0, 1).
   */
  function RecordProxyPerformance(connected: bool, existing: Option<ProxyRow>, success: bool, detected: bool, now: string)
    : (r: (bool, ProxyWrite))
    ensures !connected ==> r == (false, NoWrite)
    ensures connected && existing.None? ==>
              r == (true, InsertedRow(ProxyRow(Num(if success then 1 else 0), Num(if success then 0 else 1),
                                               Num(if detected then 1 else 0), if success then Some(now) else None)))
    ensures connected && existing.Some? ==>
              var e := existing.value;
              (r.0 <==> !e.successCount.Null? && !e.failureCount.Null? && !e.detectionCount.Null?)
              && (!r.0 ==> r.1 == NoWrite)
              && (r.0 ==> r.1.UpdatedRow?
                          && OrZero(r.1.row.successCount) == OrZero(e.successCount) + (if success then 1 else 0)
                          && OrZero(r.1.row.failureCount) == OrZero(e.failureCount) + (if success then 0 else 1)
                          && OrZero(r.1.row.detectionCount) == OrZero(e.detectionCount) + (if detected then 1 else 0)
                          && r.1.row.lastSuccess == (if success then Some(now) else e.lastSuccess))
  {
    if !connected then (false, NoWrite)
    else if existing.None? then
      (true, InsertedRow(ProxyRow(Num(if success then 1 else 0), Num(if success then 0 else 1),
                                  Num(if detected then 1 else 0), if success then Some(now) else None)))
    else
      var e := existing.value;
      if e.successCount.Null? || e.failureCount.Null? || e.detectionCount.Null? then (false, NoWrite)
      else
        (true, UpdatedRow(ProxyRow(Bump(e.successCount, success), Bump(e.failureCount, !success),
                                   Bump(e.detectionCount, detected), if success then Some(now) else e.lastSuccess)))
  }

  // ---- platform metrics ------------------------------------------------------

  datatype MetricRow = MetricRow(totalAttempts: Field, successfulAttempts: Field, failedAttempts: Field)

  datatype PlatformMetrics =
    | NotAvailable
    | NoMetrics(platform: string)
    | Metrics(platform: string, total: int, successful: int, failed: int, successRate: real, days: int)

  function TotalColumn(rows: seq<MetricRow>): (c: seq<Field>)
    ensures |c| == |rows| && forall k :: 0 <= k < |rows| ==> c[k] == rows[k].totalAttempts
  {
    seq(|rows|, k requires 0 <= k < |rows| => rows[k].totalAttempts)
  }

  function SuccessColumn(rows: seq<MetricRow>): (c: seq<Field>)
    ensures |c| == |rows| && forall k :: 0 <= k < |rows| ==> c[k] == rows[k].successfulAttempts
  {
    seq(|rows|, k requires 0 <= k < |rows| => rows[k].successfulAttempts)
  }

  function FailedColumn(rows: seq<MetricRow>): (c: seq<Field>)
    ensures |c| == |rows| && forall k :: 0 <= k < |rows| ==> c[k] == rows[k].failedAttempts
  {
    seq(|rows|, k requires 0 <= k < |rows| => rows[k].failedAttempts)
  }

  /** successful / total × 100, or 0 when total is not positive. */
  function Percent(part: int, whole: int): (p: real)
    ensures whole > 0 ==> p * whole as real == part as real * 100.0
    ensures whole <= 0 ==> p == 0.0
  {
    if whole > 0 then part as real / whole as real * 100.0 else 0.0
  }

  lemma PercentBounds(part: int, whole: int)
    requires 0 <= part <= whole
    ensures 0.0 <= Percent(part, whole) <= 100.0
  {
    if whole > 0 {
      assert part as real / whole as real <= 1.0;
    }
  }

  /** A share of a positive whole is 100 iff it is all of it, and 0 iff it is none of it. */
  lemma PercentExtremes(part: int, whole: int)
    requires 0 <= part <= whole && whole > 0
    ensures Percent(part, whole) == 100.0 <==> part == whole
    ensures Percent(part, whole) == 0.0 <==> part == 0
  {
    var p := Percent(part, whole);
    assert p * whole as real == part as real * 100.0;
    if p == 100.0 {
      assert 100.0 * whole as real == part as real * 100.0;
    }
    if p == 0.0 {
      assert 0.0 == part as real * 100.0;
    }
  }

  /**
   * `get_platform_metrics`: {} without a connection, zeros with rate 0 when
   * there are no rows, otherwise the column sums and their success rate. A
   * null count makes the sum raise, which gives {}.
   */
  function GetPlatformMetrics(connected: bool, platform: string, days: int, rows: seq<MetricRow>)
    : (r: PlatformMetrics)
    ensures !connected ==> r == NotAvailable
    ensures connected && |rows| == 0 ==> r == NoMetrics(platform)
    ensures r.Metrics? ==>
              && Some(r.total) == SumOr0(TotalColumn(rows))
              && Some(r.successful) == SumOr0(SuccessColumn(rows))
              && Some(r.failed) == SumOr0(FailedColumn(rows))
              && r.successRate == Percent(r.successful, r.total)
              && r.platform == platform && r.days == days
    ensures connected && |rows| > 0 ==>
              (r.Metrics? <==> forall k :: 0 <= k < |rows| ==>
                 !rows[k].totalAttempts.Null? && !rows[k].successfulAttempts.Null? && !rows[k].failedAttempts.Null?)
  {
    if !connected then NotAvailable
    else if |rows| == 0 then NoMetrics(platform)
    else
      var total := SumOr0(TotalColumn(rows));
      var successful := SumOr0(SuccessColumn(rows));
      var failed := SumOr0(FailedColumn(rows));
      if total.None? || successful.None? || failed.None? then NotAvailable
      else Metrics(platform, total.value, successful.value, failed.value, Percent(successful.value, total.value), days)
  }

  /** When every row has 0 <= successful <= total, the reported rate lies in [0, 100]. */
  lemma PlatformRateBounded(platform: string, days: int, rows: seq<MetricRow>)
    requires forall k :: 0 <= k < |rows| ==>
               rows[k].totalAttempts.Num? && rows[k].successfulAttempts.Num? && !rows[k].failedAttempts.Null?
               && 0 <= rows[k].successfulAttempts.n <= rows[k].totalAttempts.n
    ensures var r := GetPlatformMetrics(true, platform, days, rows);
            r.Metrics? ==> 0.0 <= r.successRate <= 100.0
  {
    var ts := TotalColumn(rows);
    var ss := SuccessColumn(rows);
    SumOr0NoNull(ts);
    SumOr0NoNull(ss);
    var zeros := seq(|rows|, k requires 0 <= k < |rows| => 0);
    var tv := seq(|ts|, k requires 0 <= k < |ts| => OrZero(ts[k]));
    var sv := seq(|ss|, k requires 0 <= k < |ss| => OrZero(ss[k]));
    SumMonotone(sv, tv);
    SumMonotone(zeros, sv);
    SumZeros(|rows|);
    PercentBounds(Sum(sv), Sum(tv));
  }

  lemma {:induction false} SumZeros(n: nat)
    ensures Sum(seq(n, k requires 0 <= k < n => 0)) == 0
  {
    if n > 0 {
      SumZeros(n - 1);
      assert seq(n, k requires 0 <= k < n => 0)[..n - 1] == seq(n - 1, k requires 0 <= k < n - 1 => 0);
    }
  }

  // ---- CAPTCHA success rate --------------------------------------------------

  /** `get_captcha_success_rate`: 100 × the share of truthy `success` flags; 0 with no rows or no connection. */
  function GetCaptchaSuccessRate(connected: bool, successFlags: seq<Field>): (rate: real)
    ensures 0.0 <= rate <= 100.0
    ensures !connected || |successFlags| == 0 ==> rate == 0.0
    ensures connected && |successFlags| > 0 ==>
              (rate == 100.0 <==> forall k :: 0 <= k < |successFlags| ==> IsTruthy(successFlags[k]))
              && (rate == 0.0 <==> forall k :: 0 <= k < |successFlags| ==> !IsTruthy(successFlags[k]))
              && rate * |successFlags| as real == CountTruthy(successFlags) as real * 100.0
  {
    if !connected || |successFlags| == 0 then 0.0
    else
      var c := CountTruthy(successFlags);
      PercentBounds(c, |successFlags|);
      PercentExtremes(c, |successFlags|);
      Percent(c, |successFlags|)
  }

  // ---- bot run statistics ------------------------------------------------------

  datatype RunRow = RunRow(success: Field, durationMs: Field, captchaRequired: Field, detectionTriggered: Field)

  datatype RunStats =
    | NoStats
    | NoRuns(platform: string, botType: string)
    | Stats(platform: string, botType: string, totalRuns: nat, successCount: nat, successRate: real,
            averageDurationMs: real, captchaRequiredCount: nat, detectionTriggeredCount: nat)

  /** `r.get("duration_ms", 0)` for every row, with null read as 0 as well. */
  function DurationColumn(rows: seq<RunRow>): (c: seq<int>)
    ensures |c| == |rows| && forall k :: 0 <= k < |rows| ==> c[k] == OrZero(rows[k].durationMs)
  {
    seq(|rows|, k requires 0 <= k < |rows| => OrZero(rows[k].durationMs))
  }

  /** The truthy `duration_ms` values, in row order. */
  function Durations(rows: seq<RunRow>): (ds: seq<int>)
    ensures |ds| <= |rows|
    ensures forall k :: 0 <= k < |ds| ==> ds[k] != 0
    ensures |ds| == CountTruthy(seq(|rows|, k requires 0 <= k < |rows| => rows[k].durationMs))
    decreases |rows|
  {
    if |rows| == 0 then []
    else
      var n := |rows| - 1;
      assert seq(n, k requires 0 <= k < n => rows[..n][k].durationMs)
             == seq(|rows|, k requires 0 <= k < |rows| => rows[k].durationMs)[..n];
      Durations(rows[..n]) + (if IsTruthy(rows[n].durationMs) then [rows[n].durationMs.n] else [])
  }

  /**
   * Falsy durations read as 0, so the kept values add up to the whole
   * `duration_ms` column: together with the count, this fixes the mean.
   */
  lemma {:induction false} DurationsSum(rows: seq<RunRow>)
    ensures Sum(Durations(rows)) == Sum(DurationColumn(rows))
    decreases |rows|
  {
    if |rows| > 0 {
      DurationsSum(rows[..|rows| - 1]);
      DurationsLast(rows);
      DurationColumnLast(rows);
    }
  }

  /** The last row adds its duration to the kept values' sum, or 0 when it is falsy. */
  lemma DurationsLast(rows: seq<RunRow>)
    requires |rows| > 0
    ensures Sum(Durations(rows)) == Sum(Durations(rows[..|rows| - 1])) + OrZero(rows[|rows| - 1].durationMs)
  {
    var n := |rows| - 1;
    var prev := Durations(rows[..n]);
    if IsTruthy(rows[n].durationMs) {
      var ds := prev + [rows[n].durationMs.n];
      assert Durations(rows) == ds;
      assert ds[..|prev|] == prev;
    } else {
      assert Durations(rows) == prev + [] == prev;
    }
  }

  /** The last row adds its `OrZero` duration to the column's sum. */
  lemma DurationColumnLast(rows: seq<RunRow>)
    requires |rows| > 0
    ensures Sum(DurationColumn(rows)) == Sum(DurationColumn(rows[..|rows| - 1])) + OrZero(rows[|rows| - 1].durationMs)
  {
    var n := |rows| - 1;
    assert DurationColumn(rows)[..n] == DurationColumn(rows[..n]);
  }

  function SuccessFlags(rows: seq<RunRow>): (c: seq<Field>)
    ensures |c| == |rows| && forall k :: 0 <= k < |rows| ==> c[k] == rows[k].success
  {
    seq(|rows|, k requires 0 <= k < |rows| => rows[k].success)
  }

  function CaptchaFlags(rows: seq<RunRow>): (c: seq<Field>)
    ensures |c| == |rows| && forall k :: 0 <= k < |rows| ==> c[k] == rows[k].captchaRequired
  {
    seq(|rows|, k requires 0 <= k < |rows| => rows[k].captchaRequired)
  }

  function DetectionFlags(rows: seq<RunRow>): (c: seq<Field>)
    ensures |c| == |rows| && forall k :: 0 <= k < |rows| ==> c[k] == rows[k].detectionTriggered
  {
    seq(|rows|, k requires 0 <= k < |rows| => rows[k].detectionTriggered)
  }

  /** The arithmetic mean, or 0 for no values. */
  function Mean(ds: seq<int>): (m: real)
    ensures |ds| == 0 ==> m == 0.0
    ensures |ds| > 0 ==> m * |ds| as real == Sum(ds) as real
  {
    if |ds| > 0 then Sum(ds) as real / |ds| as real else 0.0
  }

  /**
   * `get_bot_run_stats`: counts of truthy flags over the runs, the success
   * rate, and the mean over the truthy durations only (0 if there are none).
   */
  function GetBotRunStats(connected: bool, platform: string, botType: string, rows: seq<RunRow>): (r: RunStats)
    ensures !connected ==> r == NoStats
    ensures connected && |rows| == 0 ==> r == NoRuns(platform, botType)
    ensures connected && |rows| > 0 ==> r.Stats? && r.totalRuns == |rows|
    ensures r.Stats? ==>
              && r.successCount == CountTruthy(SuccessFlags(rows))
              && r.captchaRequiredCount == CountTruthy(CaptchaFlags(rows))
              && r.detectionTriggeredCount == CountTruthy(DetectionFlags(rows))
              && r.successCount <= r.totalRuns && r.captchaRequiredCount <= r.totalRuns
              && r.detectionTriggeredCount <= r.totalRuns
              && 0.0 <= r.successRate <= 100.0
              && r.successRate == Percent(r.successCount, r.totalRuns)
              && r.averageDurationMs == Mean(Durations(rows))
  {
    if !connected then NoStats
    else if |rows| == 0 then NoRuns(platform, botType)
    else
      var successful := CountTruthy(SuccessFlags(rows));
      PercentBounds(successful, |rows|);
      Stats(platform, botType, |rows|, successful, Percent(successful, |rows|), Mean(Durations(rows)),
            CountTruthy(CaptchaFlags(rows)), CountTruthy(DetectionFlags(rows)))
  }
}
