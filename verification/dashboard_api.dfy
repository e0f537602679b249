/**
 * The aggregations of `DashboardAPI` (src/dashboard_api.py). Every table
 * read is an input: the rows a query returns, per platform where the source
 * queries per platform. A method whose client is missing raises on its
 * first query and answers {}, so `connected` is an input as well. Rates are
 * kept as exact rationals; their `:.2f%` rendering is left out.
 */
module DashboardApi {
  import opened Wrappers
  import opened Rows
  import opened Seqs
  import opened Sorting
  import SC = SupabaseClient

  /** The platforms the dashboard reports on, in report order. */
  const Platforms: seq<string> := ["Nike", "Adidas", "Shopify", "Supreme", "Footsites"]

  // ---- overview ----------------------------------------------------------------

  /** `metrics.get("total_attempts", 0)` and friends on a `get_platform_metrics` answer. */
  function Attempts(m: SC.PlatformMetrics): int {
    if m.Metrics? then m.total else 0
  }

  function SuccessfulOf(m: SC.PlatformMetrics): int {
    if m.Metrics? then m.successful else 0
  }

  function RateOf(m: SC.PlatformMetrics): real {
    if m.Metrics? then m.successRate else 0.0
  }

  datatype PlatformLine = PlatformLine(
    platform: string, totalAttempts: int, successful: int, successRate: real, captchaSolveRate: real)

  datatype Overview = Overview(
    platforms: seq<PlatformLine>, totalRunsToday: int, successRateToday: real, totalAccounts: int)

  /** One platform's line, from one day of metrics rows and CAPTCHA rows. */
  function LineOf(connected: bool, p: string, metricRows: seq<SC.MetricRow>, captchaFlags: seq<Field>): (l: PlatformLine)
    ensures l.platform == p
    ensures l.totalAttempts == Attempts(SC.GetPlatformMetrics(connected, p, 1, metricRows))
    ensures !connected ==> l.totalAttempts == 0
    ensures 0.0 <= l.captchaSolveRate <= 100.0
  {
    var m := SC.GetPlatformMetrics(connected, p, 1, metricRows);
    PlatformLine(p, Attempts(m), SuccessfulOf(m), RateOf(m), SC.GetCaptchaSuccessRate(connected, captchaFlags))
  }

  function AttemptColumn(lines: seq<PlatformLine>): (c: seq<int>)
    ensures |c| == |lines| && forall k :: 0 <= k < |lines| ==> c[k] == lines[k].totalAttempts
  {
    seq(|lines|, k requires 0 <= k < |lines| => lines[k].totalAttempts)
  }

  /**
   * `get_overview`: one line per fixed platform, in order, and a running
   * total of their attempts; `success_rate_today` and `total_accounts` are
   * initialised to 0 and never updated.
   */
  method GetOverview(connected: bool, metricRowsOf: string -> seq<SC.MetricRow>, captchaFlagsOf: string -> seq<Field>)
    returns (o: Overview)
    ensures |o.platforms| == |Platforms|
    ensures forall k :: 0 <= k < |Platforms| ==>
              o.platforms[k] == LineOf(connected, Platforms[k], metricRowsOf(Platforms[k]), captchaFlagsOf(Platforms[k]))
    ensures o.totalRunsToday == Sum(AttemptColumn(o.platforms))
    ensures o.successRateToday == 0.0 && o.totalAccounts == 0
    ensures !connected ==> o.totalRunsToday == 0
  {
    var lines, total := LinesOf(connected, Platforms, metricRowsOf, captchaFlagsOf);
    o := Overview(lines, total, 0.0, 0);
  }

  /** The lines of a platform list, one per platform in list order. */
  function LinesFor(connected: bool, ps: seq<string>, metricRowsOf: string -> seq<SC.MetricRow>, captchaFlagsOf: string -> seq<Field>)
    : (ls: seq<PlatformLine>)
    ensures |ls| == |ps|
    ensures forall k :: 0 <= k < |ps| ==> ls[k] == LineOf(connected, ps[k], metricRowsOf(ps[k]), captchaFlagsOf(ps[k]))
  {
    seq(|ps|, k requires 0 <= k < |ps| => LineOf(connected, ps[k], metricRowsOf(ps[k]), captchaFlagsOf(ps[k])))
  }

  /** The loop of `get_overview` over a platform list: one line each, and the running total. */
  method LinesOf(connected: bool, ps: seq<string>, metricRowsOf: string -> seq<SC.MetricRow>, captchaFlagsOf: string -> seq<Field>)
    returns (lines: seq<PlatformLine>, total: int)
    ensures lines == LinesFor(connected, ps, metricRowsOf, captchaFlagsOf)
    ensures total == Sum(AttemptColumn(lines))
    ensures !connected ==> total == 0
  {
    lines := [];
    total := 0;
    var i := 0;
    while i < |ps|
      invariant 0 <= i <= |ps|
      invariant lines == LinesFor(connected, ps[..i], metricRowsOf, captchaFlagsOf)
      invariant total == Sum(AttemptColumn(lines))
      invariant !connected ==> total == 0
    {
      var line := LineOf(connected, ps[i], metricRowsOf(ps[i]), captchaFlagsOf(ps[i]));
      LinesForSnoc(connected, ps[..i], ps[i], metricRowsOf, captchaFlagsOf);
      TakeSnoc(ps, i);
      AttemptColumnSnoc(lines, line);
      total := total + line.totalAttempts;
      lines := lines + [line];
      i := i + 1;
    }
    assert ps[..i] == ps;
  }

  lemma LinesForSnoc(connected: bool, ps: seq<string>, p: string, metricRowsOf: string -> seq<SC.MetricRow>, captchaFlagsOf: string -> seq<Field>)
    ensures LinesFor(connected, ps + [p], metricRowsOf, captchaFlagsOf)
            == LinesFor(connected, ps, metricRowsOf, captchaFlagsOf) + [LineOf(connected, p, metricRowsOf(p), captchaFlagsOf(p))]
  {
    var a := LinesFor(connected, ps + [p], metricRowsOf, captchaFlagsOf);
    var b := LinesFor(connected, ps, metricRowsOf, captchaFlagsOf) + [LineOf(connected, p, metricRowsOf(p), captchaFlagsOf(p))];
    assert forall k :: 0 <= k < |ps| ==> (ps + [p])[k] == ps[k];
    assert forall k :: 0 <= k < |a| ==> a[k] == b[k];
  }

  lemma AttemptColumnSnoc(lines: seq<PlatformLine>, line: PlatformLine)
    ensures Sum(AttemptColumn(lines + [line])) == Sum(AttemptColumn(lines)) + line.totalAttempts
  {
    var c := AttemptColumn(lines + [line]);
    assert c[..|lines|] == AttemptColumn(lines);
  }

  // ---- accounts ------------------------------------------------------------------

  datatype AccountRow = AccountRow(status: Option<string>, successCount: Field, failureCount: Field)

  predicate IsActive(a: AccountRow) {
    a.status == Some("active")
  }

  /** `[a for a in accounts if a.get("status") == "active"]` */
  function ActiveRows(rows: seq<AccountRow>): (a: seq<AccountRow>)
    ensures |a| <= |rows|
    ensures forall k :: 0 <= k < |a| ==> IsActive(a[k]) && a[k] in rows
    ensures |a| == 0 <==> forall k :: 0 <= k < |rows| ==> !IsActive(rows[k])
    decreases |rows|
  {
    if |rows| == 0 then []
    else
      var init := rows[..|rows| - 1];
      assert forall k :: 0 <= k < |init| ==> init[k] == rows[k];
      ActiveRows(init) + (if IsActive(rows[|rows| - 1]) then [rows[|rows| - 1]] else [])
  }

  function SuccessColumn(rows: seq<AccountRow>): (c: seq<Field>)
    ensures |c| == |rows| && forall k :: 0 <= k < |rows| ==> c[k] == rows[k].successCount
  {
    seq(|rows|, k requires 0 <= k < |rows| => rows[k].successCount)
  }

  function FailureColumn(rows: seq<AccountRow>): (c: seq<Field>)
    ensures |c| == |rows| && forall k :: 0 <= k < |rows| ==> c[k] == rows[k].failureCount
  {
    seq(|rows|, k requires 0 <= k < |rows| => rows[k].failureCount)
  }

  datatype Breakdown = Breakdown(
    platform: string, totalAccounts: nat, activeAccounts: nat, averageSuccess: real, averageFailures: real)

  /** Every active account has both counts non-null, so their sums do not raise. */
  predicate ActiveCountsPresent(rows: seq<AccountRow>) {
    var active := ActiveRows(rows);
    forall k :: 0 <= k < |active| ==> !active[k].successCount.Null? && !active[k].failureCount.Null?
  }

  /** `total / n` for a positive count: scaling the mean back gives the total. */
  function Mean(total: int, n: nat): (m: real)
    requires n > 0
    ensures m * n as real == total as real
  {
    total as real / n as real
  }

  /**
   * One platform of `get_account_stats`: nothing when it has no active
   * account; a null count on an active account makes the sum raise.
   */
  function BreakdownOf(p: string, rows: seq<AccountRow>): (r: Option<Option<Breakdown>>)
    ensures r.Some? && r.value.Some? ==>
              var b := r.value.value;
              b.platform == p && 0 < b.activeAccounts <= b.totalAccounts == |rows|
  {
    var active := ActiveRows(rows);
    if !ActiveCountsPresent(rows) then None
    else if |active| == 0 then Some(None)
    else
      var s := SumOr0(SuccessColumn(active));
      var f := SumOr0(FailureColumn(active));
      Some(Some(Breakdown(p, |rows|, |active|, Mean(s.value, |active|), Mean(f.value, |active|))))
  }

  /**
   * When a platform's entry is lost, kept or left out: lost iff a count of
   * an active account is null, present iff some account is active, and
   * then averaging the active accounts' counts.
   */
  lemma BreakdownOfSpec(p: string, rows: seq<AccountRow>)
    ensures var r := BreakdownOf(p, rows);
            && (r.None? <==> !ActiveCountsPresent(rows))
            && (r.Some? ==> (r.value.Some? <==> HasActive(rows)))
            && (r.Some? && r.value.Some? ==>
                  var b := r.value.value;
                  && b.activeAccounts == |ActiveRows(rows)|
                  && b.averageSuccess == Mean(SumOr0(SuccessColumn(ActiveRows(rows))).value, b.activeAccounts)
                  && b.averageFailures == Mean(SumOr0(FailureColumn(ActiveRows(rows))).value, b.activeAccounts))
  {
  }

  /** The platforms asked about: the one given, if truthy, else all five. */
  function Requested(platform: Option<string>): (ps: seq<string>)
    ensures Truthy(platform) ==> ps == [platform.value]
    ensures !Truthy(platform) ==> ps == Platforms
  {
    if Truthy(platform) then [platform.value] else Platforms
  }

  /** The breakdowns of a platform list, in list order; None when one of them raises. */
  function Breakdowns(ps: seq<string>, accountsOf: string -> seq<AccountRow>): (r: Option<seq<Breakdown>>)
    ensures r.Some? ==> forall b :: b in r.value ==> b.platform in ps && 0 < b.activeAccounts <= b.totalAccounts
    ensures r.Some? ==> |r.value| <= |ps|
    decreases |ps|
  {
    if |ps| == 0 then Some([])
    else
      var init := ps[..|ps| - 1];
      var p := ps[|ps| - 1];
      var rest := Breakdowns(init, accountsOf);
      var last := BreakdownOf(p, accountsOf(p));
      assert forall k :: 0 <= k < |init| ==> init[k] == ps[k];
      if rest.None? || last.None? then None
      else Some(rest.value + Kept(last.value))
  }

  /** The whole answer is lost iff some platform's sum raises. */
  lemma {:induction false} BreakdownsRaise(ps: seq<string>, accountsOf: string -> seq<AccountRow>)
    ensures Breakdowns(ps, accountsOf).Some? <==> forall k :: 0 <= k < |ps| ==> BreakdownOf(ps[k], accountsOf(ps[k])).Some?
    decreases |ps|
  {
    if |ps| > 0 {
      var init := ps[..|ps| - 1];
      var p := ps[|ps| - 1];
      BreakdownsRaise(init, accountsOf);
      if Breakdowns(ps, accountsOf).Some? {
        BreakdownsSnoc(ps, accountsOf);
        forall k | 0 <= k < |ps|
          ensures BreakdownOf(ps[k], accountsOf(ps[k])).Some?
        {
          if k < |init| {
            assert init[k] == ps[k] && BreakdownOf(init[k], accountsOf(init[k])).Some?;
          } else {
            assert ps[k] == p;
          }
        }
      } else if Breakdowns(init, accountsOf).None? {
        var k :| 0 <= k < |init| && BreakdownOf(init[k], accountsOf(init[k])).None?;
        assert ps[k] == init[k];
      } else {
        assert BreakdownOf(p, accountsOf(p)).None?;
      }
    }
  }

  /** A platform's breakdown as a list entry: none when it has no active account. */
  function Kept(b: Option<Breakdown>): (l: seq<Breakdown>)
    ensures |l| <= 1 && forall x :: x in l <==> b == Some(x)
  {
    if b.Some? then [b.value] else []
  }

  /** A platform's entry is listed under its own name iff it has an active account. */
  lemma KeptListed(p: string, rows: seq<AccountRow>, q: string)
    requires BreakdownOf(p, rows).Some?
    ensures Listed(Kept(BreakdownOf(p, rows).value), q) <==> q == p && HasActive(rows)
  {
    BreakdownOfSpec(p, rows);
  }

  /** Some breakdown in `bs` is about platform `p`. */
  predicate Listed(bs: seq<Breakdown>, p: string) {
    exists b :: b in bs && b.platform == p
  }

  predicate HasActive(rows: seq<AccountRow>) {
    exists j :: 0 <= j < |rows| && IsActive(rows[j])
  }

  lemma ListedAppend(xs: seq<Breakdown>, ys: seq<Breakdown>, p: string)
    ensures Listed(xs + ys, p) <==> Listed(xs, p) || Listed(ys, p)
  {
    if Listed(xs + ys, p) {
      var b :| b in xs + ys && b.platform == p;
      assert b in xs || b in ys;
    }
    if Listed(xs, p) {
      var b :| b in xs && b.platform == p;
      assert b in xs + ys;
    }
    if Listed(ys, p) {
      var b :| b in ys && b.platform == p;
      assert b in xs + ys;
    }
  }

  /** The breakdowns of a non-empty list extend those of its prefix by the last platform's entry. */
  lemma BreakdownsSnoc(ps: seq<string>, accountsOf: string -> seq<AccountRow>)
    requires |ps| > 0 && Breakdowns(ps, accountsOf).Some?
    ensures var init := ps[..|ps| - 1];
            var p := ps[|ps| - 1];
            && Breakdowns(init, accountsOf).Some? && BreakdownOf(p, accountsOf(p)).Some?
            && Breakdowns(ps, accountsOf).value == Breakdowns(init, accountsOf).value + Kept(BreakdownOf(p, accountsOf(p)).value)
  {
  }

  /** A platform is listed iff it has an active account. */
  lemma {:induction false} BreakdownsCover(ps: seq<string>, accountsOf: string -> seq<AccountRow>, k: nat)
    requires k < |ps| && Breakdowns(ps, accountsOf).Some?
    ensures Listed(Breakdowns(ps, accountsOf).value, ps[k]) <==> HasActive(accountsOf(ps[k]))
    decreases |ps|
  {
    var init := ps[..|ps| - 1];
    var p := ps[|ps| - 1];
    BreakdownsSnoc(ps, accountsOf);
    var rest := Breakdowns(init, accountsOf).value;
    var last := Kept(BreakdownOf(p, accountsOf(p)).value);
    ListedAppend(rest, last, ps[k]);
    KeptListed(p, accountsOf(p), ps[k]);
    if k < |ps| - 1 {
      assert init[k] == ps[k];
      BreakdownsCover(init, accountsOf, k);
    } else if Listed(rest, p) {
      var b :| b in rest && b.platform == p;
      var m :| 0 <= m < |init| && init[m] == p;
      BreakdownsCover(init, accountsOf, m);
    }
  }

  /** `get_account_stats(platform)`: {} without a client or when a sum raises. */
  function GetAccountStats(connected: bool, platform: Option<string>, accountsOf: string -> seq<AccountRow>)
    : (r: Option<seq<Breakdown>>)
    ensures !connected ==> r.None?
    ensures r.Some? ==> forall b :: b in r.value ==> b.platform in Requested(platform) && 0 < b.activeAccounts <= b.totalAccounts
  {
    if !connected then None else Breakdowns(Requested(platform), accountsOf)
  }

  // ---- proxies -----------------------------------------------------------------------

  /** `x.get(k, 1)`: a missing count reads as 1. */
  function OrOne(f: Field): int {
    if f.Num? then f.n else 1
  }

  /** The `top_performing` sort key, exactly as written: the numerator defaults to 0, the denominator's terms to 1. */
  function TopKey(p: SC.ProxyRow): (k: real)
    ensures OrOne(p.successCount) + OrOne(p.failureCount) >= 1 ==>
              k * (OrOne(p.successCount) + OrOne(p.failureCount)) as real == OrZero(p.successCount) as real
  {
    OrZero(p.successCount) as real / (if OrOne(p.successCount) + OrOne(p.failureCount) >= 1 then OrOne(p.successCount) + OrOne(p.failureCount) else 1) as real
  }

  predicate Working(p: SC.ProxyRow) {
    OrZero(p.successCount) > OrZero(p.failureCount)
  }

  predicate HasNull(p: SC.ProxyRow) {
    p.successCount.Null? || p.failureCount.Null? || p.detectionCount.Null?
  }

  function CountWorking(rows: seq<SC.ProxyRow>): (n: nat)
    ensures n <= |rows|
    ensures n == |rows| <==> forall k :: 0 <= k < |rows| ==> Working(rows[k])
    decreases |rows|
  {
    if |rows| == 0 then 0
    else
      var init := rows[..|rows| - 1];
      assert forall k :: 0 <= k < |init| ==> init[k] == rows[k];
      CountWorking(init) + (if Working(rows[|rows| - 1]) then 1 else 0)
  }

  /** `sum(p.get("success_count", 0) for p in proxies_data)` on a null-free table. */
  function SuccessTotal(rows: seq<SC.ProxyRow>): int {
    Sum(seq(|rows|, k requires 0 <= k < |rows| => OrZero(rows[k].successCount)))
  }

  function FailureTotal(rows: seq<SC.ProxyRow>): int {
    Sum(seq(|rows|, k requires 0 <= k < |rows| => OrZero(rows[k].failureCount)))
  }

  function DetectionTotal(rows: seq<SC.ProxyRow>): int {
    Sum(seq(|rows|, k requires 0 <= k < |rows| => OrZero(rows[k].detectionCount)))
  }

  function Take<T>(xs: seq<T>, n: nat): (r: seq<T>)
    ensures |r| == if |xs| < n then |xs| else n
    ensures r == xs[..|r|]
  {
    if |xs| < n then xs else xs[..n]
  }

  datatype ProxyStats =
    | ProxyStatsUnavailable
    | NoProxies
    | Proxies(totalProxies: nat, workingProxies: nat, successRate: real, detectionRate: real, topPerforming: seq<SC.ProxyRow>)

  predicate NullFree(rows: seq<SC.ProxyRow>) {
    forall k :: 0 <= k < |rows| ==> !HasNull(rows[k])
  }

  /** The statistics of a non-empty table: counts, pooled rates and the five best rows. */
  function ProxiesOf(rows: seq<SC.ProxyRow>): (r: ProxyStats)
    requires |rows| > 0
    ensures r.Proxies? && r.totalProxies == |rows|
    ensures r.workingProxies == CountWorking(rows)
    ensures |r.topPerforming| == (if |rows| < 5 then |rows| else 5)
    ensures r.topPerforming == Take(SortDesc(rows, TopKey), 5)
    ensures SortedDesc(r.topPerforming, TopKey) && multiset(r.topPerforming) <= multiset(rows)
    ensures r.successRate == SC.Percent(SuccessTotal(rows), SuccessTotal(rows) + FailureTotal(rows))
    ensures r.detectionRate == Mean(DetectionTotal(rows), |rows|)
  {
    var successes := SuccessTotal(rows);
    var sorted := SortDesc(rows, TopKey);
    SortDescCorrect(rows, TopKey);
    TakeSorted(sorted, TopKey, 5);
    Proxies(|rows|, CountWorking(rows), SC.Percent(successes, successes + FailureTotal(rows)),
            Mean(DetectionTotal(rows), |rows|), Take(sorted, 5))
  }

  /**
   * `get_proxy_stats`: zeros for an empty table; otherwise the working
   * count, the pooled success rate, the mean detection count per proxy, and
   * the five best rows by `TopKey`, Python's stable `sorted(..., reverse=True)`
   * cut to five. A null count makes a comparison or sum raise, giving {}.
   */
  function GetProxyStats(connected: bool, rows: seq<SC.ProxyRow>): (r: ProxyStats)
    ensures !connected ==> r == ProxyStatsUnavailable
    ensures connected && |rows| == 0 ==> r == NoProxies
    ensures connected && |rows| > 0 ==> (r.Proxies? <==> NullFree(rows))
    ensures r.Proxies? ==>
              && r.totalProxies == |rows| && r.workingProxies <= r.totalProxies
              && r.workingProxies == CountWorking(rows)
              && |r.topPerforming| == (if |rows| < 5 then |rows| else 5)
              && r.topPerforming == Take(SortDesc(rows, TopKey), 5)
              && SortedDesc(r.topPerforming, TopKey)
              && multiset(r.topPerforming) <= multiset(rows)
    ensures r.Proxies? ==>
              && r.successRate == SC.Percent(SuccessTotal(rows), SuccessTotal(rows) + FailureTotal(rows))
              && r.detectionRate == Mean(DetectionTotal(rows), |rows|)
  {
    if !connected then ProxyStatsUnavailable
    else if |rows| == 0 then NoProxies
    else if !NullFree(rows) then ProxyStatsUnavailable
    else ProxiesOf(rows)
  }

  lemma TakeSorted<T>(xs: seq<T>, key: T -> real, n: nat)
    requires SortedDesc(xs, key)
    ensures SortedDesc(Take(xs, n), key)
    ensures multiset(Take(xs, n)) <= multiset(xs)
  {
    var t := Take(xs, n);
    assert xs == t + xs[|t|..];
  }

  /** A row left out of `top_performing` has no larger key than any row kept. */
  lemma TopPerformingAreBest(rows: seq<SC.ProxyRow>, j: nat)
    requires j < |rows|
    ensures var top := Take(SortDesc(rows, TopKey), 5);
            rows[j] !in top ==> forall i :: 0 <= i < |top| ==> TopKey(top[i]) >= TopKey(rows[j])
  {
    var sorted := SortDesc(rows, TopKey);
    var top := Take(sorted, 5);
    SortDescCorrect(rows, TopKey);
    assert rows[j] in multiset(rows);
    assert rows[j] in multiset(sorted);
    var m :| 0 <= m < |sorted| && sorted[m] == rows[j];
    if m < |top| {
      assert top[m] == rows[j];
    }
  }

  // ---- detection analysis ----------------------------------------------------------------

  datatype RunRow = RunRow(platform: Option<string>, detectionTriggered: Field)

  datatype PlatformDetection = PlatformDetection(platform: string, totalRuns: nat, detected: nat, detectionRate: real)

  datatype Detection =
    | DetectionUnavailable
    | NoRuns
    | DetectionStats(totalRuns: nat, detectedRuns: nat, detectionRate: real, byPlatform: seq<PlatformDetection>)

  function Flags(runs: seq<RunRow>): (c: seq<Field>)
    ensures |c| == |runs| && forall k :: 0 <= k < |runs| ==> c[k] == runs[k].detectionTriggered
  {
    seq(|runs|, k requires 0 <= k < |runs| => runs[k].detectionTriggered)
  }

  /** The truthy platform names of the runs, in run order. */
  function Labels(runs: seq<RunRow>): (ls: seq<string>)
    ensures |ls| <= |runs|
    ensures forall k :: 0 <= k < |ls| ==> ls[k] != ""
    decreases |runs|
  {
    if |runs| == 0 then []
    else
      var last := runs[|runs| - 1];
      Labels(runs[..|runs| - 1]) + (if Truthy(last.platform) then [last.platform.value] else [])
  }

  /** `[r for r in bot_runs if r.get("platform") == platform]` */
  function OnPlatform(runs: seq<RunRow>, p: string): (rs: seq<RunRow>)
    ensures |rs| <= |runs|
    ensures forall k :: 0 <= k < |rs| ==> rs[k].platform == Some(p)
    decreases |runs|
  {
    if |runs| == 0 then []
    else
      var last := runs[|runs| - 1];
      OnPlatform(runs[..|runs| - 1], p) + (if last.platform == Some(p) then [last] else [])
  }

  /** For a non-empty name, the runs on that platform are its occurrences among the labels. */
  lemma {:induction false} OnPlatformCount(runs: seq<RunRow>, p: string)
    requires p != ""
    ensures |OnPlatform(runs, p)| == Occ(Labels(runs), p)
    decreases |runs|
  {
    if |runs| > 0 {
      var init := runs[..|runs| - 1];
      var last := runs[|runs| - 1];
      OnPlatformCount(init, p);
      if Truthy(last.platform) {
        var ls := Labels(init) + [last.platform.value];
        assert Labels(runs) == ls;
        assert ls[..|ls| - 1] == Labels(init);
      } else {
        assert Labels(init) + [] == Labels(init);
        assert last.platform != Some(p);
        assert OnPlatform(init, p) + [] == OnPlatform(init, p);
      }
    }
  }

  function DetectionOf(runs: seq<RunRow>, p: string): (d: PlatformDetection)
    ensures d.platform == p && d.detected <= d.totalRuns == |OnPlatform(runs, p)|
  {
    var mine := OnPlatform(runs, p);
    var detected := CountTruthy(Flags(mine));
    PlatformDetection(p, |mine|, detected, SC.Percent(detected, |mine|))
  }

  function ByPlatform(runs: seq<RunRow>, ps: seq<string>): (ds: seq<PlatformDetection>)
    ensures |ds| == |ps| && forall k :: 0 <= k < |ps| ==> ds[k] == DetectionOf(runs, ps[k])
  {
    seq(|ps|, k requires 0 <= k < |ps| => DetectionOf(runs, ps[k]))
  }

  function RunTotals(ds: seq<PlatformDetection>): (c: seq<int>)
    ensures |c| == |ds| && forall k :: 0 <= k < |ds| ==> c[k] == ds[k].totalRuns
  {
    seq(|ds|, k requires 0 <= k < |ds| => ds[k].totalRuns)
  }

  /**
   * `get_detection_analysis`: the share of runs that triggered detection,
   * overall and per distinct truthy platform (listed in order of first
   * occurrence).
   */
  function GetDetectionAnalysis(connected: bool, runs: seq<RunRow>): (r: Detection)
    ensures !connected ==> r == DetectionUnavailable
    ensures connected && |runs| == 0 ==> r == NoRuns
    ensures connected && |runs| > 0 ==> r.DetectionStats?
    ensures r.DetectionStats? ==>
              && r.totalRuns == |runs| && r.detectedRuns <= r.totalRuns
              && r.detectedRuns == CountTruthy(Flags(runs))
              && 0.0 <= r.detectionRate <= 100.0
              && (forall d :: d in r.byPlatform ==> d.detected <= d.totalRuns && d.platform in Labels(runs))
              && (forall k :: 0 <= k < |runs| && Truthy(runs[k].platform) ==>
                    exists d :: d in r.byPlatform && d.platform == runs[k].platform.value)
    ensures r.DetectionStats? ==>
              && r.detectionRate == SC.Percent(r.detectedRuns, r.totalRuns)
              && r.byPlatform == ByPlatform(runs, Distinct(Labels(runs)))
              && (forall i, j :: 0 <= i < j < |r.byPlatform| ==> r.byPlatform[i].platform != r.byPlatform[j].platform)
  {
    if !connected then DetectionUnavailable
    else if |runs| == 0 then NoRuns
    else
      var detected := CountTruthy(Flags(runs));
      SC.PercentBounds(detected, |runs|);
      var ps := Distinct(Labels(runs));
      forall k | 0 <= k < |runs| && Truthy(runs[k].platform)
        ensures runs[k].platform.value in ps
      {
        LabelsHas(runs, k);
      }
      DetectionStats(|runs|, detected, SC.Percent(detected, |runs|), ByPlatform(runs, ps))
  }

  lemma {:induction false} LabelsHas(runs: seq<RunRow>, k: nat)
    requires k < |runs| && Truthy(runs[k].platform)
    ensures runs[k].platform.value in Labels(runs)
    decreases |runs|
  {
    if k < |runs| - 1 {
      LabelsHas(runs[..|runs| - 1], k);
    }
  }

  /** The per-platform run counts add up to the runs that name a platform. */
  lemma PlatformTotalsCoverRuns(runs: seq<RunRow>)
    requires |runs| > 0
    ensures var r := GetDetectionAnalysis(true, runs);
            Sum(RunTotals(r.byPlatform)) == |Labels(runs)|
  {
    var ls := Labels(runs);
    var ps := Distinct(ls);
    var r := GetDetectionAnalysis(true, runs);
    assert r.byPlatform == ByPlatform(runs, ps);
    forall k | 0 <= k < |ps| ensures RunTotals(r.byPlatform)[k] == Counts(ps, ls)[k] {
      assert ps[k] in ls;
      OnPlatformCount(runs, ps[k]);
    }
    assert RunTotals(r.byPlatform) == Counts(ps, ls);
    DistinctCountsSum(ls);
  }
}
