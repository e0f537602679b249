/**
 * The computed parts of `ResearchReportGenerator` (src/research_reports.py):
 * the key findings drawn from two rates, the platform ranking, and the
 * rates of the bot-type report. The statistics come from the
 * `SupabaseClient` model; the fixed prose lists and file output are left out.
 */
module ResearchReports {
  import opened Wrappers
  import opened Sorting
  import SC = SupabaseClient

  // ---- key findings -----------------------------------------------------------

  const HighRateThreshold := 50.0
  const LowRateThreshold := 20.0
  const EffectiveCaptchaThreshold := 80.0
  const ChallengingCaptchaThreshold := 50.0

  /** The four findings `_generate_findings` can report; the first carries the rate it quotes. */
  datatype Finding =
    | HighSuccessRate(rate: real)
    | LowSuccessRate
    | CaptchaEffective
    | CaptchaChallenging

  predicate IsRateFinding(f: Finding) {
    f.HighSuccessRate? || f.LowSuccessRate?
  }

  /** `metrics.get("success_rate", 0)` */
  function SuccessRateOf(m: SC.PlatformMetrics): real {
    if m.Metrics? then m.successRate else 0.0
  }

  /** At most one finding about the success rate, then at most one about the CAPTCHA rate. */
  function Findings(successRate: real, captchaRate: real): (fs: seq<Finding>)
    ensures HighSuccessRate(successRate) in fs <==> successRate > HighRateThreshold
    ensures LowSuccessRate in fs <==> successRate < LowRateThreshold
    ensures CaptchaEffective in fs <==> captchaRate > EffectiveCaptchaThreshold
    ensures CaptchaChallenging in fs <==> captchaRate < ChallengingCaptchaThreshold
    ensures |fs| <= 2
    ensures forall i, j :: 0 <= i < j < |fs| ==> IsRateFinding(fs[i]) && !IsRateFinding(fs[j])
    ensures |fs| == 0 <==> LowRateThreshold <= successRate <= HighRateThreshold
                           && ChallengingCaptchaThreshold <= captchaRate <= EffectiveCaptchaThreshold
    ensures forall f :: f in fs && f.HighSuccessRate? ==> f.rate == successRate
  {
    var rateFinding :=
      if successRate > HighRateThreshold then [HighSuccessRate(successRate)]
      else if successRate < LowRateThreshold then [LowSuccessRate]
      else [];
    var captchaFinding :=
      if captchaRate > EffectiveCaptchaThreshold then [CaptchaEffective]
      else if captchaRate < ChallengingCaptchaThreshold then [CaptchaChallenging]
      else [];
    rateFinding + captchaFinding
  }

  /** `_generate_findings(platform, days)` over the answers of the two queries it makes. */
  function GenerateFindings(metrics: SC.PlatformMetrics, captchaRate: real): (fs: seq<Finding>)
    ensures !metrics.Metrics? ==> forall f :: f in fs ==> !f.HighSuccessRate?
    ensures !metrics.Metrics? ==> (LowSuccessRate in fs)
    ensures metrics.Metrics? ==>
              && (HighSuccessRate(metrics.successRate) in fs <==> metrics.successRate > HighRateThreshold)
              && (LowSuccessRate in fs <==> metrics.successRate < LowRateThreshold)
              && (forall f :: f in fs && f.HighSuccessRate? ==> f.rate == metrics.successRate)
    ensures CaptchaEffective in fs <==> captchaRate > EffectiveCaptchaThreshold
    ensures CaptchaChallenging in fs <==> captchaRate < ChallengingCaptchaThreshold
    ensures metrics.Metrics? ==> fs == Findings(metrics.successRate, captchaRate)
  {
    Findings(SuccessRateOf(metrics), captchaRate)
  }

  /** The high and low findings exclude each other, as do the two CAPTCHA findings. */
  lemma FindingsExclusive(successRate: real, captchaRate: real)
    ensures var fs := Findings(successRate, captchaRate);
            !(HighSuccessRate(successRate) in fs && LowSuccessRate in fs)
            && !(CaptchaEffective in fs && CaptchaChallenging in fs)
  {
  }

  // ---- platform ranking ------------------------------------------------------------

  /** One `platform_data` item: the platform and its `success_rate`, if the entry has one. */
  datatype PlatformEntry = PlatformEntry(platform: string, successRate: Option<real>)

  /** `x[1].get("success_rate", 0)` */
  function RankKey(e: PlatformEntry): real {
    if e.successRate.Some? then e.successRate.value else 0.0
  }

  /**
   * `_rank_platforms`: the items sorted by success rate, highest first;
   * Python's sort is stable, so entries with equal rates keep their order.
   */
  function RankPlatforms(items: seq<PlatformEntry>): (r: seq<PlatformEntry>)
    ensures |r| == |items|
    ensures multiset(r) == multiset(items)
    ensures SortedDesc(r, RankKey)
    ensures forall k :: WithKey(r, RankKey, k) == WithKey(items, RankKey, k)
  {
    SortDescCorrect(items, RankKey);
    SortDesc(items, RankKey)
  }

  // ---- bot type report ---------------------------------------------------------------

  datatype BotTypeSummary = BotTypeSummary(
    successRate: real, averageDurationSeconds: real, captchaEncounterRate: real, detectionRate: real)

  /** `max(stats.get("total_runs", 1), 1)`: never zero. */
  function RunsDivisor(s: SC.RunStats): (d: nat)
    ensures d >= 1
    ensures s.Stats? && s.totalRuns > 0 ==> d == s.totalRuns
  {
    if s.Stats? && s.totalRuns > 0 then s.totalRuns else 1
  }

  /** The rates of `generate_bot_type_report`, read from a `get_bot_run_stats` answer with its defaults. */
  function BotTypeReport(s: SC.RunStats): (r: BotTypeSummary)
    ensures r.averageDurationSeconds * 1000.0 == (if s.Stats? then s.averageDurationMs else 0.0)
    ensures r.captchaEncounterRate * RunsDivisor(s) as real == (if s.Stats? then s.captchaRequiredCount else 0) as real * 100.0
    ensures r.detectionRate * RunsDivisor(s) as real == (if s.Stats? then s.detectionTriggeredCount else 0) as real * 100.0
    ensures r.successRate == (if s.Stats? then s.successRate else 0.0)
    ensures !s.Stats? ==> r.captchaEncounterRate == 0.0 && r.detectionRate == 0.0
  {
    var d := RunsDivisor(s) as real;
    if s.Stats? then
      BotTypeSummary(s.successRate, s.averageDurationMs / 1000.0,
                     s.captchaRequiredCount as real / d * 100.0, s.detectionTriggeredCount as real / d * 100.0)
    else BotTypeSummary(0.0, 0.0, 0.0, 0.0)
  }

  /** On statistics built from rows, both encounter rates stay within [0, 100]. */
  lemma BotTypeRatesBounded(connected: bool, platform: string, botType: string, rows: seq<SC.RunRow>)
    ensures var r := BotTypeReport(SC.GetBotRunStats(connected, platform, botType, rows));
            0.0 <= r.captchaEncounterRate <= 100.0 && 0.0 <= r.detectionRate <= 100.0
  {
    var s := SC.GetBotRunStats(connected, platform, botType, rows);
    if s.Stats? {
      SC.PercentBounds(s.captchaRequiredCount, s.totalRuns);
      SC.PercentBounds(s.detectionTriggeredCount, s.totalRuns);
    }
  }
}
