/**
 * The state-free parts of utils/logger.py: the `StatisticsLogger` counters
 * and the two message builders whose shape is fixed. The logging handlers,
 * colours and files are left out.
 */
module Logger {
  import opened Wrappers
  import opened Text
  import opened Seqs

  // ---- StatisticsLogger ------------------------------------------------------------

  /** The seven counters of `StatisticsLogger.stats`. */
  datatype Stats = Stats(
    totalAttempts: nat, successes: nat, failures: nat,
    captchasSolved: nat, captchasFailed: nat,
    proxiesUsed: nat, proxiesFailed: nat)

  /** Every proxy counted as failed was also counted as used. */
  predicate Valid(s: Stats) {
    s.proxiesFailed <= s.proxiesUsed
  }

  function New(): (s: Stats)
    ensures s.totalAttempts == s.successes == s.failures == 0
    ensures s.captchasSolved == s.captchasFailed == s.proxiesUsed == s.proxiesFailed == 0
    ensures Valid(s)
  {
    Stats(0, 0, 0, 0, 0, 0, 0)
  }

  function RecordAttempt(s: Stats): (r: Stats)
    ensures r == s.(totalAttempts := s.totalAttempts + 1)
    ensures Valid(s) ==> Valid(r)
  {
    s.(totalAttempts := s.totalAttempts + 1)
  }

  function RecordSuccess(s: Stats): (r: Stats)
    ensures r == s.(successes := s.successes + 1)
    ensures Valid(s) ==> Valid(r)
  {
    s.(successes := s.successes + 1)
  }

  function RecordFailure(s: Stats): (r: Stats)
    ensures r == s.(failures := s.failures + 1)
    ensures Valid(s) ==> Valid(r)
  {
    s.(failures := s.failures + 1)
  }

  /** Exactly one of the two CAPTCHA counters goes up. */
  function RecordCaptcha(s: Stats, success: bool): (r: Stats)
    ensures r.captchasSolved + r.captchasFailed == s.captchasSolved + s.captchasFailed + 1
    ensures success ==> r.captchasSolved == s.captchasSolved + 1
    ensures !success ==> r.captchasFailed == s.captchasFailed + 1
    ensures r.(captchasSolved := s.captchasSolved, captchasFailed := s.captchasFailed) == s
    ensures Valid(s) ==> Valid(r)
  {
    if success then s.(captchasSolved := s.captchasSolved + 1) else s.(captchasFailed := s.captchasFailed + 1)
  }

  /** A proxy use is always counted; a failed one is counted as failed too. */
  function RecordProxy(s: Stats, success: bool): (r: Stats)
    ensures r.proxiesUsed == s.proxiesUsed + 1
    ensures r.proxiesFailed == s.proxiesFailed + (if success then 0 else 1)
    ensures r.(proxiesUsed := s.proxiesUsed, proxiesFailed := s.proxiesFailed) == s
    ensures Valid(s) ==> Valid(r)
  {
    var used := s.(proxiesUsed := s.proxiesUsed + 1);
    if success then used else used.(proxiesFailed := s.proxiesFailed + 1)
  }

  /** `get_success_rate`: 0 without attempts, else successes per attempt in percent. */
  function SuccessRate(s: Stats): (rate: real)
    ensures rate >= 0.0
    ensures s.totalAttempts == 0 ==> rate == 0.0
    ensures s.totalAttempts > 0 ==> rate * s.totalAttempts as real == s.successes as real * 100.0
  {
    if s.totalAttempts == 0 then 0.0 else s.successes as real / s.totalAttempts as real * 100.0
  }

  /** One call on the logger. */
  datatype Record = Attempt | Success | Failure | Captcha(solved: bool) | Proxy(ok: bool)

  function Apply(s: Stats, op: Record): Stats {
    match op
    case Attempt => RecordAttempt(s)
    case Success => RecordSuccess(s)
    case Failure => RecordFailure(s)
    case Captcha(ok) => RecordCaptcha(s, ok)
    case Proxy(ok) => RecordProxy(s, ok)
  }

  /** The calls in order. */
  function ApplyAll(s: Stats, ops: seq<Record>): Stats
    decreases |ops|
  {
    if |ops| == 0 then s else Apply(ApplyAll(s, ops[..|ops| - 1]), ops[|ops| - 1])
  }

  /** Every sequence of calls keeps `proxies_failed <= proxies_used`. */
  lemma {:induction false} ApplyAllValid(s: Stats, ops: seq<Record>)
    requires Valid(s)
    ensures Valid(ApplyAll(s, ops))
    decreases |ops|
  {
    if |ops| > 0 {
      ApplyAllValid(s, ops[..|ops| - 1]);
    }
  }

  /** From a fresh logger, each counter counts exactly the calls that name it. */
  lemma {:induction false} CountersCountCalls(ops: seq<Record>)
    ensures var s := ApplyAll(New(), ops);
            && s.totalAttempts == Occ(ops, Attempt)
            && s.successes == Occ(ops, Success)
            && s.failures == Occ(ops, Failure)
            && s.captchasSolved == Occ(ops, Captcha(true))
            && s.captchasFailed == Occ(ops, Captcha(false))
            && s.proxiesUsed == Occ(ops, Proxy(true)) + Occ(ops, Proxy(false))
            && s.proxiesFailed == Occ(ops, Proxy(false))
    decreases |ops|
  {
    if |ops| > 0 {
      var init := ops[..|ops| - 1];
      CountersCountCalls(init);
      ApplyCounts(ApplyAll(New(), init), ops[|ops| - 1]);
    }
  }

  /** One call raises each counter by one exactly when the call names it. */
  lemma ApplyCounts(s: Stats, op: Record)
    ensures var r := Apply(s, op);
            && r.totalAttempts == s.totalAttempts + (if op == Attempt then 1 else 0)
            && r.successes == s.successes + (if op == Success then 1 else 0)
            && r.failures == s.failures + (if op == Failure then 1 else 0)
            && r.captchasSolved == s.captchasSolved + (if op == Captcha(true) then 1 else 0)
            && r.captchasFailed == s.captchasFailed + (if op == Captcha(false) then 1 else 0)
            && r.proxiesUsed == s.proxiesUsed + (if op == Proxy(true) then 1 else 0) + (if op == Proxy(false) then 1 else 0)
            && r.proxiesFailed == s.proxiesFailed + (if op == Proxy(false) then 1 else 0)
  {
  }

  /** The counters are independent, so the rate can exceed 100: two successes on one attempt give 200. */
  lemma SuccessRateUnbounded()
    ensures SuccessRate(ApplyAll(New(), [Attempt, Success, Success])) == 200.0
  {
    var ops := [Attempt, Success, Success];
    assert ops[..2] == [Attempt, Success];
    assert [Attempt, Success][..1] == [Attempt];
    assert [Attempt][..0] == [];
    assert ApplyAll(New(), [Attempt]) == Stats(1, 0, 0, 0, 0, 0, 0);
    assert ApplyAll(New(), [Attempt, Success]) == Stats(1, 1, 0, 0, 0, 0, 0);
    assert ApplyAll(New(), ops) == Stats(1, 2, 0, 0, 0, 0, 0);
  }

  // ---- message builders ----------------------------------------------------------------

  /** `log_bot_action`: "[platform] action", then " - details" iff details is truthy. */
  function BotActionMessage(action: string, platform: string, details: Option<string>): (m: string)
    ensures StartsWith(m, "[" + platform + "] " + action)
    ensures !Truthy(details) ==> m == "[" + platform + "] " + action
    ensures Truthy(details) ==> m[|"[" + platform + "] " + action|..] == " - " + details.value
  {
    var base := "[" + platform + "] " + action;
    if Truthy(details) then base + " - " + details.value else base
  }

  /** Length of the longest prefix of `s` free of ']'. */
  function UntilClose(s: string): (n: nat)
    ensures n <= |s|
    ensures forall i :: 0 <= i < n ==> s[i] != ']'
  {
    if |s| == 0 || s[0] == ']' then 0 else 1 + UntilClose(s[1..])
  }

  /** What a reader of the log takes as the platform: the text between a leading '[' and the first ']'. */
  function PlatformOf(m: string): string {
    if |m| > 0 && m[0] == '[' then m[1..1 + UntilClose(m[1..])] else ""
  }

  lemma {:induction false} UntilCloseStops(p: string, rest: string)
    requires ']' !in p && |rest| > 0 && rest[0] == ']'
    ensures UntilClose(p + rest) == |p|
    decreases |p|
  {
    if |p| > 0 {
      assert (p + rest)[1..] == p[1..] + rest;
      UntilCloseStops(p[1..], rest);
    }
  }

  /** A platform name without ']' is read back from the message it labels. */
  lemma BotActionPlatformReadBack(action: string, platform: string, details: Option<string>)
    requires ']' !in platform
    ensures PlatformOf(BotActionMessage(action, platform, details)) == platform
  {
    var m := BotActionMessage(action, platform, details);
    var rest := m[|platform| + 1..];
    assert m == "[" + platform + rest;
    assert m[1..] == platform + rest;
    UntilCloseStops(platform, rest);
  }

  /** The message grows exactly when details are given. */
  lemma BotActionDetailsIff(action: string, platform: string, details: Option<string>)
    ensures |BotActionMessage(action, platform, details)| > |platform| + |action| + 3 <==> Truthy(details)
  {
  }

  /** `log_exception`: "Exception occurred: Type: message", prefixed with "[context] " iff the context is truthy. */
  function ExceptionMessage(typeName: string, text: string, context: Option<string>): (m: string)
    ensures var core := "Exception occurred: " + typeName + ": " + text;
            (!Truthy(context) ==> m == core)
            && (Truthy(context) ==> StartsWith(m, "[" + context.value + "] ") && m[|context.value| + 3..] == core)
  {
    var core := "Exception occurred: " + typeName + ": " + text;
    if Truthy(context) then "[" + context.value + "] " + core else core
  }

  /** A message without a context starts with the fixed phrase; one with a context starts with '['. */
  lemma ExceptionMessageShape(typeName: string, text: string, context: Option<string>)
    ensures var m := ExceptionMessage(typeName, text, context);
            (Truthy(context) <==> (|m| > 0 && m[0] == '['))
  {
    var m := ExceptionMessage(typeName, text, context);
    if !Truthy(context) {
      assert m[0] == "Exception occurred: "[0];
    }
  }
}
