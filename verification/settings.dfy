/**
 * `validate_config` of config/settings.py. The two API keys come from the
 * environment with placeholder defaults; whether the proxy list file exists
 * is an oracle input.
 */
module Settings {
  import opened Wrappers
  import CS = CaptchaSolver

  const DiscordPlaceholder := "YOUR_DISCORD_WEBHOOK_URL"
  const DefaultProxyFile := "config/proxies.txt"

  /** `os.getenv(name, default)` */
  function EnvOr(value: Option<string>, default: string): (v: string)
    ensures value.Some? ==> v == value.value
    ensures value.None? ==> v == default
  {
    value.GetOr(default)
  }

  /** The settings `validate_config` reads. */
  datatype Config = Config(
    autoSolve: bool, twoCaptchaKey: string,
    discordEnabled: bool, discordWebhook: string,
    proxyEnabled: bool, proxyListFile: string)

  /** The module-level defaults, with the two keys read from the environment. */
  function DefaultConfig(captchaEnv: Option<string>, webhookEnv: Option<string>): (c: Config)
    ensures c.autoSolve && c.discordEnabled && c.proxyEnabled && c.proxyListFile == DefaultProxyFile
    ensures captchaEnv.None? ==> c.twoCaptchaKey == CS.TwoCaptchaPlaceholder
    ensures webhookEnv.None? ==> c.discordWebhook == DiscordPlaceholder
  {
    Config(true, EnvOr(captchaEnv, CS.TwoCaptchaPlaceholder), true, EnvOr(webhookEnv, DiscordPlaceholder),
           true, DefaultProxyFile)
  }

  datatype Warning = CaptchaKeyMissing | DiscordWebhookMissing | ProxyFileMissing(path: string)

  const Mark := "\U{26A0}\U{FE0F}  "

  /** The text `validate_config` appends for each warning. */
  function Message(w: Warning): (m: string)
    ensures |m| > |Mark| && m[..|Mark|] == Mark
    ensures w.ProxyFileMissing? ==> |m| >= |w.path| && m[|m| - |w.path|..] == w.path
  {
    match w
    case CaptchaKeyMissing => Mark + "CAPTCHA auto-solve enabled but no API key configured"
    case DiscordWebhookMissing => Mark + "Discord notifications enabled but no webhook configured"
    case ProxyFileMissing(path) => Mark + "Proxy file not found: " + path
  }

  predicate CaptchaWarns(c: Config) {
    c.autoSolve && c.twoCaptchaKey == CS.TwoCaptchaPlaceholder
  }

  predicate DiscordWarns(c: Config) {
    c.discordEnabled && c.discordWebhook == DiscordPlaceholder
  }

  predicate ProxyWarns(c: Config, fileExists: string -> bool) {
    c.proxyEnabled && !fileExists(c.proxyListFile)
  }

  /** The position of each kind of warning in the checking order. */
  function Rank(w: Warning): nat {
    match w
    case CaptchaKeyMissing => 0
    case DiscordWebhookMissing => 1
    case ProxyFileMissing(_) => 2
  }

  /** `validate_config()`: the warnings that apply, in checking order. */
  function ValidateConfig(c: Config, fileExists: string -> bool): (ws: seq<Warning>)
    ensures CaptchaKeyMissing in ws <==> CaptchaWarns(c)
    ensures DiscordWebhookMissing in ws <==> DiscordWarns(c)
    ensures ProxyFileMissing(c.proxyListFile) in ws <==> ProxyWarns(c, fileExists)
    ensures forall k :: 0 <= k < |ws| && ws[k].ProxyFileMissing? ==> ws[k].path == c.proxyListFile
    ensures forall i, j :: 0 <= i < j < |ws| ==> Rank(ws[i]) < Rank(ws[j])
    ensures |ws| == 0 <==> !CaptchaWarns(c) && !DiscordWarns(c) && !ProxyWarns(c, fileExists)
  {
    (if CaptchaWarns(c) then [CaptchaKeyMissing] else [])
    + (if DiscordWarns(c) then [DiscordWebhookMissing] else [])
    + (if ProxyWarns(c, fileExists) then [ProxyFileMissing(c.proxyListFile)] else [])
  }

  /** Out of the box, with no keys in the environment, both key warnings are raised. */
  lemma DefaultsWarnAboutKeys(fileExists: string -> bool)
    ensures var ws := ValidateConfig(DefaultConfig(None, None), fileExists);
            |ws| >= 2 && ws[0] == CaptchaKeyMissing && ws[1] == DiscordWebhookMissing
  {
  }

  /** With real keys and an existing proxy file the configuration is clean. */
  lemma ConfiguredIsClean(captchaKey: string, webhook: string, fileExists: string -> bool)
    requires captchaKey != CS.TwoCaptchaPlaceholder && webhook != DiscordPlaceholder
    requires fileExists(DefaultProxyFile)
    ensures ValidateConfig(DefaultConfig(Some(captchaKey), Some(webhook)), fileExists) == []
  {
  }
}
