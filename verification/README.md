# Sneaker checkout scripts: a Dafny model of the decision logic

This project models the decision code of a set of Python storefront checkout
scripts. These are the Nike, Adidas, Footsites and Shopify bots and their helpers:
proxy and account sources, a CAPTCHA client, a stock monitor, run-tracking
analytics, Supabase-backed statistics and dashboards, research-report findings,
a statistics logger, string and URL helpers, password hashing and the
configuration check. Everything outside the program is an input. That covers
page element lookups, HTTP answers, database row sets, clock readings,
random draws and the key-derivation function. Each component is then a pure
function over those inputs, or a small immutable state record.

Modelling conventions:
- Python's `\d`, `\w` and `\s` are taken over ASCII only. `IsSpace` covers the
  ASCII characters for which `str.isspace()` holds.
- A database column read with `.get(key, default)` is a `Rows.Field`: absent,
  null, or a number. Arithmetic on a null raises TypeError in Python, and the
  caller catches it. The model follows that path.
- Rates are Dafny `real`s, which are exact rationals, never floats.
- `random.choice` and `ORDER BY RANDOM()` take an oracle index, reduced modulo
  the number of candidates.
- Iterating over `set(...)` uses first-occurrence order, which is one of the
  orders Python may produce.
- A time-bounded loop runs over a finite trace of clock readings whose last
  reading is past the deadline. This is why such loops end.
- Shared modules hold the common vocabulary:
  - `Wrappers`: `Option` and Python truthiness of optional strings.
  - `Text`: ASCII character classes, `lower`, `strip`, `split()` and `join`.
  - `Splitting`: `str.split(c)`.
  - `Rows`: nullable columns and column sums.
  - `Seqs`: occurrences and distinct values.
  - `Sorting`: a stable descending sort.
  - `Pipeline`: the short-circuit step runner the checkout flows share.

## Model

| member | source | states |
|---|---|---|
| ProxyManager.LoadProxies | src/proxy_manager.py:25-35 | A readable file replaces the list with the stripped, non-blank, non-'#' lines. An unreadable or missing file leaves the list as it was. |
| ProxyManager.StrippedLinesSpec | src/proxy_manager.py:30 | The result is, in file order, the stripped text of exactly those lines that are non-blank after stripping and whose raw text does not start with '#'. |
| ProxyManager.Init | src/proxy_manager.py:20-23 | The list starts empty and is loaded once. A missing file gives the empty list, and no kept entry is empty. |
| ProxyManager.IndentedCommentKept | src/proxy_manager.py:30 | An indented comment " #x" is kept as "#x", because the '#' test looks at the unstripped line. |
| ProxyManager.GetRandomProxy | src/proxy_manager.py:37-41 | Gives None iff the list is empty, and otherwise an element of the list. |
| ProxyManager.TestProxyIff | src/proxy_manager.py:43-56 | A proxy passes iff the probe answered with status 200. An exception is a failure. |
| ProxyManager.GetWorkingProxy | src/proxy_manager.py:58-64 | Makes at most `max_attempts` draws and sends at most one probe per draw. Every earlier attempt failed. A returned proxy is the one drawn last, and it passed its probe. None means every attempt was used. |
| UltimateProxyManager.LoadProxies | SneakerBot_Ultimate/src/proxy_manager.py:3-10 | Gives the stripped non-blank lines with no comment filtering. A file with no such line gives None, and so does a missing file. Any other error propagates. |
| UltimateProxyManager.GetRandomProxy | SneakerBot_Ultimate/src/proxy_manager.py:12-17 | Re-reads the file on every call and gives None or a member of that read. It gives None iff the read has no proxy, and it raises iff the read raised. |
| UltimateProxyManager.VariantsDisagreeOnEmpty | SneakerBot_Ultimate/src/proxy_manager.py:7-8 | On a blank-only file the src manager holds [] while this variant returns None. |
| UltimateProxyManager.VariantsDisagreeOnComments | SneakerBot_Ultimate/src/proxy_manager.py:7 | On a comment line the src manager drops it while this variant returns it as a proxy. |
| AccountManager.CreateAccount | src/account_manager.py:31-59 | A taken email gives None and leaves the table unchanged. Otherwise the one new row gets the next id, status 'active' and the given or generated values. The table stays valid, with unique emails and ids below the counter. |
| AccountManager.GetAccount | src/account_manager.py:61-85 | With an id, the row is looked up by id alone. Without one, the result is None iff the platform has no active row, and otherwise an active row of that platform. |
| AccountManager.View | src/account_manager.py:76-84 | The returned dict carries id, platform, email, password, first and last name and phone, taken from the row. |
| AccountManager.GetRandomAccount | src/account_manager.py:87-89 | Is exactly `get_account(platform)` with no id. |
| AccountManager.UpdateLastUsed | src/account_manager.py:91-99 | Only `last_used` of the given row changes. No other row or field changes, and the set of ids stays the same. |
| AccountManager.DeactivateAccount | src/account_manager.py:101-111 | Only the status of the given row changes, to 'inactive'. Every other row is unchanged. |
| AccountManager.DeactivatedNeverDrawn | src/account_manager.py:61-111 | After deactivation, no draw for any platform returns that id. |
| CaptchaSolver.SolveCaptcha | src/captcha_solver.py:15-48 | Manual mode, or auto-solve off, prompts the operator and returns "manual" with no service contact. The 2captcha service (the default) runs its solver. Any other service yields no token and submits nothing. |
| CaptchaSolver.SolveWith2Captcha | src/captcha_solver.py:50-107 | A missing or placeholder key gives None before any submission; a usable key always submits. A refused submission gives None with no poll. After an accepted submission, the token and the number of polls are those of the polling loop. A token comes only from an in-time ready answer. |
| CaptchaSolver.TwoCaptchaReturnsFirstReady | src/captcha_solver.py:86-100 | With a usable key and an accepted submission, take the first in-time ready poll k, with every earlier poll in time and not ready. Then the solver makes exactly k + 1 polls and returns that poll's request. |
| CaptchaSolver.PollFrom | src/captcha_solver.py:78-103 | Polls only while in time and continues only on CAPCHA_NOT_READY. It returns the request of the first status-1 answer. Any other answer ends it with None, and so does the deadline passing. |
| CaptchaSolver.PollSolvedIff | src/captcha_solver.py:92-100 | The loop solves iff some in-time answer is ready and every in-time answer before it is not-ready. |
| CaptchaSolver.SolveWithAntiCaptcha | src/captcha_solver.py:109-118 | Never yields a token and contacts nothing. |
| UltimateCaptchaSolver.SolveCaptcha | SneakerBot_Ultimate/src/captcha_solver.py:6-32 | Manual mode returns the typed input. On submission, a status other than 1 (null included) gives None with no poll. A failed request, a missing status, or status 1 without a `request` key raises. After acceptance, at most 10 polls are made and all but the last are pending (status present, not 1). The last poll decides: status 1 returns its request (null as None), and a failure or missing key raises. The loop runs all ten polls and gives None iff every poll is pending. |
| NikeBot.Login | src/nike_bot.py:148-205 | Succeeds iff the final URL, lowercased, contains "member" or "account". `logged_in` is set only then. |
| NikeBot.LoginUrlCaseInsensitive | src/nike_bot.py:195-201 | Letter case in the URL does not change the verdict. |
| NikeBot.FullUrl | src/nike_bot.py:443 | A relative href is prefixed with the Nike origin, and a URL starting with "http" is kept unchanged. |
| NikeBot.FullUrlIdempotent | src/nike_bot.py:443 | Normalising a normalised URL changes nothing. |
| NikeBot.CompletePurchase | src/nike_bot.py:416-466 | Logs in only when not yet logged in, and a failed login ends the run at once. The bot is logged in afterwards iff it was before or the login succeeded. The result is True iff login, location, navigation, size, cart and checkout all succeed. |
| NikeBot.CompletePurchaseTrace | src/nike_bot.py:431-461 | A search happens only when no product URL was given. Navigation goes only to the located product page and never happens when nothing was located. A successful purchase ends with navigate, size, cart and checkout. |
| NikeBot.CompletePurchaseIsPipeline | src/nike_bot.py:431-461 | The purchase is the short-circuit run of its planned steps: no step runs after the first failure. |
| NikeBot.EnterSnkrsDraw | src/nike_bot.py:373-414 | False when navigation or size selection fails. True only when a draw button was clicked. |
| NikeBot.NikeLogin | src/nike_bot.py:473-493 | Returns the bot only after a successful login; otherwise the bot is cleaned up and None returned. |
| AdidasBot.Login | src/adidas_bot.py:59-98 | `logged_in` becomes whether the final URL contains "account", and the call returns that flag. An exception leaves the bot unchanged and gives False. |
| AdidasBot.LoginIsCaseSensitive | src/adidas_bot.py:92-94 | "/Account" does not count as logged in, while "/account" does. |
| AdidasBot.HandleQueue | src/adidas_bot.py:100-118 | Returns True at once outside a queue. It reloads only while queued and in time, and it is True iff it ends outside the queue. |
| AdidasBot.CompletePurchase | src/adidas_bot.py:180-207 | Runs login (only if needed), search, queue, size, cart and checkout in that order. The result is True iff all of them succeed. |
| AdidasBot.CompletePurchaseIsPipeline | src/adidas_bot.py:184-203 | The purchase is the short-circuit run of its planned steps. |
| AdidasBot.AdidasCheckout | src/adidas_bot.py:215-222 | `cleanup` always runs, and the result is that of `complete_purchase` on a fresh bot. |
| FootsitesBot.NewBot | src/footsites_bot.py:22-26 | An unknown site key falls back to the footlocker URL, while `site_name` keeps the key. |
| FootsitesBot.FootsitesCheckout | src/footsites_bot.py:81-91 | `cleanup` always runs. The result is `add_to_cart`'s, and that step runs only after search and size selection both succeed. |
| FootsitesBot.CheckoutIsPipeline | src/footsites_bot.py:86-89 | The checkout is the short-circuit run of its three steps. |
| ShopifyBot.NewBot | src/shopify_bot.py:23-31 | The store URL is kept with its trailing slashes removed, and only slashes are removed. |
| ShopifyBot.CheckoutUrl | src/shopify_bot.py:107-109 | The checkout URL is the store URL followed by "/checkout". |
| ShopifyBot.CheckoutUrlIgnoresTrailingSlashes | src/shopify_bot.py:24 | Extra trailing slashes in the given URL do not change the checkout URL. |
| ShopifyBot.GetProducts | src/shopify_bot.py:33-48 | On status 200, gives the `products` list, [] when the key is absent, and Python's None when it is null. Gives [] on any other status or an exception. |
| ShopifyBot.ScanFrom | src/shopify_bot.py:58-75 | The first product, in list order, that the loop does not get past decides. That is a product with a null title, a matching one with null variants, or a matching one with an available variant. Nothing is found iff every product is passed. |
| ShopifyBot.HitOf | src/shopify_bot.py:66-75 | The hit carries the product's title and the first available variant's price. It also carries both ids, with a null id as None. A missing title or id key raises. |
| ShopifyBot.MonitorScan | src/shopify_bot.py:50-86 | A non-200 answer finds nothing, and a null product list raises. Otherwise the first product the loop does not get past decides the scan, and nothing is found iff there is none. A hit always comes from an eligible product. |
| ShopifyBot.NullTitleHidesLaterProducts | src/shopify_bot.py:60-61 | A product with a null title makes the scan raise before it reaches a later eligible product. |
| ShopifyBot.QuickCheckout | src/shopify_bot.py:111-118 | Returns the checkout URL iff the cart answered 200, and None otherwise. |
| UltimateShopifyBot.ProductsUrl | SneakerBot_Ultimate/src/shopify_bot.py:6 | The request URL is the fixed prefix, the shop and the fixed suffix. |
| UltimateShopifyBot.ProductsUrlRoundTrip | SneakerBot_Ultimate/src/shopify_bot.py:15 | The shop can be read back from the request URL. |
| UltimateShopifyBot.ScanFrom | SneakerBot_Ultimate/src/shopify_bot.py:17-21 | With no keywords nothing matches and no title is read. Otherwise the first product that is not passed decides. A missing or non-string title, or a missing `id`, raises. A title containing a keyword (both lowercased) returns the id, and a null id returns None. No match iff every product is passed. Availability is not checked. |
| UltimateShopifyBot.ScanAnswer | SneakerBot_Ultimate/src/shopify_bot.py:14-25 | A non-200 answer matches nothing. A 200 answer without products raises, and the loop catches it. |
| UltimateShopifyBot.VariantsDisagreeOnAvailability | SneakerBot_Ultimate/src/shopify_bot.py:18-21 | A matching product with no variants is a hit here but not in the src scan. |
| UltimateShopifyBot.MonitorShopifyStock | SneakerBot_Ultimate/src/shopify_bot.py:9-25 | Makes one request per answer. It returns only on a match, which comes from the last request made and gives that product's id (None for a null id). No earlier answer matched. With no keywords it never returns. |
| StockMonitor.AddMonitor | src/stock_monitor.py:24-33 | Appends exactly one entry: out of stock, never checked, with keywords defaulting to []. |
| StockMonitor.CheckStockIgnoresCase | src/stock_monitor.py:38-53 | The stock test does not depend on the letter case of the page. |
| StockMonitor.Pass | src/stock_monitor.py:59-84 | After a pass, each item's `in_stock` is its latest check result and `last_check` the clock reading taken for that item. An alert fires exactly for the items that went from out of stock to in stock. Notifications go out iff enabled. |
| StockMonitor.FiredAppend | src/stock_monitor.py:65-70 | The alerts of a watch list split in two are the first part's alerts followed by the second part's. With the one-item case of `Fired`, alerts come one per rising item, in watch-list order. |
| StockMonitor.NoRepeatedAlert | src/stock_monitor.py:69-77 | Alerts are edge-triggered: a second pass over the same pages fires none. |
| Analytics.StartSession | src/analytics.py:55-68 | The session id is whatever the database returned. |
| Analytics.StartRun | src/analytics.py:70-100 | With no session it returns None and changes nothing. Otherwise it sets the run id to its return value, records the start time and empties the events. |
| Analytics.RecordEvent | src/analytics.py:102-119 | Appends exactly one event, with details defaulting to {}. Nothing else changes. |
| Analytics.EndRun | src/analytics.py:121-159 | Returns False with no run id or no start time. It does not clear the run id. |
| Analytics.EndRunRepeats | src/analytics.py:133-156 | A second `end_run` on the same state proceeds again. |
| Analytics.RecordCaptchaAttempt | src/analytics.py:161-190 | Returns False with no active run. The platform defaults to "unknown". |
| Analytics.RecordProxyPerformance | src/analytics.py:192-214 | Needs no run, forwards one call and returns True. |
| Analytics.RecordPurchaseAttempt | src/analytics.py:216-248 | Returns False with no active run. |
| Analytics.RecordNotificationSent | src/analytics.py:250-275 | Returns False with no active run. |
| Analytics.DistinctTypes | src/analytics.py:303-310 | Holds each event type exactly once, with no duplicates and no other value. |
| Analytics.PerformanceReport | src/analytics.py:300-313 | With no events the report is exactly {total_events: 0, events: []}. Otherwise it counts and lists the events. Its type list holds every event type that occurs, each once, and no other. |
| Analytics.ReportCountsEventsSinceStart | src/analytics.py:300-313 | After `start_run`, the report counts exactly the events recorded since. |
| BotIntegration.TrackBotSession | src/bot_integration.py:33-52 | The account id is set on entry. On exit, usage is recorded and both ids are cleared only if a session id was obtained. Exceptions propagate. |
| BotIntegration.SessionCleanupIffObtained | src/bot_integration.py:46-51 | Usage is recorded iff the session was obtained. Otherwise the account id stays set. |
| BotIntegration.TrackBotRun | src/bot_integration.py:54-67 | The body runs with the run id that `start_run` returned. The exit state is the body's state with the run id cleared, and the body's exception propagates. |
| BotIntegration.RunScopeAlwaysResets | src/bot_integration.py:66-67 | Whatever the body does, the run id is None after the scope. |
| BotIntegration.LogBotEvent | src/bot_integration.py:69-72 | Forwards to analytics only while a run id is set. |
| BotIntegration.EndBotRun | src/bot_integration.py:74-102 | With no run it returns False and makes no calls. Account statistics are updated, with the same success flag, iff an account id is set. |
| SupabaseClient.UpdateAccountStats | src/supabase_client.py:126-146 | Adds 1 to exactly one of the success and failure counts, with a missing count read as 0. An absent account, or no connection, gives False and writes nothing. |
| SupabaseClient.RewriteKwargs | src/supabase_client.py:237-242 | `completed_at=True` becomes the timestamp, and every other key passes through unchanged. |
| SupabaseClient.RewriteIdempotent | src/supabase_client.py:463-468 | Rewriting twice is rewriting once. |
| SupabaseClient.UpdateWithKwargs | src/supabase_client.py:231-248 | Not connected gives False and no write. Otherwise it writes to the given id one entry per keyword, with the same keys in order. Each value is kept, except that `completed_at=True` becomes the current timestamp. |
| SupabaseClient.RecordProxyPerformance | src/supabase_client.py:344-399 | On an existing pair it adds 1 to exactly one of success and failure, and 1 to detection iff detected. `last_success` changes only on success. On a new pair it inserts (1,0) or (0,1), with detection 1 iff detected. A null count raises, which gives False. |
| SupabaseClient.GetPlatformMetrics | src/supabase_client.py:477-518 | With no rows it gives zeros and rate 0. Otherwise it gives the column sums, with rate = successful/total×100, or 0 when the total is 0. |
| SupabaseClient.PlatformRateBounded | src/supabase_client.py:495-515 | With non-negative counts and successes at most attempts per row, the rate lies in 0..100. |
| SupabaseClient.GetCaptchaSuccessRate | src/supabase_client.py:520-544 | Is 100× the fraction of truthy success flags, or 0 without rows. It lies in 0..100, is 100 iff every flag is truthy, and is 0 iff none is. |
| SupabaseClient.GetBotRunStats | src/supabase_client.py:546-582 | `success_count` ≤ `total_runs`. The average duration covers only truthy durations (0 if there are none), and the flag counts count truthy flags. |
| SupabaseClient.Durations | src/supabase_client.py:568 | Keeps exactly the truthy durations, so their number is the count of truthy values. |
| SupabaseClient.DurationsSum | src/supabase_client.py:568-576 | The kept durations add up to the whole `duration_ms` column with absent or null values read as 0. With the count, this fixes `average_duration_ms`. |
| DashboardApi.GetOverview | src/dashboard_api.py:22-50 | `total_runs_today` is the sum of per-platform attempts over the five platforms, with missing counts read as 0. `total_accounts` and `success_rate_today` stay 0. |
| DashboardApi.GetAccountStats | src/dashboard_api.py:86-113 | Not connected gives None. Every listed platform is one of the requested ones and has 0 < `active_accounts` ≤ `total_accounts`. |
| DashboardApi.BreakdownOf | src/dashboard_api.py:97-108 | An entry is about its own platform, counts every row in `total_accounts`, and has 0 < `active_accounts` ≤ `total_accounts`. |
| DashboardApi.BreakdownOfSpec | src/dashboard_api.py:97-108 | The entry is lost (the sum raises) iff an active account has a null count. Otherwise it exists iff some account is active. `active_accounts` counts the active rows, and each average is the Mean of their counts. |
| DashboardApi.BreakdownsRaise | src/dashboard_api.py:96-113 | The whole answer is lost iff some requested platform's entry is lost. |
| DashboardApi.Mean | src/dashboard_api.py:101-102 | An average multiplied by the number of accounts gives back their sum. |
| DashboardApi.BreakdownsCover | src/dashboard_api.py:98-108 | A platform is listed iff it has an active account. |
| DashboardApi.GetProxyStats | src/dashboard_api.py:139-170 | An empty table gives zero totals. `working_proxies` counts rows with more successes than failures and is ≤ `total_proxies`. `top_performing` holds at most 5 rows, sorted by the ratio key and drawn from the table. `success_rate` is the pooled percentage of successes among successes plus failures. `detection_rate` is the mean detection count per proxy. |
| DashboardApi.TopPerformingAreBest | src/dashboard_api.py:162-166 | No row left out of the top list has a higher key than one in it. |
| DashboardApi.GetDetectionAnalysis | src/dashboard_api.py:205-242 | No rows gives the empty answer. Otherwise `total_runs` is the number of runs, `detected_runs` counts the truthy flags and is ≤ `total_runs`, and the rate lies in 0..100. The rate is `detected_runs` as a percentage of `total_runs`. Every platform carried by a run is listed once, in first-occurrence order. Each entry holds that platform's run count and a detected count ≤ it. |
| DashboardApi.PlatformTotalsCoverRuns | src/dashboard_api.py:217-237 | The per-platform `total_runs` add up to the number of runs that carry a platform. |
| ResearchReports.Findings | src/research_reports.py:178-194 | "High" iff the rate is over 50 and "low" iff under 20. The CAPTCHA "effective" finding appears iff that rate is over 80 and "challenging" iff under 50. There are at most two findings, rate first, and none iff both rates are in the middle bands. |
| ResearchReports.GenerateFindings | src/research_reports.py:178-194 | With metrics, a high-rate finding quoting the rate appears iff the rate is above 50, and a low-rate finding iff it is below 20. Without metrics the rate reads as 0, so the low-rate finding appears. The CAPTCHA findings appear iff the CAPTCHA rate is above 80 or below 50. |
| ResearchReports.FindingsExclusive | src/research_reports.py:183-192 | High and low exclude each other, and so do the two CAPTCHA findings. |
| ResearchReports.RankPlatforms | src/research_reports.py:225-231 | Gives a permutation of the input, non-increasing by success rate (missing = 0), with ties in input order. |
| ResearchReports.RunsDivisor | src/research_reports.py:68-69 | The denominator is never 0. |
| ResearchReports.BotTypeReport | src/research_reports.py:54-76 | The encounter and detection rates divide by max(total_runs, 1), and the average duration in seconds is the milliseconds / 1000. |
| ResearchReports.BotTypeRatesBounded | src/research_reports.py:66-69 | On statistics built from rows, both rates lie in 0..100. |
| Logger.New | utils/logger.py:322-331 | All seven counters start at 0. |
| Logger.RecordCaptcha | utils/logger.py:342-346 | Exactly one of solved and failed goes up by 1, and nothing else changes. |
| Logger.RecordProxy | utils/logger.py:348-351 | `proxies_used` always goes up by 1 and `proxies_failed` only on failure. Validity is kept. |
| Logger.ApplyAllValid | utils/logger.py:333-351 | Every sequence of calls keeps `proxies_failed` ≤ `proxies_used`. |
| Logger.CountersCountCalls | utils/logger.py:333-351 | From a fresh logger, each counter equals the number of calls that name it. |
| Logger.SuccessRate | utils/logger.py:353-356 | 0 with no attempts, else successes/attempts×100. |
| Logger.SuccessRateUnbounded | utils/logger.py:353-356 | The rate is not capped at 100: two successes on one attempt give 200. |
| Logger.BotActionMessage | utils/logger.py:176-188 | The message is "[platform] action", with " - details" appended. |
| Logger.BotActionPlatformReadBack | utils/logger.py:185 | A platform name without ']' is read back from its message: it is the text between the leading '[' and the first ']'. |
| Logger.BotActionDetailsIff | utils/logger.py:185-187 | The details part appears iff the details are truthy. |
| Logger.ExceptionMessage | utils/logger.py:252-264 | The message is "Exception occurred: Type: msg", prefixed with "[context] " when a context is given. |
| Logger.ExceptionMessageShape | utils/logger.py:260-262 | A message without a context starts with the fixed phrase, and one with a context starts with '['. |
| HelperNumbers.CappedDelay | utils/helper_functions.py:188 | The delay before jitter is at most `max_delay` and at most base·2^attempt, and equals one of them. |
| HelperNumbers.CappedDelayMonotone | utils/helper_functions.py:188 | Before jitter, a later attempt never waits less. |
| HelperNumbers.ExponentialBackoff | utils/helper_functions.py:180-191 | The jittered delay lies between half and one and a half times the capped delay. |
| HelperNumbers.BackoffWithinJitteredCap | utils/helper_functions.py:188-191 | The delay is non-negative and at most 1.5·`max_delay`. |
| HelperNumbers.BackoffExceedsCap | utils/helper_functions.py:188-191 | Jitter comes after the cap, so attempt 10 with a 1.5 draw waits 90 > 60. |
| HelperNumbers.UsToEuSize | utils/helper_functions.py:267-278 | A non-numeric size gives None. Otherwise the result is US+30.5 for "women" and US+33 for any other gender. |
| HelperNumbers.UsToEuRoundTrip | utils/helper_functions.py:267-278 | Subtracting the same offset recovers the US size. |
| HelperNumbers.UsToEuGenders | utils/helper_functions.py:269-274 | Men's sizes are 2.5 above women's, and an unknown gender uses the men's rule. |
| HelperNumbers.CalculateSuccessRate | utils/helper_functions.py:471-475 | 0 with no attempts, else successes/total×100. |
| HelperNumbers.SuccessRateAgreesWithPercent | utils/helper_functions.py:471-475 | For non-negative totals it equals the database client's percentage, and it lies in 0..100 when successes ≤ total. |
| HelperNumbers.SuccessRateUncapped | utils/helper_functions.py:471-475 | More successes than attempts give more than 100. |
| HelperValidation.PhoneIgnoresNonDigits | utils/helper_functions.py:204-208 | Inserting a non-digit anywhere does not change the verdict. |
| HelperValidation.PhoneDigitsOnly | utils/helper_functions.py:204-208 | The verdict is true iff the string has exactly 10 or 11 digit characters. |
| HelperValidation.ZipCodeMeaning | utils/helper_functions.py:211-214 | The check accepts exactly five digits, optionally followed by '-' and four digits, optionally followed by one trailing newline. |
| HelperValidation.MatchEmailBodyIff | utils/helper_functions.py:198-201 | The pattern body matches iff the string splits as local@domain.tld. The local part is non-empty over `[A-Za-z0-9._%+-]`, the domain non-empty over `[A-Za-z0-9.-]`, and the TLD has at least 2 letters. |
| HelperValidation.EmailAcceptsDoubleDot | utils/helper_functions.py:198-201 | "a..b@example.com" is accepted, although section 3.4.1 of RFC 5322 forbids consecutive dots in a dot-atom. |
| HelperValidation.EmailRejectsApostrophe | utils/helper_functions.py:198-201 | "o'neil@example.com" is rejected, although "'" is atext in section 3.2.3 of RFC 5322. |
| HelperValidation.KeepNameChars | utils/helper_functions.py:220 | Every kept character is a word character, whitespace or '-'. A one-character name is kept iff that character is one of these. |
| HelperValidation.KeepNameCharsAppend | utils/helper_functions.py:220 | Filtering a concatenation filters each part and concatenates. With the one-character case, exactly the allowed characters are kept, in order. |
| HelperValidation.StripCollapseIsClean | utils/helper_functions.py:221 | Collapsing whitespace runs to one space and stripping is the same as joining the whitespace-separated words with single spaces. |
| HelperValidation.SanitizeSneakerNameShape | utils/helper_functions.py:217-222 | The sanitised name is normalised: no whitespace at the ends, single spaces only. It keeps every non-space character that the filter kept. |
| HelperText.CleanWhitespaceKeepsContent | utils/helper_functions.py:489-491 | Cleaning removes only whitespace: the non-space characters are kept, in order. |
| HelperText.CleanWhitespaceNormalised | utils/helper_functions.py:489-491 | The output has no leading or trailing whitespace, no whitespace but ' ', and never two in a row. |
| HelperText.CleanWhitespaceIdempotent | utils/helper_functions.py:489-491 | Cleaning twice is cleaning once. |
| HelperText.TruncateAsWritten | utils/helper_functions.py:482-486 | Text within the limit is unchanged. When the text is longer and the limit is at least the suffix length, the result is a prefix plus the suffix, of length exactly the limit. |
| HelperText.TruncateAsWrittenGrows | utils/helper_functions.py:486 | With a limit below the suffix length, the negative slice makes the result longer than the input. |
| HelperText.Truncate | utils/helper_functions.py:482-486 | Behaves as written wherever the written code keeps its promise, and never exceeds the limit or the text length. |
| HelperText.TruncateAgrees | utils/helper_functions.py:482-486 | Where the written code keeps its promise, the corrected and written versions agree. |
| HelperUrls.ExtractDomain | utils/helper_functions.py:285-289 | A result is a non-empty run without '/'. None iff the pattern matches at no position. Otherwise the result is the group of the match at the leftmost matching position. |
| HelperUrls.ExtractDomainOfBuiltUrl | utils/helper_functions.py:285-300 | The domain of a URL built on "https://host" is the host, for a host without '/' and without a "www." prefix. |
| HelperUrls.ExtractDomainDropsWww | utils/helper_functions.py:287 | A leading "www." after the scheme is not part of the domain. |
| HelperUrls.BuildUrl | utils/helper_functions.py:292-300 | Without parameters the URL is the joined path. With parameters, '?' and the query follow. |
| HelperUrls.BuildUrlSeam | utils/helper_functions.py:294 | Exactly one '/' sits between the right-stripped base and the left-stripped path. |
| HelperUrls.BuildUrlPath | utils/helper_functions.py:294-298 | The path appears without its leading slashes, and a '?' follows iff there are parameters. |
| HelperUrls.QueryRoundTrip | utils/helper_functions.py:296-298 | With no '&' or '=' in keys and values, the query reads back to the parameters in insertion order. |
| HelperUrls.QueryAmbiguous | utils/helper_functions.py:296-298 | Without the percent-encoding of section 2.1 of RFC 3986, two different parameter lists build the same URL. |
| HelperUrls.CssSelector | utils/helper_functions.py:370-380 | "#id" when the id is truthy. Otherwise "name." followed by the classes when there are some, else the tag name. |
| HelperUrls.CssSelectorParts | utils/helper_functions.py:374-376 | Without an id, the selector splits on '.' into the tag name and the classes. |
| HelperPasswords.HashPassword | utils/helper_functions.py:386-392 | The stored form is the salt used, '$', then the hex digest of that password and salt. A falsy salt is replaced by the drawn one. |
| HelperPasswords.VerifyPassword | utils/helper_functions.py:395-401 | Verification can succeed only when the stored string has exactly one '$'. |
| HelperPasswords.HashThenVerify | utils/helper_functions.py:386-401 | A hash verifies against its own password for every non-empty salt without '$'. |
| HelperPasswords.WrongPasswordRejected | utils/helper_functions.py:395-401 | A password whose digest under that salt differs does not verify. |
| HelperPasswords.DollarSaltNeverVerifies | utils/helper_functions.py:386-401 | A salt containing '$' is accepted by hashing, but its hash never verifies. |
| HelperPasswords.EmptySaltNeverVerifies | utils/helper_functions.py:395-401 | A stored string with an empty salt never verifies, because a newly drawn salt replaces it. |
| HelperPasswords.HexInjective | utils/helper_functions.py:392 | Different digests have different hex forms. |
| Splitting.SplitCount | utils/helper_functions.py:398 | `split('$')` gives one more part than there are separators. |
| Splitting.JoinSplit | utils/helper_functions.py:398 | Joining the parts with the separator gives the string back. |
| Splitting.SplitJoin | utils/helper_functions.py:296-298 | Splitting a join of separator-free parts gives the parts back. |
| Settings.ValidateConfig | config/settings.py:294-310 | The CAPTCHA warning is given iff auto-solve is on and the key is the placeholder. The Discord warning is given iff Discord is on and the webhook is the placeholder. The proxy warning, naming the file, is given iff proxies are on and the file is missing. Warnings come in that order, and none iff no condition holds. |
| Settings.DefaultConfig | config/settings.py:18-161 | The keys come from the environment with placeholder defaults, and the features are on. |
| Settings.DefaultsWarnAboutKeys | config/settings.py:18-310 | With no keys in the environment, both key warnings are raised. |
| Settings.Message | config/settings.py:299-308 | Every warning starts with the warning mark, and the proxy warning ends with the path. |
| Sorting.SortDescCorrect | src/research_reports.py:227-231 | The sort is a permutation, non-increasing by key, and stable. |

## Left out

- Browser automation, stealth scripts, fingerprints and header randomisation are left out. These are foreign libraries and random choices, so only the boolean outcome of each page step is an input.
- Real I/O is left out: HTTP requests, the Supabase client, sqlite, the file system, notifications, sleeps and the wall clock. Their results are inputs.
- Float parsing and formatting are left out: `parse_price`, `format_price`, `normalize_size`, the `float()` call in `us_to_eu_size` (its result is an input), and the ".2f" percentage strings.
- `random_delay` and `human_typing_delay` are left out. They are random delays, and nothing decides on their result.
- Identity fabrication (`generate_random_*`, `generate_test_data`), `generate_session_token`, the file and JSON helpers and the scraping helpers `extract_site_structure` and `find_element_by_text` are left out. They are randomness, I/O or HTML parsing.
- Some dashboard methods are not modelled: `get_platform_stats`, `get_bot_type_stats`, `get_captcha_analytics`, `get_daily_trend`, `get_research_session_summary` and `export_data_as_json`. They forward database answers or render them.
- Report rendering and the constant analysis dictionaries of the research reports are left out.
- Python's set iteration order in the detection analysis and in the performance report's `event_types` is not modelled. First-occurrence order stands in for it.
- JSON arrays and objects as the value of a `status` key are not modelled in the SneakerBot_Ultimate CAPTCHA solver. Only scalars are.
- ShopifyBot: a present title that is not a string (a number, say) is not modelled. `.lower()` would raise on it.
- CaptchaSolver: a `status` of JSON `true` or `1.0` is not modelled. The answer's status is an integer, although Python's `== 1` would accept both.
- Unicode `\d`, `\w` and `\s` are not modelled. Only ASCII classes are used.
- Text.Lower: the Unicode case folding of `str.lower()` is not modelled. Only ASCII 'A'..'Z' are folded, so non-ASCII pages, titles and URLs can compare differently in StockMonitor.CheckStock, ShopifyBot.TitleMatches, UltimateShopifyBot.ScanFrom and NikeBot.Login.
- HelperNumbers.ExponentialBackoff: floats overflowing for very large attempts (OverflowError) are not modelled, because reals are unbounded.
- HelperPasswords.HashPassword: PBKDF2-HMAC-SHA256 is a function parameter, so nothing about the digest beyond its hex form is stated.
- HelperText.Truncate: this is the corrected definition. The code as written is `HelperText.TruncateAsWritten`, and the two agree wherever the written code keeps its promise (see Findings).
- CaptchaSolver.PollFrom, CaptchaSolver.SolveWith2Captcha, CaptchaSolver.SolveCaptcha: the clock trace must end past the deadline. A real clock that never advances would make the source loop forever.
- AdidasBot.HandleQueue: like the CAPTCHA loop, the trace of clock readings must end with a failing loop test.

## Findings

| source | as written | input that shows it | evidently intended | confidence | as-written member | corrected member |
|---|---|---|---|---|---|---|
| utils/helper_functions.py:482-486 | `text[:max_length - len(suffix)] + suffix`; when `max_length < len(suffix)` the slice bound is negative and counts from the end | `truncate_string("abcdef", 2, "...")` gives "abcde...", 8 characters for a limit of 2 | a result never longer than `max_length` (nor than the text) | medium; not executed | HelperText.TruncateAsWrittenGrows | HelperText.Truncate |
