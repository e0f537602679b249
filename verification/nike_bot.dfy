/**
 * The decision logic of `NikeBot` (src/nike_bot.py): the login success
 * predicate, product-URL normalisation and the short-circuit sequencing of
 * `complete_purchase`, `enter_snkrs_draw` and `nike_login`. The browser is
 * replaced by oracles: the URL the login lands on, the search result, and
 * one `Probe` per element lookup.
 */
module NikeBot {
  import opened Wrappers
  import opened Text
  import opened Pipeline

  const NikeBase := "https://www.nike.com"

  datatype Bot = Bot(email: string, password: string, loggedIn: bool)

  /** The URL the login flow ends on, or an exception during it. */
  datatype LoginProbe = LandedOn(url: string) | LoginRaised

  /** What `search_sneaker` found: the first card's href attribute, no card, or an exception. */
  datatype SearchProbe = Href(href: Option<string>) | NoResults | SearchRaised

  /** What the page answers during one `complete_purchase`. */
  datatype PurchasePages = PurchasePages(
    login: LoginProbe, search: SearchProbe, navigates: bool, size: Probe, cart: Probe, checkout: Probe)

  datatype Purchase = Purchase(ok: bool, bot: Bot, trace: seq<Step>)

  function NewBot(email: string, password: string): (b: Bot)
    ensures !b.loggedIn && b.email == email && b.password == password
  {
    Bot(email, password, false)
  }

  /** A login succeeded iff the final URL, lowercased, mentions "member" or "account". */
  predicate LoginUrlOk(url: string) {
    Contains(Lower(url), "member") || Contains(Lower(url), "account")
  }

  predicate LoginSucceeds(probe: LoginProbe) {
    probe.LandedOn? && LoginUrlOk(probe.url)
  }

  /** `login`: returns its success, and sets `logged_in` only on success. */
  function Login(bot: Bot, probe: LoginProbe): (r: (bool, Bot))
    ensures r.0 <==> LoginSucceeds(probe)
    ensures r.1.loggedIn == (bot.loggedIn || r.0)
    ensures r.1.email == bot.email && r.1.password == bot.password
  {
    if LoginSucceeds(probe) then (true, bot.(loggedIn := true)) else (false, bot)
  }

  /** The predicate ignores letter case: lowering the URL first changes nothing. */
  lemma LoginUrlCaseInsensitive(url: string)
    ensures LoginUrlOk(Lower(url)) == LoginUrlOk(url)
  {
    LowerIdempotent(url);
  }

  lemma LowerIdempotent(s: string)
    ensures Lower(Lower(s)) == Lower(s)
  {
  }

  /** `search_sneaker`'s return value. */
  function SearchResult(p: SearchProbe): (r: Option<string>)
    ensures r.Some? <==> p.Href? && p.href.Some?
  {
    if p.Href? then p.href else None
  }

  /** A relative href is prefixed with the Nike origin; an absolute one is kept. */
  function FullUrl(href: string): (u: string)
    ensures StartsWith(u, "http")
    ensures StartsWith(href, "http") ==> u == href
    ensures !StartsWith(href, "http") ==> u == NikeBase + href && u[|NikeBase|..] == href
  {
    if StartsWith(href, "http") then href else NikeBase + href
  }

  /** Normalising an already normalised URL changes nothing. */
  lemma FullUrlIdempotent(href: string)
    ensures FullUrl(FullUrl(href)) == FullUrl(href)
  {
  }

  /** The product page is known: given directly, or found by the search. */
  predicate Located(productUrl: Option<string>, pages: PurchasePages) {
    Truthy(productUrl) || Truthy(SearchResult(pages.search))
  }

  /** The page `complete_purchase` navigates to. */
  function Target(productUrl: Option<string>, pages: PurchasePages): string {
    if Truthy(productUrl) then productUrl.value else FullUrl(SearchResult(pages.search).GetOr(""))
  }

  /**
   * `complete_purchase(sneaker_name, size, product_url)`: logs in only if not
   * yet logged in, locates the product (directly or by search), navigates,
   * then selects the size, adds to the cart and goes to checkout, returning
   * False at the first failure. Exceptions inside the flow give False.
   */
  function CompletePurchase(bot: Bot, productUrl: Option<string>, pages: PurchasePages): (r: Purchase)
    ensures r.ok <==> (bot.loggedIn || LoginSucceeds(pages.login)) && Located(productUrl, pages)
                      && pages.navigates && StepOk(pages.size) && StepOk(pages.cart) && StepOk(pages.checkout)
    ensures r.bot.loggedIn == (bot.loggedIn || LoginSucceeds(pages.login))
    ensures r.bot.email == bot.email && r.bot.password == bot.password
    ensures 0 < |r.trace| && (r.trace[0] == Step.Login <==> !bot.loggedIn)
    ensures !bot.loggedIn && !LoginSucceeds(pages.login) ==> r.trace == [Step.Login]
  {
    if !bot.loggedIn && !LoginSucceeds(pages.login) then Purchase(false, bot, [Step.Login])
    else
      var after := bot.(loggedIn := true);
      var located := (if bot.loggedIn then [] else [Step.Login]) + (if Truthy(productUrl) then [] else [Search]);
      if !Located(productUrl, pages) then Purchase(false, after, located)
      else
        var page := PageRun(Target(productUrl, pages), pages);
        Purchase(page.ok, after, located + page.trace)
  }

  /**
   * The trace of `complete_purchase`: a search happens only without a
   * product URL, navigation only to the located product page, and a
   * successful purchase ends with the four page steps.
   */
  lemma CompletePurchaseTrace(bot: Bot, productUrl: Option<string>, pages: PurchasePages)
    ensures var r := CompletePurchase(bot, productUrl, pages);
      && (Search in r.trace ==> !Truthy(productUrl))
      && (!Located(productUrl, pages) ==> forall u :: Navigate(u) !in r.trace)
      && (forall u :: Navigate(u) in r.trace ==> u == Target(productUrl, pages))
      && (r.ok ==> |r.trace| >= 4 && r.trace[|r.trace| - 4..] == [Navigate(Target(productUrl, pages)), SelectSize, AddToCart, Checkout])
  {
    if bot.loggedIn || LoginSucceeds(pages.login) {
      var located := (if bot.loggedIn then [] else [Step.Login]) + (if Truthy(productUrl) then [] else [Search]);
      LocatedPrefix(bot.loggedIn, Truthy(productUrl));
      if Located(productUrl, pages) {
        var url := Target(productUrl, pages);
        var page := PageRun(url, pages);
        PageRunNavigates(url, pages);
        assert CompletePurchase(bot, productUrl, pages).trace == located + page.trace;
      }
    }
  }

  /** The steps before navigation: an optional login and an optional search, never a navigation. */
  lemma LocatedPrefix(loggedIn: bool, hasUrl: bool)
    ensures var located := (if loggedIn then [] else [Step.Login]) + (if hasUrl then [] else [Search]);
      && (Search in located ==> !hasUrl)
      && forall u :: Navigate(u) !in located
  {
  }

  /** The page run navigates exactly once, to the given URL. */
  lemma PageRunNavigates(url: string, pages: PurchasePages)
    ensures forall u :: Navigate(u) in PageRun(url, pages).trace ==> u == url
    ensures Search !in PageRun(url, pages).trace
  {
    var t := PageRun(url, pages).trace;
    forall u | Navigate(u) in t
      ensures u == url
    {
      var k :| 0 <= k < |t| && t[k] == Navigate(u);
    }
  }

  /** Navigation and the three product-page steps, stopping at the first failure. */
  function PageRun(url: string, pages: PurchasePages): (r: Run)
    ensures r.ok <==> pages.navigates && StepOk(pages.size) && StepOk(pages.cart) && StepOk(pages.checkout)
    ensures 0 < |r.trace| <= 4 && r.trace[0] == Navigate(url)
    ensures forall k :: 0 < k < |r.trace| ==> !r.trace[k].Navigate? && r.trace[k] != Search && r.trace[k] != Step.Login
    ensures r.ok ==> r.trace == [Navigate(url), SelectSize, AddToCart, Checkout]
  {
    if !pages.navigates then Run(false, [Navigate(url)])
    else if !StepOk(pages.size) then Run(false, [Navigate(url), SelectSize])
    else if !StepOk(pages.cart) then Run(false, [Navigate(url), SelectSize, AddToCart])
    else Run(StepOk(pages.checkout), [Navigate(url), SelectSize, AddToCart, Checkout])
  }

  /** The steps of `complete_purchase` in source order, each with the outcome its oracle gives. */
  function PurchasePlan(bot: Bot, productUrl: Option<string>, pages: PurchasePages): seq<Planned> {
    LoginPlan(bot, pages) + (SearchPlan(productUrl, pages) + PagePlan(productUrl, pages))
  }

  function LoginPlan(bot: Bot, pages: PurchasePages): seq<Planned> {
    if bot.loggedIn then [] else [Planned(Step.Login, LoginSucceeds(pages.login))]
  }

  function SearchPlan(productUrl: Option<string>, pages: PurchasePages): seq<Planned> {
    if Truthy(productUrl) then [] else [Planned(Search, Truthy(SearchResult(pages.search)))]
  }

  function PagePlan(productUrl: Option<string>, pages: PurchasePages): seq<Planned> {
    [ Planned(Navigate(Target(productUrl, pages)), pages.navigates),
      Planned(SelectSize, StepOk(pages.size)),
      Planned(AddToCart, StepOk(pages.cart)),
      Planned(Checkout, StepOk(pages.checkout)) ]
  }

  /** The four page steps run as a short-circuit pipeline. */
  lemma PagePlanRun(productUrl: Option<string>, pages: PurchasePages)
    ensures RunPlan(PagePlan(productUrl, pages)) == PageRun(Target(productUrl, pages), pages)
  {
    var tail := PagePlan(productUrl, pages);
    assert tail == [tail[0]] + ([tail[1]] + ([tail[2]] + ([tail[3]] + [])));
    RunPlanCons(tail[3], []);
    RunPlanCons(tail[2], [tail[3]] + []);
    RunPlanCons(tail[1], [tail[2]] + ([tail[3]] + []));
    RunPlanCons(tail[0], [tail[1]] + ([tail[2]] + ([tail[3]] + [])));
  }

  /** After the login, the search (if any) and the page steps run as a short-circuit pipeline. */
  lemma LocatedRun(productUrl: Option<string>, pages: PurchasePages)
    ensures var run := RunPlan(SearchPlan(productUrl, pages) + PagePlan(productUrl, pages));
            var search := if Truthy(productUrl) then [] else [Search];
            var page := PageRun(Target(productUrl, pages), pages);
            && (!Located(productUrl, pages) ==> run == Run(false, search))
            && (Located(productUrl, pages) ==> run == Run(page.ok, search + page.trace))
  {
    var search := SearchPlan(productUrl, pages);
    var tail := PagePlan(productUrl, pages);
    PagePlanRun(productUrl, pages);
    if Truthy(productUrl) {
      assert search + tail == tail;
    } else {
      RunPlanCons(search[0], tail);
      assert search + tail == [search[0]] + tail;
    }
  }

  /** `complete_purchase` is the short-circuit run of its planned steps. */
  lemma CompletePurchaseIsPipeline(bot: Bot, productUrl: Option<string>, pages: PurchasePages)
    ensures CompletePurchase(bot, productUrl, pages).ok == RunPlan(PurchasePlan(bot, productUrl, pages)).ok
    ensures CompletePurchase(bot, productUrl, pages).trace == RunPlan(PurchasePlan(bot, productUrl, pages)).trace
  {
    var rest := SearchPlan(productUrl, pages) + PagePlan(productUrl, pages);
    LocatedRun(productUrl, pages);
    var run := RunPlan(rest);
    if bot.loggedIn {
      assert PurchasePlan(bot, productUrl, pages) == rest;
    } else {
      var login := LoginPlan(bot, pages);
      RunPlanCons(login[0], rest);
      assert PurchasePlan(bot, productUrl, pages) == [login[0]] + rest;
      if LoginSucceeds(pages.login) {
        assert RunPlan(PurchasePlan(bot, productUrl, pages)) == Run(run.ok, [Step.Login] + run.trace);
      }
    }
  }

  /** What the page answers during one `enter_snkrs_draw`. */
  datatype DrawPages = DrawPages(navigates: bool, size: Probe, drawButton: Probe)

  /**
   * `enter_snkrs_draw(product_url, size)`: navigate, select the size, click
   * "Enter Draw" or "Join Draw". True only when all three happened.
   */
  function EnterSnkrsDraw(productUrl: string, pages: DrawPages): (r: Run)
    ensures r.ok <==> pages.navigates && StepOk(pages.size) && StepOk(pages.drawButton)
    ensures pages.navigates && !StepOk(pages.size) ==> r.trace == [Navigate(productUrl), SelectSize]
    ensures EnterDraw in r.trace <==> pages.navigates && StepOk(pages.size)
  {
    if !pages.navigates then Run(false, [Navigate(productUrl)])
    else if !StepOk(pages.size) then Run(false, [Navigate(productUrl), SelectSize])
    else Run(StepOk(pages.drawButton), [Navigate(productUrl), SelectSize, EnterDraw])
  }

  /** `nike_login`: the bot is returned only after a successful login; otherwise it is cleaned up. */
  function NikeLogin(email: string, password: string, probe: LoginProbe): (r: (Option<Bot>, bool))
    ensures r.0.Some? <==> LoginSucceeds(probe)
    ensures r.0.Some? ==> r.0.value.loggedIn && r.0.value.email == email
    ensures r.1 <==> r.0.None?
  {
    var (ok, bot) := Login(NewBot(email, password), probe);
    if ok then (Some(bot), false) else (None, true)
  }
}
