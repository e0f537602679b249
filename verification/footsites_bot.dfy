/**
 * `FootsitesBot` (src/footsites_bot.py): the site table with its footlocker
 * fallback, and the three-step `footsites_checkout` with cleanup on every
 * exit. Element lookups are oracles.
 */
module FootsitesBot {
  import opened Pipeline

  const Footlocker := "https://www.footlocker.com"

  /** `FootsitesBot.SITES`. */
  const Sites: map<string, string> := map[
    "footlocker" := Footlocker,
    "champs" := "https://www.champssports.com",
    "eastbay" := "https://www.eastbay.com"]

  datatype Bot = Bot(baseUrl: string, siteName: string)

  /** `__init__(site)`: an unknown key falls back to the footlocker URL, but `site_name` keeps the key. */
  function NewBot(site: string): (b: Bot)
    ensures b.siteName == site
    ensures site in Sites ==> b.baseUrl == Sites[site]
    ensures site !in Sites ==> b.baseUrl == Footlocker
    ensures b.baseUrl in Sites.Values
  {
    assert Sites["footlocker"] == Footlocker;
    Bot(if site in Sites then Sites[site] else Footlocker, site)
  }

  /** What the page answers during one checkout: one probe per step. */
  datatype CheckoutPages = CheckoutPages(search: Probe, size: Probe, cart: Probe)

  /** A finished `footsites_checkout`: the result, the steps run, and whether `cleanup` ran. */
  datatype Outcome = Outcome(ok: bool, trace: seq<Step>, cleanedUp: bool)

  /**
   * `footsites_checkout(site, product_name, size)`: `add_to_cart`'s result
   * when search and size selection both succeed, otherwise False; the
   * `finally` clause runs `cleanup` on every exit.
   */
  function FootsitesCheckout(site: string, pages: CheckoutPages): (r: Outcome)
    ensures r.cleanedUp
    ensures r.ok <==> StepOk(pages.search) && StepOk(pages.size) && StepOk(pages.cart)
    ensures !StepOk(pages.search) ==> r.trace == [Search]
    ensures AddToCart in r.trace <==> StepOk(pages.search) && StepOk(pages.size)
  {
    if !StepOk(pages.search) then Outcome(false, [Search], true)
    else if !StepOk(pages.size) then Outcome(false, [Search, SelectSize], true)
    else Outcome(StepOk(pages.cart), [Search, SelectSize, AddToCart], true)
  }

  function CheckoutPlan(pages: CheckoutPages): seq<Planned> {
    [Planned(Search, StepOk(pages.search)), Planned(SelectSize, StepOk(pages.size)), Planned(AddToCart, StepOk(pages.cart))]
  }

  /** `footsites_checkout` is the short-circuit run of its three steps. */
  lemma CheckoutIsPipeline(site: string, pages: CheckoutPages)
    ensures FootsitesCheckout(site, pages).ok == RunPlan(CheckoutPlan(pages)).ok
    ensures FootsitesCheckout(site, pages).trace == RunPlan(CheckoutPlan(pages)).trace
  {
    var p := CheckoutPlan(pages);
    assert p == [p[0]] + ([p[1]] + ([p[2]] + []));
    RunPlanCons(p[2], []);
    RunPlanCons(p[1], [p[2]] + []);
    RunPlanCons(p[0], [p[1]] + ([p[2]] + []));
  }
}
