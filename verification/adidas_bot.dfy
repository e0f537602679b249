/**
 * The decision logic of `AdidasBot` (src/adidas_bot.py): the login
 * predicate, the bounded queue wait, the purchase pipeline and the
 * `adidas_checkout` wrapper. Page URLs, clock readings and element lookups
 * are oracles.
 */
module AdidasBot {
  import opened Wrappers
  import opened Text
  import opened Pipeline

  const DefaultMaxQueueWait := 3600

  datatype Bot = Bot(email: string, password: string, loggedIn: bool)

  /** The URL the login flow ends on, or an exception during it. */
  datatype LoginProbe = LandedOn(url: string) | LoginRaised

  /**
   * The queue page as `handle_queue` sees it: `urls[k]` is the page URL after
   * k reloads and `clock[k]` the clock reading of the k-th loop test.
   */
  datatype QueueTrace = QueueTrace(urls: seq<string>, clock: seq<real>, start: real)

  /** What the page answers during one `complete_purchase`. */
  datatype PurchasePages = PurchasePages(
    login: LoginProbe, search: Probe, queue: QueueTrace, size: Probe, cart: Probe, checkout: Probe)

  datatype Purchase = Purchase(ok: bool, bot: Bot, trace: seq<Step>)

  function NewBot(email: string, password: string): (b: Bot)
    ensures !b.loggedIn && b.email == email && b.password == password
  {
    Bot(email, password, false)
  }

  /** Unlike the Nike predicate, this one is case-sensitive and only looks for "account". */
  predicate LoginSucceeds(probe: LoginProbe) {
    probe.LandedOn? && Contains(probe.url, "account")
  }

  /** `login`: `logged_in` becomes the URL test's result; an exception leaves it alone and gives False. */
  function Login(bot: Bot, probe: LoginProbe): (r: (bool, Bot))
    ensures r.0 <==> LoginSucceeds(probe)
    ensures probe.LandedOn? ==> r.1.loggedIn == r.0
    ensures probe.LoginRaised? ==> r.1 == bot
    ensures r.1.email == bot.email && r.1.password == bot.password
  {
    match probe
    case LandedOn(url) => (Contains(url, "account"), bot.(loggedIn := Contains(url, "account")))
    case LoginRaised => (false, bot)
  }

  /** An upper-case "Account" page does not count as logged in. */
  lemma LoginIsCaseSensitive()
    ensures !LoginSucceeds(LandedOn("/Account"))
    ensures LoginSucceeds(LandedOn("/account"))
  {
    assert OccursAt("/account", "account", 1);
    ContainsIff("/account", "account");
    ContainsIff("/Account", "account");
    forall i | 0 <= i <= |"/Account"| - |"account"|
      ensures !OccursAt("/Account", "account", i)
    {
      if i == 0 {
        assert "/Account"[0] != "account"[0];
      } else {
        assert "/Account"[1] != "account"[0];
      }
    }
  }

  predicate InQueue(url: string) {
    Contains(url, "queue")
  }

  predicate Waiting(q: QueueTrace, maxWait: int, k: int)
    requires 0 <= k < |q.urls| && |q.clock| == |q.urls|
  {
    InQueue(q.urls[k]) && q.clock[k] - q.start < maxWait as real
  }

  /** The trace is long enough: its last loop test fails, so the loop ends within it. */
  predicate QueueEnds(q: QueueTrace, maxWait: int) {
    0 < |q.urls| && |q.clock| == |q.urls| && !Waiting(q, maxWait, |q.urls| - 1)
  }

  /** The index of the first failing loop test at or after `i`: the number of reloads done. */
  function QueueFrom(q: QueueTrace, maxWait: int, i: nat): (n: nat)
    requires i < |q.urls| && QueueEnds(q, maxWait)
    ensures i <= n < |q.urls|
    ensures forall k :: i <= k < n ==> Waiting(q, maxWait, k)
    ensures !Waiting(q, maxWait, n)
    decreases |q.urls| - i
  {
    if !Waiting(q, maxWait, i) then i else QueueFrom(q, maxWait, i + 1)
  }

  /**
   * `handle_queue`: reloads while the URL contains "queue" and less than
   * `max_queue_wait` seconds have passed; True iff the page ends outside the
   * queue. Returns the result and the number of reloads.
   */
  function HandleQueue(q: QueueTrace, maxWait: int): (r: (bool, nat))
    requires QueueEnds(q, maxWait)
    ensures r.1 < |q.urls|
    ensures !InQueue(q.urls[0]) ==> r == (true, 0)
    ensures r.0 <==> !InQueue(q.urls[r.1])
    ensures !r.0 ==> q.clock[r.1] - q.start >= maxWait as real
    ensures forall k :: 0 <= k < r.1 ==> Waiting(q, maxWait, k)
  {
    var n := QueueFrom(q, maxWait, 0);
    (!InQueue(q.urls[n]), n)
  }

  /** Search, queue, size, cart and checkout, stopping at the first failure. */
  function StoreRun(pages: PurchasePages, maxWait: int): (r: Run)
    requires QueueEnds(pages.queue, maxWait)
    ensures r.ok <==> StepOk(pages.search) && HandleQueue(pages.queue, maxWait).0
                      && StepOk(pages.size) && StepOk(pages.cart) && StepOk(pages.checkout)
    ensures 0 < |r.trace| <= 5 && r.trace[0] == Search
    ensures Step.Login !in r.trace
    ensures r.ok ==> r.trace == [Search, Queue, SelectSize, AddToCart, Checkout]
  {
    if !StepOk(pages.search) then Run(false, [Search])
    else if !HandleQueue(pages.queue, maxWait).0 then Run(false, [Search, Queue])
    else if !StepOk(pages.size) then Run(false, [Search, Queue, SelectSize])
    else if !StepOk(pages.cart) then Run(false, [Search, Queue, SelectSize, AddToCart])
    else Run(StepOk(pages.checkout), [Search, Queue, SelectSize, AddToCart, Checkout])
  }

  /**
   * `complete_purchase(sneaker_name, size)`: logs in only if needed, then
   * search, queue, size, cart and checkout in that order; True iff all
   * succeed, stopping at the first failure.
   */
  function CompletePurchase(bot: Bot, pages: PurchasePages, maxWait: int): (r: Purchase)
    requires QueueEnds(pages.queue, maxWait)
    ensures r.ok <==> (bot.loggedIn || LoginSucceeds(pages.login)) && StepOk(pages.search)
                      && HandleQueue(pages.queue, maxWait).0
                      && StepOk(pages.size) && StepOk(pages.cart) && StepOk(pages.checkout)
    ensures 0 < |r.trace| && (r.trace[0] == Step.Login <==> !bot.loggedIn)
    ensures !bot.loggedIn && !LoginSucceeds(pages.login) ==> r.trace == [Step.Login]
    ensures bot.loggedIn ==> r.bot == bot
    ensures !bot.loggedIn ==> r.bot == Login(bot, pages.login).1
    ensures r.ok ==> |r.trace| >= 5 && r.trace[|r.trace| - 5..] == [Search, Queue, SelectSize, AddToCart, Checkout]
  {
    if bot.loggedIn then
      var store := StoreRun(pages, maxWait);
      Purchase(store.ok, bot, store.trace)
    else
      var (ok, after) := Login(bot, pages.login);
      if !ok then Purchase(false, after, [Step.Login])
      else
        var store := StoreRun(pages, maxWait);
        Purchase(store.ok, after, [Step.Login] + store.trace)
  }

  /** The steps of `complete_purchase` in source order, each with the outcome its oracle gives. */
  function PurchasePlan(bot: Bot, pages: PurchasePages, maxWait: int): seq<Planned>
    requires QueueEnds(pages.queue, maxWait)
  {
    (if bot.loggedIn then [] else [Planned(Step.Login, LoginSucceeds(pages.login))]) + StorePlan(pages, maxWait)
  }

  function StorePlan(pages: PurchasePages, maxWait: int): seq<Planned>
    requires QueueEnds(pages.queue, maxWait)
  {
    [ Planned(Search, StepOk(pages.search)),
      Planned(Queue, HandleQueue(pages.queue, maxWait).0),
      Planned(SelectSize, StepOk(pages.size)),
      Planned(AddToCart, StepOk(pages.cart)),
      Planned(Checkout, StepOk(pages.checkout)) ]
  }

  lemma StorePlanRun(pages: PurchasePages, maxWait: int)
    requires QueueEnds(pages.queue, maxWait)
    ensures RunPlan(StorePlan(pages, maxWait)) == StoreRun(pages, maxWait)
  {
    var p := StorePlan(pages, maxWait);
    assert p == [p[0]] + ([p[1]] + ([p[2]] + ([p[3]] + ([p[4]] + []))));
    RunPlanCons(p[4], []);
    RunPlanCons(p[3], [p[4]] + []);
    RunPlanCons(p[2], [p[3]] + ([p[4]] + []));
    RunPlanCons(p[1], [p[2]] + ([p[3]] + ([p[4]] + [])));
    RunPlanCons(p[0], [p[1]] + ([p[2]] + ([p[3]] + ([p[4]] + []))));
  }

  /** `complete_purchase` is the short-circuit run of its planned steps. */
  lemma CompletePurchaseIsPipeline(bot: Bot, pages: PurchasePages, maxWait: int)
    requires QueueEnds(pages.queue, maxWait)
    ensures CompletePurchase(bot, pages, maxWait).ok == RunPlan(PurchasePlan(bot, pages, maxWait)).ok
    ensures CompletePurchase(bot, pages, maxWait).trace == RunPlan(PurchasePlan(bot, pages, maxWait)).trace
  {
    StorePlanRun(pages, maxWait);
    var store := StorePlan(pages, maxWait);
    if bot.loggedIn {
      assert PurchasePlan(bot, pages, maxWait) == store;
    } else {
      var login := Planned(Step.Login, LoginSucceeds(pages.login));
      RunPlanCons(login, store);
      assert PurchasePlan(bot, pages, maxWait) == [login] + store;
    }
  }

  /** `adidas_checkout`: a fresh bot runs `complete_purchase`; `cleanup` runs whatever the outcome. */
  function AdidasCheckout(email: string, password: string, pages: PurchasePages, maxQueueWait: Option<int>)
    : (r: (bool, bool))
    requires QueueEnds(pages.queue, maxQueueWait.GetOr(DefaultMaxQueueWait))
    ensures r.1
    ensures r.0 <==> CompletePurchase(NewBot(email, password), pages, maxQueueWait.GetOr(DefaultMaxQueueWait)).ok
    ensures r.0 ==> LoginSucceeds(pages.login)
  {
    (CompletePurchase(NewBot(email, password), pages, maxQueueWait.GetOr(DefaultMaxQueueWait)).ok, true)
  }
}
