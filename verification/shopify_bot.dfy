/**
 * `ShopifyBot` (src/shopify_bot.py): store URL normalisation, product
 * fetching, one scan of `monitor_stock`, the cart call and `quick_checkout`.
 * HTTP answers are oracles; a JSON key read by the code is absent, null or
 * holds a value.
 */
module ShopifyBot {
  import opened Wrappers
  import opened Text

  datatype Bot = Bot(storeUrl: string)

  /** One key of a JSON object: absent, present with null, or present with a value. */
  datatype Key<T> = Missing | Null | Has(value: T)

  /** Python's `obj[key]` once the key is known to be present: null reads as None. */
  function PyValue<T>(k: Key<T>): (r: Option<T>)
    requires !k.Missing?
    ensures r.Some? <==> k.Has?
    ensures k.Has? ==> r.value == k.value
  {
    if k.Has? then Some(k.value) else None
  }

  /**
   * A variant object: `id`, the truthiness of `available`, and
   * `variant.get("price")` (absent and null both read as None).
   */
  datatype Variant = Variant(id: Key<int>, available: bool, price: Option<string>)

  /** A product object; `title` holds a string whenever it is present and not null. */
  datatype Product = Product(id: Key<int>, title: Key<string>, variants: Key<seq<Variant>>)

  /** The answer to `GET products.json`: status and the decoded `products` key, or an exception. */
  datatype ProductsAnswer = Http(status: int, products: Key<seq<Product>>) | Failed

  /** The answer to `POST cart/add.js`. */
  datatype CartAnswer = CartStatus(status: int) | CartFailed

  /** The dict a successful scan returns; a null id is returned as None. */
  datatype Hit = Hit(productId: Option<int>, variantId: Option<int>, title: string, price: Option<string>)

  /** One scan of `monitor_stock`: a hit, nothing found, or an exception (then the loop sleeps and retries). */
  datatype Scan = Found(hit: Hit) | NotFound | ScanRaised

  /** `__init__`: the store URL is kept without trailing slashes. */
  function NewBot(storeUrl: string): (b: Bot)
    ensures |b.storeUrl| <= |storeUrl| && b.storeUrl == storeUrl[..|b.storeUrl|]
    ensures |b.storeUrl| > 0 ==> b.storeUrl[|b.storeUrl| - 1] != '/'
    ensures forall i :: |b.storeUrl| <= i < |storeUrl| ==> storeUrl[i] == '/'
  {
    RStripCharSpec(storeUrl, '/');
    Bot(RStripChar(storeUrl, '/'))
  }

  /** `get_checkout_url`. */
  function CheckoutUrl(b: Bot): (u: string)
    ensures |u| == |b.storeUrl| + 9 && u[..|b.storeUrl|] == b.storeUrl && u[|b.storeUrl|..] == "/checkout"
  {
    b.storeUrl + "/checkout"
  }

  /** However many slashes the given URL ends with, the checkout URL has exactly one before "checkout". */
  lemma CheckoutUrlIgnoresTrailingSlashes(storeUrl: string)
    ensures CheckoutUrl(NewBot(storeUrl + "/")) == CheckoutUrl(NewBot(storeUrl))
  {
    assert (storeUrl + "/")[..|storeUrl + "/"| - 1] == storeUrl;
  }

  /**
   * `get_products`: `data.get("products", [])` on status 200, [] otherwise or
   * on an exception. A null `products` value is returned as Python's None.
   */
  function GetProducts(answer: ProductsAnswer): (ps: Option<seq<Product>>)
    ensures answer.Http? && answer.status == 200 && answer.products.Has? ==> ps == Some(answer.products.value)
    ensures answer.Http? && answer.status == 200 && answer.products.Missing? ==> ps == Some([])
    ensures answer.Http? && answer.status == 200 && answer.products.Null? ==> ps == None
    ensures !(answer.Http? && answer.status == 200) ==> ps == Some([])
  {
    if !(answer.Http? && answer.status == 200) then Some([])
    else match answer.products
      case Missing => Some([])
      case Null => None
      case Has(products) => Some(products)
  }

  /** Some lowercased keyword occurs in the lowercased title. */
  predicate TitleMatches(title: string, keywords: seq<string>) {
    exists k :: 0 <= k < |keywords| && Contains(Lower(title), Lower(keywords[k]))
  }

  predicate HasAvailable(vs: seq<Variant>) {
    exists j :: 0 <= j < |vs| && vs[j].available
  }

  /** `product.get("title", "")` for a title that is not null (null makes `.lower()` raise). */
  function TitleOr(p: Product): string
    requires !p.title.Null?
  {
    if p.title.Has? then p.title.value else ""
  }

  /** `product.get("variants", [])` for variants that are not null (null makes the `for` raise). */
  function VariantsOr(p: Product): seq<Variant>
    requires !p.variants.Null?
  {
    if p.variants.Has? then p.variants.value else []
  }

  /** The title test passes: the title is readable and some keyword occurs in it. */
  predicate Matches(p: Product, keywords: seq<string>) {
    !p.title.Null? && TitleMatches(TitleOr(p), keywords)
  }

  /** A product the scan returns at: its title matches and some variant is available. */
  predicate Eligible(p: Product, keywords: seq<string>) {
    Matches(p, keywords) && !p.variants.Null? && HasAvailable(VariantsOr(p))
  }

  /**
   * A product the loop body does not get past: a null title raises for every
   * product reached, null variants raise for a matching one, and an eligible
   * one returns.
   */
  predicate Stops(p: Product, keywords: seq<string>) {
    p.title.Null? || (Matches(p, keywords) && p.variants.Null?) || Eligible(p, keywords)
  }

  /** Index of the first available variant. */
  function FirstAvailable(vs: seq<Variant>): (j: nat)
    requires HasAvailable(vs)
    ensures j < |vs| && vs[j].available
    ensures forall k :: 0 <= k < j ==> !vs[k].available
  {
    if vs[0].available then 0
    else
      assert HasAvailable(vs[1..]) by {
        var j :| 0 <= j < |vs| && vs[j].available;
        assert vs[1..][j - 1] == vs[j];
      }
      1 + FirstAvailable(vs[1..])
  }

  /**
   * The hit for an eligible product: `product["title"]`, `product["id"]` and
   * `variant["id"]` raise when the key is missing; a null id is kept as None.
   */
  function HitOf(p: Product, keywords: seq<string>): (s: Scan)
    requires Eligible(p, keywords)
    ensures s.Found? <==> p.title.Has? && !p.id.Missing? && !VariantsOr(p)[FirstAvailable(VariantsOr(p))].id.Missing?
    ensures s.Found? ==>
              var v := VariantsOr(p)[FirstAvailable(VariantsOr(p))];
              && s.hit.title == p.title.value && s.hit.price == v.price
              && (s.hit.productId.Some? <==> p.id.Has?) && (p.id.Has? ==> s.hit.productId.value == p.id.value)
              && (s.hit.variantId.Some? <==> v.id.Has?) && (v.id.Has? ==> s.hit.variantId.value == v.id.value)
    ensures !s.NotFound?
  {
    var v := VariantsOr(p)[FirstAvailable(VariantsOr(p))];
    if p.title.Missing? || p.id.Missing? || v.id.Missing? then ScanRaised
    else Found(Hit(PyValue(p.id), PyValue(v.id), p.title.value, v.price))
  }

  /** How the scan ends at a product it does not get past. */
  function StopAt(p: Product, keywords: seq<string>): (s: Scan)
    requires Stops(p, keywords)
    ensures p.title.Null? || p.variants.Null? ==> s == ScanRaised
    ensures !s.NotFound?
    ensures s.Found? ==> Eligible(p, keywords)
  {
    if p.title.Null? || p.variants.Null? then ScanRaised else HitOf(p, keywords)
  }

  /** The index of the first product from `i` on that the scan stops at, or `|products|` when there is none. */
  function FirstStop(products: seq<Product>, keywords: seq<string>, i: nat): (j: nat)
    requires i <= |products|
    ensures i <= j <= |products|
    ensures j < |products| ==> Stops(products[j], keywords)
    ensures forall k :: i <= k < j ==> !Stops(products[k], keywords)
    decreases |products| - i
  {
    if i == |products| || Stops(products[i], keywords) then i
    else FirstStop(products, keywords, i + 1)
  }

  /** The scan from product `i` on: the first product it does not get past decides. */
  function ScanFrom(products: seq<Product>, keywords: seq<string>, i: nat): (s: Scan)
    requires i <= |products|
    ensures s.NotFound? <==> forall k :: i <= k < |products| ==> !Stops(products[k], keywords)
    ensures !s.NotFound? ==>
              exists j :: i <= j < |products| && Stops(products[j], keywords) && s == StopAt(products[j], keywords)
                          && forall k :: i <= k < j ==> !Stops(products[k], keywords)
  {
    var j := FirstStop(products, keywords, i);
    if j == |products| then NotFound else StopAt(products[j], keywords)
  }

  /**
   * One iteration of the `monitor_stock` loop: fetch the products and scan
   * them; iterating over a null product list raises.
   */
  function MonitorScan(answer: ProductsAnswer, keywords: seq<string>): (s: Scan)
    ensures !(answer.Http? && answer.status == 200) ==> s == NotFound
    ensures GetProducts(answer).None? ==> s == ScanRaised
    ensures GetProducts(answer).Some? ==>
              var ps := GetProducts(answer).value;
              && (s.NotFound? <==> forall k :: 0 <= k < |ps| ==> !Stops(ps[k], keywords))
              && (!s.NotFound? ==>
                    exists j :: 0 <= j < |ps| && Stops(ps[j], keywords) && s == StopAt(ps[j], keywords)
                                && forall k :: 0 <= k < j ==> !Stops(ps[k], keywords))
    ensures s.Found? ==>
              exists j :: 0 <= j < |GetProducts(answer).value| && Eligible(GetProducts(answer).value[j], keywords)
                          && GetProducts(answer).value[j].title == Has(s.hit.title)
  {
    var ps := GetProducts(answer);
    if ps.None? then ScanRaised else ScanFrom(ps.value, keywords, 0)
  }

  /**
   * A product with a null title makes every scan raise before it reaches the
   * products after it, even an eligible one.
   */
  lemma NullTitleHidesLaterProducts()
    ensures var eligible := Product(Has(2), Has("a"), Has([Variant(Has(3), true, None)]));
            && Eligible(eligible, ["a"])
            && MonitorScan(Http(200, Has([Product(Has(1), Null, Has([])), eligible])), ["a"]) == ScanRaised
  {
    var kw: seq<string> := ["a"];
    var eligible := Product(Has(2), Has("a"), Has([Variant(Has(3), true, None)]));
    assert Lower("a") == "a";
    assert OccursAt("a", "a", 0);
    ContainsIff("a", "a");
    assert Contains(Lower("a"), Lower(kw[0]));
    assert VariantsOr(eligible)[0].available;
    assert Eligible(eligible, kw);
    var ps := [Product(Has(1), Null, Has([])), eligible];
    assert Stops(ps[0], kw);
    assert FirstStop(ps, kw, 0) == 0;
  }

  /** `add_to_cart`: true iff the cart endpoint answered 200. */
  predicate AddToCart(answer: CartAnswer) {
    answer.CartStatus? && answer.status == 200
  }

  /** `quick_checkout`: the checkout URL iff the item went into the cart. */
  function QuickCheckout(b: Bot, answer: CartAnswer): (r: Option<string>)
    ensures r.Some? <==> AddToCart(answer)
    ensures r.Some? ==> r.value == CheckoutUrl(b)
  {
    if AddToCart(answer) then Some(CheckoutUrl(b)) else None
  }
}
