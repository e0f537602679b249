/**
 * `monitor_shopify_stock` of SneakerBot_Ultimate/src/shopify_bot.py: it polls
 * `products.json` until some product title matches a keyword, and returns
 * that product's id. Variant availability is not checked. Each loop
 * iteration's HTTP answer comes from an oracle sequence; running out of
 * oracle answers means the call has not returned yet.
 */
module UltimateShopifyBot {
  import opened Wrappers
  import opened Text
  import Shopify = ShopifyBot

  const UrlPrefix := "https://"
  const UrlSuffix := "/products.json"

  /** The `id` key of a product: absent, null, or a number. */
  datatype IdKey = Missing | Null | Id(n: int)

  /**
   * A product object with only the keys this variant reads; `title` is None
   * when the key is absent or its value is not a string (null included).
   */
  datatype Product = Product(id: IdKey, title: Option<string>)

  /** One answer: status and the decoded `products` key, or an exception. */
  datatype Answer = Http(status: int, products: Option<seq<Product>>) | Failed

  /**
   * How scanning one answer ends: `return product["id"]` (a null id returns
   * None), no match, or an exception (caught by the loop).
   */
  datatype Scan = Match(id: Option<int>) | NoMatch | Raised

  /** `SHOPIFY_URL.format(shop=shop)`. */
  function ProductsUrl(shop: string): (u: string)
    ensures |u| == |UrlPrefix| + |shop| + |UrlSuffix|
    ensures u[..|UrlPrefix|] == UrlPrefix && u[|u| - |UrlSuffix|..] == UrlSuffix
  {
    UrlPrefix + shop + UrlSuffix
  }

  /** The shop name sits between the fixed prefix and suffix, so it can be read back. */
  function ShopOf(u: string): string
    requires |u| >= |UrlPrefix| + |UrlSuffix|
  {
    u[|UrlPrefix|..|u| - |UrlSuffix|]
  }

  lemma ProductsUrlRoundTrip(shop: string)
    ensures ShopOf(ProductsUrl(shop)) == shop
  {
    assert ProductsUrl(shop)[|UrlPrefix|..|UrlPrefix| + |shop|] == shop;
  }

  /**
   * The `any(...)` test reads the title only when there is a keyword to
   * compare, so a product without a usable title raises only then.
   */
  predicate TitleRaises(p: Product, keywords: seq<string>) {
    |keywords| > 0 && p.title.None?
  }

  predicate Hit(p: Product, keywords: seq<string>) {
    p.title.Some? && Shopify.TitleMatches(p.title.value, keywords)
  }

  /** The loop body moves past this product. */
  predicate Passes(p: Product, keywords: seq<string>) {
    !TitleRaises(p, keywords) && !Hit(p, keywords)
  }

  /** How the scan ends at a product it does not pass: `product["id"]` raises when absent. */
  function StopAt(p: Product, keywords: seq<string>): (s: Scan)
    requires !Passes(p, keywords)
    ensures s.Match? <==> Hit(p, keywords) && !p.id.Missing?
    ensures s.Match? ==> (s.id.Some? <==> p.id.Id?) && (p.id.Id? ==> s.id.value == p.id.n)
  {
    if TitleRaises(p, keywords) || p.id.Missing? then Raised
    else Match(if p.id.Id? then Some(p.id.n) else None)
  }

  /**
   * Scanning from product `i`: the first product the loop does not pass
   * decides the outcome; with no keywords every product is passed.
   */
  function ScanFrom(products: seq<Product>, keywords: seq<string>, i: nat): (s: Scan)
    requires i <= |products|
    ensures |keywords| == 0 ==> s == NoMatch
    ensures s.NoMatch? <==> forall k :: i <= k < |products| ==> Passes(products[k], keywords)
    ensures !s.NoMatch? ==>
              exists j :: i <= j < |products| && !Passes(products[j], keywords) && s == StopAt(products[j], keywords)
                          && forall k :: i <= k < j ==> Passes(products[k], keywords)
    decreases |products| - i
  {
    if i == |products| then NoMatch
    else if !Passes(products[i], keywords) then StopAt(products[i], keywords)
    else ScanFrom(products, keywords, i + 1)
  }

  /** One loop iteration: only a 200 answer with a `products` key is scanned. */
  function ScanAnswer(a: Answer, keywords: seq<string>): (s: Scan)
    ensures !(a.Http? && a.status == 200) ==> s == NoMatch
    ensures a.Http? && a.status == 200 && a.products.None? ==> s == Raised
  {
    if a.Http? && a.status == 200 then
      if a.products.Some? then ScanFrom(a.products.value, keywords, 0) else Raised
    else NoMatch
  }

  /**
   * A matching product with no available variant is a hit here but not for
   * the src scan, which requires an available variant.
   */
  lemma VariantsDisagreeOnAvailability()
    ensures ScanAnswer(Http(200, Some([Product(Id(7), Some("a"))])), ["a"]) == Match(Some(7))
    ensures Shopify.MonitorScan(Shopify.Http(200, Shopify.Has([Shopify.Product(Shopify.Has(7), Shopify.Has("a"), Shopify.Has([]))])), ["a"])
            == Shopify.NotFound
  {
    var kw: seq<string> := ["a"];
    assert Lower("a") == "a";
    assert OccursAt("a", "a", 0);
    ContainsIff("a", "a");
    assert Contains(Lower("a"), Lower(kw[0]));
    assert Shopify.TitleMatches("a", kw);
  }

  /**
   * The polling loop over the oracle answers. It returns (`returned`) at the
   * first answer with a matching product, giving that product's id (None for
   * a null id); non-200 answers and exceptions never end it. `requests` is the
   * number of answers consumed.
   */
  method MonitorShopifyStock(shop: string, keywords: seq<string>, answers: seq<Answer>)
    returns (returned: bool, id: Option<int>, requests: nat)
    ensures requests <= |answers|
    ensures returned ==> 0 < requests && ScanAnswer(answers[requests - 1], keywords) == Match(id)
    ensures !returned ==> requests == |answers| && id.None?
    ensures forall k :: 0 <= k < |answers| && k < requests - (if returned then 1 else 0) ==>
              !ScanAnswer(answers[k], keywords).Match?
    ensures |keywords| == 0 ==> !returned
  {
    requests := 0;
    while requests < |answers|
      invariant requests <= |answers|
      invariant forall k :: 0 <= k < requests ==> !ScanAnswer(answers[k], keywords).Match?
    {
      var s := ScanAnswer(answers[requests], keywords);
      requests := requests + 1;
      if s.Match? {
        return true, s.id, requests;
      }
    }
    returned, id := false, None;
  }
}
