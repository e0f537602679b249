/**
 * `StockMonitor` (src/stock_monitor.py): the watch list, the page-text stock
 * test and one pass of the monitoring loop with its edge-triggered restock
 * alerts. Page answers and the clock are oracles; the Discord call is
 * recorded as a notification instead of being sent.
 */
module StockMonitor {
  import opened Wrappers
  import opened Text

  /** The out-of-stock phrases looked for in the lowercased page. */
  const Indicators: seq<string> := ["out of stock", "sold out", "unavailable", "not available"]

  datatype Item = Item(platform: string, url: string, keywords: seq<string>, lastCheck: Option<nat>, inStock: bool)

  /** The answer to `GET url`: status and text, or an exception. */
  datatype PageAnswer = Page(status: int, body: string) | Failed

  /** A restock alert (and the notification sent for it) names the item's platform and URL. */
  datatype Alert = Alert(platform: string, url: string)

  datatype PassResult = PassResult(items: seq<Item>, alerts: seq<Alert>, notified: seq<Alert>)

  /** `add_monitor`: appends one entry, out of stock and never checked; a falsy keyword list becomes []. */
  function AddMonitor(items: seq<Item>, platform: string, url: string, keywords: Option<seq<string>>)
    : (r: seq<Item>)
    ensures |r| == |items| + 1 && r[..|items|] == items
    ensures r[|items|] == Item(platform, url, if keywords.Some? then keywords.value else [], None, false)
  {
    items + [Item(platform, url, if keywords.Some? && |keywords.value| > 0 then keywords.value else [], None, false)]
  }

  predicate MentionsIndicator(content: string) {
    exists k :: 0 <= k < |Indicators| && Contains(content, Indicators[k])
  }

  /** `check_stock_generic`: in stock iff status 200 and the lowercased body has no out-of-stock phrase. */
  predicate CheckStock(answer: PageAnswer) {
    answer.Page? && answer.status == 200 && !MentionsIndicator(Lower(answer.body))
  }

  /** The stock test does not depend on letter case. */
  lemma CheckStockIgnoresCase(status: int, body: string)
    ensures CheckStock(Page(status, Lower(body))) == CheckStock(Page(status, body))
  {
    assert Lower(Lower(body)) == Lower(body);
  }

  predicate Rises(item: Item, answer: PageAnswer) {
    CheckStock(answer) && !item.inStock
  }

  function AlertOf(item: Item): Alert {
    Alert(item.platform, item.url)
  }

  /**
   * Every item after the pass: `in_stock` is the latest result and
   * `last_check` the clock reading taken right after that item's check.
   */
  function Checked(items: seq<Item>, answers: seq<PageAnswer>, clock: seq<nat>): (r: seq<Item>)
    requires |answers| == |items| && |clock| == |items|
    ensures |r| == |items|
  {
    seq(|items|, k requires 0 <= k < |items| => items[k].(inStock := CheckStock(answers[k]), lastCheck := Some(clock[k])))
  }

  /** The restock alerts of one pass: one per rising item, in watch-list order. */
  function Alerts(items: seq<Item>, answers: seq<PageAnswer>): seq<Alert>
    requires |answers| == |items|
    decreases |items|
  {
    if |items| == 0 then []
    else
      var n := |items| - 1;
      Alerts(items[..n], answers[..n]) + (if Rises(items[n], answers[n]) then [AlertOf(items[n])] else [])
  }

  /** The alerts of one pass are exactly those of the rising items. */
  lemma {:induction false} AlertsMembers(items: seq<Item>, answers: seq<PageAnswer>)
    requires |answers| == |items|
    ensures |Alerts(items, answers)| <= |items|
    ensures forall a :: a in Alerts(items, answers) ==>
              exists k :: 0 <= k < |items| && Rises(items[k], answers[k]) && a == AlertOf(items[k])
    ensures forall k :: 0 <= k < |items| && Rises(items[k], answers[k]) ==> AlertOf(items[k]) in Alerts(items, answers)
    decreases |items|
  {
    if |items| > 0 {
      var n := |items| - 1;
      AlertsMembers(items[..n], answers[..n]);
      assert forall k :: 0 <= k < n ==> items[..n][k] == items[k] && answers[..n][k] == answers[k];
    }
  }

  /** The restock alerts of one pass, in watch-list order. */
  function Fired(items: seq<Item>, answers: seq<PageAnswer>): (r: seq<Alert>)
    requires |answers| == |items|
    ensures |r| <= |items|
    ensures forall a :: a in r ==> exists k :: 0 <= k < |items| && Rises(items[k], answers[k]) && a == AlertOf(items[k])
    ensures forall k :: 0 <= k < |items| && Rises(items[k], answers[k]) ==> AlertOf(items[k]) in r
    ensures |items| == 1 ==> r == if Rises(items[0], answers[0]) then [AlertOf(items[0])] else []
  {
    AlertsMembers(items, answers);
    Alerts(items, answers)
  }

  /** `Alerts` of a watch list split in two: the first part's alerts, then the second's. */
  lemma {:induction false} AlertsAppend(xs: seq<Item>, xa: seq<PageAnswer>, ys: seq<Item>, ya: seq<PageAnswer>)
    requires |xa| == |xs| && |ya| == |ys|
    ensures Alerts(xs + ys, xa + ya) == Alerts(xs, xa) + Alerts(ys, ya)
    decreases |ys|
  {
    if |ys| == 0 {
      assert xs + ys == xs && xa + ya == xa;
    } else {
      var n := |ys| - 1;
      AlertsAppend(xs, xa, ys[..n], ya[..n]);
      assert (xs + ys)[..|xs| + n] == xs + ys[..n];
      assert (xa + ya)[..|xa| + n] == xa + ya[..n];
    }
  }

  /**
   * The alerts of a watch list split in two are those of the first part
   * followed by those of the second; with the one-item case of `Fired`, the
   * alerts come in watch-list order, one per rising item.
   */
  lemma FiredAppend(xs: seq<Item>, xa: seq<PageAnswer>, ys: seq<Item>, ya: seq<PageAnswer>)
    requires |xa| == |xs| && |ya| == |ys|
    ensures Fired(xs + ys, xa + ya) == Fired(xs, xa) + Fired(ys, ya)
  {
    AlertsAppend(xs, xa, ys, ya);
  }

  /**
   * One pass of `start_monitoring` over the watch list: every item's
   * `in_stock` becomes its latest result and `last_check` the clock reading
   * taken for it (`datetime.now()` is read once per item);
   * an alert fires exactly for the items going from out of stock to in
   * stock, and is also notified iff `notify_on_restock` is on.
   */
  function Pass(items: seq<Item>, answers: seq<PageAnswer>, notify: bool, clock: seq<nat>): (r: PassResult)
    requires |answers| == |items| && |clock| == |items|
    ensures |r.items| == |items|
    ensures forall k :: 0 <= k < |items| ==>
              r.items[k] == items[k].(inStock := CheckStock(answers[k]), lastCheck := Some(clock[k]))
    ensures r.notified == (if notify then r.alerts else [])
    ensures forall a :: a in r.alerts ==> exists k :: 0 <= k < |items| && Rises(items[k], answers[k]) && a == AlertOf(items[k])
    ensures forall k :: 0 <= k < |items| && Rises(items[k], answers[k]) ==> AlertOf(items[k]) in r.alerts
    ensures |r.alerts| <= |items|
  {
    var alerts := Fired(items, answers);
    PassResult(Checked(items, answers, clock), alerts, if notify then alerts else [])
  }

  /** Alerts are edge-triggered: a second pass seeing the same pages fires none. */
  lemma NoRepeatedAlert(items: seq<Item>, answers: seq<PageAnswer>, notify: bool, clock: seq<nat>, later: seq<nat>)
    requires |answers| == |items| && |clock| == |items| && |later| == |items|
    ensures Pass(Pass(items, answers, notify, clock).items, answers, notify, later).alerts == []
  {
    var first := Pass(items, answers, notify, clock);
    assert forall k :: 0 <= k < |items| ==> first.items[k].inStock == CheckStock(answers[k]);
    NoRiseNoAlert(first.items, answers);
  }

  lemma {:induction false} NoRiseNoAlert(items: seq<Item>, answers: seq<PageAnswer>)
    requires |answers| == |items|
    requires forall k :: 0 <= k < |items| ==> !Rises(items[k], answers[k])
    ensures Fired(items, answers) == []
    decreases |items|
  {
    if |items| > 0 {
      var n := |items| - 1;
      NoRiseNoAlert(items[..n], answers[..n]);
    }
  }
}
