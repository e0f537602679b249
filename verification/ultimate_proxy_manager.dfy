/**
 * The module-level proxy helpers of SneakerBot_Ultimate/src/proxy_manager.py.
 * Unlike `ProxyManager` they keep comment lines, report an empty list as
 * None, and re-read the file on every call.
 */
module UltimateProxyManager {
  import opened Wrappers
  import opened Text
  import PM = ProxyManager

  /** What `open(proxy_file)` and the read produced. */
  datatype ReadResult = Read(lines: seq<string>) | NotFound | OtherError

  /** A call returns a value, or an uncaught exception escapes it. */
  datatype Outcome<T> = Returned(value: T) | Raised

  /**
   * `load_proxies`: the stripped non-blank lines in order; an empty result
   * and a missing file both give None; any other error propagates.
   */
  function LoadProxies(file: ReadResult): (r: Outcome<Option<seq<string>>>)
    ensures file.OtherError? <==> r.Raised?
    ensures file.NotFound? ==> r == Returned(None)
    ensures file.Read? ==> r.Returned? && (r.value.None? <==> PM.StrippedLines(file.lines, false) == [])
    ensures r.Returned? && r.value.Some? ==> r.value.value == PM.StrippedLines(file.lines, false) && |r.value.value| > 0
  {
    match file
    case Read(lines) =>
      var proxies := PM.StrippedLines(lines, false);
      Returned(if proxies == [] then None else Some(proxies))
    case NotFound => Returned(None)
    case OtherError => Raised
  }

  /** `get_random_proxy`: reads `file` afresh and draws from that read with `pick`. */
  function GetRandomProxy(file: ReadResult, pick: nat): (r: Outcome<Option<string>>)
    ensures r.Raised? <==> file.OtherError?
    ensures r.Returned? && r.value.Some? ==> file.Read? && r.value.value in PM.StrippedLines(file.lines, false)
    ensures file.Read? ==> (r == Returned(None) <==> PM.StrippedLines(file.lines, false) == [])
  {
    match LoadProxies(file)
    case Raised => Raised
    case Returned(None) => Returned(None)
    case Returned(Some(proxies)) => Returned(Some(proxies[pick % |proxies|]))
  }

  /** A blank-only file: the src manager loads an empty list, this variant returns None. */
  lemma VariantsDisagreeOnEmpty()
    ensures PM.Init(PM.Lines([" \n"])) == []
    ensures LoadProxies(Read([" \n"])) == Returned(None)
  {
    assert Strip(" \n") == "";
  }

  /** A comment line: the src manager drops it, this variant keeps it as a proxy. */
  lemma VariantsDisagreeOnComments()
    ensures PM.Init(PM.Lines(["#c"])) == []
    ensures LoadProxies(Read(["#c"])) == Returned(Some(["#c"]))
  {
    assert Strip("#c") == "#c";
    assert StartsWith("#c", "#");
    assert PM.Keep("#c", false);
    assert PM.StrippedFrom(["#c"], false, 1) == [];
    assert PM.StrippedFrom(["#c"], false, 0) == ["#c"];
    assert PM.StrippedLines(["#c"], false) == ["#c"];
  }
}
