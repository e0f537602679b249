/**
 * The proxy list of `ProxyManager` (src/proxy_manager.py): loading the list
 * file, random selection and health probing. The file system, `random.choice`
 * and the HTTP probe are oracles.
 */
module ProxyManager {
  import opened Wrappers
  import opened Text

  /** What opening and iterating the proxy file produces. */
  datatype ProxyFile = Missing | Unreadable | Lines(lines: seq<string>)

  /** What the probe request `requests.get(test_url, proxies=...)` produced. */
  datatype Probe = Answered(status: int) | Raised

  /**
   * A line is kept when it is non-blank after stripping and, if comments are
   * dropped, its raw text does not start with '#'.
   */
  predicate Keep(line: string, dropComments: bool) {
    Strip(line) != "" && !(dropComments && StartsWith(line, "#"))
  }

  /** The list comprehension over the file's lines, from line i on. */
  function StrippedFrom(lines: seq<string>, dropComments: bool, i: nat): (r: seq<string>)
    requires i <= |lines|
    ensures |r| <= |lines| - i
    ensures forall k :: 0 <= k < |r| ==> r[k] != ""
    decreases |lines| - i
  {
    if i == |lines| then []
    else if Keep(lines[i], dropComments) then [Strip(lines[i])] + StrippedFrom(lines, dropComments, i + 1)
    else StrippedFrom(lines, dropComments, i + 1)
  }

  /** `[line.strip() for line in f if ...]` */
  function StrippedLines(lines: seq<string>, dropComments: bool): (r: seq<string>)
    ensures forall k :: 0 <= k < |r| ==> r[k] != ""
  {
    StrippedFrom(lines, dropComments, 0)
  }

  /** Positions, from line i on, of the lines that are kept, in file order. */
  function KeptFrom(lines: seq<string>, dropComments: bool, i: nat): (idx: seq<nat>)
    requires i <= |lines|
    decreases |lines| - i
  {
    if i == |lines| then []
    else if Keep(lines[i], dropComments) then [i] + KeptFrom(lines, dropComments, i + 1)
    else KeptFrom(lines, dropComments, i + 1)
  }

  lemma {:induction false} KeptFromValues(lines: seq<string>, dropComments: bool, i: nat)
    requires i <= |lines|
    ensures |StrippedFrom(lines, dropComments, i)| == |KeptFrom(lines, dropComments, i)|
    ensures forall k :: 0 <= k < |StrippedFrom(lines, dropComments, i)| ==>
              KeptFrom(lines, dropComments, i)[k] < |lines|
              && StrippedFrom(lines, dropComments, i)[k] == Strip(lines[KeptFrom(lines, dropComments, i)[k]])
    decreases |lines| - i
  {
    if i < |lines| {
      KeptFromValues(lines, dropComments, i + 1);
    }
  }

  lemma {:induction false} KeptFromOrdered(lines: seq<string>, dropComments: bool, i: nat)
    requires i <= |lines|
    ensures forall k :: 0 <= k < |KeptFrom(lines, dropComments, i)| ==> i <= KeptFrom(lines, dropComments, i)[k] < |lines|
    ensures forall k, m :: 0 <= k < m < |KeptFrom(lines, dropComments, i)| ==>
              KeptFrom(lines, dropComments, i)[k] < KeptFrom(lines, dropComments, i)[m]
    ensures forall j :: i <= j < |lines| ==> (Keep(lines[j], dropComments) <==> j in KeptFrom(lines, dropComments, i))
    decreases |lines| - i
  {
    if i < |lines| {
      KeptFromOrdered(lines, dropComments, i + 1);
    }
  }

  /**
   * The loaded list is exactly the stripped text of the kept lines, in file
   * order: entry k comes from line idx[k], the idx are strictly increasing,
   * and a line position occurs in idx iff that line is kept.
   */
  lemma StrippedLinesSpec(lines: seq<string>, dropComments: bool)
    ensures var r := StrippedLines(lines, dropComments);
            var idx := KeptFrom(lines, dropComments, 0);
            && |r| == |idx|
            && (forall k :: 0 <= k < |r| ==> idx[k] < |lines| && r[k] == Strip(lines[idx[k]]))
            && (forall k, m :: 0 <= k < m < |idx| ==> idx[k] < idx[m])
            && (forall j :: 0 <= j < |lines| ==> (Keep(lines[j], dropComments) <==> j in idx))
  {
    KeptFromValues(lines, dropComments, 0);
    KeptFromOrdered(lines, dropComments, 0);
  }

  /**
   * `load_proxies`: a readable file replaces the list with its kept lines;
   * a missing file or a read error leaves the previous list in place.
   */
  function LoadProxies(previous: seq<string>, file: ProxyFile): (r: seq<string>)
    ensures file.Lines? ==> r == StrippedLines(file.lines, true)
    ensures !file.Lines? ==> r == previous
  {
    match file
    case Lines(lines) => StrippedLines(lines, true)
    case _ => previous
  }

  /** `ProxyManager.__init__`: the list starts empty and is loaded once. */
  function Init(file: ProxyFile): (r: seq<string>)
    ensures !file.Lines? ==> r == []
    ensures forall k :: 0 <= k < |r| ==> r[k] != ""
  {
    LoadProxies([], file)
  }

  /**
   * The '#' test reads the raw line, so an indented comment survives loading,
   * stripped of its indentation.
   */
  lemma IndentedCommentKept()
    ensures Init(Lines([" #x"])) == ["#x"]
  {
    assert TrimLeft(" #x") == "#x";
    assert TrimRight("#x") == "#x";
  }

  /** `get_random_proxy`, with `random.choice` drawing the oracle index `pick`. */
  function GetRandomProxy(proxies: seq<string>, pick: nat): (r: Option<string>)
    ensures r.None? <==> |proxies| == 0
    ensures r.Some? ==> r.value in proxies
    ensures pick < |proxies| ==> r == Some(proxies[pick])
  {
    if |proxies| == 0 then None else Some(proxies[pick % |proxies|])
  }

  /** `test_proxy`: only an answered request with status 200 counts; an exception is a failure. */
  predicate TestProxy(probe: Probe) {
    probe.Answered? && probe.status == 200
  }

  lemma TestProxyIff(probe: Probe)
    ensures TestProxy(probe) <==> probe == Answered(200)
    ensures probe.Raised? ==> !TestProxy(probe)
  {
  }

  /** At attempt k the drawn proxy was present, non-empty and passed its probe. */
  predicate AttemptSucceeds(proxies: seq<string>, picks: seq<nat>, probes: seq<Probe>, k: nat)
    requires k < |picks| && k < |probes|
  {
    var p := GetRandomProxy(proxies, picks[k]);
    p.Some? && p.value != "" && TestProxy(probes[k])
  }

  /** An attempt probes the network only if it drew a non-empty proxy. */
  predicate AttemptTests(proxies: seq<string>, picks: seq<nat>, k: nat)
    requires k < |picks|
  {
    var p := GetRandomProxy(proxies, picks[k]);
    p.Some? && p.value != ""
  }

  /** Number of attempts among the first n that send a probe. */
  function ProbesSent(proxies: seq<string>, picks: seq<nat>, n: nat): (c: nat)
    requires n <= |picks|
    ensures c <= n
  {
    if n == 0 then 0 else ProbesSent(proxies, picks, n - 1) + (if AttemptTests(proxies, picks, n - 1) then 1 else 0)
  }

  /**
   * `get_working_proxy(max_attempts)`: attempt k draws with `picks[k]` and,
   * when it drew a proxy, probes it with answer `probes[k]`. Returns the
   * first proxy that passes, or None after `max_attempts` failed attempts.
   */
  method GetWorkingProxy(proxies: seq<string>, maxAttempts: int, picks: seq<nat>, probes: seq<Probe>)
    returns (r: Option<string>, attempts: nat, tests: nat)
    requires maxAttempts <= |picks| && maxAttempts <= |probes|
    ensures attempts <= (if maxAttempts < 0 then 0 else maxAttempts)
    ensures tests == ProbesSent(proxies, picks, attempts) && tests <= attempts
    ensures forall k :: 0 <= k < attempts - 1 ==> !AttemptSucceeds(proxies, picks, probes, k)
    ensures r.Some? ==> attempts > 0 && AttemptSucceeds(proxies, picks, probes, attempts - 1)
                        && r == GetRandomProxy(proxies, picks[attempts - 1]) && r.value in proxies
    ensures r.None? ==> attempts == (if maxAttempts < 0 then 0 else maxAttempts)
                        && forall k :: 0 <= k < attempts ==> !AttemptSucceeds(proxies, picks, probes, k)
  {
    var bound := if maxAttempts < 0 then 0 else maxAttempts;
    attempts := 0;
    tests := 0;
    while attempts < bound
      invariant attempts <= bound
      invariant tests == ProbesSent(proxies, picks, attempts)
      invariant forall k :: 0 <= k < attempts ==> !AttemptSucceeds(proxies, picks, probes, k)
    {
      var proxy := GetRandomProxy(proxies, picks[attempts]);
      attempts := attempts + 1;
      if proxy.Some? && proxy.value != "" {
        tests := tests + 1;
        if TestProxy(probes[attempts - 1]) {
          return proxy, attempts, tests;
        }
      }
    }
    return None, attempts, tests;
  }
}
