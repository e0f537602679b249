/**
 * The count-bounded CAPTCHA solver of SneakerBot_Ultimate/src/captcha_solver.py.
 * No exception is caught there, so a failed request or a missing JSON key
 * makes the whole call raise; the model returns `Raised` for that.
 */
module UltimateCaptchaSolver {
  import opened Wrappers

  const PollLimit := 10

  /** A decoded JSON scalar. Numbers are kept as reals, so `1` and `1.0` both appear as 1. */
  datatype Json = JNull | JBool(b: bool) | JNum(x: real) | JStr(s: string)

  /**
   * A decoded JSON object seen through its two keys (`None` when the key is
   * absent, `Some(JNull)` when it is present and null), or an exception while
   * obtaining it.
   */
  datatype Reply = Object(status: Option<Json>, request: Option<Json>) | Failed

  /** What the call gives back: a Python value (`None` as `Returned(None)`), or an exception. */
  datatype Result = Returned(token: Option<Json>) | Raised

  /** Python's `v == 1` on a decoded JSON value: `True` and `1.0` compare equal to 1. */
  predicate IsOne(v: Json) {
    (v.JNum? && v.x == 1.0) || (v.JBool? && v.b)
  }

  /** The Python value of a JSON value: null decodes to `None`. */
  function Py(v: Json): (r: Option<Json>)
    ensures r.None? <==> v.JNull?
    ensures r.Some? ==> r.value == v
  {
    if v.JNull? then None else Some(v)
  }

  /** A submission with status 1 whose request id key is present (its value may be null). */
  predicate Accepted(submit: Reply) {
    submit.Object? && submit.status.Some? && IsOne(submit.status.value) && submit.request.Some?
  }

  /** A submission that carries a status other than 1, null included. */
  predicate Refused(submit: Reply) {
    submit.Object? && submit.status.Some? && !IsOne(submit.status.value)
  }

  /** A poll answer whose status is present and not 1: the loop sleeps and goes on. */
  predicate Pending(reply: Reply) {
    reply.Object? && reply.status.Some? && !IsOne(reply.status.value)
  }

  /** A poll answer with status 1 and the request key present: the loop returns its value. */
  predicate Answers(reply: Reply) {
    reply.Object? && reply.status.Some? && IsOne(reply.status.value) && reply.request.Some?
  }

  /**
   * `solve_captcha(site_key, page_url, manual)`: manual mode returns what the
   * operator typed; otherwise one submission and at most ten polls, the
   * first status-1 poll giving the token.
   */
  method SolveCaptcha(manual: bool, typed: string, submit: Reply, polls: seq<Reply>) returns (r: Result, made: nat)
    requires |polls| == PollLimit
    ensures made <= PollLimit
    ensures manual ==> r == Returned(Some(JStr(typed))) && made == 0
    ensures !manual && Refused(submit) ==> r == Returned(None) && made == 0
    ensures !manual && !Accepted(submit) && !Refused(submit) ==> r.Raised? && made == 0
    ensures forall k :: 0 <= k < made - 1 ==> Pending(polls[k])
    ensures !manual && Accepted(submit) ==>
              (made == PollLimit && Pending(polls[PollLimit - 1]) && r == Returned(None)) ||
              (0 < made && !Pending(polls[made - 1]) &&
               r == (if Answers(polls[made - 1]) then Returned(Py(polls[made - 1].request.value)) else Raised))
    ensures !manual && Accepted(submit) ==>
              ((made == PollLimit && Pending(polls[PollLimit - 1]))
                 <==> forall k :: 0 <= k < PollLimit ==> Pending(polls[k]))
  {
    if manual {
      return Returned(Some(JStr(typed))), 0;
    }
    if Refused(submit) {
      return Returned(None), 0;
    }
    if !Accepted(submit) {
      return Raised, 0;
    }
    var i := 0;
    while i < PollLimit
      invariant 0 <= i <= PollLimit
      invariant forall k :: 0 <= k < i ==> Pending(polls[k])
    {
      var reply := polls[i];
      if !reply.Object? || reply.status.None? {
        return Raised, i + 1;
      }
      if IsOne(reply.status.value) {
        if reply.request.None? {
          return Raised, i + 1;
        }
        return Returned(Py(reply.request.value)), i + 1;
      }
      i := i + 1;
    }
    return Returned(None), PollLimit;
  }
}
