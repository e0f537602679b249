/**
 * The short-circuit shape shared by the checkout flows of the storefront
 * bots: a fixed sequence of steps runs in order, each step's outcome comes
 * from an oracle (what the page showed), and the flow stops at the first
 * step that fails.
 */
module Pipeline {
  /** The observable steps of the checkout flows. */
  datatype Step = Login | Search | Navigate(url: string) | Queue | SelectSize | AddToCart | Checkout | EnterDraw

  /**
   * What a step's element lookup gave: the element was found and clicked,
   * no such element was on the page, or the browser raised. The steps catch
   * their own exceptions, so only `Clicked` is a success.
   */
  datatype Probe = Clicked | Absent | Raised

  predicate StepOk(p: Probe) { p.Clicked? }

  /** A step together with the outcome it has if it runs. */
  datatype Planned = Planned(step: Step, ok: bool)

  /** A finished flow: its boolean result and the steps that ran, in order. */
  datatype Run = Run(ok: bool, trace: seq<Step>)

  predicate AllOk(plan: seq<Planned>) {
    forall k :: 0 <= k < |plan| ==> plan[k].ok
  }

  /** Runs the steps in order and stops after the first failure. */
  function RunPlan(plan: seq<Planned>): Run {
    if |plan| == 0 then Run(true, [])
    else if !plan[0].ok then Run(false, [plan[0].step])
    else
      var rest := RunPlan(plan[1..]);
      Run(rest.ok, [plan[0].step] + rest.trace)
  }

  /**
   * The result is true iff every step succeeds; the trace is a prefix of the
   * plan, every step in it but the last succeeded, and on failure the last
   * one is the step that failed.
   */
  lemma {:induction false} RunPlanSpec(plan: seq<Planned>)
    ensures RunPlan(plan).ok <==> AllOk(plan)
    ensures |RunPlan(plan).trace| <= |plan|
    ensures forall k :: 0 <= k < |RunPlan(plan).trace| ==> RunPlan(plan).trace[k] == plan[k].step
    ensures forall k :: 0 <= k < |RunPlan(plan).trace| - 1 ==> plan[k].ok
    ensures RunPlan(plan).ok ==> |RunPlan(plan).trace| == |plan|
    ensures !RunPlan(plan).ok ==> 0 < |RunPlan(plan).trace| && !plan[|RunPlan(plan).trace| - 1].ok
  {
    if |plan| > 0 && plan[0].ok {
      RunPlanSpec(plan[1..]);
      assert forall k :: 1 <= k < |plan| ==> plan[k] == plan[1..][k - 1];
    }
  }

  /** One step in front of a plan: it runs first, and the rest runs only if it succeeds. */
  lemma RunPlanCons(p: Planned, rest: seq<Planned>)
    ensures RunPlan([p] + rest) ==
            (if p.ok then Run(RunPlan(rest).ok, [p.step] + RunPlan(rest).trace) else Run(false, [p.step]))
  {
    assert ([p] + rest)[1..] == rest;
  }

  /** Running `a + b` runs `a`, and runs `b` after it only if all of `a` succeeded. */
  lemma {:induction false} RunPlanAppend(a: seq<Planned>, b: seq<Planned>)
    ensures RunPlan(a + b) ==
            (if AllOk(a) then Run(RunPlan(b).ok, RunPlan(a).trace + RunPlan(b).trace) else RunPlan(a))
  {
    if |a| == 0 {
      assert a + b == b;
    } else {
      assert (a + b)[0] == a[0];
      assert (a + b)[1..] == a[1..] + b;
      if a[0].ok {
        RunPlanAppend(a[1..], b);
        assert AllOk(a) == AllOk(a[1..]) by {
          assert forall k :: 1 <= k < |a| ==> a[k] == a[1..][k - 1];
        }
      }
    }
  }
}
