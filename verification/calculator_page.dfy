/**
 * The calculator as the page holds it: six input fields, the result fields with
 * the summary, and whether the results panel is shown.  `calculateROI` and
 * `resetCalculator` overwrite these fields in place.
 */
module CalculatorPage {
  import opened Estimator

  /** The defaults `resetCalculator` writes into the six input fields. */
  const DefaultInputs: RawInputs := RawInputs(
    Entered(1500.0), Entered(30.0), Entered(35000.0),
    Entered(5.0), Entered(0.30), Entered(180.0))

  /** The prompt the summary shows until the visitor calculates. */
  const PromptText: string := "Enter your numbers and click \"Calculate opportunity\"."

  /** The result fields after a reset: "R0", "0.0", "0 hrs", "R0", "0.0×" and the prompt. */
  const ZeroView: View := View(0, 0, 0, 0, 0, Prompt(PromptText))

  /** Everything the calculator reads or writes on the page. */
  datatype PageState = PageState(inputs: RawInputs, view: View, resultsShown: bool)

  /** The page after `resetCalculator`. */
  function AfterReset(s: PageState): (t: PageState)
    ensures t.inputs == DefaultInputs && t.view == ZeroView
    ensures t.resultsShown == s.resultsShown
  {
    s.(inputs := DefaultInputs, view := ZeroView)
  }

  /** The page after `calculateROI`. */
  function AfterCalculate(s: PageState): (t: PageState)
    ensures t.inputs == s.inputs && t.resultsShown
    ensures t.view == Render(Calculate(ReadInputs(s.inputs)))
  {
    s.(view := Render(Calculate(ReadInputs(s.inputs))), resultsShown := true)
  }

  class Calculator {
    var inputs: RawInputs
    var view: View
    var resultsShown: bool

    function State(): PageState
      reads this
    {
      PageState(inputs, view, resultsShown)
    }

    /** The page as loaded: the given field contents, no results yet. */
    constructor (initial: RawInputs, initialView: View)
      ensures State() == PageState(initial, initialView, false)
    {
      inputs, view, resultsShown := initial, initialView, false;
    }

    /** `resetCalculator`: default inputs and zeroed results, whatever was there before. */
    method Reset()
      modifies this
      ensures State() == AfterReset(old(State()))
      ensures inputs == DefaultInputs && view == ZeroView
    {
      inputs := DefaultInputs;
      view := ZeroView;
    }

    /** `calculateROI`: reads the inputs, writes the rounded results and shows the panel. */
    method CalculateRoi()
      modifies this
      ensures State() == AfterCalculate(old(State()))
      ensures inputs == old(inputs) && resultsShown
      ensures DealsFloor * 10.0 - 0.5 < view.dealsTenths as real
      ensures view.summary == Report(view.dealsTenths, view.money, view.hours, view.roiTenths)
    {
      var e := Calculate(ReadInputs(inputs));
      view := Render(e);
      resultsShown := true;
    }
  }

  /** Resetting twice leaves the page as resetting once does. */
  lemma ResetIdempotent(s: PageState)
    ensures AfterReset(AfterReset(s)) == AfterReset(s)
  {
  }

  /** Two pages that differ only in their fields end up identical after a reset. */
  lemma ResetForgetsFields(s: PageState, t: PageState)
    requires s.resultsShown == t.resultsShown
    ensures AfterReset(s) == AfterReset(t)
  {
  }

  /** Calculating twice shows the same results as calculating once. */
  lemma CalculateIdempotent(s: PageState)
    ensures AfterCalculate(AfterCalculate(s)) == AfterCalculate(s)
  {
  }

  /**
   * The default figures (rate 0.06 at 180 minutes, boost 1.105): 1.989 deals,
   * R69,615, R80,057 risk-adjusted, 70 hours and an ROI of 10.7.
   */
  lemma DefaultsEstimate()
    ensures Calculate(ReadInputs(DefaultInputs)) == Estimate(1.989, 69615.0, 80057.25, 70.0, 69615.0 / 6500.0)
    ensures Render(Calculate(ReadInputs(DefaultInputs))) == View(69615, 20, 70, 80057, 107, Report(20, 69615, 70, 107))
  {
  }

  /** Reset followed by calculate shows the default figures' results, whatever the page held. */
  lemma ResetThenCalculate(s: PageState)
    ensures AfterCalculate(AfterReset(s)).view == View(69615, 20, 70, 80057, 107, Report(20, 69615, 70, 107))
    ensures AfterCalculate(AfterReset(s)).resultsShown
  {
  }
}
