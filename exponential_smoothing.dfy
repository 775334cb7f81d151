/**
 * The exponential smoothing walkthrough
 * (src/ExponentialSmoothingVisualization.js): eight steps, a lap counter, a
 * math-details toggle, a description prefixed with the lap, one link per step.
 */
module ExponentialSmoothingVisualization {
  import opened Js
  import opened Navigation
  import opened Glossary
  import opened Content

  const Topic := Config(8, true, true)

  /** The step names, in picker order (icons and colours are left out). */
  const StepName0: string := "Data Input"
  const StepName1: string := "Parameter Optimization"
  const StepName2: string := "Initial Forecast"
  const StepName3: string := "Calculate Error"
  const StepName4: string := "Update Forecast"
  const StepName5: string := "Handle Trend & Seasonality"
  const StepName6: string := "Iterate Process"
  const StepName7: string := "Final Forecast"
  const StepNames: seq<string> := [StepName0, StepName1, StepName2, StepName3, StepName4, StepName5, StepName6, StepName7]

  /** The `descriptions` table of `getStepDescription`. */
  const Description0: string := "Loading time series data with timestamps and corresponding values. This step prepares the dataset for analysis and forecasting."
  const Description1: string := "Performing grid search to find optimal parameters for the model, including trend type, seasonality, damping factor, and seasonal period. The best model is selected based on the Akaike Information Criterion (AIC)."
  const Description2: string := "Making an initial forecast using the selected model configuration. This provides a starting point for the iterative process."
  const Description3: string := "Calculating the error between the actual value and the forecast. This error will be used to update future forecasts."
  const Description4: string := "Updating the forecast using a weighted average of the previous forecast and the most recent observation. The weight is determined by the smoothing parameter α. This step demonstrates the 'exponential' nature of the method, as it gives more weight to recent observations."
  const Description5: string := "Incorporating trend and seasonality components based on the optimized model configuration. This may include additive or multiplicative trends and seasonality."
  const Description6: string := "Iterating the exponential smoothing process over multiple time steps. For each step, we calculate the forecast error, update the forecast using the smoothing equations, and prepare for the next time step. This process continues for all available data points, continuously refining the model's parameters and improving forecast accuracy."
  const Description7: string := "Generating the final forecast for future time periods using the trained model, incorporating all learned components (level, trend, and seasonality)."
  const Descriptions: seq<string> := [Description0, Description1, Description2, Description3, Description4, Description5, Description6, Description7]

  /** The `concepts` table of `getStepMathConcept`. */
  const MathConcept0: string := "Time series: Y = {y₁, y₂, ..., yₙ}\n       where yₜ is the observation at time t"
  const MathConcept1: string := "Model Selection: min(AIC) = 2k - 2ln(L)\n       where k is the number of parameters and L is the likelihood"
  const MathConcept2: string := "Initial forecast: F₁ = l₀ + b₀ + s₀\n       where l₀ is initial level, b₀ is initial trend, s₀ is initial seasonal component"
  const MathConcept3: string := "Forecast error: eₜ = yₜ - Fₜ"
  const MathConcept4: string := "Updated forecast: \n       Simple Exponential Smoothing: Fₜ₊₁ = αyₜ + (1 - α)Fₜ\n       where α is the smoothing parameter (0 < α < 1)\n       \n       For models with trend and seasonality:\n       Level: lₜ = α(yₜ - sₜ₋ₘ) + (1 - α)(lₜ₋₁ + bₜ₋₁)\n       Trend: bₜ = β(lₜ - lₜ₋₁) + (1 - β)bₜ₋₁\n       Seasonal: sₜ = γ(yₜ - lₜ) + (1 - γ)sₜ₋ₘ\n       where β and γ are additional smoothing parameters"
  const MathConcept5: string := "Trend types: Additive: lₜ + bₜ, Multiplicative: lₜ * bₜ\n       Seasonality types: Additive: + sₜ, Multiplicative: * sₜ"
  const MathConcept6: string := "Iterative process:\n       For t = 1 to n:\n         Fₜ = lₜ₋₁ + bₜ₋₁ + sₜ₋ₘ (for additive model)\n         Update l, b, s"
  const MathConcept7: string := "Final forecast:\n       For h steps ahead:\n       Fₙ₊ₕ = lₙ + hbₙ + sₙ₊ₕ₋ₘ (for additive model)\n       where n is the last observed time point, m is the seasonal period"
  const MathConcepts: seq<string> := [MathConcept0, MathConcept1, MathConcept2, MathConcept3, MathConcept4, MathConcept5, MathConcept6, MathConcept7]

  /** The `tooltips` table of `getStepTooltip`. */
  const Tooltip0: string := "Time series data consists of a sequence of observations indexed in time order."
  const Tooltip1: string := "The grid search helps find the best combination of parameters for the model."
  const Tooltip2: string := "The initial forecast provides a starting point for the exponential smoothing process."
  const Tooltip3: string := "The forecast error measures the difference between the actual and predicted values."
  const Tooltip4: string := "The forecast is updated by combining the previous forecast and the most recent observation."
  const Tooltip5: string := "Trend and seasonality components capture long-term progression and recurring patterns in the data."
  const Tooltip6: string := "The process iterates through all time points, continuously updating the forecast."
  const Tooltip7: string := "The final forecast extends the model's predictions into the future."
  const Tooltips: seq<string> := [Tooltip0, Tooltip1, Tooltip2, Tooltip3, Tooltip4, Tooltip5, Tooltip6, Tooltip7]

  /** The `links` table of `getLearnMoreLink`. */
  const Link0: string := "https://otexts.com/fpp3/ts-objects.html"
  const Link1: string := "https://otexts.com/fpp3/expsmooth.html#ets-models"
  const Link2: string := "https://otexts.com/fpp3/ses.html"
  const Link3: string := "https://otexts.com/fpp3/ses.html#ses-intervals"
  const Link4: string := "https://otexts.com/fpp3/ses.html#ses-estimation"
  const Link5: string := "https://otexts.com/fpp3/taxonomy.html"
  const Link6: string := "https://otexts.com/fpp3/ses.html#ses-estimation"
  const Link7: string := "https://otexts.com/fpp3/forecasting.html#forecasting-using-ets-models"
  const Links: seq<string> := [Link0, Link1, Link2, Link3, Link4, Link5, Link6, Link7]

  /** The glossary's entries, one constant each. */
  const Term0: Term := ("Y", "Time series data")
  const Term1: Term := ("yₜ", "Observation at time t")
  const Term2: Term := ("AIC", "Akaike Information Criterion")
  const Term3: Term := ("L", "Likelihood of the model")
  const Term4: Term := ("Fₜ", "Forecast at time t")
  const Term5: Term := ("lₜ", "Level component at time t")
  const Term6: Term := ("bₜ", "Trend component at time t")
  const Term7: Term := ("sₜ", "Seasonal component at time t")
  const Term8: Term := ("eₜ", "Forecast error at time t")
  const Term9: Term := ("α", "Smoothing parameter for level")
  const Term10: Term := ("β", "Smoothing parameter for trend")
  const Term11: Term := ("γ", "Smoothing parameter for seasonality")
  const Term12: Term := ("m", "Seasonal period")
  const Term13: Term := ("n", "Number of observations")
  const Term14: Term := ("h", "Forecast horizon")

  /** The glossary `allTerms`, in insertion order. */
  const AllTerms: Table := [Term0, Term1, Term2, Term3, Term4, Term5, Term6, Term7, Term8, Term9, Term10, Term11, Term12, Term13, Term14]

  /** The `relevantTerms` key lists, one per step. */
  const RelevantTerms: seq<seq<string>> := [
    ["Y", "yₜ"],
    ["AIC", "L"],
    ["Fₜ", "lₜ", "bₜ", "sₜ"],
    ["eₜ", "yₜ", "Fₜ"],
    ["lₜ", "bₜ", "sₜ", "α", "β", "γ"],
    ["lₜ", "bₜ", "sₜ"],
    ["Fₜ", "lₜ", "bₜ", "sₜ"],
    ["Fₜ", "lₜ", "bₜ", "sₜ", "n", "h", "m"]
  ]

  /**
   * `getStepDescription(step, iterations)`: "Iteration N: " and the step's
   * text; the lap number and the text can be read back from the result.
   */
  function GetStepDescription(step: int, iterations: nat): (r: string)
    ensures ReadIterationDescription(r) ==
      Reading(iterations, if 0 <= step < Topic.steps then Descriptions[step] else "undefined")
  {
    IterationDescriptionReadsBack(Descriptions, step, iterations);
    IterationDescription(Descriptions, step, iterations)
  }

  function GetStepMathConcept(step: int): (r: Lookup<string>)
    ensures r.Defined? <==> 0 <= step < Topic.steps
    ensures r.Defined? ==> r.value == MathConcepts[step]
  {
    Index(MathConcepts, step)
  }

  function GetStepTooltip(step: int): (r: Lookup<string>)
    ensures r.Defined? <==> 0 <= step < Topic.steps
    ensures r.Defined? ==> r.value == Tooltips[step]
  {
    Index(Tooltips, step)
  }

  /** `getLearnMoreLink(step)`: one link per step. */
  function GetLearnMoreLink(step: int): (r: Lookup<string>)
    ensures r.Defined? <==> 0 <= step < Topic.steps
    ensures r.Defined? ==> r.value == Links[step]
  {
    Index(Links, step)
  }

  /** `getRelevantMathTerms(step)`: the filtered glossary, undefined past the key lists. */
  function GetRelevantMathTerms(step: int): (r: Lookup<Table>)
    ensures r.Defined? <==> 0 <= step < Topic.steps
    ensures r.Defined? ==> r.value == Filter(AllTerms, RelevantTerms[step])
  {
    RelevantFor(AllTerms, RelevantTerms, step)
  }

  /**
   * The key of a step holds exactly the glossary entries whose key the step
   * lists, in glossary order.
   */
  lemma RelevantTermsMeetSpec(step: nat)
    requires step < Topic.steps
    ensures IsSubsequence(GetRelevantMathTerms(step).value, AllTerms)
    ensures forall e :: e in GetRelevantMathTerms(step).value <==> e in AllTerms && e.0 in RelevantTerms[step]
  {
    FilterMeetsSpec(AllTerms, RelevantTerms[step]);
  }

  /** The picker has one tile per step, and every step has a key list. */
  lemma OneTileAndOneKeyListPerStep()
    ensures |StepNames| == Topic.steps && |RelevantTerms| == Topic.steps
  {
  }

  /** Step 0 lists 'Y' and 'yₜ'; the key shows 'Y' and 'yₜ'. */
  lemma TermsAtStep0()
    ensures GetRelevantMathTerms(0) == Defined([("Y", "Time series data"), ("yₜ", "Observation at time t")])
  {
    var w := RelevantTerms[0];
    assert FilterFrom(AllTerms, w, 15) == [];
    assert FilterFrom(AllTerms, w, 14) == FilterFrom(AllTerms, w, 15);
    assert FilterFrom(AllTerms, w, 13) == FilterFrom(AllTerms, w, 14);
    assert FilterFrom(AllTerms, w, 12) == FilterFrom(AllTerms, w, 13);
    assert FilterFrom(AllTerms, w, 11) == FilterFrom(AllTerms, w, 12);
    assert FilterFrom(AllTerms, w, 10) == FilterFrom(AllTerms, w, 11);
    assert FilterFrom(AllTerms, w, 9) == FilterFrom(AllTerms, w, 10);
    assert FilterFrom(AllTerms, w, 8) == FilterFrom(AllTerms, w, 9);
    assert FilterFrom(AllTerms, w, 7) == FilterFrom(AllTerms, w, 8);
    assert FilterFrom(AllTerms, w, 6) == FilterFrom(AllTerms, w, 7);
    assert FilterFrom(AllTerms, w, 5) == FilterFrom(AllTerms, w, 6);
    assert FilterFrom(AllTerms, w, 4) == FilterFrom(AllTerms, w, 5);
    assert FilterFrom(AllTerms, w, 3) == FilterFrom(AllTerms, w, 4);
    assert FilterFrom(AllTerms, w, 2) == FilterFrom(AllTerms, w, 3);
    assert FilterFrom(AllTerms, w, 1) == [Term1] + FilterFrom(AllTerms, w, 2);
    assert FilterFrom(AllTerms, w, 0) == [Term0] + FilterFrom(AllTerms, w, 1);
    assert Filter(AllTerms, w) == [("Y", "Time series data"), ("yₜ", "Observation at time t")];
  }

  /** Step 1 lists 'AIC' and 'L'; the key shows 'AIC' and 'L'. */
  lemma TermsAtStep1()
    ensures GetRelevantMathTerms(1) == Defined([("AIC", "Akaike Information Criterion"), ("L", "Likelihood of the model")])
  {
    var w := RelevantTerms[1];
    assert FilterFrom(AllTerms, w, 15) == [];
    assert FilterFrom(AllTerms, w, 14) == FilterFrom(AllTerms, w, 15);
    assert FilterFrom(AllTerms, w, 13) == FilterFrom(AllTerms, w, 14);
    assert FilterFrom(AllTerms, w, 12) == FilterFrom(AllTerms, w, 13);
    assert FilterFrom(AllTerms, w, 11) == FilterFrom(AllTerms, w, 12);
    assert FilterFrom(AllTerms, w, 10) == FilterFrom(AllTerms, w, 11);
    assert FilterFrom(AllTerms, w, 9) == FilterFrom(AllTerms, w, 10);
    assert FilterFrom(AllTerms, w, 8) == FilterFrom(AllTerms, w, 9);
    assert FilterFrom(AllTerms, w, 7) == FilterFrom(AllTerms, w, 8);
    assert FilterFrom(AllTerms, w, 6) == FilterFrom(AllTerms, w, 7);
    assert FilterFrom(AllTerms, w, 5) == FilterFrom(AllTerms, w, 6);
    assert FilterFrom(AllTerms, w, 4) == FilterFrom(AllTerms, w, 5);
    assert FilterFrom(AllTerms, w, 3) == [Term3] + FilterFrom(AllTerms, w, 4);
    assert FilterFrom(AllTerms, w, 2) == [Term2] + FilterFrom(AllTerms, w, 3);
    assert FilterFrom(AllTerms, w, 1) == FilterFrom(AllTerms, w, 2);
    assert FilterFrom(AllTerms, w, 0) == FilterFrom(AllTerms, w, 1);
    assert Filter(AllTerms, w) == [("AIC", "Akaike Information Criterion"), ("L", "Likelihood of the model")];
  }

  /** Step 2 lists 'Fₜ', 'lₜ', 'bₜ' and 'sₜ'; the key shows 'Fₜ', 'lₜ', 'bₜ' and 'sₜ'. */
  lemma TermsAtStep2()
    ensures GetRelevantMathTerms(2) == Defined([("Fₜ", "Forecast at time t"), ("lₜ", "Level component at time t"), ("bₜ", "Trend component at time t"), ("sₜ", "Seasonal component at time t")])
  {
    var w := RelevantTerms[2];
    assert FilterFrom(AllTerms, w, 15) == [];
    assert FilterFrom(AllTerms, w, 14) == FilterFrom(AllTerms, w, 15);
    assert FilterFrom(AllTerms, w, 13) == FilterFrom(AllTerms, w, 14);
    assert FilterFrom(AllTerms, w, 12) == FilterFrom(AllTerms, w, 13);
    assert FilterFrom(AllTerms, w, 11) == FilterFrom(AllTerms, w, 12);
    assert FilterFrom(AllTerms, w, 10) == FilterFrom(AllTerms, w, 11);
    assert FilterFrom(AllTerms, w, 9) == FilterFrom(AllTerms, w, 10);
    assert FilterFrom(AllTerms, w, 8) == FilterFrom(AllTerms, w, 9);
    assert FilterFrom(AllTerms, w, 7) == [Term7] + FilterFrom(AllTerms, w, 8);
    assert FilterFrom(AllTerms, w, 6) == [Term6] + FilterFrom(AllTerms, w, 7);
    assert FilterFrom(AllTerms, w, 5) == [Term5] + FilterFrom(AllTerms, w, 6);
    assert FilterFrom(AllTerms, w, 4) == [Term4] + FilterFrom(AllTerms, w, 5);
    assert FilterFrom(AllTerms, w, 3) == FilterFrom(AllTerms, w, 4);
    assert FilterFrom(AllTerms, w, 2) == FilterFrom(AllTerms, w, 3);
    assert FilterFrom(AllTerms, w, 1) == FilterFrom(AllTerms, w, 2);
    assert FilterFrom(AllTerms, w, 0) == FilterFrom(AllTerms, w, 1);
    assert Filter(AllTerms, w) == [("Fₜ", "Forecast at time t"), ("lₜ", "Level component at time t"), ("bₜ", "Trend component at time t"), ("sₜ", "Seasonal component at time t")];
  }

  /** Step 3 lists 'eₜ', 'yₜ' and 'Fₜ'; the key shows 'yₜ', 'Fₜ' and 'eₜ', in glossary order. */
  lemma TermsAtStep3()
    ensures GetRelevantMathTerms(3) == Defined([("yₜ", "Observation at time t"), ("Fₜ", "Forecast at time t"), ("eₜ", "Forecast error at time t")])
  {
    var w := RelevantTerms[3];
    assert FilterFrom(AllTerms, w, 15) == [];
    assert FilterFrom(AllTerms, w, 14) == FilterFrom(AllTerms, w, 15);
    assert FilterFrom(AllTerms, w, 13) == FilterFrom(AllTerms, w, 14);
    assert FilterFrom(AllTerms, w, 12) == FilterFrom(AllTerms, w, 13);
    assert FilterFrom(AllTerms, w, 11) == FilterFrom(AllTerms, w, 12);
    assert FilterFrom(AllTerms, w, 10) == FilterFrom(AllTerms, w, 11);
    assert FilterFrom(AllTerms, w, 9) == FilterFrom(AllTerms, w, 10);
    assert FilterFrom(AllTerms, w, 8) == [Term8] + FilterFrom(AllTerms, w, 9);
    assert FilterFrom(AllTerms, w, 7) == FilterFrom(AllTerms, w, 8);
    assert FilterFrom(AllTerms, w, 6) == FilterFrom(AllTerms, w, 7);
    assert FilterFrom(AllTerms, w, 5) == FilterFrom(AllTerms, w, 6);
    assert FilterFrom(AllTerms, w, 4) == [Term4] + FilterFrom(AllTerms, w, 5);
    assert FilterFrom(AllTerms, w, 3) == FilterFrom(AllTerms, w, 4);
    assert FilterFrom(AllTerms, w, 2) == FilterFrom(AllTerms, w, 3);
    assert FilterFrom(AllTerms, w, 1) == [Term1] + FilterFrom(AllTerms, w, 2);
    assert FilterFrom(AllTerms, w, 0) == FilterFrom(AllTerms, w, 1);
    assert Filter(AllTerms, w) == [("yₜ", "Observation at time t"), ("Fₜ", "Forecast at time t"), ("eₜ", "Forecast error at time t")];
  }

  /** Step 4 lists 'lₜ', 'bₜ', 'sₜ', 'α', 'β' and 'γ'; the key shows 'lₜ', 'bₜ', 'sₜ', 'α', 'β' and 'γ'. */
  lemma TermsAtStep4()
    ensures GetRelevantMathTerms(4) == Defined([("lₜ", "Level component at time t"), ("bₜ", "Trend component at time t"), ("sₜ", "Seasonal component at time t"), ("α", "Smoothing parameter for level"), ("β", "Smoothing parameter for trend"), ("γ", "Smoothing parameter for seasonality")])
  {
    var w := RelevantTerms[4];
    assert FilterFrom(AllTerms, w, 15) == [];
    assert FilterFrom(AllTerms, w, 14) == FilterFrom(AllTerms, w, 15);
    assert FilterFrom(AllTerms, w, 13) == FilterFrom(AllTerms, w, 14);
    assert FilterFrom(AllTerms, w, 12) == FilterFrom(AllTerms, w, 13);
    assert FilterFrom(AllTerms, w, 11) == [Term11] + FilterFrom(AllTerms, w, 12);
    assert FilterFrom(AllTerms, w, 10) == [Term10] + FilterFrom(AllTerms, w, 11);
    assert FilterFrom(AllTerms, w, 9) == [Term9] + FilterFrom(AllTerms, w, 10);
    assert FilterFrom(AllTerms, w, 8) == FilterFrom(AllTerms, w, 9);
    assert FilterFrom(AllTerms, w, 7) == [Term7] + FilterFrom(AllTerms, w, 8);
    assert FilterFrom(AllTerms, w, 6) == [Term6] + FilterFrom(AllTerms, w, 7);
    assert FilterFrom(AllTerms, w, 5) == [Term5] + FilterFrom(AllTerms, w, 6);
    assert FilterFrom(AllTerms, w, 4) == FilterFrom(AllTerms, w, 5);
    assert FilterFrom(AllTerms, w, 3) == FilterFrom(AllTerms, w, 4);
    assert FilterFrom(AllTerms, w, 2) == FilterFrom(AllTerms, w, 3);
    assert FilterFrom(AllTerms, w, 1) == FilterFrom(AllTerms, w, 2);
    assert FilterFrom(AllTerms, w, 0) == FilterFrom(AllTerms, w, 1);
    assert Filter(AllTerms, w) == [("lₜ", "Level component at time t"), ("bₜ", "Trend component at time t"), ("sₜ", "Seasonal component at time t"), ("α", "Smoothing parameter for level"), ("β", "Smoothing parameter for trend"), ("γ", "Smoothing parameter for seasonality")];
  }

  /** Step 5 lists 'lₜ', 'bₜ' and 'sₜ'; the key shows 'lₜ', 'bₜ' and 'sₜ'. */
  lemma TermsAtStep5()
    ensures GetRelevantMathTerms(5) == Defined([("lₜ", "Level component at time t"), ("bₜ", "Trend component at time t"), ("sₜ", "Seasonal component at time t")])
  {
    var w := RelevantTerms[5];
    assert FilterFrom(AllTerms, w, 15) == [];
    assert FilterFrom(AllTerms, w, 14) == FilterFrom(AllTerms, w, 15);
    assert FilterFrom(AllTerms, w, 13) == FilterFrom(AllTerms, w, 14);
    assert FilterFrom(AllTerms, w, 12) == FilterFrom(AllTerms, w, 13);
    assert FilterFrom(AllTerms, w, 11) == FilterFrom(AllTerms, w, 12);
    assert FilterFrom(AllTerms, w, 10) == FilterFrom(AllTerms, w, 11);
    assert FilterFrom(AllTerms, w, 9) == FilterFrom(AllTerms, w, 10);
    assert FilterFrom(AllTerms, w, 8) == FilterFrom(AllTerms, w, 9);
    assert FilterFrom(AllTerms, w, 7) == [Term7] + FilterFrom(AllTerms, w, 8);
    assert FilterFrom(AllTerms, w, 6) == [Term6] + FilterFrom(AllTerms, w, 7);
    assert FilterFrom(AllTerms, w, 5) == [Term5] + FilterFrom(AllTerms, w, 6);
    assert FilterFrom(AllTerms, w, 4) == FilterFrom(AllTerms, w, 5);
    assert FilterFrom(AllTerms, w, 3) == FilterFrom(AllTerms, w, 4);
    assert FilterFrom(AllTerms, w, 2) == FilterFrom(AllTerms, w, 3);
    assert FilterFrom(AllTerms, w, 1) == FilterFrom(AllTerms, w, 2);
    assert FilterFrom(AllTerms, w, 0) == FilterFrom(AllTerms, w, 1);
    assert Filter(AllTerms, w) == [("lₜ", "Level component at time t"), ("bₜ", "Trend component at time t"), ("sₜ", "Seasonal component at time t")];
  }

  /** Step 6 lists 'Fₜ', 'lₜ', 'bₜ' and 'sₜ'; the key shows 'Fₜ', 'lₜ', 'bₜ' and 'sₜ'. */
  lemma TermsAtStep6()
    ensures GetRelevantMathTerms(6) == Defined([("Fₜ", "Forecast at time t"), ("lₜ", "Level component at time t"), ("bₜ", "Trend component at time t"), ("sₜ", "Seasonal component at time t")])
  {
    var w := RelevantTerms[6];
    assert FilterFrom(AllTerms, w, 15) == [];
    assert FilterFrom(AllTerms, w, 14) == FilterFrom(AllTerms, w, 15);
    assert FilterFrom(AllTerms, w, 13) == FilterFrom(AllTerms, w, 14);
    assert FilterFrom(AllTerms, w, 12) == FilterFrom(AllTerms, w, 13);
    assert FilterFrom(AllTerms, w, 11) == FilterFrom(AllTerms, w, 12);
    assert FilterFrom(AllTerms, w, 10) == FilterFrom(AllTerms, w, 11);
    assert FilterFrom(AllTerms, w, 9) == FilterFrom(AllTerms, w, 10);
    assert FilterFrom(AllTerms, w, 8) == FilterFrom(AllTerms, w, 9);
    assert FilterFrom(AllTerms, w, 7) == [Term7] + FilterFrom(AllTerms, w, 8);
    assert FilterFrom(AllTerms, w, 6) == [Term6] + FilterFrom(AllTerms, w, 7);
    assert FilterFrom(AllTerms, w, 5) == [Term5] + FilterFrom(AllTerms, w, 6);
    assert FilterFrom(AllTerms, w, 4) == [Term4] + FilterFrom(AllTerms, w, 5);
    assert FilterFrom(AllTerms, w, 3) == FilterFrom(AllTerms, w, 4);
    assert FilterFrom(AllTerms, w, 2) == FilterFrom(AllTerms, w, 3);
    assert FilterFrom(AllTerms, w, 1) == FilterFrom(AllTerms, w, 2);
    assert FilterFrom(AllTerms, w, 0) == FilterFrom(AllTerms, w, 1);
    assert Filter(AllTerms, w) == [("Fₜ", "Forecast at time t"), ("lₜ", "Level component at time t"), ("bₜ", "Trend component at time t"), ("sₜ", "Seasonal component at time t")];
  }

  /** Step 7 lists 'Fₜ', 'lₜ', 'bₜ', 'sₜ', 'n', 'h' and 'm'; the key shows 'Fₜ', 'lₜ', 'bₜ', 'sₜ', 'm', 'n' and 'h', in glossary order. */
  lemma TermsAtStep7()
    ensures GetRelevantMathTerms(7) == Defined([("Fₜ", "Forecast at time t"), ("lₜ", "Level component at time t"), ("bₜ", "Trend component at time t"), ("sₜ", "Seasonal component at time t"), ("m", "Seasonal period"), ("n", "Number of observations"), ("h", "Forecast horizon")])
  {
    var w := RelevantTerms[7];
    assert FilterFrom(AllTerms, w, 15) == [];
    assert FilterFrom(AllTerms, w, 14) == [Term14] + FilterFrom(AllTerms, w, 15);
    assert FilterFrom(AllTerms, w, 13) == [Term13] + FilterFrom(AllTerms, w, 14);
    assert FilterFrom(AllTerms, w, 12) == [Term12] + FilterFrom(AllTerms, w, 13);
    assert FilterFrom(AllTerms, w, 11) == FilterFrom(AllTerms, w, 12);
    assert FilterFrom(AllTerms, w, 10) == FilterFrom(AllTerms, w, 11);
    assert FilterFrom(AllTerms, w, 9) == FilterFrom(AllTerms, w, 10);
    assert FilterFrom(AllTerms, w, 8) == FilterFrom(AllTerms, w, 9);
    assert FilterFrom(AllTerms, w, 7) == [Term7] + FilterFrom(AllTerms, w, 8);
    assert FilterFrom(AllTerms, w, 6) == [Term6] + FilterFrom(AllTerms, w, 7);
    assert FilterFrom(AllTerms, w, 5) == [Term5] + FilterFrom(AllTerms, w, 6);
    assert FilterFrom(AllTerms, w, 4) == [Term4] + FilterFrom(AllTerms, w, 5);
    assert FilterFrom(AllTerms, w, 3) == FilterFrom(AllTerms, w, 4);
    assert FilterFrom(AllTerms, w, 2) == FilterFrom(AllTerms, w, 3);
    assert FilterFrom(AllTerms, w, 1) == FilterFrom(AllTerms, w, 2);
    assert FilterFrom(AllTerms, w, 0) == FilterFrom(AllTerms, w, 1);
    assert Filter(AllTerms, w) == [("Fₜ", "Forecast at time t"), ("lₜ", "Level component at time t"), ("bₜ", "Trend component at time t"), ("sₜ", "Seasonal component at time t"), ("m", "Seasonal period"), ("n", "Number of observations"), ("h", "Forecast horizon")];
  }

  /** The glossary's keys, in entry order. */
  lemma GlossaryKeys()
    ensures Keys(AllTerms) == ["Y", "yₜ", "AIC", "L", "Fₜ", "lₜ", "bₜ", "sₜ", "eₜ", "α", "β", "γ", "m", "n", "h"]
  {
  }

  /**
   * Every key a step lists is a glossary key, and the step shows one entry
   * per listed key.
   */
  lemma EveryListedTermIsShown(step: nat)
    requires step < Topic.steps
    ensures forall k :: k in RelevantTerms[step] ==> k in Keys(AllTerms)
    ensures |GetRelevantMathTerms(step).value| == |RelevantTerms[step]|
  {
    GlossaryKeys();
    if step == 0 { TermsAtStep0(); }
    else if step == 1 { TermsAtStep1(); }
    else if step == 2 { TermsAtStep2(); }
    else if step == 3 { TermsAtStep3(); }
    else if step == 4 { TermsAtStep4(); }
    else if step == 5 { TermsAtStep5(); }
    else if step == 6 { TermsAtStep6(); }
    else { TermsAtStep7(); }
  }

  /** Eight clicks on Next return to the same step, one lap further on. */
  lemma EightNextsCompleteALap(p: Position)
    requires InRange(Topic, p)
    ensures Replay(Topic, p, Nexts(8)) == Position(p.step, p.iterations + 1)
  {
    ReplayNexts(Topic, p, 8);
    FullLap(Topic, p);
  }

  /** Prev on the first step of the first lap goes to the last step and stays in lap 1. */
  lemma FirstPrevStaysInFirstLap()
    ensures Replay(Topic, Initial, [Prev]) == Position(7, 1)
  {
  }

}
