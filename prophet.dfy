/**
 * The Prophet walkthrough (src/ProphetVisualization.js): ten steps, no lap
 * counter, a math-details toggle, a plain description, and a link table one
 * entry shorter than the step list.
 */
module ProphetVisualization {
  import opened Js
  import opened Navigation
  import opened Glossary
  import opened Content

  const Topic := Config(10, false, true)

  /** The step names, in picker order (icons and colours are left out). */
  const StepName0: string := "Data Input"
  const StepName1: string := "Decomposition"
  const StepName2: string := "Trend Modeling"
  const StepName3: string := "Seasonality"
  const StepName4: string := "Holiday Effects"
  const StepName5: string := "Additional Regressors"
  const StepName6: string := "Parameter Optimization"
  const StepName7: string := "Model Fitting"
  const StepName8: string := "Forecasting"
  const StepName9: string := "Uncertainty Estimation"
  const StepNames: seq<string> := [StepName0, StepName1, StepName2, StepName3, StepName4, StepName5, StepName6, StepName7, StepName8, StepName9]

  /** The `descriptions` table of `getStepDescription`. */
  const Description0: string := "Loading time series data with timestamps (ds) and target values (y). This step prepares the dataset for Prophet model training, ensuring the data is in the correct format with the required columns."
  const Description1: string := "Breaking down the time series into its core components: trend, seasonality, holiday effects, and residuals. This decomposition allows Prophet to model each component separately and then combine them for the final forecast."
  const Description2: string := "Modeling the overall trend in the data. Prophet uses a piecewise linear or logistic growth curve to capture changes in the trend over time, allowing for automatic changepoint detection and flexible trend fitting."
  const Description3: string := "Capturing recurring patterns in the data, such as daily, weekly, or yearly seasonality. Prophet uses Fourier series to model multiple seasonal patterns simultaneously, allowing for complex seasonality modeling."
  const Description4: string := "Incorporating holiday effects into the model. This allows Prophet to account for irregular events that may impact the time series, such as national holidays or company-specific events."
  const Description5: string := "Adding external regressors or additional features that might influence the time series. This can include both time-varying and static features, allowing the model to capture effects beyond the core time series components."
  const Description6: string := "Performing random search to find optimal hyperparameters for the Prophet model. This step optimizes key parameters like changepoint_prior_scale, seasonality_prior_scale, and holidays_prior_scale to improve model performance."
  const Description7: string := "Combining all components (trend, seasonality, holidays, and regressors) to create the final model. Prophet uses a decomposable time series model and fits it using MAP (Maximum A Posteriori) estimation."
  const Description8: string := "Generating forecasts for future time periods using the trained model. This combines all learned components to produce the final prediction, extrapolating the trend and seasonal patterns into the future."
  const Description9: string := "Estimating uncertainty in the forecasts. Prophet provides uncertainty intervals by simulating many possible futures based on the model's components, accounting for variability in each part of the model."
  const Descriptions: seq<string> := [Description0, Description1, Description2, Description3, Description4, Description5, Description6, Description7, Description8, Description9]

  /** The `concepts` table of `getStepMathConcept`. */
  const MathConcept0: string := "Time series: y(t) = g(t) + s(t) + h(t) + ε(t)\n       where g(t) is the trend, s(t) is seasonality, h(t) is holiday effect, and ε(t) is error term"
  const MathConcept1: string := "Decomposition: y(t) = g(t) + s(t) + h(t) + ε(t)\n       Each component is modeled separately and then combined"
  const MathConcept2: string := "Trend: g(t) = (k + a(t)⋅t + (k + a(t)⋅t) ⋅ s(t))\n       where k is the growth rate, a(t) is the rate adjustments"
  const MathConcept3: string := "Seasonality: s(t) = Σ[a_n * sin(2πnt/P) + b_n * cos(2πnt/P)]\n       where P is the period, n is the Fourier order"
  const MathConcept4: string := "Holiday effect: h(t) = Z(t) ⋅ κ\n       where Z(t) is the indicator function, κ is the holiday effect"
  const MathConcept5: string := "Regressors: y(t) = g(t) + s(t) + h(t) + β ⋅ x(t) + ε(t)\n       where x(t) are the regressors, β are the coefficients"
  const MathConcept6: string := "Hyperparameter optimization:\n       Best model = argmin(MSE(model | hyperparameters))\n       MSE = (1/n) * Σ(y - ŷ)²"
  const MathConcept7: string := "Full model: y(t) = g(t) + s(t) + h(t) + β ⋅ x(t) + ε(t)\n       Fit using MAP (Maximum A Posteriori) estimation"
  const MathConcept8: string := "Forecast: ŷ(t) = g(t) + s(t) + h(t) + β ⋅ x(t)\n       for t in future time points"
  const MathConcept9: string := "Uncertainty: y(t) ~ Normal(ŷ(t), σ²)\n       Uncertainty intervals via Monte Carlo simulation"
  const MathConcepts: seq<string> := [MathConcept0, MathConcept1, MathConcept2, MathConcept3, MathConcept4, MathConcept5, MathConcept6, MathConcept7, MathConcept8, MathConcept9]

  /** The `tooltips` table of `getStepTooltip`. */
  const Tooltip0: string := "The input data for Prophet consists of a dataframe with 'ds' (date) and 'y' (target variable) columns."
  const Tooltip1: string := "Prophet breaks down the time series into its core components: trend, seasonality, holiday effects, and residuals."
  const Tooltip2: string := "The trend component captures the non-periodic changes in the time series."
  const Tooltip3: string := "Seasonality represents the periodic patterns in the data, such as daily, weekly, or yearly cycles."
  const Tooltip4: string := "Holiday effects allow the model to account for irregular events that impact the time series."
  const Tooltip5: string := "Additional regressors can be included to capture external factors affecting the time series."
  const Tooltip6: string := "Prophet uses random search to optimize its hyperparameters for better model performance."
  const Tooltip7: string := "Prophet combines all components into a single, coherent model."
  const Tooltip8: string := "Forecasting extends the model's predictions into the future time periods."
  const Tooltip9: string := "Uncertainty estimation provides a range of possible future values, not just point estimates."
  const Tooltips: seq<string> := [Tooltip0, Tooltip1, Tooltip2, Tooltip3, Tooltip4, Tooltip5, Tooltip6, Tooltip7, Tooltip8, Tooltip9]

  /** The `links` table of `getLearnMoreLink`. */
  const Link0: string := "https://facebook.github.io/prophet/docs/quick_start.html#python-api"
  const Link1: string := "https://facebook.github.io/prophet/docs/diagnostics.html#hyperparameter-tuning"
  const Link2: string := "https://facebook.github.io/prophet/docs/trend_changepoints.html"
  const Link3: string := "https://facebook.github.io/prophet/docs/seasonality,_holiday_effects,_and_regressors.html#seasonality"
  const Link4: string := "https://facebook.github.io/prophet/docs/seasonality,_holiday_effects,_and_regressors.html#holidays-and-special-events"
  const Link5: string := "https://facebook.github.io/prophet/docs/seasonality,_holiday_effects,_and_regressors.html#additional-regressors"
  const Link6: string := "https://facebook.github.io/prophet/docs/prophet_func.html#the-prophet-function"
  const Link7: string := "https://facebook.github.io/prophet/docs/quick_start.html#python-api"
  const Link8: string := "https://facebook.github.io/prophet/docs/uncertainty_intervals.html"
  const Links: seq<string> := [Link0, Link1, Link2, Link3, Link4, Link5, Link6, Link7, Link8]

  /** The glossary's entries, one constant each. */
  const Term0: Term := ("y(t)", "Time series value at time t")
  const Term1: Term := ("g(t)", "Trend component")
  const Term2: Term := ("s(t)", "Seasonality component")
  const Term3: Term := ("h(t)", "Holiday effect component")
  const Term4: Term := ("ε(t)", "Error term")
  const Term5: Term := ("MSE", "Mean Squared Error")
  const Term6: Term := ("k", "Growth rate")
  const Term7: Term := ("a(t)", "Rate adjustments")
  const Term8: Term := ("P", "Period of seasonality")
  const Term9: Term := ("Z(t)", "Holiday indicator function")
  const Term10: Term := ("κ", "Holiday effect magnitude")
  const Term11: Term := ("β", "Regressor coefficients")
  const Term12: Term := ("x(t)", "Additional regressors")
  const Term13: Term := ("ŷ(t)", "Forecasted value at time t")
  const Term14: Term := ("σ²", "Variance of the error term")

  /** The glossary `allTerms`, in insertion order. */
  const AllTerms: Table := [Term0, Term1, Term2, Term3, Term4, Term5, Term6, Term7, Term8, Term9, Term10, Term11, Term12, Term13, Term14]

  /** The `relevantTerms` key lists, one per step. */
  const RelevantTerms: seq<seq<string>> := [
    ["y(t)", "g(t)", "s(t)", "h(t)", "ε(t)"],
    ["y(t)", "g(t)", "s(t)", "h(t)", "ε(t)"],
    ["g(t)", "k", "a(t)"],
    ["s(t)", "P"],
    ["h(t)", "Z(t)", "κ"],
    ["β", "x(t)"],
    ["MSE"],
    ["y(t)", "g(t)", "s(t)", "h(t)", "β", "x(t)", "ε(t)"],
    ["ŷ(t)", "g(t)", "s(t)", "h(t)", "β", "x(t)"],
    ["y(t)", "ŷ(t)", "σ²"]
  ]

  /** `getStepDescription(step)`: the step's text as it is. */
  function GetStepDescription(step: int): (r: Lookup<string>)
    ensures r.Defined? <==> 0 <= step < Topic.steps
    ensures r.Defined? ==> r.value == Descriptions[step]
  {
    PlainDescription(Descriptions, step)
  }

  function GetStepMathConcept(step: int): (r: Lookup<string>)
    ensures r.Defined? <==> 0 <= step < Topic.steps
    ensures r.Defined? ==> r.value == MathConcepts[step]
  {
    Index(MathConcepts, step)
  }

  function GetStepTooltip(step: int): (r: Lookup<string>)
    ensures r.Defined? <==> 0 <= step < Topic.steps
    ensures r.Defined? ==> r.value == Tooltips[step]
  {
    Index(Tooltips, step)
  }

  /** `getLearnMoreLink(step)`: nine links for ten steps, so the last step has none. */
  function GetLearnMoreLink(step: int): (r: Lookup<string>)
    ensures r.Defined? <==> 0 <= step < Topic.steps - 1
    ensures r.Defined? ==> r.value == Links[step]
  {
    Index(Links, step)
  }

  /** `getRelevantMathTerms(step)`: the filtered glossary, undefined past the key lists. */
  function GetRelevantMathTerms(step: int): (r: Lookup<Table>)
    ensures r.Defined? <==> 0 <= step < Topic.steps
    ensures r.Defined? ==> r.value == Filter(AllTerms, RelevantTerms[step])
  {
    RelevantFor(AllTerms, RelevantTerms, step)
  }

  /**
   * The key of a step holds exactly the glossary entries whose key the step
   * lists, in glossary order.
   */
  lemma RelevantTermsMeetSpec(step: nat)
    requires step < Topic.steps
    ensures IsSubsequence(GetRelevantMathTerms(step).value, AllTerms)
    ensures forall e :: e in GetRelevantMathTerms(step).value <==> e in AllTerms && e.0 in RelevantTerms[step]
  {
    FilterMeetsSpec(AllTerms, RelevantTerms[step]);
  }

  /** The picker has one tile per step, and every step has a key list. */
  lemma OneTileAndOneKeyListPerStep()
    ensures |StepNames| == Topic.steps && |RelevantTerms| == Topic.steps
  {
  }

  /** Step 0 lists 'y(t)', 'g(t)', 's(t)', 'h(t)' and 'ε(t)'; the key shows 'y(t)', 'g(t)', 's(t)', 'h(t)' and 'ε(t)'. */
  lemma TermsAtStep0()
    ensures GetRelevantMathTerms(0) == Defined([("y(t)", "Time series value at time t"), ("g(t)", "Trend component"), ("s(t)", "Seasonality component"), ("h(t)", "Holiday effect component"), ("ε(t)", "Error term")])
  {
    var w := RelevantTerms[0];
    assert FilterFrom(AllTerms, w, 15) == [];
    assert FilterFrom(AllTerms, w, 14) == FilterFrom(AllTerms, w, 15);
    assert FilterFrom(AllTerms, w, 13) == FilterFrom(AllTerms, w, 14);
    assert FilterFrom(AllTerms, w, 12) == FilterFrom(AllTerms, w, 13);
    assert FilterFrom(AllTerms, w, 11) == FilterFrom(AllTerms, w, 12);
    assert FilterFrom(AllTerms, w, 10) == FilterFrom(AllTerms, w, 11);
    assert FilterFrom(AllTerms, w, 9) == FilterFrom(AllTerms, w, 10);
    assert FilterFrom(AllTerms, w, 8) == FilterFrom(AllTerms, w, 9);
    assert FilterFrom(AllTerms, w, 7) == FilterFrom(AllTerms, w, 8);
    assert FilterFrom(AllTerms, w, 6) == FilterFrom(AllTerms, w, 7);
    assert FilterFrom(AllTerms, w, 5) == FilterFrom(AllTerms, w, 6);
    assert FilterFrom(AllTerms, w, 4) == [Term4] + FilterFrom(AllTerms, w, 5);
    assert FilterFrom(AllTerms, w, 3) == [Term3] + FilterFrom(AllTerms, w, 4);
    assert FilterFrom(AllTerms, w, 2) == [Term2] + FilterFrom(AllTerms, w, 3);
    assert FilterFrom(AllTerms, w, 1) == [Term1] + FilterFrom(AllTerms, w, 2);
    assert FilterFrom(AllTerms, w, 0) == [Term0] + FilterFrom(AllTerms, w, 1);
    assert Filter(AllTerms, w) == [("y(t)", "Time series value at time t"), ("g(t)", "Trend component"), ("s(t)", "Seasonality component"), ("h(t)", "Holiday effect component"), ("ε(t)", "Error term")];
  }

  /** Step 1 lists 'y(t)', 'g(t)', 's(t)', 'h(t)' and 'ε(t)'; the key shows 'y(t)', 'g(t)', 's(t)', 'h(t)' and 'ε(t)'. */
  lemma TermsAtStep1()
    ensures GetRelevantMathTerms(1) == Defined([("y(t)", "Time series value at time t"), ("g(t)", "Trend component"), ("s(t)", "Seasonality component"), ("h(t)", "Holiday effect component"), ("ε(t)", "Error term")])
  {
    var w := RelevantTerms[1];
    assert FilterFrom(AllTerms, w, 15) == [];
    assert FilterFrom(AllTerms, w, 14) == FilterFrom(AllTerms, w, 15);
    assert FilterFrom(AllTerms, w, 13) == FilterFrom(AllTerms, w, 14);
    assert FilterFrom(AllTerms, w, 12) == FilterFrom(AllTerms, w, 13);
    assert FilterFrom(AllTerms, w, 11) == FilterFrom(AllTerms, w, 12);
    assert FilterFrom(AllTerms, w, 10) == FilterFrom(AllTerms, w, 11);
    assert FilterFrom(AllTerms, w, 9) == FilterFrom(AllTerms, w, 10);
    assert FilterFrom(AllTerms, w, 8) == FilterFrom(AllTerms, w, 9);
    assert FilterFrom(AllTerms, w, 7) == FilterFrom(AllTerms, w, 8);
    assert FilterFrom(AllTerms, w, 6) == FilterFrom(AllTerms, w, 7);
    assert FilterFrom(AllTerms, w, 5) == FilterFrom(AllTerms, w, 6);
    assert FilterFrom(AllTerms, w, 4) == [Term4] + FilterFrom(AllTerms, w, 5);
    assert FilterFrom(AllTerms, w, 3) == [Term3] + FilterFrom(AllTerms, w, 4);
    assert FilterFrom(AllTerms, w, 2) == [Term2] + FilterFrom(AllTerms, w, 3);
    assert FilterFrom(AllTerms, w, 1) == [Term1] + FilterFrom(AllTerms, w, 2);
    assert FilterFrom(AllTerms, w, 0) == [Term0] + FilterFrom(AllTerms, w, 1);
    assert Filter(AllTerms, w) == [("y(t)", "Time series value at time t"), ("g(t)", "Trend component"), ("s(t)", "Seasonality component"), ("h(t)", "Holiday effect component"), ("ε(t)", "Error term")];
  }

  /** Step 2 lists 'g(t)', 'k' and 'a(t)'; the key shows 'g(t)', 'k' and 'a(t)'. */
  lemma TermsAtStep2()
    ensures GetRelevantMathTerms(2) == Defined([("g(t)", "Trend component"), ("k", "Growth rate"), ("a(t)", "Rate adjustments")])
  {
    var w := RelevantTerms[2];
    assert FilterFrom(AllTerms, w, 15) == [];
    assert FilterFrom(AllTerms, w, 14) == FilterFrom(AllTerms, w, 15);
    assert FilterFrom(AllTerms, w, 13) == FilterFrom(AllTerms, w, 14);
    assert FilterFrom(AllTerms, w, 12) == FilterFrom(AllTerms, w, 13);
    assert FilterFrom(AllTerms, w, 11) == FilterFrom(AllTerms, w, 12);
    assert FilterFrom(AllTerms, w, 10) == FilterFrom(AllTerms, w, 11);
    assert FilterFrom(AllTerms, w, 9) == FilterFrom(AllTerms, w, 10);
    assert FilterFrom(AllTerms, w, 8) == FilterFrom(AllTerms, w, 9);
    assert FilterFrom(AllTerms, w, 7) == [Term7] + FilterFrom(AllTerms, w, 8);
    assert FilterFrom(AllTerms, w, 6) == [Term6] + FilterFrom(AllTerms, w, 7);
    assert FilterFrom(AllTerms, w, 5) == FilterFrom(AllTerms, w, 6);
    assert FilterFrom(AllTerms, w, 4) == FilterFrom(AllTerms, w, 5);
    assert FilterFrom(AllTerms, w, 3) == FilterFrom(AllTerms, w, 4);
    assert FilterFrom(AllTerms, w, 2) == FilterFrom(AllTerms, w, 3);
    assert FilterFrom(AllTerms, w, 1) == [Term1] + FilterFrom(AllTerms, w, 2);
    assert FilterFrom(AllTerms, w, 0) == FilterFrom(AllTerms, w, 1);
    assert Filter(AllTerms, w) == [("g(t)", "Trend component"), ("k", "Growth rate"), ("a(t)", "Rate adjustments")];
  }

  /** Step 3 lists 's(t)' and 'P'; the key shows 's(t)' and 'P'. */
  lemma TermsAtStep3()
    ensures GetRelevantMathTerms(3) == Defined([("s(t)", "Seasonality component"), ("P", "Period of seasonality")])
  {
    var w := RelevantTerms[3];
    assert FilterFrom(AllTerms, w, 15) == [];
    assert FilterFrom(AllTerms, w, 14) == FilterFrom(AllTerms, w, 15);
    assert FilterFrom(AllTerms, w, 13) == FilterFrom(AllTerms, w, 14);
    assert FilterFrom(AllTerms, w, 12) == FilterFrom(AllTerms, w, 13);
    assert FilterFrom(AllTerms, w, 11) == FilterFrom(AllTerms, w, 12);
    assert FilterFrom(AllTerms, w, 10) == FilterFrom(AllTerms, w, 11);
    assert FilterFrom(AllTerms, w, 9) == FilterFrom(AllTerms, w, 10);
    assert FilterFrom(AllTerms, w, 8) == [Term8] + FilterFrom(AllTerms, w, 9);
    assert FilterFrom(AllTerms, w, 7) == FilterFrom(AllTerms, w, 8);
    assert FilterFrom(AllTerms, w, 6) == FilterFrom(AllTerms, w, 7);
    assert FilterFrom(AllTerms, w, 5) == FilterFrom(AllTerms, w, 6);
    assert FilterFrom(AllTerms, w, 4) == FilterFrom(AllTerms, w, 5);
    assert FilterFrom(AllTerms, w, 3) == FilterFrom(AllTerms, w, 4);
    assert FilterFrom(AllTerms, w, 2) == [Term2] + FilterFrom(AllTerms, w, 3);
    assert FilterFrom(AllTerms, w, 1) == FilterFrom(AllTerms, w, 2);
    assert FilterFrom(AllTerms, w, 0) == FilterFrom(AllTerms, w, 1);
    assert Filter(AllTerms, w) == [("s(t)", "Seasonality component"), ("P", "Period of seasonality")];
  }

  /** Step 4 lists 'h(t)', 'Z(t)' and 'κ'; the key shows 'h(t)', 'Z(t)' and 'κ'. */
  lemma TermsAtStep4()
    ensures GetRelevantMathTerms(4) == Defined([("h(t)", "Holiday effect component"), ("Z(t)", "Holiday indicator function"), ("κ", "Holiday effect magnitude")])
  {
    var w := RelevantTerms[4];
    assert FilterFrom(AllTerms, w, 15) == [];
    assert FilterFrom(AllTerms, w, 14) == FilterFrom(AllTerms, w, 15);
    assert FilterFrom(AllTerms, w, 13) == FilterFrom(AllTerms, w, 14);
    assert FilterFrom(AllTerms, w, 12) == FilterFrom(AllTerms, w, 13);
    assert FilterFrom(AllTerms, w, 11) == FilterFrom(AllTerms, w, 12);
    assert FilterFrom(AllTerms, w, 10) == [Term10] + FilterFrom(AllTerms, w, 11);
    assert FilterFrom(AllTerms, w, 9) == [Term9] + FilterFrom(AllTerms, w, 10);
    assert FilterFrom(AllTerms, w, 8) == FilterFrom(AllTerms, w, 9);
    assert FilterFrom(AllTerms, w, 7) == FilterFrom(AllTerms, w, 8);
    assert FilterFrom(AllTerms, w, 6) == FilterFrom(AllTerms, w, 7);
    assert FilterFrom(AllTerms, w, 5) == FilterFrom(AllTerms, w, 6);
    assert FilterFrom(AllTerms, w, 4) == FilterFrom(AllTerms, w, 5);
    assert FilterFrom(AllTerms, w, 3) == [Term3] + FilterFrom(AllTerms, w, 4);
    assert FilterFrom(AllTerms, w, 2) == FilterFrom(AllTerms, w, 3);
    assert FilterFrom(AllTerms, w, 1) == FilterFrom(AllTerms, w, 2);
    assert FilterFrom(AllTerms, w, 0) == FilterFrom(AllTerms, w, 1);
    assert Filter(AllTerms, w) == [("h(t)", "Holiday effect component"), ("Z(t)", "Holiday indicator function"), ("κ", "Holiday effect magnitude")];
  }

  /** Step 5 lists 'β' and 'x(t)'; the key shows 'β' and 'x(t)'. */
  lemma TermsAtStep5()
    ensures GetRelevantMathTerms(5) == Defined([("β", "Regressor coefficients"), ("x(t)", "Additional regressors")])
  {
    var w := RelevantTerms[5];
    assert FilterFrom(AllTerms, w, 15) == [];
    assert FilterFrom(AllTerms, w, 14) == FilterFrom(AllTerms, w, 15);
    assert FilterFrom(AllTerms, w, 13) == FilterFrom(AllTerms, w, 14);
    assert FilterFrom(AllTerms, w, 12) == [Term12] + FilterFrom(AllTerms, w, 13);
    assert FilterFrom(AllTerms, w, 11) == [Term11] + FilterFrom(AllTerms, w, 12);
    assert FilterFrom(AllTerms, w, 10) == FilterFrom(AllTerms, w, 11);
    assert FilterFrom(AllTerms, w, 9) == FilterFrom(AllTerms, w, 10);
    assert FilterFrom(AllTerms, w, 8) == FilterFrom(AllTerms, w, 9);
    assert FilterFrom(AllTerms, w, 7) == FilterFrom(AllTerms, w, 8);
    assert FilterFrom(AllTerms, w, 6) == FilterFrom(AllTerms, w, 7);
    assert FilterFrom(AllTerms, w, 5) == FilterFrom(AllTerms, w, 6);
    assert FilterFrom(AllTerms, w, 4) == FilterFrom(AllTerms, w, 5);
    assert FilterFrom(AllTerms, w, 3) == FilterFrom(AllTerms, w, 4);
    assert FilterFrom(AllTerms, w, 2) == FilterFrom(AllTerms, w, 3);
    assert FilterFrom(AllTerms, w, 1) == FilterFrom(AllTerms, w, 2);
    assert FilterFrom(AllTerms, w, 0) == FilterFrom(AllTerms, w, 1);
    assert Filter(AllTerms, w) == [("β", "Regressor coefficients"), ("x(t)", "Additional regressors")];
  }

  /** Step 6 lists 'MSE'; the key shows 'MSE'. */
  lemma TermsAtStep6()
    ensures GetRelevantMathTerms(6) == Defined([("MSE", "Mean Squared Error")])
  {
    var w := RelevantTerms[6];
    assert FilterFrom(AllTerms, w, 15) == [];
    assert FilterFrom(AllTerms, w, 14) == FilterFrom(AllTerms, w, 15);
    assert FilterFrom(AllTerms, w, 13) == FilterFrom(AllTerms, w, 14);
    assert FilterFrom(AllTerms, w, 12) == FilterFrom(AllTerms, w, 13);
    assert FilterFrom(AllTerms, w, 11) == FilterFrom(AllTerms, w, 12);
    assert FilterFrom(AllTerms, w, 10) == FilterFrom(AllTerms, w, 11);
    assert FilterFrom(AllTerms, w, 9) == FilterFrom(AllTerms, w, 10);
    assert FilterFrom(AllTerms, w, 8) == FilterFrom(AllTerms, w, 9);
    assert FilterFrom(AllTerms, w, 7) == FilterFrom(AllTerms, w, 8);
    assert FilterFrom(AllTerms, w, 6) == FilterFrom(AllTerms, w, 7);
    assert FilterFrom(AllTerms, w, 5) == [Term5] + FilterFrom(AllTerms, w, 6);
    assert FilterFrom(AllTerms, w, 4) == FilterFrom(AllTerms, w, 5);
    assert FilterFrom(AllTerms, w, 3) == FilterFrom(AllTerms, w, 4);
    assert FilterFrom(AllTerms, w, 2) == FilterFrom(AllTerms, w, 3);
    assert FilterFrom(AllTerms, w, 1) == FilterFrom(AllTerms, w, 2);
    assert FilterFrom(AllTerms, w, 0) == FilterFrom(AllTerms, w, 1);
    assert Filter(AllTerms, w) == [("MSE", "Mean Squared Error")];
  }

  /** Step 7 lists 'y(t)', 'g(t)', 's(t)', 'h(t)', 'β', 'x(t)' and 'ε(t)'; the key shows 'y(t)', 'g(t)', 's(t)', 'h(t)', 'ε(t)', 'β' and 'x(t)', in glossary order. */
  lemma TermsAtStep7()
    ensures GetRelevantMathTerms(7) == Defined([("y(t)", "Time series value at time t"), ("g(t)", "Trend component"), ("s(t)", "Seasonality component"), ("h(t)", "Holiday effect component"), ("ε(t)", "Error term"), ("β", "Regressor coefficients"), ("x(t)", "Additional regressors")])
  {
    var w := RelevantTerms[7];
    assert FilterFrom(AllTerms, w, 15) == [];
    assert FilterFrom(AllTerms, w, 14) == FilterFrom(AllTerms, w, 15);
    assert FilterFrom(AllTerms, w, 13) == FilterFrom(AllTerms, w, 14);
    assert FilterFrom(AllTerms, w, 12) == [Term12] + FilterFrom(AllTerms, w, 13);
    assert FilterFrom(AllTerms, w, 11) == [Term11] + FilterFrom(AllTerms, w, 12);
    assert FilterFrom(AllTerms, w, 10) == FilterFrom(AllTerms, w, 11);
    assert FilterFrom(AllTerms, w, 9) == FilterFrom(AllTerms, w, 10);
    assert FilterFrom(AllTerms, w, 8) == FilterFrom(AllTerms, w, 9);
    assert FilterFrom(AllTerms, w, 7) == FilterFrom(AllTerms, w, 8);
    assert FilterFrom(AllTerms, w, 6) == FilterFrom(AllTerms, w, 7);
    assert FilterFrom(AllTerms, w, 5) == FilterFrom(AllTerms, w, 6);
    assert FilterFrom(AllTerms, w, 4) == [Term4] + FilterFrom(AllTerms, w, 5);
    assert FilterFrom(AllTerms, w, 3) == [Term3] + FilterFrom(AllTerms, w, 4);
    assert FilterFrom(AllTerms, w, 2) == [Term2] + FilterFrom(AllTerms, w, 3);
    assert FilterFrom(AllTerms, w, 1) == [Term1] + FilterFrom(AllTerms, w, 2);
    assert FilterFrom(AllTerms, w, 0) == [Term0] + FilterFrom(AllTerms, w, 1);
    assert Filter(AllTerms, w) == [("y(t)", "Time series value at time t"), ("g(t)", "Trend component"), ("s(t)", "Seasonality component"), ("h(t)", "Holiday effect component"), ("ε(t)", "Error term"), ("β", "Regressor coefficients"), ("x(t)", "Additional regressors")];
  }

  /** Step 8 lists 'ŷ(t)', 'g(t)', 's(t)', 'h(t)', 'β' and 'x(t)'; the key shows 'g(t)', 's(t)', 'h(t)', 'β', 'x(t)' and 'ŷ(t)', in glossary order. */
  lemma TermsAtStep8()
    ensures GetRelevantMathTerms(8) == Defined([("g(t)", "Trend component"), ("s(t)", "Seasonality component"), ("h(t)", "Holiday effect component"), ("β", "Regressor coefficients"), ("x(t)", "Additional regressors"), ("ŷ(t)", "Forecasted value at time t")])
  {
    var w := RelevantTerms[8];
    assert FilterFrom(AllTerms, w, 15) == [];
    assert FilterFrom(AllTerms, w, 14) == FilterFrom(AllTerms, w, 15);
    assert FilterFrom(AllTerms, w, 13) == [Term13] + FilterFrom(AllTerms, w, 14);
    assert FilterFrom(AllTerms, w, 12) == [Term12] + FilterFrom(AllTerms, w, 13);
    assert FilterFrom(AllTerms, w, 11) == [Term11] + FilterFrom(AllTerms, w, 12);
    assert FilterFrom(AllTerms, w, 10) == FilterFrom(AllTerms, w, 11);
    assert FilterFrom(AllTerms, w, 9) == FilterFrom(AllTerms, w, 10);
    assert FilterFrom(AllTerms, w, 8) == FilterFrom(AllTerms, w, 9);
    assert FilterFrom(AllTerms, w, 7) == FilterFrom(AllTerms, w, 8);
    assert FilterFrom(AllTerms, w, 6) == FilterFrom(AllTerms, w, 7);
    assert FilterFrom(AllTerms, w, 5) == FilterFrom(AllTerms, w, 6);
    assert FilterFrom(AllTerms, w, 4) == FilterFrom(AllTerms, w, 5);
    assert FilterFrom(AllTerms, w, 3) == [Term3] + FilterFrom(AllTerms, w, 4);
    assert FilterFrom(AllTerms, w, 2) == [Term2] + FilterFrom(AllTerms, w, 3);
    assert FilterFrom(AllTerms, w, 1) == [Term1] + FilterFrom(AllTerms, w, 2);
    assert FilterFrom(AllTerms, w, 0) == FilterFrom(AllTerms, w, 1);
    assert Filter(AllTerms, w) == [("g(t)", "Trend component"), ("s(t)", "Seasonality component"), ("h(t)", "Holiday effect component"), ("β", "Regressor coefficients"), ("x(t)", "Additional regressors"), ("ŷ(t)", "Forecasted value at time t")];
  }

  /** Step 9 lists 'y(t)', 'ŷ(t)' and 'σ²'; the key shows 'y(t)', 'ŷ(t)' and 'σ²'. */
  lemma TermsAtStep9()
    ensures GetRelevantMathTerms(9) == Defined([("y(t)", "Time series value at time t"), ("ŷ(t)", "Forecasted value at time t"), ("σ²", "Variance of the error term")])
  {
    var w := RelevantTerms[9];
    assert FilterFrom(AllTerms, w, 15) == [];
    assert FilterFrom(AllTerms, w, 14) == [Term14] + FilterFrom(AllTerms, w, 15);
    assert FilterFrom(AllTerms, w, 13) == [Term13] + FilterFrom(AllTerms, w, 14);
    assert FilterFrom(AllTerms, w, 12) == FilterFrom(AllTerms, w, 13);
    assert FilterFrom(AllTerms, w, 11) == FilterFrom(AllTerms, w, 12);
    assert FilterFrom(AllTerms, w, 10) == FilterFrom(AllTerms, w, 11);
    assert FilterFrom(AllTerms, w, 9) == FilterFrom(AllTerms, w, 10);
    assert FilterFrom(AllTerms, w, 8) == FilterFrom(AllTerms, w, 9);
    assert FilterFrom(AllTerms, w, 7) == FilterFrom(AllTerms, w, 8);
    assert FilterFrom(AllTerms, w, 6) == FilterFrom(AllTerms, w, 7);
    assert FilterFrom(AllTerms, w, 5) == FilterFrom(AllTerms, w, 6);
    assert FilterFrom(AllTerms, w, 4) == FilterFrom(AllTerms, w, 5);
    assert FilterFrom(AllTerms, w, 3) == FilterFrom(AllTerms, w, 4);
    assert FilterFrom(AllTerms, w, 2) == FilterFrom(AllTerms, w, 3);
    assert FilterFrom(AllTerms, w, 1) == FilterFrom(AllTerms, w, 2);
    assert FilterFrom(AllTerms, w, 0) == [Term0] + FilterFrom(AllTerms, w, 1);
    assert Filter(AllTerms, w) == [("y(t)", "Time series value at time t"), ("ŷ(t)", "Forecasted value at time t"), ("σ²", "Variance of the error term")];
  }

  /** The glossary's keys, in entry order. */
  lemma GlossaryKeys()
    ensures Keys(AllTerms) == ["y(t)", "g(t)", "s(t)", "h(t)", "ε(t)", "MSE", "k", "a(t)", "P", "Z(t)", "κ", "β", "x(t)", "ŷ(t)", "σ²"]
  {
  }

  /**
   * Every key a step lists is a glossary key, and the step shows one entry
   * per listed key.
   */
  lemma EveryListedTermIsShown(step: nat)
    requires step < Topic.steps
    ensures forall k :: k in RelevantTerms[step] ==> k in Keys(AllTerms)
    ensures |GetRelevantMathTerms(step).value| == |RelevantTerms[step]|
  {
    GlossaryKeys();
    if step == 0 { TermsAtStep0(); }
    else if step == 1 { TermsAtStep1(); }
    else if step == 2 { TermsAtStep2(); }
    else if step == 3 { TermsAtStep3(); }
    else if step == 4 { TermsAtStep4(); }
    else if step == 5 { TermsAtStep5(); }
    else if step == 6 { TermsAtStep6(); }
    else if step == 7 { TermsAtStep7(); }
    else if step == 8 { TermsAtStep8(); }
    else { TermsAtStep9(); }
  }

  /** Ten clicks on Next return to the starting position: there is no lap counter. */
  lemma TenNextsReturnToStart(p: Position)
    requires InRange(Topic, p)
    ensures Replay(Topic, p, Nexts(10)) == p
  {
    ReplayNexts(Topic, p, 10);
    FullLap(Topic, p);
  }

  /** Next and Prev undo each other at every step, the wrap between 9 and 0 included. */
  lemma NextAndPrevAreInverses(p: Position)
    requires InRange(Topic, p)
    ensures Retreat(Topic, Advance(Topic, p)) == p && Advance(Topic, Retreat(Topic, p)) == p
  {
    NonIteratingInverses(Topic, p);
  }

  /** The redraw effect depends on the step alone. */
  lemma RedrawsExactlyWhenTheStepChanges(p: Position, q: Position)
    ensures DepsChanged(Topic, p, q) <==> p.step != q.step
  {
  }

}
