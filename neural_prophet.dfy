/**
 * The NeuralProphet walkthrough (src/NeuralProphetVisualization.js): eight
 * steps, a lap counter, no math-details toggle (the math is always shown), a
 * description prefixed with the lap, and no link table.
 */
module NeuralProphetVisualization {
  import opened Js
  import opened Navigation
  import opened Glossary
  import opened Content

  const Topic := Config(8, true, false)

  /** The step names, in picker order (icons and colours are left out). */
  const StepName0: string := "Time Series Input"
  const StepName1: string := "Trend Modeling"
  const StepName2: string := "Seasonality"
  const StepName3: string := "Auto-Regression"
  const StepName4: string := "Covariates"
  const StepName5: string := "Neural Network"
  const StepName6: string := "Training"
  const StepName7: string := "Forecasting"
  const StepNames: seq<string> := [StepName0, StepName1, StepName2, StepName3, StepName4, StepName5, StepName6, StepName7]

  /** The `descriptions` table of `getStepDescription`. */
  const Description0: string := "Loading time series data with timestamps and corresponding values. This step prepares the dataset for analysis and forecasting."
  const Description1: string := "Modeling the overall trend in the data, which can be linear or non-linear. Neural Prophet uses a piecewise linear trend to capture changes over time."
  const Description2: string := "Capturing recurring patterns in the data, such as daily, weekly, or yearly seasonality. Fourier series are used to model multiple seasonal patterns simultaneously."
  const Description3: string := "Implementing auto-regression to learn from past values for future predictions. This allows the model to capture short-term dependencies in the time series."
  const Description4: string := "Incorporating additional variables (covariates) that might influence the time series. This can include both time-varying and static features."
  const Description5: string := "Processing all components through a feed-forward neural network for flexible and powerful forecasting. This allows for complex interactions between components."
  const Description6: string := "Training the model on historical data, adjusting parameters to minimize prediction errors. Backpropagation is used to optimize the neural network weights."
  const Description7: string := "Generating forecasts for future time periods using the trained model. This combines all learned components to produce the final prediction."
  const Descriptions: seq<string> := [Description0, Description1, Description2, Description3, Description4, Description5, Description6, Description7]

  /** The `concepts` table of `getStepMathConcept`. */
  const MathConcept0: string := "Time series: y(t) = f(t) + ε(t)\n     where f(t) is the signal and ε(t) is noise"
  const MathConcept1: string := "Trend: g(t) = (k(t) + a(t)⋅t + ∑offset(t))\n     where k(t) is the base rate, a(t) is the growth rate"
  const MathConcept2: string := "Seasonality: s(t) = ∑[a_n * sin(2πnt/P) + b_n * cos(2πnt/P)]\n     where P is the period, n is the fourier order"
  const MathConcept3: string := "Auto-regression: AR(p): y_t = c + ∑φ_i * y_{t-i} + ε_t\n     where p is the order, φ_i are parameters"
  const MathConcept4: string := "Covariates: y(t) = g(t) + s(t) + ∑β_i * x_i(t) + AR(p)\n     where x_i are covariates, β_i are coefficients"
  const MathConcept5: string := "Neural Network: h = σ(W_h * x + b_h)\n                     y = W_o * h + b_o\n     where σ is the activation function"
  const MathConcept6: string := "Loss function: L = MSE(y_true, y_pred) + λ * R(θ)\n     where R(θ) is the regularization term"
  const MathConcept7: string := "Forecast: ŷ(t+h) = g(t+h) + s(t+h) + AR(t+h) + ∑β_i * x_i(t+h)\n     where h is the forecast horizon"
  const MathConcepts: seq<string> := [MathConcept0, MathConcept1, MathConcept2, MathConcept3, MathConcept4, MathConcept5, MathConcept6, MathConcept7]

  /** The `tooltips` table of `getStepTooltip`. */
  const Tooltip0: string := "Time series data consists of a sequence of data points indexed in time order."
  const Tooltip1: string := "The trend component captures the long-term progression of the time series."
  const Tooltip2: string := "Seasonality refers to regular patterns that repeat over fixed intervals of time."
  const Tooltip3: string := "Auto-regression uses lagged observations as input to predict future values."
  const Tooltip4: string := "Covariates are external factors that can influence the time series."
  const Tooltip5: string := "The neural network allows for complex, non-linear relationships between inputs and outputs."
  const Tooltip6: string := "During training, the model learns from historical data, adjusting its parameters to minimize errors."
  const Tooltip7: string := "Forecasting involves using the trained model to predict future values of the time series."
  const Tooltips: seq<string> := [Tooltip0, Tooltip1, Tooltip2, Tooltip3, Tooltip4, Tooltip5, Tooltip6, Tooltip7]

  /** The glossary's entries, one constant each. */
  const Term0: Term := ("y(t)", "Time series value at time t")
  const Term1: Term := ("f(t)", "Signal component")
  const Term2: Term := ("ε(t)", "Noise component")
  const Term3: Term := ("g(t)", "Trend component")
  const Term4: Term := ("k(t)", "Base rate")
  const Term5: Term := ("a(t)", "Growth rate")
  const Term6: Term := ("s(t)", "Seasonality component")
  const Term7: Term := ("P", "Period of seasonality")
  const Term8: Term := ("φ_i", "Auto-regression parameters")
  const Term9: Term := ("β_i", "Covariate coefficients")
  const Term10: Term := ("x_i", "Covariates")
  const Term11: Term := ("σ", "Activation function")
  const Term12: Term := ("W_h, W_o", "Neural network weights")
  const Term13: Term := ("b_h, b_o", "Neural network biases")
  const Term14: Term := ("L", "Loss function")
  const Term15: Term := ("MSE", "Mean Squared Error")
  const Term16: Term := ("λ", "Regularization strength")
  const Term17: Term := ("R(θ)", "Regularization term")
  const Term18: Term := ("ŷ(t+h)", "Forecast h steps ahead")

  /** The glossary `allTerms`, in insertion order. */
  const AllTerms: Table := [Term0, Term1, Term2, Term3, Term4, Term5, Term6, Term7, Term8, Term9, Term10, Term11, Term12, Term13, Term14, Term15, Term16, Term17, Term18]

  /** The `relevantTerms` key lists, one per step. */
  const RelevantTerms: seq<seq<string>> := [
    ["y(t)", "f(t)", "ε(t)"],
    ["g(t)", "k(t)", "a(t)"],
    ["s(t)", "P"],
    ["φ_i"],
    ["β_i", "x_i"],
    ["σ", "W_h", "W_o", "b_h", "b_o"],
    ["L", "MSE", "λ", "R(θ)"],
    ["ŷ(t+h)"]
  ]

  /**
   * `getStepDescription(step, iterations)`: "Iteration N: " and the step's
   * text; the lap number and the text can be read back from the result.
   */
  function GetStepDescription(step: int, iterations: nat): (r: string)
    ensures ReadIterationDescription(r) ==
      Reading(iterations, if 0 <= step < Topic.steps then Descriptions[step] else "undefined")
  {
    IterationDescriptionReadsBack(Descriptions, step, iterations);
    IterationDescription(Descriptions, step, iterations)
  }

  function GetStepMathConcept(step: int): (r: Lookup<string>)
    ensures r.Defined? <==> 0 <= step < Topic.steps
    ensures r.Defined? ==> r.value == MathConcepts[step]
  {
    Index(MathConcepts, step)
  }

  function GetStepTooltip(step: int): (r: Lookup<string>)
    ensures r.Defined? <==> 0 <= step < Topic.steps
    ensures r.Defined? ==> r.value == Tooltips[step]
  {
    Index(Tooltips, step)
  }

  /** `getRelevantMathTerms(step)`: the filtered glossary, undefined past the key lists. */
  function GetRelevantMathTerms(step: int): (r: Lookup<Table>)
    ensures r.Defined? <==> 0 <= step < Topic.steps
    ensures r.Defined? ==> r.value == Filter(AllTerms, RelevantTerms[step])
  {
    RelevantFor(AllTerms, RelevantTerms, step)
  }

  /**
   * The key of a step holds exactly the glossary entries whose key the step
   * lists, in glossary order.
   */
  lemma RelevantTermsMeetSpec(step: nat)
    requires step < Topic.steps
    ensures IsSubsequence(GetRelevantMathTerms(step).value, AllTerms)
    ensures forall e :: e in GetRelevantMathTerms(step).value <==> e in AllTerms && e.0 in RelevantTerms[step]
  {
    FilterMeetsSpec(AllTerms, RelevantTerms[step]);
  }

  /** The picker has one tile per step, and every step has a key list. */
  lemma OneTileAndOneKeyListPerStep()
    ensures |StepNames| == Topic.steps && |RelevantTerms| == Topic.steps
  {
  }

  /** Step 0 lists 'y(t)', 'f(t)' and 'ε(t)'; the key shows 'y(t)', 'f(t)' and 'ε(t)'. */
  lemma TermsAtStep0()
    ensures GetRelevantMathTerms(0) == Defined([("y(t)", "Time series value at time t"), ("f(t)", "Signal component"), ("ε(t)", "Noise component")])
  {
    var w := RelevantTerms[0];
    assert FilterFrom(AllTerms, w, 19) == [];
    assert FilterFrom(AllTerms, w, 18) == FilterFrom(AllTerms, w, 19);
    assert FilterFrom(AllTerms, w, 17) == FilterFrom(AllTerms, w, 18);
    assert FilterFrom(AllTerms, w, 16) == FilterFrom(AllTerms, w, 17);
    assert FilterFrom(AllTerms, w, 15) == FilterFrom(AllTerms, w, 16);
    assert FilterFrom(AllTerms, w, 14) == FilterFrom(AllTerms, w, 15);
    assert FilterFrom(AllTerms, w, 13) == FilterFrom(AllTerms, w, 14);
    assert FilterFrom(AllTerms, w, 12) == FilterFrom(AllTerms, w, 13);
    assert FilterFrom(AllTerms, w, 11) == FilterFrom(AllTerms, w, 12);
    assert FilterFrom(AllTerms, w, 10) == FilterFrom(AllTerms, w, 11);
    assert FilterFrom(AllTerms, w, 9) == FilterFrom(AllTerms, w, 10);
    assert FilterFrom(AllTerms, w, 8) == FilterFrom(AllTerms, w, 9);
    assert FilterFrom(AllTerms, w, 7) == FilterFrom(AllTerms, w, 8);
    assert FilterFrom(AllTerms, w, 6) == FilterFrom(AllTerms, w, 7);
    assert FilterFrom(AllTerms, w, 5) == FilterFrom(AllTerms, w, 6);
    assert FilterFrom(AllTerms, w, 4) == FilterFrom(AllTerms, w, 5);
    assert FilterFrom(AllTerms, w, 3) == FilterFrom(AllTerms, w, 4);
    assert FilterFrom(AllTerms, w, 2) == [Term2] + FilterFrom(AllTerms, w, 3);
    assert FilterFrom(AllTerms, w, 1) == [Term1] + FilterFrom(AllTerms, w, 2);
    assert FilterFrom(AllTerms, w, 0) == [Term0] + FilterFrom(AllTerms, w, 1);
    assert Filter(AllTerms, w) == [("y(t)", "Time series value at time t"), ("f(t)", "Signal component"), ("ε(t)", "Noise component")];
  }

  /** Step 1 lists 'g(t)', 'k(t)' and 'a(t)'; the key shows 'g(t)', 'k(t)' and 'a(t)'. */
  lemma TermsAtStep1()
    ensures GetRelevantMathTerms(1) == Defined([("g(t)", "Trend component"), ("k(t)", "Base rate"), ("a(t)", "Growth rate")])
  {
    var w := RelevantTerms[1];
    assert FilterFrom(AllTerms, w, 19) == [];
    assert FilterFrom(AllTerms, w, 18) == FilterFrom(AllTerms, w, 19);
    assert FilterFrom(AllTerms, w, 17) == FilterFrom(AllTerms, w, 18);
    assert FilterFrom(AllTerms, w, 16) == FilterFrom(AllTerms, w, 17);
    assert FilterFrom(AllTerms, w, 15) == FilterFrom(AllTerms, w, 16);
    assert FilterFrom(AllTerms, w, 14) == FilterFrom(AllTerms, w, 15);
    assert FilterFrom(AllTerms, w, 13) == FilterFrom(AllTerms, w, 14);
    assert FilterFrom(AllTerms, w, 12) == FilterFrom(AllTerms, w, 13);
    assert FilterFrom(AllTerms, w, 11) == FilterFrom(AllTerms, w, 12);
    assert FilterFrom(AllTerms, w, 10) == FilterFrom(AllTerms, w, 11);
    assert FilterFrom(AllTerms, w, 9) == FilterFrom(AllTerms, w, 10);
    assert FilterFrom(AllTerms, w, 8) == FilterFrom(AllTerms, w, 9);
    assert FilterFrom(AllTerms, w, 7) == FilterFrom(AllTerms, w, 8);
    assert FilterFrom(AllTerms, w, 6) == FilterFrom(AllTerms, w, 7);
    assert FilterFrom(AllTerms, w, 5) == [Term5] + FilterFrom(AllTerms, w, 6);
    assert FilterFrom(AllTerms, w, 4) == [Term4] + FilterFrom(AllTerms, w, 5);
    assert FilterFrom(AllTerms, w, 3) == [Term3] + FilterFrom(AllTerms, w, 4);
    assert FilterFrom(AllTerms, w, 2) == FilterFrom(AllTerms, w, 3);
    assert FilterFrom(AllTerms, w, 1) == FilterFrom(AllTerms, w, 2);
    assert FilterFrom(AllTerms, w, 0) == FilterFrom(AllTerms, w, 1);
    assert Filter(AllTerms, w) == [("g(t)", "Trend component"), ("k(t)", "Base rate"), ("a(t)", "Growth rate")];
  }

  /** Step 2 lists 's(t)' and 'P'; the key shows 's(t)' and 'P'. */
  lemma TermsAtStep2()
    ensures GetRelevantMathTerms(2) == Defined([("s(t)", "Seasonality component"), ("P", "Period of seasonality")])
  {
    var w := RelevantTerms[2];
    assert FilterFrom(AllTerms, w, 19) == [];
    assert FilterFrom(AllTerms, w, 18) == FilterFrom(AllTerms, w, 19);
    assert FilterFrom(AllTerms, w, 17) == FilterFrom(AllTerms, w, 18);
    assert FilterFrom(AllTerms, w, 16) == FilterFrom(AllTerms, w, 17);
    assert FilterFrom(AllTerms, w, 15) == FilterFrom(AllTerms, w, 16);
    assert FilterFrom(AllTerms, w, 14) == FilterFrom(AllTerms, w, 15);
    assert FilterFrom(AllTerms, w, 13) == FilterFrom(AllTerms, w, 14);
    assert FilterFrom(AllTerms, w, 12) == FilterFrom(AllTerms, w, 13);
    assert FilterFrom(AllTerms, w, 11) == FilterFrom(AllTerms, w, 12);
    assert FilterFrom(AllTerms, w, 10) == FilterFrom(AllTerms, w, 11);
    assert FilterFrom(AllTerms, w, 9) == FilterFrom(AllTerms, w, 10);
    assert FilterFrom(AllTerms, w, 8) == FilterFrom(AllTerms, w, 9);
    assert FilterFrom(AllTerms, w, 7) == [Term7] + FilterFrom(AllTerms, w, 8);
    assert FilterFrom(AllTerms, w, 6) == [Term6] + FilterFrom(AllTerms, w, 7);
    assert FilterFrom(AllTerms, w, 5) == FilterFrom(AllTerms, w, 6);
    assert FilterFrom(AllTerms, w, 4) == FilterFrom(AllTerms, w, 5);
    assert FilterFrom(AllTerms, w, 3) == FilterFrom(AllTerms, w, 4);
    assert FilterFrom(AllTerms, w, 2) == FilterFrom(AllTerms, w, 3);
    assert FilterFrom(AllTerms, w, 1) == FilterFrom(AllTerms, w, 2);
    assert FilterFrom(AllTerms, w, 0) == FilterFrom(AllTerms, w, 1);
    assert Filter(AllTerms, w) == [("s(t)", "Seasonality component"), ("P", "Period of seasonality")];
  }

  /** Step 3 lists 'φ_i'; the key shows 'φ_i'. */
  lemma TermsAtStep3()
    ensures GetRelevantMathTerms(3) == Defined([("φ_i", "Auto-regression parameters")])
  {
    var w := RelevantTerms[3];
    assert FilterFrom(AllTerms, w, 19) == [];
    assert FilterFrom(AllTerms, w, 18) == FilterFrom(AllTerms, w, 19);
    assert FilterFrom(AllTerms, w, 17) == FilterFrom(AllTerms, w, 18);
    assert FilterFrom(AllTerms, w, 16) == FilterFrom(AllTerms, w, 17);
    assert FilterFrom(AllTerms, w, 15) == FilterFrom(AllTerms, w, 16);
    assert FilterFrom(AllTerms, w, 14) == FilterFrom(AllTerms, w, 15);
    assert FilterFrom(AllTerms, w, 13) == FilterFrom(AllTerms, w, 14);
    assert FilterFrom(AllTerms, w, 12) == FilterFrom(AllTerms, w, 13);
    assert FilterFrom(AllTerms, w, 11) == FilterFrom(AllTerms, w, 12);
    assert FilterFrom(AllTerms, w, 10) == FilterFrom(AllTerms, w, 11);
    assert FilterFrom(AllTerms, w, 9) == FilterFrom(AllTerms, w, 10);
    assert FilterFrom(AllTerms, w, 8) == [Term8] + FilterFrom(AllTerms, w, 9);
    assert FilterFrom(AllTerms, w, 7) == FilterFrom(AllTerms, w, 8);
    assert FilterFrom(AllTerms, w, 6) == FilterFrom(AllTerms, w, 7);
    assert FilterFrom(AllTerms, w, 5) == FilterFrom(AllTerms, w, 6);
    assert FilterFrom(AllTerms, w, 4) == FilterFrom(AllTerms, w, 5);
    assert FilterFrom(AllTerms, w, 3) == FilterFrom(AllTerms, w, 4);
    assert FilterFrom(AllTerms, w, 2) == FilterFrom(AllTerms, w, 3);
    assert FilterFrom(AllTerms, w, 1) == FilterFrom(AllTerms, w, 2);
    assert FilterFrom(AllTerms, w, 0) == FilterFrom(AllTerms, w, 1);
    assert Filter(AllTerms, w) == [("φ_i", "Auto-regression parameters")];
  }

  /** Step 4 lists 'β_i' and 'x_i'; the key shows 'β_i' and 'x_i'. */
  lemma TermsAtStep4()
    ensures GetRelevantMathTerms(4) == Defined([("β_i", "Covariate coefficients"), ("x_i", "Covariates")])
  {
    var w := RelevantTerms[4];
    assert FilterFrom(AllTerms, w, 19) == [];
    assert FilterFrom(AllTerms, w, 18) == FilterFrom(AllTerms, w, 19);
    assert FilterFrom(AllTerms, w, 17) == FilterFrom(AllTerms, w, 18);
    assert FilterFrom(AllTerms, w, 16) == FilterFrom(AllTerms, w, 17);
    assert FilterFrom(AllTerms, w, 15) == FilterFrom(AllTerms, w, 16);
    assert FilterFrom(AllTerms, w, 14) == FilterFrom(AllTerms, w, 15);
    assert FilterFrom(AllTerms, w, 13) == FilterFrom(AllTerms, w, 14);
    assert FilterFrom(AllTerms, w, 12) == FilterFrom(AllTerms, w, 13);
    assert FilterFrom(AllTerms, w, 11) == FilterFrom(AllTerms, w, 12);
    assert FilterFrom(AllTerms, w, 10) == [Term10] + FilterFrom(AllTerms, w, 11);
    assert FilterFrom(AllTerms, w, 9) == [Term9] + FilterFrom(AllTerms, w, 10);
    assert FilterFrom(AllTerms, w, 8) == FilterFrom(AllTerms, w, 9);
    assert FilterFrom(AllTerms, w, 7) == FilterFrom(AllTerms, w, 8);
    assert FilterFrom(AllTerms, w, 6) == FilterFrom(AllTerms, w, 7);
    assert FilterFrom(AllTerms, w, 5) == FilterFrom(AllTerms, w, 6);
    assert FilterFrom(AllTerms, w, 4) == FilterFrom(AllTerms, w, 5);
    assert FilterFrom(AllTerms, w, 3) == FilterFrom(AllTerms, w, 4);
    assert FilterFrom(AllTerms, w, 2) == FilterFrom(AllTerms, w, 3);
    assert FilterFrom(AllTerms, w, 1) == FilterFrom(AllTerms, w, 2);
    assert FilterFrom(AllTerms, w, 0) == FilterFrom(AllTerms, w, 1);
    assert Filter(AllTerms, w) == [("β_i", "Covariate coefficients"), ("x_i", "Covariates")];
  }

  /** Step 5 lists 'σ', 'W_h', 'W_o', 'b_h' and 'b_o'; the key shows 'σ'; 'W_h', 'W_o', 'b_h' and 'b_o' are not glossary keys. */
  lemma TermsAtStep5()
    ensures GetRelevantMathTerms(5) == Defined([("σ", "Activation function")])
  {
    var w := RelevantTerms[5];
    assert FilterFrom(AllTerms, w, 19) == [];
    assert FilterFrom(AllTerms, w, 18) == FilterFrom(AllTerms, w, 19);
    assert FilterFrom(AllTerms, w, 17) == FilterFrom(AllTerms, w, 18);
    assert FilterFrom(AllTerms, w, 16) == FilterFrom(AllTerms, w, 17);
    assert FilterFrom(AllTerms, w, 15) == FilterFrom(AllTerms, w, 16);
    assert FilterFrom(AllTerms, w, 14) == FilterFrom(AllTerms, w, 15);
    assert FilterFrom(AllTerms, w, 13) == FilterFrom(AllTerms, w, 14);
    assert FilterFrom(AllTerms, w, 12) == FilterFrom(AllTerms, w, 13);
    assert FilterFrom(AllTerms, w, 11) == [Term11] + FilterFrom(AllTerms, w, 12);
    assert FilterFrom(AllTerms, w, 10) == FilterFrom(AllTerms, w, 11);
    assert FilterFrom(AllTerms, w, 9) == FilterFrom(AllTerms, w, 10);
    assert FilterFrom(AllTerms, w, 8) == FilterFrom(AllTerms, w, 9);
    assert FilterFrom(AllTerms, w, 7) == FilterFrom(AllTerms, w, 8);
    assert FilterFrom(AllTerms, w, 6) == FilterFrom(AllTerms, w, 7);
    assert FilterFrom(AllTerms, w, 5) == FilterFrom(AllTerms, w, 6);
    assert FilterFrom(AllTerms, w, 4) == FilterFrom(AllTerms, w, 5);
    assert FilterFrom(AllTerms, w, 3) == FilterFrom(AllTerms, w, 4);
    assert FilterFrom(AllTerms, w, 2) == FilterFrom(AllTerms, w, 3);
    assert FilterFrom(AllTerms, w, 1) == FilterFrom(AllTerms, w, 2);
    assert FilterFrom(AllTerms, w, 0) == FilterFrom(AllTerms, w, 1);
    assert Filter(AllTerms, w) == [("σ", "Activation function")];
  }

  /** Step 6 lists 'L', 'MSE', 'λ' and 'R(θ)'; the key shows 'L', 'MSE', 'λ' and 'R(θ)'. */
  lemma TermsAtStep6()
    ensures GetRelevantMathTerms(6) == Defined([("L", "Loss function"), ("MSE", "Mean Squared Error"), ("λ", "Regularization strength"), ("R(θ)", "Regularization term")])
  {
    var w := RelevantTerms[6];
    assert FilterFrom(AllTerms, w, 19) == [];
    assert FilterFrom(AllTerms, w, 18) == FilterFrom(AllTerms, w, 19);
    assert FilterFrom(AllTerms, w, 17) == [Term17] + FilterFrom(AllTerms, w, 18);
    assert FilterFrom(AllTerms, w, 16) == [Term16] + FilterFrom(AllTerms, w, 17);
    assert FilterFrom(AllTerms, w, 15) == [Term15] + FilterFrom(AllTerms, w, 16);
    assert FilterFrom(AllTerms, w, 14) == [Term14] + FilterFrom(AllTerms, w, 15);
    assert FilterFrom(AllTerms, w, 13) == FilterFrom(AllTerms, w, 14);
    assert FilterFrom(AllTerms, w, 12) == FilterFrom(AllTerms, w, 13);
    assert FilterFrom(AllTerms, w, 11) == FilterFrom(AllTerms, w, 12);
    assert FilterFrom(AllTerms, w, 10) == FilterFrom(AllTerms, w, 11);
    assert FilterFrom(AllTerms, w, 9) == FilterFrom(AllTerms, w, 10);
    assert FilterFrom(AllTerms, w, 8) == FilterFrom(AllTerms, w, 9);
    assert FilterFrom(AllTerms, w, 7) == FilterFrom(AllTerms, w, 8);
    assert FilterFrom(AllTerms, w, 6) == FilterFrom(AllTerms, w, 7);
    assert FilterFrom(AllTerms, w, 5) == FilterFrom(AllTerms, w, 6);
    assert FilterFrom(AllTerms, w, 4) == FilterFrom(AllTerms, w, 5);
    assert FilterFrom(AllTerms, w, 3) == FilterFrom(AllTerms, w, 4);
    assert FilterFrom(AllTerms, w, 2) == FilterFrom(AllTerms, w, 3);
    assert FilterFrom(AllTerms, w, 1) == FilterFrom(AllTerms, w, 2);
    assert FilterFrom(AllTerms, w, 0) == FilterFrom(AllTerms, w, 1);
    assert Filter(AllTerms, w) == [("L", "Loss function"), ("MSE", "Mean Squared Error"), ("λ", "Regularization strength"), ("R(θ)", "Regularization term")];
  }

  /** Step 7 lists 'ŷ(t+h)'; the key shows 'ŷ(t+h)'. */
  lemma TermsAtStep7()
    ensures GetRelevantMathTerms(7) == Defined([("ŷ(t+h)", "Forecast h steps ahead")])
  {
    var w := RelevantTerms[7];
    assert FilterFrom(AllTerms, w, 19) == [];
    assert FilterFrom(AllTerms, w, 18) == [Term18] + FilterFrom(AllTerms, w, 19);
    assert FilterFrom(AllTerms, w, 17) == FilterFrom(AllTerms, w, 18);
    assert FilterFrom(AllTerms, w, 16) == FilterFrom(AllTerms, w, 17);
    assert FilterFrom(AllTerms, w, 15) == FilterFrom(AllTerms, w, 16);
    assert FilterFrom(AllTerms, w, 14) == FilterFrom(AllTerms, w, 15);
    assert FilterFrom(AllTerms, w, 13) == FilterFrom(AllTerms, w, 14);
    assert FilterFrom(AllTerms, w, 12) == FilterFrom(AllTerms, w, 13);
    assert FilterFrom(AllTerms, w, 11) == FilterFrom(AllTerms, w, 12);
    assert FilterFrom(AllTerms, w, 10) == FilterFrom(AllTerms, w, 11);
    assert FilterFrom(AllTerms, w, 9) == FilterFrom(AllTerms, w, 10);
    assert FilterFrom(AllTerms, w, 8) == FilterFrom(AllTerms, w, 9);
    assert FilterFrom(AllTerms, w, 7) == FilterFrom(AllTerms, w, 8);
    assert FilterFrom(AllTerms, w, 6) == FilterFrom(AllTerms, w, 7);
    assert FilterFrom(AllTerms, w, 5) == FilterFrom(AllTerms, w, 6);
    assert FilterFrom(AllTerms, w, 4) == FilterFrom(AllTerms, w, 5);
    assert FilterFrom(AllTerms, w, 3) == FilterFrom(AllTerms, w, 4);
    assert FilterFrom(AllTerms, w, 2) == FilterFrom(AllTerms, w, 3);
    assert FilterFrom(AllTerms, w, 1) == FilterFrom(AllTerms, w, 2);
    assert FilterFrom(AllTerms, w, 0) == FilterFrom(AllTerms, w, 1);
    assert Filter(AllTerms, w) == [("ŷ(t+h)", "Forecast h steps ahead")];
  }

  /** Eight clicks on Next return to the same step, one lap further on. */
  lemma EightNextsCompleteALap(p: Position)
    requires InRange(Topic, p)
    ensures Replay(Topic, p, Nexts(8)) == Position(p.step, p.iterations + 1)
  {
    ReplayNexts(Topic, p, 8);
    FullLap(Topic, p);
  }

  /** Prev on the first step of the first lap goes to the last step and stays in lap 1. */
  lemma FirstPrevStaysInFirstLap()
    ensures Replay(Topic, Initial, [Prev]) == Position(7, 1)
  {
  }

  /**
   * The topic has no math toggle: no click can flip it, and every panel of
   * the topic shows the math concept and the terms key.
   */
  lemma MathIsAlwaysShown(panel: Panel)
    requires panel.config == Topic
    ensures !Available(Topic, ToggleMath)
    ensures panel.MathVisible()
  {
  }

}
