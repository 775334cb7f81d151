/**
 * The AutoARIMA walkthrough (src/AutoARIMAVisualization.js): eight steps, a
 * lap counter, a math-details toggle, a description prefixed with the lap,
 * one link per step.
 */
module AutoARIMAVisualization {
  import opened Js
  import opened Navigation
  import opened Glossary
  import opened Content

  const Topic := Config(8, true, true)

  /** The step names, in picker order (icons and colours are left out). */
  const StepName0: string := "Data Input"
  const StepName1: string := "Stationarity Test"
  const StepName2: string := "Differencing"
  const StepName3: string := "ACF/PACF Analysis"
  const StepName4: string := "Grid Search"
  const StepName5: string := "Model Estimation"
  const StepName6: string := "Model Diagnostics"
  const StepName7: string := "Forecasting"
  const StepNames: seq<string> := [StepName0, StepName1, StepName2, StepName3, StepName4, StepName5, StepName6, StepName7]

  /** The `descriptions` table of `getStepDescription`. */
  const Description0: string := "Loading time series data for analysis. This step involves preparing the dataset, checking for missing values, and ensuring the data is in the correct format for ARIMA modeling."
  const Description1: string := "Performing stationarity tests such as the Augmented Dickey-Fuller (ADF) test or the Kwiatkowski-Phillips-Schmidt-Shin (KPSS) test. Stationarity is a key assumption for ARIMA models."
  const Description2: string := "If the series is non-stationary, differencing is applied to make it stationary. The number of differencing operations determines the 'd' parameter in ARIMA(p,d,q)."
  const Description3: string := "Analyzing the Autocorrelation Function (ACF) and Partial Autocorrelation Function (PACF) plots to get initial estimates for the 'p' and 'q' parameters of the ARIMA model."
  const Description4: string := "Conducting a grid search over a range of p, d, and q values to find the best combination. The search is typically guided by information criteria such as AIC (Akaike Information Criterion) or BIC (Bayesian Information Criterion)."
  const Description5: string := "Estimating the parameters of the selected ARIMA model using maximum likelihood estimation. This includes AR coefficients, MA coefficients, and the intercept term."
  const Description6: string := "Performing diagnostic checks on the fitted model. This includes analyzing residuals for autocorrelation, normality, and homoscedasticity. The Ljung-Box test is often used to check for residual autocorrelation."
  const Description7: string := "Using the fitted ARIMA model to make forecasts. This step also involves calculating confidence intervals for the forecasts to quantify uncertainty."
  const Descriptions: seq<string> := [Description0, Description1, Description2, Description3, Description4, Description5, Description6, Description7]

  /** The `concepts` table of `getStepMathConcept`. */
  const MathConcept0: string := "Time series: Y_t = {y_1, y_2, ..., y_n}"
  const MathConcept1: string := "Stationarity tests:\n       ADF test: ΔY_t = α + βt + γY_{t-1} + δ_1ΔY_{t-1} + ... + δ_pΔY_{t-p} + ε_t\n       KPSS test: Y_t = ξt + r_t + ε_t"
  const MathConcept2: string := "Differencing: ΔY_t = Y_t - Y_{t-1}\n       d-th order differencing: Δ^d Y_t"
  const MathConcept3: string := "ACF: ρ_k = Cov(Y_t, Y_{t+k}) / Var(Y_t)\n       PACF: φ_kk = Corr(Y_t, Y_{t+k} | Y_{t+1}, ..., Y_{t+k-1})"
  const MathConcept4: string := "ARIMA(p,d,q) model:\n       (1 - φ_1B - ... - φ_pB^p)(1 - B)^d Y_t = c + (1 + θ_1B + ... + θ_qB^q)ε_t\n       AIC = 2k - 2ln(L), BIC = kln(n) - 2ln(L)"
  const MathConcept5: string := "Maximum Likelihood Estimation:\n       L(φ, θ, σ^2) = (2πσ^2)^(-n/2) exp(-Σε_t^2 / (2σ^2))"
  const MathConcept6: string := "Ljung-Box test:\n       Q = n(n+2) Σ_(k=1)^h (ρ^2_k / (n-k))"
  const MathConcept7: string := "Forecast:\n       Ŷ_{n+h} = E[Y_{n+h} | Y_1, ..., Y_n]\n       Confidence Interval: Ŷ_{n+h} ± z_{α/2} * √Var(e_{n+h})"
  const MathConcepts: seq<string> := [MathConcept0, MathConcept1, MathConcept2, MathConcept3, MathConcept4, MathConcept5, MathConcept6, MathConcept7]

  /** The `tooltips` table of `getStepTooltip`. */
  const Tooltip0: string := "Prepare and load the time series data for analysis."
  const Tooltip1: string := "Check if the time series is stationary, a key assumption for ARIMA models."
  const Tooltip2: string := "Make the time series stationary through differencing if necessary."
  const Tooltip3: string := "Analyze autocorrelation and partial autocorrelation to determine model order."
  const Tooltip4: string := "Search for the best combination of p, d, and q parameters for the ARIMA model."
  const Tooltip5: string := "Estimate the coefficients of the selected ARIMA model."
  const Tooltip6: string := "Check the model's residuals for any remaining patterns or autocorrelation."
  const Tooltip7: string := "Use the fitted model to make forecasts and calculate prediction intervals."
  const Tooltips: seq<string> := [Tooltip0, Tooltip1, Tooltip2, Tooltip3, Tooltip4, Tooltip5, Tooltip6, Tooltip7]

  /** The `links` table of `getLearnMoreLink`. */
  const Link0: string := "https://otexts.com/fpp3/arima.html"
  const Link1: string := "https://otexts.com/fpp3/stationarity.html"
  const Link2: string := "https://otexts.com/fpp3/differencing.html"
  const Link3: string := "https://otexts.com/fpp3/acf.html"
  const Link4: string := "https://otexts.com/fpp3/arima-estimation.html"
  const Link5: string := "https://otexts.com/fpp3/arima-estimation.html#maximum-likelihood-estimation"
  const Link6: string := "https://otexts.com/fpp3/arima-diagnostics.html"
  const Link7: string := "https://otexts.com/fpp3/arima-forecasting.html"
  const Links: seq<string> := [Link0, Link1, Link2, Link3, Link4, Link5, Link6, Link7]

  /** The glossary's entries, one constant each. */
  const Term0: Term := ("Y_t", "Time series value at time t")
  const Term1: Term := ("ΔY_t", "First difference of Y at time t")
  const Term2: Term := ("Δ^d", "d-th order differencing")
  const Term3: Term := ("ρ_k", "Autocorrelation at lag k")
  const Term4: Term := ("φ_kk", "Partial autocorrelation at lag k")
  const Term5: Term := ("p", "Order of the autoregressive term")
  const Term6: Term := ("d", "Degree of differencing")
  const Term7: Term := ("q", "Order of the moving average term")
  const Term8: Term := ("φ", "Autoregressive coefficients")
  const Term9: Term := ("θ", "Moving average coefficients")
  const Term10: Term := ("ε_t", "Error term at time t")
  const Term11: Term := ("L", "Likelihood function")
  const Term12: Term := ("AIC", "Akaike Information Criterion")
  const Term13: Term := ("BIC", "Bayesian Information Criterion")
  const Term14: Term := ("Ŷ", "Forecasted value")

  /** The glossary `allTerms`, in insertion order. */
  const AllTerms: Table := [Term0, Term1, Term2, Term3, Term4, Term5, Term6, Term7, Term8, Term9, Term10, Term11, Term12, Term13, Term14]

  /** The `relevantTerms` key lists, one per step. */
  const RelevantTerms: seq<seq<string>> := [
    ["Y_t"],
    ["Y_t", "ΔY_t"],
    ["ΔY_t", "Δ^d"],
    ["ρ_k", "φ_kk"],
    ["p", "d", "q", "AIC", "BIC"],
    ["φ", "θ", "ε_t", "L"],
    ["ε_t"],
    ["Ŷ"]
  ]

  /**
   * `getStepDescription(step, iterations)`: "Iteration N: " and the step's
   * text; the lap number and the text can be read back from the result.
   */
  function GetStepDescription(step: int, iterations: nat): (r: string)
    ensures ReadIterationDescription(r) ==
      Reading(iterations, if 0 <= step < Topic.steps then Descriptions[step] else "undefined")
  {
    IterationDescriptionReadsBack(Descriptions, step, iterations);
    IterationDescription(Descriptions, step, iterations)
  }

  function GetStepMathConcept(step: int): (r: Lookup<string>)
    ensures r.Defined? <==> 0 <= step < Topic.steps
    ensures r.Defined? ==> r.value == MathConcepts[step]
  {
    Index(MathConcepts, step)
  }

  function GetStepTooltip(step: int): (r: Lookup<string>)
    ensures r.Defined? <==> 0 <= step < Topic.steps
    ensures r.Defined? ==> r.value == Tooltips[step]
  {
    Index(Tooltips, step)
  }

  /** `getLearnMoreLink(step)`: one link per step. */
  function GetLearnMoreLink(step: int): (r: Lookup<string>)
    ensures r.Defined? <==> 0 <= step < Topic.steps
    ensures r.Defined? ==> r.value == Links[step]
  {
    Index(Links, step)
  }

  /** `getRelevantMathTerms(step)`: the filtered glossary, undefined past the key lists. */
  function GetRelevantMathTerms(step: int): (r: Lookup<Table>)
    ensures r.Defined? <==> 0 <= step < Topic.steps
    ensures r.Defined? ==> r.value == Filter(AllTerms, RelevantTerms[step])
  {
    RelevantFor(AllTerms, RelevantTerms, step)
  }

  /**
   * The key of a step holds exactly the glossary entries whose key the step
   * lists, in glossary order.
   */
  lemma RelevantTermsMeetSpec(step: nat)
    requires step < Topic.steps
    ensures IsSubsequence(GetRelevantMathTerms(step).value, AllTerms)
    ensures forall e :: e in GetRelevantMathTerms(step).value <==> e in AllTerms && e.0 in RelevantTerms[step]
  {
    FilterMeetsSpec(AllTerms, RelevantTerms[step]);
  }

  /** The picker has one tile per step, and every step has a key list. */
  lemma OneTileAndOneKeyListPerStep()
    ensures |StepNames| == Topic.steps && |RelevantTerms| == Topic.steps
  {
  }

  /** Step 0 lists 'Y_t'; the key shows 'Y_t'. */
  lemma TermsAtStep0()
    ensures GetRelevantMathTerms(0) == Defined([("Y_t", "Time series value at time t")])
  {
    var w := RelevantTerms[0];
    assert FilterFrom(AllTerms, w, 15) == [];
    assert FilterFrom(AllTerms, w, 14) == FilterFrom(AllTerms, w, 15);
    assert FilterFrom(AllTerms, w, 13) == FilterFrom(AllTerms, w, 14);
    assert FilterFrom(AllTerms, w, 12) == FilterFrom(AllTerms, w, 13);
    assert FilterFrom(AllTerms, w, 11) == FilterFrom(AllTerms, w, 12);
    assert FilterFrom(AllTerms, w, 10) == FilterFrom(AllTerms, w, 11);
    assert FilterFrom(AllTerms, w, 9) == FilterFrom(AllTerms, w, 10);
    assert FilterFrom(AllTerms, w, 8) == FilterFrom(AllTerms, w, 9);
    assert FilterFrom(AllTerms, w, 7) == FilterFrom(AllTerms, w, 8);
    assert FilterFrom(AllTerms, w, 6) == FilterFrom(AllTerms, w, 7);
    assert FilterFrom(AllTerms, w, 5) == FilterFrom(AllTerms, w, 6);
    assert FilterFrom(AllTerms, w, 4) == FilterFrom(AllTerms, w, 5);
    assert FilterFrom(AllTerms, w, 3) == FilterFrom(AllTerms, w, 4);
    assert FilterFrom(AllTerms, w, 2) == FilterFrom(AllTerms, w, 3);
    assert FilterFrom(AllTerms, w, 1) == FilterFrom(AllTerms, w, 2);
    assert FilterFrom(AllTerms, w, 0) == [Term0] + FilterFrom(AllTerms, w, 1);
    assert Filter(AllTerms, w) == [("Y_t", "Time series value at time t")];
  }

  /** Step 1 lists 'Y_t' and 'ΔY_t'; the key shows 'Y_t' and 'ΔY_t'. */
  lemma TermsAtStep1()
    ensures GetRelevantMathTerms(1) == Defined([("Y_t", "Time series value at time t"), ("ΔY_t", "First difference of Y at time t")])
  {
    var w := RelevantTerms[1];
    assert FilterFrom(AllTerms, w, 15) == [];
    assert FilterFrom(AllTerms, w, 14) == FilterFrom(AllTerms, w, 15);
    assert FilterFrom(AllTerms, w, 13) == FilterFrom(AllTerms, w, 14);
    assert FilterFrom(AllTerms, w, 12) == FilterFrom(AllTerms, w, 13);
    assert FilterFrom(AllTerms, w, 11) == FilterFrom(AllTerms, w, 12);
    assert FilterFrom(AllTerms, w, 10) == FilterFrom(AllTerms, w, 11);
    assert FilterFrom(AllTerms, w, 9) == FilterFrom(AllTerms, w, 10);
    assert FilterFrom(AllTerms, w, 8) == FilterFrom(AllTerms, w, 9);
    assert FilterFrom(AllTerms, w, 7) == FilterFrom(AllTerms, w, 8);
    assert FilterFrom(AllTerms, w, 6) == FilterFrom(AllTerms, w, 7);
    assert FilterFrom(AllTerms, w, 5) == FilterFrom(AllTerms, w, 6);
    assert FilterFrom(AllTerms, w, 4) == FilterFrom(AllTerms, w, 5);
    assert FilterFrom(AllTerms, w, 3) == FilterFrom(AllTerms, w, 4);
    assert FilterFrom(AllTerms, w, 2) == FilterFrom(AllTerms, w, 3);
    assert FilterFrom(AllTerms, w, 1) == [Term1] + FilterFrom(AllTerms, w, 2);
    assert FilterFrom(AllTerms, w, 0) == [Term0] + FilterFrom(AllTerms, w, 1);
    assert Filter(AllTerms, w) == [("Y_t", "Time series value at time t"), ("ΔY_t", "First difference of Y at time t")];
  }

  /** Step 2 lists 'ΔY_t' and 'Δ^d'; the key shows 'ΔY_t' and 'Δ^d'. */
  lemma TermsAtStep2()
    ensures GetRelevantMathTerms(2) == Defined([("ΔY_t", "First difference of Y at time t"), ("Δ^d", "d-th order differencing")])
  {
    var w := RelevantTerms[2];
    assert FilterFrom(AllTerms, w, 15) == [];
    assert FilterFrom(AllTerms, w, 14) == FilterFrom(AllTerms, w, 15);
    assert FilterFrom(AllTerms, w, 13) == FilterFrom(AllTerms, w, 14);
    assert FilterFrom(AllTerms, w, 12) == FilterFrom(AllTerms, w, 13);
    assert FilterFrom(AllTerms, w, 11) == FilterFrom(AllTerms, w, 12);
    assert FilterFrom(AllTerms, w, 10) == FilterFrom(AllTerms, w, 11);
    assert FilterFrom(AllTerms, w, 9) == FilterFrom(AllTerms, w, 10);
    assert FilterFrom(AllTerms, w, 8) == FilterFrom(AllTerms, w, 9);
    assert FilterFrom(AllTerms, w, 7) == FilterFrom(AllTerms, w, 8);
    assert FilterFrom(AllTerms, w, 6) == FilterFrom(AllTerms, w, 7);
    assert FilterFrom(AllTerms, w, 5) == FilterFrom(AllTerms, w, 6);
    assert FilterFrom(AllTerms, w, 4) == FilterFrom(AllTerms, w, 5);
    assert FilterFrom(AllTerms, w, 3) == FilterFrom(AllTerms, w, 4);
    assert FilterFrom(AllTerms, w, 2) == [Term2] + FilterFrom(AllTerms, w, 3);
    assert FilterFrom(AllTerms, w, 1) == [Term1] + FilterFrom(AllTerms, w, 2);
    assert FilterFrom(AllTerms, w, 0) == FilterFrom(AllTerms, w, 1);
    assert Filter(AllTerms, w) == [("ΔY_t", "First difference of Y at time t"), ("Δ^d", "d-th order differencing")];
  }

  /** Step 3 lists 'ρ_k' and 'φ_kk'; the key shows 'ρ_k' and 'φ_kk'. */
  lemma TermsAtStep3()
    ensures GetRelevantMathTerms(3) == Defined([("ρ_k", "Autocorrelation at lag k"), ("φ_kk", "Partial autocorrelation at lag k")])
  {
    var w := RelevantTerms[3];
    assert FilterFrom(AllTerms, w, 15) == [];
    assert FilterFrom(AllTerms, w, 14) == FilterFrom(AllTerms, w, 15);
    assert FilterFrom(AllTerms, w, 13) == FilterFrom(AllTerms, w, 14);
    assert FilterFrom(AllTerms, w, 12) == FilterFrom(AllTerms, w, 13);
    assert FilterFrom(AllTerms, w, 11) == FilterFrom(AllTerms, w, 12);
    assert FilterFrom(AllTerms, w, 10) == FilterFrom(AllTerms, w, 11);
    assert FilterFrom(AllTerms, w, 9) == FilterFrom(AllTerms, w, 10);
    assert FilterFrom(AllTerms, w, 8) == FilterFrom(AllTerms, w, 9);
    assert FilterFrom(AllTerms, w, 7) == FilterFrom(AllTerms, w, 8);
    assert FilterFrom(AllTerms, w, 6) == FilterFrom(AllTerms, w, 7);
    assert FilterFrom(AllTerms, w, 5) == FilterFrom(AllTerms, w, 6);
    assert FilterFrom(AllTerms, w, 4) == [Term4] + FilterFrom(AllTerms, w, 5);
    assert FilterFrom(AllTerms, w, 3) == [Term3] + FilterFrom(AllTerms, w, 4);
    assert FilterFrom(AllTerms, w, 2) == FilterFrom(AllTerms, w, 3);
    assert FilterFrom(AllTerms, w, 1) == FilterFrom(AllTerms, w, 2);
    assert FilterFrom(AllTerms, w, 0) == FilterFrom(AllTerms, w, 1);
    assert Filter(AllTerms, w) == [("ρ_k", "Autocorrelation at lag k"), ("φ_kk", "Partial autocorrelation at lag k")];
  }

  /** Step 4 lists 'p', 'd', 'q', 'AIC' and 'BIC'; the key shows 'p', 'd', 'q', 'AIC' and 'BIC'. */
  lemma TermsAtStep4()
    ensures GetRelevantMathTerms(4) == Defined([("p", "Order of the autoregressive term"), ("d", "Degree of differencing"), ("q", "Order of the moving average term"), ("AIC", "Akaike Information Criterion"), ("BIC", "Bayesian Information Criterion")])
  {
    var w := RelevantTerms[4];
    assert FilterFrom(AllTerms, w, 15) == [];
    assert FilterFrom(AllTerms, w, 14) == FilterFrom(AllTerms, w, 15);
    assert FilterFrom(AllTerms, w, 13) == [Term13] + FilterFrom(AllTerms, w, 14);
    assert FilterFrom(AllTerms, w, 12) == [Term12] + FilterFrom(AllTerms, w, 13);
    assert FilterFrom(AllTerms, w, 11) == FilterFrom(AllTerms, w, 12);
    assert FilterFrom(AllTerms, w, 10) == FilterFrom(AllTerms, w, 11);
    assert FilterFrom(AllTerms, w, 9) == FilterFrom(AllTerms, w, 10);
    assert FilterFrom(AllTerms, w, 8) == FilterFrom(AllTerms, w, 9);
    assert FilterFrom(AllTerms, w, 7) == [Term7] + FilterFrom(AllTerms, w, 8);
    assert FilterFrom(AllTerms, w, 6) == [Term6] + FilterFrom(AllTerms, w, 7);
    assert FilterFrom(AllTerms, w, 5) == [Term5] + FilterFrom(AllTerms, w, 6);
    assert FilterFrom(AllTerms, w, 4) == FilterFrom(AllTerms, w, 5);
    assert FilterFrom(AllTerms, w, 3) == FilterFrom(AllTerms, w, 4);
    assert FilterFrom(AllTerms, w, 2) == FilterFrom(AllTerms, w, 3);
    assert FilterFrom(AllTerms, w, 1) == FilterFrom(AllTerms, w, 2);
    assert FilterFrom(AllTerms, w, 0) == FilterFrom(AllTerms, w, 1);
    assert Filter(AllTerms, w) == [("p", "Order of the autoregressive term"), ("d", "Degree of differencing"), ("q", "Order of the moving average term"), ("AIC", "Akaike Information Criterion"), ("BIC", "Bayesian Information Criterion")];
  }

  /** Step 5 lists 'φ', 'θ', 'ε_t' and 'L'; the key shows 'φ', 'θ', 'ε_t' and 'L'. */
  lemma TermsAtStep5()
    ensures GetRelevantMathTerms(5) == Defined([("φ", "Autoregressive coefficients"), ("θ", "Moving average coefficients"), ("ε_t", "Error term at time t"), ("L", "Likelihood function")])
  {
    var w := RelevantTerms[5];
    assert FilterFrom(AllTerms, w, 15) == [];
    assert FilterFrom(AllTerms, w, 14) == FilterFrom(AllTerms, w, 15);
    assert FilterFrom(AllTerms, w, 13) == FilterFrom(AllTerms, w, 14);
    assert FilterFrom(AllTerms, w, 12) == FilterFrom(AllTerms, w, 13);
    assert FilterFrom(AllTerms, w, 11) == [Term11] + FilterFrom(AllTerms, w, 12);
    assert FilterFrom(AllTerms, w, 10) == [Term10] + FilterFrom(AllTerms, w, 11);
    assert FilterFrom(AllTerms, w, 9) == [Term9] + FilterFrom(AllTerms, w, 10);
    assert FilterFrom(AllTerms, w, 8) == [Term8] + FilterFrom(AllTerms, w, 9);
    assert FilterFrom(AllTerms, w, 7) == FilterFrom(AllTerms, w, 8);
    assert FilterFrom(AllTerms, w, 6) == FilterFrom(AllTerms, w, 7);
    assert FilterFrom(AllTerms, w, 5) == FilterFrom(AllTerms, w, 6);
    assert FilterFrom(AllTerms, w, 4) == FilterFrom(AllTerms, w, 5);
    assert FilterFrom(AllTerms, w, 3) == FilterFrom(AllTerms, w, 4);
    assert FilterFrom(AllTerms, w, 2) == FilterFrom(AllTerms, w, 3);
    assert FilterFrom(AllTerms, w, 1) == FilterFrom(AllTerms, w, 2);
    assert FilterFrom(AllTerms, w, 0) == FilterFrom(AllTerms, w, 1);
    assert Filter(AllTerms, w) == [("φ", "Autoregressive coefficients"), ("θ", "Moving average coefficients"), ("ε_t", "Error term at time t"), ("L", "Likelihood function")];
  }

  /** Step 6 lists 'ε_t'; the key shows 'ε_t'. */
  lemma TermsAtStep6()
    ensures GetRelevantMathTerms(6) == Defined([("ε_t", "Error term at time t")])
  {
    var w := RelevantTerms[6];
    assert FilterFrom(AllTerms, w, 15) == [];
    assert FilterFrom(AllTerms, w, 14) == FilterFrom(AllTerms, w, 15);
    assert FilterFrom(AllTerms, w, 13) == FilterFrom(AllTerms, w, 14);
    assert FilterFrom(AllTerms, w, 12) == FilterFrom(AllTerms, w, 13);
    assert FilterFrom(AllTerms, w, 11) == FilterFrom(AllTerms, w, 12);
    assert FilterFrom(AllTerms, w, 10) == [Term10] + FilterFrom(AllTerms, w, 11);
    assert FilterFrom(AllTerms, w, 9) == FilterFrom(AllTerms, w, 10);
    assert FilterFrom(AllTerms, w, 8) == FilterFrom(AllTerms, w, 9);
    assert FilterFrom(AllTerms, w, 7) == FilterFrom(AllTerms, w, 8);
    assert FilterFrom(AllTerms, w, 6) == FilterFrom(AllTerms, w, 7);
    assert FilterFrom(AllTerms, w, 5) == FilterFrom(AllTerms, w, 6);
    assert FilterFrom(AllTerms, w, 4) == FilterFrom(AllTerms, w, 5);
    assert FilterFrom(AllTerms, w, 3) == FilterFrom(AllTerms, w, 4);
    assert FilterFrom(AllTerms, w, 2) == FilterFrom(AllTerms, w, 3);
    assert FilterFrom(AllTerms, w, 1) == FilterFrom(AllTerms, w, 2);
    assert FilterFrom(AllTerms, w, 0) == FilterFrom(AllTerms, w, 1);
    assert Filter(AllTerms, w) == [("ε_t", "Error term at time t")];
  }

  /** Step 7 lists 'Ŷ'; the key shows 'Ŷ'. */
  lemma TermsAtStep7()
    ensures GetRelevantMathTerms(7) == Defined([("Ŷ", "Forecasted value")])
  {
    var w := RelevantTerms[7];
    assert FilterFrom(AllTerms, w, 15) == [];
    assert FilterFrom(AllTerms, w, 14) == [Term14] + FilterFrom(AllTerms, w, 15);
    assert FilterFrom(AllTerms, w, 13) == FilterFrom(AllTerms, w, 14);
    assert FilterFrom(AllTerms, w, 12) == FilterFrom(AllTerms, w, 13);
    assert FilterFrom(AllTerms, w, 11) == FilterFrom(AllTerms, w, 12);
    assert FilterFrom(AllTerms, w, 10) == FilterFrom(AllTerms, w, 11);
    assert FilterFrom(AllTerms, w, 9) == FilterFrom(AllTerms, w, 10);
    assert FilterFrom(AllTerms, w, 8) == FilterFrom(AllTerms, w, 9);
    assert FilterFrom(AllTerms, w, 7) == FilterFrom(AllTerms, w, 8);
    assert FilterFrom(AllTerms, w, 6) == FilterFrom(AllTerms, w, 7);
    assert FilterFrom(AllTerms, w, 5) == FilterFrom(AllTerms, w, 6);
    assert FilterFrom(AllTerms, w, 4) == FilterFrom(AllTerms, w, 5);
    assert FilterFrom(AllTerms, w, 3) == FilterFrom(AllTerms, w, 4);
    assert FilterFrom(AllTerms, w, 2) == FilterFrom(AllTerms, w, 3);
    assert FilterFrom(AllTerms, w, 1) == FilterFrom(AllTerms, w, 2);
    assert FilterFrom(AllTerms, w, 0) == FilterFrom(AllTerms, w, 1);
    assert Filter(AllTerms, w) == [("Ŷ", "Forecasted value")];
  }

  /** The glossary's keys, in entry order. */
  lemma GlossaryKeys()
    ensures Keys(AllTerms) == ["Y_t", "ΔY_t", "Δ^d", "ρ_k", "φ_kk", "p", "d", "q", "φ", "θ", "ε_t", "L", "AIC", "BIC", "Ŷ"]
  {
  }

  /**
   * Every key a step lists is a glossary key, and the step shows one entry
   * per listed key.
   */
  lemma EveryListedTermIsShown(step: nat)
    requires step < Topic.steps
    ensures forall k :: k in RelevantTerms[step] ==> k in Keys(AllTerms)
    ensures |GetRelevantMathTerms(step).value| == |RelevantTerms[step]|
  {
    GlossaryKeys();
    if step == 0 { TermsAtStep0(); }
    else if step == 1 { TermsAtStep1(); }
    else if step == 2 { TermsAtStep2(); }
    else if step == 3 { TermsAtStep3(); }
    else if step == 4 { TermsAtStep4(); }
    else if step == 5 { TermsAtStep5(); }
    else if step == 6 { TermsAtStep6(); }
    else { TermsAtStep7(); }
  }

  /** Eight clicks on Next return to the same step, one lap further on. */
  lemma EightNextsCompleteALap(p: Position)
    requires InRange(Topic, p)
    ensures Replay(Topic, p, Nexts(8)) == Position(p.step, p.iterations + 1)
  {
    ReplayNexts(Topic, p, 8);
    FullLap(Topic, p);
  }

  /** Whatever the user clicks, the lap counter never drops below 1. */
  lemma LapCounterNeverBelowOne(clicks: seq<Click>)
    requires AllAvailable(Topic, clicks)
    ensures Replay(Topic, Initial, clicks).iterations >= 1
  {
    ReplayStaysInRange(Topic, Initial, clicks);
  }

}
