/**
 * The XGBoost walkthrough (src/XGBoostVisualization.js): eight steps, a lap
 * counter, a math-details toggle, a description prefixed with the lap, one
 * link per step, and key lists naming symbols the glossary lacks.
 */
module XGBoostVisualization {
  import opened Js
  import opened Navigation
  import opened Glossary
  import opened Content

  const Topic := Config(8, true, true)

  /** The step names, in picker order (icons and colours are left out). */
  const StepName0: string := "Data Input"
  const StepName1: string := "Initial Predictions"
  const StepName2: string := "Calculate Residuals"
  const StepName3: string := "Build Tree"
  const StepName4: string := "Make Predictions"
  const StepName5: string := "Update Ensemble"
  const StepName6: string := "Regularization"
  const StepName7: string := "Final Model"
  const StepNames: seq<string> := [StepName0, StepName1, StepName2, StepName3, StepName4, StepName5, StepName6, StepName7]

  /** The `descriptions` table of `getStepDescription`. */
  const Description0: string := "Loading input data with features (X) and target variables (Y). This step prepares the dataset for training, organizing features and their corresponding target values."
  const Description1: string := "Making initial predictions using the mean of the target variable. This provides a baseline for the model to improve upon."
  const Description2: string := "Calculating residuals by subtracting predictions from actual values. This step helps focus the model on areas where predictions need improvement."
  const Description3: string := "Building a decision tree to predict the residuals from the previous step. The tree is constructed by recursively splitting the data based on features, maximizing the information gain at each split. This process continues until a stopping criterion is met, such as maximum depth or minimum samples per leaf."
  const Description4: string := "Using the new tree to make predictions on the residuals. Each tree's predictions contribute to refining the overall model's predictions."
  const Description5: string := "Adding the new tree's predictions to the ensemble's predictions. The learning rate (η) controls the contribution of each new tree, helping to prevent overfitting. The ensemble now combines multiple weak learners to create a stronger predictive model."
  const Description6: string := "Applying regularization techniques to prevent overfitting. This step penalizes complex models, balancing the trade-off between model complexity and performance. XGBoost uses both L1 (Lasso) and L2 (Ridge) regularization terms in its objective function."
  const Description7: string := "Combining all trees in the ensemble for the final model. This aggregation of weak learners creates a strong predictive model. The final prediction is the sum of predictions from all trees, each scaled by the learning rate."
  const Descriptions: seq<string> := [Description0, Description1, Description2, Description3, Description4, Description5, Description6, Description7]

  /** The `concepts` table of `getStepMathConcept`. */
  const MathConcept0: string := "Input data:\n       X = {x₁, x₂, ..., xₙ} (feature vectors)\n       Y = {y₁, y₂, ..., yₙ} (target values)"
  const MathConcept1: string := "Initial prediction: ŷᵢ = average(Y)"
  const MathConcept2: string := "Residuals: rᵢ = yᵢ - ŷᵢ"
  const MathConcept3: string := "Decision tree: T(X) → r̂\n       Split criterion: Gain = ½ * [GL²/HL + GR²/HR - (GL+GR)²/(HL+HR)]\n       Where G = sum of gradients, H = sum of hessians, L = left child, R = right child\n       The tree is built to maximize this gain at each split."
  const MathConcept4: string := "Tree prediction: ŷᵢ = ŷᵢ + η * T(xᵢ), where η is the learning rate\n       This updates the current prediction with the new tree's output."
  const MathConcept5: string := "Ensemble update: F(x) = F(x) + η * T(x)\n       The new tree T(x) is added to the existing ensemble F(x), scaled by the learning rate η."
  const MathConcept6: string := "Regularization: Obj = Σ L(yᵢ, ŷᵢ) + Ω(T)\n       Where L is the loss function and Ω(T) is the regularization term\n       Ω(T) = γ * number of leaves + ½λ * Σ(leaf weights²)\n       γ controls complexity, λ controls L2 regularization strength"
  const MathConcept7: string := "Final model: F(x) = Σ η * T(x)\n       The final prediction is the sum of all tree outputs, each scaled by the learning rate."
  const MathConcepts: seq<string> := [MathConcept0, MathConcept1, MathConcept2, MathConcept3, MathConcept4, MathConcept5, MathConcept6, MathConcept7]

  /** The `tooltips` table of `getStepTooltip`. */
  const Tooltip0: string := "The input data consists of feature vectors (X) and their corresponding target values (Y). This forms the basis for training the XGBoost model."
  const Tooltip1: string := "Initial predictions provide a baseline for the model to improve upon."
  const Tooltip2: string := "Residuals help focus the model on areas where predictions need improvement."
  const Tooltip3: string := "The decision tree is built by recursively splitting the data based on features."
  const Tooltip4: string := "Each tree's predictions contribute to refining the overall model's predictions. The learning rate controls the impact of each new tree."
  const Tooltip5: string := "The ensemble grows by adding new trees, each addressing remaining errors. This iterative process improves the model's accuracy over time."
  const Tooltip6: string := "Regularization helps prevent overfitting by penalizing complex models. It balances the trade-off between model complexity and performance."
  const Tooltip7: string := "The final model combines predictions from all trees in the ensemble. This aggregation of weak learners creates a strong predictive model."
  const Tooltips: seq<string> := [Tooltip0, Tooltip1, Tooltip2, Tooltip3, Tooltip4, Tooltip5, Tooltip6, Tooltip7]

  /** The `links` table of `getLearnMoreLink`. */
  const Link0: string := "https://xgboost.readthedocs.io/en/latest/tutorials/model.html"
  const Link1: string := "https://xgboost.readthedocs.io/en/latest/tutorials/model.html#tree-boosting"
  const Link2: string := "https://xgboost.readthedocs.io/en/latest/tutorials/model.html#gradient-boosting"
  const Link3: string := "https://xgboost.readthedocs.io/en/latest/tutorials/model.html#regularized-learning-objective"
  const Link4: string := "https://xgboost.readthedocs.io/en/latest/tutorials/model.html#predictive-service"
  const Link5: string := "https://xgboost.readthedocs.io/en/latest/tutorials/model.html#additive-training"
  const Link6: string := "https://xgboost.readthedocs.io/en/latest/tutorials/model.html#regularization"
  const Link7: string := "https://xgboost.readthedocs.io/en/latest/tutorials/model.html#summary"
  const Links: seq<string> := [Link0, Link1, Link2, Link3, Link4, Link5, Link6, Link7]

  /** The glossary's entries, one constant each. */
  const Term0: Term := ("Σ", "Sum of a series")
  const Term1: Term := ("ŷ", "Predicted value")
  const Term2: Term := ("η", "Learning rate")
  const Term3: Term := ("Ω", "Regularization term")
  const Term4: Term := ("L", "Loss function")
  const Term5: Term := ("G", "Sum of gradients")
  const Term6: Term := ("H", "Sum of hessians")
  const Term7: Term := ("T", "Decision tree")
  const Term8: Term := ("F", "Ensemble model")
  const Term9: Term := ("γ", "Complexity control parameter")
  const Term10: Term := ("λ", "L2 regularization strength")

  /** The glossary `allTerms`, in insertion order. */
  const AllTerms: Table := [Term0, Term1, Term2, Term3, Term4, Term5, Term6, Term7, Term8, Term9, Term10]

  /** The `relevantTerms` key lists, one per step. */
  const RelevantTerms: seq<seq<string>> := [
    ["X", "Y"],
    ["ŷ"],
    ["ŷ", "Y"],
    ["G", "H", "T"],
    ["ŷ", "η", "T"],
    ["Σ", "η", "F", "T"],
    ["Ω", "L", "γ", "λ", "Σ"],
    ["Σ", "η", "F", "T"]
  ]

  /**
   * `getStepDescription(step, iterations)`: "Iteration N: " and the step's
   * text; the lap number and the text can be read back from the result.
   */
  function GetStepDescription(step: int, iterations: nat): (r: string)
    ensures ReadIterationDescription(r) ==
      Reading(iterations, if 0 <= step < Topic.steps then Descriptions[step] else "undefined")
  {
    IterationDescriptionReadsBack(Descriptions, step, iterations);
    IterationDescription(Descriptions, step, iterations)
  }

  function GetStepMathConcept(step: int): (r: Lookup<string>)
    ensures r.Defined? <==> 0 <= step < Topic.steps
    ensures r.Defined? ==> r.value == MathConcepts[step]
  {
    Index(MathConcepts, step)
  }

  function GetStepTooltip(step: int): (r: Lookup<string>)
    ensures r.Defined? <==> 0 <= step < Topic.steps
    ensures r.Defined? ==> r.value == Tooltips[step]
  {
    Index(Tooltips, step)
  }

  /** `getLearnMoreLink(step)`: one link per step. */
  function GetLearnMoreLink(step: int): (r: Lookup<string>)
    ensures r.Defined? <==> 0 <= step < Topic.steps
    ensures r.Defined? ==> r.value == Links[step]
  {
    Index(Links, step)
  }

  /** `getRelevantMathTerms(step)`: the filtered glossary, undefined past the key lists. */
  function GetRelevantMathTerms(step: int): (r: Lookup<Table>)
    ensures r.Defined? <==> 0 <= step < Topic.steps
    ensures r.Defined? ==> r.value == Filter(AllTerms, RelevantTerms[step])
  {
    RelevantFor(AllTerms, RelevantTerms, step)
  }

  /**
   * The key of a step holds exactly the glossary entries whose key the step
   * lists, in glossary order.
   */
  lemma RelevantTermsMeetSpec(step: nat)
    requires step < Topic.steps
    ensures IsSubsequence(GetRelevantMathTerms(step).value, AllTerms)
    ensures forall e :: e in GetRelevantMathTerms(step).value <==> e in AllTerms && e.0 in RelevantTerms[step]
  {
    FilterMeetsSpec(AllTerms, RelevantTerms[step]);
  }

  /** The picker has one tile per step, and every step has a key list. */
  lemma OneTileAndOneKeyListPerStep()
    ensures |StepNames| == Topic.steps && |RelevantTerms| == Topic.steps
  {
  }

  /** Step 0 lists 'X' and 'Y'; the key shows nothing; 'X' and 'Y' are not glossary keys. */
  lemma TermsAtStep0()
    ensures GetRelevantMathTerms(0) == Defined([])
  {
    var w := RelevantTerms[0];
    assert FilterFrom(AllTerms, w, 11) == [];
    assert FilterFrom(AllTerms, w, 10) == FilterFrom(AllTerms, w, 11);
    assert FilterFrom(AllTerms, w, 9) == FilterFrom(AllTerms, w, 10);
    assert FilterFrom(AllTerms, w, 8) == FilterFrom(AllTerms, w, 9);
    assert FilterFrom(AllTerms, w, 7) == FilterFrom(AllTerms, w, 8);
    assert FilterFrom(AllTerms, w, 6) == FilterFrom(AllTerms, w, 7);
    assert FilterFrom(AllTerms, w, 5) == FilterFrom(AllTerms, w, 6);
    assert FilterFrom(AllTerms, w, 4) == FilterFrom(AllTerms, w, 5);
    assert FilterFrom(AllTerms, w, 3) == FilterFrom(AllTerms, w, 4);
    assert FilterFrom(AllTerms, w, 2) == FilterFrom(AllTerms, w, 3);
    assert FilterFrom(AllTerms, w, 1) == FilterFrom(AllTerms, w, 2);
    assert FilterFrom(AllTerms, w, 0) == FilterFrom(AllTerms, w, 1);
    assert Filter(AllTerms, w) == [];
  }

  /** Step 1 lists 'ŷ'; the key shows 'ŷ'. */
  lemma TermsAtStep1()
    ensures GetRelevantMathTerms(1) == Defined([("ŷ", "Predicted value")])
  {
    var w := RelevantTerms[1];
    assert FilterFrom(AllTerms, w, 11) == [];
    assert FilterFrom(AllTerms, w, 10) == FilterFrom(AllTerms, w, 11);
    assert FilterFrom(AllTerms, w, 9) == FilterFrom(AllTerms, w, 10);
    assert FilterFrom(AllTerms, w, 8) == FilterFrom(AllTerms, w, 9);
    assert FilterFrom(AllTerms, w, 7) == FilterFrom(AllTerms, w, 8);
    assert FilterFrom(AllTerms, w, 6) == FilterFrom(AllTerms, w, 7);
    assert FilterFrom(AllTerms, w, 5) == FilterFrom(AllTerms, w, 6);
    assert FilterFrom(AllTerms, w, 4) == FilterFrom(AllTerms, w, 5);
    assert FilterFrom(AllTerms, w, 3) == FilterFrom(AllTerms, w, 4);
    assert FilterFrom(AllTerms, w, 2) == FilterFrom(AllTerms, w, 3);
    assert FilterFrom(AllTerms, w, 1) == [Term1] + FilterFrom(AllTerms, w, 2);
    assert FilterFrom(AllTerms, w, 0) == FilterFrom(AllTerms, w, 1);
    assert Filter(AllTerms, w) == [("ŷ", "Predicted value")];
  }

  /** Step 2 lists 'ŷ' and 'Y'; the key shows 'ŷ'; 'Y' is not a glossary key. */
  lemma TermsAtStep2()
    ensures GetRelevantMathTerms(2) == Defined([("ŷ", "Predicted value")])
  {
    var w := RelevantTerms[2];
    assert FilterFrom(AllTerms, w, 11) == [];
    assert FilterFrom(AllTerms, w, 10) == FilterFrom(AllTerms, w, 11);
    assert FilterFrom(AllTerms, w, 9) == FilterFrom(AllTerms, w, 10);
    assert FilterFrom(AllTerms, w, 8) == FilterFrom(AllTerms, w, 9);
    assert FilterFrom(AllTerms, w, 7) == FilterFrom(AllTerms, w, 8);
    assert FilterFrom(AllTerms, w, 6) == FilterFrom(AllTerms, w, 7);
    assert FilterFrom(AllTerms, w, 5) == FilterFrom(AllTerms, w, 6);
    assert FilterFrom(AllTerms, w, 4) == FilterFrom(AllTerms, w, 5);
    assert FilterFrom(AllTerms, w, 3) == FilterFrom(AllTerms, w, 4);
    assert FilterFrom(AllTerms, w, 2) == FilterFrom(AllTerms, w, 3);
    assert FilterFrom(AllTerms, w, 1) == [Term1] + FilterFrom(AllTerms, w, 2);
    assert FilterFrom(AllTerms, w, 0) == FilterFrom(AllTerms, w, 1);
    assert Filter(AllTerms, w) == [("ŷ", "Predicted value")];
  }

  /** Step 3 lists 'G', 'H' and 'T'; the key shows 'G', 'H' and 'T'. */
  lemma TermsAtStep3()
    ensures GetRelevantMathTerms(3) == Defined([("G", "Sum of gradients"), ("H", "Sum of hessians"), ("T", "Decision tree")])
  {
    var w := RelevantTerms[3];
    assert FilterFrom(AllTerms, w, 11) == [];
    assert FilterFrom(AllTerms, w, 10) == FilterFrom(AllTerms, w, 11);
    assert FilterFrom(AllTerms, w, 9) == FilterFrom(AllTerms, w, 10);
    assert FilterFrom(AllTerms, w, 8) == FilterFrom(AllTerms, w, 9);
    assert FilterFrom(AllTerms, w, 7) == [Term7] + FilterFrom(AllTerms, w, 8);
    assert FilterFrom(AllTerms, w, 6) == [Term6] + FilterFrom(AllTerms, w, 7);
    assert FilterFrom(AllTerms, w, 5) == [Term5] + FilterFrom(AllTerms, w, 6);
    assert FilterFrom(AllTerms, w, 4) == FilterFrom(AllTerms, w, 5);
    assert FilterFrom(AllTerms, w, 3) == FilterFrom(AllTerms, w, 4);
    assert FilterFrom(AllTerms, w, 2) == FilterFrom(AllTerms, w, 3);
    assert FilterFrom(AllTerms, w, 1) == FilterFrom(AllTerms, w, 2);
    assert FilterFrom(AllTerms, w, 0) == FilterFrom(AllTerms, w, 1);
    assert Filter(AllTerms, w) == [("G", "Sum of gradients"), ("H", "Sum of hessians"), ("T", "Decision tree")];
  }

  /** Step 4 lists 'ŷ', 'η' and 'T'; the key shows 'ŷ', 'η' and 'T'. */
  lemma TermsAtStep4()
    ensures GetRelevantMathTerms(4) == Defined([("ŷ", "Predicted value"), ("η", "Learning rate"), ("T", "Decision tree")])
  {
    var w := RelevantTerms[4];
    assert FilterFrom(AllTerms, w, 11) == [];
    assert FilterFrom(AllTerms, w, 10) == FilterFrom(AllTerms, w, 11);
    assert FilterFrom(AllTerms, w, 9) == FilterFrom(AllTerms, w, 10);
    assert FilterFrom(AllTerms, w, 8) == FilterFrom(AllTerms, w, 9);
    assert FilterFrom(AllTerms, w, 7) == [Term7] + FilterFrom(AllTerms, w, 8);
    assert FilterFrom(AllTerms, w, 6) == FilterFrom(AllTerms, w, 7);
    assert FilterFrom(AllTerms, w, 5) == FilterFrom(AllTerms, w, 6);
    assert FilterFrom(AllTerms, w, 4) == FilterFrom(AllTerms, w, 5);
    assert FilterFrom(AllTerms, w, 3) == FilterFrom(AllTerms, w, 4);
    assert FilterFrom(AllTerms, w, 2) == [Term2] + FilterFrom(AllTerms, w, 3);
    assert FilterFrom(AllTerms, w, 1) == [Term1] + FilterFrom(AllTerms, w, 2);
    assert FilterFrom(AllTerms, w, 0) == FilterFrom(AllTerms, w, 1);
    assert Filter(AllTerms, w) == [("ŷ", "Predicted value"), ("η", "Learning rate"), ("T", "Decision tree")];
  }

  /** Step 5 lists 'Σ', 'η', 'F' and 'T'; the key shows 'Σ', 'η', 'T' and 'F', in glossary order. */
  lemma TermsAtStep5()
    ensures GetRelevantMathTerms(5) == Defined([("Σ", "Sum of a series"), ("η", "Learning rate"), ("T", "Decision tree"), ("F", "Ensemble model")])
  {
    var w := RelevantTerms[5];
    assert FilterFrom(AllTerms, w, 11) == [];
    assert FilterFrom(AllTerms, w, 10) == FilterFrom(AllTerms, w, 11);
    assert FilterFrom(AllTerms, w, 9) == FilterFrom(AllTerms, w, 10);
    assert FilterFrom(AllTerms, w, 8) == [Term8] + FilterFrom(AllTerms, w, 9);
    assert FilterFrom(AllTerms, w, 7) == [Term7] + FilterFrom(AllTerms, w, 8);
    assert FilterFrom(AllTerms, w, 6) == FilterFrom(AllTerms, w, 7);
    assert FilterFrom(AllTerms, w, 5) == FilterFrom(AllTerms, w, 6);
    assert FilterFrom(AllTerms, w, 4) == FilterFrom(AllTerms, w, 5);
    assert FilterFrom(AllTerms, w, 3) == FilterFrom(AllTerms, w, 4);
    assert FilterFrom(AllTerms, w, 2) == [Term2] + FilterFrom(AllTerms, w, 3);
    assert FilterFrom(AllTerms, w, 1) == FilterFrom(AllTerms, w, 2);
    assert FilterFrom(AllTerms, w, 0) == [Term0] + FilterFrom(AllTerms, w, 1);
    assert Filter(AllTerms, w) == [("Σ", "Sum of a series"), ("η", "Learning rate"), ("T", "Decision tree"), ("F", "Ensemble model")];
  }

  /** Step 6 lists 'Ω', 'L', 'γ', 'λ' and 'Σ'; the key shows 'Σ', 'Ω', 'L', 'γ' and 'λ', in glossary order. */
  lemma TermsAtStep6()
    ensures GetRelevantMathTerms(6) == Defined([("Σ", "Sum of a series"), ("Ω", "Regularization term"), ("L", "Loss function"), ("γ", "Complexity control parameter"), ("λ", "L2 regularization strength")])
  {
    var w := RelevantTerms[6];
    assert FilterFrom(AllTerms, w, 11) == [];
    assert FilterFrom(AllTerms, w, 10) == [Term10] + FilterFrom(AllTerms, w, 11);
    assert FilterFrom(AllTerms, w, 9) == [Term9] + FilterFrom(AllTerms, w, 10);
    assert FilterFrom(AllTerms, w, 8) == FilterFrom(AllTerms, w, 9);
    assert FilterFrom(AllTerms, w, 7) == FilterFrom(AllTerms, w, 8);
    assert FilterFrom(AllTerms, w, 6) == FilterFrom(AllTerms, w, 7);
    assert FilterFrom(AllTerms, w, 5) == FilterFrom(AllTerms, w, 6);
    assert FilterFrom(AllTerms, w, 4) == [Term4] + FilterFrom(AllTerms, w, 5);
    assert FilterFrom(AllTerms, w, 3) == [Term3] + FilterFrom(AllTerms, w, 4);
    assert FilterFrom(AllTerms, w, 2) == FilterFrom(AllTerms, w, 3);
    assert FilterFrom(AllTerms, w, 1) == FilterFrom(AllTerms, w, 2);
    assert FilterFrom(AllTerms, w, 0) == [Term0] + FilterFrom(AllTerms, w, 1);
    assert Filter(AllTerms, w) == [("Σ", "Sum of a series"), ("Ω", "Regularization term"), ("L", "Loss function"), ("γ", "Complexity control parameter"), ("λ", "L2 regularization strength")];
  }

  /** Step 7 lists 'Σ', 'η', 'F' and 'T'; the key shows 'Σ', 'η', 'T' and 'F', in glossary order. */
  lemma TermsAtStep7()
    ensures GetRelevantMathTerms(7) == Defined([("Σ", "Sum of a series"), ("η", "Learning rate"), ("T", "Decision tree"), ("F", "Ensemble model")])
  {
    var w := RelevantTerms[7];
    assert FilterFrom(AllTerms, w, 11) == [];
    assert FilterFrom(AllTerms, w, 10) == FilterFrom(AllTerms, w, 11);
    assert FilterFrom(AllTerms, w, 9) == FilterFrom(AllTerms, w, 10);
    assert FilterFrom(AllTerms, w, 8) == [Term8] + FilterFrom(AllTerms, w, 9);
    assert FilterFrom(AllTerms, w, 7) == [Term7] + FilterFrom(AllTerms, w, 8);
    assert FilterFrom(AllTerms, w, 6) == FilterFrom(AllTerms, w, 7);
    assert FilterFrom(AllTerms, w, 5) == FilterFrom(AllTerms, w, 6);
    assert FilterFrom(AllTerms, w, 4) == FilterFrom(AllTerms, w, 5);
    assert FilterFrom(AllTerms, w, 3) == FilterFrom(AllTerms, w, 4);
    assert FilterFrom(AllTerms, w, 2) == [Term2] + FilterFrom(AllTerms, w, 3);
    assert FilterFrom(AllTerms, w, 1) == FilterFrom(AllTerms, w, 2);
    assert FilterFrom(AllTerms, w, 0) == [Term0] + FilterFrom(AllTerms, w, 1);
    assert Filter(AllTerms, w) == [("Σ", "Sum of a series"), ("η", "Learning rate"), ("T", "Decision tree"), ("F", "Ensemble model")];
  }

  /** Eight clicks on Next return to the same step, one lap further on. */
  lemma EightNextsCompleteALap(p: Position)
    requires InRange(Topic, p)
    ensures Replay(Topic, p, Nexts(8)) == Position(p.step, p.iterations + 1)
  {
    ReplayNexts(Topic, p, 8);
    FullLap(Topic, p);
  }

  /**
   * A full lap forward and one click back: from the initial position, eight
   * Nexts reach step 0 of lap 2 and Prev then returns to step 7 of lap 1;
   * each of the nine clicks redraws.
   */
  lemma ALapForwardAndOneBack()
    ensures Replay(Topic, Initial, Nexts(8) + [Prev]) == Position(7, 1)
    ensures Redraws(Topic, Initial, Nexts(8) + [Prev]) == 9
  {
    ReplayAppend(Topic, Initial, Nexts(8), [Prev]);
    ReplayNexts(Topic, Initial, 8);
    FullLap(Topic, Initial);
    EveryNextRedraws(Topic, Initial, 8);
  }

}
