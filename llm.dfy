/**
 * The LLM walkthrough (src/LLMVisualization.js): nine steps, a lap counter,
 * a math-details toggle, a plain description, and a link table one entry
 * shorter than the step list.
 */
module LLMVisualization {
  import opened Js
  import opened Navigation
  import opened Glossary
  import opened Content

  const Topic := Config(9, true, true)

  /** The step names, in picker order (icons and colours are left out). */
  const StepNames: seq<string> := [
    "Input Processing",
    "Tokenization",
    "Embedding",
    "Attention Mechanism",
    "Layer Processing",
    "Next Token Prediction",
    "Output Generation",
    "Decoding",
    "Final Response"
  ]

  /** The `descriptions` table of `getStepDescription`. */
  const Descriptions: seq<string> := [
    "The LLM receives raw input text and preprocesses it, which may include cleaning, normalization, and handling special tokens.",
    "The preprocessed text is divided into tokens, which are the smallest units the model can process. These can be words, subwords, or characters.",
    "Each token is converted into a high-dimensional vector representation, capturing semantic and syntactic information.",
    "The model calculates attention weights, determining how much focus to place on different parts of the input when generating each part of the output.",
    "The input passes through multiple neural network layers, each extracting and processing different levels of features from the data.",
    "Based on the processed input and learned patterns, the model predicts probabilities for the next token in the sequence.",
    "The final layer produces logits, which are then converted to a probability distribution over the entire vocabulary using a softmax function.",
    "Based on the probability distribution, the model either samples or chooses the most likely token (argmax) to generate the next part of the output.",
    "The generated tokens are combined and post-processed to produce the final human-readable response."
  ]

  /** The `concepts` table of `getStepMathConcept`. */
  const MathConcepts: seq<string> := [
    "Input processing: x = preprocess(input)\n     Where x is the processed input",
    "Tokenization: T = tokenize(x)\n     T = [t₁, t₂, ..., tₙ], where tᵢ are tokens",
    "Embedding: E = embed(T)\n     E = [e₁, e₂, ..., eₙ], where eᵢ ∈ ℝᵈ\n     Lookup: eᵢ = Embedding_matrix[token_id]\n     Where Embedding_matrix ∈ ℝ^(vocab_size × d)",
    "Attention: Attention(Q, K, V) = softmax(QK^T / √d_k)V\n     Where Q, K, V are query, key, and value matrices",
    "Layer processing: output = LayerNorm(input + Sublayer(input))\n     Sublayer can be self-attention or feed-forward network",
    "Next Token: P(next_token | context) = softmax(hidden_state * W_vocab)\n     Where hidden_state is the current model state and W_vocab is the vocabulary projection matrix",
    "Output generation: P(y) = softmax(Wo * h + bo)\n     Where h is the final hidden state, Wo and bo are learnable parameters",
    "Decoding: y = argmax P(y) or y ~ P(y)\n     Choosing the most likely token or sampling from the distribution",
    "Final response: response = postprocess(y₁, y₂, ..., yₘ)\n     Combining generated tokens into coherent text"
  ]

  /** The `tooltips` table of `getStepTooltip`. */
  const Tooltips: seq<string> := [
    "Prepares raw input for model processing",
    "Breaks input into processable units",
    "Converts tokens to vector representations",
    "Weighs importance of different input parts",
    "Processes input through multiple neural layers",
    "The model uses its internal state and learned patterns to assign probabilities to each possible next token.",
    "Generates probability distribution over vocabulary",
    "Selects next token based on probabilities",
    "Assembles final response from generated tokens"
  ]

  /** The `links` table of `getLearnMoreLink`. */
  const Links: seq<string> := [
    "https://huggingface.co/docs/transformers/preprocessing",
    "https://huggingface.co/docs/transformers/tokenizer_summary",
    "https://huggingface.co/docs/transformers/model_summary#transformer",
    "https://arxiv.org/abs/1706.03762",
    "https://arxiv.org/abs/1810.04805",
    "https://huggingface.co/docs/transformers/model_summary#decoder-models",
    "https://huggingface.co/docs/transformers/generation_strategies",
    "https://huggingface.co/docs/transformers/main_classes/text_generation"
  ]

  /** The glossary's entries, one constant each. */
  const Term0: Term := ("x", "Processed input")
  const Term1: Term := ("T", "Token sequence")
  const Term2: Term := ("E", "Embedding matrix")
  const Term3: Term := ("Q, K, V", "Query, Key, Value matrices")
  const Term4: Term := ("softmax", "Softmax function")
  const Term5: Term := ("LayerNorm", "Layer normalization")
  const Term6: Term := ("P(y)", "Probability distribution over vocabulary")
  const Term7: Term := ("argmax", "Argument of the maximum")
  const Term8: Term := ("~", "Sampling operation")
  const Term9: Term := ("postprocess", "Post-processing function")

  /** The glossary `allTerms`, in insertion order. */
  const AllTerms: Table := [Term0, Term1, Term2, Term3, Term4, Term5, Term6, Term7, Term8, Term9]

  /** The `relevantTerms` key lists, one per step. */
  const RelevantTerms: seq<seq<string>> := [
    ["x"],
    ["T"],
    ["E"],
    ["Q, K, V", "softmax"],
    ["LayerNorm"],
    ["P(y)", "softmax"],
    ["P(y)", "softmax"],
    ["argmax", "~"],
    ["postprocess"]
  ]

  /** `getStepDescription(step, iterations)`: the lap number is accepted but not shown. */
  function GetStepDescription(step: int, iterations: nat): (r: Lookup<string>)
    ensures r.Defined? <==> 0 <= step < Topic.steps
    ensures r.Defined? ==> r.value == Descriptions[step]
  {
    PlainDescription(Descriptions, step)
  }

  function GetStepMathConcept(step: int): (r: Lookup<string>)
    ensures r.Defined? <==> 0 <= step < Topic.steps
    ensures r.Defined? ==> r.value == MathConcepts[step]
  {
    Index(MathConcepts, step)
  }

  function GetStepTooltip(step: int): (r: Lookup<string>)
    ensures r.Defined? <==> 0 <= step < Topic.steps
    ensures r.Defined? ==> r.value == Tooltips[step]
  {
    Index(Tooltips, step)
  }

  /** `getLearnMoreLink(step)`: eight links for nine steps, so the last step has none. */
  function GetLearnMoreLink(step: int): (r: Lookup<string>)
    ensures r.Defined? <==> 0 <= step < Topic.steps - 1
    ensures r.Defined? ==> r.value == Links[step]
  {
    Index(Links, step)
  }

  /** `getRelevantMathTerms(step)`: the filtered glossary, undefined past the key lists. */
  function GetRelevantMathTerms(step: int): (r: Lookup<Table>)
    ensures r.Defined? <==> 0 <= step < Topic.steps
    ensures r.Defined? ==> r.value == Filter(AllTerms, RelevantTerms[step])
  {
    RelevantFor(AllTerms, RelevantTerms, step)
  }

  /**
   * The key of a step holds exactly the glossary entries whose key the step
   * lists, in glossary order.
   */
  lemma RelevantTermsMeetSpec(step: nat)
    requires step < Topic.steps
    ensures IsSubsequence(GetRelevantMathTerms(step).value, AllTerms)
    ensures forall e :: e in GetRelevantMathTerms(step).value <==> e in AllTerms && e.0 in RelevantTerms[step]
  {
    FilterMeetsSpec(AllTerms, RelevantTerms[step]);
  }

  /** The picker has one tile per step, and every step has a key list. */
  lemma OneTileAndOneKeyListPerStep()
    ensures |StepNames| == Topic.steps && |RelevantTerms| == Topic.steps
  {
  }

  /** Step 0 lists 'x'; the key shows 'x'. */
  lemma TermsAtStep0()
    ensures GetRelevantMathTerms(0) == Defined([("x", "Processed input")])
  {
    var w := RelevantTerms[0];
    assert FilterFrom(AllTerms, w, 10) == [];
    assert FilterFrom(AllTerms, w, 9) == FilterFrom(AllTerms, w, 10);
    assert FilterFrom(AllTerms, w, 8) == FilterFrom(AllTerms, w, 9);
    assert FilterFrom(AllTerms, w, 7) == FilterFrom(AllTerms, w, 8);
    assert FilterFrom(AllTerms, w, 6) == FilterFrom(AllTerms, w, 7);
    assert FilterFrom(AllTerms, w, 5) == FilterFrom(AllTerms, w, 6);
    assert FilterFrom(AllTerms, w, 4) == FilterFrom(AllTerms, w, 5);
    assert FilterFrom(AllTerms, w, 3) == FilterFrom(AllTerms, w, 4);
    assert FilterFrom(AllTerms, w, 2) == FilterFrom(AllTerms, w, 3);
    assert FilterFrom(AllTerms, w, 1) == FilterFrom(AllTerms, w, 2);
    assert FilterFrom(AllTerms, w, 0) == [Term0] + FilterFrom(AllTerms, w, 1);
    assert Filter(AllTerms, w) == [("x", "Processed input")];
  }

  /** Step 1 lists 'T'; the key shows 'T'. */
  lemma TermsAtStep1()
    ensures GetRelevantMathTerms(1) == Defined([("T", "Token sequence")])
  {
    var w := RelevantTerms[1];
    assert FilterFrom(AllTerms, w, 10) == [];
    assert FilterFrom(AllTerms, w, 9) == FilterFrom(AllTerms, w, 10);
    assert FilterFrom(AllTerms, w, 8) == FilterFrom(AllTerms, w, 9);
    assert FilterFrom(AllTerms, w, 7) == FilterFrom(AllTerms, w, 8);
    assert FilterFrom(AllTerms, w, 6) == FilterFrom(AllTerms, w, 7);
    assert FilterFrom(AllTerms, w, 5) == FilterFrom(AllTerms, w, 6);
    assert FilterFrom(AllTerms, w, 4) == FilterFrom(AllTerms, w, 5);
    assert FilterFrom(AllTerms, w, 3) == FilterFrom(AllTerms, w, 4);
    assert FilterFrom(AllTerms, w, 2) == FilterFrom(AllTerms, w, 3);
    assert FilterFrom(AllTerms, w, 1) == [Term1] + FilterFrom(AllTerms, w, 2);
    assert FilterFrom(AllTerms, w, 0) == FilterFrom(AllTerms, w, 1);
    assert Filter(AllTerms, w) == [("T", "Token sequence")];
  }

  /** Step 2 lists 'E'; the key shows 'E'. */
  lemma TermsAtStep2()
    ensures GetRelevantMathTerms(2) == Defined([("E", "Embedding matrix")])
  {
    var w := RelevantTerms[2];
    assert FilterFrom(AllTerms, w, 10) == [];
    assert FilterFrom(AllTerms, w, 9) == FilterFrom(AllTerms, w, 10);
    assert FilterFrom(AllTerms, w, 8) == FilterFrom(AllTerms, w, 9);
    assert FilterFrom(AllTerms, w, 7) == FilterFrom(AllTerms, w, 8);
    assert FilterFrom(AllTerms, w, 6) == FilterFrom(AllTerms, w, 7);
    assert FilterFrom(AllTerms, w, 5) == FilterFrom(AllTerms, w, 6);
    assert FilterFrom(AllTerms, w, 4) == FilterFrom(AllTerms, w, 5);
    assert FilterFrom(AllTerms, w, 3) == FilterFrom(AllTerms, w, 4);
    assert FilterFrom(AllTerms, w, 2) == [Term2] + FilterFrom(AllTerms, w, 3);
    assert FilterFrom(AllTerms, w, 1) == FilterFrom(AllTerms, w, 2);
    assert FilterFrom(AllTerms, w, 0) == FilterFrom(AllTerms, w, 1);
    assert Filter(AllTerms, w) == [("E", "Embedding matrix")];
  }

  /** Step 3 lists 'Q, K, V' and 'softmax'; the key shows 'Q, K, V' and 'softmax'. */
  lemma TermsAtStep3()
    ensures GetRelevantMathTerms(3) == Defined([("Q, K, V", "Query, Key, Value matrices"), ("softmax", "Softmax function")])
  {
    var w := RelevantTerms[3];
    assert FilterFrom(AllTerms, w, 10) == [];
    assert FilterFrom(AllTerms, w, 9) == FilterFrom(AllTerms, w, 10);
    assert FilterFrom(AllTerms, w, 8) == FilterFrom(AllTerms, w, 9);
    assert FilterFrom(AllTerms, w, 7) == FilterFrom(AllTerms, w, 8);
    assert FilterFrom(AllTerms, w, 6) == FilterFrom(AllTerms, w, 7);
    assert FilterFrom(AllTerms, w, 5) == FilterFrom(AllTerms, w, 6);
    assert FilterFrom(AllTerms, w, 4) == [Term4] + FilterFrom(AllTerms, w, 5);
    assert FilterFrom(AllTerms, w, 3) == [Term3] + FilterFrom(AllTerms, w, 4);
    assert FilterFrom(AllTerms, w, 2) == FilterFrom(AllTerms, w, 3);
    assert FilterFrom(AllTerms, w, 1) == FilterFrom(AllTerms, w, 2);
    assert FilterFrom(AllTerms, w, 0) == FilterFrom(AllTerms, w, 1);
    assert Filter(AllTerms, w) == [("Q, K, V", "Query, Key, Value matrices"), ("softmax", "Softmax function")];
  }

  /** Step 4 lists 'LayerNorm'; the key shows 'LayerNorm'. */
  lemma TermsAtStep4()
    ensures GetRelevantMathTerms(4) == Defined([("LayerNorm", "Layer normalization")])
  {
    var w := RelevantTerms[4];
    assert FilterFrom(AllTerms, w, 10) == [];
    assert FilterFrom(AllTerms, w, 9) == FilterFrom(AllTerms, w, 10);
    assert FilterFrom(AllTerms, w, 8) == FilterFrom(AllTerms, w, 9);
    assert FilterFrom(AllTerms, w, 7) == FilterFrom(AllTerms, w, 8);
    assert FilterFrom(AllTerms, w, 6) == FilterFrom(AllTerms, w, 7);
    assert FilterFrom(AllTerms, w, 5) == [Term5] + FilterFrom(AllTerms, w, 6);
    assert FilterFrom(AllTerms, w, 4) == FilterFrom(AllTerms, w, 5);
    assert FilterFrom(AllTerms, w, 3) == FilterFrom(AllTerms, w, 4);
    assert FilterFrom(AllTerms, w, 2) == FilterFrom(AllTerms, w, 3);
    assert FilterFrom(AllTerms, w, 1) == FilterFrom(AllTerms, w, 2);
    assert FilterFrom(AllTerms, w, 0) == FilterFrom(AllTerms, w, 1);
    assert Filter(AllTerms, w) == [("LayerNorm", "Layer normalization")];
  }

  /** Step 5 lists 'P(y)' and 'softmax'; the key shows 'softmax' and 'P(y)', in glossary order. */
  lemma TermsAtStep5()
    ensures GetRelevantMathTerms(5) == Defined([("softmax", "Softmax function"), ("P(y)", "Probability distribution over vocabulary")])
  {
    var w := RelevantTerms[5];
    assert FilterFrom(AllTerms, w, 10) == [];
    assert FilterFrom(AllTerms, w, 9) == FilterFrom(AllTerms, w, 10);
    assert FilterFrom(AllTerms, w, 8) == FilterFrom(AllTerms, w, 9);
    assert FilterFrom(AllTerms, w, 7) == FilterFrom(AllTerms, w, 8);
    assert FilterFrom(AllTerms, w, 6) == [Term6] + FilterFrom(AllTerms, w, 7);
    assert FilterFrom(AllTerms, w, 5) == FilterFrom(AllTerms, w, 6);
    assert FilterFrom(AllTerms, w, 4) == [Term4] + FilterFrom(AllTerms, w, 5);
    assert FilterFrom(AllTerms, w, 3) == FilterFrom(AllTerms, w, 4);
    assert FilterFrom(AllTerms, w, 2) == FilterFrom(AllTerms, w, 3);
    assert FilterFrom(AllTerms, w, 1) == FilterFrom(AllTerms, w, 2);
    assert FilterFrom(AllTerms, w, 0) == FilterFrom(AllTerms, w, 1);
    assert Filter(AllTerms, w) == [("softmax", "Softmax function"), ("P(y)", "Probability distribution over vocabulary")];
  }

  /** Step 6 lists 'P(y)' and 'softmax'; the key shows 'softmax' and 'P(y)', in glossary order. */
  lemma TermsAtStep6()
    ensures GetRelevantMathTerms(6) == Defined([("softmax", "Softmax function"), ("P(y)", "Probability distribution over vocabulary")])
  {
    var w := RelevantTerms[6];
    assert FilterFrom(AllTerms, w, 10) == [];
    assert FilterFrom(AllTerms, w, 9) == FilterFrom(AllTerms, w, 10);
    assert FilterFrom(AllTerms, w, 8) == FilterFrom(AllTerms, w, 9);
    assert FilterFrom(AllTerms, w, 7) == FilterFrom(AllTerms, w, 8);
    assert FilterFrom(AllTerms, w, 6) == [Term6] + FilterFrom(AllTerms, w, 7);
    assert FilterFrom(AllTerms, w, 5) == FilterFrom(AllTerms, w, 6);
    assert FilterFrom(AllTerms, w, 4) == [Term4] + FilterFrom(AllTerms, w, 5);
    assert FilterFrom(AllTerms, w, 3) == FilterFrom(AllTerms, w, 4);
    assert FilterFrom(AllTerms, w, 2) == FilterFrom(AllTerms, w, 3);
    assert FilterFrom(AllTerms, w, 1) == FilterFrom(AllTerms, w, 2);
    assert FilterFrom(AllTerms, w, 0) == FilterFrom(AllTerms, w, 1);
    assert Filter(AllTerms, w) == [("softmax", "Softmax function"), ("P(y)", "Probability distribution over vocabulary")];
  }

  /** Step 7 lists 'argmax' and '~'; the key shows 'argmax' and '~'. */
  lemma TermsAtStep7()
    ensures GetRelevantMathTerms(7) == Defined([("argmax", "Argument of the maximum"), ("~", "Sampling operation")])
  {
    var w := RelevantTerms[7];
    assert FilterFrom(AllTerms, w, 10) == [];
    assert FilterFrom(AllTerms, w, 9) == FilterFrom(AllTerms, w, 10);
    assert FilterFrom(AllTerms, w, 8) == [Term8] + FilterFrom(AllTerms, w, 9);
    assert FilterFrom(AllTerms, w, 7) == [Term7] + FilterFrom(AllTerms, w, 8);
    assert FilterFrom(AllTerms, w, 6) == FilterFrom(AllTerms, w, 7);
    assert FilterFrom(AllTerms, w, 5) == FilterFrom(AllTerms, w, 6);
    assert FilterFrom(AllTerms, w, 4) == FilterFrom(AllTerms, w, 5);
    assert FilterFrom(AllTerms, w, 3) == FilterFrom(AllTerms, w, 4);
    assert FilterFrom(AllTerms, w, 2) == FilterFrom(AllTerms, w, 3);
    assert FilterFrom(AllTerms, w, 1) == FilterFrom(AllTerms, w, 2);
    assert FilterFrom(AllTerms, w, 0) == FilterFrom(AllTerms, w, 1);
    assert Filter(AllTerms, w) == [("argmax", "Argument of the maximum"), ("~", "Sampling operation")];
  }

  /** Step 8 lists 'postprocess'; the key shows 'postprocess'. */
  lemma TermsAtStep8()
    ensures GetRelevantMathTerms(8) == Defined([("postprocess", "Post-processing function")])
  {
    var w := RelevantTerms[8];
    assert FilterFrom(AllTerms, w, 10) == [];
    assert FilterFrom(AllTerms, w, 9) == [Term9] + FilterFrom(AllTerms, w, 10);
    assert FilterFrom(AllTerms, w, 8) == FilterFrom(AllTerms, w, 9);
    assert FilterFrom(AllTerms, w, 7) == FilterFrom(AllTerms, w, 8);
    assert FilterFrom(AllTerms, w, 6) == FilterFrom(AllTerms, w, 7);
    assert FilterFrom(AllTerms, w, 5) == FilterFrom(AllTerms, w, 6);
    assert FilterFrom(AllTerms, w, 4) == FilterFrom(AllTerms, w, 5);
    assert FilterFrom(AllTerms, w, 3) == FilterFrom(AllTerms, w, 4);
    assert FilterFrom(AllTerms, w, 2) == FilterFrom(AllTerms, w, 3);
    assert FilterFrom(AllTerms, w, 1) == FilterFrom(AllTerms, w, 2);
    assert FilterFrom(AllTerms, w, 0) == FilterFrom(AllTerms, w, 1);
    assert Filter(AllTerms, w) == [("postprocess", "Post-processing function")];
  }

  /** The glossary's keys, in entry order. */
  lemma GlossaryKeys()
    ensures Keys(AllTerms) == ["x", "T", "E", "Q, K, V", "softmax", "LayerNorm", "P(y)", "argmax", "~", "postprocess"]
  {
  }

  /**
   * Every key a step lists is a glossary key, and the step shows one entry
   * per listed key.
   */
  lemma EveryListedTermIsShown(step: nat)
    requires step < Topic.steps
    ensures forall k :: k in RelevantTerms[step] ==> k in Keys(AllTerms)
    ensures |GetRelevantMathTerms(step).value| == |RelevantTerms[step]|
  {
    GlossaryKeys();
    if step == 0 { TermsAtStep0(); }
    else if step == 1 { TermsAtStep1(); }
    else if step == 2 { TermsAtStep2(); }
    else if step == 3 { TermsAtStep3(); }
    else if step == 4 { TermsAtStep4(); }
    else if step == 5 { TermsAtStep5(); }
    else if step == 6 { TermsAtStep6(); }
    else if step == 7 { TermsAtStep7(); }
    else { TermsAtStep8(); }
  }

  /** Nine clicks on Next return to the same step, one lap further on. */
  lemma NineNextsCompleteALap(p: Position)
    requires InRange(Topic, p)
    ensures Replay(Topic, p, Nexts(9)) == Position(p.step, p.iterations + 1)
  {
    ReplayNexts(Topic, p, 9);
    FullLap(Topic, p);
  }
}
