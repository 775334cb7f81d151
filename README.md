# Step-through model walkthroughs: navigator, glossary filter and content tables

The repository is a set of React components. Each one walks a reader through
the pipeline of one forecasting or machine-learning model, step by step:
LLM text generation, Prophet, exponential smoothing, XGBoost, AutoARIMA and
NeuralProphet. All six carry the same small piece of logic, with variations:

- a **step navigator**: the active step, an optional lap counter
  `iterations`, and a redraw counter `animationKey`. Next wraps from the last
  step to 0 and starts a new lap. Prev wraps from 0 to the last step and
  lowers the lap, never below 1. A picker tile jumps to its step. A
  `useEffect` bumps `animationKey` whenever its dependencies change;
- **per-step content tables**: descriptions, formulas, tooltips and
  "learn more" links, looked up by step index;
- a **glossary filter** `getRelevantMathTerms(step)`: the entries of an
  ordered term table whose key appears in the step's key list, in glossary
  order.

The Dafny project models these pieces.

| file | module | what it holds |
|---|---|---|
| `js.dfy` | `Js` | `a[i]`, which yields `undefined` past the end, and `${v}` rendering `undefined` |
| `decimal.dfy` | `Decimal` | `${n}` for a lap number, and reading a numeral back |
| `navigation.dfy` | `Navigation` | the transitions as functions on a `Position`; click sequences and their replay; the `Panel` class that holds the component state and updates it in place the way the handlers and the effect do |
| `glossary.dfy` | `Glossary` | the filter as an index walk over the entry list; its specification and lemmas |
| `content.dfy` | `Content` | plain and "Iteration N: " descriptions, and a reader that recovers the lap and the text |
| `llm.dfy` … `neural_prophet.dfy` | one module per component | that component's configuration, its literal tables, its lookups, and facts about its data |

Each topic is a `Navigation.Config`: the step count, whether a lap counter
exists and whether the math details can be toggled. The topic's tables are
its own constants.

Two details of the source shape the model:
- The LLM, exponential smoothing, XGBoost, AutoARIMA and NeuralProphet
  topics list `[activeStep, iterations]` as the effect's dependencies, so a
  lap change alone also redraws. Prophet lists `[activeStep]`
  (`Navigation.DepsChanged`).
- `getStepDescription` of the LLM topic takes `iterations` but ignores it,
  so that topic is modelled with a plain description.

## Model

| member | source | states |
|---|---|---|
| Js.Index | src/LLMVisualization.js:521-534 | reading `descriptions[step]` is defined exactly for indices inside the table, and then yields that element |
| Js.TemplateText | src/ExponentialSmoothingVisualization.js:250 | `${v}` gives the string itself, or the text "undefined" for an undefined value |
| Decimal.NatToString | src/ExponentialSmoothingVisualization.js:250 | `${iterations}` is a non-empty run of digits, with no leading zero, whose decimal value is the number |
| Decimal.NatToStringInjective | src/ExponentialSmoothingVisualization.js:250 | different lap numbers render as different numerals |
| Decimal.CanonicalNumeral | src/ExponentialSmoothingVisualization.js:250 | a non-empty digit run without a leading zero is the rendering of its own value, so `${n}` has exactly one form |
| Glossary.RelevantFor | src/LLMVisualization.js:591-620 | `getRelevantMathTerms` is defined exactly for steps that have a key list, and is then the glossary filtered by that list |
| Glossary.Keys | src/LLMVisualization.js:618 | the keys `Object.entries` yields, one per entry and in order |
| Glossary.FilterAppend | src/LLMVisualization.js:617-619 | filtering a concatenation is concatenating the filtered parts |
| Glossary.FilterMembers | src/LLMVisualization.js:617-619 | an entry is in the result iff it is a glossary entry whose key the list contains |
| Glossary.FilterKeysAreWantedGlossaryKeys | src/LLMVisualization.js:617-619 | every result key is both a glossary key and a listed key |
| Glossary.FilterIsSubsequence | src/LLMVisualization.js:617-619 | the result is a subsequence of the glossary: nothing is added or reordered |
| Glossary.FilterMeetsSpec | src/LLMVisualization.js:617-619 | the filter meets its specification: it is a subsequence of the glossary, holding exactly the listed glossary entries |
| Glossary.FilterKeepsGlossaryOrder | src/LLMVisualization.js:617-619 | two listed entries come out in glossary order, whatever their order in the key list |
| Glossary.FilterDependsOnlyOnKnownKeys | src/LLMVisualization.js:617-619 | the order of the key list, repetitions in it and keys absent from the glossary do not change the result |
| Glossary.FilterKeepsDistinctKeys | src/LLMVisualization.js:617-619 | a glossary without repeated keys gives a result without repeated keys |
| Glossary.FilterKeySet | src/LLMVisualization.js:617-619 | when every listed key is a glossary key, the result's keys are exactly the listed keys |
| Glossary.FilterSizeWhenComplete | src/LLMVisualization.js:617-619 | when every listed key is a glossary key and nothing repeats, the result has one entry per listed key |
| Navigation.TransitionsStayInRange | src/LLMVisualization.js:27-43 | Next, Prev and a picker click on an existing tile keep the step inside the list and the lap counter at 1 or more (exactly 1 without a counter) |
| Navigation.RetreatUndoesAdvance | src/LLMVisualization.js:27-43 | Prev right after Next restores the previous position, also across the wrap at the last step |
| Navigation.AdvanceUndoesRetreatExceptAtFloor | src/LLMVisualization.js:27-43 | Next right after Prev restores the position, except from step 0 of lap 1 in a counting topic: there Prev stays in lap 1 |
| Navigation.NonIteratingInverses | src/ProphetVisualization.js:27-41 | without a lap counter, Next and Prev are mutual inverses |
| Navigation.AdvanceTimesClosedForm | src/LLMVisualization.js:27-34 | after k clicks on Next the step is (s + k) mod N and the lap counter has grown by (s + k) div N |
| Navigation.FullLap | src/LLMVisualization.js:27-34 | N clicks on Next return to the same step, one lap further on (the same lap without a counter) |
| Navigation.RetreatTimesWithinLap | src/LLMVisualization.js:36-43 | clicks on Prev that do not pass step 0 only move the step back |
| Navigation.RetreatTimesAdd | src/LLMVisualization.js:36-43 | a clicks on Prev and then b more are a + b clicks |
| Navigation.FullLapBack | src/LLMVisualization.js:36-43 | N clicks on Prev return to the same step with one lap fewer, but never fewer than one |
| Navigation.NextAndPrevAlwaysRedraw | src/LLMVisualization.js:11-13 | with more than one step, every Next and every Prev changes the effect's dependencies |
| Navigation.JumpRedrawsIffMoved | src/LLMVisualization.js:11-13 | a picker click redraws exactly when it selects a different tile |
| Navigation.Navigational | src/LLMVisualization.js:92 | dropping the toggle and hover clicks leaves a shorter sequence that contains none of them |
| Navigation.Nexts | src/LLMVisualization.js:27-34 | k clicks, each of them Next |
| Navigation.ReplayStaysInRange | src/LLMVisualization.js:27-73 | any sequence of clicks the page offers keeps the position reachable |
| Navigation.TogglesAndHoversAreInert | src/LLMVisualization.js:92-122 | the math toggle and the help-icon hover change neither the position nor the number of redraws |
| Navigation.ReplayAppend | src/LLMVisualization.js:11-43 | clicking a and then b is clicking a + b, for the position and for the redraw count |
| Navigation.ReplayNexts | src/LLMVisualization.js:27-34 | k clicks on Next are k applications of `handleNextStep` |
| Navigation.EveryNextRedraws | src/LLMVisualization.js:11-34 | with more than one step, each of k clicks on Next redraws |
| Navigation.RunSession | src/LLMVisualization.js:5-122 | mounting a panel and performing the clicks on it ends at the replayed position, with `animationKey` one above the number of redraws |
| Navigation.Panel.MathVisible | src/NeuralProphetVisualization.js:86-92 | the math concept and the key are visible when toggled on, and always in a topic without a toggle |
| Navigation.Panel.constructor | src/LLMVisualization.js:5-13 | a mounted panel is at step 0 of lap 1 with the math details and tooltip hidden, and the mount run of the effect has set `animationKey` to 1 |
| Navigation.Panel.RunEffect | src/LLMVisualization.js:11-13 | the effect adds 1 to `animationKey` exactly when the dependencies changed |
| Navigation.Panel.HandleNextStep | src/LLMVisualization.js:27-34 | the new position is `Advance` of the old one; `animationKey` grows by 1 iff the dependencies changed; the UI flags are kept |
| Navigation.Panel.HandlePrevStep | src/LLMVisualization.js:36-43 | the new position is `Retreat` of the old one; `animationKey` grows by 1 iff the dependencies changed; the UI flags are kept |
| Navigation.Panel.SelectStep | src/LLMVisualization.js:64-73 | the step becomes the tile's index with the lap kept; the key grows iff the step moved |
| Navigation.Panel.ToggleMathDetails | src/LLMVisualization.js:92 | flips the math details and keeps the position and `animationKey` |
| Navigation.Panel.SetTooltip | src/LLMVisualization.js:121-122 | shows or hides the tooltip and keeps the position and `animationKey` |
| Content.PlainDescription | src/LLMVisualization.js:521-534 | a plain description is defined exactly inside the table, and is then the step's text |
| Content.PrefixReadsBack | src/ExponentialSmoothingVisualization.js:250 | "Iteration ", a numeral and ": " in front of a text read back as that number and that text |
| Content.ReadingDeterminesText | src/ExponentialSmoothingVisualization.js:250 | a string that reads back as a lap number and a text is exactly the rendering of that number and text, so a description's reading fixes the whole string |
| Content.IterationDescriptionReadsBack | src/ExponentialSmoothingVisualization.js:239-251 | a prefixed description reads back as the lap number and the step's text, or "undefined" past the table |
| Content.IterationDescriptionDistinguishesLaps | src/ExponentialSmoothingVisualization.js:239-251 | two laps of the same step never render the same description |
| LLMVisualization.GetStepDescription | src/LLMVisualization.js:521-534 | defined exactly for the nine steps, with the step's description; the lap number is not used |
| LLMVisualization.GetStepMathConcept | src/LLMVisualization.js:536-560 | defined exactly for the nine steps, with the step's formula text |
| LLMVisualization.GetStepTooltip | src/LLMVisualization.js:562-575 | defined exactly for the nine steps, with the step's tooltip |
| LLMVisualization.GetLearnMoreLink | src/LLMVisualization.js:577-589 | defined exactly for the first eight steps: the last step has no link |
| LLMVisualization.GetRelevantMathTerms | src/LLMVisualization.js:591-620 | defined exactly for the nine steps (past them `relevantTerms[step].includes` throws), as the glossary filtered by the step's key list |
| LLMVisualization.RelevantTermsMeetSpec | src/LLMVisualization.js:591-620 | a step's key is a subsequence of the glossary and holds an entry iff the entry is in the glossary and its key is listed for the step |
| LLMVisualization.OneTileAndOneKeyListPerStep | src/LLMVisualization.js:15-73 | the picker renders one tile per step and `relevantTerms` has a list for each step |
| LLMVisualization.TermsAtStep0 | src/LLMVisualization.js:591-620 | the exact entries (keys and definitions) shown: step 0 lists 'x'; the key shows 'x' |
| LLMVisualization.TermsAtStep1 | src/LLMVisualization.js:591-620 | the exact entries (keys and definitions) shown: step 1 lists 'T'; the key shows 'T' |
| LLMVisualization.TermsAtStep2 | src/LLMVisualization.js:591-620 | the exact entries (keys and definitions) shown: step 2 lists 'E'; the key shows 'E' |
| LLMVisualization.TermsAtStep3 | src/LLMVisualization.js:591-620 | the exact entries (keys and definitions) shown: step 3 lists 'Q, K, V' and 'softmax'; the key shows 'Q, K, V' and 'softmax' |
| LLMVisualization.TermsAtStep4 | src/LLMVisualization.js:591-620 | the exact entries (keys and definitions) shown: step 4 lists 'LayerNorm'; the key shows 'LayerNorm' |
| LLMVisualization.TermsAtStep5 | src/LLMVisualization.js:591-620 | the exact entries (keys and definitions) shown: step 5 lists 'P(y)' and 'softmax'; the key shows 'softmax' and 'P(y)', in glossary order |
| LLMVisualization.TermsAtStep6 | src/LLMVisualization.js:591-620 | the exact entries (keys and definitions) shown: step 6 lists 'P(y)' and 'softmax'; the key shows 'softmax' and 'P(y)', in glossary order |
| LLMVisualization.TermsAtStep7 | src/LLMVisualization.js:591-620 | the exact entries (keys and definitions) shown: step 7 lists 'argmax' and '~'; the key shows 'argmax' and '~' |
| LLMVisualization.TermsAtStep8 | src/LLMVisualization.js:591-620 | the exact entries (keys and definitions) shown: step 8 lists 'postprocess'; the key shows 'postprocess' |
| LLMVisualization.GlossaryKeys | src/LLMVisualization.js:591-620 | the glossary's keys, in the order `Object.entries` yields them |
| LLMVisualization.EveryListedTermIsShown | src/LLMVisualization.js:591-620 | every key a step lists is a glossary key, and the step shows one entry per listed key |
| LLMVisualization.NineNextsCompleteALap | src/LLMVisualization.js:27-34 | nine clicks on Next from any reachable position give the same step with the lap counter one higher |
| ProphetVisualization.GetStepDescription | src/ProphetVisualization.js:201-215 | defined exactly for the ten steps, with the step's description |
| ProphetVisualization.GetStepMathConcept | src/ProphetVisualization.js:217-242 | defined exactly for the ten steps, with the step's formula text |
| ProphetVisualization.GetStepTooltip | src/ProphetVisualization.js:244-258 | defined exactly for the ten steps, with the step's tooltip |
| ProphetVisualization.GetLearnMoreLink | src/ProphetVisualization.js:297-310 | defined exactly for the first nine steps: the last step has no link |
| ProphetVisualization.GetRelevantMathTerms | src/ProphetVisualization.js:260-295 | defined exactly for the ten steps (past them `relevantTerms[step].includes` throws), as the glossary filtered by the step's key list |
| ProphetVisualization.RelevantTermsMeetSpec | src/ProphetVisualization.js:260-295 | a step's key is a subsequence of the glossary and holds an entry iff the entry is in the glossary and its key is listed for the step |
| ProphetVisualization.OneTileAndOneKeyListPerStep | src/ProphetVisualization.js:14-359 | the picker renders one tile per step and `relevantTerms` has a list for each step |
| ProphetVisualization.TermsAtStep0 | src/ProphetVisualization.js:260-295 | the exact entries (keys and definitions) shown: step 0 lists 'y(t)', 'g(t)', 's(t)', 'h(t)' and 'ε(t)'; the key shows 'y(t)', 'g(t)', 's(t)', 'h(t)' and 'ε(t)' |
| ProphetVisualization.TermsAtStep1 | src/ProphetVisualization.js:260-295 | the exact entries (keys and definitions) shown: step 1 lists 'y(t)', 'g(t)', 's(t)', 'h(t)' and 'ε(t)'; the key shows 'y(t)', 'g(t)', 's(t)', 'h(t)' and 'ε(t)' |
| ProphetVisualization.TermsAtStep2 | src/ProphetVisualization.js:260-295 | the exact entries (keys and definitions) shown: step 2 lists 'g(t)', 'k' and 'a(t)'; the key shows 'g(t)', 'k' and 'a(t)' |
| ProphetVisualization.TermsAtStep3 | src/ProphetVisualization.js:260-295 | the exact entries (keys and definitions) shown: step 3 lists 's(t)' and 'P'; the key shows 's(t)' and 'P' |
| ProphetVisualization.TermsAtStep4 | src/ProphetVisualization.js:260-295 | the exact entries (keys and definitions) shown: step 4 lists 'h(t)', 'Z(t)' and 'κ'; the key shows 'h(t)', 'Z(t)' and 'κ' |
| ProphetVisualization.TermsAtStep5 | src/ProphetVisualization.js:260-295 | the exact entries (keys and definitions) shown: step 5 lists 'β' and 'x(t)'; the key shows 'β' and 'x(t)' |
| ProphetVisualization.TermsAtStep6 | src/ProphetVisualization.js:260-295 | the exact entries (keys and definitions) shown: step 6 lists 'MSE'; the key shows 'MSE' |
| ProphetVisualization.TermsAtStep7 | src/ProphetVisualization.js:260-295 | the exact entries (keys and definitions) shown: step 7 lists 'y(t)', 'g(t)', 's(t)', 'h(t)', 'β', 'x(t)' and 'ε(t)'; the key shows 'y(t)', 'g(t)', 's(t)', 'h(t)', 'ε(t)', 'β' and 'x(t)', in glossary order |
| ProphetVisualization.TermsAtStep8 | src/ProphetVisualization.js:260-295 | the exact entries (keys and definitions) shown: step 8 lists 'ŷ(t)', 'g(t)', 's(t)', 'h(t)', 'β' and 'x(t)'; the key shows 'g(t)', 's(t)', 'h(t)', 'β', 'x(t)' and 'ŷ(t)', in glossary order |
| ProphetVisualization.TermsAtStep9 | src/ProphetVisualization.js:260-295 | the exact entries (keys and definitions) shown: step 9 lists 'y(t)', 'ŷ(t)' and 'σ²'; the key shows 'y(t)', 'ŷ(t)' and 'σ²' |
| ProphetVisualization.GlossaryKeys | src/ProphetVisualization.js:260-295 | the glossary's keys, in the order `Object.entries` yields them |
| ProphetVisualization.EveryListedTermIsShown | src/ProphetVisualization.js:260-295 | every key a step lists is a glossary key, and the step shows one entry per listed key |
| ProphetVisualization.TenNextsReturnToStart | src/ProphetVisualization.js:27-33 | ten clicks on Next from any step return to exactly that position (no lap counter) |
| ProphetVisualization.NextAndPrevAreInverses | src/ProphetVisualization.js:27-41 | Prev undoes Next and Next undoes Prev at every step, across the 9/0 wrap too |
| ProphetVisualization.RedrawsExactlyWhenTheStepChanges | src/ProphetVisualization.js:10-12 | the effect's dependency list is `[activeStep]` alone: a redraw happens iff the step differs |
| ExponentialSmoothingVisualization.GetStepDescription | src/ExponentialSmoothingVisualization.js:239-251 | the text reads back as the current lap number and the step's description ("undefined" past the eight steps); with `Content.ReadingDeterminesText` this fixes the whole rendered string |
| ExponentialSmoothingVisualization.GetStepMathConcept | src/ExponentialSmoothingVisualization.js:253-283 | defined exactly for the eight steps, with the step's formula text |
| ExponentialSmoothingVisualization.GetStepTooltip | src/ExponentialSmoothingVisualization.js:285-297 | defined exactly for the eight steps, with the step's tooltip |
| ExponentialSmoothingVisualization.GetLearnMoreLink | src/ExponentialSmoothingVisualization.js:334-346 | defined for every one of the eight steps |
| ExponentialSmoothingVisualization.GetRelevantMathTerms | src/ExponentialSmoothingVisualization.js:299-332 | defined exactly for the eight steps (past them `relevantTerms[step].includes` throws), as the glossary filtered by the step's key list |
| ExponentialSmoothingVisualization.RelevantTermsMeetSpec | src/ExponentialSmoothingVisualization.js:299-332 | a step's key is a subsequence of the glossary and holds an entry iff the entry is in the glossary and its key is listed for the step |
| ExponentialSmoothingVisualization.OneTileAndOneKeyListPerStep | src/ExponentialSmoothingVisualization.js:15-396 | the picker renders one tile per step and `relevantTerms` has a list for each step |
| ExponentialSmoothingVisualization.TermsAtStep0 | src/ExponentialSmoothingVisualization.js:299-332 | the exact entries (keys and definitions) shown: step 0 lists 'Y' and 'yₜ'; the key shows 'Y' and 'yₜ' |
| ExponentialSmoothingVisualization.TermsAtStep1 | src/ExponentialSmoothingVisualization.js:299-332 | the exact entries (keys and definitions) shown: step 1 lists 'AIC' and 'L'; the key shows 'AIC' and 'L' |
| ExponentialSmoothingVisualization.TermsAtStep2 | src/ExponentialSmoothingVisualization.js:299-332 | the exact entries (keys and definitions) shown: step 2 lists 'Fₜ', 'lₜ', 'bₜ' and 'sₜ'; the key shows 'Fₜ', 'lₜ', 'bₜ' and 'sₜ' |
| ExponentialSmoothingVisualization.TermsAtStep3 | src/ExponentialSmoothingVisualization.js:299-332 | the exact entries (keys and definitions) shown: step 3 lists 'eₜ', 'yₜ' and 'Fₜ'; the key shows 'yₜ', 'Fₜ' and 'eₜ', in glossary order |
| ExponentialSmoothingVisualization.TermsAtStep4 | src/ExponentialSmoothingVisualization.js:299-332 | the exact entries (keys and definitions) shown: step 4 lists 'lₜ', 'bₜ', 'sₜ', 'α', 'β' and 'γ'; the key shows 'lₜ', 'bₜ', 'sₜ', 'α', 'β' and 'γ' |
| ExponentialSmoothingVisualization.TermsAtStep5 | src/ExponentialSmoothingVisualization.js:299-332 | the exact entries (keys and definitions) shown: step 5 lists 'lₜ', 'bₜ' and 'sₜ'; the key shows 'lₜ', 'bₜ' and 'sₜ' |
| ExponentialSmoothingVisualization.TermsAtStep6 | src/ExponentialSmoothingVisualization.js:299-332 | the exact entries (keys and definitions) shown: step 6 lists 'Fₜ', 'lₜ', 'bₜ' and 'sₜ'; the key shows 'Fₜ', 'lₜ', 'bₜ' and 'sₜ' |
| ExponentialSmoothingVisualization.TermsAtStep7 | src/ExponentialSmoothingVisualization.js:299-332 | the exact entries (keys and definitions) shown: step 7 lists 'Fₜ', 'lₜ', 'bₜ', 'sₜ', 'n', 'h' and 'm'; the key shows 'Fₜ', 'lₜ', 'bₜ', 'sₜ', 'm', 'n' and 'h', in glossary order |
| ExponentialSmoothingVisualization.GlossaryKeys | src/ExponentialSmoothingVisualization.js:299-332 | the glossary's keys, in the order `Object.entries` yields them |
| ExponentialSmoothingVisualization.EveryListedTermIsShown | src/ExponentialSmoothingVisualization.js:299-332 | every key a step lists is a glossary key, and the step shows one entry per listed key |
| ExponentialSmoothingVisualization.EightNextsCompleteALap | src/ExponentialSmoothingVisualization.js:26-33 | eight clicks on Next give the same step with the lap counter one higher |
| ExponentialSmoothingVisualization.FirstPrevStaysInFirstLap | src/ExponentialSmoothingVisualization.js:35-42 | Prev at the initial position (0, 1) goes to step 7 and keeps lap 1 |
| XGBoostVisualization.GetStepDescription | src/XGBoostVisualization.js:187-199 | the text reads back as the current lap number and the step's description ("undefined" past the eight steps); with `Content.ReadingDeterminesText` this fixes the whole rendered string |
| XGBoostVisualization.GetStepMathConcept | src/XGBoostVisualization.js:201-224 | defined exactly for the eight steps, with the step's formula text |
| XGBoostVisualization.GetStepTooltip | src/XGBoostVisualization.js:226-238 | defined exactly for the eight steps, with the step's tooltip |
| XGBoostVisualization.GetLearnMoreLink | src/XGBoostVisualization.js:271-283 | defined for every one of the eight steps |
| XGBoostVisualization.GetRelevantMathTerms | src/XGBoostVisualization.js:240-269 | defined exactly for the eight steps (past them `relevantTerms[step].includes` throws), as the glossary filtered by the step's key list |
| XGBoostVisualization.RelevantTermsMeetSpec | src/XGBoostVisualization.js:240-269 | a step's key is a subsequence of the glossary and holds an entry iff the entry is in the glossary and its key is listed for the step |
| XGBoostVisualization.OneTileAndOneKeyListPerStep | src/XGBoostVisualization.js:15-333 | the picker renders one tile per step and `relevantTerms` has a list for each step |
| XGBoostVisualization.TermsAtStep0 | src/XGBoostVisualization.js:240-269 | the exact entries (keys and definitions) shown: step 0 lists 'X' and 'Y'; the key shows nothing; 'X' and 'Y' are not glossary keys |
| XGBoostVisualization.TermsAtStep1 | src/XGBoostVisualization.js:240-269 | the exact entries (keys and definitions) shown: step 1 lists 'ŷ'; the key shows 'ŷ' |
| XGBoostVisualization.TermsAtStep2 | src/XGBoostVisualization.js:240-269 | the exact entries (keys and definitions) shown: step 2 lists 'ŷ' and 'Y'; the key shows 'ŷ'; 'Y' is not a glossary key |
| XGBoostVisualization.TermsAtStep3 | src/XGBoostVisualization.js:240-269 | the exact entries (keys and definitions) shown: step 3 lists 'G', 'H' and 'T'; the key shows 'G', 'H' and 'T' |
| XGBoostVisualization.TermsAtStep4 | src/XGBoostVisualization.js:240-269 | the exact entries (keys and definitions) shown: step 4 lists 'ŷ', 'η' and 'T'; the key shows 'ŷ', 'η' and 'T' |
| XGBoostVisualization.TermsAtStep5 | src/XGBoostVisualization.js:240-269 | the exact entries (keys and definitions) shown: step 5 lists 'Σ', 'η', 'F' and 'T'; the key shows 'Σ', 'η', 'T' and 'F', in glossary order |
| XGBoostVisualization.TermsAtStep6 | src/XGBoostVisualization.js:240-269 | the exact entries (keys and definitions) shown: step 6 lists 'Ω', 'L', 'γ', 'λ' and 'Σ'; the key shows 'Σ', 'Ω', 'L', 'γ' and 'λ', in glossary order |
| XGBoostVisualization.TermsAtStep7 | src/XGBoostVisualization.js:240-269 | the exact entries (keys and definitions) shown: step 7 lists 'Σ', 'η', 'F' and 'T'; the key shows 'Σ', 'η', 'T' and 'F', in glossary order |
| XGBoostVisualization.EightNextsCompleteALap | src/XGBoostVisualization.js:26-33 | eight clicks on Next give the same step with the lap counter one higher |
| XGBoostVisualization.ALapForwardAndOneBack | src/XGBoostVisualization.js:11-42 | from the initial position, eight Nexts and one Prev end at step 7 of lap 1, and each of the nine clicks redraws |
| AutoARIMAVisualization.GetStepDescription | src/AutoARIMAVisualization.js:180-192 | the text reads back as the current lap number and the step's description ("undefined" past the eight steps); with `Content.ReadingDeterminesText` this fixes the whole rendered string |
| AutoARIMAVisualization.GetStepMathConcept | src/AutoARIMAVisualization.js:194-216 | defined exactly for the eight steps, with the step's formula text |
| AutoARIMAVisualization.GetStepTooltip | src/AutoARIMAVisualization.js:218-230 | defined exactly for the eight steps, with the step's tooltip |
| AutoARIMAVisualization.GetLearnMoreLink | src/AutoARIMAVisualization.js:267-279 | defined for every one of the eight steps |
| AutoARIMAVisualization.GetRelevantMathTerms | src/AutoARIMAVisualization.js:232-265 | defined exactly for the eight steps (past them `relevantTerms[step].includes` throws), as the glossary filtered by the step's key list |
| AutoARIMAVisualization.RelevantTermsMeetSpec | src/AutoARIMAVisualization.js:232-265 | a step's key is a subsequence of the glossary and holds an entry iff the entry is in the glossary and its key is listed for the step |
| AutoARIMAVisualization.OneTileAndOneKeyListPerStep | src/AutoARIMAVisualization.js:15-329 | the picker renders one tile per step and `relevantTerms` has a list for each step |
| AutoARIMAVisualization.TermsAtStep0 | src/AutoARIMAVisualization.js:232-265 | the exact entries (keys and definitions) shown: step 0 lists 'Y_t'; the key shows 'Y_t' |
| AutoARIMAVisualization.TermsAtStep1 | src/AutoARIMAVisualization.js:232-265 | the exact entries (keys and definitions) shown: step 1 lists 'Y_t' and 'ΔY_t'; the key shows 'Y_t' and 'ΔY_t' |
| AutoARIMAVisualization.TermsAtStep2 | src/AutoARIMAVisualization.js:232-265 | the exact entries (keys and definitions) shown: step 2 lists 'ΔY_t' and 'Δ^d'; the key shows 'ΔY_t' and 'Δ^d' |
| AutoARIMAVisualization.TermsAtStep3 | src/AutoARIMAVisualization.js:232-265 | the exact entries (keys and definitions) shown: step 3 lists 'ρ_k' and 'φ_kk'; the key shows 'ρ_k' and 'φ_kk' |
| AutoARIMAVisualization.TermsAtStep4 | src/AutoARIMAVisualization.js:232-265 | the exact entries (keys and definitions) shown: step 4 lists 'p', 'd', 'q', 'AIC' and 'BIC'; the key shows 'p', 'd', 'q', 'AIC' and 'BIC' |
| AutoARIMAVisualization.TermsAtStep5 | src/AutoARIMAVisualization.js:232-265 | the exact entries (keys and definitions) shown: step 5 lists 'φ', 'θ', 'ε_t' and 'L'; the key shows 'φ', 'θ', 'ε_t' and 'L' |
| AutoARIMAVisualization.TermsAtStep6 | src/AutoARIMAVisualization.js:232-265 | the exact entries (keys and definitions) shown: step 6 lists 'ε_t'; the key shows 'ε_t' |
| AutoARIMAVisualization.TermsAtStep7 | src/AutoARIMAVisualization.js:232-265 | the exact entries (keys and definitions) shown: step 7 lists 'Ŷ'; the key shows 'Ŷ' |
| AutoARIMAVisualization.GlossaryKeys | src/AutoARIMAVisualization.js:232-265 | the glossary's keys, in the order `Object.entries` yields them |
| AutoARIMAVisualization.EveryListedTermIsShown | src/AutoARIMAVisualization.js:232-265 | every key a step lists is a glossary key, and the step shows one entry per listed key |
| AutoARIMAVisualization.EightNextsCompleteALap | src/AutoARIMAVisualization.js:26-33 | eight clicks on Next give the same step with the lap counter one higher |
| AutoARIMAVisualization.LapCounterNeverBelowOne | src/AutoARIMAVisualization.js:35-42 | after any sequence of available clicks from mount, the lap counter is at least 1 |
| NeuralProphetVisualization.GetStepDescription | src/NeuralProphetVisualization.js:258-270 | the text reads back as the current lap number and the step's description ("undefined" past the eight steps); with `Content.ReadingDeterminesText` this fixes the whole rendered string |
| NeuralProphetVisualization.GetStepMathConcept | src/NeuralProphetVisualization.js:272-293 | defined exactly for the eight steps, with the step's formula text |
| NeuralProphetVisualization.GetStepTooltip | src/NeuralProphetVisualization.js:295-307 | defined exactly for the eight steps, with the step's tooltip |
| NeuralProphetVisualization.GetRelevantMathTerms | src/NeuralProphetVisualization.js:309-346 | defined exactly for the eight steps (past them `relevantTerms[step].includes` throws), as the glossary filtered by the step's key list |
| NeuralProphetVisualization.RelevantTermsMeetSpec | src/NeuralProphetVisualization.js:309-346 | a step's key is a subsequence of the glossary and holds an entry iff the entry is in the glossary and its key is listed for the step |
| NeuralProphetVisualization.OneTileAndOneKeyListPerStep | src/NeuralProphetVisualization.js:14-71 | the picker renders one tile per step and `relevantTerms` has a list for each step |
| NeuralProphetVisualization.TermsAtStep0 | src/NeuralProphetVisualization.js:309-346 | the exact entries (keys and definitions) shown: step 0 lists 'y(t)', 'f(t)' and 'ε(t)'; the key shows 'y(t)', 'f(t)' and 'ε(t)' |
| NeuralProphetVisualization.TermsAtStep1 | src/NeuralProphetVisualization.js:309-346 | the exact entries (keys and definitions) shown: step 1 lists 'g(t)', 'k(t)' and 'a(t)'; the key shows 'g(t)', 'k(t)' and 'a(t)' |
| NeuralProphetVisualization.TermsAtStep2 | src/NeuralProphetVisualization.js:309-346 | the exact entries (keys and definitions) shown: step 2 lists 's(t)' and 'P'; the key shows 's(t)' and 'P' |
| NeuralProphetVisualization.TermsAtStep3 | src/NeuralProphetVisualization.js:309-346 | the exact entries (keys and definitions) shown: step 3 lists 'φ_i'; the key shows 'φ_i' |
| NeuralProphetVisualization.TermsAtStep4 | src/NeuralProphetVisualization.js:309-346 | the exact entries (keys and definitions) shown: step 4 lists 'β_i' and 'x_i'; the key shows 'β_i' and 'x_i' |
| NeuralProphetVisualization.TermsAtStep5 | src/NeuralProphetVisualization.js:309-346 | the exact entries (keys and definitions) shown: step 5 lists 'σ', 'W_h', 'W_o', 'b_h' and 'b_o'; the key shows 'σ'; 'W_h', 'W_o', 'b_h' and 'b_o' are not glossary keys |
| NeuralProphetVisualization.TermsAtStep6 | src/NeuralProphetVisualization.js:309-346 | the exact entries (keys and definitions) shown: step 6 lists 'L', 'MSE', 'λ' and 'R(θ)'; the key shows 'L', 'MSE', 'λ' and 'R(θ)' |
| NeuralProphetVisualization.TermsAtStep7 | src/NeuralProphetVisualization.js:309-346 | the exact entries (keys and definitions) shown: step 7 lists 'ŷ(t+h)'; the key shows 'ŷ(t+h)' |
| NeuralProphetVisualization.EightNextsCompleteALap | src/NeuralProphetVisualization.js:25-32 | eight clicks on Next give the same step with the lap counter one higher |
| NeuralProphetVisualization.FirstPrevStaysInFirstLap | src/NeuralProphetVisualization.js:34-41 | Prev at the initial position (0, 1) goes to step 7 and keeps lap 1 |
| NeuralProphetVisualization.MathIsAlwaysShown | src/NeuralProphetVisualization.js:86-92 | the topic has no math toggle to click, and its panels always show the math concept and the key |

## Left out

- `getStepVisualization`, in every component: SVG built with `Math.random()` and `Math.sin` jitter. It is floating-point, nondeterministic decoration.
- JSX layout, class names, styling and icons: only the step names are kept, as the tiles' labels.
- `src/ModelVisualization.js` and `src/App.js` are not part of this model. They only mount one component or another.
- React's scheduling and batching: each handler is one update, followed by one run of the effect comparing the dependencies before and after. Setting a state to the value it already has causes no render and no effect run, so it counts as "not changed".
- JavaScript numbers: lap and step counts are unbounded naturals. A lap counter past 2^53 is not modelled.
- `Object.fromEntries(Object.entries(allTerms)…)`: the glossary is an ordered entry list. The source's keys are distinct, non-numeric strings, so the object keeps exactly these entries in insertion order. That the keys are distinct is not restated as a proof over the literal tables. It shows in each step's exact output (`TermsAtStepN`).
- The prose of the tables (descriptions, formulas, tooltips, URLs) is opaque text. Only the table lengths, the lookups and the description prefix are reasoned about.
- `MathKey` rendering: the model stops at the entry list that `getRelevantMathTerms` returns.
- Navigation.Panel.SelectStep: requires an index below the step count, because the picker only renders tiles for the steps. A call with another index is not modelled.
