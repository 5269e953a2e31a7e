# Cognitive screening quizzes: scoring rules and answer state

This project models the core of two screening instruments from a React front end and proves properties of that model in Dafny.

- **TMSE**, the Thai Mental State Examination. It scores six domains out of 30: orientation (6), registration (3), attention (5), calculation (3), language (10) and recall (3). A total below 24 is classed as cognitive impairment.
- **Mini-Cog**, a four-step wizard. Step 1 shows three words to memorise. At step 2 the subject drags two clock hands to 11:10. At step 3 the subject types back the words. Step 4 shows the result: the clock scores 0 or 2 and each word 1, and a total of 3 or less is classed as impaired.

Each quiz is a class whose fields are the component's state variables, and each button or input handler is a method.

- Every method requires the screen on which its control is rendered: TMSE handlers need `!showResult`, and Mini-Cog handlers need their own `step`.
- Every method requires the values that control can produce (a yes/no row gives 0 or 1, the figure-copy row 0–2).
- Every method states the whole new state, as `State() == old(State()).(...)`.
- Every method preserves the class invariant `Valid()`.

The TMSE invariant says each cached domain score is either cleared (`null`) or equal to the score of the answers now on the sheet. Holding that invariant is what "editing an answer clears its score" buys. The Mini-Cog invariant says:

- there is no clock score before step 3, and it is 0 or 2 from step 3 on;
- a result exists exactly on step 4, and it is the one the answers give.

The scores are pure functions of the state, each with a lemma pairing it with an independent characterisation or an update rule:

- attention is the longest common prefix with the answer key, capped at 5;
- calculation counts the boxes whose `parseInt` value matches their step of 93/86/79;
- recall counts the boxes whose trimmed text is a target word (shared by both quizzes);
- `anglesClose` is proved equal to "circular distance at most the tolerance".

Modules:

- `Optional`: nullable values.
- `JsText`: `String.prototype.trim` and base-10 `parseInt` over `seq<char>`.
- `WordRecall`: the recall count.
- `Tmse`, `MiniCog`: the two quizzes.

## Model

| member | source | states |
|---|---|---|
| Optional.OrZero | diagnosing/src/TMSEQuiz.jsx:86 | JavaScript's `v ?? 0`: a set score, or 0 when unset |
| JsText.Trim | diagnosing/src/TMSEQuiz.jsx:103 | the trimmed answer is no longer than the input and neither of its ends is whitespace |
| JsText.TrimPadded | diagnosing/src/TMSEQuiz.jsx:103 | for any whitespace `pre`/`post` and a core with non-whitespace ends, trimming `pre + core + post` gives exactly the core, so padding around a word never changes the verdict |
| JsText.TrimIdempotent | diagnosing/src/MiniCogQuiz.jsx:62 | trimming twice is trimming once |
| JsText.ParseInt | diagnosing/src/TMSEQuiz.jsx:97 | a blank or all-whitespace answer never parses (NaN) |
| JsText.ParseIntShow | diagnosing/src/TMSEQuiz.jsx:97 | `parseInt` reads back the decimal text of every integer, whatever non-digit text follows it (so "93.5" reads as 93) |
| JsText.ParseIntDigitsAt | diagnosing/src/TMSEQuiz.jsx:97 | a run of digits after an optional minus sign and before a non-digit parses as the number those digits denote, with that sign |
| JsText.DigitsValueOfDigits | diagnosing/src/TMSEQuiz.jsx:97 | reading back the decimal digits of a natural number gives that number |
| WordRecall.CountRecalled | diagnosing/src/TMSEQuiz.jsx:101-105 | the recall count never exceeds the number of answer boxes |
| WordRecall.CountRecalledAppend | diagnosing/src/TMSEQuiz.jsx:103 | the count is additive over any split of the boxes, since each box is judged on its own |
| WordRecall.CountRecalledSwapGroups | diagnosing/src/TMSEQuiz.jsx:103 | the count does not depend on the order of two groups of boxes |
| WordRecall.CountRecalledFull | diagnosing/src/MiniCogQuiz.jsx:62 | full marks if and only if every box trims to one of the target words |
| WordRecall.CountRecalledNone | diagnosing/src/MiniCogQuiz.jsx:62 | zero if and only if no box trims to a target word |
| WordRecall.CountRecalledThree | diagnosing/src/TMSEQuiz.jsx:103 | three boxes score box by box, one point per box holding a target word, so a repeated correct word scores again |
| WordRecall.Recalled | diagnosing/src/TMSEQuiz.jsx:384 | a target word is ticked when some box, once trimmed, equals it |
| WordRecall.RecalledThree | diagnosing/src/TMSEQuiz.jsx:384 | with three boxes, a word is ticked if and only if one of the three boxes trims to it |
| WordRecall.DistinctRecalled | diagnosing/src/TMSEQuiz.jsx:383-384 | the number of ticked target words is at most the number of targets, however many boxes repeat a word |
| WordRecall.DistinctRecalledFull | diagnosing/src/TMSEQuiz.jsx:383-384 | every target is ticked if and only if the distinct count equals the number of targets |
| WordRecall.DistinctRecalledThree | diagnosing/src/TMSEQuiz.jsx:383-384 | three targets are ticked one by one |
| WordRecall.CountsThree | diagnosing/src/TMSEQuiz.jsx:101-105 | over three boxes and three targets, the box count sums, answer by answer, whether the trimmed answer equals some target, and the distinct count sums, target by target, whether some trimmed answer equals it |
| WordRecall.CountNeverBelowDistinct | diagnosing/src/TMSEQuiz.jsx:101-105 | with three different targets, the box count (the score) is never below the distinct-word count (the ticks at :383-384) |
| WordRecall.CountsAgreeWithoutRepeats | diagnosing/src/TMSEQuiz.jsx:101-105 | with three different targets, the box count equals the distinct-word count unless one target word fills two boxes; blank or wrong answers may repeat |
| Tmse.OriTotal | diagnosing/src/TMSEQuiz.jsx:84 | the orientation total counts answers marked 1 and is at most the number of questions (6) |
| Tmse.OriTotalUpdate | diagnosing/src/TMSEQuiz.jsx:212 | marking one question moves the total by exactly that question's change of point; the other answers count as before |
| Tmse.OriTotalFull | diagnosing/src/TMSEQuiz.jsx:84 | six points if and only if every question is marked 1; an unset (null) or wrong answer costs its point |
| Tmse.LangSet | diagnosing/src/TMSEQuiz.jsx:302-360 | marking a language item sets that item and leaves every other item, and the number of command steps, unchanged |
| Tmse.SumOrZero | diagnosing/src/TMSEQuiz.jsx:85 | the command steps' `reduce`, adding each step with null as 0; bounded by SumOrZeroBounds and updated by SumOrZeroUpdate |
| Tmse.SumOrZeroBounds | diagnosing/src/TMSEQuiz.jsx:85 | command steps that are null, 0 or 1 sum to between 0 and the number of steps |
| Tmse.SumOrZeroUpdate | diagnosing/src/TMSEQuiz.jsx:321 | marking one command step moves the sum of steps (null as 0) by exactly that step's change |
| Tmse.SumOrZeroThree | diagnosing/src/TMSEQuiz.jsx:85 | the `reduce` over three command steps is their sum with null as 0 |
| Tmse.LangTotal | diagnosing/src/TMSEQuiz.jsx:85 | the language total lies in [0, 10] whenever yes/no items are in {0, 1}, the copy in {0, 1, 2} and there are three command steps |
| Tmse.LangSetTotal | diagnosing/src/TMSEQuiz.jsx:302-360 | a mark moves the language total by exactly (new mark − old mark, null as 0), and a mark within the button's range keeps the language sheet well formed |
| Tmse.LangTotalExtremes | diagnosing/src/TMSEQuiz.jsx:69 | all-null language scores 0; every item at its top mark (copy 2) scores 10 |
| Tmse.PrefixMatch | diagnosing/src/TMSEQuiz.jsx:89-93 | the result is the longest common prefix: all positions below it agree, and the next position, if both sequences have one, differs |
| Tmse.PrefixMatchAtLeast | diagnosing/src/TMSEQuiz.jsx:91 | the common prefix reaches n if and only if both sequences have n items and their first n items are equal |
| Tmse.AttentionScore | diagnosing/src/TMSEQuiz.jsx:92 | the attention score is at most 5 |
| Tmse.AttentionFullMarks | diagnosing/src/TMSEQuiz.jsx:89-93 | full attention marks if and only if the first five days are in key order; the last two never matter |
| Tmse.AttentionMismatch | diagnosing/src/TMSEQuiz.jsx:91 | a wrong day at position k leaves at most k points, whatever follows |
| Tmse.AttentionStopsAtMistake | diagnosing/src/TMSEQuiz.jsx:91 | two orders that agree up to and including a mistake at k score the same: nothing after the first mistake counts |
| Tmse.FullOrderScoresFive | diagnosing/src/TMSEQuiz.jsx:92 | the whole week in key order matches 7 days but scores 5 |
| Tmse.DayNamesMatchKey | diagnosing/src/TMSEQuiz.jsx:4 | the key's days are named by the `DAYS_ORDER` strings in order and no two days share a name, so comparing day tiles is comparing the strings the source compares |
| Tmse.Reversed | diagnosing/src/TMSEQuiz.jsx:65 | the reversal has the same length and position i holds the input's position n−1−i |
| Tmse.InitialOrderScoresZero | diagnosing/src/TMSEQuiz.jsx:65 | the starting list is Monday…Sunday, a rearrangement of the seven days, and scores 0 |
| Tmse.Swap | diagnosing/src/TMSEQuiz.jsx:109-111 | the swap exchanges exactly positions i and j, keeps every other position and is a permutation |
| Tmse.SwapKeepsWeek | diagnosing/src/TMSEQuiz.jsx:107-114 | a swap keeps a rearrangement of the week one |
| Tmse.KeyMatches | diagnosing/src/TMSEQuiz.jsx:95-99 | the number of matched steps never exceeds the number of boxes |
| Tmse.CalcScore | diagnosing/src/TMSEQuiz.jsx:95-99 | the calculation score never exceeds the number of boxes (3) |
| Tmse.KeyMatchesUpdate | diagnosing/src/TMSEQuiz.jsx:97 | changing one parsed value moves the count by exactly that box's change of verdict |
| Tmse.CalcUpdate | diagnosing/src/TMSEQuiz.jsx:278 | retyping box k changes the calculation score by exactly box k's change of verdict: boxes are judged independently |
| Tmse.KeyMatchesFull | diagnosing/src/TMSEQuiz.jsx:97 | every parsed value matches its key step if and only if the count equals the number of values |
| Tmse.CalcFull | diagnosing/src/TMSEQuiz.jsx:74 | full calculation marks if and only if every box parses to its own step of 93, 86, 79 |
| Tmse.KeyMatchesThree | diagnosing/src/TMSEQuiz.jsx:97 | three boxes are scored verdict by verdict |
| Tmse.ParseTwoDigits | diagnosing/src/TMSEQuiz.jsx:97 | a box starting with exactly two digits reads as that two-digit number |
| Tmse.CalcBlank | diagnosing/src/TMSEQuiz.jsx:67 | three blank boxes score 0 |
| Tmse.CalcKey | diagnosing/src/TMSEQuiz.jsx:74 | the answers 93, 86, 79 score 3 |
| Tmse.CalcTrailingText | diagnosing/src/TMSEQuiz.jsx:97 | "93.5", "80", "79" score 2: trailing text after the digits is ignored, and a wrong middle box costs only its own point |
| Tmse.RecallCountsSlots | diagnosing/src/TMSEQuiz.jsx:103 | the same word typed into three boxes, padded or not, scores 3 |
| Tmse.TrimsToHand | diagnosing/src/TMSEQuiz.jsx:103 | a registration word with a leading or trailing space trims to the word |
| Tmse.RecallBlank | diagnosing/src/TMSEQuiz.jsx:70 | three blank recall boxes score 0 |
| Tmse.RepeatedWordTicksOnce | diagnosing/src/TMSEQuiz.jsx:101-105 | "มือ" typed into all three boxes scores 3, while the feedback ticks one word |
| Tmse.BlankBoxesAgree | diagnosing/src/TMSEQuiz.jsx:101-105 | "มือ" with two blank boxes scores 1 and is ticked once: repeated blanks do not separate the two counts |
| Tmse.ImpairmentBoundary | diagnosing/src/TMSEQuiz.jsx:87 | a total of 24 is not impaired, 23 is |
| Tmse.Report.Total | diagnosing/src/TMSEQuiz.jsx:86 | `totalScore` is at most 30 whenever every domain is within its maximum |
| Tmse.Report.Impaired | diagnosing/src/TMSEQuiz.jsx:87 | `impaired`: the total is below 24; the cut-off is pinned by ImpairmentBoundary |
| Tmse.Sheet.WellFormed | diagnosing/src/TMSEQuiz.jsx:63-72 | the invariant every handler keeps: six orientation answers, each unset or 0/1; registration unset or 0–3; the day list a rearrangement of the week; three calculation and three recall boxes; language marks within their button ranges; each cached domain score cleared or equal to the score of the current answers |
| Tmse.Sheet.Scores | diagnosing/src/TMSEQuiz.jsx:119-127 | the result sections with unset scores as 0; on a well-formed sheet each is within its domain's maximum |
| Tmse.ScoresBounded | diagnosing/src/TMSEQuiz.jsx:119-127 | on any sheet the screen can produce, each domain is within its maximum (6, 3, 5, 3, 10, 3) and the total is in [0, 30], with unset items as 0 |
| Tmse.InitialSheetScoresZero | diagnosing/src/TMSEQuiz.jsx:63-72 | the fresh sheet is well formed, totals 0 and is classed as impaired |
| Tmse.Quiz.constructor | diagnosing/src/TMSEQuiz.jsx:63-72 | the quiz starts with all answers unset, the days Monday…Sunday, empty boxes and the result hidden |
| Tmse.Quiz.SetOrientation | diagnosing/src/TMSEQuiz.jsx:212 | sets question i's mark, changes nothing else, and moves the orientation total by that mark's change |
| Tmse.Quiz.SetRegistration | diagnosing/src/TMSEQuiz.jsx:229-231 | records the 0–3 count and changes nothing else |
| Tmse.Quiz.MoveDay | diagnosing/src/TMSEQuiz.jsx:107-114 | with j = i + dir in range, swaps positions i and j and clears the attention score; otherwise changes nothing; the list stays a permutation of the week |
| Tmse.Quiz.EvaluateAttention | diagnosing/src/TMSEQuiz.jsx:89-93 | the counting loop with its early break stores the longest common prefix with the key, capped at 5, and changes nothing else |
| Tmse.Quiz.EditCalc | diagnosing/src/TMSEQuiz.jsx:278 | stores box i's text and clears the calculation score |
| Tmse.Quiz.EvaluateCalc | diagnosing/src/TMSEQuiz.jsx:95-99 | the loop over the boxes stores the number of boxes that parse to their own key step |
| Tmse.Quiz.SetLanguage | diagnosing/src/TMSEQuiz.jsx:302-360 | marks one language item, changes nothing else, and moves the language total by the change of that item |
| Tmse.Quiz.EditRecall | diagnosing/src/TMSEQuiz.jsx:371 | stores box i's text and clears the recall score |
| Tmse.Quiz.EvaluateRecall | diagnosing/src/TMSEQuiz.jsx:101-105 | the loop over the boxes stores the number of boxes whose trimmed text is a registration word |
| Tmse.Quiz.ShowResult | diagnosing/src/TMSEQuiz.jsx:404 | opens the result screen whatever is unset; the report lists the six domain scores with null as 0, each within its maximum, total in [0, 30] |
| MiniCog.JsRem360 | diagnosing/src/MiniCogQuiz.jsx:11 | JavaScript's `% 360`: the result lies strictly between −360 and 360, has the sign of the dividend and is congruent to it modulo 360 |
| MiniCog.NormalizeAngle | diagnosing/src/MiniCogQuiz.jsx:11 | the result is in [0, 360) and congruent to the input modulo 360 (it is the Euclidean remainder) |
| MiniCog.NormalizeIdempotent | diagnosing/src/MiniCogQuiz.jsx:11 | normalizing twice is normalizing once |
| MiniCog.AnglesClose | diagnosing/src/MiniCogQuiz.jsx:13-16 | `anglesClose`: the normalized angles differ by at most the tolerance, or by at least 360 minus it; characterised by AnglesCloseIsDistance |
| MiniCog.CircularDistance | diagnosing/src/MiniCogQuiz.jsx:13-16 | the short-way-round distance between two angles is in [0, 180] |
| MiniCog.CircularDistanceSymmetric | diagnosing/src/MiniCogQuiz.jsx:13-16 | the distance does not depend on the order of the angles |
| MiniCog.TurnRemainder | diagnosing/src/MiniCogQuiz.jsx:11 | the remainder by 360 is the unique value in [0, 360) a whole number of turns from the input |
| MiniCog.AnglesCloseIsDistance | diagnosing/src/MiniCogQuiz.jsx:13-16 | `anglesClose(a, b, tol)` holds if and only if the circular distance between a and b is at most tol, for every tol, across the 0/360 wrap |
| MiniCog.AnglesCloseSymmetric | diagnosing/src/MiniCogQuiz.jsx:13-16 | `anglesClose` is symmetric in its two angles |
| MiniCog.AnglesCloseWhenCongruent | diagnosing/src/MiniCogQuiz.jsx:13-16 | angles a whole number of turns apart are close under any non-negative tolerance |
| MiniCog.ClockScore | diagnosing/src/MiniCogQuiz.jsx:53-56 | the automatic clock score is 0 or 2 |
| MiniCog.ClockScoreByDistance | diagnosing/src/MiniCogQuiz.jsx:7-9 | the clock scores 2 if and only if the hour hand is within 25° of 330° and the minute hand within 25° of 60°, the short way round |
| MiniCog.ClockScoreExamples | diagnosing/src/MiniCogQuiz.jsx:53-56 | 11:10 scores 2 and both hands at 12 score 0; hands 20° off still score 2, and so do −30° and 420° (a whole turn from 11:10); a minute hand 30° off scores 0 |
| MiniCog.HandWindow | diagnosing/src/MiniCogQuiz.jsx:13-16 | for a target more than the tolerance from 0/360, a hand is close if and only if its normalized angle is within the tolerance of the target |
| MiniCog.ClockScoreWindows | diagnosing/src/MiniCogQuiz.jsx:53-56 | the clock scores 2 if and only if the normalized hour hand is in [305, 355] and the normalized minute hand in [35, 85]: with these targets the wrap-around test never decides the score |
| MiniCog.Assess | diagnosing/src/MiniCogQuiz.jsx:61-66 | the result carries the clock score (null as 0), a recall count of at most the number of boxes, their sum as total, and impaired if and only if total ≤ 3 |
| MiniCog.AssessBounds | diagnosing/src/MiniCogQuiz.jsx:61-66 | with a clock score of 0 or 2 and three boxes, the total is in [0, 5], and it is 5 if and only if the clock scored 2 and every box trims to a target word |
| MiniCog.AssessExamples | diagnosing/src/MiniCogQuiz.jsx:65 | clock 0 with one word gives total 1 (impaired); clock 0 with three words gives 3 (impaired); clock 2 with two words gives 4 (not impaired) |
| MiniCog.RepeatedWordPasses | diagnosing/src/MiniCogQuiz.jsx:61-66 | "ภูเขา" typed into all three boxes with a correct clock totals 5 and is not impaired, though only one distinct word was recalled |
| MiniCog.TrimsCorrectWords | diagnosing/src/MiniCogQuiz.jsx:3 | the three target words trim to themselves |
| MiniCog.InitialSessionWellFormed | diagnosing/src/MiniCogQuiz.jsx:22-29 | the starting session satisfies the wizard invariant and its hands (both at 12) would score 0 |
| MiniCog.Session.WellFormed | diagnosing/src/MiniCogQuiz.jsx:22-29 | the wizard invariant: step 1 to 4 and three boxes; no clock score before step 3, 0 or 2 from step 3 on; a result exactly on step 4, equal to the assessment of the current answers; both hands in [0, 360) |
| MiniCog.Quiz.constructor | diagnosing/src/MiniCogQuiz.jsx:22-29 | the wizard opens on step 1 with no clock score, empty boxes, no result and both hands at 0° |
| MiniCog.Quiz.ConfirmMemorized | diagnosing/src/MiniCogQuiz.jsx:112 | step 1 → 2, nothing else changes |
| MiniCog.Quiz.DragHand | diagnosing/src/MiniCogQuiz.jsx:44-49 | on step 2 a drag sets the chosen hand to the normalized angle and changes nothing else |
| MiniCog.Quiz.EvaluateClock | diagnosing/src/MiniCogQuiz.jsx:53-59 | step 2 → 3 with clock score 2 if and only if both hands are within 25° of 11:10, otherwise 0 |
| MiniCog.Quiz.RateClock | diagnosing/src/MiniCogQuiz.jsx:238-242 | the examiner's buttons move step 2 → 3 with clock score 2 or 0, so every exit from step 2 leaves the clock score in {0, 2} |
| MiniCog.Quiz.EditWord | diagnosing/src/MiniCogQuiz.jsx:264-268 | on step 3, editing box i changes only that box, and there are still three boxes |
| MiniCog.Quiz.CheckRecallAnswers | diagnosing/src/MiniCogQuiz.jsx:61-66 | step 3 → 4 with the result set to the assessment of the current answers: recall in [0, 3], total in [0, 5], impaired if and only if total ≤ 3 |
| MiniCog.Quiz.Restart | diagnosing/src/MiniCogQuiz.jsx:317 | from step 4, every field returns to its starting value |

## Left out

- Rendering is not modelled: markup, styles, SVG, the presentational components (`MedCross`, `YN`, `Section`, `SubQ`), the clock face and the ✓/✗ styling of the feedback (the number of TMSE recall ticks is modelled, as WordRecall.DistinctRecalled). What these components contribute to the logic, the set of values a button row can send, appears as method preconditions.
- Pointer handling is not modelled: `getAngleFromEvent`, the mouse and touch handlers and the `dragging` flag use the DOM, `getBoundingClientRect` and floating-point `atan2`. `MiniCog.Quiz.DragHand` takes the angle those produce as a parameter.
- MiniCog: angles are whole degrees. The source's `%` and `Math.abs` run on floating-point numbers; the model uses the same formulas on integers.
- JsText.ParseInt: reads decimal only. It skips leading whitespace, reads one sign and the longest run of digits after it. It does not read `0x` hexadecimal, the full Unicode whitespace set, or numbers beyond double precision.
- JsText.Trim: strips space, tab, line feed, carriage return, vertical tab, form feed and the no-break space, not the full Unicode whitespace set.
- The `onBack` exits (back to the home screen) leave the quiz and are not modelled. The Mini-Cog restart is modelled for the case with no `onBack`, where the button resets the wizard.
- `diagnosing/src/App.jsx` only routes between screens and is not part of this model.
- Tmse.Day: the day tiles are seven distinct tokens rather than the Thai strings; DayNamesMatchKey shows that they name the answer key's strings one for one.
- Recall in both quizzes compares trimmed typed text with the target words, and the model follows that rule.
- TMSE calculation compares `parseInt` of the typed text with 93, 86 and 79, and the model follows that rule.
- The Mini-Cog recall step has no gate on filled boxes: blank boxes score 0.
- The TMSE result screen can be opened with items unset, which count as 0.

## Findings

| source | as written | input that shows it | evidently intended | confidence | as-written member | corrected member |
|---|---|---|---|---|---|---|
| diagnosing/src/TMSEQuiz.jsx:101-105 and diagnosing/src/MiniCogQuiz.jsx:61-66 | the recall score counts answer boxes whose trimmed text is a target word, so a repeated word scores once per box | TMSE: "มือ" in all three boxes scores 3, while the feedback at TMSEQuiz.jsx:383-384 ticks only that word. Mini-Cog: "ภูเขา" three times with a correct clock totals 5, not impaired | one point per distinct target word recalled, as the TMSE feedback ticks count | medium, not executed | Tmse.RepeatedWordTicksOnce, MiniCog.RepeatedWordPasses (over WordRecall.CountRecalled) | WordRecall.DistinctRecalled, with DistinctRecalledFull, CountNeverBelowDistinct and CountsAgreeWithoutRepeats |

Both quizzes' scoring methods keep the as-written box count, because that is what the screens compute and store. The distinct-word count models the TMSE recall ticks. CountNeverBelowDistinct shows that the box count is never below the distinct count. CountsAgreeWithoutRepeats shows that the two differ only when a target word fills two boxes.
