# VA-11 mood bar: a Dafny model of the game logic

This project models the logic of a small bartending game written as a React
front end. The customer types in a mood. A menu of drinks is generated for that
mood, either by a generative text service or from a fixed local catalog. The
player picks a drink and mixes it on a console by dropping units of five
ingredients and setting two modifiers, iced and aged. A receipt printer then
rates how closely the mix matches the recipe, as a percentage.

The model has five modules, one per core source file:

- `Types` (`types.dfy`) holds the shared data model. It has the five
  ingredients, the amount record with its limits, the recipe and mix records,
  and the five screens (stages).
- `RetroPrinter` (`retro_printer.dfy`) is the accuracy rating. The method
  `CalculateAccuracy` is the printer's loop. It is proved equal to the
  specification function `Accuracy`, which uses exact rational arithmetic. The
  lemmas give the rating's bounds, its end points, the worked example, and a
  characterisation in whole numbers: with F fifths of a point, the rating is
  (40F + 7) / 14. They also show the exact value is never within 1/14 of a
  rounding boundary.
- `MixingConsole` (`mixing_console.dfy`) is the mixing console. Pure functions
  say what each control does to a mix. `Replay` folds a whole session. The
  class `Console` holds the console's state (mix, log line, shaking flag, hint,
  pending hand-over), and its methods are the button handlers.
- `Gemini` (`gemini.dfy`) is the menu generator. The key lookup follows
  JavaScript `||` semantics, the key counts as absent for the placeholder
  strings, and the service call is abstracted into an outcome value. Under
  that abstraction the generator is a total function that always returns a
  non-empty menu.
- `AppState` (`app.dfy`) is the screen flow. The class `App` holds the stage,
  mood text, menu, target, final mix and error line. Its methods are the
  transitions: start, resolve or reject the request, pick a card, finish the
  mix, and reset. The asynchronous request is split into two discrete steps.

In three places the code does something a reader might not expect; the model
follows the code:

- A drop onto an ingredient that is already at 10 is not rejected. The amount
  stays at 10 (`Math.min`, components/MixingConsole.tsx:39) and the success log
  line is still written (components/MixingConsole.tsx:41)
  (`MixingConsole.DropAtTenIsSilentNoOp`).
- The request's prompt asks the service for 3 recipes
  (services/gemini.ts:94), but the generator accepts any non-empty array
  (services/gemini.ts:148-150). It does not check the count or any amount
  (`Gemini.ReplyIsNotValidated`).
- While the shaker is shaking, only the Mix button is disabled
  (components/MixingConsole.tsx:170). Drops, toggles and Flush still work, and
  the mix handed over is the one captured when Mix was pressed
  (components/MixingConsole.tsx:55-57, `MixingConsole.Console.ShakeDone`).

## Model

| member | source | states |
|---|---|---|
| Types.IngredientsAreFive | types.ts:2 | The ingredient type has exactly five distinct values, all listed in order. Their labels are distinct. |
| Types.Amounts.Set | types.ts:9 | A spread update of one ingredient's amount sets that entry and leaves the other four unchanged. |
| Types.WithinLimitsMeans | services/gemini.ts:110-111 | The limits the prompt sets (and the console's guard and clamp keep, components/MixingConsole.tsx:32,39) hold exactly when every ingredient's amount is in 0..10 and the total is at most 20. |
| Types.TotalAfterSet | types.ts:15 | Replacing one amount changes the total by the difference. |
| Types.StagesAreFive | types.ts:20-26 | There are exactly five distinct game stages. |
| RetroPrinter.Round | components/RetroPrinter.tsx:36 | `Math.round` gives the integer r with r - 0.5 <= x < r + 0.5, so a tie rounds up. |
| RetroPrinter.Credit | components/RetroPrinter.tsx:31 | An ingredient's credit lies in [0,1]. It is 1 exactly when the amounts are equal and 0 exactly when they differ by 5 or more. |
| RetroPrinter.CreditFifths | components/RetroPrinter.tsx:31 | The credit is a whole number of fifths, from 0 to 5. |
| RetroPrinter.IngredientScore | components/RetroPrinter.tsx:28-33 | The summed credits of n keys lie in [0, n]. |
| RetroPrinter.IngredientFifths | components/RetroPrinter.tsx:28-33 | The summed credits of n keys come to at most 5n fifths. |
| RetroPrinter.Score | components/RetroPrinter.tsx:26-35 | The raw score (five credits plus the two modifier points) lies in [0,7]. |
| RetroPrinter.Fifths | components/RetroPrinter.tsx:26-35 | The raw score in fifths lies in 0..35. |
| RetroPrinter.Accuracy | components/RetroPrinter.tsx:36 | The rating is an integer in [0,100]. |
| RetroPrinter.CalculateAccuracy | components/RetroPrinter.tsx:25-37 | The printer's loop over the ingredient keys, with its score and parameter counters, returns exactly the specified rating, which lies in [0,100]. |
| RetroPrinter.IngredientScoreInFifths | components/RetroPrinter.tsx:31 | The summed credits equal the summed fifths divided by 5. |
| RetroPrinter.ExactPercentInFifths | components/RetroPrinter.tsx:28-36 | With five keys, params is 5 and the divisor is 7, so the unrounded percentage is 20F/7. |
| RetroPrinter.RoundIsUnique | components/RetroPrinter.tsx:36 | Any integer within half a unit (tie going up) of x is Math.round(x). |
| RetroPrinter.AccuracyInFifths | components/RetroPrinter.tsx:31-36 | The rating equals the integer expression (40F + 7) / 14. |
| RetroPrinter.NoRoundingTie | components/RetroPrinter.tsx:36 | The unrounded percentage is at least 1/14 away from every k + 0.5. Small floating-point error therefore cannot change the rounded rating. |
| RetroPrinter.IngredientFifthsExtremes | components/RetroPrinter.tsx:31 | The summed fifths are at their maximum exactly when every key's amounts agree. They are 0 exactly when every key's amounts differ by 5 or more. |
| RetroPrinter.AllKeysAreAllIngredients | components/RetroPrinter.tsx:28 | A fact that holds for every listed key holds for every ingredient. |
| RetroPrinter.FifthsOfFive | components/RetroPrinter.tsx:28-33 | The summed fifths over the five keys are the five per-ingredient fifths added in order. |
| RetroPrinter.PerfectIff100 | components/RetroPrinter.tsx:31-36 | The rating is 100 exactly when every amount and both modifiers match. |
| RetroPrinter.PerfectIffSameMix | components/RetroPrinter.tsx:31-36 | The rating is 100 exactly when the mix equals the recipe's own mix. |
| RetroPrinter.TargetAsMixScores100 | components/RetroPrinter.tsx:31-36 | A mix identical to the target scores 100. |
| RetroPrinter.ZeroIff0 | components/RetroPrinter.tsx:31-36 | The rating is 0 exactly when every amount is off by 5 or more and both modifiers are wrong. |
| RetroPrinter.FlagWorthOnePoint | components/RetroPrinter.tsx:34-35 | A matching iced or aged modifier adds exactly one point over a mismatching one. |
| RetroPrinter.WorkedExample | components/RetroPrinter.tsx:31-36 | A single ingredient off by 3, with everything else matching, rates 91. The identical mix rates 100. |
| MixingConsole.Pour | components/MixingConsole.tsx:37-40 | An accepted drop sets the ingredient to min(10, old + 1). The other four amounts and both modifiers are unchanged. |
| MixingConsole.AddOne | components/MixingConsole.tsx:30-40 | A drop when the total is already at least 20 leaves the mix as it is. Otherwise the unit is poured. |
| MixingConsole.AddOneKeepsLimits | components/MixingConsole.tsx:32-39 | From a mix within the limits, a drop stays within them and adds at most one unit. |
| MixingConsole.ApplyKeepsLimits | components/MixingConsole.tsx:30-44 | Every control (drop, the two toggles, Flush) keeps the mix within the limits. |
| MixingConsole.ReplayWithinLimits | components/MixingConsole.tsx:32 | After any sequence of controls from the empty mix, every amount is in 0..10 and the total is at most 20. The red over-20 display is therefore never shown (line 154). |
| MixingConsole.DropAtTenIsSilentNoOp | components/MixingConsole.tsx:39-41 | With room in the shaker, a drop on an ingredient already at 10 is accepted and changes nothing. |
| MixingConsole.Console.constructor | components/MixingConsole.tsx:14-22 | The console starts with all amounts 0, both modifiers off, not shaking, the idle log line and the hint shown. |
| MixingConsole.Console.DropUnit | components/MixingConsole.tsx:30-44 | The drop is accepted exactly when the total was below 20. The new mix is the specified drop. The log is `SEQ_LOAD: <TYPE>` or `ERR_OVERFLOW_CAPACITY_LIMIT`. The hint hides on acceptance. Nothing else changes. |
| MixingConsole.Console.ToggleIced | components/MixingConsole.tsx:138 | Flips only `iced`, and logs SET or UNSET by the old value. Nothing else changes. |
| MixingConsole.Console.ToggleAged | components/MixingConsole.tsx:144 | Flips only `aged`, and logs SET or UNSET by the old value. Nothing else changes. |
| MixingConsole.Console.Flush | components/MixingConsole.tsx:163 | Restores all-zero amounts with both modifiers off and logs the flush. Nothing else changes. |
| MixingConsole.Console.PressMix | components/MixingConsole.tsx:46-59 | While shaking (button disabled, line 170), nothing changes. An empty shaker logs `ERR_CHAMBER_EMPTY` and does not start the shake. Otherwise shaking starts and the current mix is captured for hand-over. |
| MixingConsole.Console.ShakeDone | components/MixingConsole.tsx:55-58 | The timer stops shaking and hands over the mix captured at the press. That mix is non-empty and within the limits. |
| Gemini.FirstTruthy | services/gemini.ts:58-61 | The `||` chain stops at the first truthy operand. If no operand is truthy, it stops at the last one. |
| Gemini.FallbackMenu | services/gemini.ts:5-53 | The catalog has exactly three recipes. Each amount is in 0..10, and the totals are 10, 15 and 17. |
| Gemini.GenerateMoodMenu | services/gemini.ts:55-164 | The menu is never empty. A missing or placeholder key gives the catalog. So do a thrown exception, a reply without text, and a non-array reply. A non-empty parsed array is returned unchanged. There is no other result. |
| Gemini.FallbackIgnoresMood | services/gemini.ts:5-53 | The catalog does not depend on the mood text. |
| Gemini.NoKeyNoCall | services/gemini.ts:73-77 | Without a usable key, the call outcome cannot affect the menu. |
| Gemini.KeyIsFirstTruthySource | services/gemini.ts:58-61 | The key used is the first truthy source, in the fixed order. |
| Gemini.PlaceholderShadowsLaterKey | services/gemini.ts:58-73 | The text "undefined" or "null" in the first source is the key, and it forces the catalog even when a later source holds a real key. |
| Gemini.ReplyIsNotValidated | services/gemini.ts:148-150 | A one-recipe reply is returned as the menu, whatever its amounts. |
| AppState.TrimStart | App.tsx:40 | The leading whitespace is exactly what comes before the returned index. |
| AppState.TrimEnd | App.tsx:40 | The trailing whitespace is exactly what comes from the returned index on. |
| AppState.Trim | App.tsx:40 | `trim()` is empty exactly when the text is whitespace only. Otherwise it neither starts nor ends with whitespace. |
| AppState.TrimRemovesOnlyEdges | App.tsx:40 | A text that is not blank is its leading whitespace, its trimmed text and its trailing whitespace, in that order. |
| AppState.TrimIdempotent | App.tsx:40 | Trimming twice is trimming once. |
| AppState.App.constructor | App.tsx:11-16 | The app starts on the mood screen with empty text, an empty menu, and no target, mix or error. |
| AppState.App.SetMoodInput | App.tsx:141-142 | Typing sets the mood text only. |
| AppState.App.StartAnalysis | App.tsx:39-42 | Blank mood text changes nothing. Otherwise the stage becomes ANALYZING and the error is cleared. |
| AppState.App.AnalysisResolves | App.tsx:45-48 | The menu becomes the generated menu and the stage becomes MENU_SELECT. The menu screen therefore always has cards. |
| AppState.App.AnalysisRejects | App.tsx:49-53 | The error line is set, the stage returns to MOOD_INPUT, and the menu is left as it was. |
| AppState.App.SelectCard | App.tsx:187-191 | Card i becomes the target and the stage becomes MIXING. |
| AppState.App.FinishMix | App.tsx:209 | The handed-over mix is stored and the stage becomes RESULT. |
| AppState.App.ResultScore | App.tsx:214-219 | The printed rating depends only on the stored target and mix. It lies in [0,100], and it is 100 exactly when the mix is the target's own mix. |
| AppState.App.ResetAll | App.tsx:56-62 | The stage returns to MOOD_INPUT, and the text, menu, target and mix are cleared. The error line is kept. |

## Left out

- JSX, styling, animation, the receipt stacking offsets and the shaker fill heights are not modelled. They are presentation.
- Audio playback is not modelled. It is a side effect with no effect on state.
- The 2800 ms shake delay is not modelled as time. It becomes the discrete step `ShakeDone`.
- The memo colours, rotations and transaction identifiers in `handlePrint` are not modelled. They come from `Math.random` and `Date.now`.
- The service SDK import, the prompt, the response schema and the request itself are not modelled. They become the `CallOutcome` input.
- Console logging is not modelled.
- The build configuration (vite.config.ts) is not part of this model. The four key sources are inputs.
- The drag-and-drop bottle hit test, the ingredient unit rendering, the constants table, the page bootstrap and the App's global error listeners, background-image probe and key-check button are not part of this model. They are gesture handling, rendering and browser diagnostics.
- Gemini.GenerateMoodMenu: a parsed array's elements are taken to be recipe-shaped, with the five ingredient keys and integer amounts. JSON values of other shapes inside the array are not modelled.
- Gemini.KeySources: configuration values are undefined, null or strings. Other falsy values, such as `0` or `false`, are not modelled.
- AppState.App.AnalysisRejects: a rejection cannot come from the modelled generator, which is total and never fails. The step is kept for the code's catch branch.
- MixingConsole.Console.DropUnit: React state batching and stale closures are not modelled. Each handler sees the latest mix. Two drops handled before one re-render could both pass the `total >= 20` guard, and `ReplayWithinLimits` does not cover that.
- MixingConsole.Console: the class does not carry the history of controls. The bound over any session is the lemma `ReplayWithinLimits` about the pure `Replay`, and each handler's contract ties its new mix to `Apply`.
- RetroPrinter.CalculateAccuracy: the order of `Object.keys` is taken to be the declared order of the five ingredients. Non-integer amounts and extra record keys are not modelled.
- RetroPrinter.Accuracy: the rating uses exact rationals instead of IEEE doubles. `NoRoundingTie` is the reason this does not change the result.
- MixingConsole.Text: `toUpperCase` is modelled for ASCII letters only. The ingredient labels are ASCII.
- AppState.App.StartAnalysis: the model assumes one request at a time. The start handler (App.tsx:39-54) has no guard against a request already in flight, and the mood screen stays mounted during its exit fade (App.tsx:117-124). A second start, or a resolution that arrives outside ANALYZING (which would replace the menu or pull a mixing session back to MENU_SELECT, App.tsx:47-48), is not modelled; StartAnalysis requires MOOD_INPUT and AnalysisResolves/AnalysisRejects require ANALYZING.
