# Edutainment: a verified model of the multiplication quiz

Edutainment is a small iOS quiz app. The user picks a multiplication table
(2 to 12), a number of questions (5, 10 or 20) and a difficulty on a slider.
The app then shows questions of the form `table × multiplier` with four
tappable choices, keeps a running score, and raises a "Game Over" alert once
every question has been answered.

The SwiftUI layout is not modelled. This project models the logic inside it:

- `difficulty.dfy`, module `Difficulty`. The slider value is rounded up to a
  multiple of 25 (`Snap`), and each tier gives the largest multiplier a
  question may use (`MaxMult`). The lemmas prove that `Snap` yields the least
  multiple of 25 at or above the slider value. For every value the slider can
  hold, that is one of the four tiers 25, 50, 75 and 100.
- `quiz.dfy`, module `Quiz`. This holds the pure part of the game.
  - A question is built from a `Draw`: the multiplier, three decoy multipliers
    and a permutation of the four indices.
  - `Choices` shuffles the four products by that permutation.
  - `Record` and `Play` give the score board after each answer.
  - The lemmas prove three things: the shuffle is a permutation, the correct
    product is always among the choices, and a fresh game ends after exactly
    `numQuestions` answers with the score counting the correct ones.
- `edutainment.dfy`, module `Edutainment`. It has one class for each screen,
  with the fields the screen updates in place.
  - `OptionsView` snaps the slider when it is released.
  - `GameView` asks questions and judges answers.
  - `ContentView` stores the configuration and switches screens.
  - Each state-changing method states the whole new state. `GameView.Answer`
    is tied to `Quiz.Record`.
  - `StartScenario` and `PlayScenario` drive a session through these
    contracts alone.

Randomness is a parameter. `Int.random(in: 2...maxMult)` and `shuffled()` are
replaced by a `Draw`. `DrawFits` says what range each drawn value lies in.

The code checks less than one might expect, and the model keeps it that way:

- Starting a game validates nothing.
- `answer` has no guard against being called after game over. Only the modal
  alert prevents it, so the model makes `asked < numQuestions` a precondition.
- At game over the last question's multiplier and options are kept, not cleared.
- The four choices can contain duplicates.

## Model

| member | source | states |
|---|---|---|
| Difficulty.Ceil | Edutainment/ContentView.swift:74 | the result is the least integer not below its argument: `x <= r < x + 1` |
| Difficulty.Snap | Edutainment/ContentView.swift:71-76 | the snapped difficulty is a multiple of 25, at least the slider value and less than 25 above it |
| Difficulty.SnapIsTier | Edutainment/ContentView.swift:45 | every slider value in (0, 100] snaps to one of the tiers 25, 50, 75 and 100 |
| Difficulty.SnapIsLeast | Edutainment/ContentView.swift:74 | no multiple of 25 at or above the slider value is below the snapped value, so `Snap` rounds up to the nearest multiple of 25 |
| Difficulty.SnapIdempotent | Edutainment/ContentView.swift:71-76 | a property of the rounding rule alone (the program itself never snaps a stored difficulty again): snapping an already snapped value leaves it unchanged |
| Difficulty.SnapExamples | Edutainment/ContentView.swift:74 | 1 and 25 snap to 25, 26 and 50 snap to 50, 100 snaps to 100 |
| Difficulty.MaxMult | Edutainment/ContentView.swift:85-98 | tiers 25, 50, 75 and 100 give 10, 15, 20 and 25 (`d/5 + 5`); any other value gives 15; the result is always in [10, 25], so `2...maxMult` is never empty |
| Difficulty.MaxMultMonotone | Edutainment/ContentView.swift:85-98 | a harder tier never gives a smaller largest multiplier |
| Quiz.Shuffle | Edutainment/ContentView.swift:165 | `shuffled()` driven by a given permutation of the indices: position i holds element `order[i]`, and the length is kept |
| Quiz.Choices | Edutainment/ContentView.swift:165 | the options of a question: the four products `table × multiplier` and `table × decoy` (three decoys) shuffled by the drawn order; exactly 4 of them, the same multiset as the unshuffled products, with the correct product among them |
| Quiz.Record | Edutainment/ContentView.swift:155-160 | what one call of `answer` does to `asked`, `score` and `showAlert`: asked grows by exactly 1; score grows by 1 iff the answer was correct and is otherwise unchanged; `score <= asked` is kept; the game is over iff it already was or asked has reached numQuestions |
| Quiz.Play | Edutainment/ContentView.swift:154-162 | the tally after a sequence of answers from a fresh game (`asked` and `score` start at 0, lines 102 and 105): asked is the number of answers and score never exceeds it |
| Quiz.ShufflePermutes | Edutainment/ContentView.swift:165 | rearranging by a permutation of the indices keeps the multiset of elements |
| Quiz.ChoicesHoldAnswer | Edutainment/ContentView.swift:163-166 | for draws in range: exactly 4 choices; they are a permutation of the correct product and the three decoy products; the correct product is among them; every choice is `table × k` for some k in [2, maxMult] |
| Quiz.CountCorrect | Edutainment/ContentView.swift:156-158 | the number of correct answers is at most the number of answers; it equals that number iff every answer was right, and it is 0 iff none was |
| Quiz.PlayCounts | Edutainment/ContentView.swift:154-162 | from a fresh game, after n answers (n ≤ numQuestions): asked is n, the score is the number of correct answers and so ≤ asked, and the game is over exactly when n = numQuestions |
| Edutainment.OptionsView.constructor | Edutainment/ContentView.swift:11-14 | the options screen opens with table 2, 5 questions, slider 50 and difficulty 50, all within the widgets' ranges |
| Edutainment.OptionsView.SliderChanged | Edutainment/ContentView.swift:71-76 | on release the difficulty becomes `Snap(slider)`, a tier within 25 above the slider; while dragging it is unchanged; nothing else changes |
| Edutainment.GameView.constructor | Edutainment/ContentView.swift:79-106 | a game screen keeps its configuration and starts with multiplier 5, asked 0, score 0, options [1,1,1,1] and no alert |
| Edutainment.GameView.AskQuestion | Edutainment/ContentView.swift:163-170 | the multiplier becomes the drawn one, in [2, maxMult]; options become the shuffled candidates, a permutation of them that holds the correct product; the counters are untouched |
| Edutainment.GameView.Answer | Edutainment/ContentView.swift:154-162 | asked grows by exactly 1; score grows by 1 iff the tapped value is `table × multiplier`; `0 <= score <= asked <= numQuestions` is kept; when asked reaches numQuestions the alert is raised and the question is not regenerated; otherwise a new question is asked |
| Edutainment.ContentView.constructor | Edutainment/ContentView.swift:174-177 | the app opens on the options screen with table 2, 5 questions and difficulty 50 |
| Edutainment.ContentView.GoBack | Edutainment/ContentView.swift:194-196 | shows the options screen and leaves the stored configuration unchanged |
| Edutainment.ContentView.Start | Edutainment/ContentView.swift:197-202 | stores table, question count and difficulty as given and shows the game screen |

## Left out

- Layout, styling, gradients, navigation, the toolbar and the alert's presentation are UI, not logic. This includes the alert resetting `showAlert` when its Restart button is tapped.
- The `degrees` rotation state and `withAnimation` are cosmetic and affect no other state.
- The random number generator (`Int.random`, `shuffled`) is not modelled. Its results are passed in as a `Quiz.Draw`, with ranges stated by `Quiz.DrawFits`.
- Floating point: the difficulty is a `Double` in the source and an `int` here. It is only ever 50 or `25 * ceil(slider / 25)`, and both are whole numbers. The slider is a `real`, so the rounding is exact and IEEE effects are not modelled.
- The widgets' bindings (Stepper 2...12, Picker {5, 10, 20}, Slider 1...100) are not modelled as operations. Their ranges appear only as `OptionsView.Valid()`.
- The Start button's tap, which passes the options screen's values to `ContentView.Start`, is not a separate member. `StartScenario` shows that call.
- `.onAppear(perform: askQuestion)`: the model does not run it on its own. A client calls `GameView.AskQuestion` after creating the screen.
- SwiftUI's rules for when a view's `@State` is kept or reset are not modelled. Each game is a new `GameView`.
- Edutainment.GameView.Answer: the source has no guard against answering after game over, and the model requires `asked < numQuestions` instead. It also requires a fitting `Draw` on every call, even though the draw is used only when the game goes on.
- Edutainment.GameView.constructor: requires `0 < numQuestions`. With 0 questions the source game never ends, and the picker never offers 0.
- Quiz.Product: Swift's `table*multiplier` traps on `Int` overflow, while the model's product is unbounded. This cannot be reached in the app, since the Stepper limits the table to 2...12 and a multiplier is at most 25, but `ContentView.Start` and the `GameView` constructor accept any table.
- `ContentView_Previews` is preview scaffolding.
