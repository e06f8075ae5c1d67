# Trivia quiz engines, modelled in Dafny

The trivia client has two game screens, a single-player "classic" mode and a
local two-player "battle" mode, both fed by one question fetch. This project
models their quiz progression and the fetch's response validation:

- `wrappers.dfy` (module `Wrappers`): `Option`, `Result` and JavaScript
  truthiness of a `string | null` value.
- `question_api.dfy` (module `QuestionApi`): the `Question` record, parsed
  JSON values, the record filter of `getQuestions` and its error cases
  (lib/api.ts). The filter is `Filter`, a model of `Array.prototype.filter`,
  applied to the record predicate `IsValidRecord`.
- `classic_mode.dfy` (module `ClassicMode`) and `battle_mode.dfy` (module
  `BattleMode`): each component's state hooks as a `State` value, each
  handler as a step function `After...` on it, and a class `Game` whose
  fields are the state hooks and whose methods are the handlers, each
  proved to perform its step function in place.

Each React handler reads the state of the render it was created in
(`setScore(score + 1)`), so a handler is one atomic step from the old state
to the new one. `loadQuestions` is split at its `await`: `LoadQuestions` /
`AfterLoadStart` is the part before it, and `ReceiveQuestions` /
`AfterLoadSettled` the part after it, given what `getQuestions` returned or
threw.

The properties are proved at two levels:

- Handler level, for any sequence of handler calls (`Run`): the answer
  guard, score bounds, score monotonicity (for both players in battle
  mode) and, in battle mode, the turn following the question index. The answer guard is a truthiness test, so
  the once-per-question properties assume non-empty answers, and
  `EmptyAnswerDoesNotBlock` shows what happens otherwise.
- Screen level: `View` is the component's choice of screen (loading, error,
  results, "Pregunta no encontrada", playing), and `Enabled` says which
  events that screen offers. Answer buttons are disabled once the result
  shows. The next and finish buttons appear only with the result. A fetch
  settles only while one is pending. Over every run of offered events from
  mount, `Consistent` holds. It makes the "Pregunta no encontrada" screen
  unreachable. It bounds the classic score by the batch length, and in battle
  mode it bounds each player's score by half the batch.

Behaviour the model keeps as the code has it:

- The filter does not check that the four answers are strings.
- `nextQuestion` has no "result shown" guard of its own. Only the UI hides
  its button.
- The answer guard lets a second answer through after an empty-string
  answer.
- The two engines are separate near-duplicates, as in the code.

## Model

| member | source | states |
|---|---|---|
| `QuestionApi.IsValidRecord` | lib/api.ts:34-42 | the filter predicate: only an object that carries all four properties `id`, `text`, `answers` and `correct_answer` can pass |
| `QuestionApi.ToQuestion` | lib/api.ts:49 | the record seen as a `Question` carries the record's id, text, answers and correct answer, and has four answers that include the correct one |
| `QuestionApi.Filter` | lib/api.ts:33 | the filter's output is no longer than its input and every element of it passes the predicate |
| `QuestionApi.FilterValid` | lib/api.ts:33-43 | every record the filter keeps has a numeric id, a string text, a four-element answers array and a string correct answer that the answers include |
| `QuestionApi.FilterPositions` | lib/api.ts:33-43 | the filter's output is the input's elements at an increasing list of positions, and a position is in that list exactly when its element passes the predicate (order-preserving subsequence, sound and complete) |
| `QuestionApi.FilterKeepsEveryValidRecord` | lib/api.ts:33-43 | completeness: every input record that passes the predicate is in the output |
| `QuestionApi.FilterKeepsValidList` | lib/api.ts:33-43 | a list of records that all pass is returned unchanged |
| `QuestionApi.FilterIdempotent` | lib/api.ts:33-43 | filtering the output again returns it unchanged |
| `QuestionApi.GetQuestions` | lib/api.ts:27-49 | a failed request is a transport error; a non-array body is an invalid-format error; an array with no valid record is a no-valid-questions error; otherwise the batch is the kept records, in order, never empty and all well formed |
| `QuestionApi.GetQuestionsSucceedsIffSomeRecordValid` | lib/api.ts:28-49 | a batch is returned if and only if the body is an array holding at least one valid record |
| `ClassicMode.AfterLoadStart` | components/classic-mode.tsx:25-28 | the load sets `loading` and clears the error, nothing else |
| `ClassicMode.AfterLoadSettled` | components/classic-mode.tsx:29-40 | `loading` ends false on every path; a non-empty batch replaces the questions; an empty one sets "No se encontraron preguntas" and a thrown error "Error al cargar las preguntas", leaving the questions as they were |
| `ClassicMode.AfterAnswer` | components/classic-mode.tsx:43-50 | with a truthy answer already selected or no question at the index nothing changes; otherwise the answer is recorded, the result shows, and the score rises by exactly one if and only if the answer is the correct one |
| `ClassicMode.AfterNext` | components/classic-mode.tsx:52-60 | before the last question the index rises by one and selection and result are cleared; at or past the last question only the finished flag is set |
| `ClassicMode.AfterReset` | components/classic-mode.tsx:62-70 | index and score are 0, selection, result, finished flag and error are cleared, and a load has started |
| `ClassicMode.AfterFinalize` | components/classic-mode.tsx:211-217 | "Finalizar" sets the finished flag and changes neither score nor index nor anything else |
| `ClassicMode.AnswerOncePerQuestion` | components/classic-mode.tsx:44 | once a non-empty answer is recorded, a second answer changes nothing |
| `ClassicMode.EmptyAnswerDoesNotBlock` | components/classic-mode.tsx:44-49 | for a well-formed question whose correct answer is the empty string, answering it twice scores twice |
| `ClassicMode.ScoreBoundedByAnswered` | components/classic-mode.tsx:43-70 | with non-empty answers, any sequence of handler calls keeps the score at most the number of questions passed plus the one currently answered |
| `ClassicMode.ScoreNeverDecreases` | components/classic-mode.tsx:43-60 | without a reset, no sequence of handler calls lowers the score |
| `ClassicMode.FetchedBatchIsNeverEmpty` | components/classic-mode.tsx:31-38 | fed by `getQuestions`, a load ends with no error exactly when the fetch succeeded, and never with "No se encontraron preguntas" |
| `ClassicMode.View` | components/classic-mode.tsx:72-139 | the screen rendered for a state: loading exactly while a load is pending, an error screen always with a non-empty message, and the playing screen only when there is a question at the current index and the game is neither finished nor in error |
| `ClassicMode.Enabled` | components/classic-mode.tsx:72-217 | which events the rendered screen offers: nothing but the fetch's settling while loading, answer buttons only for an existing question before its result shows, and the next and finish buttons only once the result shows in an unfinished game |
| `ClassicMode.StepKeepsConsistent` | components/classic-mode.tsx:72-139 | every event the rendered screen offers keeps the consistency invariant |
| `ClassicMode.RunKeepsConsistent` | components/classic-mode.tsx:72-139 | every run of offered events keeps the consistency invariant |
| `ClassicMode.ReachableStatesAreSound` | components/classic-mode.tsx:126-139 | from mount, the "Pregunta no encontrada" screen is never reached and the score never exceeds the number of questions |
| `ClassicMode.Game.constructor` | components/classic-mode.tsx:12-19 | the state hooks start at their initial values with a load pending |
| `ClassicMode.Game.LoadQuestions` | components/classic-mode.tsx:25-28 | performs `AfterLoadStart` in place |
| `ClassicMode.Game.ReceiveQuestions` | components/classic-mode.tsx:29-40 | performs `AfterLoadSettled` in place |
| `ClassicMode.Game.HandleAnswer` | components/classic-mode.tsx:43-50 | performs `AfterAnswer` in place |
| `ClassicMode.Game.NextQuestion` | components/classic-mode.tsx:52-60 | performs `AfterNext` in place |
| `ClassicMode.Game.ResetGame` | components/classic-mode.tsx:62-70 | performs `AfterReset` in place |
| `ClassicMode.Game.Finalize` | components/classic-mode.tsx:213 | performs `AfterFinalize` in place |
| `BattleMode.EvenBatch` | components/battle-mode.tsx:33 | the stored batch is the prefix of the fetched data of length `n - n % 2`, hence even |
| `BattleMode.Winner` | components/battle-mode.tsx:112-113 | player 1 wins if and only if their score is higher, player 2 if and only if theirs is, and equal scores are a tie |
| `BattleMode.AfterLoadStart` | components/battle-mode.tsx:27-30 | the load sets `loading` and clears the error, nothing else |
| `BattleMode.AfterLoadSettled` | components/battle-mode.tsx:31-42 | `loading` ends false on every path; a non-empty batch is stored cut to even length; an empty one sets "No se encontraron preguntas" and a thrown error "Error al cargar las preguntas" |
| `BattleMode.AfterAnswer` | components/battle-mode.tsx:45-56 | with a truthy answer already selected or no question at the index nothing changes; otherwise the answer is recorded, the result shows, the current player's score rises by exactly one if and only if the answer is correct, and the other player's score is untouched |
| `BattleMode.AfterNext` | components/battle-mode.tsx:58-67 | before the last question the index rises by one, the turn passes to the other player and selection and result are cleared; otherwise only the finished flag is set |
| `BattleMode.AfterReset` | components/battle-mode.tsx:69-79 | index 0, player 1, both scores 0, selection, result, finished flag and error cleared, and a load started |
| `BattleMode.AfterFinalize` | components/battle-mode.tsx:268-274 | "Finalizar" sets the finished flag and changes neither scores, index nor turn |
| `BattleMode.TurnsAlternate` | components/battle-mode.tsx:58-79 | any sequence of handler calls keeps player 1 on exactly the even question indices |
| `BattleMode.AnswerOncePerQuestion` | components/battle-mode.tsx:46 | once a non-empty answer is recorded, a second answer changes nothing |
| `BattleMode.ScoresBoundedByAnswered` | components/battle-mode.tsx:45-79 | with non-empty answers, any sequence of handler calls keeps the two scores together at most the number of questions passed plus the one currently answered |
| `BattleMode.ScoresNeverDecrease` | components/battle-mode.tsx:45-67 | without a reset, no sequence of handler calls lowers either player's score |
| `BattleMode.SingleQuestionLeavesNoQuestions` | components/battle-mode.tsx:32-34 | a one-question fetch leaves an empty batch and the "No hay preguntas disponibles" screen |
| `BattleMode.View` | components/battle-mode.tsx:81-162 | the screen rendered for a state: loading exactly while a load is pending, an error screen always with a non-empty message, and the playing screen only when there is a question at the current index and the game is neither finished nor in error |
| `BattleMode.Enabled` | components/battle-mode.tsx:81-274 | which events the rendered screen offers: nothing but the fetch's settling while loading, answer buttons only for an existing question before its result shows, and the next and finish buttons only once the result shows in an unfinished game |
| `BattleMode.StepKeepsConsistent` | components/battle-mode.tsx:81-162 | every event the rendered screen offers keeps the consistency invariant |
| `BattleMode.RunKeepsConsistent` | components/battle-mode.tsx:81-162 | every run of offered events keeps the consistency invariant |
| `BattleMode.ScoresWithinHalf` | components/battle-mode.tsx:33 | in a consistent state neither player's score exceeds half the batch |
| `BattleMode.ReachableStatesAreSound` | components/battle-mode.tsx:149-162 | from mount, the batch is even, player 1 holds exactly the even indices, "Pregunta no encontrada" is never reached and neither score exceeds half the batch |
| `BattleMode.Game.constructor` | components/battle-mode.tsx:12-21 | the state hooks start at their initial values with a load pending |
| `BattleMode.Game.LoadQuestions` | components/battle-mode.tsx:27-30 | performs `AfterLoadStart` in place |
| `BattleMode.Game.ReceiveQuestions` | components/battle-mode.tsx:31-42 | performs `AfterLoadSettled` in place |
| `BattleMode.Game.HandleAnswer` | components/battle-mode.tsx:45-56 | performs `AfterAnswer` in place |
| `BattleMode.Game.NextQuestion` | components/battle-mode.tsx:58-67 | performs `AfterNext` in place |
| `BattleMode.Game.ResetGame` | components/battle-mode.tsx:69-79 | performs `AfterReset` in place |
| `BattleMode.Game.Finalize` | components/battle-mode.tsx:270 | performs `AfterFinalize` in place |

## Left out

- The HTTP request, its headers, the status check and JSON parsing (lib/api.ts:13-25) are I/O. The model receives the parsed body, or `None` when any of these failed.
- `console.log` and `console.error` calls are side effects with no bearing on state.
- The `useEffect` mount trigger is not a step of its own. The initial state already has `loading` set and a fetch pending.
- Overlapping loads are not modelled. Retry and reset can start a fetch while another is pending, and there is no cancellation. The model has at most one pending fetch, which settles only while `loading` is set.
- JSX rendering, CSS classes and the `A.`–`D.` labels are UI. Only the choice of screen (`View`) and which buttons it offers (`Enabled`) are modelled.
- The classic results percentage `Math.round(score / questions.length * 100)` is floating-point display arithmetic.
- "Volver al Menú" / "Menú" unmount the component and discard its state. The menu in app/page.tsx only chooses which component to render.
- Answer entries that are not strings: the filter lets them through, and clicking one passes a non-string to `handleAnswer`. `Enabled` only offers answer buttons whose entry is a string.
- Strings are Dafny strings, sequences of Unicode scalar values, while JavaScript strings are UTF-16 code units; a JSON string holding a lone surrogate escape (`"\ud800"`) has no value in the model. Equality, the only string operation the core uses, agrees on every other string.
- JavaScript numbers are modelled as reals. JSON has no NaN; a literal that overflows to plus or minus Infinity is folded into an arbitrary real, which is harmless because the id is only type-checked.
