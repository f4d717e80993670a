# Answer Mario quiz: a Dafny model

Answer Mario is a small React quiz front end. A start screen leads to five
multiple-choice questions, one at a time, with a coin counter. After the last
question a final-score screen offers Restart and Home. This project models the
logic of its two components as state machines driven by events, and proves what
they do:

- `Start1`, the session controller. It owns the start-screen flag, the question
  index and the coin count. Its handlers are start, a callback for an accepted
  answer, restart and home. It also selects the screen to show.
- `Quiz`, the per-question component. It owns the selection, the answered lock,
  the animation class and the two-stage reveal (prompt first, then options). It
  reports each accepted answer to the controller.

Files:

- `questions.dfy`: the question table and its well-formedness.
- `session.dfy`: the controller's state, its handlers, and the `SessionController` class.
- `quiz.dfy`: the quiz's state, its handlers, the option styling and labels, and the `QuizComponent` class.
- `app.dfy`: the two components together, covering one option click end to end and whole sessions as event sequences.

How React and its timers are modelled:

- **Setter batching.** React queues the setter calls made during one handler and
  applies them in call order when the handler returns. The coin count is the one
  field that two components write in the same event, so its setter calls go
  through an explicit queue (`CoinUpdate`, `coinQueue`). `Committed` /
  `CommitUpdates` is the flush. On a right answer the queue is the parent's
  functional `prev => prev + 5` followed by the quiz's absolute
  `setCoinCount(coinCount + 5)`. That nets old + 5 (`App.AnswerAwardsOnce`).
- **Timers are events, not clock time.**
  - The one-second advance timer is a counter, `pendingAdvances`. Nothing
    cancels it, not even restart.
  - The two-second reveal timer is a flag, `revealPending`. The `[question]`
    effect's cleanup cancels it, and the effect schedules a new one.
  - The two-second unlock timers are a counter, `unlockPending`. A question
    change does not cancel them.
  - The prompt's entry animation finishing is an event of its own.
- **Events need their controls on screen.** In the session trace (`App.Step`),
  an event whose control is not rendered changes nothing. Start works only on the
  start screen. Restart and Home work only on the final-score screen. An answer
  works only on the quiz screen. Likewise, a click on an option needs the options
  to be visible (`QuizMachine.QuizStep`).

Behaviours of the code that are easy to get wrong:

- Start does not reset the index or the score. Only restart does, to 0 and 50.
  So Home then Start from the final-score screen lands on the final-score screen
  again (`App.HomeThenStartKeepsResults`).
- Home exists only on the final-score screen. There is no mid-quiz Home.
- The answered lock is not permanent. The unlock timer lifts it, and the click
  handler then accepts another click (`QuizMachine.AnswerAgainAfterUnlock`). With
  the real delays this does not reopen the same question: the 1000 ms advance
  fires before the 2000 ms unlock, and the `[question]` effect for the next prompt
  has already cleared the lock. The second click on one question arises only in
  the model, where timers fire in any order.
- A right answer earns +5, not +10. React applies the two queued setters in
  order, and the quiz's absolute set overrides the parent's increment.
- No timer is cancelled on restart or home. The only cancellation is of the
  reveal timer, by the `[question]` effect's cleanup: when the prompt changes
  (modelled), and when the quiz unmounts for the final-score screen (not
  modelled; see the line on mounting under "## Left out").

## Model

| member | source | states |
|---|---|---|
| `QuestionTable.Occurrences` | src/container/Start1/index.tsx:6-12 | the occurrence count of an option text is at most the number of options, and is zero exactly when the text is not an option |
| `QuestionTable.QuestionsWellFormed` | src/container/Start1/index.tsx:6-12 | there are five questions; each has exactly four options, no two alike, and its answer occurs exactly once among them |
| `QuestionTable.PromptsDistinct` | src/container/Start1/index.tsx:6-12 | no two questions share a prompt, so the quiz's prompt-keyed reset runs on every change of question |
| `QuestionTable.Questions` | src/container/Start1/index.tsx:6-12 | the question table, in presentation order; it has five entries |
| `Session.Initial` | src/container/Start1/index.tsx:14-18 | the `useState` initial values: the start screen, index 0, 50 coins, no advance scheduled and no setter queued |
| `Session.Started` | src/container/Start1/index.tsx:20-24 | `handleStart` leaves the start screen and keeps the index, the coins, the queue and the scheduled advances |
| `Session.NextQuestionHandled` | src/container/Start1/index.tsx:26-33 | `handleNextQuestion` makes the queued setters yield 5 more coins iff the answer is right, and schedules exactly one advance without moving the index |
| `Session.CoinCountSet` | src/container/Quiz/index.tsx:59 | the raw setter queues an absolute value, so the queue then yields exactly that value |
| `Session.Restarted` | src/container/Start1/index.tsx:35-39 | `handleRestart` makes the queue yield 50 coins, sets the index to 0 and `showQuiz`, and keeps `showForm` and the scheduled advances |
| `Session.WentHome` | src/container/Start1/index.tsx:41-44 | `handleHome` shows the start screen and keeps the index, the coins, the queue and the scheduled advances |
| `Session.AdvanceFired` | src/container/Start1/index.tsx:30-32 | a firing advance adds exactly 1 to the index and consumes one scheduled advance; coins and the screen flag are untouched |
| `Session.Committed` | src/container/Start1/index.tsx:28 | React's flush empties the queue, changes nothing when the queue was empty, and ends on the value of a final absolute set |
| `Session.SelectScreen` | src/container/Start1/index.tsx:49-103 | the quiz screen holds `questions[index]` with the index in bounds; the final-score screen shows `coinCount` and appears only after start |
| `Session.ApplyUpdates` | src/container/Quiz/index.tsx:56-60 | applying the queued coin setters in call order: when the last one is an absolute set, the result is its value whatever came before |
| `Session.ApplyUpdatesSnoc` | src/container/Start1/index.tsx:28 | applying a queue with one more setter call appended is applying that call to the result of the shorter queue |
| `Session.IncrementsAccumulate` | src/container/Start1/index.tsx:26-29 | a queue of functional increments alone moves the coin count by their sum |
| `Session.CallsKeepProgress` | src/container/Quiz/index.tsx:56-60 | calls from the quiz to its parent only queue setters and schedule advances; they never change the screen flags, the index or the committed coin count |
| `Session.ScreenCases` | src/container/Start1/index.tsx:49-103 | start screen iff `showForm` is false; quiz on `questions[index]` iff `showForm` holds and the index is in bounds; otherwise the final-score screen showing `coinCount` |
| `Session.ShownQuestionWellFormed` | src/container/Start1/index.tsx:83-91 | the question handed to the quiz is an entry of the table and is well formed |
| `Session.StartKeepsProgress` | src/container/Start1/index.tsx:20-24 | start sets `showForm`, `showQuiz` and `moveMario` and leaves the index, the coins and the scheduled advances unchanged |
| `Session.HomeKeepsProgress` | src/container/Start1/index.tsx:41-44 | home clears `showForm` and `showQuiz` and leaves the index, the coins and the scheduled advances unchanged |
| `Session.RestartResets` | src/container/Start1/index.tsx:35-39 | restart sets the coins to 50, the index to 0 and `showQuiz` to true, whatever they were, and leaves `showForm` and the scheduled advances unchanged |
| `Session.NextQuestionAwards` | src/container/Start1/index.tsx:26-33 | the answer callback adds exactly 5 coins iff the answer is right, schedules exactly one advance, and leaves the index alone until that advance fires |
| `Session.SessionController.constructor` | src/container/Start1/index.tsx:14-18 | initial state: start screen, index 0, 50 coins, `showQuiz` and `moveMario` false, nothing scheduled or queued |
| `Session.SessionController.HandleStart` | src/container/Start1/index.tsx:20-24 | the new state is the start handler's effect on the old one |
| `Session.SessionController.HandleNextQuestion` | src/container/Start1/index.tsx:26-33 | queues the functional +5 only on a right answer and adds one scheduled advance |
| `Session.SessionController.SetCoinCount` | src/container/Start1/index.tsx:90 | the setter handed to the quiz queues an absolute coin value |
| `Session.SessionController.HandleRestart` | src/container/Start1/index.tsx:35-39 | queues the reset of the coins to 50, sets the index to 0 and `showQuiz` to true |
| `Session.SessionController.HandleHome` | src/container/Start1/index.tsx:41-44 | clears `showForm` and `showQuiz` only |
| `Session.SessionController.FireAdvanceTimer` | src/container/Start1/index.tsx:30-32 | a scheduled advance fires: index + 1, one fewer advance pending |
| `Session.SessionController.CommitUpdates` | src/container/Start1/index.tsx:28 | the queued coin setters are applied in call order and the queue is emptied |
| `QuizMachine.Reset` | src/container/Quiz/index.tsx:26-45 | the `[question]` effect always lands in a valid state: unanswered, nothing selected, both parts hidden, a reveal scheduled; the props and the unlock timers are kept |
| `QuizMachine.Mounted` | src/container/Quiz/index.tsx:13-45 | a freshly mounted quiz holds the given question's props, satisfies the invariant and has no unlock pending |
| `QuizMachine.PropsChanged` | src/container/Quiz/index.tsx:26-45 | new props are always taken; a different prompt resets the answer and reschedules the reveal; the same prompt changes nothing but the props (the effect does not run); the invariant and the unlock timers are kept |
| `QuizMachine.ClickCalls` | src/container/Quiz/index.tsx:56-60 | an accepted click calls `onNext` once, first, with the correctness, then `setCoinCount(coinCount + 5)` only when right |
| `QuizMachine.Clicked` | src/container/Quiz/index.tsx:48-67 | the click handler keeps the invariant, does nothing while answered, otherwise selects the option, locks and calls the parent; the visibility flags are untouched |
| `QuizMachine.RevealFired` | src/container/Quiz/index.tsx:37-43 | a pending reveal writes only the visibility flags (prompt shown, options hidden) and is consumed; every other field, props included, is kept; a cancelled (no longer pending) reveal changes nothing; the invariant is kept |
| `QuizMachine.QuestionAnimationCompleted` | src/container/Quiz/index.tsx:104-107 | the animation-complete signal turns the options on whenever the prompt is shown, and only then; it changes nothing else and keeps the invariant |
| `QuizMachine.UnlockFired` | src/container/Quiz/index.tsx:63-66 | a pending unlock writes only the lock and the animation class (both cleared) and is consumed; every other field is kept, including a pending reveal of the next question; with none pending nothing changes; the invariant is kept |
| `QuizMachine.OptionClass` | src/container/Quiz/index.tsx:131-138 | an option is white, green or red; green iff answered and it is the right answer; red iff answered, wrong and the selected one |
| `QuizMachine.Disabled` | src/container/Quiz/index.tsx:145 | while the buttons are enabled every option is white; once disabled the right answer is green |
| `QuizMachine.QuizStep` | src/container/Quiz/index.tsx:119-145 | one quiz event: a click reaches the handler only while the option buttons are rendered (`isOptionsVisible`) and is otherwise a no-op; every event keeps the invariant |
| `QuizMachine.MountedQuizCanBeAnswered` | src/container/Quiz/index.tsx:37-107 | after mounting, the reveal timer and the prompt's animation make the options visible, and a click is then accepted and recorded |
| `QuizMachine.OptionLabel` | src/container/Quiz/index.tsx:160 | the badge of option i is the i-th capital letter |
| `QuizMachine.FourLabels` | src/container/Quiz/index.tsx:160 | the four badges read A, B, C, D |
| `QuizMachine.MountedState` | src/container/Quiz/index.tsx:14-45 | a mounted quiz has no selection, is unlocked, has no animation class, hides prompt and options, has the reveal scheduled and no unlock pending, and satisfies the invariant |
| `QuizMachine.StepKeepsInv` | src/container/Quiz/index.tsx:26-107 | every event keeps the invariant: options visible implies prompt visible; a pending reveal means a hidden prompt; answered iff the animation class is non-empty; answered implies a selection and a pending unlock |
| `QuizMachine.RunKeepsInv` | src/container/Quiz/index.tsx:95-119 | over any sequence of events the invariant holds, so options are never shown without the prompt |
| `QuizMachine.OptionsOnlyAfterPrompt` | src/container/Quiz/index.tsx:104-107 | the options become visible only through the prompt's animation completing while the prompt is shown |
| `QuizMachine.RevealShowsPromptOnly` | src/container/Quiz/index.tsx:37-40 | the reveal timer shows the prompt, keeps the options hidden and is no longer pending |
| `QuizMachine.ClickIgnoredWhenAnswered` | src/container/Quiz/index.tsx:49 | a click while answered changes nothing and calls nothing on the parent |
| `QuizMachine.ClickAccepted` | src/container/Quiz/index.tsx:51-66 | an accepted click selects the option, locks, sets the animation to "correct" iff right and "incorrect" otherwise, and schedules one unlock; its parent calls are exactly `[onNext(true), setCoinCount(coinCount + 5)]` when right and `[onNext(false)]` when wrong |
| `QuizMachine.DoubleClickIsSingleClick` | src/container/Quiz/index.tsx:48-52 | a second click right after the first is ignored, so a double click has the effect of one click |
| `QuizMachine.QuestionChangeResets` | src/container/Quiz/index.tsx:26-45 | a new prompt clears the selection, the lock, the animation and both visibility flags, and replaces the reveal timer with a new one; unlock timers stay pending |
| `QuizMachine.UnlockLiftsLock` | src/container/Quiz/index.tsx:63-66 | an unlock timer clears the animation class and the lock, and keeps the selection and the question |
| `QuizMachine.AnswerAgainAfterUnlock` | src/container/Quiz/index.tsx:49-66 | after the unlock fires, a new click on the same question is accepted |
| `QuizMachine.StylingUnanswered` | src/container/Quiz/index.tsx:131-145 | unanswered, every option is white and enabled; buttons are disabled iff answered |
| `QuizMachine.StylingAnswered` | src/container/Quiz/index.tsx:131-138 | answered, the right option is green, a different selected option is red, any other option white |
| `QuizMachine.AtMostOneRed` | src/container/Quiz/index.tsx:131-138 | with distinct options at most one button is red, and none when the selection was right |
| `QuizMachine.QuizComponent.constructor` | src/container/Quiz/index.tsx:14-45 | mounting gives the mounted state, which satisfies the invariant |
| `QuizMachine.QuizComponent.ResetForQuestion` | src/container/Quiz/index.tsx:26-45 | the `[question]` effect resets the answer and the visibility flags and reschedules the reveal |
| `QuizMachine.QuizComponent.ReceiveProps` | src/container/Quiz/index.tsx:26-45 | new props are taken, and the effect runs only when the prompt text differs; the invariant is kept |
| `QuizMachine.QuizComponent.HandleOptionClick` | src/container/Quiz/index.tsx:48-67 | the quiz's new state is the click handler's effect, and the parent's new state is the result of the click's calls made in order (`onNext` first, then the absolute coin set) |
| `QuizMachine.QuizComponent.FireRevealTimer` | src/container/Quiz/index.tsx:37-40 | the reveal timer's effect; the invariant is kept |
| `QuizMachine.QuizComponent.OnQuestionAnimationComplete` | src/container/Quiz/index.tsx:104-107 | the animation-complete effect; the invariant is kept |
| `QuizMachine.QuizComponent.FireUnlockTimer` | src/container/Quiz/index.tsx:63-66 | the unlock timer's effect; the invariant is kept |
| `App.AnswerAwardsOnce` | src/container/Quiz/index.tsx:56-60 | once the queued setters are applied, an accepted answer adds exactly 5 coins when right and none when wrong (not 10), and schedules one advance |
| `App.ClickOption` | src/container/Quiz/index.tsx:48-67 | a whole click event: the coins go up by 5 iff the click was accepted and right, one advance is scheduled iff it was accepted, and nothing else in the controller changes |
| `App.AdvanceResetsQuiz` | src/container/Quiz/index.tsx:26-45 | when an advance moves from one question to the next, the quiz sees a different prompt and resets |
| `App.Enabled` | src/container/Start1/index.tsx:49-109 | Start is clickable only on the start screen; an answer only while a question is shown (index in bounds); Restart and Home only on the final-score screen (index past the last question) |
| `App.Step` | src/container/Start1/index.tsx:20-109 | one event with its setters applied: an event whose control is not rendered changes nothing, no setter stays queued, and only Start and Home change the screen flag |
| `App.ShownQuizAtMostOneRed` | src/container/Quiz/index.tsx:131-138 | for the question the controller shows, at most one option is red, and none when the selection was right |
| `App.ThreeRightTwoWrong` | src/container/Start1/index.tsx:83-103 | right, wrong, right, wrong, right ends on the final-score screen with 65 coins |
| `App.StepIndexChange` | src/container/Start1/index.tsx:30-37 | an event leaves the index alone, adds exactly 1 (an advance) or sets it to 0 (a restart) |
| `App.StepCoins` | src/container/Start1/index.tsx:26-39 | an event leaves the coins alone, adds 5 (an accepted right answer) or sets them to 50 (a restart) |
| `App.ScoreCountsRightAnswers` | src/container/Start1/index.tsx:26-29 | between restarts the coins are the starting count plus 5 per accepted right answer |
| `App.ProgressAccounting` | src/container/Start1/index.tsx:26-33 | between restarts the index plus the pending advances grows by exactly the number of accepted answers, and the index never decreases |
| `App.StartFromInitial` | src/container/Start1/index.tsx:14-24 | Start from the first load shows the first question with 50 coins |
| `App.RestartFromResults` | src/container/Start1/index.tsx:35-39 | Restart on the final-score screen shows the first question with 50 coins and keeps any stale pending advances |
| `App.HomeThenStartKeepsResults` | src/container/Start1/index.tsx:20-44 | Home then Start from the final-score screen keeps the index and the coins, and shows the same final score again |
| `App.AnswerThenAdvance` | src/container/Start1/index.tsx:26-33 | an answer and its advance move to the next question, adding 5 coins iff right |
| `App.PlayOn` | src/container/Start1/index.tsx:26-33 | answering the remaining questions in turn adds 5 per right answer and 1 to the index per answer |
| `App.WholeGame` | src/container/Start1/index.tsx:83-103 | Start and five answers with their advances end on the final-score screen with 50 + 5 per right answer |

## Left out

- framer-motion animations, durations, easing, stagger and `AnimatePresence` are not modelled. The end of the prompt's entry animation is kept as an abstract event.
- The delays (2000 ms reveal, 1000 ms advance, 2000 ms unlock) are not modelled. Each pending timer is an event that may fire in any order, so the proved properties hold for every interleaving. In real time an advance fires before the unlock of the same answer, which the model does not assume.
- The session trace (`App.Step`) reduces the quiz to "an accepted answer, right or wrong". The quiz's own lock and reveal are proved separately, on `QuizMachine.QuizStep`. `App.ClickOption` and `App.AdvanceResetsQuiz` connect the two components.
- Mounting and unmounting are reduced to construction. A quiz is unmounted when the final-score screen shows, and an unlock timer then fires on the unmounted component. React ignores that update, and the model does not represent it.
- The render in which new props meet the old answer state, just before the `[question]` effect runs, is not a separate state. A change of props and its effect are one step.
- `moveMario` and `showQuiz` are tracked, but no logic reads them.
- Images, layout, the per-index badge colours, the decorative option images and every Tailwind class except the three option backgrounds are left out.
- OptionLabel: only indices 0 to 25 are covered. The source has four options; `String.fromCharCode(65 + i)` for larger indices gives non-letters.
