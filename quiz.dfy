/**
 * The per-question component (`Quiz`). It takes the prompt, the options and the
 * right answer as props, keeps the selection, the answered lock, the animation
 * class and two visibility flags, and reports each accepted answer to its
 * parent.
 *
 * Timers are explicit: `revealPending` is the two-second reveal timer of the
 * `[question]` effect (the effect's cleanup cancels it), `unlockPending`
 * counts the two-second unlock timers scheduled by accepted clicks (nothing
 * cancels them). The end of the prompt's entry animation is an event of its own.
 */
module QuizMachine {
  import opened Wrappers
  import opened QuestionTable
  import opened Session

  const NoAnimation: string := ""
  const CorrectAnimation: string := "correct"
  const IncorrectAnimation: string := "incorrect"

  const Neutral: string := "bg-white"
  const Green: string := "bg-green-500"
  const Red: string := "bg-red-500"

  datatype QuizState = QuizState(
    // props
    question: string,
    options: seq<string>,
    correctAnswer: string,
    // state
    selectedOption: Option<string>,
    isAnswered: bool,
    animationClass: string,
    isQuestionVisible: bool,
    isOptionsVisible: bool,
    // scheduled timers
    revealPending: bool,
    unlockPending: nat)

  /** The `[question]` effect: cancel the old reveal timer, clear the answer, hide both parts, schedule a new reveal. */
  function Reset(st: QuizState): (r: QuizState)
    ensures Inv(r)
    ensures !r.isAnswered && r.selectedOption == None && !r.isQuestionVisible && !r.isOptionsVisible && r.revealPending
    ensures r.unlockPending == st.unlockPending
    ensures r.question == st.question && r.options == st.options && r.correctAnswer == st.correctAnswer
  {
    st.(selectedOption := None, isAnswered := false, animationClass := NoAnimation,
        isQuestionVisible := false, isOptionsVisible := false, revealPending := true)
  }

  /** Mounting on a question: the `useState` initial values, then the effect's first run. */
  function Mounted(q: Question): (r: QuizState)
    ensures Inv(r) && r.unlockPending == 0
    ensures r.question == q.prompt && r.options == q.options && r.correctAnswer == q.answer
  {
    Reset(QuizState(q.prompt, q.options, q.answer, None, false, NoAnimation, false, false, false, 0))
  }

  /** New props arrive; the effect runs only when the prompt text differs. */
  function PropsChanged(st: QuizState, q: Question): (r: QuizState)
    ensures Inv(st) ==> Inv(r)
    ensures r.question == q.prompt && r.options == q.options && r.correctAnswer == q.answer
    ensures q.prompt != st.question ==> !r.isAnswered && !r.isQuestionVisible && r.revealPending
    ensures q.prompt == st.question ==> r == st.(question := q.prompt, options := q.options, correctAnswer := q.answer)
    ensures r.unlockPending == st.unlockPending
  {
    var st' := st.(question := q.prompt, options := q.options, correctAnswer := q.answer);
    if q.prompt != st.question then Reset(st') else st'
  }

  /** What an accepted click calls on the parent, in call order: `onNext`, then on a right answer `setCoinCount(coinCount + 5)`. */
  function ClickCalls(isCorrect: bool, coinCount: int): (calls: seq<ParentCall>)
    ensures |calls| == if isCorrect then 2 else 1
    ensures calls[0] == OnNext(isCorrect)
    ensures forall k :: 1 <= k < |calls| ==> calls[k] == SetCoinCount(coinCount + Reward)
  {
    [OnNext(isCorrect)] + (if isCorrect then [SetCoinCount(coinCount + Reward)] else [])
  }

  /**
   * `handleOptionClick`, with `coinCount` the prop as last rendered. Returns the
   * new state and the parent calls made.
   */
  function Clicked(st: QuizState, option: string, coinCount: int): (r: (QuizState, seq<ParentCall>))
    ensures Inv(st) ==> Inv(r.0)
    ensures st.isAnswered ==> r == (st, [])
    ensures !st.isAnswered ==> r.0.isAnswered && r.0.selectedOption == Some(option) && r.1 != []
    ensures r.0.isQuestionVisible == st.isQuestionVisible && r.0.isOptionsVisible == st.isOptionsVisible
  {
    if st.isAnswered then (st, [])
    else
      var isCorrect := option == st.correctAnswer;
      (st.(selectedOption := Some(option), isAnswered := true,
           animationClass := if isCorrect then CorrectAnimation else IncorrectAnimation,
           unlockPending := st.unlockPending + 1),
       ClickCalls(isCorrect, coinCount))
  }

  /** The reveal timer fires (if it is still scheduled): prompt shown, options still hidden. */
  function RevealFired(st: QuizState): (r: QuizState)
    ensures Inv(st) ==> Inv(r)
    ensures st.revealPending ==> r.isQuestionVisible && !r.isOptionsVisible && !r.revealPending
    ensures st.revealPending ==> r == st.(isQuestionVisible := true, isOptionsVisible := false, revealPending := false)
    ensures !st.revealPending ==> r == st
    ensures r.isAnswered == st.isAnswered && r.selectedOption == st.selectedOption
    ensures r.animationClass == st.animationClass && r.unlockPending == st.unlockPending
  {
    if st.revealPending then st.(isQuestionVisible := true, isOptionsVisible := false, revealPending := false)
    else st
  }

  /** The prompt's entry animation completes; it only runs while the prompt is mounted. */
  function QuestionAnimationCompleted(st: QuizState): (r: QuizState)
    ensures Inv(st) ==> Inv(r)
    ensures r.isOptionsVisible ==> r.isQuestionVisible || st.isOptionsVisible
    ensures st.isQuestionVisible ==> r.isOptionsVisible
    ensures r == st.(isOptionsVisible := r.isOptionsVisible)
  {
    if st.isQuestionVisible then st.(isOptionsVisible := true) else st
  }

  /** One unlock timer fires (if any is scheduled): animation cleared and the lock lifted. */
  function UnlockFired(st: QuizState): (r: QuizState)
    ensures Inv(st) ==> Inv(r)
    ensures st.unlockPending > 0 ==> !r.isAnswered && r.animationClass == NoAnimation
    ensures r.selectedOption == st.selectedOption && r.question == st.question
    ensures r.isQuestionVisible == st.isQuestionVisible && r.isOptionsVisible == st.isOptionsVisible
    ensures st.unlockPending > 0 ==> r == st.(animationClass := NoAnimation, isAnswered := false, unlockPending := st.unlockPending - 1)
    ensures st.unlockPending == 0 ==> r == st
  {
    if st.unlockPending > 0 then st.(animationClass := NoAnimation, isAnswered := false, unlockPending := st.unlockPending - 1)
    else st
  }

  /** The background class of the button for `option`. */
  function OptionClass(st: QuizState, option: string): (c: string)
    ensures c == Neutral || c == Green || c == Red
    ensures c == Green <==> st.isAnswered && option == st.correctAnswer
    ensures c == Red <==> st.isAnswered && option != st.correctAnswer && st.selectedOption == Some(option)
  {
    if st.isAnswered then
      if option == st.correctAnswer then Green
      else if Some(option) == st.selectedOption then Red
      else Neutral
    else Neutral
  }

  /** Every button is disabled exactly while answered. */
  function Disabled(st: QuizState): (d: bool)
    ensures !d ==> forall option :: OptionClass(st, option) == Neutral
    ensures d ==> OptionClass(st, st.correctAnswer) == Green
  {
    st.isAnswered
  }

  /** The badge letter of the option at position `i`: `String.fromCharCode(65 + i)`. */
  function OptionLabel(i: nat): (c: char)
    requires i < 26
    ensures c == "ABCDEFGHIJKLMNOPQRSTUVWXYZ"[i]
  {
    (65 + i) as char
  }

  /** What holds of every reachable quiz state. */
  ghost predicate Inv(st: QuizState) {
    && (st.isOptionsVisible ==> st.isQuestionVisible)
    && (st.revealPending ==> !st.isQuestionVisible)
    && (st.animationClass == NoAnimation || st.animationClass == CorrectAnimation || st.animationClass == IncorrectAnimation)
    && (st.isAnswered <==> st.animationClass != NoAnimation)
    && (st.isAnswered ==> st.selectedOption.Some? && st.unlockPending > 0)
  }

  /** Events the component reacts to. A click can only reach a rendered button, so only while the options are shown. */
  datatype QuizEvent =
    | OptionClicked(option: string, coinCount: int)
    | RevealTimerFired
    | QuestionAnimationDone
    | UnlockTimerFired
    | QuestionChanged(q: Question)

  function QuizStep(st: QuizState, e: QuizEvent): (r: QuizState)
    ensures e.OptionClicked? && !st.isOptionsVisible ==> r == st
    ensures e.OptionClicked? && st.isOptionsVisible ==> r == Clicked(st, e.option, e.coinCount).0
    ensures Inv(st) ==> Inv(r)
  {
    match e
    case OptionClicked(o, c) => if st.isOptionsVisible then Clicked(st, o, c).0 else st
    case RevealTimerFired => RevealFired(st)
    case QuestionAnimationDone => QuestionAnimationCompleted(st)
    case UnlockTimerFired => UnlockFired(st)
    case QuestionChanged(q) => PropsChanged(st, q)
  }

  function QuizRun(st: QuizState, es: seq<QuizEvent>): QuizState
    decreases |es|
  {
    if es == [] then st else QuizRun(QuizStep(st, es[0]), es[1..])
  }

  /** A mounted component starts hidden, unanswered, with the reveal scheduled and no unlock pending. */
  lemma MountedState(q: Question)
    ensures Inv(Mounted(q))
    ensures Mounted(q).selectedOption == None && !Mounted(q).isAnswered && Mounted(q).animationClass == NoAnimation
    ensures !Mounted(q).isQuestionVisible && !Mounted(q).isOptionsVisible
    ensures Mounted(q).revealPending && Mounted(q).unlockPending == 0
  {
  }

  /** Every event keeps the invariant. */
  lemma StepKeepsInv(st: QuizState, e: QuizEvent)
    requires Inv(st)
    ensures Inv(QuizStep(st, e))
  {
  }

  /** Every run of events from a mounted component keeps the invariant; in particular options never show without the prompt. */
  lemma {:induction false} RunKeepsInv(st: QuizState, es: seq<QuizEvent>)
    requires Inv(st)
    ensures Inv(QuizRun(st, es))
    ensures QuizRun(st, es).isOptionsVisible ==> QuizRun(st, es).isQuestionVisible
    decreases |es|
  {
    if es != [] {
      StepKeepsInv(st, es[0]);
      RunKeepsInv(QuizStep(st, es[0]), es[1..]);
    }
  }

  /**
   * A mounted quiz can be answered through its own events: the reveal timer
   * shows the prompt, its animation completes and shows the options, and a
   * click on an option is then accepted.
   */
  lemma MountedQuizCanBeAnswered(q: Question, option: string, coinCount: int)
    ensures var st := QuizRun(Mounted(q), [RevealTimerFired, QuestionAnimationDone, OptionClicked(option, coinCount)]);
      st.isAnswered && st.selectedOption == Some(option) && st.isQuestionVisible && st.isOptionsVisible
  {
    var es := [RevealTimerFired, QuestionAnimationDone, OptionClicked(option, coinCount)];
    var s1 := RevealFired(Mounted(q));
    var s2 := QuestionAnimationCompleted(s1);
    assert QuizRun(Mounted(q), es) == QuizRun(s1, es[1..]);
    assert QuizRun(s1, es[1..]) == QuizRun(s2, es[2..]);
    assert QuizRun(s2, es[2..]) == QuizRun(Clicked(s2, option, coinCount).0, []);
  }

  /** The options appear only through the prompt's animation completing while the prompt is shown. */
  lemma OptionsOnlyAfterPrompt(st: QuizState, e: QuizEvent)
    requires !st.isOptionsVisible && QuizStep(st, e).isOptionsVisible
    ensures e == QuestionAnimationDone && st.isQuestionVisible
  {
  }

  /** The reveal timer shows the prompt and keeps the options hidden. */
  lemma RevealShowsPromptOnly(st: QuizState)
    requires st.revealPending
    ensures RevealFired(st).isQuestionVisible && !RevealFired(st).isOptionsVisible && !RevealFired(st).revealPending
  {
  }

  /** A click while answered changes nothing and calls nothing on the parent. */
  lemma ClickIgnoredWhenAnswered(st: QuizState, option: string, coinCount: int)
    requires st.isAnswered
    ensures Clicked(st, option, coinCount) == (st, [])
  {
  }

  /**
   * An accepted click records the option, locks, picks the animation by
   * correctness, schedules one unlock, calls `onNext` exactly once with the
   * correctness, and calls `setCoinCount(coinCount + 5)` exactly when right.
   */
  lemma ClickAccepted(st: QuizState, option: string, coinCount: int)
    requires !st.isAnswered
    ensures var (st', calls) := Clicked(st, option, coinCount);
      && st'.selectedOption == Some(option) && st'.isAnswered
      && (st'.animationClass == CorrectAnimation <==> option == st.correctAnswer)
      && (st'.animationClass == IncorrectAnimation <==> option != st.correctAnswer)
      && st'.unlockPending == st.unlockPending + 1
      && st' == st.(selectedOption := st'.selectedOption, isAnswered := true,
                    animationClass := st'.animationClass, unlockPending := st'.unlockPending)
      && |calls| >= 1 && calls[0] == OnNext(option == st.correctAnswer)
      && (forall k :: 1 <= k < |calls| ==> !calls[k].OnNext?)
      && (SetCoinCount(coinCount + Reward) in calls <==> option == st.correctAnswer)
      && (option == st.correctAnswer ==> calls == [OnNext(true), SetCoinCount(coinCount + Reward)])
      && (option != st.correctAnswer ==> calls == [OnNext(false)])
  {
  }

  /** A double click has the effect of one click: the second is ignored. */
  lemma DoubleClickIsSingleClick(st: QuizState, first: string, second: string, coinCount: int)
    ensures Clicked(Clicked(st, first, coinCount).0, second, coinCount) == (Clicked(st, first, coinCount).0, [])
  {
  }

  /**
   * A new prompt resets the answer and both visibility flags and replaces the
   * reveal timer by a fresh one; the unlock timers stay scheduled.
   */
  lemma QuestionChangeResets(st: QuizState, q: Question)
    requires q.prompt != st.question
    ensures var st' := PropsChanged(st, q);
      && st'.selectedOption == None && !st'.isAnswered && st'.animationClass == NoAnimation
      && !st'.isQuestionVisible && !st'.isOptionsVisible
      && st'.revealPending && st'.unlockPending == st.unlockPending
      && st'.question == q.prompt && st'.options == q.options && st'.correctAnswer == q.answer
  {
  }

  /** The unlock timer lifts the lock and clears the animation, whatever question is shown by then. */
  lemma UnlockLiftsLock(st: QuizState)
    requires st.unlockPending > 0
    ensures var st' := UnlockFired(st);
      !st'.isAnswered && st'.animationClass == NoAnimation && st'.unlockPending == st.unlockPending - 1
      && st'.selectedOption == st.selectedOption && st'.question == st.question
  {
  }

  /** The lock is not permanent: after the unlock a second answer to the same question is accepted. */
  lemma AnswerAgainAfterUnlock(st: QuizState, first: string, second: string, coinCount: int)
    requires !st.isAnswered
    ensures var st' := UnlockFired(Clicked(st, first, coinCount).0);
      !st'.isAnswered && Clicked(st', second, coinCount).1 != []
  {
  }

  /** Before an answer every option is neutral and enabled; after it, every one is disabled. */
  lemma StylingUnanswered(st: QuizState, option: string)
    ensures !st.isAnswered ==> OptionClass(st, option) == Neutral && !Disabled(st)
    ensures Disabled(st) <==> st.isAnswered
  {
  }

  /** After an answer the right option is green, a different selected option red, any other neutral. */
  lemma StylingAnswered(st: QuizState, option: string)
    requires st.isAnswered
    ensures option == st.correctAnswer ==> OptionClass(st, option) == Green
    ensures option != st.correctAnswer && st.selectedOption == Some(option) ==> OptionClass(st, option) == Red
    ensures option != st.correctAnswer && st.selectedOption != Some(option) ==> OptionClass(st, option) == Neutral
  {
  }

  /** With distinct options at most one button is red, and none when the selection was right. */
  lemma AtMostOneRed(st: QuizState, i: nat, j: nat)
    requires i < |st.options| && j < |st.options|
    requires forall a, b :: 0 <= a < b < |st.options| ==> st.options[a] != st.options[b]
    requires OptionClass(st, st.options[i]) == Red && OptionClass(st, st.options[j]) == Red
    ensures i == j
    ensures st.selectedOption != Some(st.correctAnswer)
  {
  }

  /** The four badges read A, B, C, D. */
  lemma FourLabels()
    ensures [OptionLabel(0), OptionLabel(1), OptionLabel(2), OptionLabel(3)] == "ABCD"
  {
  }

  /**
   * The object `Quiz` is. `Valid` is the invariant every reachable state keeps;
   * `HandleOptionClick` calls the parent's handlers directly, in the order the
   * source does.
   */
  class QuizComponent {
    var question: string
    var options: seq<string>
    var correctAnswer: string
    var selectedOption: Option<string>
    var isAnswered: bool
    var animationClass: string
    var isQuestionVisible: bool
    var isOptionsVisible: bool
    var revealPending: bool
    var unlockPending: nat

    function State(): QuizState
      reads this
    {
      QuizState(question, options, correctAnswer, selectedOption, isAnswered, animationClass,
                isQuestionVisible, isOptionsVisible, revealPending, unlockPending)
    }

    ghost predicate Valid()
      reads this
    {
      Inv(State())
    }

    constructor (q: Question)
      ensures Valid() && State() == Mounted(q)
    {
      question, options, correctAnswer := q.prompt, q.options, q.answer;
      unlockPending := 0;
      selectedOption, isAnswered, animationClass := None, false, NoAnimation;
      isQuestionVisible, isOptionsVisible := false, false;
      revealPending := true;
    }

    /** The `[question]` effect with its cleanup. */
    method ResetForQuestion()
      modifies this
      ensures State() == Reset(old(State()))
    {
      selectedOption := None;
      isAnswered := false;
      animationClass := NoAnimation;
      isQuestionVisible := false;
      isOptionsVisible := false;
      revealPending := true;
    }

    /** A re-render with `q` as props. */
    method ReceiveProps(q: Question)
      requires Valid()
      modifies this
      ensures Valid() && State() == PropsChanged(old(State()), q)
    {
      var changed := q.prompt != question;
      question, options, correctAnswer := q.prompt, q.options, q.answer;
      if changed {
        ResetForQuestion();
      }
      StepKeepsInv(old(State()), QuestionChanged(q));
    }

    method HandleOptionClick(option: string, parent: SessionController)
      requires Valid()
      modifies this, parent
      ensures Valid()
      ensures State() == Clicked(old(State()), option, old(parent.coinCount)).0
      ensures parent.State() == ApplyCalls(old(parent.State()), Clicked(old(State()), option, old(parent.coinCount)).1)
    {
      if isAnswered {
        return;
      }
      var coinCount := parent.coinCount;
      selectedOption := Some(option);
      isAnswered := true;
      var isCorrect := option == correctAnswer;
      animationClass := if isCorrect then CorrectAnimation else IncorrectAnimation;
      parent.HandleNextQuestion(isCorrect);
      ghost var afterNext := parent.State();
      if isCorrect {
        parent.SetCoinCount(coinCount + Reward);
      }
      unlockPending := unlockPending + 1;
      ghost var calls := ClickCalls(isCorrect, coinCount);
      assert afterNext == ApplyCall(old(parent.State()), calls[0]);
      assert ApplyCalls(old(parent.State()), calls) == ApplyCalls(afterNext, calls[1..]);
      if isCorrect {
        assert calls[1..][1..] == [];
        assert ApplyCalls(afterNext, calls[1..]) == ApplyCalls(ApplyCall(afterNext, calls[1]), []);
      } else {
        assert calls[1..] == [];
      }
    }

    method FireRevealTimer()
      requires Valid()
      modifies this
      ensures Valid() && State() == RevealFired(old(State()))
    {
      if revealPending {
        isQuestionVisible := true;
        isOptionsVisible := false;
        revealPending := false;
      }
    }

    method OnQuestionAnimationComplete()
      requires Valid()
      modifies this
      ensures Valid() && State() == QuestionAnimationCompleted(old(State()))
    {
      if isQuestionVisible {
        isOptionsVisible := true;
      }
    }

    method FireUnlockTimer()
      requires Valid()
      modifies this
      ensures Valid() && State() == UnlockFired(old(State()))
    {
      if unlockPending > 0 {
        animationClass := NoAnimation;
        isAnswered := false;
        unlockPending := unlockPending - 1;
      }
    }
  }
}
