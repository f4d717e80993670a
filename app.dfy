/**
 * The two components together. A click on an option runs the quiz's handler,
 * which calls into the controller, and then React applies the queued setters;
 * `ClickOption` is that whole event. `Step` and `Run` give the controller's
 * side of a session as a sequence of user and timer events, with the quiz
 * reduced to "an answer was accepted, right or wrong".
 */
module App {
  import opened Wrappers
  import opened QuestionTable
  import opened Session
  import opened QuizMachine

  /**
   * An accepted answer, once its setters are applied: +5 coins exactly when
   * right (the parent's queued `prev + 5` is overridden by the quiz's
   * `setCoinCount(coinCount + 5)`, so it is not +10), one more advance
   * scheduled, nothing else changed.
   */
  lemma AnswerAwardsOnce(st: SessionState, isCorrect: bool)
    requires st.coinQueue == []
    ensures Committed(ApplyCalls(st, ClickCalls(isCorrect, st.coinCount)))
         == st.(coinCount := st.coinCount + (if isCorrect then Reward else 0), pendingAdvances := st.pendingAdvances + 1)
  {
    var calls := ClickCalls(isCorrect, st.coinCount);
    var afterNext := NextQuestionHandled(st, isCorrect);
    assert ApplyCalls(st, calls) == ApplyCalls(afterNext, calls[1..]);
    if isCorrect {
      assert calls[1..][1..] == [];
      assert ApplyCalls(afterNext, calls[1..]) == ApplyCalls(CoinCountSet(afterNext, st.coinCount + Reward), []);
    } else {
      assert calls[1..] == [];
      NextQuestionAwards(st, false);
    }
  }

  /** A click on an option, from the quiz's handler to React applying the queued coin setters. */
  method ClickOption(quiz: QuizComponent, session: SessionController, option: string)
    requires quiz.Valid() && session.coinQueue == []
    modifies quiz, session
    ensures quiz.Valid()
    ensures quiz.State() == Clicked(old(quiz.State()), option, old(session.coinCount)).0
    ensures var accepted := !old(quiz.isAnswered);
      session.State() == old(session.State()).(
        coinCount := old(session.coinCount) + (if accepted && option == old(quiz.correctAnswer) then Reward else 0),
        pendingAdvances := old(session.pendingAdvances) + (if accepted then 1 else 0))
  {
    ghost var st0 := session.State();
    ghost var q0 := quiz.State();
    quiz.HandleOptionClick(option, session);
    session.CommitUpdates();
    if !q0.isAnswered {
      AnswerAwardsOnce(st0, option == q0.correctAnswer);
    }
  }

  /**
   * When an advance moves from one question to the next, the quiz receives a
   * different prompt, so its `[question]` effect runs: the answer is cleared
   * and a new reveal is scheduled.
   */
  lemma AdvanceResetsQuiz(st: SessionState, qs: QuizState)
    requires st.pendingAdvances > 0
    requires SelectScreen(st).QuizScreen? && qs.question == SelectScreen(st).question.prompt
    requires SelectScreen(Step(st, AdvanceTimerFired)).QuizScreen?
    ensures var next := SelectScreen(Step(st, AdvanceTimerFired)).question;
      PropsChanged(qs, next) == Reset(qs.(question := next.prompt, options := next.options, correctAnswer := next.answer))
  {
    PromptsDistinct();
    var i := st.currentQuestionIndex;
    assert SelectScreen(Step(st, AdvanceTimerFired)).question == Questions()[i + 1];
  }

  /**
   * The question the controller shows has distinct options, so the quiz
   * showing it colours at most one button red.
   */
  lemma ShownQuizAtMostOneRed(st: SessionState, qs: QuizState, i: nat, j: nat)
    requires SelectScreen(st).QuizScreen? && qs.options == SelectScreen(st).question.options
    requires i < |qs.options| && j < |qs.options|
    requires OptionClass(qs, qs.options[i]) == Red && OptionClass(qs, qs.options[j]) == Red
    ensures i == j && qs.selectedOption != Some(qs.correctAnswer)
  {
    ShownQuestionWellFormed(st);
    AtMostOneRed(qs, i, j);
  }

  /** User clicks and timer firings the controller sees. */
  datatype Event =
    | StartClicked
    | HomeClicked
    | RestartClicked
    | OptionAnswered(isCorrect: bool)
    | AdvanceTimerFired

  /**
   * An event can happen only where its control is rendered: Start on the start
   * screen, Restart and Home on the final-score screen, an answer on the quiz
   * screen; an advance only when one is scheduled.
   */
  predicate Enabled(st: SessionState, e: Event)
    ensures Enabled(st, e) && e == StartClicked ==> !st.showForm
    ensures Enabled(st, e) && e.OptionAnswered? ==> st.showForm && st.currentQuestionIndex < |Questions()|
    ensures Enabled(st, e) && (e == RestartClicked || e == HomeClicked) ==> st.showForm && st.currentQuestionIndex >= |Questions()|
  {
    match e
    case StartClicked => SelectScreen(st).StartScreen?
    case HomeClicked => SelectScreen(st).FinalScoreScreen?
    case RestartClicked => SelectScreen(st).FinalScoreScreen?
    case OptionAnswered(_) => SelectScreen(st).QuizScreen?
    case AdvanceTimerFired => st.pendingAdvances > 0
  }

  /** One event with its setters applied; an event that cannot happen changes nothing. */
  function Step(st: SessionState, e: Event): (r: SessionState)
    ensures !Enabled(st, e) ==> r == st
    ensures st.coinQueue == [] ==> r.coinQueue == []
    ensures r.showForm != st.showForm ==> e == StartClicked || e == HomeClicked
  {
    if !Enabled(st, e) then st
    else
      match e
      case StartClicked => Committed(Started(st))
      case HomeClicked => Committed(WentHome(st))
      case RestartClicked => Committed(Restarted(st))
      case OptionAnswered(b) =>
        CallsKeepProgress(st, ClickCalls(b, st.coinCount));
        Committed(ApplyCalls(st, ClickCalls(b, st.coinCount)))
      case AdvanceTimerFired => Committed(AdvanceFired(st))
  }

  function Run(st: SessionState, es: seq<Event>): SessionState
    decreases |es|
  {
    if es == [] then st else Run(Step(st, es[0]), es[1..])
  }

  /** Accepted answers along a run. */
  function Answers(st: SessionState, es: seq<Event>): nat
    decreases |es|
  {
    if es == [] then 0
    else (if es[0].OptionAnswered? && Enabled(st, es[0]) then 1 else 0) + Answers(Step(st, es[0]), es[1..])
  }

  /** Accepted right answers along a run. */
  function RightAnswers(st: SessionState, es: seq<Event>): nat
    decreases |es|
  {
    if es == [] then 0
    else (if es[0] == OptionAnswered(true) && Enabled(st, es[0]) then 1 else 0) + RightAnswers(Step(st, es[0]), es[1..])
  }

  predicate NoRestart(es: seq<Event>) {
    forall k :: 0 <= k < |es| ==> es[k] != RestartClicked
  }

  /** Every event leaves no setter call queued. */
  lemma StepCommits(st: SessionState, e: Event)
    requires st.coinQueue == []
    ensures Step(st, e).coinQueue == []
  {
  }

  /** The index changes only by one advance (+1) or by a restart (to 0); nothing else moves it. */
  lemma StepIndexChange(st: SessionState, e: Event)
    ensures var i := Step(st, e).currentQuestionIndex;
      || i == st.currentQuestionIndex
      || (e == AdvanceTimerFired && i == st.currentQuestionIndex + 1)
      || (e == RestartClicked && i == 0)
  {
    if e.OptionAnswered? {
      CallsKeepProgress(st, ClickCalls(e.isCorrect, st.coinCount));
    }
  }

  /** One event's effect on the coins: +5 for an accepted right answer, 50 after a restart, unchanged otherwise. */
  lemma StepCoins(st: SessionState, e: Event)
    requires st.coinQueue == []
    ensures Step(st, e).coinCount ==
      if !Enabled(st, e) then st.coinCount
      else if e == RestartClicked then InitialCoins
      else if e == OptionAnswered(true) then st.coinCount + Reward
      else st.coinCount
  {
    if Enabled(st, e) && e.OptionAnswered? {
      AnswerAwardsOnce(st, e.isCorrect);
    }
  }

  /** Between restarts the coin count is the starting count plus 5 per accepted right answer. */
  lemma {:induction false} ScoreCountsRightAnswers(st: SessionState, es: seq<Event>)
    requires st.coinQueue == [] && NoRestart(es)
    ensures Run(st, es).coinCount == st.coinCount + Reward * RightAnswers(st, es)
    decreases |es|
  {
    if es != [] {
      StepCoins(st, es[0]);
      StepCommits(st, es[0]);
      assert NoRestart(es[1..]) by {
        forall k | 0 <= k < |es[1..]| ensures es[1..][k] != RestartClicked {
          assert es[1..][k] == es[k + 1];
        }
      }
      ScoreCountsRightAnswers(Step(st, es[0]), es[1..]);
    }
  }

  /**
   * Between restarts every accepted answer eventually moves the index by
   * exactly one: index plus scheduled advances grows by the number of
   * accepted answers, and the index never decreases.
   */
  lemma {:induction false} ProgressAccounting(st: SessionState, es: seq<Event>)
    requires st.coinQueue == [] && NoRestart(es)
    ensures Run(st, es).currentQuestionIndex + Run(st, es).pendingAdvances
         == st.currentQuestionIndex + st.pendingAdvances + Answers(st, es)
    ensures Run(st, es).currentQuestionIndex >= st.currentQuestionIndex
    decreases |es|
  {
    if es != [] {
      var e := es[0];
      if Enabled(st, e) && e.OptionAnswered? {
        AnswerAwardsOnce(st, e.isCorrect);
      }
      StepCommits(st, e);
      assert NoRestart(es[1..]) by {
        forall k | 0 <= k < |es[1..]| ensures es[1..][k] != RestartClicked {
          assert es[1..][k] == es[k + 1];
        }
      }
      ProgressAccounting(Step(st, e), es[1..]);
    }
  }

  /** Start from the first load shows the first question with 50 coins. */
  lemma StartFromInitial()
    ensures Step(Initial(), StartClicked).coinCount == InitialCoins
    ensures SelectScreen(Step(Initial(), StartClicked)) == QuizScreen(Questions()[0])
  {
  }

  /** Restart on the final-score screen shows the first question again with 50 coins, whatever the score was. */
  lemma RestartFromResults(st: SessionState)
    requires SelectScreen(st).FinalScoreScreen?
    ensures Step(st, RestartClicked).coinCount == InitialCoins
    ensures Step(st, RestartClicked).currentQuestionIndex == 0
    ensures SelectScreen(Step(st, RestartClicked)) == QuizScreen(Questions()[0])
    ensures Step(st, RestartClicked).pendingAdvances == st.pendingAdvances
  {
  }

  /**
   * Home then Start on the final-score screen keeps the index and the coins,
   * so it lands on the final-score screen again with the same score.
   */
  lemma HomeThenStartKeepsResults(st: SessionState)
    requires SelectScreen(st).FinalScoreScreen? && st.coinQueue == []
    ensures Run(st, [HomeClicked, StartClicked]).currentQuestionIndex == st.currentQuestionIndex
    ensures Run(st, [HomeClicked, StartClicked]).coinCount == st.coinCount
    ensures SelectScreen(Run(st, [HomeClicked, StartClicked])) == FinalScoreScreen(st.coinCount)
  {
    var h := Step(st, HomeClicked);
    assert SelectScreen(h) == StartScreen;
    assert Run(st, [HomeClicked, StartClicked]) == Run(h, [StartClicked]);
    assert Run(h, [StartClicked]) == Step(h, StartClicked);
  }

  /** Running two event sequences one after the other is running their concatenation. */
  lemma {:induction false} RunAppend(st: SessionState, a: seq<Event>, b: seq<Event>)
    ensures Run(st, a + b) == Run(Run(st, a), b)
    decreases |a|
  {
    if a == [] {
      assert a + b == b;
    } else {
      assert (a + b)[0] == a[0] && (a + b)[1..] == a[1..] + b;
      RunAppend(Step(st, a[0]), a[1..], b);
    }
  }

  /** On the quiz screen with nothing scheduled, an answer and its advance move to the next question, +5 if right. */
  lemma AnswerThenAdvance(st: SessionState, isCorrect: bool)
    requires SelectScreen(st).QuizScreen? && st.coinQueue == [] && st.pendingAdvances == 0
    ensures Run(st, [OptionAnswered(isCorrect), AdvanceTimerFired])
         == st.(coinCount := st.coinCount + (if isCorrect then Reward else 0),
                currentQuestionIndex := st.currentQuestionIndex + 1)
  {
    AnswerAwardsOnce(st, isCorrect);
    var s1 := Step(st, OptionAnswered(isCorrect));
    assert Enabled(st, OptionAnswered(isCorrect));
    assert s1 == st.(coinCount := st.coinCount + (if isCorrect then Reward else 0), pendingAdvances := 1);
    assert Step(s1, AdvanceTimerFired) == Committed(AdvanceFired(s1));
    assert Run(st, [OptionAnswered(isCorrect), AdvanceTimerFired]) == Run(s1, [AdvanceTimerFired]);
    assert Run(s1, [AdvanceTimerFired]) == Step(s1, AdvanceTimerFired);
  }

  /** The events of answering in turn, each answer followed by its advance. */
  function Play(answers: seq<bool>): seq<Event>
    decreases |answers|
  {
    if answers == [] then [] else [OptionAnswered(answers[0]), AdvanceTimerFired] + Play(answers[1..])
  }

  function CountRight(answers: seq<bool>): nat
    decreases |answers|
  {
    if answers == [] then 0 else (if answers[0] then 1 else 0) + CountRight(answers[1..])
  }

  /** Answering the remaining questions one by one adds 5 per right answer and one to the index per answer. */
  lemma {:induction false} PlayOn(st: SessionState, answers: seq<bool>)
    requires st.showForm && st.coinQueue == [] && st.pendingAdvances == 0
    requires st.currentQuestionIndex + |answers| <= |Questions()|
    ensures Run(st, Play(answers))
         == st.(coinCount := st.coinCount + Reward * CountRight(answers),
                currentQuestionIndex := st.currentQuestionIndex + |answers|)
    decreases |answers|
  {
    if answers != [] {
      AnswerThenAdvance(st, answers[0]);
      var r := [OptionAnswered(answers[0]), AdvanceTimerFired];
      RunAppend(st, r, Play(answers[1..]));
      PlayOn(Run(st, r), answers[1..]);
    }
  }

  /**
   * A whole game: Start, then an answer and its advance for each of the five
   * questions, ends on the final-score screen with 50 + 5 per right answer.
   */
  lemma {:induction false} WholeGame(answers: seq<bool>)
    requires |answers| == |Questions()|
    ensures SelectScreen(Run(Initial(), [StartClicked] + Play(answers)))
         == FinalScoreScreen(InitialCoins + Reward * CountRight(answers))
  {
    var s1 := Step(Initial(), StartClicked);
    assert Run(Initial(), [StartClicked]) == s1;
    RunAppend(Initial(), [StartClicked], Play(answers));
    PlayOn(s1, answers);
  }

  /** Right, wrong, right, wrong, right ends on the final-score screen with 65 coins. */
  lemma ThreeRightTwoWrong()
    ensures SelectScreen(Run(Initial(), [StartClicked] + Play([true, false, true, false, true])))
         == FinalScoreScreen(65)
  {
    var answers := [true, false, true, false, true];
    WholeGame(answers);
    assert CountRight(answers) == 3;
  }
}
