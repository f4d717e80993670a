/**
 * The start-screen controller (`Start1`): it owns the screen flag, the index
 * of the current question and the coin count, and chooses which screen to show.
 *
 * React does not apply a state setter at once: the calls made during one event
 * handler are queued and applied, in call order, when the handler returns. The
 * coin count is the one field written by two components in one event, so its
 * setter calls go through an explicit queue (`coinQueue`) that `Committed`
 * applies. The one-second timer that advances the question is a counter of
 * scheduled advances (`pendingAdvances`); nothing ever cancels it.
 */
module Session {
  import opened QuestionTable

  /** Coin count a fresh or restarted session starts from. */
  const InitialCoins: int := 50
  /** Coins awarded for a right answer. */
  const Reward: int := 5

  /** One queued call of the coin-count setter: the functional form `prev => prev + delta`, or an absolute value. */
  datatype CoinUpdate = AddCoins(delta: int) | SetCoins(value: int)

  function ApplyUpdate(coins: int, u: CoinUpdate): int {
    match u
    case AddCoins(d) => coins + d
    case SetCoins(v) => v
  }

  /**
   * The coin count after the queued setter calls are applied in call order.
   * An absolute set overrides everything queued before it.
   */
  function ApplyUpdates(coins: int, queue: seq<CoinUpdate>): (r: int)
    ensures queue != [] && queue[|queue| - 1].SetCoins? ==> r == queue[|queue| - 1].value
    decreases |queue|
  {
    if queue == [] then coins else ApplyUpdates(ApplyUpdate(coins, queue[0]), queue[1..])
  }

  /** The fields of `Start1` (`moveMario` and `showQuiz` are written but never read for logic). */
  datatype SessionState = SessionState(
    showForm: bool,
    currentQuestionIndex: nat,
    showQuiz: bool,
    coinCount: int,
    moveMario: bool,
    pendingAdvances: nat,
    coinQueue: seq<CoinUpdate>)

  /** The `useState` initial values; no timer scheduled, no setter call queued. */
  function Initial(): (r: SessionState)
    ensures SelectScreen(r) == StartScreen
    ensures r.currentQuestionIndex == 0 && r.coinCount == InitialCoins
    ensures r.pendingAdvances == 0 && r.coinQueue == []
  {
    SessionState(false, 0, false, InitialCoins, false, 0, [])
  }

  /** `handleStart`: leaves the index and the coins alone. */
  function Started(st: SessionState): (r: SessionState)
    ensures !SelectScreen(r).StartScreen?
    ensures r.currentQuestionIndex == st.currentQuestionIndex && r.coinCount == st.coinCount
    ensures r.pendingAdvances == st.pendingAdvances && r.coinQueue == st.coinQueue
  {
    st.(showForm := true, showQuiz := true, moveMario := true)
  }

  /** `handleNextQuestion`: queues a functional +5 on a right answer and schedules one advance. */
  function NextQuestionHandled(st: SessionState, isCorrect: bool): (r: SessionState)
    ensures ApplyUpdates(st.coinCount, r.coinQueue)
         == ApplyUpdates(st.coinCount, st.coinQueue) + (if isCorrect then Reward else 0)
    ensures r.pendingAdvances == st.pendingAdvances + 1
    ensures r.currentQuestionIndex == st.currentQuestionIndex && r.showForm == st.showForm
  {
    ApplyUpdatesSnoc(st.coinCount, st.coinQueue, AddCoins(Reward));
    assert st.coinQueue + [] == st.coinQueue;
    st.(coinQueue := st.coinQueue + (if isCorrect then [AddCoins(Reward)] else []),
        pendingAdvances := st.pendingAdvances + 1)
  }

  /** The bare `setCoinCount` passed down to the quiz: queues an absolute value. */
  function CoinCountSet(st: SessionState, newCount: int): (r: SessionState)
    ensures ApplyUpdates(st.coinCount, r.coinQueue) == newCount
    ensures r.pendingAdvances == st.pendingAdvances && r.currentQuestionIndex == st.currentQuestionIndex
  {
    st.(coinQueue := st.coinQueue + [SetCoins(newCount)])
  }

  /** `handleRestart`: coins back to 50, index back to 0; `showForm` and the scheduled advances are kept. */
  function Restarted(st: SessionState): (r: SessionState)
    ensures ApplyUpdates(st.coinCount, r.coinQueue) == InitialCoins
    ensures r.currentQuestionIndex == 0 && r.showQuiz
    ensures r.showForm == st.showForm && r.pendingAdvances == st.pendingAdvances
  {
    st.(coinQueue := st.coinQueue + [SetCoins(InitialCoins)], currentQuestionIndex := 0, showQuiz := true)
  }

  /** `handleHome`: back to the start screen; index and coins are kept. */
  function WentHome(st: SessionState): (r: SessionState)
    ensures SelectScreen(r) == StartScreen
    ensures r.currentQuestionIndex == st.currentQuestionIndex && r.coinCount == st.coinCount
    ensures r.pendingAdvances == st.pendingAdvances && r.coinQueue == st.coinQueue
  {
    st.(showForm := false, showQuiz := false)
  }

  /** One scheduled advance fires: `prevIndex => prevIndex + 1`. */
  function AdvanceFired(st: SessionState): (r: SessionState)
    requires st.pendingAdvances > 0
    ensures r.currentQuestionIndex == st.currentQuestionIndex + 1
    ensures r.currentQuestionIndex + r.pendingAdvances == st.currentQuestionIndex + st.pendingAdvances
    ensures r.coinCount == st.coinCount && r.showForm == st.showForm && r.coinQueue == st.coinQueue
  {
    st.(currentQuestionIndex := st.currentQuestionIndex + 1, pendingAdvances := st.pendingAdvances - 1)
  }

  /** React applies the queued coin setters when the handler returns. */
  function Committed(st: SessionState): (r: SessionState)
    ensures r.coinQueue == []
    ensures st.coinQueue == [] ==> r == st
    ensures st.coinQueue != [] && st.coinQueue[|st.coinQueue| - 1].SetCoins? ==> r.coinCount == st.coinQueue[|st.coinQueue| - 1].value
    ensures r.currentQuestionIndex == st.currentQuestionIndex && r.pendingAdvances == st.pendingAdvances && r.showForm == st.showForm
  {
    st.(coinCount := ApplyUpdates(st.coinCount, st.coinQueue), coinQueue := [])
  }

  /** What the quiz component may call on its parent: `onNext` and the raw `setCoinCount`. */
  datatype ParentCall = OnNext(isCorrect: bool) | SetCoinCount(newCount: int)

  function ApplyCall(st: SessionState, c: ParentCall): SessionState {
    match c
    case OnNext(b) => NextQuestionHandled(st, b)
    case SetCoinCount(v) => CoinCountSet(st, v)
  }

  /** The parent's state after the calls are made in order (setters still queued). */
  function ApplyCalls(st: SessionState, calls: seq<ParentCall>): SessionState
    decreases |calls|
  {
    if calls == [] then st else ApplyCalls(ApplyCall(st, calls[0]), calls[1..])
  }

  /** Calls from the quiz never touch the screen flags, the index or the committed coin count; they only queue. */
  lemma {:induction false} CallsKeepProgress(st: SessionState, calls: seq<ParentCall>)
    ensures var st' := ApplyCalls(st, calls);
      && st'.showForm == st.showForm && st'.currentQuestionIndex == st.currentQuestionIndex
      && st'.coinCount == st.coinCount && st'.showQuiz == st.showQuiz && st'.moveMario == st.moveMario
    decreases |calls|
  {
    if calls != [] {
      CallsKeepProgress(ApplyCall(st, calls[0]), calls[1..]);
    }
  }

  /** What `Start1` renders. */
  datatype Screen = StartScreen | QuizScreen(question: Question) | FinalScoreScreen(coins: int)

  /** The screen conditional; the quiz is only shown when the index is in bounds. */
  function SelectScreen(st: SessionState): (r: Screen)
    ensures r.QuizScreen? ==> st.currentQuestionIndex < |Questions()| && r.question == Questions()[st.currentQuestionIndex]
    ensures r.FinalScoreScreen? ==> st.showForm && r.coins == st.coinCount
  {
    if !st.showForm then StartScreen
    else if st.currentQuestionIndex < |Questions()| then QuizScreen(Questions()[st.currentQuestionIndex])
    else FinalScoreScreen(st.coinCount)
  }

  /** The three screens split the states exactly by `showForm` and the index. */
  lemma ScreenCases(st: SessionState)
    ensures SelectScreen(st).StartScreen? <==> !st.showForm
    ensures SelectScreen(st).QuizScreen? <==> st.showForm && st.currentQuestionIndex < |Questions()|
    ensures SelectScreen(st).QuizScreen? ==> SelectScreen(st).question == Questions()[st.currentQuestionIndex]
    ensures SelectScreen(st) == FinalScoreScreen(st.coinCount) <==> st.showForm && st.currentQuestionIndex >= |Questions()|
  {
  }

  /** The quiz is only ever shown an entry of the table, and that entry is well formed. */
  lemma ShownQuestionWellFormed(st: SessionState)
    requires SelectScreen(st).QuizScreen?
    ensures SelectScreen(st).question in Questions() && WellFormed(SelectScreen(st).question)
  {
    QuestionsWellFormed();
  }

  /** React's queue: applying a queue extended by one call is applying that call to the result. */
  lemma {:induction false} ApplyUpdatesSnoc(coins: int, queue: seq<CoinUpdate>, u: CoinUpdate)
    ensures ApplyUpdates(coins, queue + [u]) == ApplyUpdate(ApplyUpdates(coins, queue), u)
    decreases |queue|
  {
    if queue != [] {
      assert (queue + [u])[1..] == queue[1..] + [u];
      ApplyUpdatesSnoc(ApplyUpdate(coins, queue[0]), queue[1..], u);
    }
  }

  /** Queued functional increments alone add up: the count moves by their sum. */
  lemma {:induction false} IncrementsAccumulate(coins: int, queue: seq<CoinUpdate>)
    requires forall k :: 0 <= k < |queue| ==> queue[k].AddCoins?
    ensures ApplyUpdates(coins, queue) == coins + Deltas(queue)
    decreases |queue|
  {
    if queue != [] {
      IncrementsAccumulate(coins + queue[0].delta, queue[1..]);
    }
  }

  function Deltas(queue: seq<CoinUpdate>): int
    requires forall k :: 0 <= k < |queue| ==> queue[k].AddCoins?
    decreases |queue|
  {
    if queue == [] then 0 else queue[0].delta + Deltas(queue[1..])
  }

  /** `handleStart` after commit: screen flags on, index, coins and scheduled advances untouched. */
  lemma StartKeepsProgress(st: SessionState)
    requires st.coinQueue == []
    ensures Committed(Started(st)) == st.(showForm := true, showQuiz := true, moveMario := true)
  {
  }

  /** `handleHome` after commit: start screen, index, coins and scheduled advances untouched. */
  lemma HomeKeepsProgress(st: SessionState)
    requires st.coinQueue == []
    ensures Committed(WentHome(st)) == st.(showForm := false, showQuiz := false)
  {
  }

  /** `handleRestart` after commit: 50 coins and index 0 whatever came before; `showForm` and scheduled advances are kept. */
  lemma RestartResets(st: SessionState)
    ensures Committed(Restarted(st)) == st.(coinCount := InitialCoins, currentQuestionIndex := 0, showQuiz := true, coinQueue := [])
  {
  }

  /** `handleNextQuestion` after commit: exactly +5 iff right, one more advance scheduled, index unchanged until it fires. */
  lemma NextQuestionAwards(st: SessionState, isCorrect: bool)
    requires st.coinQueue == []
    ensures Committed(NextQuestionHandled(st, isCorrect))
         == st.(coinCount := st.coinCount + (if isCorrect then Reward else 0), pendingAdvances := st.pendingAdvances + 1)
  {
    var q := NextQuestionHandled(st, isCorrect).coinQueue;
    IncrementsAccumulate(st.coinCount, q);
    if isCorrect {
      assert q == [AddCoins(Reward)];
    } else {
      assert q == [];
    }
  }

  /**
   * The object `Start1` is: its fields and the handlers React calls. Each
   * handler only queues its coin setters; `CommitUpdates` is React applying
   * them once the handler has returned.
   */
  class SessionController {
    var showForm: bool
    var currentQuestionIndex: nat
    var showQuiz: bool
    var coinCount: int
    var moveMario: bool
    var pendingAdvances: nat
    var coinQueue: seq<CoinUpdate>

    function State(): SessionState
      reads this
    {
      SessionState(showForm, currentQuestionIndex, showQuiz, coinCount, moveMario, pendingAdvances, coinQueue)
    }

    constructor ()
      ensures State() == Initial()
    {
      showForm, currentQuestionIndex, showQuiz, coinCount, moveMario := false, 0, false, InitialCoins, false;
      pendingAdvances, coinQueue := 0, [];
    }

    method HandleStart()
      modifies this
      ensures State() == Started(old(State()))
    {
      showForm := true;
      showQuiz := true;
      moveMario := true;
    }

    method HandleNextQuestion(isCorrect: bool)
      modifies this
      ensures State() == NextQuestionHandled(old(State()), isCorrect)
    {
      if isCorrect {
        coinQueue := coinQueue + [AddCoins(Reward)];
      }
      pendingAdvances := pendingAdvances + 1;
    }

    method SetCoinCount(newCount: int)
      modifies this
      ensures State() == CoinCountSet(old(State()), newCount)
    {
      coinQueue := coinQueue + [SetCoins(newCount)];
    }

    method HandleRestart()
      modifies this
      ensures State() == Restarted(old(State()))
    {
      coinQueue := coinQueue + [SetCoins(InitialCoins)];
      currentQuestionIndex := 0;
      showQuiz := true;
    }

    method HandleHome()
      modifies this
      ensures State() == WentHome(old(State()))
    {
      showForm := false;
      showQuiz := false;
    }

    /** The one-second timer scheduled by `HandleNextQuestion` fires. */
    method FireAdvanceTimer()
      requires pendingAdvances > 0
      modifies this
      ensures State() == AdvanceFired(old(State()))
    {
      currentQuestionIndex := currentQuestionIndex + 1;
      pendingAdvances := pendingAdvances - 1;
    }

    method CommitUpdates()
      modifies this
      ensures State() == Committed(old(State()))
    {
      coinCount := ApplyUpdates(coinCount, coinQueue);
      coinQueue := [];
    }
  }
}
