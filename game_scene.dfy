/** The quiz of src/app/planets/gamescene.tsx: a question list with a
    fallback, a 30-second countdown, a reward for a right answer, penalties
    floored at zero, and the two delayed callbacks (the 800 ms reveal after an
    answer and the 500 ms advance to the next question).

    The React state lives in the fields of `GameScene`; each handler is a
    method whose new state is the matching transition function of `Quiz`.
    A delayed callback that has been scheduled but has not run yet is counted
    in `pendingReveals` or `pendingAdvances`; the one-second interval exists
    exactly while the game is active, loaded and timed, so a tick outside
    those conditions changes nothing. */
module GameScene {
  import opened Wrappers
  import opened Arithmetic

  datatype Question = Question(question: string, options: seq<string>, correctAnswer: string)

  /** The single question shown when the bundled list is missing or empty. */
  const FallbackQuestions: seq<Question> := [Question("What is 5 + 7?", ["10", "11", "12", "13"], "12")]

  const RoundTime: int := 30
  const StartMoney: int := 100
  const AnswerReward: int := 50
  const WrongPenalty: int := 20
  const TimeoutPenalty: int := 10

  datatype Popup = Popup(show: bool, amount: int)

  /** The quiz state: the `useState` slots of the component (with
      `settings.timerEnabled`), plus the callbacks still pending. */
  datatype Quiz = Quiz(
    questions: seq<Question>,
    index: int,
    timeLeft: int,
    score: int,
    money: int,
    gameActive: bool,
    loading: bool,
    selectedAnswer: Option<string>,
    rewardPopup: Popup,
    timerEnabled: bool,
    pendingReveals: nat,
    pendingAdvances: nat)

  /** The state of the first render. */
  const Start: Quiz := Quiz(FallbackQuestions, 0, RoundTime, 0, StartMoney, true, true, None,
                            Popup(false, 0), true, 0, 0)

  // ---------------------------------------------------------------------------
  // The arithmetic of the handlers

  /** `answerReward + timeBonus`, with `Math.floor(timeLeft * 2)` exact on an integer count. */
  function Reward(timerEnabled: bool, timeLeft: int): (total: int)
    ensures !timerEnabled ==> total == AnswerReward
    ensures timerEnabled ==> total - AnswerReward == 2 * timeLeft
    ensures 0 <= timeLeft ==> AnswerReward <= total
  {
    AnswerReward + (if timerEnabled then 2 * timeLeft else 0)
  }

  /** `Math.max(0, money - amount)`: a penalty takes what is there, and no more. */
  function Deduct(money: int, amount: nat): (r: int)
    ensures r >= 0
    ensures money >= amount ==> r == money - amount
    ensures money < amount ==> r == 0
    ensures money >= 0 ==> r <= money
  {
    if money - amount < 0 then 0 else money - amount
  }

  /** `(prev + 1) % questions.length`. */
  function NextIndex(i: int, n: int): (r: int)
    requires n > 0
    ensures 0 <= r < n
    ensures 0 <= i < n - 1 ==> r == i + 1
    ensures i == n - 1 ==> r == 0
  {
    (i + 1) % n
  }

  /** The `setTimeLeft` updater of one tick: the new time and whether it timed out. */
  function Countdown(prev: int): (r: (int, bool))
    ensures r.1 <==> prev <= 1
    ensures r.1 ==> r.0 == 0
    ensures !r.1 ==> r.0 == prev - 1 && r.0 >= 1
  {
    if prev <= 1 then (0, true) else (prev - 1, false)
  }

  /** The question list after the load effect: the bundled list when it is a
      non-empty array, otherwise the list already there. */
  function LoadedQuestions(current: seq<Question>, loaded: Option<seq<Question>>): (r: seq<Question>)
    ensures loaded.Some? && |loaded.value| > 0 ==> r == loaded.value
    ensures !(loaded.Some? && |loaded.value| > 0) ==> r == current
    ensures |current| > 0 ==> |r| > 0
  {
    match loaded
    case Some(qs) => if |qs| > 0 then qs else current
    case None => current
  }

  // ---------------------------------------------------------------------------
  // The handlers as transitions

  /** What every handler keeps: a valid question index, non-negative time,
      score and money, and exactly one pending callback while a round is
      closed (none while it is open), so each round is settled once. */
  predicate Valid(q: Quiz) {
    && |q.questions| > 0
    && 0 <= q.index < |q.questions|
    && q.timeLeft >= 0 && q.score >= 0 && q.money >= 0
    && q.pendingReveals + q.pendingAdvances == (if q.gameActive then 0 else 1)
    && (q.selectedAnswer.Some? ==> !q.gameActive)
    && (q.rewardPopup.show ==> q.pendingReveals == 1 && q.rewardPopup.amount >= AnswerReward)
    && (!q.rewardPopup.show ==> q.rewardPopup.amount == 0)
    && (q.loading ==> q.gameActive && q.index == 0)
  }

  /** Whether the one-second interval is running. */
  predicate TimerRunning(q: Quiz) {
    q.gameActive && !q.loading && q.timerEnabled
  }

  /** The load effect, run once while `loading`. */
  function Loaded(q: Quiz, loaded: Option<seq<Question>>): (r: Quiz)
    requires q.loading
    ensures !r.loading
    ensures r.questions == LoadedQuestions(q.questions, loaded)
    ensures r == q.(questions := r.questions, loading := false)
  {
    q.(questions := LoadedQuestions(q.questions, loaded), loading := false)
  }

  /** `nextQuestion`: schedule the 500 ms advance. */
  function NextQuestionScheduled(q: Quiz): (r: Quiz)
    ensures r.pendingAdvances == q.pendingAdvances + 1
    ensures r == q.(pendingAdvances := r.pendingAdvances)
  {
    q.(pendingAdvances := q.pendingAdvances + 1)
  }

  /** `handleAnswer`: ignored while the round is closed or loading; otherwise
      record the choice, close the round, pay the reward for a right answer
      (into both score and money, shown in the popup) or take the wrong-answer
      penalty from money alone, and schedule the 800 ms reveal. */
  function Answered(q: Quiz, option: string): (r: Quiz)
    requires Valid(q)
    ensures !q.gameActive || q.loading ==> r == q
    ensures q.gameActive && !q.loading ==>
      var correct := option == q.questions[q.index].correctAnswer;
      var total := Reward(q.timerEnabled, q.timeLeft);
      && !r.gameActive && r.selectedAnswer == Some(option)
      && r.pendingReveals == q.pendingReveals + 1
      && (correct ==> r.score == q.score + total && r.money == q.money + total && r.rewardPopup == Popup(true, total))
      && (!correct ==> r.score == q.score && r.money == Deduct(q.money, WrongPenalty) && r.rewardPopup == q.rewardPopup)
      && r.questions == q.questions && r.index == q.index && r.timeLeft == q.timeLeft
      && r.loading == q.loading && r.timerEnabled == q.timerEnabled && r.pendingAdvances == q.pendingAdvances
  {
    if !q.gameActive || q.loading then q
    else
      var q1 := q.(selectedAnswer := Some(option));
      var q2 :=
        if option == q.questions[q.index].correctAnswer then
          var total := Reward(q.timerEnabled, q.timeLeft);
          q1.(score := q1.score + total, money := q1.money + total, rewardPopup := Popup(true, total))
        else
          q1.(money := Deduct(q1.money, WrongPenalty));
      q2.(gameActive := false, pendingReveals := q2.pendingReveals + 1)
  }

  /** `handleTimeOut`: close the round, take the timeout penalty, move on. */
  function TimedOut(q: Quiz): (r: Quiz)
    ensures !r.gameActive && r.money == Deduct(q.money, TimeoutPenalty)
    ensures r == NextQuestionScheduled(q.(gameActive := false, money := r.money))
  {
    NextQuestionScheduled(q.(gameActive := false, money := Deduct(q.money, TimeoutPenalty)))
  }

  /** One firing of the interval: count down, or at one second or less
      show zero and time out. */
  function Ticked(q: Quiz): (r: Quiz)
    ensures !TimerRunning(q) ==> r == q
    ensures TimerRunning(q) && q.timeLeft > 1 ==> r == q.(timeLeft := q.timeLeft - 1)
    ensures TimerRunning(q) && q.timeLeft <= 1 ==> r == TimedOut(q.(timeLeft := 0))
  {
    if !TimerRunning(q) then q
    else
      var (next, timedOut) := Countdown(q.timeLeft);
      if timedOut then TimedOut(q.(timeLeft := next)) else q.(timeLeft := next)
  }

  /** The 800 ms callback after an answer: hide the popup and move on. */
  function Revealed(q: Quiz): (r: Quiz)
    requires q.pendingReveals > 0
    ensures r.rewardPopup == Popup(false, 0) && r.pendingReveals == q.pendingReveals - 1
    ensures r == NextQuestionScheduled(q.(rewardPopup := Popup(false, 0), pendingReveals := r.pendingReveals))
  {
    NextQuestionScheduled(q.(rewardPopup := Popup(false, 0), pendingReveals := q.pendingReveals - 1))
  }

  /** The 500 ms callback of `nextQuestion`: the next question in turn, a
      fresh 30 seconds only when the timer is on, and an open round with no
      answer selected. */
  function Advanced(q: Quiz): (r: Quiz)
    requires |q.questions| > 0 && q.pendingAdvances > 0
    ensures r.index == NextIndex(q.index, |q.questions|)
    ensures r.timeLeft == if q.timerEnabled then RoundTime else q.timeLeft
    ensures r.gameActive && r.selectedAnswer == None && r.pendingAdvances == q.pendingAdvances - 1
    ensures r == q.(index := r.index, timeLeft := r.timeLeft, gameActive := true,
                    selectedAnswer := None, pendingAdvances := r.pendingAdvances)
  {
    q.(index := NextIndex(q.index, |q.questions|),
       timeLeft := if q.timerEnabled then RoundTime else q.timeLeft,
       gameActive := true, selectedAnswer := None,
       pendingAdvances := q.pendingAdvances - 1)
  }

  /** Saving the settings with the timer switched on or off. */
  function WithTimer(q: Quiz, enabled: bool): (r: Quiz)
    ensures r.timerEnabled == enabled && r == q.(timerEnabled := enabled)
  {
    q.(timerEnabled := enabled)
  }

  // ---------------------------------------------------------------------------
  // What the handlers keep

  lemma StartValid()
    ensures Valid(Start) && Start.money == StartMoney && Start.timeLeft == RoundTime
  {
  }

  lemma LoadedValid(q: Quiz, loaded: Option<seq<Question>>)
    requires Valid(q) && q.loading
    ensures Valid(Loaded(q, loaded))
  {
  }

  lemma AnsweredValid(q: Quiz, option: string)
    requires Valid(q)
    ensures Valid(Answered(q, option))
  {
  }

  lemma TickedValid(q: Quiz)
    requires Valid(q)
    ensures Valid(Ticked(q))
  {
  }

  lemma RevealedValid(q: Quiz)
    requires Valid(q) && q.pendingReveals > 0
    ensures Valid(Revealed(q))
  {
  }

  lemma AdvancedValid(q: Quiz)
    requires Valid(q) && q.pendingAdvances > 0
    ensures Valid(Advanced(q))
  {
  }

  /** An open round takes one answer: once answered, further clicks and ticks
      change nothing until the round is reopened. */
  lemma AnswerSettlesRound(q: Quiz, first: string, second: string)
    requires Valid(q) && q.gameActive && !q.loading
    ensures Answered(Answered(q, first), second) == Answered(q, first)
    ensures Ticked(Answered(q, first)) == Answered(q, first)
  {
    AnsweredValid(q, first);
  }

  /** A right answer is worth at least the base reward, in score and money alike,
      and a wrong one never touches the score. */
  lemma AnswerPayout(q: Quiz, option: string)
    requires Valid(q) && q.gameActive && !q.loading
    ensures var r := Answered(q, option);
      && (option == q.questions[q.index].correctAnswer ==>
            r.score - q.score == r.money - q.money >= AnswerReward)
      && (option != q.questions[q.index].correctAnswer ==>
            r.score == q.score && 0 <= r.money <= q.money && q.money - r.money <= WrongPenalty)
  {
  }

  /** `n` firings of the interval. */
  function TickN(q: Quiz, n: nat): Quiz {
    if n == 0 then q else Ticked(TickN(q, n - 1))
  }

  /** Counting down from `t` seconds times out on exactly the `t`-th tick:
      every earlier tick leaves the round open with `t - k` seconds left. */
  lemma {:induction false} CountdownTimesOut(q: Quiz, k: nat)
    requires TimerRunning(q) && q.timeLeft >= 1 && k < q.timeLeft
    ensures TickN(q, k) == q.(timeLeft := q.timeLeft - k)
    ensures TickN(q, k + 1) ==
      if k + 1 < q.timeLeft then q.(timeLeft := q.timeLeft - k - 1) else TimedOut(q.(timeLeft := 0))
  {
    if k > 0 {
      CountdownTimesOut(q, k - 1);
    }
  }

  /** The index after `k` advances from `i`. */
  function IndexAfter(i: int, n: int, k: nat): int
    requires n > 0
  {
    if k == 0 then i else NextIndex(IndexAfter(i, n, k - 1), n)
  }

  /** Starting from the first question, the `k`-th advance shows question
      `k mod n`: every question comes round, in order, and the quiz wraps. */
  lemma {:induction false} AdvanceCycles(n: int, k: nat)
    requires n > 0
    ensures IndexAfter(0, n, k) == k % n
  {
    if k > 0 {
      AdvanceCycles(n, k - 1);
      if (k - 1) % n == n - 1 {
        assert k % n == 0 by { ModWrap(k, n); }
      } else {
        assert k % n == (k - 1) % n + 1 by { ModStep(k, n); }
      }
    }
  }

  lemma ModWrap(k: nat, n: int)
    requires n > 0 && k > 0 && (k - 1) % n == n - 1
    ensures k % n == 0
  {
    var q := (k - 1) / n;
    assert k - 1 == q * n + n - 1;
    assert k == (q + 1) * n;
    MultipleMod(q + 1, n);
  }

  lemma ModStep(k: nat, n: int)
    requires n > 0 && k > 0 && (k - 1) % n < n - 1
    ensures k % n == (k - 1) % n + 1
  {
    var q, r := (k - 1) / n, (k - 1) % n;
    assert k == q * n + (r + 1) && 0 <= r + 1 < n;
    DivModUnique(k, n, q, r + 1);
  }

  lemma MultipleMod(m: int, n: int)
    requires n > 0
    ensures (m * n) % n == 0
  {
    DivModUnique(m * n, n, m, 0);
  }

  /** Euclidean division has one quotient and remainder. */
  lemma DivModUnique(a: int, n: int, q: int, r: int)
    requires n > 0 && a == q * n + r && 0 <= r < n
    ensures a % n == r
  {
    var q0, r0 := a / n, a % n;
    assert a == q0 * n + r0;
    if q0 < q {
      MulLe(q0 + 1, q, n);
    } else if q < q0 {
      MulLe(q + 1, q0, n);
    }
  }

  // ---------------------------------------------------------------------------
  // Whole sessions

  /** What can happen to the component, in the order it happens. A callback
      that is not pending, or a second load, does not fire. */
  datatype Event = Load(loaded: Option<seq<Question>>) | Answer(option: string) | Tick
                 | Reveal | Advance | SetTimer(enabled: bool)

  function Apply(q: Quiz, e: Event): (r: Quiz)
    requires Valid(q)
    ensures Valid(r)
  {
    match e
    case Load(loaded) => if q.loading then LoadedValid(q, loaded); Loaded(q, loaded) else q
    case Answer(option) => AnsweredValid(q, option); Answered(q, option)
    case Tick => TickedValid(q); Ticked(q)
    case Reveal => if q.pendingReveals > 0 then RevealedValid(q); Revealed(q) else q
    case Advance => if q.pendingAdvances > 0 then AdvancedValid(q); Advanced(q) else q
    case SetTimer(enabled) => WithTimer(q, enabled)
  }

  function Run(q: Quiz, es: seq<Event>): Quiz
    requires Valid(q)
    decreases |es|
  {
    if es == [] then q else Run(Apply(q, es[0]), es[1..])
  }

  /** Along any session the invariant holds and the score never goes down. */
  lemma {:induction false} RunKeepsInvariant(q: Quiz, es: seq<Event>)
    requires Valid(q)
    ensures Valid(Run(q, es)) && Run(q, es).score >= q.score
    decreases |es|
  {
    if es != [] {
      var q1 := Apply(q, es[0]);
      assert q1.score >= q.score;
      RunKeepsInvariant(q1, es[1..]);
    }
  }

  /** From the first render, whatever happens, money and score are never
      negative, the time left is never negative, and the shown question exists. */
  lemma SessionBounds(es: seq<Event>)
    ensures var r := Run(Start, es);
      r.money >= 0 && r.score >= 0 && r.timeLeft >= 0 && 0 <= r.index < |r.questions|
  {
    RunKeepsInvariant(Start, es);
  }

  // ---------------------------------------------------------------------------
  // The component

  class GameScene {
    var questions: seq<Question>
    var currentQuestionIndex: int
    var timeLeft: int
    var score: int
    var money: int
    var gameActive: bool
    var loading: bool
    var selectedAnswer: Option<string>
    var rewardPopup: Popup
    var timerEnabled: bool
    var pendingReveals: nat
    var pendingAdvances: nat

    function State(): Quiz
      reads this
    {
      Quiz(questions, currentQuestionIndex, timeLeft, score, money, gameActive, loading,
           selectedAnswer, rewardPopup, timerEnabled, pendingReveals, pendingAdvances)
    }

    constructor ()
      ensures State() == Start
    {
      questions, currentQuestionIndex, timeLeft := FallbackQuestions, 0, RoundTime;
      score, money, gameActive, loading := 0, StartMoney, true, true;
      selectedAnswer, rewardPopup, timerEnabled := None, Popup(false, 0), true;
      pendingReveals, pendingAdvances := 0, 0;
    }

    /** The load effect: take the bundled list when it is a non-empty array,
        and stop loading whatever happened. */
    method LoadQuestions(loaded: Option<seq<Question>>)
      requires loading
      modifies this
      ensures State() == Loaded(old(State()), loaded)
    {
      match loaded {
        case Some(qs) =>
          if |qs| > 0 {
            questions := qs;
          }
        case None =>
      }
      loading := false;
    }

    method HandleAnswer(option: string)
      requires Valid(State())
      modifies this
      ensures State() == Answered(old(State()), option)
    {
      if !gameActive || loading {
        return;
      }
      selectedAnswer := Some(option);
      var currentQuestion := questions[currentQuestionIndex];
      if option == currentQuestion.correctAnswer {
        var total := Reward(timerEnabled, timeLeft);
        score := score + total;
        money := money + total;
        rewardPopup := Popup(true, total);
      } else {
        money := Deduct(money, WrongPenalty);
      }
      gameActive := false;
      pendingReveals := pendingReveals + 1;
    }

    method NextQuestion()
      modifies this
      ensures State() == NextQuestionScheduled(old(State()))
    {
      pendingAdvances := pendingAdvances + 1;
    }

    method HandleTimeOut()
      modifies this
      ensures State() == TimedOut(old(State()))
    {
      gameActive := false;
      money := Deduct(money, TimeoutPenalty);
      NextQuestion();
    }

    /** One firing of the interval, when it is running. */
    method Tick()
      modifies this
      ensures State() == Ticked(old(State()))
    {
      if !(gameActive && !loading && timerEnabled) {
        return;
      }
      var prev := timeLeft;
      if prev <= 1 {
        HandleTimeOut();
        timeLeft := 0;
      } else {
        timeLeft := prev - 1;
      }
    }

    method RevealElapsed()
      requires pendingReveals > 0
      modifies this
      ensures State() == Revealed(old(State()))
    {
      rewardPopup := Popup(false, 0);
      pendingReveals := pendingReveals - 1;
      NextQuestion();
    }

    method AdvanceElapsed()
      requires |questions| > 0 && pendingAdvances > 0
      modifies this
      ensures State() == Advanced(old(State()))
    {
      currentQuestionIndex := (currentQuestionIndex + 1) % |questions|;
      if timerEnabled {
        timeLeft := RoundTime;
      }
      gameActive := true;
      selectedAnswer := None;
      pendingAdvances := pendingAdvances - 1;
    }

    method SetTimerEnabled(enabled: bool)
      modifies this
      ensures State() == WithTimer(old(State()), enabled)
    {
      timerEnabled := enabled;
    }
  }
}
