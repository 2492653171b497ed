/**
 * The quiz navigator of App.tsx: a bounded counter over the question catalog with a
 * terminal "finished" flag and an answer map.
 *
 * handleSelectOption, handleNext and handleBack change the state through updater callbacks
 * `prev => next`; those callbacks are the pure functions Record, Next and Back below.
 * resetQuiz sets the state directly, to Initial(). QuizController holds the state in
 * fields and its handlers are proved to perform exactly those updates.
 */
module Navigator {
  import opened Wrappers
  import opened QuizTypes

  /** The state the component starts with and returns to on reset. */
  function Initial(): (s: QuizState)
    ensures s.currentQuestionIndex == 0 && s.answers == map[] && !s.isFinished
  {
    QuizState(0, map[], false)
  }

  /** Upsert of the chosen option for the question being shown. */
  function Record(s: QuizState, questionId: int, optionId: string): (r: QuizState)
    ensures Lookup(r.answers, questionId) == Some(optionId)
    ensures forall id :: id != questionId ==> Lookup(r.answers, id) == Lookup(s.answers, id)
    ensures r.currentQuestionIndex == s.currentQuestionIndex && r.isFinished == s.isFinished
  {
    s.(answers := s.answers[questionId := optionId])
  }

  /** The updater of handleNext for a catalog of `count` questions. */
  function Next(s: QuizState, count: nat): (r: QuizState)
    ensures r.answers == s.answers
    ensures s.currentQuestionIndex < count ==> r.currentQuestionIndex < count
    ensures r.isFinished <==> s.isFinished || s.currentQuestionIndex + 1 == count
    ensures r.currentQuestionIndex == s.currentQuestionIndex || r.currentQuestionIndex == s.currentQuestionIndex + 1
  {
    if s.currentQuestionIndex == count - 1 then s.(isFinished := true)
    else s.(currentQuestionIndex := s.currentQuestionIndex + 1)
  }

  /** The updater of handleBack. */
  function Back(s: QuizState): (r: QuizState)
    ensures r.answers == s.answers && r.isFinished == s.isFinished
    ensures r.currentQuestionIndex <= s.currentQuestionIndex
    ensures r.currentQuestionIndex + 1 >= s.currentQuestionIndex
    ensures r.currentQuestionIndex == s.currentQuestionIndex <==> s.currentQuestionIndex == 0
  {
    if s.currentQuestionIndex == 0 then s
    else s.(currentQuestionIndex := s.currentQuestionIndex - 1)
  }

  /** The progress bar value, (index + 1) / count * 100, as an exact real. */
  function Progress(index: nat, count: nat): (p: real)
    requires index < count
    ensures 0.0 < p <= 100.0
    ensures index == count - 1 ==> p == 100.0
  {
    var fraction := (index + 1) as real / count as real;
    assert fraction <= 1.0 by {
      assert (index + 1) as real <= count as real;
    }
    fraction * 100.0
  }

  // ---------------------------------------------------------------------------
  // Single transitions

  lemma AdvanceBeforeLast(s: QuizState, count: nat)
    requires s.currentQuestionIndex + 1 < count
    ensures Next(s, count).currentQuestionIndex == s.currentQuestionIndex + 1
    ensures Next(s, count).answers == s.answers
    ensures Next(s, count).isFinished == s.isFinished
  {
  }

  lemma AdvanceAtLast(s: QuizState, count: nat)
    requires count > 0 && s.currentQuestionIndex == count - 1
    ensures Next(s, count) == s.(isFinished := true)
    ensures Next(Next(s, count), count) == Next(s, count)
  {
  }

  lemma RetreatTransitions(s: QuizState)
    ensures s.currentQuestionIndex == 0 ==> Back(s) == s
    ensures s.currentQuestionIndex > 0 ==>
      Back(s) == s.(currentQuestionIndex := s.currentQuestionIndex - 1)
  {
  }

  /** Recording sets one key, keeps every other key, and a later record for the same
      question overwrites an earlier one. */
  lemma RecordLastWriteWins(s: QuizState, questionId: int, first: string, second: string)
    ensures Record(s, questionId, first).answers[questionId] == first
    ensures forall q :: q != questionId ==>
      Lookup(Record(s, questionId, first).answers, q) == Lookup(s.answers, q)
    ensures Record(Record(s, questionId, first), questionId, second) == Record(s, questionId, second)
    ensures Record(s, questionId, first).currentQuestionIndex == s.currentQuestionIndex
    ensures Record(s, questionId, first).isFinished == s.isFinished
  {
  }

  lemma ProgressExample()
    ensures Progress(4, 10) == 50.0
  {
  }

  // ---------------------------------------------------------------------------
  // Sequences of user actions

  /**
   * What the user (or a pending timer) can trigger. Select is the answer upsert of
   * handleSelectOption; the auto-advance that it schedules 400 ms later arrives as a
   * separate Advance.
   */
  datatype Action = Select(optionId: string) | Advance | Retreat | Restart

  /** One handler call against a catalog. Select uses the question at the current index. */
  function Step(s: QuizState, catalog: seq<Question>, a: Action): (r: QuizState)
    requires s.currentQuestionIndex < |catalog|
    ensures r.currentQuestionIndex < |catalog|
  {
    match a
    case Select(optionId) => Record(s, catalog[s.currentQuestionIndex].id, optionId)
    case Advance => Next(s, |catalog|)
    case Retreat => Back(s)
    case Restart => Initial()
  }

  /** The state after the actions, applied left to right. Every state on the way keeps its
      index inside the catalog, which is what the recursion needs to go on. */
  function Run(s: QuizState, catalog: seq<Question>, actions: seq<Action>): (r: QuizState)
    requires s.currentQuestionIndex < |catalog|
    ensures r.currentQuestionIndex < |catalog|
    decreases |actions|
  {
    if actions == [] then s else Run(Step(s, catalog, actions[0]), catalog, actions[1..])
  }

  lemma {:induction false} RunAppend(s: QuizState, catalog: seq<Question>, xs: seq<Action>, ys: seq<Action>)
    requires s.currentQuestionIndex < |catalog|
    ensures Run(s, catalog, xs + ys) == Run(Run(s, catalog, xs), catalog, ys)
    decreases |xs|
  {
    if xs == [] {
      assert xs + ys == ys;
    } else {
      assert (xs + ys)[1..] == xs[1..] + ys;
      RunAppend(Step(s, catalog, xs[0]), catalog, xs[1..], ys);
    }
  }

  /** Reset after any sequence of operations yields exactly the initial state. */
  lemma {:induction false} ResetAfterAnyRun(s: QuizState, catalog: seq<Question>, actions: seq<Action>)
    requires s.currentQuestionIndex < |catalog|
    ensures Run(s, catalog, actions + [Restart]) == Initial()
  {
    RunAppend(s, catalog, actions, [Restart]);
  }

  /** `k` advances in a row. */
  function Advances(k: nat): (r: seq<Action>)
    ensures |r| == k && forall i :: 0 <= i < k ==> r[i] == Advance
  {
    if k == 0 then [] else [Advance] + Advances(k - 1)
  }

  /** From an unfinished state at index i, k advances reach index min(i + k, count - 1) and
      have finished exactly when i + k reaches count. */
  lemma {:induction false} AdvancesFrom(s: QuizState, catalog: seq<Question>, k: nat)
    requires s.currentQuestionIndex < |catalog| && !s.isFinished
    ensures var r := Run(s, catalog, Advances(k));
      && r.answers == s.answers
      && (s.currentQuestionIndex + k < |catalog| ==>
            r.currentQuestionIndex == s.currentQuestionIndex + k && !r.isFinished)
      && (s.currentQuestionIndex + k >= |catalog| ==>
            r.currentQuestionIndex == |catalog| - 1 && r.isFinished)
    decreases k
  {
    if k > 0 {
      var t := Step(s, catalog, Advance);
      assert Advances(k)[1..] == Advances(k - 1);
      if s.currentQuestionIndex == |catalog| - 1 {
        AtLastAdvancesStay(t, catalog, k - 1);
      } else {
        AdvancesFrom(t, catalog, k - 1);
      }
    }
  }

  /** Once finished at the last index, further advances change nothing. */
  lemma {:induction false} AtLastAdvancesStay(s: QuizState, catalog: seq<Question>, k: nat)
    requires |catalog| > 0 && s.currentQuestionIndex == |catalog| - 1 && s.isFinished
    ensures Run(s, catalog, Advances(k)) == s
    decreases k
  {
    if k > 0 {
      assert Advances(k)[1..] == Advances(k - 1);
      AtLastAdvancesStay(Step(s, catalog, Advance), catalog, k - 1);
    }
  }

  /** From the start, n + 1 advances reach index n + 1 if it exists, otherwise finish. */
  lemma AdvanceCountFromInitial(catalog: seq<Question>, n: nat)
    requires n < |catalog|
    ensures n + 1 < |catalog| ==>
      Run(Initial(), catalog, Advances(n + 1)).currentQuestionIndex == n + 1
    ensures n + 1 == |catalog| ==> Run(Initial(), catalog, Advances(n + 1)).isFinished
  {
    AdvancesFrom(Initial(), catalog, n + 1);
  }

  /**
   * What the screen offers: the question card and its back button are only shown while
   * the quiz is not finished, so Select and Retreat come only then; a pending
   * auto-advance may fire at any time. Restart is allowed in every state, which is more
   * than the screen offers (its only button is in the thank-you view after a delivered
   * request); allowing more runs only makes the property proved over them stronger.
   */
  predicate Offered(s: QuizState, a: Action)
  {
    (a.Select? || a.Retreat?) ==> !s.isFinished
  }

  predicate OfferedRun(s: QuizState, catalog: seq<Question>, actions: seq<Action>)
    requires s.currentQuestionIndex < |catalog|
    decreases |actions|
  {
    actions == [] ||
    (Offered(s, actions[0]) && OfferedRun(Step(s, catalog, actions[0]), catalog, actions[1..]))
  }

  /** The quiz only finishes on the last question and stays there. */
  predicate FinishedAtLast(s: QuizState, count: nat)
  {
    s.isFinished ==> s.currentQuestionIndex == count - 1
  }

  /** Along any sequence of actions the screen offers, a finished quiz sits on the last
      question, so advancing a finished quiz (a late auto-advance) is a no-op. */
  lemma {:induction false} OfferedRunFinishesAtLast(s: QuizState, catalog: seq<Question>, actions: seq<Action>)
    requires s.currentQuestionIndex < |catalog| && FinishedAtLast(s, |catalog|)
    requires OfferedRun(s, catalog, actions)
    ensures FinishedAtLast(Run(s, catalog, actions), |catalog|)
    ensures var r := Run(s, catalog, actions);
      r.isFinished ==> Step(r, catalog, Advance) == r
    decreases |actions|
  {
    if actions != [] {
      OfferedRunFinishesAtLast(Step(s, catalog, actions[0]), catalog, actions[1..]);
    }
  }

  /**
   * The auto-advance of a selection is never cancelled: answering the same question twice
   * before the first timer fires leaves two advances pending, and the quiz moves on by two
   * questions.
   */
  lemma DoubleSelectAdvancesTwice(s: QuizState, catalog: seq<Question>, first: string, second: string)
    requires s.currentQuestionIndex + 2 < |catalog|
    ensures var r := Run(s, catalog, [Select(first), Select(second), Advance, Advance]);
      r.currentQuestionIndex == s.currentQuestionIndex + 2 &&
      r.answers == s.answers[catalog[s.currentQuestionIndex].id := second]
  {
    var q := catalog[s.currentQuestionIndex].id;
    var s1 := Step(s, catalog, Select(first));
    var s2 := Step(s1, catalog, Select(second));
    var s3 := Step(s2, catalog, Advance);
    var s4 := Step(s3, catalog, Advance);
    assert s2.answers == s.answers[q := second];
    var acts := [Select(first), Select(second), Advance, Advance];
    assert acts[1..] == [Select(second), Advance, Advance];
    assert acts[1..][1..] == [Advance, Advance];
    assert acts[1..][1..][1..] == [Advance];
    assert Run(s3, catalog, [Advance]) == Run(s4, catalog, []) == s4;
    assert Run(s2, catalog, [Advance, Advance]) == s4;
    assert Run(s1, catalog, [Select(second), Advance, Advance]) == s4;
    assert Run(s, catalog, acts) == s4;
  }

  /**
   * The same two answers on the second-to-last question: the first timer advance brings up
   * the last question, unfinished, and it stays on screen only until the second pending
   * advance fires; the quiz then finishes without waiting for an answer to it.
   */
  lemma DoubleSelectOnPenultimateFinishes(s: QuizState, catalog: seq<Question>, first: string, second: string)
    requires s.currentQuestionIndex + 2 == |catalog|
    ensures var m := Run(s, catalog, [Select(first), Select(second), Advance]);
      m.currentQuestionIndex == |catalog| - 1 && m.isFinished == s.isFinished
    ensures var r := Run(s, catalog, [Select(first), Select(second), Advance, Advance]);
      && r.isFinished
      && r.currentQuestionIndex == |catalog| - 1
      && r.answers == s.answers[catalog[s.currentQuestionIndex].id := second]
  {
    var q := catalog[s.currentQuestionIndex].id;
    var s1 := Step(s, catalog, Select(first));
    var s2 := Step(s1, catalog, Select(second));
    var s3 := Step(s2, catalog, Advance);
    var s4 := Step(s3, catalog, Advance);
    assert s2.answers == s.answers[q := second];
    assert s3.currentQuestionIndex == |catalog| - 1;
    assert s4 == s3.(isFinished := true);
    assert Run(s, catalog, [Select(first), Select(second), Advance]) == s3 by {
      var three := [Select(first), Select(second), Advance];
      assert three[1..] == [Select(second), Advance];
      assert three[1..][1..] == [Advance];
      assert Run(s2, catalog, [Advance]) == Run(s3, catalog, []) == s3;
      assert Run(s1, catalog, [Select(second), Advance]) == s3;
    }
    var acts := [Select(first), Select(second), Advance, Advance];
    assert acts[1..] == [Select(second), Advance, Advance];
    assert acts[1..][1..] == [Advance, Advance];
    assert acts[1..][1..][1..] == [Advance];
    assert Run(s3, catalog, [Advance]) == Run(s4, catalog, []) == s4;
    assert Run(s2, catalog, [Advance, Advance]) == s4;
    assert Run(s1, catalog, [Select(second), Advance, Advance]) == s4;
    assert Run(s, catalog, acts) == s4;
  }

  // ---------------------------------------------------------------------------
  // The component

  /** The App component's quiz state, held in fields and changed by its handlers. */
  class QuizController {
    const catalog: seq<Question>
    var currentQuestionIndex: nat
    var answers: Answers
    var isFinished: bool

    ghost predicate Valid()
      reads this
    {
      currentQuestionIndex < |catalog|
    }

    function State(): QuizState
      reads this
    {
      QuizState(currentQuestionIndex, answers, isFinished)
    }

    constructor (questions: seq<Question>)
      requires |questions| > 0
      ensures Valid() && catalog == questions && State() == Initial()
    {
      catalog := questions;
      currentQuestionIndex := 0;
      answers := map[];
      isFinished := false;
    }

    /** `QUESTIONS[quizState.currentQuestionIndex]` */
    function CurrentQuestion(): (q: Question)
      reads this
      requires Valid()
      ensures q in catalog
    {
      catalog[currentQuestionIndex]
    }

    function ProgressPercent(): (p: real)
      reads this
      requires Valid()
      ensures 0.0 < p <= 100.0
    {
      Progress(currentQuestionIndex, |catalog|)
    }

    /** The option the question card marks, `answers[currentQuestion.id]`. */
    function SelectedOptionId(): (r: Option<string>)
      reads this
      requires Valid()
      ensures r.Some? <==> CurrentQuestion().id in answers
      ensures r.Some? ==> r.value == answers[CurrentQuestion().id]
    {
      Lookup(answers, CurrentQuestion().id)
    }

    /** The answer upsert of handleSelectOption; the auto-advance it schedules is a later
        HandleNext call. */
    method HandleSelectOption(optionId: string)
      requires Valid()
      modifies this
      ensures Valid()
      ensures State() == Record(old(State()), old(CurrentQuestion()).id, optionId)
      ensures answers[old(CurrentQuestion()).id] == optionId
      ensures forall q :: q != old(CurrentQuestion()).id ==> Lookup(answers, q) == Lookup(old(answers), q)
    {
      var id := catalog[currentQuestionIndex].id;
      answers := answers[id := optionId];
    }

    method HandleNext()
      requires Valid()
      modifies this
      ensures Valid()
      ensures State() == Next(old(State()), |catalog|)
      ensures answers == old(answers)
      ensures old(currentQuestionIndex) == |catalog| - 1 ==>
        isFinished && currentQuestionIndex == old(currentQuestionIndex)
      ensures old(currentQuestionIndex) < |catalog| - 1 ==>
        currentQuestionIndex == old(currentQuestionIndex) + 1 && isFinished == old(isFinished)
    {
      var isLast := currentQuestionIndex == |catalog| - 1;
      if isLast {
        isFinished := true;
      } else {
        currentQuestionIndex := currentQuestionIndex + 1;
      }
    }

    method HandleBack()
      requires Valid()
      modifies this
      ensures Valid()
      ensures State() == Back(old(State()))
      ensures answers == old(answers) && isFinished == old(isFinished)
      ensures old(currentQuestionIndex) == 0 ==> currentQuestionIndex == 0
      ensures old(currentQuestionIndex) > 0 ==> currentQuestionIndex == old(currentQuestionIndex) - 1
    {
      if currentQuestionIndex == 0 {
        return;
      }
      currentQuestionIndex := currentQuestionIndex - 1;
    }

    method ResetQuiz()
      requires Valid()
      modifies this
      ensures Valid()
      ensures State() == Initial()
    {
      currentQuestionIndex := 0;
      answers := map[];
      isFinished := false;
    }
  }
}
