/**
 * The quiz engine of script.js, lifted out of its DOM code.
 *
 * The module-level variables of the script (lines 12-20) are the fields of one `QuizApp` object,
 * and every event the page reacts to is a method call:
 *
 *   - a click on a category header (lines 26-28, then `startQuiz`)   StartQuiz
 *   - a click on choice k (`handleChoiceClick`)                      Select
 *   - a click on the submit button (`submitAnswer`)                  Submit
 *   - one firing of the one-second interval (`updateTimer`)           Tick
 *   - the end of a one-second feedback delay (lines 98, 163-166)     Advance
 *
 * Browser scheduling is explicit state: `timerActive` says whether the interval is registered, and
 * `pending` counts the delayed calls of `startNextQuestion` that are scheduled and have not run.
 * The parts of the screen that decide which events can happen are state too: the number of choice
 * elements on screen and whether the submit button is visible.
 *
 * Each method is specified by a function (or, where the shuffle makes it nondeterministic, a
 * relation) on `AppState`, the value of all those variables; the properties of the engine are
 * proved about these functions.
 */
module Quiz {
  import opened Wrappers
  import opened Questions
  import opened Shuffle
  import opened Scores

  /** The seconds a question is given (line 75). */
  const TimeLimit: int := 15

  /** The category selected when the page loads (line 13). */
  const FirstCategory: string := "css"

  /** The variables of script.js, with the browser state that decides which events can happen. */
  datatype AppState = AppState(
    bank: map<string, seq<Question>>,   // questionData
    category: string,                   // currentCategory
    index: nat,                         // currentQuestionIndex: questions of the category shown so far
    current: Option<Question>,          // currentQuestion
    score: nat,                         // score
    bestScores: map<string, nat>,       // bestScores
    selected: Option<nat>,              // selectedChoiceIndex, never reset once set
    timeLeft: int,                      // timeLeft, in seconds
    timerActive: bool,                  // the interval of line 78 is registered
    pending: nat,                       // delayed calls of startNextQuestion not yet run
    choicesShown: nat,                  // choice elements in choicesContainer, each listening
    submitShown: bool,                  // the submit button is displayed
    answered: bool,                     // no question awaits an answer (read only by SubmittedOnce)
    highScores: seq<int>                // the list under 'highScores' in local storage
  )

  /** What holds between any two events. */
  ghost predicate Invariant(s: AppState)
  {
    (s.category in s.bank ==> s.index <= |s.bank[s.category]|) &&
    (s.category !in s.bank ==> s.index == 0) &&
    0 <= s.timeLeft <= TimeLimit &&
    (s.submitShown ==> s.selected.Some? && s.current.Some?) &&
    s.choicesShown <= (if s.current.Some? then |s.current.value.options| else 0)
  }

  /**
   * Each question shown adds at most one to the score, and only once it has been answered. The
   * script as written does not keep this (see `ResubmitScoresTwice`); the corrected submission
   * `SubmittedOnce` does.
   */
  ghost predicate ScoreBounded(s: AppState)
  {
    s.score + (if s.answered then 0 else 1) <= s.index
  }

  /** The number of questions in the current category (0 when it has none). */
  function Total(s: AppState): nat
  {
    if s.category in s.bank then |s.bank[s.category]| else 0
  }

  /** The page once `initializeQuiz` has loaded `questionData` and storage holds `stored`. */
  function Initial(questionData: map<string, seq<Question>>, stored: seq<int>): (s: AppState)
    ensures Invariant(s) && ScoreBounded(s)
    ensures s.index == 0 && s.score == 0 && s.bank == questionData && s.highScores == stored
    ensures !s.timerActive && s.pending == 0 && s.choicesShown == 0 && !s.submitShown
    ensures s.category == FirstCategory && s.current == None && s.selected == None
    ensures s.bestScores == map[] && s.timeLeft == TimeLimit
  {
    AppState(questionData, FirstCategory, 0, None, 0, map[], None, TimeLimit, false, 0, 0, false,
             true, stored)
  }

  /** The test of line 144: the selected position is the first position of the answer. */
  predicate IsCorrect(s: AppState)
    requires s.selected.Some? && s.current.Some?
    ensures IsCorrect(s) <==>
      var options, k := s.current.value.options, s.selected.value;
      k < |options| && options[k] == s.current.value.answer && s.current.value.answer !in options[..k]
  {
    s.selected.value == IndexOf(s.current.value.options, s.current.value.answer)
  }

  /**
   * `updateTimer` (lines 82-91) with `handleTimeout` (lines 94-99): while seconds are left one is
   * taken off; at 0 the interval is cleared and the next question scheduled, without scoring.
   */
  function Timed(s: AppState): (t: AppState)
    requires Invariant(s)
    ensures Invariant(t) && (ScoreBounded(s) ==> ScoreBounded(t))
    ensures t.score == s.score && t.index == s.index && t.current == s.current
    ensures s.timeLeft > 0 ==>
      t.timeLeft == s.timeLeft - 1 && t.timerActive == s.timerActive && t.pending == s.pending
    ensures s.timeLeft == 0 ==> t.timeLeft == 0 && !t.timerActive && t.pending == s.pending + 1
  {
    if s.timeLeft > 0 then s.(timeLeft := s.timeLeft - 1)
    else s.(timerActive := false, pending := s.pending + 1, answered := true)
  }

  /** `startTimer` (lines 74-79): the clock is set to 15 and shown at once, which counts one. */
  function TimerStarted(s: AppState): (t: AppState)
    requires Invariant(s)
    ensures Invariant(t) && (ScoreBounded(s) ==> ScoreBounded(t))
    ensures t.timeLeft == TimeLimit - 1 && t.timerActive && t.pending == s.pending
    ensures t == s.(timeLeft := TimeLimit - 1, timerActive := true)
  {
    Timed(s.(timeLeft := TimeLimit)).(timerActive := true)
  }

  /**
   * `handleChoiceClick` (lines 103-115): a click on choice `k` selects it and shows the submit
   * button. With no choice element at `k`, line 110 throws and nothing changes.
   */
  function Selected(s: AppState, k: nat): (t: AppState)
    requires Invariant(s)
    ensures Invariant(t) && (ScoreBounded(s) ==> ScoreBounded(t))
    ensures k >= s.choicesShown ==> t == s
    ensures k < s.choicesShown ==>
      t.selected == Some(k) && t.submitShown && t.score == s.score && t.index == s.index &&
      t.current == s.current && t.pending == s.pending
  {
    if k < s.choicesShown then s.(selected := Some(k), submitShown := true) else s
  }

  /**
   * `submitAnswer` (lines 140-159) as written: a click on the visible submit button adds one to
   * the score exactly when the selected position is that of the answer, hides the button and
   * schedules the next question. The test of line 141 always passes here: the button is shown only
   * once a choice has been clicked.
   */
  function Submitted(s: AppState): (t: AppState)
    requires Invariant(s) && s.submitShown
    ensures Invariant(t)
    ensures t.score == s.score + (if IsCorrect(s) then 1 else 0)
    ensures t.index == s.index && t.current == s.current && t.selected == s.selected
    ensures !t.submitShown && t.pending == s.pending + 1
    ensures t.timerActive == s.timerActive && t.timeLeft == s.timeLeft && t.answered == s.answered
    ensures t.choicesShown == s.choicesShown && t.bank == s.bank
  {
    s.(score := if IsCorrect(s) then s.score + 1 else s.score,
       submitShown := false, pending := s.pending + 1)
  }

  /**
   * `submitAnswer` corrected so that a question is scored at most once: a click that comes after
   * the question was answered or timed out (the choices and the button stay clickable during the
   * feedback delay) changes nothing.
   */
  function SubmittedOnce(s: AppState): (t: AppState)
    requires Invariant(s) && s.submitShown
    ensures Invariant(t) && (ScoreBounded(s) ==> ScoreBounded(t))
    ensures s.answered ==> t == s
    ensures !s.answered ==> t == Submitted(s).(answered := true)
  {
    if s.answered then s else Submitted(s).(answered := true)
  }

  /**
   * `t` is `s` with its best score and high-score list updated by `displayFinalScore` (lines
   * 185-192): `saveHighScore` adds the score to the stored list and sorts it in non-increasing
   * order (a list that by `SortedDescUnique` is `SortDesc(s.highScores + [s.score])`), and
   * `displayHighScore` keeps the larger of the old best and the score.
   */
  ghost predicate Recorded(s: AppState, t: AppState)
    ensures Recorded(s, t) ==>
      s.category in t.bestScores && t.bestScores[s.category] >= s.score
  {
    SortedDesc(t.highScores) &&
    multiset(t.highScores) == multiset(s.highScores) + multiset{s.score} &&
    t.bestScores == RecordBest(s.bestScores, s.category, s.score)
  }

  /**
   * `startNextQuestion` (lines 171-181) takes `s` to `t`: it clears the interval, then either
   * shows the question at `index` with its options reshuffled in place (so the bank's copy changes
   * too) and moves `index` past it, or, once every question has been shown, records the score.
   * When the category is missing, line 174 throws right after clearing the interval.
   */
  ghost predicate NextQuestion(s: AppState, t: AppState)
    ensures NextQuestion(s, t) ==>
      t.score == s.score && t.category == s.category && t.pending == s.pending &&
      t.bank.Keys == s.bank.Keys
  {
    if s.category !in s.bank then
      t == s.(timerActive := false)
    else if s.index < |s.bank[s.category]| then
      t.current.Some? && Reshuffled(t.current.value, s.bank[s.category][s.index]) &&
      t == s.(index := s.index + 1, current := t.current,
              bank := s.bank[s.category := s.bank[s.category][s.index := t.current.value]],
              choicesShown := |t.current.value.options|, submitShown := false, answered := false,
              timeLeft := TimeLimit - 1, timerActive := true)
    else
      Recorded(s, t) &&
      t == s.(timerActive := false, choicesShown := 0, answered := true,
              highScores := t.highScores, bestScores := t.bestScores)
  }

  /** `startNextQuestion` keeps the invariant; `index` moves by one exactly when a question is shown. */
  lemma NextQuestionKeepsInvariant(s: AppState, t: AppState)
    requires Invariant(s) && NextQuestion(s, t)
    ensures Invariant(t) && (ScoreBounded(s) ==> ScoreBounded(t))
    ensures t.score == s.score && t.category == s.category && t.pending == s.pending
    ensures t.index == (if s.index < Total(s) then s.index + 1 else s.index)
    ensures s.index < Total(s) ==> t.timerActive && t.timeLeft == TimeLimit - 1
    ensures s.index >= Total(s) ==> !t.timerActive
  {
  }

  /**
   * Two runs of `startNextQuestion` after the last question, as the re-submission of
   * `ResubmitScoresTwice` schedules, push the final score into the stored list twice.
   */
  lemma FinishedTwiceRecordsTwice(s: AppState, t: AppState, u: AppState)
    requires Invariant(s) && s.category in s.bank && s.index == |s.bank[s.category]|
    requires NextQuestion(s, t) && NextQuestion(t, u)
    ensures multiset(u.highScores)[s.score] == multiset(s.highScores)[s.score] + 2
  {
  }

  /**
   * `submitAnswer` does not clear the interval (only line 172 does): when the clock runs out
   * during the feedback delay, a second `startNextQuestion` is scheduled.
   */
  lemma ExpiryAfterSubmitSchedulesTwice(s: AppState)
    requires Invariant(s) && s.submitShown && s.timerActive && s.timeLeft == 0
    ensures Timed(Submitted(s)).pending == s.pending + 2
  {
  }

  /** `n` firings of the interval in a row. */
  function Ticked(s: AppState, n: nat): (t: AppState)
    requires Invariant(s)
    ensures Invariant(t) && t.score == s.score
  {
    if n == 0 then s else Timed(Ticked(s, n - 1))
  }

  /** While seconds are left, every firing takes exactly one off and changes nothing else. */
  lemma {:induction false} CountdownOneSecondPerTick(s: AppState, n: nat)
    requires Invariant(s) && n <= s.timeLeft
    ensures Ticked(s, n) == s.(timeLeft := s.timeLeft - n)
  {
    if n > 0 {
      CountdownOneSecondPerTick(s, n - 1);
    }
  }

  /**
   * A question's clock, started with 15 and shown at once, reaches 0 after 14 firings of the
   * interval with the interval still registered; the 15th firing clears it and schedules the
   * next question, leaving the score as it was.
   */
  lemma ExpiryOnFifteenthTick(s: AppState)
    requires Invariant(s)
    ensures Ticked(TimerStarted(s), TimeLimit - 1) == s.(timeLeft := 0, timerActive := true)
    ensures Ticked(TimerStarted(s), TimeLimit)
         == s.(timeLeft := 0, timerActive := false, pending := s.pending + 1, answered := true)
  {
    CountdownOneSecondPerTick(TimerStarted(s), TimeLimit - 1);
  }

  /**
   * Under the corrected submission the score recorded at the end of a session is at most the
   * number of questions in the category.
   */
  lemma FinalScoreWithinTotal(s: AppState, t: AppState)
    requires Invariant(s) && ScoreBounded(s) && NextQuestion(s, t)
    requires s.category in s.bank && s.index == |s.bank[s.category]|
    ensures t.score <= Total(t) && t.bestScores[t.category] >= t.score
    ensures t.score in multiset(t.highScores)
  {
  }

  /**
   * The reset of `startQuiz` (lines 118-125) after a click on the header of `cat`: index and
   * score are 0 and the category's list is replaced by `order`, its shuffled copy. When `cat` has
   * no list, line 123 throws after the reset.
   */
  function Restarted(s: AppState, cat: string, order: seq<Question>): (t: AppState)
    requires Invariant(s) && (cat in s.bank ==> |order| == |s.bank[cat]|)
    ensures Invariant(t) && ScoreBounded(t)
    ensures t.category == cat && t.index == 0 && t.score == 0
    ensures t.bank.Keys == s.bank.Keys
    ensures forall c :: c in s.bank && c != cat ==> t.bank[c] == s.bank[c]
    ensures cat in s.bank ==> t.bank[cat] == order
    ensures t.highScores == s.highScores && t.bestScores == s.bestScores && t.pending == s.pending
    ensures t.timerActive == s.timerActive && t.current == s.current
  {
    s.(category := cat, index := 0, score := 0, answered := true,
       bank := if cat in s.bank then s.bank[cat := order] else s.bank)
  }

  /**
   * The re-submission the script allows: a correct answer submitted, selected again during the
   * feedback delay and submitted again scores twice, so one question can give a score of 2.
   */
  lemma ResubmitScoresTwice(s: AppState, k: nat)
    requires Invariant(s) && k < s.choicesShown && IsCorrect(s.(selected := Some(k)))
    ensures Submitted(Selected(Submitted(Selected(s, k)), k)).score == s.score + 2
  {
  }

  /** The corrected submission scores a question once, however often it is re-submitted. */
  lemma ResubmitOnceScoresOnce(s: AppState, k: nat)
    requires Invariant(s) && k < s.choicesShown
    ensures SubmittedOnce(Selected(SubmittedOnce(Selected(s, k)), k)).score
         <= s.score + 1
  {
    var t := SubmittedOnce(Selected(s, k));
    assert t.answered;
  }

  class QuizApp {
    var bank: map<string, seq<Question>>
    var category: string
    var index: nat
    var current: Option<Question>
    var score: nat
    var bestScores: map<string, nat>
    var selected: Option<nat>
    var timeLeft: int
    var timerActive: bool
    var pending: nat
    var choicesShown: nat
    var submitShown: bool
    var answered: bool
    var highScores: seq<int>

    /** The value of all the variables. */
    ghost function Snapshot(): AppState
      reads this
    {
      AppState(bank, category, index, current, score, bestScores, selected, timeLeft, timerActive,
               pending, choicesShown, submitShown, answered, highScores)
    }

    ghost predicate Valid()
      reads this
    {
      Invariant(Snapshot())
    }

    /**
     * The page after `initializeQuiz` has loaded `questionData` (the map `fetchQuestions`
     * returned) while local storage holds `stored` under 'highScores'.
     */
    constructor (questionData: map<string, seq<Question>>, stored: seq<int>)
      ensures Valid() && Snapshot() == Initial(questionData, stored)
    {
      bank := questionData;
      category := FirstCategory;
      index := 0;
      current := None;
      score := 0;
      bestScores := map[];
      selected := None;
      timeLeft := TimeLimit;
      timerActive := false;
      pending := 0;
      choicesShown := 0;
      submitShown := false;
      answered := true;
      highScores := stored;
    }

    /**
     * A click on the header of `cat` (lines 26-28) and `startQuiz` (lines 118-125): the session is
     * reset, the category's list is shuffled in place into `order` and `startNextQuestion` runs.
     * `ok` is false when the data has no such category.
     */
    method StartQuiz(cat: string) returns (ok: bool, ghost order: seq<Question>)
      requires Valid()
      modifies this
      ensures Valid()
      ensures ok == (cat in old(bank))
      ensures ok ==> |order| == |old(bank)[cat]| && multiset(order) == multiset(old(bank)[cat])
      ensures ok ==> NextQuestion(Restarted(old(Snapshot()), cat, order), Snapshot())
      ensures !ok ==> Snapshot() == Restarted(old(Snapshot()), cat, order)
    {
      category := cat;
      index := 0;
      score := 0;
      answered := true;
      order := [];
      if cat !in bank {
        ok := false;
        return;
      }
      ok := true;
      var shuffled;
      ghost var draws;
      shuffled, draws := ShuffleSeq(bank[cat]);
      assert |shuffled| == |multiset(shuffled)| == |multiset(bank[cat])| == |bank[cat]|;
      order := shuffled;
      bank := bank[cat := shuffled];
      StartNextQuestion();
    }

    /** `startNextQuestion` (lines 171-181). */
    method StartNextQuestion()
      requires Valid()
      modifies this
      ensures Valid() && NextQuestion(old(Snapshot()), Snapshot())
    {
      timerActive := false;
      if category !in bank {
        return;
      }
      if index < |bank[category]| {
        var q := bank[category][index];
        index := index + 1;
        DisplayQuestion(q);
      } else {
        DisplayFinalScore();
      }
    }

    /**
     * Line 175 and `displayQuestion` (lines 44-71) on the question `q` just taken from the bank:
     * it becomes the current question, its options are shuffled in place on the very object the
     * bank holds, the choices are drawn, the submit button is hidden and the timer is started.
     */
    method DisplayQuestion(q: Question)
      requires Valid() && category in bank
      requires 0 < index <= |bank[category]| && bank[category][index - 1] == q
      modifies this`current, this`bank, this`choicesShown, this`submitShown, this`answered
      modifies this`timeLeft, this`timerActive, this`pending
      ensures Valid() && current.Some? && Reshuffled(current.value, q)
      ensures bank == old(bank)[category := old(bank)[category][index - 1 := current.value]]
      ensures choicesShown == |current.value.options| && !submitShown && !answered
      ensures timeLeft == TimeLimit - 1 && timerActive && pending == old(pending)
    {
      var options;
      ghost var draws;
      options, draws := ShuffleSeq(q.options);
      var shown := q.(options := options);
      current := Some(shown);
      bank := bank[category := bank[category][index - 1 := shown]];
      choicesShown := |options|;
      submitShown := false;
      answered := false;
      StartTimer();
    }

    /** `startTimer` (lines 74-79). */
    method StartTimer()
      requires Valid()
      modifies this`timeLeft, this`timerActive, this`pending, this`answered
      ensures Valid() && Snapshot() == TimerStarted(old(Snapshot()))
    {
      timeLeft := TimeLimit;
      UpdateTimer();
      timerActive := true;
    }

    /** `updateTimer` (lines 82-91). */
    method UpdateTimer()
      requires Valid()
      modifies this`timeLeft, this`timerActive, this`pending, this`answered
      ensures Valid() && Snapshot() == Timed(old(Snapshot()))
    {
      if timeLeft > 0 {
        timeLeft := timeLeft - 1;
      } else {
        timerActive := false;
        HandleTimeout();
      }
    }

    /** `handleTimeout` (lines 94-99): the next question is scheduled a second later. */
    method HandleTimeout()
      modifies this`pending, this`answered
      ensures pending == old(pending) + 1 && answered
    {
      pending := pending + 1;
      answered := true;
    }

    /** One firing of the interval registered at line 78, which fires only while registered. */
    method Tick()
      requires Valid() && timerActive
      modifies this`timeLeft, this`timerActive, this`pending, this`answered
      ensures Valid() && Snapshot() == Timed(old(Snapshot()))
    {
      UpdateTimer();
    }

    /** A delay scheduled at line 98 or line 163 runs out and `startNextQuestion` runs. */
    method Advance()
      requires Valid() && pending > 0
      modifies this
      ensures Valid()
      ensures NextQuestion(old(Snapshot()).(pending := old(pending) - 1), Snapshot())
    {
      pending := pending - 1;
      StartNextQuestion();
    }

    /** `handleChoiceClick` (lines 103-115); `ok` is false when there is no choice `k`. */
    method Select(k: nat) returns (ok: bool)
      requires Valid()
      modifies this`selected, this`submitShown
      ensures Valid() && ok == (k < choicesShown)
      ensures Snapshot() == Selected(old(Snapshot()), k)
    {
      if k >= choicesShown {
        ok := false;
        return;
      }
      ok := true;
      selected := Some(k);
      submitShown := true;
    }

    /** `submitAnswer` (lines 140-159) as written, on a click of the visible submit button. */
    method Submit()
      requires Valid() && submitShown
      modifies this`score, this`submitShown, this`pending
      ensures Valid() && Snapshot() == Submitted(old(Snapshot()))
    {
      var correctIndex := IndexOf(current.value.options, current.value.answer);
      if selected.value == correctIndex {
        score := score + 1;
      }
      submitShown := false;
      pending := pending + 1;
    }

    /** `submitAnswer` corrected to score each question at most once. */
    method SubmitOnce()
      requires Valid() && submitShown
      modifies this`score, this`submitShown, this`pending, this`answered
      ensures Valid() && Snapshot() == SubmittedOnce(old(Snapshot()))
    {
      if answered {
        return;
      }
      Submit();
      answered := true;
    }

    /** `displayFinalScore` (lines 185-192): the choices are removed and the score recorded. */
    method DisplayFinalScore()
      requires Valid()
      modifies this`choicesShown, this`highScores, this`bestScores, this`answered
      ensures Valid() && Recorded(old(Snapshot()), Snapshot())
      ensures choicesShown == 0 && answered
    {
      choicesShown := 0;
      SaveHighScore(score);
      DisplayHighScore();
      answered := true;
    }

    /**
     * `saveHighScore` (lines 195-200): `s` is appended to the stored list, which is then sorted
     * in non-increasing order.
     */
    method SaveHighScore(s: int)
      modifies this`highScores
      ensures |highScores| == |old(highScores)| + 1 && SortedDesc(highScores)
      ensures multiset(highScores) == multiset(old(highScores)) + multiset{s}
    {
      highScores := SortDesc(highScores + [s]);
      assert |highScores| == |multiset(highScores)|;
    }

    /**
     * The update of `bestScores` in `displayHighScore` (lines 208-210): the category keeps the
     * larger of its old best (0 when absent) and the score; the other categories are untouched.
     */
    method DisplayHighScore()
      modifies this`bestScores
      ensures bestScores == RecordBest(old(bestScores), category, score)
    {
      bestScores := RecordBest(bestScores, category, score);
    }
  }
}
