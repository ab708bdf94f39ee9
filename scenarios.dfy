/**
 * Sessions driven through `QuizApp` event by event, as a page would see them. Each method builds
 * its own data; the results it promises follow from the engine's contracts alone.
 */
module Scenarios {
  import opened Questions
  import opened Quiz
  import Scores

  /** Every question of `qs` has its answer among at least two options. */
  ghost predicate Answerable(qs: seq<Question>)
  {
    forall i :: 0 <= i < |qs| ==> qs[i].answer in qs[i].options && |qs[i].options| >= 2
  }

  /** Reordering a list of questions keeps them answerable. */
  lemma AnswerablePermuted(a: seq<Question>, b: seq<Question>)
    requires Answerable(a) && multiset(a) == multiset(b)
    ensures Answerable(b)
  {
    forall i | 0 <= i < |b|
      ensures b[i].answer in b[i].options && |b[i].options| >= 2
    {
      assert b[i] in multiset(b);
      assert b[i] in a;
      var j :| 0 <= j < |a| && a[j] == b[i];
    }
  }

  /** Writing a reshuffled question back over position `i` keeps the list answerable. */
  lemma AnswerableWriteBack(qs: seq<Question>, i: nat, q2: Question)
    requires Answerable(qs) && i < |qs| && Reshuffled(q2, qs[i])
    ensures Answerable(qs[i := q2])
  {
    ReshuffledKeepsAnswer(q2, qs[i]);
  }

  /** A session of `cat`, whose list still has `n` answerable questions. */
  ghost predicate Playing(app: QuizApp, cat: string, n: nat)
    reads app
  {
    app.Valid() && app.category == cat && cat in app.bank && |app.bank[cat]| == n &&
    Answerable(app.bank[cat])
  }

  /** A question is on screen, its choices drawn, and it has not been answered yet. */
  ghost predicate Awaiting(app: QuizApp)
    reads app
  {
    app.Valid() && app.current.Some? && app.current.value.answer in app.current.value.options &&
    |app.current.value.options| >= 2 &&
    app.choicesShown == |app.current.value.options| && !app.answered
  }

  /** A click on the header of `cat`: its first question comes up. */
  method Begin(app: QuizApp, cat: string)
    requires app.Valid() && cat in app.bank && Answerable(app.bank[cat]) && |app.bank[cat]| > 0
    modifies app
    ensures Playing(app, cat, old(|app.bank[cat]|)) && Awaiting(app)
    ensures app.index == 1 && app.score == 0 && app.pending == old(app.pending)
    ensures app.timerActive && app.timeLeft == TimeLimit - 1
    ensures app.bestScores == old(app.bestScores)
  {
    ghost var n := |app.bank[cat]|;
    var ok;
    ghost var order;
    ok, order := app.StartQuiz(cat);
    AnswerablePermuted(old(app.bank[cat]), order);
    ReshuffledKeepsAnswer(app.current.value, order[0]);
    AnswerableWriteBack(order, 0, app.current.value);
  }

  /** The delayed `startNextQuestion` runs while questions remain: the next one comes up. */
  method Next(app: QuizApp, ghost cat: string, ghost n: nat)
    requires Playing(app, cat, n) && app.index < n && app.pending > 0
    modifies app
    ensures Playing(app, cat, n) && Awaiting(app)
    ensures app.index == old(app.index) + 1 && app.score == old(app.score)
    ensures app.pending == old(app.pending) - 1 && app.bestScores == old(app.bestScores)
  {
    ghost var q := app.bank[cat][app.index];
    ghost var qs := app.bank[cat];
    app.Advance();
    ReshuffledKeepsAnswer(app.current.value, q);
    AnswerableWriteBack(qs, old(app.index), app.current.value);
  }

  /** The delayed `startNextQuestion` runs after the last question: the score is recorded. */
  method Finish(app: QuizApp, ghost cat: string, ghost n: nat)
    requires Playing(app, cat, n) && app.index == n && app.pending > 0
    modifies app
    ensures app.score == old(app.score) && app.pending == old(app.pending) - 1
    ensures app.bestScores == Scores.RecordBest(old(app.bestScores), cat, app.score)
  {
    app.Advance();
  }

  /** A click on the choice that holds the answer, then on the submit button. */
  method AnswerCorrectly(app: QuizApp)
    requires Awaiting(app)
    modifies app`selected, app`submitShown, app`score, app`pending
    ensures app.Valid() && app.score == old(app.score) + 1 && app.pending == old(app.pending) + 1
    ensures app.index == old(app.index) && app.bank == old(app.bank)
    ensures app.category == old(app.category)
  {
    var k := IndexOf(app.current.value.options, app.current.value.answer);
    var ok := app.Select(k);
    app.Submit();
  }

  /** A click on a choice that does not hold the answer, then on the submit button. */
  method AnswerWrongly(app: QuizApp)
    requires Awaiting(app)
    modifies app`selected, app`submitShown, app`score, app`pending
    ensures app.Valid() && app.score == old(app.score) && app.pending == old(app.pending) + 1
    ensures app.index == old(app.index) && app.bank == old(app.bank)
    ensures app.category == old(app.category)
  {
    var right := IndexOf(app.current.value.options, app.current.value.answer);
    var k := if right == 0 then 1 else 0;
    var ok := app.Select(k);
    app.Submit();
  }

  /** The interval fires until the clock runs out; it takes `timeLeft + 1` firings. */
  method RunOutTheClock(app: QuizApp) returns (ticks: nat)
    requires app.Valid() && app.timerActive
    modifies app`timeLeft, app`timerActive, app`pending, app`answered
    ensures app.Valid() && ticks == old(app.timeLeft) + 1
    ensures app.Snapshot() == old(app.Snapshot()).(timeLeft := 0, timerActive := false,
                                                  pending := old(app.pending) + 1, answered := true)
  {
    ticks := 0;
    while app.timerActive
      invariant app.Valid() && ticks <= old(app.timeLeft) + 1
      invariant app.timerActive ==>
        app.Snapshot() == old(app.Snapshot()).(timeLeft := old(app.timeLeft) - ticks)
      invariant !app.timerActive ==>
        ticks == old(app.timeLeft) + 1 &&
        app.Snapshot() == old(app.Snapshot()).(timeLeft := 0, timerActive := false,
                                              pending := old(app.pending) + 1, answered := true)
      decreases if app.timerActive then app.timeLeft + 1 else 0
    {
      app.Tick();
      ticks := ticks + 1;
    }
  }

  /** A question with two options whose answer is the first. */
  function TwoWay(text: string, answer: string, other: string): (q: Question)
    ensures q.answer in q.options && |q.options| == 2
  {
    Question(text, [answer, other], answer)
  }

  /**
   * Category "css" has 2 questions and both are answered correctly before their clocks run out:
   * the final score is 2 and so is the best score of the category.
   */
  method CssSession() returns (final: nat, best: nat)
    ensures final == 2 && best == 2
  {
    var q1 := TwoWay("What does CSS stand for?", "Cascading Style Sheets", "Colorful Style Sheets");
    var q2 := TwoWay("Which property sets the colour of text?", "color", "font-color");
    var app := new QuizApp(map["css" := [q1, q2]], []);
    Begin(app, "css");
    AnswerCorrectly(app);
    Next(app, "css", 2);
    AnswerCorrectly(app);
    Finish(app, "css", 2);
    final := app.score;
    best := app.bestScores["css"];
  }

  /**
   * Category "javascript" has 3 questions: the clock runs out on the first after 15 firings of
   * the interval, the second is answered correctly and the third wrongly. The final score is 1.
   */
  method JavascriptSession() returns (final: nat, ticks: nat)
    ensures final == 1 && ticks == TimeLimit
  {
    var q1 := TwoWay("Which keyword declares a constant?", "const", "let");
    var q2 := TwoWay("What does typeof null give?", "object", "null");
    var q3 := TwoWay("Which method adds to the end of an array?", "push", "shift");
    var app := new QuizApp(map["javascript" := [q1, q2, q3]], [4]);
    Begin(app, "javascript");
    ticks := RunOutTheClock(app);
    Next(app, "javascript", 3);
    AnswerCorrectly(app);
    Next(app, "javascript", 3);
    AnswerWrongly(app);
    Finish(app, "javascript", 3);
    final := app.score;
  }

  /**
   * The correct choice is clicked and submitted, then clicked and submitted again during the
   * feedback delay, as the script allows: the question scores twice.
   */
  method SubmitTwice(app: QuizApp)
    requires Awaiting(app)
    modifies app`selected, app`submitShown, app`score, app`pending
    ensures app.Valid() && app.score == old(app.score) + 2 && app.pending == old(app.pending) + 2
  {
    var k := IndexOf(app.current.value.options, app.current.value.answer);
    var ok := app.Select(k);
    app.Submit();
    ok := app.Select(k);
    app.Submit();
  }

  /** The same clicks with the corrected submission: the second one is ignored. */
  method SubmitTwiceOnce(app: QuizApp)
    requires Awaiting(app)
    modifies app`selected, app`submitShown, app`score, app`pending, app`answered
    ensures app.Valid() && app.score == old(app.score) + 1 && app.pending == old(app.pending) + 1
  {
    var k := IndexOf(app.current.value.options, app.current.value.answer);
    var ok := app.Select(k);
    app.SubmitOnce();
    ok := app.Select(k);
    app.SubmitOnce();
  }

  /**
   * A one-question quiz where the correct choice is submitted, clicked again during the feedback
   * delay and submitted again. As written the final score is 2 for 1 question; with the corrected
   * submission it is 1.
   */
  method ResubmitDuringFeedback() returns (asWritten: nat, corrected: nat, total: nat)
    ensures total == 1 && asWritten == 2 && corrected == 1
  {
    var q := TwoWay("Which tag holds a paragraph?", "p", "span");
    var data := map["html" := [q]];
    total := |data["html"]|;

    var app := new QuizApp(data, []);
    Begin(app, "html");
    SubmitTwice(app);
    Finish(app, "html", 1);
    asWritten := app.score;

    var fixed := new QuizApp(data, []);
    Begin(fixed, "html");
    SubmitTwiceOnce(fixed);
    Finish(fixed, "html", 1);
    corrected := fixed.score;
  }
}
