# Quiz app engine in Dafny

This project models the engine of the browser quiz in `script.js`. The quiz loads a bank of
multiple-choice questions grouped by category, such as "css" or "javascript". A click on a
category header starts a session. The questions of that category come in shuffled order, and the
options of each question are shuffled when it is shown. Each question has a 15-second countdown. A
click on a choice selects it and shows the submit button. Submitting scores one point for the
correct choice, and the next question follows after a one-second feedback delay. When the clock
runs out, the next question follows without scoring. After the last question, the final score is
appended to the high-score list kept in local storage, which is then sorted in descending order.
The best score of the category is kept in memory.

Files:

- `wrappers.dfy`: `Option`.
- `shuffle.dfy`: the Fisher–Yates `shuffleArray`.
  - It works in place on an `array`.
  - It is specified by the function `Shuffled` of the input and of the random draws.
- `questions.dfy`: the `Question` record and the options' `indexOf`.
  - It also holds the per-category shuffle loop of `fetchQuestions`.
- `scores.dfy`: the sorted high-score list and the `bestScores` update.
- `quiz.dfy`: the session state machine.
  - The script's variables are the fields of the class `QuizApp`.
  - Every event is a method: header click, choice click, submit click, a firing of the one-second
    interval, and the end of a one-second delay.
  - Each method's new state is tied to a pure step function or relation on the datatype
    `AppState`, and the engine's properties are proved about those.
- `scenarios.dfy`: sessions driven event by event through `QuizApp`, with their outcomes proved.
  The "css" and "javascript" sessions submit through `Submit`, which is `submitAnswer` as written.
  - A two-question "css" session answered correctly, ending with final and best score 2.
  - A three-question "javascript" session with a timeout, a correct answer and a wrong answer,
    ending with score 1.
  - The double submission described under Findings.

Browser scheduling is explicit state. `timerActive` says whether the interval is registered, and
`pending` counts the scheduled calls of `startNextQuestion` that have not run yet. An event can
only be delivered when the page can deliver it:

- `Tick` requires the interval to be registered.
- `Advance` requires a pending delay.
- `Submit` requires the submit button to be visible.

`Math.random` is a nondeterministic choice `j :| j <= i`. The choices are returned as ghost
"draws", so the result is determined by the input and those draws.

## Model

| member | source | states |
|---|---|---|
| Shuffle.Swap | script.js:38 | exchanges positions i and j and leaves every other position as it was |
| Shuffle.SwapIsPermutation | script.js:38 | a swap keeps the multiset of elements |
| Shuffle.Shuffled | script.js:35-41 | the Fisher–Yates result for a list of draws has the input's length |
| Shuffle.ShuffledIsPermutation | script.js:35-41 | for any draws, the shuffled list is a permutation of the input |
| Shuffle.ShuffledSettles | script.js:36-38 | once the loop passes position n-1-k, that slot never changes again |
| Shuffle.ShuffledLast | script.js:36-38 | the last slot receives the element at the first draw, which may be any position |
| Shuffle.ShuffleArray | script.js:35-41 | in place, with one draw j <= i for each i from n-1 down to 1: the array becomes `Shuffled(old contents, draws)`, a permutation of the old contents |
| Shuffle.ShuffleSeq | script.js:35-41 | the same algorithm on a copy: the result is the shuffle for a complete set of draws, a permutation of the input |
| Questions.ShuffleCategories | script.js:229-234 | every category is kept, and each category's list becomes a permutation of itself |
| Questions.IndexOf | script.js:142 | -1 exactly when the answer is absent, otherwise the first position holding it |
| Questions.CorrectChoiceIsAnswer | script.js:142-144 | a choice that scores holds the answer; with distinct options, a choice scores if and only if it holds the answer |
| Questions.RepeatedAnswerScoresFirstOnly | script.js:142-144 | for any options, when the answer text appears at positions p < q, position q never scores |
| Questions.ReshuffledKeepsAnswer | script.js:56 | reshuffling a question's options keeps their number and keeps the answer among them |
| Scores.Insert | script.js:197-198 | inserting adds exactly the new score to the multiset of scores |
| Scores.InsertSorted | script.js:197-198 | inserting into a descending list keeps it descending |
| Scores.SortDesc | script.js:198 | the result is in descending order and is a permutation of the input |
| Scores.SortedDescUnique | script.js:198 | two descending lists with the same elements are equal, so the stored list is determined |
| Scores.FirstIsLargest | script.js:198 | the head of the stored list is the highest score ever saved |
| Scores.RecordBest | script.js:208-210 | the category's best becomes the larger of the old best (0 when absent) and the score; other categories are unchanged |
| Scores.RecordBestOrderFree | script.js:208-210 | recording two scores in either order gives the same map, and the best is the larger of the old best and both scores |
| Quiz.Initial | script.js:12-20 | the page starts on category "css" with index and score 0, no current question, no selection, empty best scores, 15 seconds, the loaded bank and stored list, no interval and nothing pending |
| Quiz.Timed | script.js:82-99 | with seconds left, one is taken off and nothing else changes; at 0, the interval is cleared and one next question is scheduled; the score never changes |
| Quiz.TimerStarted | script.js:74-79 | starting the timer leaves 14 seconds and a registered interval, because `updateTimer` runs at once |
| Quiz.Selected | script.js:103-115 | clicking an existing choice selects it and shows the submit button; an index with no choice element changes nothing |
| Quiz.IsCorrect | script.js:142-144 | a submission is correct exactly when the selected position holds the answer and no earlier position does |
| Quiz.Recorded | script.js:185-210 | recording the final score leaves the category with a best score at least the final score |
| Quiz.NextQuestion | script.js:171-181 | `startNextQuestion`, whichever branch it takes, keeps the score, the category, the pending delays and the set of categories |
| Quiz.Submitted | script.js:140-159 | the score grows by 1 exactly when the selected position is the answer's first position; the button hides and one next question is scheduled; the interval, the seconds left, the choices and the bank are left as they were |
| Quiz.SubmittedOnce | script.js:140-159 | the corrected submission scores like `Submitted` the first time and ignores a second submission for the same question |
| Quiz.NextQuestionKeepsInvariant | script.js:171-181 | `startNextQuestion` keeps the invariant and the score; it advances the index and restarts the clock only when a question remains, and otherwise stops the interval |
| Quiz.FinalScoreWithinTotal | script.js:171-192 | with the corrected submission (`ScoreBounded`), when the last question has been answered, the recorded final score is at most the number of questions, is in the stored list, and is at most the category's best |
| Quiz.Restarted | script.js:118-125 | a session restart resets index and score, replaces the chosen category's list by its shuffled order and no other list, leaves the stored scores, best scores, timer, pending delays and current question as they were, and keeps the invariant |
| Quiz.ResubmitScoresTwice | script.js:103-166 | re-selecting and re-submitting a correct answer during the feedback delay scores the same question twice |
| Quiz.ResubmitOnceScoresOnce | script.js:140-159 | with the corrected submission, the same clicks score at most once |
| Quiz.FinishedTwiceRecordsTwice | script.js:171-199 | two runs of `startNextQuestion` after the last question push the final score into the stored list twice |
| Quiz.ExpiryAfterSubmitSchedulesTwice | script.js:83-166 | a clock that runs out after a submission schedules a second `startNextQuestion` |
| Quiz.Ticked | script.js:78-91 | n interval firings keep the invariant and the score |
| Quiz.CountdownOneSecondPerTick | script.js:83-85 | while seconds remain, n firings take exactly n seconds off and change nothing else |
| Quiz.ExpiryOnFifteenthTick | script.js:74-99 | after a question appears, the 14th firing reaches 0 with the interval still live, and the 15th clears it and schedules the next question |
| Quiz.QuizApp.constructor | script.js:12-24 | the page once the question data is loaded is `Initial` |
| Quiz.QuizApp.StartQuiz | script.js:118-125 | the reset, then the category's list shuffled in place, then `startNextQuestion`; a missing category stops after the reset |
| Quiz.QuizApp.StartNextQuestion | script.js:171-181 | clears the interval, then shows the next question with its options reshuffled into the bank, or records the final score |
| Quiz.QuizApp.DisplayQuestion | script.js:44-71 | the question becomes current with a permutation of its options written back into the bank, the choices are drawn, the button hidden, and the timer started |
| Quiz.QuizApp.StartTimer | script.js:74-79 | the new state is `TimerStarted` of the old one |
| Quiz.QuizApp.UpdateTimer | script.js:82-91 | the new state is `Timed` of the old one |
| Quiz.QuizApp.HandleTimeout | script.js:94-99 | one more `startNextQuestion` is pending |
| Quiz.QuizApp.Tick | script.js:78 | a firing of the registered interval is `Timed` |
| Quiz.QuizApp.Advance | script.js:163-166 | a delay that runs out runs `startNextQuestion` |
| Quiz.QuizApp.Select | script.js:103-115 | the new state is `Selected` of the old one; `ok` says whether the choice exists |
| Quiz.QuizApp.Submit | script.js:140-159 | the new state is `Submitted` of the old one |
| Quiz.QuizApp.SubmitOnce | script.js:140-159 | the new state is `SubmittedOnce` of the old one |
| Quiz.QuizApp.DisplayFinalScore | script.js:185-192 | the choices are removed, and the score is added to the sorted stored list and to the category's best |
| Quiz.QuizApp.SaveHighScore | script.js:195-200 | the stored list gains exactly the score and is in descending order |
| Quiz.QuizApp.DisplayHighScore | script.js:208-210 | `bestScores` becomes `RecordBest` of its old value |
| Scenarios.AnswerablePermuted | script.js:123 | shuffling a category's list keeps every question answerable |
| Scenarios.AnswerableWriteBack | script.js:56 | writing a question with reshuffled options back into the list keeps it answerable |
| Scenarios.Begin | script.js:118-125 | a header click on a non-empty category shows its first unanswered question with 14 seconds left |
| Scenarios.Next | script.js:163-177 | a delay that runs out while questions remain shows the next question and keeps the score |
| Scenarios.Finish | script.js:171-192 | a delay that runs out after the last question keeps the score and records it as the category's best when it beats the old one |
| Scenarios.AnswerCorrectly | script.js:103-159 | clicking the answer's choice and submitting adds 1 to the score |
| Scenarios.AnswerWrongly | script.js:103-159 | clicking another choice and submitting leaves the score unchanged |
| Scenarios.RunOutTheClock | script.js:78-99 | the interval fires `timeLeft + 1` times before it is cleared and the next question is scheduled |
| Scenarios.CssSession | script.js:118-210 | two "css" questions answered correctly give a final score of 2 and a best score of 2 |
| Scenarios.JavascriptSession | script.js:74-210 | a timeout after 15 firings, then a correct and a wrong answer, give a final score of 1 |
| Scenarios.SubmitTwice | script.js:103-166 | submitting the correct choice twice during the delay adds 2 to the score |
| Scenarios.SubmitTwiceOnce | script.js:103-166 | with the corrected submission, the same clicks add 1 |
| Scenarios.ResubmitDuringFeedback | script.js:103-192 | on a one-question quiz, the script as written ends with score 2 and the corrected submission ends with score 1 |

## Left out

- DOM rendering is not modelled. The text, colours and visibility of the question, feedback,
  score and timer elements are left out. Only the state that decides which events can be
  delivered is kept: the number of choice elements and whether the submit button is visible.
- `fetchQuestions` (lines 224-241) is not modelled as I/O. The network request, the JSON parsing
  and the `null` returned on failure are left out. The constructor takes the already loaded map.
  Its per-category shuffle loop is modelled as `ShuffleCategories`.
- Local storage and its JSON round-trip are not modelled. The stored list is the `highScores`
  field, and the constructor's `stored` argument is what storage holds when the page loads.
- `setInterval`, `setTimeout` and their timing are not modelled as a clock. They are the explicit
  `timerActive` and `pending` state plus the `Tick` and `Advance` events. Which of several
  deliverable events happens first is up to the caller.
- Math.random is not modelled as uniform. Any draw `j <= i` is allowed, so the model says which
  orders are possible but nothing about their probabilities.
- `selectOption` (lines 129-135) is never called by the script and is not modelled.
- The JavaScript sort comparator `b - a` is modelled on unbounded integers.
- The guard at line 141 is not modelled as a check. `undefined !== null` holds too, so it never
  stops a submission. The model relies instead on the button being visible only after a selection.
- A missing category throws a TypeError in `shuffleArray` (line 36, reached from line 123) after
  index and score have been reset. `StartQuiz` models this by returning `ok = false` after the
  reset. A throw from `startNextQuestion` on a missing category after a delay only clears the
  interval in the model.
- Every final score goes into one sorted list shared by all categories; `bestScores` lives in
  memory only and is lost when the page reloads.
- `startTimer` sets 15 and calls `updateTimer` at once, so the display shows 15 down to 1 and time
  runs out on the 15th firing (`ExpiryOnFifteenthTick`).
- Aliasing is not modelled as shared objects.
  - The options shuffled at line 56 are the same object the bank holds. The model writes the
    reshuffled question back into the bank, which gives the same visible effect.
  - Shuffles of a list are done on a copy (`ShuffleSeq`), and the result is stored in its place.

## Findings

| source | as written | input that shows it | evidently intended | confidence | as-written member | corrected member |
|---|---|---|---|---|---|---|
| script.js:103-166 | the choices stay clickable during the one-second feedback delay, so selecting again shows the submit button, and a second submission of the same question scores again | a one-question quiz: click the correct choice, submit, click it again within the second, submit again; the final score is 2 of 1, and when it is the last question the second scheduled `startNextQuestion` stores the final score twice | each question scores at most once, so the final score never exceeds the number of questions | not executed | Quiz.ResubmitScoresTwice (on Quiz.Submitted / Quiz.QuizApp.Submit), Quiz.FinishedTwiceRecordsTwice, Scenarios.ResubmitDuringFeedback | Quiz.SubmittedOnce / Quiz.QuizApp.SubmitOnce, with Quiz.ResubmitOnceScoresOnce and Quiz.FinalScoreWithinTotal |
