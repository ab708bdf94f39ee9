/**
 * The question bank of script.js: the questions of each category, the lookup of the correct option
 * that `submitAnswer` makes, and the shuffle of every category that `fetchQuestions` runs once the
 * data has been parsed.
 */
module Questions {
  import Shuffle

  /** One entry of a category's list: the `question`, `options` and `answer` fields of the data. */
  datatype Question = Question(text: string, options: seq<string>, answer: string)

  /** `Array.prototype.indexOf` as line 142 uses it: the first position of `x` in `s`, or -1. */
  function IndexOf<T(==)>(s: seq<T>, x: T): (r: int)
    ensures -1 <= r < |s|
    ensures r == -1 <==> x !in s
    ensures 0 <= r ==> s[r] == x && x !in s[..r]
  {
    if s == [] then -1
    else if s[0] == x then 0
    else
      var r := IndexOf(s[1..], x);
      assert s == [s[0]] + s[1..];
      if r == -1 then -1
      else
        assert s[..r + 1] == [s[0]] + s[1..][..r];
        r + 1
  }

  /** No option occurs twice. */
  predicate Distinct<T(==)>(s: seq<T>)
  {
    forall i, j :: 0 <= i < j < |s| ==> s[i] != s[j]
  }

  /**
   * Choosing position `k` is scored correct when `k` is the first position of the answer; when the
   * options are distinct this is exactly choosing the option whose text is the answer.
   */
  lemma CorrectChoiceIsAnswer(options: seq<string>, answer: string, k: nat)
    requires k < |options|
    ensures k == IndexOf(options, answer) ==> options[k] == answer
    ensures Distinct(options) ==> (k == IndexOf(options, answer) <==> options[k] == answer)
  {
  }

  /** When the answer appears more than once among the options, a later copy never scores. */
  lemma RepeatedAnswerScoresFirstOnly(options: seq<string>, answer: string, p: nat, q: nat)
    requires p < q < |options| && options[p] == answer && options[q] == answer
    ensures q != IndexOf(options, answer)
  {
    assert options[..q][p] == answer;
  }

  /** `q2` is `q` with its options in another order, as `displayQuestion` leaves it (line 56). */
  ghost predicate Reshuffled(q2: Question, q: Question)
  {
    q2.text == q.text && q2.answer == q.answer && multiset(q2.options) == multiset(q.options)
  }

  /** Reordering the options keeps their number and keeps the answer among them. */
  lemma ReshuffledKeepsAnswer(q2: Question, q: Question)
    requires Reshuffled(q2, q)
    ensures |q2.options| == |q.options|
    ensures q.answer in q.options ==> q2.answer in q2.options
  {
    assert |q2.options| == |multiset(q2.options)| == |multiset(q.options)| == |q.options|;
    if q.answer in q.options {
      assert q.answer in multiset(q.options);
    }
  }

  /**
   * The loop of `fetchQuestions` (lines 230-234): every category of the parsed data has its list
   * shuffled in place; no category is added or dropped.
   */
  method ShuffleCategories(data: map<string, seq<Question>>) returns (r: map<string, seq<Question>>)
    ensures r.Keys == data.Keys
    ensures forall c :: c in data ==> multiset(r[c]) == multiset(data[c])
  {
    r := data;
    var todo := data.Keys;
    while todo != {}
      invariant todo <= data.Keys
      invariant r.Keys == data.Keys
      invariant forall c :: c in data ==> multiset(r[c]) == multiset(data[c])
      decreases |todo|
    {
      var c :| c in todo;
      var shuffled;
      ghost var draws;
      shuffled, draws := Shuffle.ShuffleSeq(r[c]);
      r := r[c := shuffled];
      todo := todo - {c};
    }
  }
}
