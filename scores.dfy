/**
 * The score records of script.js: the high-score list kept in local storage (`saveHighScore`,
 * lines 195-200) and the best score per category kept in memory (`displayHighScore`, lines 208-215).
 */
module Scores {

  /** Non-increasing order, what the comparator `(a, b) => b - a` at line 198 asks for. */
  predicate SortedDesc(s: seq<int>)
  {
    forall i, j :: 0 <= i < j < |s| ==> s[i] >= s[j]
  }

  /** `x` inserted before the first element of `s` that it is not smaller than. */
  function Insert(x: int, s: seq<int>): (r: seq<int>)
    ensures multiset(r) == multiset(s) + multiset{x}
  {
    if s == [] || x >= s[0] then [x] + s
    else
      assert s == [s[0]] + s[1..];
      [s[0]] + Insert(x, s[1..])
  }

  /** Inserting into a non-increasing list keeps it non-increasing. */
  lemma {:induction false} InsertSorted(x: int, s: seq<int>)
    requires SortedDesc(s)
    ensures SortedDesc(Insert(x, s))
  {
    if s != [] && x < s[0] {
      var t := Insert(x, s[1..]);
      InsertSorted(x, s[1..]);
      forall j | 0 <= j < |t|
        ensures s[0] >= t[j]
      {
        assert t[j] in multiset(t);
        if t[j] != x {
          assert t[j] in multiset(s[1..]);
          var m :| 0 <= m < |s[1..]| && s[1..][m] == t[j];
          assert s[m + 1] == t[j];
        }
      }
    }
  }

  /** The list `Array.prototype.sort` with the comparator of line 198 leaves: non-increasing. */
  function SortDesc(s: seq<int>): (r: seq<int>)
    ensures SortedDesc(r)
    ensures multiset(r) == multiset(s)
  {
    if s == [] then []
    else
      var t := SortDesc(s[1..]);
      InsertSorted(s[0], t);
      assert s == [s[0]] + s[1..];
      Insert(s[0], t)
  }

  /** The first element of a non-increasing list is its largest. */
  lemma FirstIsLargest(s: seq<int>, x: int)
    requires SortedDesc(s) && x in s
    ensures x <= s[0]
  {
  }

  /**
   * A non-increasing list is determined by its elements. So `SortDesc` is the list any correct
   * sort with that comparator returns, whatever algorithm the JavaScript engine uses.
   */
  lemma {:induction false} SortedDescUnique(a: seq<int>, b: seq<int>)
    requires SortedDesc(a) && SortedDesc(b) && multiset(a) == multiset(b)
    ensures a == b
    decreases |a|
  {
    assert |a| == |multiset(a)| == |multiset(b)| == |b|;
    if a != [] {
      assert a[0] in multiset(b) && b[0] in multiset(a);
      FirstIsLargest(b, a[0]);
      FirstIsLargest(a, b[0]);
      assert a[0] == b[0];
      assert a == [a[0]] + a[1..] && b == [b[0]] + b[1..];
      assert multiset(a[1..]) == multiset(a) - multiset{a[0]};
      assert multiset(b[1..]) == multiset(b) - multiset{b[0]};
      assert multiset(a[1..]) == multiset(b[1..]);
      SortedDescUnique(a[1..], b[1..]);
    }
  }

  /** The best score shown for a category: `bestScores[category] || 0` at line 215. */
  function Best(m: map<string, nat>, category: string): nat
  {
    if category in m then m[category] else 0
  }

  function Max(a: int, b: int): int
  {
    if a >= b then a else b
  }

  /**
   * The update of lines 208-210: store `score` when the entry is missing or falsy (0) or smaller.
   * The result keeps the larger of the old best (0 when absent) and `score`, and no other entry
   * changes.
   */
  function RecordBest(m: map<string, nat>, category: string, score: nat): (r: map<string, nat>)
    ensures r.Keys == m.Keys + {category}
    ensures r[category] == Max(Best(m, category), score)
    ensures forall c :: c in m && c != category ==> r[c] == m[c]
  {
    if category !in m || m[category] == 0 || score > m[category] then m[category := score]
    else m
  }

  /** Two recorded scores leave the larger one as best, whichever came first. */
  lemma RecordBestOrderFree(m: map<string, nat>, category: string, a: nat, b: nat)
    ensures RecordBest(RecordBest(m, category, a), category, b)
         == RecordBest(RecordBest(m, category, b), category, a)
    ensures Best(RecordBest(RecordBest(m, category, a), category, b), category)
         == Max(Best(m, category), Max(a, b))
  {
  }
}
