/**
 * Choosing the representative audit result among several runs for one device:
 * keep the results whose performance category score is a number other than NaN,
 * sort them ascending by score, and take the element at index floor(n / 2).
 * Audit results are opaque JS values; only `lhr.categories.performance.score` is read.
 */
module AuditSelection {
  import opened Wrappers
  import opened JsValues

  const ScorePath: seq<string> := ["lhr", "categories", "performance", "score"]

  /** `auditResult?.lhr?.categories?.performance?.score` */
  function Score(r: JsValue): JsValue {
    GetPath(r, ScorePath)
  }

  /** A result is valid iff its score is of type number and not NaN (infinities pass). */
  predicate IsValidResult(r: JsValue) {
    IsNumberNotNaN(Score(r))
  }

  /** The numeric score of a result (NaN for a result whose score is not a number). */
  function ScoreOf(r: JsValue): Number {
    var s := Score(r);
    if s.Num? then s.n else NaN
  }

  /** The order the comparator `a - b` induces on numbers other than NaN:
      -Infinity first, +Infinity last, and two equal infinities compare as equal
      (their difference is NaN, which the sort treats as 0). */
  predicate ScoreLe(a: Number, b: Number) {
    a.NegInfinity? || b.PosInfinity? || (a.Finite? && b.Finite? && a.value <= b.value)
  }

  predicate ScoreLt(a: Number, b: Number) {
    !ScoreLe(b, a)
  }

  /** Results kept by the validation filter, in their original order. */
  function ValidResults(results: seq<JsValue>): (r: seq<JsValue>)
    ensures forall x :: x in r <==> x in results && IsValidResult(x)
    ensures |r| <= |results|
  {
    if results == [] then []
    else (ValidResults(results[..|results| - 1])
      + (if IsValidResult(results[|results| - 1]) then [results[|results| - 1]] else []))
  }

  predicate AllValid(s: seq<JsValue>) {
    forall i :: 0 <= i < |s| ==> IsValidResult(s[i])
  }

  predicate SortedByScore(s: seq<JsValue>) {
    forall i, j :: 0 <= i < j < |s| ==> ScoreLe(ScoreOf(s[i]), ScoreOf(s[j]))
  }

  /** Inserts x after every element whose score does not exceed x's (a stable insertion step). */
  function Insert(s: seq<JsValue>, x: JsValue): (r: seq<JsValue>)
    ensures |r| == |s| + 1
  {
    if s == [] then [x]
    else if ScoreLe(ScoreOf(s[|s| - 1]), ScoreOf(x)) then s + [x]
    else Insert(s[..|s| - 1], x) + [s[|s| - 1]]
  }

  /** Ascending stable sort by score, as `Array.prototype.sort` with the comparator `a - b`. */
  function SortByScore(s: seq<JsValue>): (r: seq<JsValue>)
    ensures |r| == |s|
  {
    if s == [] then [] else Insert(SortByScore(s[..|s| - 1]), s[|s| - 1])
  }

  /** The representative result: `None` for no results or no valid results, otherwise
      element floor(n / 2) of the valid results sorted by score. */
  function MedianAuditResult(results: seq<JsValue>): Option<JsValue> {
    if |results| == 0 then None
    else
      var valid := ValidResults(results);
      if |valid| == 0 then None
      else Some(SortByScore(valid)[|valid| / 2])
  }

  /** Number of elements scoring strictly below k. */
  function CountBelow(s: seq<JsValue>, k: Number): (c: nat)
    ensures c <= |s|
  {
    if s == [] then 0
    else CountBelow(s[..|s| - 1], k) + (if ScoreLt(ScoreOf(s[|s| - 1]), k) then 1 else 0)
  }

  /** Number of elements scoring strictly above k. */
  function CountAbove(s: seq<JsValue>, k: Number): (c: nat)
    ensures c <= |s|
  {
    if s == [] then 0
    else CountAbove(s[..|s| - 1], k) + (if ScoreLt(k, ScoreOf(s[|s| - 1])) then 1 else 0)
  }

  // ---------------------------------------------------------------------------------------
  // Sorting lemmas.

  lemma ValidScoresAreNumbers(r: JsValue)
    requires IsValidResult(r)
    ensures !ScoreOf(r).NaN?
  {
  }

  /** On scores other than NaN the order is total. */
  lemma ScoreLeTotal(a: Number, b: Number)
    requires !a.NaN? && !b.NaN?
    ensures ScoreLe(a, b) || ScoreLe(b, a)
  {
  }

  lemma {:induction false} InsertPermutes(s: seq<JsValue>, x: JsValue)
    ensures multiset(Insert(s, x)) == multiset(s) + multiset{x}
  {
    if s != [] && !ScoreLe(ScoreOf(s[|s| - 1]), ScoreOf(x)) {
      var prefix := s[..|s| - 1];
      InsertPermutes(prefix, x);
      assert s == prefix + [s[|s| - 1]];
    }
  }

  /** The sorted list is a permutation of its input. */
  lemma {:induction false} SortPermutes(s: seq<JsValue>)
    ensures multiset(SortByScore(s)) == multiset(s)
  {
    if s != [] {
      var prefix := s[..|s| - 1];
      SortPermutes(prefix);
      InsertPermutes(SortByScore(prefix), s[|s| - 1]);
      assert s == prefix + [s[|s| - 1]];
    }
  }

  /** A sorted list stays sorted when an element scoring at least as high as all of it is appended. */
  lemma SortedAppend(r: seq<JsValue>, y: JsValue)
    requires SortedByScore(r)
    requires forall i :: 0 <= i < |r| ==> ScoreLe(ScoreOf(r[i]), ScoreOf(y))
    ensures SortedByScore(r + [y])
  {
  }

  /** Every element of `Insert(s, x)` is one of s or x itself. */
  lemma InsertFrom(s: seq<JsValue>, x: JsValue, i: nat)
    requires i < |Insert(s, x)|
    ensures Insert(s, x)[i] == x || Insert(s, x)[i] in s
  {
    InsertPermutes(s, x);
    assert Insert(s, x)[i] in multiset(Insert(s, x));
  }

  lemma {:induction false} InsertSorted(s: seq<JsValue>, x: JsValue)
    requires SortedByScore(s) && AllValid(s) && IsValidResult(x)
    ensures SortedByScore(Insert(s, x))
  {
    if s != [] {
      var last := s[|s| - 1];
      var prefix := s[..|s| - 1];
      ScoreLeTotal(ScoreOf(last), ScoreOf(x));
      if ScoreLe(ScoreOf(last), ScoreOf(x)) {
        SortedAppend(s, x);
      } else {
        InsertSorted(prefix, x);
        var r := Insert(prefix, x);
        forall i | 0 <= i < |r|
          ensures ScoreLe(ScoreOf(r[i]), ScoreOf(last))
        {
          InsertFrom(prefix, x, i);
        }
        SortedAppend(r, last);
      }
    }
  }

  lemma {:induction false} InsertValid(s: seq<JsValue>, x: JsValue)
    requires AllValid(s) && IsValidResult(x)
    ensures AllValid(Insert(s, x))
  {
    var r := Insert(s, x);
    forall i | 0 <= i < |r|
      ensures IsValidResult(r[i])
    {
      InsertFrom(s, x, i);
    }
  }

  /** Sorting a list of valid results yields a list ordered ascending by score. */
  lemma {:induction false} SortSorted(s: seq<JsValue>)
    requires AllValid(s)
    ensures SortedByScore(SortByScore(s)) && AllValid(SortByScore(s))
  {
    if s != [] {
      var prefix := s[..|s| - 1];
      SortSorted(prefix);
      InsertSorted(SortByScore(prefix), s[|s| - 1]);
      InsertValid(SortByScore(prefix), s[|s| - 1]);
    }
  }

  lemma {:induction false} InsertCountBelow(s: seq<JsValue>, x: JsValue, k: Number)
    ensures CountBelow(Insert(s, x), k) == CountBelow(s, k) + (if ScoreLt(ScoreOf(x), k) then 1 else 0)
  {
    if s == [] {
    } else if ScoreLe(ScoreOf(s[|s| - 1]), ScoreOf(x)) {
      var r := s + [x];
      assert r[..|r| - 1] == s;
    } else {
      var prefix := s[..|s| - 1];
      var last := s[|s| - 1];
      InsertCountBelow(prefix, x, k);
      var r := Insert(prefix, x) + [last];
      assert r[..|r| - 1] == Insert(prefix, x);
      assert CountBelow(r, k) == CountBelow(Insert(prefix, x), k) + (if ScoreLt(ScoreOf(last), k) then 1 else 0);
      assert CountBelow(s, k) == CountBelow(prefix, k) + (if ScoreLt(ScoreOf(last), k) then 1 else 0);
    }
  }

  lemma {:induction false} InsertCountAbove(s: seq<JsValue>, x: JsValue, k: Number)
    ensures CountAbove(Insert(s, x), k) == CountAbove(s, k) + (if ScoreLt(k, ScoreOf(x)) then 1 else 0)
  {
    if s == [] {
    } else if ScoreLe(ScoreOf(s[|s| - 1]), ScoreOf(x)) {
      var r := s + [x];
      assert r[..|r| - 1] == s;
    } else {
      var prefix := s[..|s| - 1];
      var last := s[|s| - 1];
      InsertCountAbove(prefix, x, k);
      var r := Insert(prefix, x) + [last];
      assert r[..|r| - 1] == Insert(prefix, x);
      assert CountAbove(r, k) == CountAbove(Insert(prefix, x), k) + (if ScoreLt(k, ScoreOf(last)) then 1 else 0);
      assert CountAbove(s, k) == CountAbove(prefix, k) + (if ScoreLt(k, ScoreOf(last)) then 1 else 0);
    }
  }

  /** Sorting changes no count of scores below or above a threshold. */
  lemma {:induction false} SortCounts(s: seq<JsValue>, k: Number)
    ensures CountBelow(SortByScore(s), k) == CountBelow(s, k)
    ensures CountAbove(SortByScore(s), k) == CountAbove(s, k)
  {
    if s != [] {
      var prefix := s[..|s| - 1];
      SortCounts(prefix, k);
      InsertCountBelow(SortByScore(prefix), s[|s| - 1], k);
      InsertCountAbove(SortByScore(prefix), s[|s| - 1], k);
    }
  }

  /** In a sorted list, no element before m scores above it and none after it scores below. */
  lemma SortedAround(s: seq<JsValue>, m: nat, i: nat)
    requires SortedByScore(s) && AllValid(s) && m < |s| && i < |s|
    ensures i <= m ==> !ScoreLt(ScoreOf(s[m]), ScoreOf(s[i]))
    ensures i >= m ==> !ScoreLt(ScoreOf(s[i]), ScoreOf(s[m]))
  {
    if i < m {
      assert ScoreLe(ScoreOf(s[i]), ScoreOf(s[m]));
    } else if i > m {
      assert ScoreLe(ScoreOf(s[m]), ScoreOf(s[i]));
    }
  }

  /** In a sorted list, at most m elements score strictly below the element at m. */
  lemma {:induction false} SortedCountBelow(s: seq<JsValue>, m: nat, j: nat)
    requires SortedByScore(s) && AllValid(s) && m < |s| && j <= |s|
    ensures CountBelow(s[..j], ScoreOf(s[m])) <= if j <= m then j else m
  {
    if j > 0 {
      var k := ScoreOf(s[m]);
      SortedCountBelow(s, m, j - 1);
      assert s[..j][..j - 1] == s[..j - 1];
      SortedAround(s, m, j - 1);
    }
  }

  /** Counting above k over one more element of s. */
  lemma CountAbovePrefix(s: seq<JsValue>, j: nat, k: Number)
    requires 0 < j <= |s|
    ensures CountAbove(s[..j], k) == CountAbove(s[..j - 1], k) + (if ScoreLt(k, ScoreOf(s[j - 1])) then 1 else 0)
  {
    assert s[..j][..j - 1] == s[..j - 1];
  }

  /** When none of the first m + 1 elements scores above k, at most j - m - 1 of the first j do. */
  lemma {:induction false} CountAboveAfter(s: seq<JsValue>, m: nat, j: nat, k: Number)
    requires j <= |s|
    requires forall i :: 0 <= i <= m && i < j ==> !ScoreLt(k, ScoreOf(s[i]))
    ensures CountAbove(s[..j], k) <= if j <= m + 1 then 0 else j - m - 1
  {
    if j > 0 {
      CountAboveAfter(s, m, j - 1, k);
      CountAbovePrefix(s, j, k);
    }
  }

  /** In a sorted list, at most |s| - m - 1 elements score strictly above the element at m. */
  lemma SortedCountAbove(s: seq<JsValue>, m: nat, j: nat)
    requires SortedByScore(s) && AllValid(s) && m < |s| && j <= |s|
    ensures CountAbove(s[..j], ScoreOf(s[m])) <= if j <= m + 1 then 0 else j - m - 1
  {
    forall i | 0 <= i <= m && i < j
      ensures !ScoreLt(ScoreOf(s[m]), ScoreOf(s[i]))
    {
      SortedAround(s, m, i);
    }
    CountAboveAfter(s, m, j, ScoreOf(s[m]));
  }

  // ---------------------------------------------------------------------------------------
  // The selection.

  /** No representative exactly when there is no valid result (which covers no result). */
  lemma MedianNoneIff(results: seq<JsValue>)
    ensures MedianAuditResult(results).None? <==> forall r :: r in results ==> !IsValidResult(r)
  {
    var valid := ValidResults(results);
    if |valid| == 0 {
      assert forall r :: r in results ==> !IsValidResult(r);
    } else {
      assert valid[0] in valid;
    }
  }

  /** The representative is one of the results, and a valid one: an invalid result is never chosen. */
  lemma MedianIsValidMember(results: seq<JsValue>)
    requires MedianAuditResult(results).Some?
    ensures MedianAuditResult(results).value in results
    ensures IsValidResult(MedianAuditResult(results).value)
  {
    var valid := ValidResults(results);
    var sorted := SortByScore(valid);
    SortPermutes(valid);
    assert sorted[|valid| / 2] in multiset(sorted);
  }

  /** Among the n valid results, at most floor(n / 2) score strictly below the representative
      and at most n - floor(n / 2) - 1 strictly above it. */
  lemma MedianRank(results: seq<JsValue>)
    requires MedianAuditResult(results).Some?
    ensures var valid := ValidResults(results);
      var k := ScoreOf(MedianAuditResult(results).value);
      && CountBelow(valid, k) <= |valid| / 2
      && CountAbove(valid, k) <= |valid| - |valid| / 2 - 1
  {
    var valid := ValidResults(results);
    var sorted := SortByScore(valid);
    var m := |valid| / 2;
    assert AllValid(valid) by {
      forall i | 0 <= i < |valid|
        ensures IsValidResult(valid[i])
      {
        assert valid[i] in valid;
      }
    }
    SortSorted(valid);
    SortCounts(valid, ScoreOf(sorted[m]));
    SortedCountBelow(sorted, m, |sorted|);
    SortedCountAbove(sorted, m, |sorted|);
    assert sorted[..|sorted|] == sorted;
  }

  /** The representative's score is the floor(n / 2)-th smallest, and the list it comes from
      is the sorted permutation of the valid results. */
  lemma MedianFromSortedValid(results: seq<JsValue>)
    requires MedianAuditResult(results).Some?
    ensures var valid := ValidResults(results);
      var sorted := SortByScore(valid);
      && multiset(sorted) == multiset(valid)
      && SortedByScore(sorted)
      && MedianAuditResult(results).value == sorted[|valid| / 2]
  {
    var valid := ValidResults(results);
    SortPermutes(valid);
    assert AllValid(valid) by {
      forall i | 0 <= i < |valid|
        ensures IsValidResult(valid[i])
      {
        assert valid[i] in valid;
      }
    }
    SortSorted(valid);
  }
}
