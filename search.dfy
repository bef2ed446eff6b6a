/** A model of JavaScript's `Array.prototype.findIndex` on an array that is
    never mutated: the index of the first element satisfying a predicate,
    scanning from the front, or -1 when no element does. */
module ArraySearch {

  /** First index of `s` whose element satisfies `p`, or -1. */
  function FindIndex<T>(s: seq<T>, p: T -> bool): (r: int)
    ensures -1 <= r < |s|
    ensures r >= 0 ==> p(s[r]) && forall j :: 0 <= j < r ==> !p(s[j])
    ensures r == -1 <==> forall j :: 0 <= j < |s| ==> !p(s[j])
  {
    if |s| == 0 then -1
    else if p(s[0]) then 0
    else
      var k := FindIndex(s[1..], p);
      if k < 0 then -1 else k + 1
  }

  /** Reference definition scanning from the back: last index satisfying `p`, or -1. */
  function FindLastIndex<T>(s: seq<T>, p: T -> bool): (r: int)
    ensures -1 <= r < |s|
    ensures r >= 0 ==> p(s[r]) && forall j :: r < j < |s| ==> !p(s[j])
    ensures r == -1 <==> forall j :: 0 <= j < |s| ==> !p(s[j])
  {
    if |s| == 0 then -1
    else if p(s[|s| - 1]) then |s| - 1
    else FindLastIndex(s[..|s| - 1], p)
  }

  /** At most one element of `s` satisfies `p`. */
  predicate AtMostOneMatch<T>(s: seq<T>, p: T -> bool) {
    forall i, j :: 0 <= i < |s| && 0 <= j < |s| && p(s[i]) && p(s[j]) ==> i == j
  }

  /** When the match is unique, the direction of the search does not matter. */
  lemma UniqueMatchSearchOrderIrrelevant<T>(s: seq<T>, p: T -> bool)
    requires AtMostOneMatch(s, p)
    ensures FindIndex(s, p) == FindLastIndex(s, p)
  {
    var f, l := FindIndex(s, p), FindLastIndex(s, p);
    if f >= 0 {
      assert l >= 0;
      assert p(s[f]) && p(s[l]);
    }
  }

  /** With a unique match, the first-match search returns THE matching index. */
  lemma FindIndexOfUniqueMatch<T>(s: seq<T>, p: T -> bool, i: int)
    requires AtMostOneMatch(s, p)
    requires 0 <= i < |s| && p(s[i])
    ensures FindIndex(s, p) == i
  {
    var f := FindIndex(s, p);
    assert f >= 0 && p(s[f]);
  }
}
