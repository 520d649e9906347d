/**
 * Java's `String.compareTo` order and the stable sort a stream's `sorted`
 * performs with a comparator on one string key.
 */
module Sorting {

  /** `a.compareTo(b) <= 0`: character by character, a prefix first. */
  predicate LessEq(a: string, b: string)
  {
    |a| == 0 || (|b| > 0 && (a[0] < b[0] || (a[0] == b[0] && LessEq(a[1..], b[1..]))))
  }

  lemma {:induction false} LessEqTotal(a: string, b: string)
    ensures LessEq(a, b) || LessEq(b, a)
  {
    if |a| > 0 && |b| > 0 && a[0] == b[0] {
      LessEqTotal(a[1..], b[1..]);
    }
  }

  /** Every element's key is at most the next one's. */
  predicate SortedBy<T>(xs: seq<T>, key: T -> string)
  {
    forall i :: 0 < i < |xs| ==> LessEq(key(xs[i - 1]), key(xs[i]))
  }

  /** Puts `x` after every element whose key is at most its own, counting from the end. */
  function Insert<T>(sorted: seq<T>, x: T, key: T -> string): (r: seq<T>)
    requires SortedBy(sorted, key)
    ensures SortedBy(r, key)
    ensures multiset(r) == multiset(sorted) + multiset{x}
    ensures |r| == |sorted| + 1
    ensures r[|r| - 1] == x || (|sorted| > 0 && r[|r| - 1] == sorted[|sorted| - 1])
    decreases |sorted|
  {
    if |sorted| == 0 then [x]
    else
      var last := sorted[|sorted| - 1];
      if LessEq(key(last), key(x)) then sorted + [x]
      else
        var init := sorted[..|sorted| - 1];
        assert sorted == init + [last];
        LessEqTotal(key(last), key(x));
        var r := Insert(init, x, key) + [last];
        r
  }

  /** Stable insertion sort by `key`. */
  function SortBy<T>(xs: seq<T>, key: T -> string): (r: seq<T>)
    ensures SortedBy(r, key)
    ensures multiset(r) == multiset(xs)
    decreases |xs|
  {
    if |xs| == 0 then []
    else
      assert xs == xs[..|xs| - 1] + [xs[|xs| - 1]];
      Insert(SortBy(xs[..|xs| - 1], key), xs[|xs| - 1], key)
  }

  /** The sorted list holds exactly the elements of the input. */
  lemma SortByMembers<T>(xs: seq<T>, key: T -> string, x: T)
    ensures x in SortBy(xs, key) <==> x in xs
  {
    var r := SortBy(xs, key);
    assert x in r <==> x in multiset(r);
    assert x in xs <==> x in multiset(xs);
  }
}
