/** Generic operations on rows: finding the first match (a unique lookup),
    summing a field (`reduce` from 0), keeping the rows that satisfy a
    condition (a `where` clause) and ordering them by a key (an `orderBy`). */
module Sequences {
  import opened Common

  /** The index of the first element of `s` that satisfies `p`, if any. */
  function FirstIndex<T>(s: seq<T>, p: T -> bool): (r: Option<nat>)
    ensures r.Some? ==> r.value < |s| && p(s[r.value])
    ensures r.Some? ==> forall k :: 0 <= k < r.value ==> !p(s[k])
    ensures r.None? <==> forall k :: 0 <= k < |s| ==> !p(s[k])
  {
    if |s| == 0 then None
    else if p(s[0]) then Some(0)
    else match FirstIndex(s[1..], p)
      case None => None
      case Some(i) => Some(i + 1)
  }

  /** `s.reduce((sum, x) => sum + f(x), 0)`: a left fold from 0. */
  function SumBy<T>(s: seq<T>, f: T -> int): int {
    if s == [] then 0 else SumBy(s[..|s| - 1], f) + f(s[|s| - 1])
  }

  lemma {:induction false} SumByAppend<T>(a: seq<T>, b: seq<T>, f: T -> int)
    ensures SumBy(a + b, f) == SumBy(a, f) + SumBy(b, f)
    decreases |b|
  {
    if b == [] {
      assert a + b == a;
    } else {
      assert (a + b)[..|a + b| - 1] == a + b[..|b| - 1];
      SumByAppend(a, b[..|b| - 1], f);
    }
  }

  /** The order of the summands does not matter: rearranging the rows leaves
      the sum unchanged. */
  lemma {:induction false} SumByPermutation<T>(s: seq<T>, t: seq<T>, f: T -> int)
    requires multiset(s) == multiset(t)
    ensures SumBy(s, f) == SumBy(t, f)
    decreases |s|
  {
    if s == [] {
      assert |t| == |multiset(t)| == 0;
    } else {
      var n := |s| - 1;
      var x := s[n];
      assert s == s[..n] + [x];
      assert x in multiset(t);
      var j :| 0 <= j < |t| && t[j] == x;
      assert t == t[..j] + [x] + t[j + 1..];
      var rest := t[..j] + t[j + 1..];
      assert multiset(s[..n]) == multiset(rest) by {
        assert multiset(s) == multiset(s[..n]) + multiset([x]);
        assert multiset(t) == multiset(t[..j] + [x]) + multiset(t[j + 1..]);
        assert multiset(t[..j] + [x]) == multiset(t[..j]) + multiset([x]);
        assert multiset(rest) == multiset(t[..j]) + multiset(t[j + 1..]);
        forall y
          ensures multiset(s[..n])[y] == multiset(rest)[y]
        {
          assert multiset(s)[y] == multiset(t)[y];
        }
      }
      SumByPermutation(s[..n], rest, f);
      SumByAppend(t[..j] + [x], t[j + 1..], f);
      SumByAppend(t[..j], [x], f);
      SumByAppend(t[..j], t[j + 1..], f);
      assert SumBy([x], f) == f(x) by {
        assert [x][..0] == [];
      }
    }
  }

  /** Replacing one row changes the sum by the difference of the two summands. */
  lemma SumByUpdate<T>(s: seq<T>, i: nat, v: T, f: T -> int)
    requires i < |s|
    ensures SumBy(s[i := v], f) == SumBy(s, f) - f(s[i]) + f(v)
  {
    assert s == s[..i] + [s[i]] + s[i + 1..];
    assert s[i := v] == s[..i] + [v] + s[i + 1..];
    SumByAppend(s[..i] + [s[i]], s[i + 1..], f);
    SumByAppend(s[..i], [s[i]], f);
    SumByAppend(s[..i] + [v], s[i + 1..], f);
    SumByAppend(s[..i], [v], f);
    assert [v][..0] == [] && [s[i]][..0] == [];
  }

  /** Two row sets whose rows agree pairwise on the summed field have equal sums. */
  lemma {:induction false} SumByPointwise<T, U>(s: seq<T>, f: T -> int, t: seq<U>, g: U -> int)
    requires |s| == |t|
    requires forall k :: 0 <= k < |s| ==> f(s[k]) == g(t[k])
    ensures SumBy(s, f) == SumBy(t, g)
    decreases |s|
  {
    if s != [] {
      SumByPointwise(s[..|s| - 1], f, t[..|t| - 1], g);
    }
  }

  /** The rows of `s` that satisfy `p`, in their original order. */
  function Filter<T(!new)>(s: seq<T>, p: T -> bool): (r: seq<T>)
    ensures forall x :: multiset(r)[x] == if p(x) then multiset(s)[x] else 0
    ensures forall k :: 0 <= k < |r| ==> p(r[k])
  {
    if s == [] then []
    else
      assert s == [s[0]] + s[1..];
      if p(s[0]) then [s[0]] + Filter(s[1..], p) else Filter(s[1..], p)
  }

  predicate SortedBy<T>(s: seq<T>, key: T -> int) {
    forall i, j :: 0 <= i < j < |s| ==> key(s[i]) <= key(s[j])
  }

  function Insert<T>(x: T, s: seq<T>, key: T -> int): (r: seq<T>)
    requires SortedBy(s, key)
    ensures SortedBy(r, key)
    ensures multiset(r) == multiset(s) + multiset{x}
    ensures r[0] == x || (s != [] && r[0] == s[0])
  {
    if s == [] || key(x) <= key(s[0]) then [x] + s
    else
      assert s == [s[0]] + s[1..];
      var rest := Insert(x, s[1..], key);
      assert key(s[0]) <= key(rest[0]);
      [s[0]] + rest
  }

  /** The rows of `s` in ascending order of `key` (an insertion sort). */
  function SortBy<T>(s: seq<T>, key: T -> int): (r: seq<T>)
    ensures SortedBy(r, key)
    ensures multiset(r) == multiset(s)
  {
    if s == [] then []
    else
      assert s == [s[0]] + s[1..];
      Insert(s[0], SortBy(s[1..], key), key)
  }

  /** What sorting the kept rows contains: exactly the rows of `s` that satisfy
      `p`, each as often as in `s`. */
  lemma SortedFilterMembers<T(!new)>(s: seq<T>, p: T -> bool, key: T -> int, x: T)
    ensures x in SortBy(Filter(s, p), key) <==> x in s && p(x)
  {
    var r := SortBy(Filter(s, p), key);
    assert x in r <==> multiset(r)[x] > 0;
    assert x in s <==> multiset(s)[x] > 0;
  }
}
