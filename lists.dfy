/** List operations written in the application as array expressions:
    the toggle `includes(x) ? filter(i => i !== x) : [...a, x]`, removal by
    index `filter((_, i) => i !== index)`, `[...new Set(a)]` and `filter`. */
module Lists {

  predicate NoDuplicates<T(==,!new)>(s: seq<T>) {
    forall i, j :: 0 <= i < j < |s| ==> s[i] != s[j]
  }

  /** `s.map(f)`. */
  function Map<A, B>(s: seq<A>, f: A -> B): (r: seq<B>)
    ensures |r| == |s| && forall i :: 0 <= i < |s| ==> r[i] == f(s[i])
  {
    if s == [] then [] else [f(s[0])] + Map(s[1..], f)
  }

  /** Mapping one more element appends its image. */
  lemma MapSnoc<A, B>(s: seq<A>, f: A -> B, i: int)
    requires 0 <= i < |s|
    ensures Map(s[..i + 1], f) == Map(s[..i], f) + [f(s[i])]
  {
  }

  /** `new Map(pairs)`: the pairs entered in order, so that a key given more
      than once keeps the value of its last pair. */
  function MapOf<K(!new), V>(pairs: seq<(K, V)>): (m: map<K, V>)
    ensures forall i :: 0 <= i < |pairs| ==> pairs[i].0 in m
    ensures forall k :: k in m ==> exists i :: 0 <= i < |pairs| && pairs[i].0 == k
  {
    if pairs == [] then map[]
    else
      var n := |pairs| - 1;
      var m := MapOf(pairs[..n]);
      assert forall i :: 0 <= i < n ==> pairs[..n][i] == pairs[i];
      m[pairs[n].0 := pairs[n].1]
  }

  /** The value of a key is that of its last pair. */
  lemma {:induction false} MapOfLastWins<K(!new), V>(pairs: seq<(K, V)>, i: int)
    requires 0 <= i < |pairs|
    requires forall j :: i < j < |pairs| ==> pairs[j].0 != pairs[i].0
    ensures MapOf(pairs)[pairs[i].0] == pairs[i].1
  {
    var n := |pairs| - 1;
    var prev := MapOf(pairs[..n]);
    assert MapOf(pairs) == prev[pairs[n].0 := pairs[n].1];
    if i < n {
      assert pairs[..n][i] == pairs[i];
      assert forall j :: i < j < n ==> pairs[..n][j] == pairs[j];
      MapOfLastWins(pairs[..n], i);
      assert pairs[n].0 != pairs[i].0;
    }
  }

  /** `s` can be obtained from `b` by deleting elements (order kept). */
  predicate IsSubsequence<T(==,!new)>(a: seq<T>, b: seq<T>)
    decreases |b|
  {
    a == [] || (b != [] && ((a[0] == b[0] && IsSubsequence(a[1..], b[1..])) || IsSubsequence(a, b[1..])))
  }

  /** `s.filter(y => y !== x)`: every occurrence of `x` removed, every other
      element kept as often as it was. */
  function RemoveAll<T(==,!new)>(s: seq<T>, x: T): (r: seq<T>)
    ensures x !in r
    ensures forall y :: y != x ==> multiset(r)[y] == multiset(s)[y]
    ensures x !in s ==> r == s
    ensures |r| <= |s|
  {
    if s == [] then []
    else
      assert s == [s[0]] + s[1..];
      if s[0] == x then RemoveAll(s[1..], x) else [s[0]] + RemoveAll(s[1..], x)
  }

  lemma {:induction false} RemoveAllAppend<T(!new)>(s: seq<T>, x: T)
    ensures RemoveAll(s + [x], x) == RemoveAll(s, x)
  {
    if s != [] {
      assert (s + [x])[1..] == s[1..] + [x];
      RemoveAllAppend(s[1..], x);
    }
  }

  lemma {:induction false} RemoveAllKeepsNoDuplicates<T(!new)>(s: seq<T>, x: T)
    requires NoDuplicates(s)
    ensures NoDuplicates(RemoveAll(s, x))
  {
    if s != [] {
      RemoveAllKeepsNoDuplicates(s[1..], x);
      var rest := RemoveAll(s[1..], x);
      if s[0] != x {
        assert s[0] !in s[1..];
        assert multiset(rest)[s[0]] == multiset(s[1..])[s[0]] == 0;
        assert s[0] !in rest;
        assert RemoveAll(s, x) == [s[0]] + rest;
      }
    }
  }

  /** The multi-select toggle: an absent item is appended at the end, a
      present item is removed everywhere; no other element changes its
      number of occurrences. */
  function Toggle<T(==,!new)>(s: seq<T>, x: T): (r: seq<T>)
    ensures x in r <==> x !in s
    ensures x !in s ==> |r| == |s| + 1 && r[..|s|] == s && r[|s|] == x
    ensures forall y :: y != x ==> multiset(r)[y] == multiset(s)[y]
  {
    if x in s then RemoveAll(s, x) else s + [x]
  }

  /** Toggling an absent item twice gives back the original list. */
  lemma {:induction false} ToggleTwiceRestores<T(!new)>(s: seq<T>, x: T)
    requires x !in s
    ensures Toggle(Toggle(s, x), x) == s
  {
    RemoveAllAppend(s, x);
  }

  /** A list without duplicates stays without duplicates under toggling. */
  lemma {:induction false} ToggleKeepsNoDuplicates<T(!new)>(s: seq<T>, x: T)
    requires NoDuplicates(s)
    ensures NoDuplicates(Toggle(s, x))
  {
    if x in s {
      RemoveAllKeepsNoDuplicates(s, x);
    }
  }

  /** `s.filter((_, i) => i !== index)`: the element at `index` removed, the
      rest in order; nothing removed for an index out of range. */
  function RemoveAt<T>(s: seq<T>, index: int): (r: seq<T>)
    ensures 0 <= index < |s| ==> r == s[..index] + s[index + 1..]
    ensures !(0 <= index < |s|) ==> r == s
  {
    if s == [] then []
    else if index == 0 then s[1..]
    else [s[0]] + RemoveAt(s[1..], index - 1)
  }

  /** `[...new Set(s)]`: each distinct element once, and exactly the
      elements of `s`. */
  function Dedup<T(==,!new)>(s: seq<T>): (r: seq<T>)
    ensures NoDuplicates(r)
    ensures forall x :: x in r <==> x in s
    ensures |r| <= |s|
    decreases |s|
  {
    if s == [] then []
    else
      var rest := RemoveAll(s[1..], s[0]);
      var r := [s[0]] + Dedup(rest);
      assert forall y :: y != s[0] ==> (y in rest <==> y in s[1..]) by {
        forall y | y != s[0] ensures y in rest <==> y in s[1..] {
          assert multiset(rest)[y] == multiset(s[1..])[y];
        }
      }
      r
  }

  /** A list that already has no duplicates is its own deduplication. */
  lemma {:induction false} DedupOfDistinct<T(!new)>(s: seq<T>)
    requires NoDuplicates(s)
    ensures Dedup(s) == s
    decreases |s|
  {
    if s != [] {
      assert s[0] !in s[1..];
      DedupOfDistinct(s[1..]);
    }
  }

  /** `s.filter(keep)`: the elements that pass, in their original order. */
  function Filter<T(==,!new)>(s: seq<T>, keep: T -> bool): (r: seq<T>)
    ensures forall i :: 0 <= i < |r| ==> keep(r[i])
    ensures forall x :: x in s && keep(x) ==> x in r
    ensures forall x :: x in r ==> x in s
    ensures IsSubsequence(r, s)
    ensures |r| <= |s|
    ensures forall x :: multiset(r)[x] == if keep(x) then multiset(s)[x] else 0
  {
    if s == [] then []
    else
      assert s == [s[0]] + s[1..];
      if keep(s[0]) then
        var rest := Filter(s[1..], keep);
        assert ([s[0]] + rest)[1..] == rest;
        assert multiset([s[0]] + rest) == multiset([s[0]]) + multiset(rest);
        [s[0]] + rest
      else
        Filter(s[1..], keep)
  }

  /** Filtering keeps everything when everything passes. */
  lemma {:induction false} FilterAllPass<T(!new)>(s: seq<T>, keep: T -> bool)
    requires forall i :: 0 <= i < |s| ==> keep(s[i])
    ensures Filter(s, keep) == s
  {
    if s != [] {
      FilterAllPass(s[1..], keep);
    }
  }
}
