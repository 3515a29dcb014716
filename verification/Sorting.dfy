/** Sorting a slice by a string key. Only "a sorted permutation" is promised, as
    for an unstable library sort, so canonical order has to come from elsewhere:
    the rejection of duplicate keys. */
module Sorting {
  import opened Common

  ghost predicate SortedBy<T(!new)>(xs: seq<T>, key: T -> string) {
    forall i, j :: 0 <= i < j < |xs| ==> !StrLess(key(xs[j]), key(xs[i]))
  }

  ghost predicate DistinctBy<T(!new)>(xs: seq<T>, key: T -> string) {
    forall i, j :: 0 <= i < j < |xs| ==> key(xs[i]) != key(xs[j])
  }

  ghost predicate SameElements<T(!new)>(xs: seq<T>, ys: seq<T>) {
    multiset(xs) == multiset(ys)
  }

  /** No two neighbours share a key: the test the validation loops perform. */
  ghost predicate NeighboursDiffer<T(!new)>(xs: seq<T>, key: T -> string) {
    forall i :: 0 < i < |xs| ==> key(xs[i - 1]) != key(xs[i])
  }

  lemma NeighboursSuffice<T(!new)>(xs: seq<T>, key: T -> string)
    requires SortedBy(xs, key)
    ensures NeighboursDiffer(xs, key) <==> DistinctBy(xs, key)
  {
    if NeighboursDiffer(xs, key) {
      forall i, j | 0 <= i < j < |xs| ensures key(xs[i]) != key(xs[j]) {
        StrLessTotal(key(xs[i]), key(xs[i + 1]));
        assert !StrLess(key(xs[i + 1]), key(xs[i]));
        assert key(xs[(i + 1) - 1]) != key(xs[i + 1]);
        StrLessTotal(key(xs[i + 1]), key(xs[j]));
      }
    }
  }

  lemma DropFirst<T(!new)>(xs: seq<T>)
    requires xs != []
    ensures multiset(xs) == multiset{xs[0]} + multiset(xs[1..])
  {
    assert xs == [xs[0]] + xs[1..];
  }

  /** Duplicate keys are a property of the elements, not of their order. */
  lemma {:induction false} DistinctIsOrderFree<T(!new)>(xs: seq<T>, ys: seq<T>, key: T -> string)
    requires SameElements(xs, ys) && DistinctBy(xs, key)
    ensures DistinctBy(ys, key)
  {
    forall i, j | 0 <= i < j < |ys| ensures key(ys[i]) != key(ys[j]) {
      if key(ys[i]) == key(ys[j]) {
        assert ys[i] in multiset(xs) && ys[j] in multiset(xs);
        var k :| 0 <= k < |xs| && xs[k] == ys[i];
        var l :| 0 <= l < |xs| && xs[l] == ys[j];
        assert k == l;
        TwiceInMultiset(ys, i, j);
        OnceInMultiset(xs, k, key);
        assert false;
      }
    }
  }

  lemma TwiceInMultiset<T(!new)>(ys: seq<T>, i: nat, j: nat)
    requires i < j < |ys| && ys[i] == ys[j]
    ensures multiset(ys)[ys[i]] >= 2
  {
    assert ys == ys[..j] + [ys[j]] + ys[j + 1..];
    assert ys[..j][i] in multiset(ys[..j]);
  }

  lemma OnceInMultiset<T(!new)>(xs: seq<T>, k: nat, key: T -> string)
    requires k < |xs| && DistinctBy(xs, key)
    ensures multiset(xs)[xs[k]] == 1
  {
    assert xs == xs[..k] + [xs[k]] + xs[k + 1..];
    assert xs[k] !in xs[..k];
    assert xs[k] !in xs[k + 1..];
  }

  lemma FirstsAgree<T(!new)>(xs: seq<T>, ys: seq<T>, key: T -> string)
    requires SameElements(xs, ys) && SortedBy(xs, key) && SortedBy(ys, key) && DistinctBy(xs, key)
    requires xs != [] && ys != []
    ensures xs[0] == ys[0]
  {
    assert xs[0] in multiset(ys) && ys[0] in multiset(xs);
    var k :| 0 <= k < |ys| && ys[k] == xs[0];
    var l :| 0 <= l < |xs| && xs[l] == ys[0];
    StrLessTotal(key(xs[0]), key(ys[0]));
  }

  /** With distinct keys there is exactly one sorted arrangement, whatever the
      sort does with ties. */
  lemma {:induction false} SortedUnique<T(!new)>(xs: seq<T>, ys: seq<T>, key: T -> string)
    requires SameElements(xs, ys) && SortedBy(xs, key) && SortedBy(ys, key) && DistinctBy(xs, key)
    ensures xs == ys
  {
    assert |xs| == |multiset(xs)| == |multiset(ys)| == |ys|;
    if xs != [] {
      FirstsAgree(xs, ys, key);
      hide StrLess;
      DropFirst(xs);
      DropFirst(ys);
      assert multiset(xs[1..]) == multiset(xs) - multiset{xs[0]};
      assert multiset(ys[1..]) == multiset(ys) - multiset{ys[0]};
      SortedUnique(xs[1..], ys[1..], key);
      assert xs == [xs[0]] + xs[1..] && ys == [ys[0]] + ys[1..];
    }
  }

  /** A reference arrangement: insertion into an already sorted sequence. */
  ghost function Insert<T(!new)>(x: T, xs: seq<T>, key: T -> string): seq<T> {
    if xs == [] || !StrLess(key(xs[0]), key(x)) then [x] + xs
    else [xs[0]] + Insert(x, xs[1..], key)
  }

  lemma {:induction false} InsertSorts<T(!new)>(x: T, xs: seq<T>, key: T -> string)
    requires SortedBy(xs, key)
    ensures SortedBy(Insert(x, xs, key), key)
    ensures multiset(Insert(x, xs, key)) == multiset{x} + multiset(xs)
  {
    var r := Insert(x, xs, key);
    if xs == [] || !StrLess(key(xs[0]), key(x)) {
      forall i, j | 0 <= i < j < |r| ensures !StrLess(key(r[j]), key(r[i])) {
        if i == 0 && StrLess(key(r[j]), key(x)) {
          if j == 1 { assert false; }
          StrLessTotal(key(xs[0]), key(x));
          assert !StrLess(key(xs[j - 1]), key(xs[0]));
          StrLessTotal(key(xs[0]), key(xs[j - 1]));
          if key(xs[0]) != key(xs[j - 1]) { StrLessTransitive(key(xs[0]), key(xs[j - 1]), key(x)); }
          assert false;
        }
      }
    } else {
      InsertSorts(x, xs[1..], key);
      DropFirst(xs);
      var rest := Insert(x, xs[1..], key);
      forall j | 0 <= j < |rest| ensures !StrLess(key(rest[j]), key(xs[0])) {
        assert rest[j] in multiset(rest);
        StrLessTotal(key(xs[0]), key(x));
        if rest[j] != x {
          assert rest[j] in multiset(xs[1..]);
          var k :| 0 <= k < |xs[1..]| && xs[1..][k] == rest[j];
          assert xs[k + 1] == rest[j];
        }
      }
    }
  }

  ghost function Arranged<T(!new)>(xs: seq<T>, key: T -> string): (r: seq<T>)
    ensures SameElements(r, xs) && SortedBy(r, key)
  {
    if xs == [] then []
    else
      var rest := Arranged(xs[1..], key);
      InsertSorts(xs[0], rest, key);
      DropFirst(xs);
      Insert(xs[0], rest, key)
  }

  ghost predicate Swapped<T(!new)>(xs: seq<T>, ys: seq<T>, i: nat) {
    0 < i < |xs| && ys == xs[i - 1 := xs[i]][i := xs[i - 1]]
  }

  lemma SwapKeepsElements<T(!new)>(xs: seq<T>, ys: seq<T>, i: nat)
    requires Swapped(xs, ys, i)
    ensures SameElements(xs, ys)
  {
    assert xs == xs[..i - 1] + [xs[i - 1], xs[i]] + xs[i + 1..];
    assert ys == xs[..i - 1] + [xs[i], xs[i - 1]] + xs[i + 1..];
  }

  lemma NotLessTransitive(a: string, b: string, c: string)
    requires !StrLess(b, a) && !StrLess(c, b)
    ensures !StrLess(c, a)
  {
    StrLessTotal(a, b);
    StrLessTotal(b, c);
    StrLessTotal(a, c);
    if StrLess(a, b) && StrLess(b, c) { StrLessTransitive(a, b, c); }
  }

  /** Sinks element `i` into the sorted prefix before it. */
  method Sink<T(!new)>(a: array<T>, i: nat, key: T -> string)
    requires i < a.Length
    requires forall p, q :: 0 <= p < q < i ==> !StrLess(key(a[q]), key(a[p]))
    modifies a
    ensures forall p, q :: 0 <= p < q <= i ==> !StrLess(key(a[q]), key(a[p]))
    ensures SameElements(a[..], old(a[..]))
  {
    var j := i;
    while j > 0 && StrLess(key(a[j]), key(a[j - 1]))
      invariant 0 <= j <= i
      invariant forall p, q :: 0 <= p < q <= i && q != j ==> !StrLess(key(a[q]), key(a[p]))
      invariant SameElements(a[..], old(a[..]))
    {
      StrLessTotal(key(a[j]), key(a[j - 1]));
      SwapBack(a, j);
      j := j - 1;
    }
    forall p | 0 <= p < j ensures !StrLess(key(a[j]), key(a[p])) {
      if p < j - 1 { NotLessTransitive(key(a[p]), key(a[j - 1]), key(a[j])); }
    }
  }

  method SwapBack<T(!new)>(a: array<T>, j: nat)
    requires 0 < j < a.Length
    modifies a
    ensures a[j - 1] == old(a[j]) && a[j] == old(a[j - 1])
    ensures forall k :: 0 <= k < a.Length && k != j && k != j - 1 ==> a[k] == old(a[k])
    ensures SameElements(a[..], old(a[..]))
  {
    ghost var before := a[..];
    a[j - 1], a[j] := a[j], a[j - 1];
    SwapKeepsElements(before, a[..], j);
  }

  /** In-place sort of a slice. Callers may rely only on the stated contract. */
  method SortSlice<T(!new)>(a: array<T>, key: T -> string)
    modifies a
    ensures SortedBy(a[..], key)
    ensures SameElements(a[..], old(a[..]))
  {
    for i := 0 to a.Length
      invariant forall p, q :: 0 <= p < q < i ==> !StrLess(key(a[q]), key(a[p]))
      invariant SameElements(a[..], old(a[..]))
    {
      Sink(a, i, key);
    }
  }

  lemma MembersAgree<T(!new)>(xs: seq<T>, ys: seq<T>)
    requires SameElements(xs, ys)
    ensures |xs| == |ys| && forall x :: x in xs <==> x in ys
  {
    assert |xs| == |multiset(xs)| == |multiset(ys)| == |ys|;
    forall x ensures x in xs <==> x in ys {
      assert x in xs <==> x in multiset(xs);
      assert x in ys <==> x in multiset(ys);
    }
  }

  /** A sorted copy; with distinct keys it is the reference arrangement. */
  method SortedCopy<T(!new)>(xs: seq<T>, key: T -> string) returns (ys: seq<T>)
    ensures SortedBy(ys, key) && SameElements(ys, xs)
    ensures DistinctBy(xs, key) <==> DistinctBy(ys, key)
    ensures DistinctBy(xs, key) ==> ys == Arranged(xs, key)
    ensures |ys| == |xs| && forall x :: x in ys <==> x in xs
  {
    var a := new T[|xs|](i requires 0 <= i < |xs| => xs[i]);
    assert a[..] == xs;
    SortSlice(a, key);
    ys := a[..];
    MembersAgree(ys, xs);
    if DistinctBy(xs, key) {
      DistinctIsOrderFree(xs, ys, key);
      SortedUnique(ys, Arranged(xs, key), key);
    }
    if DistinctBy(ys, key) { DistinctIsOrderFree(ys, xs, key); }
  }
}
