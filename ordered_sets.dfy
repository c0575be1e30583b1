/** A JavaScript `Set` holds each value at most once and iterates in insertion
    order. It is modelled by the sequence of its values in that order, without
    duplicates; `add`, `delete`, `new Set(iterable)` and the set difference the
    resolver uses are functions over that sequence. */
module OrderedSets {

  predicate NoDups<T(==)>(s: seq<T>) {
    forall i, j :: 0 <= i < j < |s| ==> s[i] != s[j]
  }

  function Elems<T(==)>(s: seq<T>): set<T> {
    set x | x in s
  }

  /** Prepending a value adds it to the elements, and keeps a duplicate-free
      sequence duplicate-free when the value is new. */
  lemma Prepend<T>(x: T, s: seq<T>)
    ensures Elems([x] + s) == {x} + Elems(s)
    ensures NoDups(s) && x !in s ==> NoDups([x] + s)
  {
    assert forall y :: y in [x] + s <==> y == x || y in s;
    if NoDups(s) && x !in s {
      forall i, j | 0 <= i < j < |[x] + s| ensures ([x] + s)[i] != ([x] + s)[j] {
        if i > 0 { assert ([x] + s)[i] == s[i - 1]; }
        assert ([x] + s)[j] == s[j - 1];
      }
    }
  }

  lemma ElemsConcat<T>(a: seq<T>, b: seq<T>)
    ensures Elems(a + b) == Elems(a) + Elems(b)
  {
    assert forall x :: x in a + b <==> x in a || x in b;
  }

  /** `set.add(x)`: a new value goes to the end, a present one stays where it is. */
  function Add<T(==)>(s: seq<T>, x: T): (r: seq<T>)
    ensures Elems(r) == Elems(s) + {x}
    ensures NoDups(s) ==> NoDups(r)
    ensures x in s ==> r == s
    ensures x !in s ==> r == s + [x]
  {
    if x in s then s else s + [x]
  }

  /** `set.delete(x)`: the other values keep their order. */
  function Delete<T(==)>(s: seq<T>, x: T): (r: seq<T>)
    ensures Elems(r) == Elems(s) - {x}
    ensures NoDups(s) ==> NoDups(r)
    ensures x !in s ==> r == s
    decreases |s|
  {
    if s == [] then []
    else
      var rest := Delete(s[1..], x);
      assert Elems(s) == {s[0]} + Elems(s[1..]);
      assert NoDups(s) ==> s[0] !in Elems(s[1..]);
      Prepend(s[0], rest);
      if s[0] == x then rest else [s[0]] + rest
  }

  /** Deleting a value other than the first keeps the first in front. */
  lemma DeleteBehindHead<T>(y: T, s: seq<T>, x: T)
    requires y != x
    ensures Delete([y] + s, x) == [y] + Delete(s, x)
  {
    assert ([y] + s)[1..] == s;
  }

  /** Deleting the first value, when it occurs nowhere else, leaves the rest. */
  lemma DeleteHead<T>(x: T, s: seq<T>)
    requires x !in s
    ensures Delete([x] + s, x) == s
  {
    assert ([x] + s)[1..] == s;
  }

  lemma HeadAndTail<T>(a: seq<T>, b: seq<T>)
    requires a != []
    ensures a + b == [a[0]] + (a[1..] + b)
  {
    assert a == [a[0]] + a[1..];
  }

  /** Deleting the one occurrence of a value closes the gap around it. */
  lemma {:induction false} DeleteOnly<T>(a: seq<T>, x: T, b: seq<T>)
    requires x !in a && x !in b
    ensures Delete(a + [x] + b, x) == a + b
    decreases |a|
  {
    if a == [] {
      assert a + [x] + b == [x] + b;
      DeleteHead(x, b);
    } else {
      assert a + [x] + b == a + ([x] + b);
      assert a[1..] + [x] + b == a[1..] + ([x] + b);
      HeadAndTail(a, [x] + b);
      HeadAndTail(a, b);
      DeleteBehindHead(a[0], a[1..] + [x] + b, x);
      DeleteOnly(a[1..], x, b);
    }
  }

  /** `new Set(xs)`: the first occurrence of each value, in order. */
  function FromSeq<T(==)>(xs: seq<T>): (r: seq<T>)
    ensures NoDups(r)
    ensures Elems(r) == Elems(xs)
    decreases |xs|
  {
    if xs == [] then []
    else
      var n := |xs| - 1;
      assert xs == xs[..n] + [xs[n]];
      assert Elems(xs) == Elems(xs[..n]) + {xs[n]};
      Add(FromSeq(xs[..n]), xs[n])
  }

  /** Building a set from a list without duplicates keeps the list as it is. */
  lemma {:induction false} FromSeqOfNoDups<T>(xs: seq<T>)
    requires NoDups(xs)
    ensures FromSeq(xs) == xs
    decreases |xs|
  {
    if xs != [] {
      var n := |xs| - 1;
      assert NoDups(xs[..n]);
      FromSeqOfNoDups(xs[..n]);
      assert xs[n] !in xs[..n];
      assert xs == xs[..n] + [xs[n]];
    }
  }

  /** The values of `s` that are not in `t`, in the order of `s`
      (the iteration order of the source's `getSetDifference`). */
  function Difference<T(==)>(s: seq<T>, t: set<T>): (r: seq<T>)
    ensures Elems(r) == Elems(s) - t
    ensures NoDups(s) ==> NoDups(r)
    decreases |s|
  {
    if s == [] then []
    else
      var rest := Difference(s[1..], t);
      assert Elems(s) == {s[0]} + Elems(s[1..]);
      assert NoDups(s) ==> s[0] !in Elems(s[1..]);
      Prepend(s[0], rest);
      if s[0] in t then rest else [s[0]] + rest
  }
}
