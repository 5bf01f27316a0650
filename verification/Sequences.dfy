/** Outcome datatypes and the few facts about sequences that several modules share. */
module Sequences {

  datatype Option<+T> = None | Some(value: T)

  datatype Result<+T, +E> = Ok(value: T) | Err(error: E)

  function Concat<T>(parts: seq<seq<T>>): seq<T> {
    if parts == [] then [] else parts[0] + Concat(parts[1..])
  }

  function Filter<T>(keep: T -> bool, s: seq<T>): seq<T> {
    if s == [] then []
    else if keep(s[0]) then [s[0]] + Filter(keep, s[1..])
    else Filter(keep, s[1..])
  }

  function Map<A, B>(f: A -> B, s: seq<A>): (r: seq<B>)
    ensures |r| == |s| && forall i :: 0 <= i < |s| ==> r[i] == f(s[i])
  {
    if s == [] then [] else [f(s[0])] + Map(f, s[1..])
  }

  lemma Assoc<T>(a: seq<T>, b: seq<T>, c: seq<T>)
    ensures a + b + c == a + (b + c)
  {}

  lemma Behind<T>(x: T, s: seq<T>)
    ensures ([x] + s)[0] == x && ([x] + s)[1..] == s
  {}

  lemma {:induction false} FilterCount<T>(keep: T -> bool, s: seq<T>, x: T)
    ensures multiset(Filter(keep, s))[x] == if keep(x) then multiset(s)[x] else 0
  {
    if s != [] {
      FilterCount(keep, s[1..], x);
      assert s == [s[0]] + s[1..];
    }
  }

  lemma {:induction false} FilterConcat<T>(keep: T -> bool, a: seq<T>, b: seq<T>)
    ensures Filter(keep, a + b) == Filter(keep, a) + Filter(keep, b)
  {
    if a == [] {
      assert a + b == b;
    } else {
      assert (a + b)[1..] == a[1..] + b;
      FilterConcat(keep, a[1..], b);
    }
  }

  /** A longer list keeps one more when its last element is kept. */
  lemma FilterLast<T>(keep: T -> bool, s: seq<T>)
    requires s != []
    ensures |Filter(keep, s)| == |Filter(keep, s[..|s| - 1])| + if keep(s[|s| - 1]) then 1 else 0
  {
    var rest, last := s[..|s| - 1], [s[|s| - 1]];
    assert s == rest + last;
    FilterConcat(keep, rest, last);
  }

  lemma {:induction false} FilterMonotone<T>(p: T -> bool, q: T -> bool, s: seq<T>)
    requires forall x :: x in s && p(x) ==> q(x)
    ensures |Filter(p, s)| <= |Filter(q, s)|
  {
    if s != [] {
      assert forall x :: x in s[1..] ==> x in s;
      FilterMonotone(p, q, s[1..]);
    }
  }

  lemma FilterTakenOut<T>(keep: T -> bool, b: seq<T>, i: nat)
    requires i < |b|
    ensures multiset(Filter(keep, b))
         == multiset(Filter(keep, [b[i]])) + multiset(Filter(keep, b[..i] + b[i + 1..]))
  {
    var low, high := b[..i], b[i + 1..];
    Reassembled(b, i);
    FilterConcat(keep, low, high);
    FilterConcat(keep, low, [b[i]] + high);
    FilterConcat(keep, [b[i]], high);
  }

  /** Filtering commutes with any reordering of its input. */
  lemma {:induction false} FilterPermutation<T>(keep: T -> bool, a: seq<T>, b: seq<T>)
    requires multiset(a) == multiset(b)
    ensures multiset(Filter(keep, a)) == multiset(Filter(keep, b))
  {
    if a == [] {
      PermutationFacts(a, b);
    } else {
      var i := TakeHead(a, b);
      FilterPermutation(keep, a[1..], b[..i] + b[i + 1..]);
      FilterTakenOut(keep, b, i);
    }
  }

  lemma MapConcat<A, B>(f: A -> B, a: seq<A>, b: seq<A>)
    ensures Map(f, a + b) == Map(f, a) + Map(f, b)
  {}

  lemma MapMiddle<A, B>(f: A -> B, low: seq<A>, one: seq<A>, high: seq<A>)
    ensures multiset(Map(f, low + (one + high))) == multiset(Map(f, one)) + multiset(Map(f, low + high))
  {
    MapConcat(f, low, high);
    MapConcat(f, low, one + high);
    MapConcat(f, one, high);
  }

  lemma MapTakenOut<A, B>(f: A -> B, b: seq<A>, i: nat)
    requires i < |b|
    ensures multiset(Map(f, b)) == multiset(Map(f, [b[i]])) + multiset(Map(f, b[..i] + b[i + 1..]))
  {
    Reassembled(b, i);
    MapMiddle(f, b[..i], [b[i]], b[i + 1..]);
  }

  lemma Reassembled<T>(s: seq<T>, i: nat)
    requires i < |s|
    ensures s == s[..i] + ([s[i]] + s[i + 1..])
  {}

  /** So does mapping. */
  lemma {:induction false} MapPermutation<A, B>(f: A -> B, a: seq<A>, b: seq<A>)
    requires multiset(a) == multiset(b)
    ensures multiset(Map(f, a)) == multiset(Map(f, b))
  {
    if a == [] {
      PermutationFacts(a, b);
    } else {
      var i := TakeHead(a, b);
      MapPermutation(f, a[1..], b[..i] + b[i + 1..]);
      MapTakenOut(f, b, i);
    }
  }

  lemma MultisetSplit<T>(s: seq<T>, i: nat)
    requires i < |s|
    ensures multiset(s[..i] + s[i + 1..]) == multiset(s) - multiset{s[i]}
    ensures s == s[..i] + [s[i]] + s[i + 1..]
  {
    assert s == s[..i] + [s[i]] + s[i + 1..];
  }

  /** The head of a list, found and taken out of any reordering of that list. */
  lemma TakeHead<T>(a: seq<T>, b: seq<T>) returns (i: nat)
    requires multiset(a) == multiset(b) && a != []
    ensures i < |b| && b[i] == a[0]
    ensures multiset(a[1..]) == multiset(b[..i] + b[i + 1..])
    ensures b == b[..i] + [a[0]] + b[i + 1..]
  {
    assert a[0] in multiset(a);
    assert a[0] in b;
    i :| 0 <= i < |b| && b[i] == a[0];
    MultisetSplit(b, i);
    assert a == [a[0]] + a[1..];
  }

  /** Equal multisets of values mean equal membership and length. */
  lemma PermutationFacts<T>(s: seq<T>, t: seq<T>)
    requires multiset(s) == multiset(t)
    ensures |s| == |t|
    ensures forall x :: x in s <==> x in t
  {
    assert |multiset(s)| == |s| && |multiset(t)| == |t|;
    forall x ensures x in s <==> x in t {
      assert x in s <==> x in multiset(s);
      assert x in t <==> x in multiset(t);
    }
  }

  /** Lists with the same elements and the same head have tails with the same elements. */
  lemma SameTails<T>(a: seq<T>, b: seq<T>)
    requires multiset(a) == multiset(b) && a != [] && b != [] && a[0] == b[0]
    ensures multiset(a[1..]) == multiset(b[1..])
  {
    assert a == [a[0]] + a[1..] && b == [b[0]] + b[1..];
    assert multiset(a[1..]) == multiset(a) - multiset{a[0]};
    assert multiset(b[1..]) == multiset(b) - multiset{b[0]};
  }

  lemma {:induction false} FilterMembers<T>(keep: T -> bool, s: seq<T>, x: T)
    ensures x in Filter(keep, s) <==> x in s && keep(x)
  {
    if s != [] { FilterMembers(keep, s[1..], x); }
  }
}
