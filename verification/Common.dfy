/** Datatypes and small theories shared by the component models. */

module Wrappers {
  datatype Option<+T> = None | Some(value: T)

  datatype Result<+T> = Ok(value: T) | Err
}

/** float64 without rounding: the three special values keep IEEE comparison rules,
    so every comparison with a NaN is false. */
module Floats {
  datatype Float = NaN | NegInf | PosInf | Finite(value: real)

  const ZERO := Finite(0.0)

  // a >= b
  predicate AtLeast(a: Float, b: Float) {
    match (a, b)
    case (NaN, _) => false
    case (_, NaN) => false
    case (PosInf, _) => true
    case (_, NegInf) => true
    case (Finite(x), Finite(y)) => x >= y
    case _ => false
  }

  predicate Positive(a: Float) {
    a == PosInf || (a.Finite? && a.value > 0.0)
  }

  // a / b for the one use the sources make of it: a positive divisor
  function Divide(a: Float, b: Float): Float
    requires Positive(b)
  {
    match a
    case NaN => NaN
    case Finite(x) => if b.Finite? then Finite(x / b.value) else ZERO
    case _ => if b.Finite? then a else NaN
  }

  function Thousand(a: Float): Float {
    if a.Finite? then Finite(a.value * 1000.0) else a
  }

  function FromInt(n: int): Float { Finite(n as real) }
}

/** How many elements of a sequence satisfy a predicate. */
module Counting {
  function Bit(b: bool): nat { if b then 1 else 0 }

  // Among the first n.
  function CountTo<T>(s: seq<T>, p: T -> bool, n: nat): nat
    requires n <= |s|
  {
    if n == 0 then 0 else CountTo(s, p, n - 1) + Bit(p(s[n - 1]))
  }

  function Count<T>(s: seq<T>, p: T -> bool): nat { CountTo(s, p, |s|) }

  lemma {:induction false} CountToSame<T>(s: seq<T>, t: seq<T>, p: T -> bool, n: nat)
    requires n <= |s| && n <= |t| && forall i :: 0 <= i < n ==> p(s[i]) == p(t[i])
    ensures CountTo(s, p, n) == CountTo(t, p, n)
  {
    if n > 0 {
      CountToSame(s, t, p, n - 1);
    }
  }

  lemma CountAppend<T>(s: seq<T>, x: T, p: T -> bool)
    ensures Count(s + [x], p) == Count(s, p) + Bit(p(x))
  {
    CountToSame(s + [x], s, p, |s|);
  }

  lemma {:induction false} CountToUpdate<T>(s: seq<T>, i: nat, x: T, p: T -> bool, n: nat)
    requires i < n <= |s|
    ensures CountTo(s[i := x], p, n) + Bit(p(s[i])) == CountTo(s, p, n) + Bit(p(x))
  {
    if i == n - 1 {
      CountToSame(s[i := x], s, p, i);
    } else {
      CountToUpdate(s, i, x, p, n - 1);
    }
  }

  lemma {:induction false} CountToAtLeastOne<T>(s: seq<T>, i: nat, p: T -> bool, n: nat)
    requires i < n <= |s| && p(s[i])
    ensures CountTo(s, p, n) >= 1
  {
    if i < n - 1 {
      CountToAtLeastOne(s, i, p, n - 1);
    }
  }

  lemma {:induction false} CountToWeaker<T>(s: seq<T>, p: T -> bool, q: T -> bool, n: nat)
    requires n <= |s| && forall i :: 0 <= i < n && p(s[i]) ==> q(s[i])
    ensures CountTo(s, p, n) <= CountTo(s, q, n)
  {
    if n > 0 {
      CountToWeaker(s, p, q, n - 1);
    }
  }

  lemma {:induction false} CountToNone<T>(s: seq<T>, p: T -> bool, n: nat)
    requires n <= |s| && forall i :: 0 <= i < n ==> !p(s[i])
    ensures CountTo(s, p, n) == 0
  {
    if n > 0 {
      CountToNone(s, p, n - 1);
    }
  }

  // A property that is one of two exclusive others.
  lemma {:induction false} CountToSplits<T>(s: seq<T>, p: T -> bool, q: T -> bool, r: T -> bool, n: nat)
    requires n <= |s| && forall i :: 0 <= i < n ==> Bit(p(s[i])) == Bit(q(s[i])) + Bit(r(s[i]))
    ensures CountTo(s, p, n) == CountTo(s, q, n) + CountTo(s, r, n)
  {
    if n > 0 {
      CountToSplits(s, p, q, r, n - 1);
    }
  }
}

/** The library sorts the sources call, and why a sorted list without repetition
    is determined by its set of elements. */
module Sorting {
  ghost predicate TotalOrder<T(!new)>(leq: (T, T) -> bool) {
    && (forall x, y :: leq(x, y) || leq(y, x))
    && (forall x, y :: leq(x, y) && leq(y, x) ==> x == y)
    && (forall x, y, z :: leq(x, y) && leq(y, z) ==> leq(x, z))
  }

  ghost predicate Sorted<T>(s: seq<T>, leq: (T, T) -> bool) {
    forall i, j :: 0 <= i < j < |s| ==> leq(s[i], s[j])
  }

  ghost predicate Distinct<T>(s: seq<T>) {
    forall i, j :: 0 <= i < j < |s| ==> s[i] != s[j]
  }

  ghost predicate StrictlySorted<T>(s: seq<T>, leq: (T, T) -> bool) {
    Sorted(s, leq) && Distinct(s)
  }

  function Insert<T>(x: T, s: seq<T>, leq: (T, T) -> bool): seq<T> {
    if s == [] || leq(x, s[0]) then [x] + s else [s[0]] + Insert(x, s[1..], leq)
  }

  function Sort<T>(s: seq<T>, leq: (T, T) -> bool): seq<T> {
    if s == [] then [] else Insert(s[0], Sort(s[1..], leq), leq)
  }

  lemma {:induction false} InsertMembers<T>(x: T, s: seq<T>, leq: (T, T) -> bool)
    ensures multiset(Insert(x, s, leq)) == multiset(s) + multiset{x}
    ensures forall y :: y in Insert(x, s, leq) ==> y == x || y in s
  {
    if s != [] && !leq(x, s[0]) {
      assert s == [s[0]] + s[1..];
      InsertMembers(x, s[1..], leq);
    }
  }

  lemma SortedCons<T(!new)>(x: T, s: seq<T>, leq: (T, T) -> bool)
    requires Sorted(s, leq) && forall y :: y in s ==> leq(x, y)
    ensures Sorted([x] + s, leq)
  {}

  lemma {:induction false} InsertSorts<T(!new)>(x: T, s: seq<T>, leq: (T, T) -> bool)
    requires TotalOrder(leq) && Sorted(s, leq)
    ensures Sorted(Insert(x, s, leq), leq)
    ensures multiset(Insert(x, s, leq)) == multiset(s) + multiset{x}
  {
    InsertMembers(x, s, leq);
    if s != [] && !leq(x, s[0]) {
      InsertSorts(x, s[1..], leq);
      InsertMembers(x, s[1..], leq);
      SortedCons(s[0], Insert(x, s[1..], leq), leq);
    } else {
      SortedCons(x, s, leq);
    }
  }

  lemma {:induction false} SortSorts<T(!new)>(s: seq<T>, leq: (T, T) -> bool)
    requires TotalOrder(leq)
    ensures Sorted(Sort(s, leq), leq)
    ensures multiset(Sort(s, leq)) == multiset(s)
  {
    if s != [] {
      assert s == [s[0]] + s[1..];
      SortSorts(s[1..], leq);
      InsertSorts(s[0], Sort(s[1..], leq), leq);
    }
  }

  lemma MembersFromMultiset<T>(s: seq<T>, t: seq<T>)
    requires multiset(s) == multiset(t)
    ensures forall x :: x in s <==> x in t
    ensures |s| == |t|
  {
    forall x ensures x in s <==> x in t {
      assert x in s <==> x in multiset(s);
      assert x in t <==> x in multiset(t);
    }
    assert |multiset(s)| == |s| && |multiset(t)| == |t|;
  }

  lemma {:induction false} DistinctCounts<T>(s: seq<T>, x: T)
    requires Distinct(s)
    ensures multiset(s)[x] <= 1
  {
    if s != [] {
      assert s == s[..|s| - 1] + [s[|s| - 1]];
      DistinctCounts(s[..|s| - 1], x);
      if x == s[|s| - 1] {
        assert x !in s[..|s| - 1];
        assert x !in multiset(s[..|s| - 1]);
      }
    }
  }

  lemma RepeatedCounts<T>(s: seq<T>, i: nat, j: nat)
    requires i < j < |s| && s[i] == s[j]
    ensures multiset(s)[s[i]] >= 2
  {
    assert s == s[..i] + [s[i]] + s[i + 1..j] + [s[j]] + s[j + 1..];
  }

  lemma DistinctFromMultiset<T>(s: seq<T>, t: seq<T>)
    requires multiset(s) == multiset(t) && Distinct(s)
    ensures Distinct(t)
  {
    forall i, j | 0 <= i < j < |t| ensures t[i] != t[j] {
      DistinctCounts(s, t[i]);
      if t[i] == t[j] {
        RepeatedCounts(t, i, j);
      }
    }
  }

  // Sorting a repetition-free list gives a strictly sorted list with the same elements.
  lemma SortDistinct<T(!new)>(s: seq<T>, leq: (T, T) -> bool)
    requires TotalOrder(leq) && Distinct(s)
    ensures StrictlySorted(Sort(s, leq), leq)
    ensures forall x :: x in Sort(s, leq) <==> x in s
    ensures |Sort(s, leq)| == |s|
  {
    SortSorts(s, leq);
    DistinctFromMultiset(s, Sort(s, leq));
    MembersFromMultiset(s, Sort(s, leq));
  }

  // A strictly sorted list is determined by its set of elements.
  lemma {:induction false} StrictlySortedUnique<T(!new)>(s: seq<T>, t: seq<T>, leq: (T, T) -> bool)
    requires TotalOrder(leq) && StrictlySorted(s, leq) && StrictlySorted(t, leq)
    requires forall x :: x in s <==> x in t
    ensures s == t
  {
    assert t != [] ==> t[0] in t;
    if s != [] {
      assert s[0] in t;
      assert t[0] in s;
      assert leq(s[0], t[0]) && leq(t[0], s[0]);
      forall x ensures x in s[1..] <==> x in t[1..] {
        TailMembers(s, x);
        TailMembers(t, x);
      }
      StrictlySortedUnique(s[1..], t[1..], leq);
      assert s == [s[0]] + s[1..] && t == [t[0]] + t[1..];
    }
  }

  lemma TailMembers<T>(s: seq<T>, x: T)
    requires s != [] && Distinct(s)
    ensures x in s[1..] <==> x in s && x != s[0]
  {
    assert s == [s[0]] + s[1..];
    if x in s[1..] {
      var i :| 0 <= i < |s[1..]| && s[1..][i] == x;
      assert s[i + 1] == x;
    }
  }

  predicate IntLeq(x: int, y: int) { x <= y }

  // Byte-wise string order, as the string sort of the standard library uses it.
  predicate StringLeq(a: string, b: string) {
    a == [] || (b != [] && (a[0] < b[0] || (a[0] == b[0] && StringLeq(a[1..], b[1..]))))
  }

  lemma {:induction false} StringTotal(a: string, b: string)
    ensures StringLeq(a, b) || StringLeq(b, a)
    ensures StringLeq(a, b) && StringLeq(b, a) ==> a == b
  {
    if a != [] && b != [] {
      StringTotal(a[1..], b[1..]);
      assert a == [a[0]] + a[1..] && b == [b[0]] + b[1..];
    }
  }

  lemma {:induction false} StringTransitive(a: string, b: string, c: string)
    requires StringLeq(a, b) && StringLeq(b, c)
    ensures StringLeq(a, c)
  {
    if a != [] && a[0] == b[0] == c[0] {
      StringTransitive(a[1..], b[1..], c[1..]);
    }
  }

  lemma StringOrder()
    ensures TotalOrder(StringLeq)
  {
    forall x, y ensures (StringLeq(x, y) || StringLeq(y, x)) && (StringLeq(x, y) && StringLeq(y, x) ==> x == y) {
      StringTotal(x, y);
    }
    forall x, y, z | StringLeq(x, y) && StringLeq(y, z) ensures StringLeq(x, z) {
      StringTransitive(x, y, z);
    }
  }
}
