/** Sums of a natural-valued weight over a sequence, and the laws the proofs need. */
module Sums {

  function Sum<T>(f: T -> nat, s: seq<T>): nat {
    if s == [] then 0 else f(s[0]) + Sum(f, s[1..])
  }

  lemma {:induction false} SumAppend<T>(f: T -> nat, a: seq<T>, b: seq<T>)
    ensures Sum(f, a + b) == Sum(f, a) + Sum(f, b)
  {
    if a == [] {
      assert a + b == b;
    } else {
      SumAppend(f, a[1..], b);
      assert (a + b)[1..] == a[1..] + b;
    }
  }

  lemma SumSnoc<T>(f: T -> nat, a: seq<T>, x: T)
    ensures Sum(f, a + [x]) == Sum(f, a) + f(x)
  {
    SumAppend(f, a, [x]);
    assert [x][1..] == [];
  }

  /** Splitting off the last element, as `pop(-1)` does. */
  lemma SumLast<T>(f: T -> nat, s: seq<T>)
    requires s != []
    ensures Sum(f, s) == Sum(f, s[..|s| - 1]) + f(s[|s| - 1])
  {
    assert s == s[..|s| - 1] + [s[|s| - 1]];
    SumSnoc(f, s[..|s| - 1], s[|s| - 1]);
  }

  lemma {:induction false} SumAgree<T>(f: T -> nat, g: T -> nat, s: seq<T>)
    requires forall x :: x in s ==> f(x) == g(x)
    ensures Sum(f, s) == Sum(g, s)
  {
    if s != [] {
      SumAgree(f, g, s[1..]);
    }
  }

  lemma {:induction false} SumBelow<T>(f: T -> nat, g: T -> nat, s: seq<T>)
    requires forall x :: x in s ==> f(x) <= g(x)
    ensures Sum(f, s) <= Sum(g, s)
  {
    if s != [] {
      SumBelow(f, g, s[1..]);
    }
  }

  lemma {:induction false} SumZero<T>(f: T -> nat, s: seq<T>)
    requires forall x :: x in s ==> f(x) == 0
    ensures Sum(f, s) == 0
  {
    if s != [] {
      SumZero(f, s[1..]);
    }
  }

  lemma {:induction false} SumMember<T>(f: T -> nat, s: seq<T>, x: T)
    requires x in s
    ensures f(x) <= Sum(f, s)
  {
    if s[0] != x {
      SumMember(f, s[1..], x);
    }
  }
}
