// Totals over a sequence, and what changing one element does to them.

module Sums {
  ghost function Total<T>(f: T -> multiset<nat>, s: seq<T>): multiset<nat> {
    if s == [] then multiset{} else f(s[0]) + Total(f, s[1..])
  }

  function Sum<T>(f: T -> nat, s: seq<T>): nat {
    if s == [] then 0 else f(s[0]) + Sum(f, s[1..])
  }

  lemma {:induction false} TotalSplit<T>(f: T -> multiset<nat>, s: seq<T>, i: nat)
    requires i < |s|
    ensures Total(f, s) == Total(f, s[..i]) + f(s[i]) + Total(f, s[i + 1..])
  {
    if i > 0 {
      TotalSplit(f, s[1..], i - 1);
      assert s[1..][..i - 1] == s[..i][1..];
      assert s[1..][i..] == s[i + 1..];
    }
  }

  lemma TotalUpdate<T>(f: T -> multiset<nat>, s: seq<T>, i: nat, x: T)
    requires i < |s|
    ensures Total(f, s[i := x]) + f(s[i]) == Total(f, s) + f(x)
  {
    TotalSplit(f, s, i);
    TotalSplit(f, s[i := x], i);
    assert s[i := x][..i] == s[..i];
    assert s[i := x][i + 1..] == s[i + 1..];
  }

  lemma {:induction false} TotalAppend<T>(f: T -> multiset<nat>, s: seq<T>, t: seq<T>)
    ensures Total(f, s + t) == Total(f, s) + Total(f, t)
  {
    if s == [] {
      assert s + t == t;
    } else {
      assert (s + t)[1..] == s[1..] + t;
      TotalAppend(f, s[1..], t);
    }
  }

  lemma TotalRemove<T>(f: T -> multiset<nat>, s: seq<T>, i: nat)
    requires i < |s|
    ensures Total(f, s) == Total(f, s[..i] + s[i + 1..]) + f(s[i])
  {
    TotalSplit(f, s, i);
    TotalAppend(f, s[..i], s[i + 1..]);
  }

  lemma {:induction false} SumAppend<T>(f: T -> nat, s: seq<T>, t: seq<T>)
    ensures Sum(f, s + t) == Sum(f, s) + Sum(f, t)
  {
    if s == [] {
      assert s + t == t;
    } else {
      assert (s + t)[1..] == s[1..] + t;
      SumAppend(f, s[1..], t);
    }
  }

  lemma SumOfOne<T>(f: T -> nat, x: T)
    ensures Sum(f, [x]) == f(x)
  {
    assert [x][1..] == [];
  }

  lemma SumSplit<T>(f: T -> nat, s: seq<T>, i: nat)
    requires i < |s|
    ensures Sum(f, s) == Sum(f, s[..i]) + f(s[i]) + Sum(f, s[i + 1..])
  {
    assert s == s[..i] + ([s[i]] + s[i + 1..]);
    SumAppend(f, s[..i], [s[i]] + s[i + 1..]);
  }

  lemma SumUpdate<T>(f: T -> nat, s: seq<T>, i: nat, x: T)
    requires i < |s|
    ensures Sum(f, s[i := x]) + f(s[i]) == Sum(f, s) + f(x)
  {
    SumSplit(f, s, i);
    SumSplit(f, s[i := x], i);
    assert s[i := x][..i] == s[..i];
    assert s[i := x][i + 1..] == s[i + 1..];
  }

  /** A part moves from one multiset to another: the sum of both stays. */
  lemma Exchange<T>(before: multiset<T>, after: multiset<T>, old_: multiset<T>, new_: multiset<T>,
                    kept: multiset<T>, kept': multiset<T>)
    requires after + old_ == before + new_
    requires kept' + new_ == kept + old_
    ensures kept' + after == kept + before
  {
    forall x: T ensures (kept' + after)[x] == (kept + before)[x] {
      assert (after + old_)[x] == (before + new_)[x];
      assert (kept' + new_)[x] == (kept + old_)[x];
    }
  }

  lemma CancelRight<T>(a: multiset<T>, b: multiset<T>, c: multiset<T>)
    requires a + c == b + c
    ensures a == b
  {
    forall x: T ensures a[x] == b[x] {
      assert (a + c)[x] == (b + c)[x];
    }
  }

  /** An element moves from the first multiset to the second. */
  lemma Move<T>(before: multiset<T>, after: multiset<T>, to: multiset<T>, x: multiset<T>)
    requires before == after + x
    ensures after + (to + x) == before + to
  {
  }

  lemma TotalOfOne<T>(f: T -> multiset<nat>, s: seq<T>, x: T)
    ensures Total(f, s + [x]) == Total(f, s) + f(x)
  {
    TotalAppend(f, s, [x]);
  }

  lemma Regroup<T>(a: multiset<T>, b: multiset<T>, c: multiset<T>)
    ensures a + b + c == a + (c + b)
  {
  }
}
