// The Lua registry as `luaL_ref` and `luaL_unref` use it: released references are reused. Some
// references are lost: nobody is left who would release them.

module Registry {
  /** Released references, how many were ever created, and the lost ones, oldest first. */
  datatype State = State(free: seq<nat>, top: nat, lost: seq<nat>)

  const EMPTY := State([], 0, [])

  /** 1 to n, once each. */
  ghost function UpTo(n: nat): multiset<nat> {
    if n == 0 then multiset{} else UpTo(n - 1) + multiset{n}
  }

  function Ref(g: State): (State, nat) {
    if g.free != [] then (g.(free := g.free[..|g.free| - 1]), g.free[|g.free| - 1])
    else (g.(top := g.top + 1), g.top + 1)
  }

  function Unref(g: State, r: nat): State {
    g.(free := g.free + [r])
  }

  /** The owner of these references forgets them without releasing them. */
  function Lose(g: State, refs: seq<nat>): State {
    g.(lost := g.lost + refs)
  }

  function Refs(g: State, n: nat): (r: (State, seq<nat>))
    ensures r.0.lost == g.lost
    decreases n
  {
    if n == 0 then (g, [])
    else
      var (g1, r) := Ref(g);
      var (g2, rest) := Refs(g1, n - 1);
      (g2, [r] + rest)
  }

  function UnrefAll(g: State, refs: seq<nat>): (r: State)
    ensures r.lost == g.lost
    decreases |refs|
  {
    if refs == [] then g else UnrefAll(Unref(g, refs[0]), refs[1..])
  }

  /** Every reference ever created is either released, or lost, or owned, and never twice: `owned`
      counts the references held, with multiplicity. */
  ghost predicate Conserved(g: State, owned: multiset<nat>) {
    multiset(g.free) + multiset(g.lost) + owned == UpTo(g.top)
  }

  lemma {:induction false} UpToIsASet(n: nat, r: nat)
    ensures UpTo(n)[r] == if 1 <= r <= n then 1 else 0
  {
    if n != 0 {
      UpToIsASet(n - 1, r);
    }
  }

  /** So no reference has two owners, and none is owned after it was released or lost. */
  lemma OwnedOnce(g: State, owned: multiset<nat>, r: nat)
    requires Conserved(g, owned)
    ensures owned[r] <= 1
    ensures r in owned ==> r !in g.free && r !in g.lost
  {
    UpToIsASet(g.top, r);
    assert (multiset(g.free) + multiset(g.lost) + owned)[r] <= 1;
    assert r in g.free ==> multiset(g.free)[r] >= 1;
    assert r in g.lost ==> multiset(g.lost)[r] >= 1;
  }

  lemma LoseConserves(g: State, owned: multiset<nat>, refs: seq<nat>)
    requires Conserved(g, owned + multiset(refs))
    ensures Conserved(Lose(g, refs), owned)
  {
    assert multiset(g.lost + refs) == multiset(g.lost) + multiset(refs);
  }

  lemma RefConserves(g: State, owned: multiset<nat>)
    requires Conserved(g, owned)
    ensures Conserved(Ref(g).0, owned + multiset{Ref(g).1})
  {
    if g.free != [] {
      assert g.free == g.free[..|g.free| - 1] + [g.free[|g.free| - 1]];
    }
  }

  lemma Associative(a: multiset<nat>, b: multiset<nat>, c: multiset<nat>)
    ensures a + (b + c) == a + b + c
  {
  }

  lemma {:induction false} RefsConserve(g: State, owned: multiset<nat>, n: nat)
    requires Conserved(g, owned)
    ensures |Refs(g, n).1| == n
    ensures Conserved(Refs(g, n).0, owned + multiset(Refs(g, n).1))
    decreases n
  {
    hide Ref, Conserved;
    if n != 0 {
      var (g1, r) := Ref(g);
      RefConserves(g, owned);
      RefsConserve(g1, owned + multiset{r}, n - 1);
      var rest := Refs(g1, n - 1).1;
      assert multiset([r] + rest) == multiset{r} + multiset(rest);
      Associative(owned, multiset{r}, multiset(rest));
    } else {
      assert owned + multiset{} == owned;
    }
  }

  lemma {:induction false} UnrefAllConserves(g: State, owned: multiset<nat>, refs: seq<nat>)
    requires Conserved(g, owned + multiset(refs))
    ensures Conserved(UnrefAll(g, refs), owned)
    decreases |refs|
  {
    if refs != [] {
      assert refs == [refs[0]] + refs[1..];
      assert multiset(g.free + [refs[0]]) == multiset(g.free) + multiset{refs[0]};
      UnrefAllConserves(Unref(g, refs[0]), owned, refs[1..]);
    } else {
      assert owned + multiset(refs) == owned;
    }
  }
}
