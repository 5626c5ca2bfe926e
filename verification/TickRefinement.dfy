// src/main.cpp:28-50: the loop that erases while it iterates does what a plain pass over the list,
// followed by one filter, would do.

module TickRefinement {
  import opened Turns
  import opened Actions
  import opened Jobs
  import opened Scheduler
  import opened Invariants
  import opened Ticks
  import opened Drain
  import P = Promise
  import R = Registry

  // ----- the plain form -----

  datatype Pass = Pass(w: World, unready: bool, threw: bool, doomed: set<nat>)

  predicate Deletable(db: Db) {
    db.gced && !HasWork(db)
  }

  /** One pass over the list by index: a database with work gets one `RunTick`, the others are left
      alone, and those to delete are noted. An exception ends the pass. */
  function PassFrom(w: World, i: nat, env: nat -> Env, unready: bool): Pass
    requires i <= |w.open|
    decreases |w.open| - i
  {
    if i == |w.open| then
      Pass(w, unready, false, {})
    else if HasWork(w.open[i]) then
      var t := RunTick(w, i, env(w.open[i].id));
      if t.threw then Pass(t.w, true, true, {}) else PassFrom(t.w, i + 1, env, true)
    else
      var rest := PassFrom(w, i + 1, env, unready);
      if w.open[i].gced then rest.(doomed := rest.doomed + {w.open[i].id}) else rest
  }

  /** The databases not in `doomed`, in order. */
  function Kept(open: seq<Db>, doomed: set<nat>): seq<Db> {
    if open == [] then []
    else (if open[0].id in doomed then [] else [open[0]]) + Kept(open[1..], doomed)
  }

  /** The others, in order. */
  function Dropped(open: seq<Db>, doomed: set<nat>): seq<Db> {
    if open == [] then []
    else (if open[0].id in doomed then [open[0]] else []) + Dropped(open[1..], doomed)
  }

  function Prune(w: World, doomed: set<nat>): World {
    w.(open := Kept(w.open, doomed), erased := w.erased + Dropped(w.open, doomed))
  }

  // ----- erasing early or late makes no difference -----

  function Without<T>(s: seq<T>, j: nat): seq<T>
    requires j < |s|
  {
    s[..j] + s[j + 1..]
  }

  lemma {:induction false} IndexWithout(open: seq<Db>, j: nat, id: nat)
    requires j < |open| && open[j].id != id
    ensures IndexOf(Without(open, j), id) == if IndexOf(open, id) > j then IndexOf(open, id) - 1 else IndexOf(open, id)
    ensures IndexOf(open, id) != j
  {
    if j == 0 {
      assert Without(open, 0) == open[1..];
    } else if open[0].id != id {
      assert Without(open, j)[1..] == Without(open[1..], j - 1);
      IndexWithout(open[1..], j - 1, id);
    }
  }

  lemma UpdateWithout<T>(s: seq<T>, j: nat, k: nat, x: T)
    requires j < |s| && k < |s| && k != j
    ensures Without(s[k := x], j) == Without(s, j)[(if k > j then k - 1 else k) := x]
    ensures Without(s, j)[if k > j then k - 1 else k] == s[k]
  {
  }

  lemma InsertWithout(w: World, j: nat, id: nat, job: P.Job)
    requires j < |w.open| && w.open[j].id != id
    ensures Insert(Erase(w, j), id, job) == Erase(Insert(w, id, job), j)
    ensures Insert(w, id, job).open[j] == w.open[j]
  {
    hide EnsurePinned, Scheduler.PushBack, R.Refs, ReleaseOrder, NewAction;
    var i := IndexOf(w.open, id);
    IndexWithout(w.open, j, id);
    if i < |w.open| {
      UpdateWithout(w.open, j, i, InsertAt(w, i, job).open[i]);
    }
  }

  lemma {:induction false} InsertAllWithout(w: World, j: nat, requests: seq<P.Request>)
    requires j < |w.open| && forall k :: 0 <= k < |requests| ==> requests[k].db != w.open[j].id
    ensures InsertAll(Erase(w, j), requests) == Erase(InsertAll(w, requests), j)
    ensures InsertAll(w, requests).open[j] == w.open[j]
    decreases |requests|
  {
    hide Erase, Insert;
    if requests != [] {
      InsertWithout(w, j, requests[0].db, requests[0].job);
      InsertAllWithout(Insert(w, requests[0].db, requests[0].job), j, requests[1..]);
    }
  }

  lemma ReleaseWithout(w: World, j: nat, i: nat)
    requires j < i < |w.open| && w.open[i].current.Some?
    ensures Release(Erase(w, j), i - 1) == Erase(Release(w, i), j)
  {
    hide Released, RegistryAfterRelease;
    UpdateWithout(w.open, j, i, Released(w.open[i]));
  }

  lemma ConcludeWithout(w: World, j: nat, i: nat, requests: seq<P.Request>, verdict: Verdict)
    requires j < i < |w.open| && forall k :: 0 <= k < |requests| ==> requests[k].db != w.open[j].id
    ensures var t := Conclude(w, i, requests, verdict);
            && Conclude(Erase(w, j), i - 1, requests, verdict) == Ticked(Erase(t.w, j), t.threw)
            && t.w.open[j] == w.open[j]
  {
    hide Release;
    InsertAllWithout(w, j, requests);
    var w1 := InsertAll(w, requests);
    assert Erase(w1, j).open[i - 1] == w1.open[i];
    if verdict == Done && w1.open[i].current.Some? {
      ReleaseWithout(w1, j, i);
      ReleaseElsewhere(w1, i, j);
    }
  }

  lemma ReleaseElsewhere(w: World, i: nat, j: nat)
    requires i < |w.open| && w.open[i].current.Some? && j < |w.open| && j != i
    ensures Release(w, i).open[j] == w.open[j]
  {
  }

  lemma CollectedNotLive(open: seq<Db>, j: nat)
    requires Ascending(open) && j < |open| && open[j].gced
    ensures open[j].id !in Live(open)
  {
  }

  /** The requests of a visit never name a collected database. */
  lemma NoRequestForCollected(w: World, i: nat, env: Env, j: nat)
    requires Inv(w) && i < |w.open| && HasWork(w.open[i]) && j < |w.open| && w.open[j].gced
    ensures forall k :: 0 <= k < |VisitAt(w, i, env).requests| ==> VisitAt(w, i, env).requests[k].db != w.open[j].id
  {
    hide Inv, Live, VisitAt, AfterVisit, JobTargets, HasWork;
    AfterVisitKeepsInv(w, i, env);
    InvAscending(w);
    CollectedNotLive(w.open, j);
  }

  lemma AfterVisitWithout(w: World, j: nat, i: nat, env: Env)
    requires j < i < |w.open| && HasWork(w.open[i])
    ensures VisitAt(Erase(w, j), i - 1, env) == VisitAt(w, i, env)
    ensures AfterVisit(Erase(w, j), i - 1, env) == Erase(AfterVisit(w, i, env), j)
    ensures |AfterVisit(w, i, env).open| == |w.open| && AfterVisit(w, i, env).open[j] == w.open[j]
  {
    hide VisitAction, Visited;
    UpdateWithout(w.open, j, i, Visited(Pop(w.open[i]), VisitAt(w, i, env)));
  }

  lemma RunTickWithout(w: World, j: nat, i: nat, env: Env)
    requires j < i < |w.open| && HasWork(w.open[i])
    requires forall k :: 0 <= k < |VisitAt(w, i, env).requests| ==> VisitAt(w, i, env).requests[k].db != w.open[j].id
    ensures var t := RunTick(w, i, env);
            && RunTick(Erase(w, j), i - 1, env) == Ticked(Erase(t.w, j), t.threw)
            && t.w.open[j] == w.open[j]
  {
    hide VisitAt, AfterVisit, Conclude, HasWork;
    AfterVisitWithout(w, j, i, env);
    var v := VisitAt(w, i, env);
    ConcludeWithout(AfterVisit(w, i, env), j, i, v.requests, v.verdict);
  }

  /** A collected idle database may be erased before the rest of the pass or after it. */
  lemma {:induction false} PassWithout(w: World, j: nat, i: nat, env: nat -> Env, unready: bool)
    requires Inv(w) && j < i <= |w.open| && Deletable(w.open[j])
    ensures var pass := PassFrom(w, i, env, unready);
            && |pass.w.open| == |w.open| && pass.w.open[j] == w.open[j]
            && PassFrom(Erase(w, j), i - 1, env, unready) == pass.(w := Erase(pass.w, j))
    decreases |w.open| - i
  {
    hide Inv, RunTick;
    if i == |w.open| {
    } else if HasWork(w.open[i]) {
      var e := env(w.open[i].id);
      var t := RunTick(w, i, e);
      NoRequestForCollected(w, i, e, j);
      RunTickWithout(w, j, i, e);
      if !t.threw {
        RunTickKeepsInv(w, i, e);
        PassWithout(t.w, j, i + 1, env, true);
      }
    } else {
      PassWithout(w, j, i + 1, env, unready);
    }
  }

  // ----- filtering -----

  lemma {:induction false} KeptWithout(open: seq<Db>, j: nat, doomed: set<nat>)
    requires j < |open| && Ascending(open)
    ensures Kept(Without(open, j), doomed) == Kept(open, doomed + {open[j].id})
    decreases |open|
  {
    if j == 0 {
      assert Without(open, 0) == open[1..];
      KeptAvoids(open[1..], doomed, open[0].id);
    } else {
      assert Without(open, j)[1..] == Without(open[1..], j - 1);
      KeptWithout(open[1..], j - 1, doomed);
    }
  }

  lemma {:induction false} KeptAvoids(open: seq<Db>, doomed: set<nat>, id: nat)
    requires forall k :: 0 <= k < |open| ==> open[k].id != id
    ensures Kept(open, doomed + {id}) == Kept(open, doomed)
  {
    if open != [] {
      KeptAvoids(open[1..], doomed, id);
    }
  }

  /** The deletion of the first doomed database. */
  lemma {:induction false} DroppedWithout(open: seq<Db>, j: nat, doomed: set<nat>)
    requires j < |open| && Ascending(open) && forall id <- doomed :: open[j].id < id
    ensures Dropped(open, doomed + {open[j].id}) == [open[j]] + Dropped(Without(open, j), doomed)
    decreases |open|
  {
    if j == 0 {
      assert Without(open, 0) == open[1..];
      DroppedAvoids(open[1..], doomed, open[0].id);
    } else {
      assert Without(open, j)[1..] == Without(open[1..], j - 1);
      assert open[0].id !in doomed + {open[j].id} && open[0].id < open[j].id;
      DroppedWithout(open[1..], j - 1, doomed);
    }
  }

  lemma {:induction false} DroppedAvoids(open: seq<Db>, doomed: set<nat>, id: nat)
    requires forall k :: 0 <= k < |open| ==> open[k].id != id
    ensures Dropped(open, doomed + {id}) == Dropped(open, doomed)
  {
    if open != [] {
      DroppedAvoids(open[1..], doomed, id);
    }
  }

  /** A pass dooms only databases that it has not passed. */
  lemma {:induction false} DoomedAhead(w: World, i: nat, env: nat -> Env, unready: bool)
    requires Inv(w) && i <= |w.open|
    ensures forall id <- PassFrom(w, i, env, unready).doomed :: i < |w.open| && w.open[i].id <= id
    decreases |w.open| - i
  {
    hide Inv, RunTick;
    InvAscending(w);
    if i == |w.open| {
    } else if HasWork(w.open[i]) {
      var t := RunTick(w, i, env(w.open[i].id));
      RunTickKeepsInv(w, i, env(w.open[i].id));
      if !t.threw {
        DoomedAhead(t.w, i + 1, env, true);
        if i + 1 < |w.open| {
          RunTickUndisturbed(w, i, env(w.open[i].id), i + 1);
        }
      }
    } else {
      DoomedAhead(w, i + 1, env, unready);
    }
  }

  lemma {:induction false} KeptAll(open: seq<Db>)
    ensures Kept(open, {}) == open && Dropped(open, {}) == []
  {
    if open != [] {
      KeptAll(open[1..]);
    }
  }

  lemma PruneNothing(w: World)
    ensures Prune(w, {}) == w
  {
    KeptAll(w.open);
  }

  lemma {:induction false} PassKeepsInv(w: World, i: nat, env: nat -> Env, unready: bool)
    requires Inv(w) && i <= |w.open|
    ensures Inv(PassFrom(w, i, env, unready).w)
    decreases |w.open| - i
  {
    hide Inv, RunTick;
    if i == |w.open| {
    } else if HasWork(w.open[i]) {
      var t := RunTick(w, i, env(w.open[i].id));
      RunTickKeepsInv(w, i, env(w.open[i].id));
      if !t.threw {
        PassKeepsInv(t.w, i + 1, env, true);
      }
    } else {
      PassKeepsInv(w, i + 1, env, unready);
    }
  }

  // ----- the refinement -----

  lemma ErasedThenPass(w: World, i: nat, env: nat -> Env, unready: bool)
    requires Inv(w) && i < |w.open| && Deletable(w.open[i])
    ensures var pass := PassFrom(w, i, env, unready);
            var erased := PassFrom(Erase(w, i), i, env, unready);
            && Prune(erased.w, erased.doomed) == Prune(pass.w, pass.doomed)
            && erased.unready == pass.unready && erased.threw == pass.threw
  {
    hide Inv, RunTick;
    PassWithout(w, i, i + 1, env, unready);
    var rest := PassFrom(w, i + 1, env, unready);
    PassKeepsInv(w, i + 1, env, unready);
    InvAscending(rest.w);
    KeptWithout(rest.w.open, i, rest.doomed);
    DoomedAhead(w, i + 1, env, unready);
    InvAscending(w);
    DroppedWithout(rest.w.open, i, rest.doomed);
    assert rest.w.erased + ([w.open[i]] + Dropped(Without(rest.w.open, i), rest.doomed))
        == rest.w.erased + [w.open[i]] + Dropped(Without(rest.w.open, i), rest.doomed);
  }

  /** The loop of `TickHookTick` is the pass followed by the filter, also when a callback throws. */
  lemma {:induction false} TickRefinesPass(w: World, i: nat, env: nat -> Env, unready: bool)
    requires Inv(w) && i <= |w.open|
    ensures var pass := PassFrom(w, i, env, unready);
            TickFrom(w, i, env, unready) == Swept(Prune(pass.w, pass.doomed), pass.unready, pass.threw)
    decreases |w.open| - i
  {
    hide Inv, RunTick, Prune;
    if i == |w.open| {
      PruneNothing(w);
    } else if HasWork(w.open[i]) {
      var t := RunTick(w, i, env(w.open[i].id));
      PruneNothing(t.w);
      RunTickKeepsInv(w, i, env(w.open[i].id));
      if !t.threw {
        TickRefinesPass(t.w, i + 1, env, true);
      }
    } else if w.open[i].gced {
      EraseKeepsInv(w, i);
      TickRefinesPass(Erase(w, i), i, env, unready);
      ErasedThenPass(w, i, env, unready);
    } else {
      TickRefinesPass(w, i + 1, env, unready);
    }
  }

  /** A tick that runs to its end deletes exactly the databases that were collected and idle when it
      began: none becomes deletable, or stops being so, before its turn. */
  lemma {:induction false} DoomedExactly(w: World, i: nat, env: nat -> Env, unready: bool)
    requires Inv(w) && i <= |w.open| && !PassFrom(w, i, env, unready).threw
    ensures PassFrom(w, i, env, unready).doomed
         == set k | i <= k < |w.open| && Deletable(w.open[k]) :: w.open[k].id
    decreases |w.open| - i
  {
    hide Inv, RunTick;
    if i == |w.open| {
    } else if HasWork(w.open[i]) {
      var t := RunTick(w, i, env(w.open[i].id));
      RunTickKeepsInv(w, i, env(w.open[i].id));
      DoomedExactly(t.w, i + 1, env, true);
      forall k | i < k < |w.open|
        ensures t.w.open[k].id == w.open[k].id && (Deletable(t.w.open[k]) <==> Deletable(w.open[k]))
      {
        DeletableStays(w, i, env(w.open[i].id), k);
      }
      SameIds(w.open, t.w.open, i);
    } else {
      DoomedExactly(w, i + 1, env, unready);
    }
  }

  lemma SameIds(before: seq<Db>, after: seq<Db>, i: nat)
    requires i < |before| == |after| && !Deletable(before[i])
    requires forall k :: i < k < |before|
                         ==> after[k].id == before[k].id && (Deletable(after[k]) <==> Deletable(before[k]))
    ensures (set k | i <= k < |before| && Deletable(before[k]) :: before[k].id)
         == (set k | i + 1 <= k < |after| && Deletable(after[k]) :: after[k].id)
  {
    var s := set k | i <= k < |before| && Deletable(before[k]) :: before[k].id;
    var t := set k | i + 1 <= k < |after| && Deletable(after[k]) :: after[k].id;
    forall id ensures id in s <==> id in t {
      if id in s {
        var k :| i <= k < |before| && Deletable(before[k]) && before[k].id == id;
        assert Deletable(after[k]) && after[k].id == id;
      }
      if id in t {
        var k :| i + 1 <= k < |after| && Deletable(after[k]) && after[k].id == id;
        assert Deletable(before[k]) && before[k].id == id;
      }
    }
  }

  lemma DeletableStays(w: World, i: nat, env: Env, k: nat)
    requires Inv(w) && i < |w.open| && HasWork(w.open[i]) && k < |w.open| && k != i
    ensures var after := RunTick(w, i, env).w.open[k];
            after.id == w.open[k].id && (Deletable(after) <==> Deletable(w.open[k]))
  {
    hide Inv, RunTick, Ordered, SettledAsExpected, FinishedOnce, Running, Disciplined;
    RunTickUndisturbed(w, i, env, k);
    RunTickKeepsInv(w, i, env);
    InvOf(w, k);
    InvOf(RunTick(w, i, env).w, k);
  }

  /** A tick reports that it is not done if and only if some database had work when it began. */
  lemma UnreadyExactly(w: World, env: nat -> Env)
    ensures TickHookTick(w, env).unready <==> exists j :: 0 <= j < |w.open| && HasWork(w.open[j])
  {
    hide TickFrom, HasWork;
    if TickHookTick(w, env).unready {
      BusyTick(w, 0, env);
    }
    forall j | 0 <= j < |w.open| && HasWork(w.open[j]) ensures TickHookTick(w, env).unready {
      WorkIsReported(w, 0, env, false, j);
    }
  }

  /** The main statement: no exception, so every database with work had one `RunTick`, exactly the idle
      collected ones are gone, the others keep their order, and the tick reports work if and only if some
      database had work. */
  lemma TickIsPassThenFilter(w: World, env: nat -> Env)
    requires Inv(w) && !TickHookTick(w, env).threw
    ensures var pass := PassFrom(w, 0, env, false);
            var doomed := set k | 0 <= k < |w.open| && Deletable(w.open[k]) :: w.open[k].id;
            var busy := exists j :: 0 <= j < |w.open| && HasWork(w.open[j]);
            TickHookTick(w, env) == Swept(w := Prune(pass.w, doomed), unready := busy, threw := false)
  {
    hide Inv, TickFrom, PassFrom, Prune, HasWork;
    TickRefinesPass(w, 0, env, false);
    DoomedExactly(w, 0, env, false);
    UnreadyExactly(w, env);
  }
}
