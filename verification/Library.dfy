// A library that executes a plan and undoes it, in place: the clear preview, the order of
// execution, the runs and the undo list put together.
module Library {
  import opened Wrappers
  import opened FileSystem
  import opened Plan
  import opened PlanRun
  import opened RoundTrip

  // ---- from a plan as given to a plan in order ----

  // What one action may ask of another in the same plan.
  predicate Compatible(a: PlanAction, b: PlanAction) {
    && a.id != b.id && a.destination != b.destination
    && (!a.kind.CreateFolder? && !b.kind.CreateFolder? ==> a.source != b.source)
  }

  ghost predicate Pairwise(actions: seq<PlanAction>) {
    forall i, j :: 0 <= i < j < |actions| ==> Compatible(actions[i], actions[j])
  }

  lemma PairwiseCons(a: PlanAction, s: seq<PlanAction>)
    requires Pairwise(s) && forall x :: x in s ==> Compatible(a, x)
    ensures Pairwise([a] + s)
  {
  }

  lemma {:induction false} InsertPairwise(a: PlanAction, sorted: seq<PlanAction>, o: Orders)
    requires Pairwise(sorted) && forall x :: x in sorted ==> Compatible(a, x)
    ensures Pairwise(Insert(a, sorted, o)) && forall x :: x in Insert(a, sorted, o) <==> x == a || x in sorted
  {
    if sorted == [] || NotAfter(a, sorted[0], o) {
      PairwiseCons(a, sorted);
    } else {
      InsertPairwise(a, sorted[1..], o);
      assert sorted == [sorted[0]] + sorted[1..];
      forall x | x in Insert(a, sorted[1..], o) ensures Compatible(sorted[0], x) {
        if x == a {
          assert Compatible(a, sorted[0]);
        } else {
          var i :| 0 <= i < |sorted[1..]| && sorted[1..][i] == x;
          assert Compatible(sorted[0], sorted[i + 1]);
        }
      }
      PairwiseCons(sorted[0], Insert(a, sorted[1..], o));
    }
  }

  lemma {:induction false} OrderedPairwise(actions: seq<PlanAction>, o: Orders)
    requires Pairwise(actions)
    ensures Pairwise(Ordered(actions, o)) && forall x :: x in Ordered(actions, o) <==> x in actions
  {
    if actions != [] {
      OrderedPairwise(actions[1..], o);
      assert actions == [actions[0]] + actions[1..];
      forall x | x in actions[1..] ensures Compatible(actions[0], x) {
        var i :| 0 <= i < |actions[1..]| && actions[1..][i] == x;
      }
      InsertPairwise(actions[0], Ordered(actions[1..], o), o);
    }
  }

  // The folder a destination goes into exists, or the plan creates it.
  ghost predicate Housed(t: Tree, actions: seq<PlanAction>, a: PlanAction) {
    && a.destination != []
    && (FolderAt(t, Parent(a.destination)).Some? ||
        exists c :: c in actions && c.kind.CreateFolder? && c.destination == Parent(a.destination))
  }

  // A plan, in any order, that its clear preview and its own completeness allow to run.
  ghost predicate Sensible(t: Tree, actions: seq<PlanAction>) {
    && Sane(t) && Clear(t, actions) && Pairwise(actions)
    && forall i :: 0 <= i < |actions| ==> Housed(t, actions, actions[i]) && actions[i].id !in t.created
  }

  // A folder that the plan creates comes before what goes into it.
  lemma ParentFirst(t: Tree, actions: seq<PlanAction>, s: seq<PlanAction>, i: nat)
    requires i < |s| && Housed(t, actions, s[i]) && forall x :: x in s <==> x in actions
    requires forall j, m :: 0 <= j < |s| && 0 <= m < |s| && s[j].kind.CreateFolder? && s[j].destination < s[m].destination ==> j < m
    ensures ParentReady(t, s, i)
  {
    var d := s[i].destination;
    if FolderAt(t, Parent(d)).None? {
      var c :| c in actions && c.kind.CreateFolder? && c.destination == Parent(d);
      assert c in s;
      var j :| 0 <= j < |s| && s[j] == c;
      assert s[j].destination < s[i].destination;
    }
  }

  lemma SameActionsSensible(t: Tree, actions: seq<PlanAction>, s: seq<PlanAction>)
    requires Sensible(t, actions) && forall x :: x in s <==> x in actions
    ensures forall i :: 0 <= i < |s| ==> Previewed(t, s[i]) && s[i].id !in t.created && Housed(t, actions, s[i])
  {
    forall i | 0 <= i < |s| ensures Previewed(t, s[i]) && s[i].id !in t.created && Housed(t, actions, s[i]) {
      assert s[i] in actions;
    }
  }

  // Sorting makes a sensible plan feasible: every new folder is created before it is needed.
  lemma OrderedIsFeasible(t: Tree, actions: seq<PlanAction>, o: Orders)
    requires Sensible(t, actions) && PlanRun.Sound(o)
    ensures Feasible(t, Ordered(actions, o))
  {
    var s := Ordered(actions, o);
    OrderedPairwise(actions, o);
    PlanOrder(actions, o);
    SameActionsSensible(t, actions, s);
    hide Ordered, Housed, Previewed, ParentReady, PlanRun.Sound;
    forall i | 0 <= i < |s| ensures ParentReady(t, s, i) { ParentFirst(t, actions, s, i); }
    PairwiseFeasible(s);
  }

  lemma PairwiseFeasible(s: seq<PlanAction>)
    requires Pairwise(s)
    ensures forall i, j :: 0 <= i < j < |s| ==> s[i].destination != s[j].destination && s[i].id != s[j].id
    ensures forall i, j | 0 <= i < j < |s| && !s[i].kind.CreateFolder? && !s[j].kind.CreateFolder? :: s[i].source != s[j].source
  {
    assert forall i, j :: 0 <= i < j < |s| ==> Compatible(s[i], s[j]);
  }

  lemma {:induction false} RunAllAppend(t: Tree, actions: seq<PlanAction>, inos: seq<Ino>, a: PlanAction, ino: Ino)
    requires |actions| == |inos| && RunAll(t, actions, inos).Some?
    ensures RunAll(t, actions + [a], inos + [ino]) == Run(RunAll(t, actions, inos).value, a, ino)
    decreases |actions|
  {
    if actions == [] {
      assert actions + [a] == [a] && inos + [ino] == [ino];
      assert [a][1..] == [] && [ino][1..] == [];
    } else {
      assert (actions + [a])[1..] == actions[1..] + [a] && (inos + [ino])[1..] == inos[1..] + [ino];
      RunAllAppend(Run(t, actions[0], inos[0]).value, actions[1..], inos[1..], a, ino);
    }
  }

  lemma {:induction false} RunAllPrefix(t: Tree, actions: seq<PlanAction>, inos: seq<Ino>, k: nat)
    requires |actions| == |inos| && k <= |actions| && RunAll(t, actions, inos).Some?
    ensures RunAll(t, actions[..k], inos[..k]).Some?
    decreases |actions|
  {
    if k > 0 {
      assert actions[..k][1..] == actions[1..][..k - 1] && inos[..k][1..] == inos[1..][..k - 1];
      RunAllPrefix(Run(t, actions[0], inos[0]).value, actions[1..], inos[1..], k - 1);
    }
  }

  class ConnectedLibrary {
    var tree: Tree

    constructor (t: Tree)
      ensures tree == t
    {
      tree := t;
    }

    // Runs the actions in the given order and stops at the first that fails.
    method RunInOrder(actions: seq<PlanAction>, inos: seq<Ino>) returns (completed: nat)
      requires |actions| == |inos|
      modifies this
      ensures completed <= |actions| && RunAll(old(tree), actions[..completed], inos[..completed]) == Some(tree)
      ensures completed < |actions| ==> Run(tree, actions[completed], inos[completed]).None?
      ensures completed == |actions| <==> RunAll(old(tree), actions, inos).Some?
    {
      completed := 0;
      while completed < |actions|
        invariant completed <= |actions| && RunAll(old(tree), actions[..completed], inos[..completed]) == Some(tree)
      {
        var next := Run(tree, actions[completed], inos[completed]);
        RunAllAppend(old(tree), actions[..completed], inos[..completed], actions[completed], inos[completed]);
        assert actions[..completed + 1] == actions[..completed] + [actions[completed]];
        assert inos[..completed + 1] == inos[..completed] + [inos[completed]];
        if next.None? {
          if RunAll(old(tree), actions, inos).Some? { RunAllPrefix(old(tree), actions, inos, completed + 1); }
          return;
        }
        tree := next.value;
        completed := completed + 1;
      }
      assert actions[..completed] == actions && inos[..completed] == inos;
    }

    // The execution of a plan.  Undisturbed, every action of a sensible plan completes.
    method ExecutePlan(actions: seq<PlanAction>, inos: seq<Ino>, o: Orders) returns (allowed: bool, completed: nat)
      requires |actions| == |inos| && PlanRun.Sound(o)
      modifies this
      ensures allowed <==> actions != [] && Clear(old(tree), actions)
      ensures !allowed ==> tree == old(tree) && completed == 0
      ensures allowed && Sensible(old(tree), actions) && Fresh(old(tree), inos) ==>
        completed == |actions| && RunAll(old(tree), Ordered(actions, o), inos) == Some(tree)
    {
      var issues;
      allowed, issues := PreviewExecution(tree, actions);
      if !allowed { return false, 0; }
      ghost var before := tree;
      completed := RunInOrder(Ordered(actions, o), inos);
      if Sensible(before, actions) && Fresh(before, inos) {
        OrderedIsFeasible(before, actions, o);
        PlanCompletes(before, Ordered(actions, o), inos);
        assert Ordered(actions, o)[..completed] == Ordered(actions, o) && inos[..completed] == inos;
      }
    }

    // The execution of an undo list, in the order of the list.
    method ExecuteUndo(undos: seq<UndoAction>) returns (allowed: bool, completed: nat)
      modifies this
      ensures allowed <==> undos != [] && UndoClear(old(tree), undos)
      ensures !allowed ==> tree == old(tree) && completed == 0
      ensures allowed ==> completed <= |undos| && UndoAll(old(tree), undos[..completed]) == Some(tree)
      ensures allowed && UndoAll(old(tree), undos).Some? ==> completed == |undos| && UndoAll(old(tree), undos) == Some(tree)
    {
      var issues;
      allowed, issues := PreviewUndo(tree, undos);
      completed := 0;
      if !allowed { return; }
      while completed < |undos|
        invariant completed <= |undos| && UndoAll(old(tree), undos[..completed]) == Some(tree)
      {
        var next := RunUndo(tree, undos[completed]);
        assert undos[..completed + 1][..completed] == undos[..completed];
        if next.None? {
          if UndoAll(old(tree), undos).Some? { UndoAllPrefix(old(tree), undos, completed + 1); }
          return;
        }
        tree := next.value;
        completed := completed + 1;
      }
      assert undos[..completed] == undos;
    }
  }

  // A sensible plan, executed and undone through these methods, leaves every name as it was.
  method ExecuteThenUndoPlan(library: ConnectedLibrary, actions: seq<PlanAction>, inos: seq<Ino>, o: Orders)
    requires |actions| == |inos| > 0 && PlanRun.Sound(o)
    requires Sensible(library.tree, actions) && Fresh(library.tree, inos)
    modifies library
    ensures library.tree.names == old(library.tree.names)
  {
    ghost var before := library.tree;
    var ordered := Ordered(actions, o);
    var undos := Undos(library.tree, ordered, inos);
    var allowed, completed := library.ExecutePlan(actions, inos, o);
    OrderedIsFeasible(before, actions, o);
    ExecuteThenUndo(before, ordered, inos);
    if undos == [] { assert UndoAll(library.tree, undos) == Some(library.tree); }
    hide Ordered, Undos, Feasible, RunAll, Fresh;
    allowed, completed := library.ExecuteUndo(undos);
  }
}
