// Undisturbed executions and undos exist: every call of a ready plan, and of the undo list after it,
// can be carried through to its end.
module DiskRuns {
  import opened Wrappers
  import opened FileSystem
  import opened Protocol
  import opened ProtocolInvariant
  import opened ProtocolSteps
  import opened ProtocolSafety
  import opened ProtocolOutcomes
  import opened QuietEffect
  import opened Owners
  import opened DiskTree
  import opened DiskPlan
  import Library
  import P = Plan
  import PlanRun
  import T = RoundTrip
  import QuietCreate
  import QuietMove
  import QuietRemove

  // No uninterrupted run of the call gets longer than this.
  ghost predicate Bounded(w: World, call: Call, bound: nat) {
    forall es | Legal(w, es) && Uninterrupted(es, call) :: |es| <= bound
  }

  lemma Extended(w: World, call: Call, es: seq<Event>) returns (es': seq<Event>)
    requires Inv(w) && Legal(w, es) && Uninterrupted(es, call) && Running(Exec(w, es))
    ensures Legal(w, es') && Uninterrupted(es', call) && |es'| == |es| + 1
  {
    InvAlways(w, es);
    StepPossible(Exec(w, es));
    var pick :| Enabled(Exec(w, es), Tick(pick));
    es' := es + [Tick(pick)];
    assert es'[..|es'| - 1] == es;
  }

  lemma {:induction false} Ends(w: World, call: Call, es: seq<Event>, bound: nat) returns (v: World)
    requires Inv(w) && Legal(w, es) && Uninterrupted(es, call) && Bounded(w, call, bound)
    ensures Performed(w, call, v)
    decreases bound + 1 - |es|
  {
    assert |es| <= bound;
    if Running(Exec(w, es)) {
      var es' := Extended(w, call, es);
      v := Ends(w, call, es', bound);
    } else {
      v := Exec(w, es);
    }
  }

  // A call that is bounded from the idle state with nothing left over is so from any idle state.
  lemma CallEnds(w: World, call: Call, bound: nat) returns (v: World)
    requires Inv(w) && !Running(w) && CallOk(w.disk, call) && Bounded(w.(active := None), call, bound)
    ensures Performed(w, call, v)
  {
    forall es | Legal(w, es) && Uninterrupted(es, call) ensures |es| <= bound {
      Restarted(w, w.(active := None), call, es);
    }
    var es := [Start(call)];
    assert es[..0] == [];
    assert Exec(w, []) == w && Enabled(w, Start(call));
    v := Ends(w, call, es, bound);
  }

  lemma MoveBounded(w: World, job: QuietMove.Job, call: Call)
    requires QuietMove.Fresh(w, job) && call.MoveCall? && QuietMove.CallOf(job, call)
    ensures Bounded(w, call, 31)
  {
    forall es | Legal(w, es) && Uninterrupted(es, call) ensures |es| <= 31 {
      assert Exec(w, []) == w;
      QuietMove.FreshMoveCompletes(w, [], call, es, job);
    }
  }

  lemma RemovalBounded(w: World, f: QuietRemove.Folder, call: Call)
    requires QuietRemove.Fresh(w, f) && QuietRemove.CallOf(f, call)
    ensures Bounded(w, call, 17)
  {
    forall es | Legal(w, es) && Uninterrupted(es, call) ensures |es| <= 17 {
      assert Exec(w, []) == w;
      QuietRemove.FreshRemovalReplay(w, [], call, es, f);
    }
  }

  lemma CreationBounded(w: World, c: QuietCreate.Creation, call: Call)
    requires Inv(w) && w.active.None? && Public(w.disk, c.target) && c.owner !in w.journals && QuietCreate.CallOf(c, call)
    ensures Bounded(w, call, 7)
  {
    forall es | Legal(w, es) && Uninterrupted(es, call) ensures |es| <= 7 {
      assert Exec(w, []) == w;
      QuietCreate.FreshCreationIsQuiet(w, c);
      QuietCreate.CreationReplay(w, [], call, es, c, w.disk);
    }
  }

  // ---- one action ----

  lemma ActionEnds(w: World, t: P.Tree, rootId: string, actions: seq<P.PlanAction>) returns (v: World)
    requires Ready(w, t, rootId, actions) && actions != []
    ensures Step(w, CallFor(w.disk, t.root, rootId, actions[0]), v)
  {
    var a, w0 := actions[0], w.(active := None);
    T.FirstRuns(t, actions, 0);
    assert Named(a) && Unused(w, Execution(rootId, a.id));
    SamePaths(w, t, rootId, a.destination);
    EntryPublic(w, t, rootId, a.destination);
    if a.kind.CreateFolder? {
      var c := QuietCreate.Creation(Execution(rootId, a.id), P.Entry(t, a.destination).value);
      var call := CreateCall(c.owner, c.target);
      CreationBounded(w0, c, call);
      v := CallEnds(w, call, 7);
    } else {
      v := MoveEnds(w, t, rootId, Execution(rootId, a.id), a.source, a.destination, a.checksum);
      SamePaths(w, t, rootId, a.source);
    }
  }

  lemma MoveEnds(w: World, t: P.Tree, rootId: string, owner: string, source: P.Path, destination: P.Path,
                 checksum: Option<string>) returns (v: World)
    requires Inv(w) && !Running(w) && Shows(w, t, rootId) && P.Sane(t) && Unused(w, owner)
    requires Unreserved(source) && Unreserved(destination) && T.MoveTo(t, source, destination, checksum).Some?
    ensures Performed(w, MoveCall(owner, P.Entry(t, source).value, P.Entry(t, destination).value, checksum), v)
  {
    var call := MoveCall(owner, P.Entry(t, source).value, P.Entry(t, destination).value, checksum);
    EntryPublic(w, t, rootId, source);
    EntryPublic(w, t, rootId, destination);
    var job := MoveJob(w, t, rootId, owner, source, destination, checksum);
    MoveBounded(w.(active := None), job, call);
    v := CallEnds(w, call, 31);
  }

  lemma UndoEnds(w: World, t: P.Tree, rootId: string, u: P.UndoAction) returns (v: World)
    requires Inv(w) && !Running(w) && Shows(w, t, rootId) && P.Sane(t) && T.RunUndo(t, u).Some?
    requires UndoNamed(u) && Unused(w, Undo(rootId, u.id))
    ensures Step(w, UndoCallFor(w.disk, t.root, rootId, u), v)
  {
    SamePaths(w, t, rootId, u.source);
    match u {
      case RemoveFolder(id, source, original) =>
        var call := RemoveCall(Undo(rootId, id), Execution(rootId, original), P.Entry(t, source).value);
        EntryPublic(w, t, rootId, source);
        var f := RemovalJob(w, t, rootId, u);
        RemovalBounded(w.(active := None), f, call);
        v := CallEnds(w, call, 17);
      case UndoMove(id, source, destination, checksum) =>
        SamePaths(w, t, rootId, destination);
        v := MoveEnds(w, t, rootId, Undo(rootId, id), source, destination, checksum);
    }
  }

  // ---- whole plans ----

  lemma ExecutedCons(root: Ino, rootId: string, actions: seq<P.PlanAction>, w: World, ws: seq<World>)
    requires actions != [] && Executed(root, rootId, actions[1..], ws)
    requires Step(w, CallFor(w.disk, root, rootId, actions[0]), ws[0])
    ensures Executed(root, rootId, actions, [w] + ws)
  {
    var all := [w] + ws;
    forall i | 0 <= i < |actions| ensures Step(all[i], CallFor(all[i].disk, root, rootId, actions[i]), all[i + 1]) {
      if i > 0 { assert Step(ws[i - 1], CallFor(ws[i - 1].disk, root, rootId, actions[1..][i - 1]), ws[i]); }
    }
  }

  // A ready plan can be executed undisturbed.
  lemma {:induction false} PlanRuns(w: World, t: P.Tree, rootId: string, actions: seq<P.PlanAction>) returns (ws: seq<World>)
    requires Ready(w, t, rootId, actions)
    ensures Executed(t.root, rootId, actions, ws) && ws[0] == w
    decreases |actions|
  {
    if actions == [] {
      ws := [w];
    } else {
      var v := ActionEnds(w, t, rootId, actions);
      var spare := FreshNumber(v.disk.nodes.Keys);
      assert spare !in v.disk.nodes.Keys;
      hide Ready, Executed, Step, CallFor, NumberOf, Delivered, KeptBy, CreatedItem, T.Run, Shows, Inv;
      FirstStep(w, v, t, rootId, actions, spare);
      var ino := NumberOf(t, actions[0], v, spare);
      ReadyNotInTree(w, t, rootId, actions, ino);
      RestReady(w, v, t, rootId, actions, ino);
      RootKept(t, actions[0], ino);
      var rest := PlanRuns(v, T.Run(t, actions[0], ino).value, rootId, actions[1..]);
      ExecutedCons(t.root, rootId, actions, w, rest);
      ws := [w] + rest;
    }
  }

  // So can an undo list that runs through on the tree, up to any of its actions.
  lemma {:induction false} UndoRuns(w: World, t: P.Tree, rootId: string, undos: seq<P.UndoAction>, k: nat) returns (ws: seq<World>)
    requires UndoReady(w, t, rootId, undos) && k <= |undos|
    ensures Undone(t.root, rootId, undos[..k], ws) && ws[0] == w
  {
    hide *;
    if k == 0 {
      ws := [w];
      NothingUndone(t.root, rootId, undos, w);
    } else {
      var before := UndoRuns(w, t, rootId, undos, k - 1);
      var n := Reached(t, rootId, undos, before, k - 1);
      var v := UndoEnds(before[k - 1], n, rootId, undos[k - 1]);
      UndoneSnoc(t.root, rootId, undos[..k - 1], undos[k - 1], before, v);
      assert undos[..k] == undos[..k - 1] + [undos[k - 1]];
      ws := before + [v];
    }
  }

  lemma NothingUndone(root: Ino, rootId: string, undos: seq<P.UndoAction>, w: World)
    ensures Undone(root, rootId, undos[..0], [w])
  {
  }

  // Where the next action of the list starts.
  lemma Reached(t: P.Tree, rootId: string, undos: seq<P.UndoAction>, ws: seq<World>, k: nat) returns (n: P.Tree)
    requires k < |undos| && Undone(t.root, rootId, undos[..k], ws) && UndoReady(ws[0], t, rootId, undos)
    ensures |ws| == k + 1 && Inv(ws[k]) && !Running(ws[k]) && Shows(ws[k], n, rootId) && P.Sane(n) && n.root == t.root
    ensures T.RunUndo(n, undos[k]).Some? && UndoNamed(undos[k]) && Unused(ws[k], Undo(rootId, undos[k].id))
  {
    UndoPrefixReady(ws[0], t, rootId, undos, k);
    UndoRefines(t, rootId, undos[..k], ws, k);
    UndoAllNext(t, undos, k);
    StillUnused(t, rootId, undos, ws, k);
    assert undos[..k][..k] == undos[..k];
    n := T.UndoAll(t, undos[..k]).value;
  }

  lemma UndoPrefixReady(w: World, t: P.Tree, rootId: string, undos: seq<P.UndoAction>, k: nat)
    requires UndoReady(w, t, rootId, undos) && k <= |undos|
    ensures UndoReady(w, t, rootId, undos[..k])
  {
    T.UndoAllPrefix(t, undos, k);
  }

  // The owner of the next action is still unused.
  lemma {:induction false} StillUnused(t: P.Tree, rootId: string, undos: seq<P.UndoAction>, ws: seq<World>, k: nat)
    requires k < |undos| && Undone(t.root, rootId, undos[..k], ws) && UndoReady(ws[0], t, rootId, undos)
    ensures Unused(ws[k], Undo(rootId, undos[k].id)) && UndoNamed(undos[k])
  {
    UndoPrefixReady(ws[0], t, rootId, undos, k);
    KeepsUnused(t, rootId, undos, ws, k, k);
  }

  lemma {:induction false} KeepsUnused(t: P.Tree, rootId: string, undos: seq<P.UndoAction>, ws: seq<World>, k: nat, j: nat)
    requires j <= k < |undos| && Undone(t.root, rootId, undos[..k], ws)
    requires UndoReady(ws[0], t, rootId, undos) && UndoReady(ws[0], t, rootId, undos[..k])
    ensures Unused(ws[j], Undo(rootId, undos[k].id))
  {
    if j > 0 {
      KeepsUnused(t, rootId, undos, ws, k, j - 1);
      UndoRefines(t, rootId, undos[..k], ws, j - 1);
      UndoAllNext(t, undos[..k], j - 1);
      var u, n := undos[..k][j - 1], T.UndoAll(t, undos[..k][..j - 1]).value;
      assert Step(ws[j - 1], UndoCallFor(ws[j - 1].disk, t.root, rootId, u), ws[j]);
      UndoneStep(ws[j - 1], ws[j], n, rootId, u);
      assert undos[j - 1].id != undos[k].id;
      if Undo(rootId, undos[k].id) == Undo(rootId, u.id) { UndoInjective(rootId, undos[k].id, u.id); }
      UnusedStays(ws[j - 1], ws[j], Undo(rootId, u.id), Undo(rootId, undos[k].id));
    }
  }

  lemma UndoneSnoc(root: Ino, rootId: string, undos: seq<P.UndoAction>, u: P.UndoAction, ws: seq<World>, v: World)
    requires Undone(root, rootId, undos, ws) && Step(ws[|undos|], UndoCallFor(ws[|undos|].disk, root, rootId, u), v)
    ensures Undone(root, rootId, undos + [u], ws + [v])
  {
    hide Step, UndoCallFor;
    var all, list := ws + [v], undos + [u];
    forall i | 0 <= i < |list| ensures Step(all[i], UndoCallFor(all[i].disk, root, rootId, list[i]), all[i + 1]) {
      if i < |undos| { assert Step(ws[i], UndoCallFor(ws[i].disk, root, rootId, undos[i]), ws[i + 1]); }
    }
  }

  // From every disk that shows a tree on which a plan is feasible, there is an undisturbed execution
  // of the plan and an undisturbed undo of it, and the public names are as before.
  lemma RoundTripRuns(w: World, t: P.Tree, rootId: string, actions: seq<P.PlanAction>) returns (ws: seq<World>, us: seq<World>)
    requires Ready(w, t, rootId, actions)
    ensures Executed(t.root, rootId, actions, ws) && ws[0] == w
    ensures Undone(t.root, rootId, UndoList(actions, ws), us) && us[0] == ws[|actions|]
    ensures PublicNames(us[|us| - 1].disk) == PublicNames(w.disk)
  {
    ws := PlanRuns(w, t, rootId, actions);
    us := UndoExists(t, rootId, actions, ws);
    ExecuteThenUndoOnDisk(t, rootId, actions, ws, us);
  }

  lemma UndoExists(t: P.Tree, rootId: string, actions: seq<P.PlanAction>, ws: seq<World>) returns (us: seq<World>)
    requires Executed(t.root, rootId, actions, ws) && Ready(ws[0], t, rootId, actions)
    ensures Undone(t.root, rootId, UndoList(actions, ws), us) && us[0] == ws[|actions|]
  {
    var limit := Limit(ws);
    PlanRefines(t, rootId, actions, ws, limit);
    us := UndoAfter(t, rootId, actions, ws, Numbers(t, actions, ws, limit), limit + |actions|);
  }

  lemma UndoAfter(t: P.Tree, rootId: string, actions: seq<P.PlanAction>, ws: seq<World>, inos: seq<Ino>, highest: Ino)
    returns (us: seq<World>)
    requires |ws| == |actions| + 1 && Ready(ws[0], t, rootId, actions)
    requires |inos| == |actions| && NewNumbers(inos, ws[0].disk, highest) && Refined(t, rootId, actions, ws, inos)
    ensures Undone(t.root, rootId, UndoList(actions, ws), us) && us[0] == ws[|actions|]
  {
    hide NewNumbers, Delivered, T.RunAll, T.Undos, T.UndoAll, T.Fresh, P.Sane, Inv, UndoReady, UndoList, CreatedItem, Undone;
    var undos, n := UndoList(actions, ws), T.RunAll(t, actions, inos).value;
    NumbersFresh(ws[0], t, rootId, inos, highest);
    UndoStarts(ws[0], ws[|actions|], t, n, rootId, actions, inos);
    us := UndoRuns(ws[|actions|], n, rootId, undos, |undos|);
    assert undos[..|undos|] == undos;
  }

  // In particular a plan with a clear preview, complete in itself, in the order of its execution.
  lemma SensiblePlanRuns(w: World, t: P.Tree, rootId: string, actions: seq<P.PlanAction>, o: PlanRun.Orders)
    returns (ws: seq<World>, us: seq<World>)
    requires Inv(w) && !Running(w) && Shows(w, t, rootId) && Library.Sensible(t, actions) && PlanRun.Sound(o)
    requires forall a :: a in actions ==> Named(a) && Unused(w, Execution(rootId, a.id)) && Unused(w, Undo(rootId, a.id))
    ensures Executed(t.root, rootId, PlanRun.Ordered(actions, o), ws) && ws[0] == w
    ensures Undone(t.root, rootId, UndoList(PlanRun.Ordered(actions, o), ws), us) && us[0] == ws[|actions|]
    ensures PublicNames(us[|us| - 1].disk) == PublicNames(w.disk)
  {
    var ordered := PlanRun.Ordered(actions, o);
    Library.OrderedIsFeasible(t, actions, o);
    Library.OrderedPairwise(actions, o);
    hide Inv, Shows, Named, Unused, T.Feasible, Library.Sensible, PlanRun.Ordered;
    forall i | 0 <= i < |ordered|
      ensures Named(ordered[i]) && Unused(w, Execution(rootId, ordered[i].id)) && Unused(w, Undo(rootId, ordered[i].id))
    {
      assert ordered[i] in actions;
    }
    ws, us := RoundTripRuns(w, t, rootId, ordered);
  }
}
