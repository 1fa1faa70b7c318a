// Executing and undoing a plan on the step machine: one uninterrupted journaled call after another,
// from a disk that shows the tree the plan was made for, and back.
module DiskPlan {
  import opened Wrappers
  import opened FileSystem
  import opened Protocol
  import opened ProtocolInvariant
  import opened ProtocolSafety
  import opened QuietEffect
  import opened Owners
  import opened DiskTree
  import P = Plan
  import T = RoundTrip

  // ---- the calls of a plan ----

  // The paths of an action are resolved on the disk as its turn comes.
  function CallFor(k: Disk, root: Ino, rootId: string, a: P.PlanAction): Option<Call> {
    var t := TreeOn(k, root);
    var s, d := P.Entry(t, a.source), P.Entry(t, a.destination);
    if d.None? then None
    else if a.kind.CreateFolder? then Some(CreateCall(Execution(rootId, a.id), d.value))
    else if s.None? then None
    else Some(MoveCall(Execution(rootId, a.id), s.value, d.value, a.checksum))
  }

  function UndoCallFor(k: Disk, root: Ino, rootId: string, u: P.UndoAction): Option<Call> {
    var t := TreeOn(k, root);
    var s := P.Entry(t, u.source);
    if s.None? then None
    else
      match u
      case RemoveFolder(id, _, original) => Some(RemoveCall(Undo(rootId, id), Execution(rootId, original), s.value))
      case UndoMove(id, _, destination, checksum) =>
        var d := P.Entry(t, destination);
        if d.None? then None else Some(MoveCall(Undo(rootId, id), s.value, d.value, checksum))
  }

  ghost predicate Step(w: World, call: Option<Call>, v: World) {
    call.Some? && Performed(w, call.value, v)
  }

  // The worlds before, between and after the actions of a plan that is executed undisturbed.
  ghost predicate Executed(root: Ino, rootId: string, actions: seq<P.PlanAction>, ws: seq<World>) {
    && |ws| == |actions| + 1
    && forall i :: 0 <= i < |actions| ==> Step(ws[i], CallFor(ws[i].disk, root, rootId, actions[i]), ws[i + 1])
  }

  ghost predicate Undone(root: Ino, rootId: string, undos: seq<P.UndoAction>, ws: seq<World>) {
    && |ws| == |undos| + 1
    && forall i :: 0 <= i < |undos| ==> Step(ws[i], UndoCallFor(ws[i].disk, root, rootId, undos[i]), ws[i + 1])
  }

  predicate Named(a: P.PlanAction) {
    Unreserved(a.destination) && (!a.kind.CreateFolder? ==> Unreserved(a.source))
  }

  // Where a plan starts: an idle process, a disk that shows the tree, a plan that can run on it, and
  // owners that have done nothing yet.
  ghost predicate Ready(w: World, t: P.Tree, rootId: string, actions: seq<P.PlanAction>) {
    && Inv(w) && !Running(w) && Shows(w, t, rootId) && T.Feasible(t, actions)
    && forall i :: 0 <= i < |actions| ==>
         Named(actions[i]) && Unused(w, Execution(rootId, actions[i].id)) && Unused(w, Undo(rootId, actions[i].id))
  }

  // ---- one action ----

  lemma UnusedStays(w: World, v: World, owner: string, other: string)
    requires KeptBy(w, v, owner) && Unused(w, other) && other != owner
    ensures Unused(v, other)
  {
    assert Lookup(v.journals, other) == Lookup(w.journals, other);
  }

  // The number a new folder got; any other number where no folder is made.
  function NumberOf(t: P.Tree, a: P.PlanAction, v: World, spare: Ino): Ino {
    var d := P.Entry(t, a.destination);
    if a.kind.CreateFolder? && d.Some? && d.value !in t.names && d.value in v.disk.names then v.disk.names[d.value] else spare
  }

  // The folder was made, as the report of the execution says.
  predicate CreatedItem(v: World) {
    Delivered(v) && v.active.value.pc.outcome.value.created
  }

  lemma FirstStep(w: World, v: World, t: P.Tree, rootId: string, actions: seq<P.PlanAction>, spare: Ino)
    requires Ready(w, t, rootId, actions) && actions != [] && Step(w, CallFor(w.disk, t.root, rootId, actions[0]), v)
    requires spare !in v.disk.nodes
    ensures var a, ino := actions[0], NumberOf(t, actions[0], v, spare);
      && Delivered(v) && Inv(v) && KeptBy(w, v, Execution(rootId, a.id)) && ino !in w.disk.nodes && (ino == spare || ino in v.disk.nodes)
      && T.Run(t, a, ino).Some? && Shows(v, T.Run(t, a, ino).value, rootId)
      && (a.kind.CreateFolder? ==> (CreatedItem(v) <==> P.Occupant(t, a.destination).None?))
  {
    var a := actions[0];
    T.FirstRuns(t, actions, 0);
    SamePaths(w, t, rootId, a.destination);
    assert Named(a) && Unused(w, Execution(rootId, a.id));
    if a.kind.CreateFolder? {
      CreateRefines(w, v, t, rootId, a);
      CreatedNumber(w, v, t, a, spare);
    } else {
      SamePaths(w, t, rootId, a.source);
      OtherOwners(t, rootId, actions);
      MoveRefines(w, v, t, rootId, Execution(rootId, a.id), a.source, a.destination, a.checksum);
      SpareIsNew(w, v, Execution(rootId, a.id), spare);
    }
  }

  lemma SpareIsNew(w: World, v: World, owner: string, spare: Ino)
    requires KeptBy(w, v, owner) && spare !in v.disk.nodes
    ensures spare !in w.disk.nodes
  {
  }

  lemma CreatedNumber(w: World, v: World, t: P.Tree, a: P.PlanAction, spare: Ino)
    requires P.Sane(t) && a.kind.CreateFolder? && T.Run(t, a, 0).Some? && spare !in v.disk.nodes && NodesStay(w.disk, v.disk)
    requires P.Entry(t, a.destination).Some? && P.Entry(t, a.destination).value in v.disk.names
    requires P.Entry(t, a.destination).value !in t.names ==>
      v.disk.names[P.Entry(t, a.destination).value] !in w.disk.nodes && v.disk.names[P.Entry(t, a.destination).value] in v.disk.nodes
    ensures var ino, d := NumberOf(t, a, v, spare), P.Entry(t, a.destination).value;
      && ino !in w.disk.nodes && (ino == spare || ino in v.disk.nodes)
      && T.Run(t, a, ino) == T.Run(t, a, v.disk.names[d])
      && (d in t.names <==> P.Occupant(t, a.destination).Some?)
  {
  }

  lemma OtherOwners(t: P.Tree, rootId: string, actions: seq<P.PlanAction>)
    requires T.Feasible(t, actions) && actions != []
    ensures forall id :: id in t.created ==> Execution(rootId, id) != Execution(rootId, actions[0].id)
  {
    forall id | id in t.created ensures Execution(rootId, id) != Execution(rootId, actions[0].id) {
      if Execution(rootId, id) == Execution(rootId, actions[0].id) { ExecutionInjective(rootId, id, actions[0].id); }
    }
  }

  lemma RestReady(w: World, v: World, t: P.Tree, rootId: string, actions: seq<P.PlanAction>, ino: Ino)
    requires Ready(w, t, rootId, actions) && actions != [] && ino !in t.nodes && T.Run(t, actions[0], ino).Some?
    requires Inv(v) && Delivered(v) && KeptBy(w, v, Execution(rootId, actions[0].id)) && Shows(v, T.Run(t, actions[0], ino).value, rootId)
    ensures Ready(v, T.Run(t, actions[0], ino).value, rootId, actions[1..])
  {
    T.RestFeasible(t, actions, ino);
    var rest, owner := actions[1..], Execution(rootId, actions[0].id);
    forall i | 0 <= i < |rest|
      ensures Named(rest[i]) && Unused(v, Execution(rootId, rest[i].id)) && Unused(v, Undo(rootId, rest[i].id))
    {
      var id := actions[i + 1].id;
      assert id != actions[0].id && Named(actions[i + 1]);
      if Execution(rootId, id) == owner { ExecutionInjective(rootId, id, actions[0].id); }
      ExecutionIsNoUndo(rootId, actions[0].id, id);
      UnusedStays(w, v, owner, Execution(rootId, id));
      UnusedStays(w, v, owner, Undo(rootId, id));
    }
  }

  // ---- the whole execution ----

  // The undo list that the reports give: the executed plan reversed, folders only where the report
  // says that they were created.
  function UndoList(actions: seq<P.PlanAction>, ws: seq<World>): seq<P.UndoAction>
    requires |ws| == |actions| + 1
    decreases |actions|
  {
    if actions == [] then []
    else
      var a := actions[0];
      UndoList(actions[1..], ws[1..]) +
      (if !a.kind.CreateFolder? then [P.UndoMove(a.id, a.destination, a.source, a.checksum)]
       else if CreatedItem(ws[1]) then [P.RemoveFolder(a.id, a.destination, a.id)] else [])
  }

  // Numbers for the folders of the plan: those they got, and spare ones above `limit` for the rest.
  function Numbers(t: P.Tree, actions: seq<P.PlanAction>, ws: seq<World>, limit: Ino): (inos: seq<Ino>)
    requires |ws| == |actions| + 1
    ensures |inos| == |actions|
    decreases |actions|
  {
    if actions == [] then []
    else
      var ino := NumberOf(t, actions[0], ws[1], limit + |actions|);
      var next := T.Run(t, actions[0], ino);
      [ino] + (if next.Some? then Numbers(next.value, actions[1..], ws[1..], limit) else seq(|actions| - 1, i => 0))
  }

  ghost predicate Above(limit: Ino, ws: seq<World>) {
    forall i :: 0 <= i < |ws| ==> forall n :: n in ws[i].disk.nodes ==> n < limit
  }

  // Fresh for this disk, and different from each other.
  ghost predicate NewNumbers(inos: seq<Ino>, k: Disk, highest: Ino) {
    && (forall i :: 0 <= i < |inos| ==> inos[i] !in k.nodes && inos[i] <= highest)
    && (forall i, j :: 0 <= i < j < |inos| ==> inos[i] != inos[j])
  }

  lemma MoreNumbers(w: World, v: World, ino: Ino, rest: seq<Ino>, highest: Ino)
    requires NodesStay(w.disk, v.disk) && ino !in w.disk.nodes && (ino in v.disk.nodes || ino == highest) && ino <= highest && 0 < highest
    requires NewNumbers(rest, v.disk, highest - 1)
    ensures NewNumbers([ino] + rest, w.disk, highest)
  {
  }

  lemma NumbersFresh(w: World, t: P.Tree, rootId: string, inos: seq<Ino>, highest: Ino)
    requires Shows(w, t, rootId) && NewNumbers(inos, w.disk, highest)
    ensures T.Fresh(t, inos)
  {
  }

  // What an execution amounts to: its worlds show the trees of the plan's run under these numbers,
  // every call delivers its outcome, the undo list is the one of the run, and nobody else's owner was
  // used.
  ghost predicate Refined(t: P.Tree, rootId: string, actions: seq<P.PlanAction>, ws: seq<World>, inos: seq<Ino>)
    requires |inos| == |actions| && |ws| == |actions| + 1
  {
    && T.RunAll(t, actions, inos).Some? && Ready(ws[|actions|], T.RunAll(t, actions, inos).value, rootId, [])
    && T.RunAll(t, actions, inos).value.root == t.root
    && UndoList(actions, ws) == T.Undos(t, actions, inos)
    && (forall i :: 0 < i <= |actions| ==> Delivered(ws[i]))
    && (forall o :: UndoUnused(ws[0], rootId, actions, o) ==> Unused(ws[|actions|], o))
  }

  lemma ExecutedLength(root: Ino, rootId: string, actions: seq<P.PlanAction>, ws: seq<World>)
    requires Executed(root, rootId, actions, ws)
    ensures |ws| == |actions| + 1
  {
  }

  lemma RefinedNone(t: P.Tree, rootId: string, actions: seq<P.PlanAction>, ws: seq<World>, limit: Ino)
    requires actions == [] && Executed(t.root, rootId, actions, ws) && Ready(ws[0], t, rootId, actions)
    ensures |ws| == 1 && Refined(t, rootId, actions, ws, Numbers(t, actions, ws, limit))
    ensures NewNumbers(Numbers(t, actions, ws, limit), ws[0].disk, limit + |actions|)
  {
    assert T.Undos(t, actions, []) == [];
  }

  lemma UnusedOn(w: World, ws: seq<World>, rootId: string, actions: seq<P.PlanAction>)
    requires actions != [] && |ws| == |actions| && KeptBy(w, ws[0], Execution(rootId, actions[0].id))
    requires forall o :: UndoUnused(ws[0], rootId, actions[1..], o) ==> Unused(ws[|actions| - 1], o)
    ensures forall o :: UndoUnused(w, rootId, actions, o) ==> Unused(ws[|actions| - 1], o)
  {
    forall o | UndoUnused(w, rootId, actions, o) ensures Unused(ws[|actions| - 1], o) {
      UnusedStays(w, ws[0], Execution(rootId, actions[0].id), o);
      assert UndoUnused(ws[0], rootId, actions[1..], o);
    }
  }

  lemma RefinedCons(t: P.Tree, rootId: string, actions: seq<P.PlanAction>, ws: seq<World>, ino: Ino, rest: seq<Ino>)
    requires actions != [] && |rest| == |actions| - 1 && |ws| == |actions| + 1 && T.Run(t, actions[0], ino).Some?
    requires T.Run(t, actions[0], ino).value.root == t.root
    requires Refined(T.Run(t, actions[0], ino).value, rootId, actions[1..], ws[1..], rest)
    requires Delivered(ws[1]) && KeptBy(ws[0], ws[1], Execution(rootId, actions[0].id))
    requires actions[0].kind.CreateFolder? ==> (CreatedItem(ws[1]) <==> P.Occupant(t, actions[0].destination).None?)
    ensures Refined(t, rootId, actions, ws, [ino] + rest)
  {
    hide Ready, Delivered, KeptBy, Unused, CreatedItem, T.Run, P.Occupant, T.Reverse;
    var inos := [ino] + rest;
    assert inos[1..] == rest && ws[1..][|actions| - 1] == ws[|actions|];
    Reverses(t, actions[0], ws[1]);
    UnusedOn(ws[0], ws[1..], rootId, actions);
    forall i | 0 < i <= |actions| ensures Delivered(ws[i]) {
      if i > 1 { assert ws[1..][i - 1] == ws[i]; }
    }
  }

  // Executing a ready plan, undisturbed, is its run on the tree.
  lemma {:induction false} PlanRefines(t: P.Tree, rootId: string, actions: seq<P.PlanAction>, ws: seq<World>, limit: Ino)
    requires Executed(t.root, rootId, actions, ws) && Ready(ws[0], t, rootId, actions) && Above(limit, ws)
    ensures Refined(t, rootId, actions, ws, Numbers(t, actions, ws, limit))
    ensures NewNumbers(Numbers(t, actions, ws, limit), ws[0].disk, limit + |actions|)
    decreases |actions|
  {
    hide *;
    ExecutedLength(t.root, rootId, actions, ws);
    if actions == [] {
      RefinedNone(t, rootId, actions, ws, limit);
    } else {
      var ino := HeadRefines(t, rootId, actions, ws, limit);
      NumbersCons(t, actions, ws, limit, ino);
      var t', rest := T.Run(t, actions[0], ino).value, actions[1..];
      PlanRefines(t', rootId, rest, ws[1..], limit);
      MoreNumbers(ws[0], ws[1], ino, Numbers(t', rest, ws[1..], limit), limit + |actions|);
      RefinedCons(t, rootId, actions, ws, ino, Numbers(t', rest, ws[1..], limit));
    }
  }

  lemma NumbersCons(t: P.Tree, actions: seq<P.PlanAction>, ws: seq<World>, limit: Ino, ino: Ino)
    requires |ws| == |actions| + 1 && actions != [] && ino == NumberOf(t, actions[0], ws[1], limit + |actions|)
    requires T.Run(t, actions[0], ino).Some?
    ensures Numbers(t, actions, ws, limit) == [ino] + Numbers(T.Run(t, actions[0], ino).value, actions[1..], ws[1..], limit)
  {
  }

  lemma AboveTail(limit: Ino, ws: seq<World>)
    requires Above(limit, ws) && |ws| > 1
    ensures Above(limit, ws[1..]) && forall n :: n in ws[1].disk.nodes ==> n < limit
  {
  }

  // The first action, and the rest of the plan ready for its turn.
  lemma HeadRefines(t: P.Tree, rootId: string, actions: seq<P.PlanAction>, ws: seq<World>, limit: Ino) returns (ino: Ino)
    requires actions != [] && Executed(t.root, rootId, actions, ws) && Ready(ws[0], t, rootId, actions) && Above(limit, ws)
    ensures var a, spare, t' := actions[0], limit + |actions|, T.Run(t, actions[0], ino);
      && ino == NumberOf(t, a, ws[1], spare) && ino <= spare && ino !in ws[0].disk.nodes && (ino == spare || ino in ws[1].disk.nodes)
      && t'.Some? && t'.value.root == t.root && Delivered(ws[1]) && KeptBy(ws[0], ws[1], Execution(rootId, a.id))
      && (a.kind.CreateFolder? ==> (CreatedItem(ws[1]) <==> P.Occupant(t, a.destination).None?))
      && NodesStay(ws[0].disk, ws[1].disk)
      && Executed(t.root, rootId, actions[1..], ws[1..]) && Above(limit, ws[1..]) && ws[1..][0] == ws[1]
      && Ready(ws[1], t'.value, rootId, actions[1..])
  {
    AboveTail(limit, ws);
    TailExecuted(t.root, rootId, actions, ws);
    assert Step(ws[0], CallFor(ws[0].disk, t.root, rootId, actions[0]), ws[1]);
    hide Ready, Delivered, KeptBy, CreatedItem, Step, CallFor, T.Run, Executed, Above, P.Occupant, NodesStay;
    ino := NumberOf(t, actions[0], ws[1], limit + |actions|);
    FirstStep(ws[0], ws[1], t, rootId, actions, limit + |actions|);
    ReadyNotInTree(ws[0], t, rootId, actions, ino);
    RestReady(ws[0], ws[1], t, rootId, actions, ino);
    RootKept(t, actions[0], ino);
    KeptNodes(ws[0], ws[1], Execution(rootId, actions[0].id));
  }

  lemma KeptNodes(w: World, v: World, owner: string)
    requires KeptBy(w, v, owner)
    ensures NodesStay(w.disk, v.disk)
  {
  }

  lemma ReadyNotInTree(w: World, t: P.Tree, rootId: string, actions: seq<P.PlanAction>, ino: Ino)
    requires Ready(w, t, rootId, actions) && ino !in w.disk.nodes
    ensures ino !in t.nodes
  {
    NotInTree(w, t, rootId, ino);
  }

  // An unused owner that is none of the plan's executions.
  ghost predicate UndoUnused(w: World, rootId: string, actions: seq<P.PlanAction>, o: string) {
    Unused(w, o) && forall i :: 0 <= i < |actions| ==> o != Execution(rootId, actions[i].id)
  }

  lemma NotInTree(w: World, t: P.Tree, rootId: string, ino: Ino)
    requires Shows(w, t, rootId) && ino !in w.disk.nodes
    ensures ino !in t.nodes
  {
  }

  lemma RootKept(t: P.Tree, a: P.PlanAction, ino: Ino)
    requires T.Run(t, a, ino).Some?
    ensures T.Run(t, a, ino).value.root == t.root
  {
  }

  lemma TailExecuted(root: Ino, rootId: string, actions: seq<P.PlanAction>, ws: seq<World>)
    requires Executed(root, rootId, actions, ws) && actions != []
    ensures Executed(root, rootId, actions[1..], ws[1..]) && ws[1..][0] == ws[1]
  {
    forall i | 0 <= i < |actions[1..]|
      ensures Step(ws[1..][i], CallFor(ws[1..][i].disk, root, rootId, actions[1..][i]), ws[1..][i + 1])
    {
      assert Step(ws[i + 1], CallFor(ws[i + 1].disk, root, rootId, actions[i + 1]), ws[i + 2]);
    }
  }

  lemma Reverses(t: P.Tree, a: P.PlanAction, v: World)
    requires a.kind.CreateFolder? ==> (CreatedItem(v) <==> P.Occupant(t, a.destination).None?)
    ensures T.Reverse(t, a) ==
      if !a.kind.CreateFolder? then [P.UndoMove(a.id, a.destination, a.source, a.checksum)]
      else if CreatedItem(v) then [P.RemoveFolder(a.id, a.destination, a.id)] else []
  {
  }

  // ---- the whole undo ----

  predicate UndoNamed(u: P.UndoAction) {
    Unreserved(u.source) && (u.UndoMove? ==> Unreserved(u.destination))
  }

  ghost predicate DistinctIds(undos: seq<P.UndoAction>) {
    forall i, j :: 0 <= i < j < |undos| ==> undos[i].id != undos[j].id
  }

  // Where an undo list starts: it runs through on the tree, its owners have done nothing yet.
  ghost predicate UndoReady(w: World, t: P.Tree, rootId: string, undos: seq<P.UndoAction>) {
    && Inv(w) && !Running(w) && Shows(w, t, rootId) && P.Sane(t) && T.UndoAll(t, undos).Some?
    && (forall i :: 0 <= i < |undos| ==> UndoNamed(undos[i]) && Unused(w, Undo(rootId, undos[i].id)))
    && DistinctIds(undos)
  }

  lemma UndoneStep(w: World, v: World, t: P.Tree, rootId: string, u: P.UndoAction)
    requires Inv(w) && !Running(w) && Shows(w, t, rootId) && P.Sane(t) && T.RunUndo(t, u).Some?
    requires UndoNamed(u) && Unused(w, Undo(rootId, u.id)) && Step(w, UndoCallFor(w.disk, t.root, rootId, u), v)
    ensures var t' := T.RunUndo(t, u).value;
      Inv(v) && Delivered(v) && KeptBy(w, v, Undo(rootId, u.id)) && Shows(v, t', rootId) && P.Sane(t') && t'.root == t.root
  {
    SamePaths(w, t, rootId, u.source);
    match u {
      case RemoveFolder(_, _, _) => RemoveRefines(w, v, t, rootId, u);
      case UndoMove(id, source, destination, checksum) =>
        SamePaths(w, t, rootId, destination);
        forall x | x in t.created ensures Execution(rootId, x) != Undo(rootId, id) { ExecutionIsNoUndo(rootId, x, id); }
        MoveRefines(w, v, t, rootId, Undo(rootId, id), source, destination, checksum);
    }
    SaneAfter(t, u);
  }

  lemma SaneAfter(t: P.Tree, u: P.UndoAction)
    requires P.Sane(t) && T.RunUndo(t, u).Some?
    ensures P.Sane(T.RunUndo(t, u).value) && T.RunUndo(t, u).value.root == t.root
  {
  }

  // The world after the first k undo actions shows the tree after them.
  ghost predicate UndoneSoFar(w: World, t: P.Tree, rootId: string, undos: seq<P.UndoAction>, k: nat)
    requires k <= |undos|
  {
    var reached := T.UndoAll(t, undos[..k]);
    && reached.Some? && Inv(w) && !Running(w) && Shows(w, reached.value, rootId) && P.Sane(reached.value) && reached.value.root == t.root
    && forall i :: k <= i < |undos| ==> Unused(w, Undo(rootId, undos[i].id))
  }

  lemma UndoUnusedStays(w: World, v: World, rootId: string, undos: seq<P.UndoAction>, k: nat)
    requires k < |undos| && KeptBy(w, v, Undo(rootId, undos[k].id))
    requires forall i :: k <= i < |undos| ==> Unused(w, Undo(rootId, undos[i].id))
    requires DistinctIds(undos)
    ensures forall i :: k + 1 <= i < |undos| ==> Unused(v, Undo(rootId, undos[i].id))
  {
    forall i | k + 1 <= i < |undos| ensures Unused(v, Undo(rootId, undos[i].id)) {
      if Undo(rootId, undos[i].id) == Undo(rootId, undos[k].id) { UndoInjective(rootId, undos[i].id, undos[k].id); }
      UnusedStays(w, v, Undo(rootId, undos[k].id), Undo(rootId, undos[i].id));
    }
  }

  lemma UndoAllNext(t: P.Tree, undos: seq<P.UndoAction>, k: nat)
    requires k < |undos| && T.UndoAll(t, undos).Some?
    ensures T.UndoAll(t, undos[..k]).Some? && T.UndoAll(t, undos[..k + 1]).Some?
    ensures T.UndoAll(t, undos[..k + 1]) == T.RunUndo(T.UndoAll(t, undos[..k]).value, undos[k])
  {
    T.UndoAllPrefix(t, undos, k);
    T.UndoAllPrefix(t, undos, k + 1);
    assert undos[..k + 1][..k] == undos[..k];
  }

  // Undoing, undisturbed, is the list's run on the tree.
  lemma {:induction false} UndoRefines(t: P.Tree, rootId: string, undos: seq<P.UndoAction>, ws: seq<World>, k: nat)
    requires Undone(t.root, rootId, undos, ws) && UndoReady(ws[0], t, rootId, undos) && k <= |undos|
    ensures UndoneSoFar(ws[k], t, rootId, undos, k)
    ensures forall i :: 0 < i <= k ==> Delivered(ws[i])
  {
    if k == 0 {
      assert undos[..0] == [];
    } else {
      UndoRefines(t, rootId, undos, ws, k - 1);
      UndoAllNext(t, undos, k - 1);
      assert Step(ws[k - 1], UndoCallFor(ws[k - 1].disk, t.root, rootId, undos[k - 1]), ws[k]);
      hide Inv, Shows, Step, UndoCallFor, Delivered, KeptBy, Unused, P.Sane, T.RunUndo, T.UndoAll;
      UndoneStep(ws[k - 1], ws[k], T.UndoAll(t, undos[..k - 1]).value, rootId, undos[k - 1]);
      UndoUnusedStays(ws[k - 1], ws[k], rootId, undos, k - 1);
      DeliveredIdle(ws[k]);
    }
  }

  lemma DeliveredIdle(v: World)
    requires Delivered(v)
    ensures !Running(v)
  {
  }

  // ---- there and back ----

  // Every undo action takes back an action of the plan, each another one.
  lemma {:induction false} UndosNamed(t: P.Tree, actions: seq<P.PlanAction>, inos: seq<Ino>, k: nat) returns (i: nat)
    requires |inos| == |actions| && k < |T.Undos(t, actions, inos)|
    ensures i < |actions| && T.Undos(t, actions, inos)[k].id == actions[i].id
    ensures Named(actions[i]) ==> UndoNamed(T.Undos(t, actions, inos)[k])
    decreases |actions|
  {
    var t' := T.Run(t, actions[0], inos[0]).value;
    var first := T.Undos(t', actions[1..], inos[1..]);
    if k < |first| {
      var j := UndosNamed(t', actions[1..], inos[1..], k);
      i := j + 1;
    } else {
      i := 0;
    }
  }

  lemma DistinctWithLast(first: seq<P.UndoAction>, last: seq<P.UndoAction>)
    requires DistinctIds(first) && |last| <= 1 && (last != [] ==> forall i :: 0 <= i < |first| ==> first[i].id != last[0].id)
    ensures DistinctIds(first + last)
  {
  }

  lemma {:induction false} UndosDiffer(t: P.Tree, actions: seq<P.PlanAction>, inos: seq<Ino>)
    requires |inos| == |actions| && forall i, j :: 0 <= i < j < |actions| ==> actions[i].id != actions[j].id
    ensures DistinctIds(T.Undos(t, actions, inos))
    decreases |actions|
  {
    if T.Undos(t, actions, inos) != [] {
      var t' := T.Run(t, actions[0], inos[0]).value;
      var first, last := T.Undos(t', actions[1..], inos[1..]), T.Reverse(t, actions[0]);
      UndosDiffer(t', actions[1..], inos[1..]);
      forall i | 0 <= i < |first| ensures first[i].id != actions[0].id {
        var m := UndosNamed(t', actions[1..], inos[1..], i);
        assert actions[1..][m] == actions[m + 1];
      }
      DistinctWithLast(first, last);
    }
  }

  // The undo preview sees on the disk what it would see on the tree.
  lemma PreviewOnDisk(w: World, t: P.Tree, rootId: string, undos: seq<P.UndoAction>)
    requires Shows(w, t, rootId) && P.Sane(t) && P.UndoClear(t, undos)
    ensures P.UndoClear(TreeOn(w.disk, t.root), undos)
  {
    var d := TreeOn(w.disk, t.root);
    forall k | 0 <= k < |undos| ensures P.UndoPreviewed(d, undos, k) {
      assert P.UndoPreviewed(t, undos, k);
      SamePaths(w, t, rootId, undos[k].source);
      if undos[k].UndoMove? { SamePaths(w, t, rootId, undos[k].destination); }
    }
  }

  lemma UndoStarts(w: World, v: World, t: P.Tree, n: P.Tree, rootId: string, actions: seq<P.PlanAction>, inos: seq<Ino>)
    requires Ready(w, t, rootId, actions) && |inos| == |actions| && T.Fresh(t, inos)
    requires T.RunAll(t, actions, inos) == Some(n) && Ready(v, n, rootId, [])
    requires forall o :: UndoUnused(w, rootId, actions, o) ==> Unused(v, o)
    ensures UndoReady(v, n, rootId, T.Undos(t, actions, inos))
  {
    T.ExecuteThenUndo(t, actions, inos);
    UndosDiffer(t, actions, inos);
    var l := T.Undos(t, actions, inos);
    forall k | 0 <= k < |l| ensures UndoNamed(l[k]) && Unused(v, Undo(rootId, l[k].id)) {
      var i := UndosNamed(t, actions, inos, k);
      assert Named(actions[i]) && Unused(w, Undo(rootId, actions[i].id));
      forall j | 0 <= j < |actions| ensures Undo(rootId, l[k].id) != Execution(rootId, actions[j].id) {
        ExecutionIsNoUndo(rootId, actions[j].id, l[k].id);
      }
      assert UndoUnused(w, rootId, actions, Undo(rootId, l[k].id));
    }
  }

  lemma Limit(ws: seq<World>) returns (limit: Ino)
    ensures Above(limit, ws)
    decreases |ws|
  {
    limit := 0;
    if ws != [] {
      var last := |ws| - 1;
      var below := Limit(ws[..last]);
      var own := FreshNumber(ws[last].disk.nodes.Keys);
      limit := if below < own then own else below;
      forall i, n | 0 <= i < |ws| && n in ws[i].disk.nodes ensures n < limit {
        if i < last { assert ws[..last][i] == ws[i]; } else { assert n in ws[last].disk.nodes.Keys; }
      }
    }
  }

  // Executing a plan, undisturbed, delivers every outcome; the undo preview then accepts the list that
  // the reports give; and undoing it, undisturbed, delivers every outcome again and gives every public
  // name on the disk its inode back.
  lemma ExecuteThenUndoOnDisk(t: P.Tree, rootId: string, actions: seq<P.PlanAction>, ws: seq<World>, us: seq<World>)
    requires Executed(t.root, rootId, actions, ws) && Ready(ws[0], t, rootId, actions)
    requires Undone(t.root, rootId, UndoList(actions, ws), us) && us[0] == ws[|actions|]
    ensures forall i :: 0 < i <= |actions| ==> Delivered(ws[i])
    ensures P.UndoClear(TreeOn(ws[|actions|].disk, t.root), UndoList(actions, ws))
    ensures forall i :: 0 < i < |us| ==> Delivered(us[i])
    ensures PublicNames(us[|us| - 1].disk) == PublicNames(ws[0].disk)
  {
    var limit := Limit(ws);
    PlanRefines(t, rootId, actions, ws, limit);
    BackOnDisk(t, rootId, actions, ws, us, Numbers(t, actions, ws, limit), limit + |actions|);
  }

  lemma BackOnDisk(t: P.Tree, rootId: string, actions: seq<P.PlanAction>, ws: seq<World>, us: seq<World>, inos: seq<Ino>, highest: Ino)
    requires |ws| == |actions| + 1 && Ready(ws[0], t, rootId, actions)
    requires |inos| == |actions| && NewNumbers(inos, ws[0].disk, highest) && Refined(t, rootId, actions, ws, inos)
    requires Undone(t.root, rootId, UndoList(actions, ws), us) && us[0] == ws[|actions|]
    ensures P.UndoClear(TreeOn(us[0].disk, t.root), UndoList(actions, ws))
    ensures forall i :: 0 < i < |us| ==> Delivered(us[i])
    ensures PublicNames(us[|us| - 1].disk) == PublicNames(ws[0].disk)
  {
    hide NewNumbers, Delivered, T.RunAll, T.Undos, T.UndoAll, P.UndoClear, T.Fresh, P.Sane, Inv, UndoReady, UndoList, CreatedItem, Step,
      UndoCallFor;
    var undos, n := UndoList(actions, ws), T.RunAll(t, actions, inos).value;
    NumbersFresh(ws[0], t, rootId, inos, highest);
    T.ExecuteThenUndo(t, actions, inos);
    PreviewOnDisk(us[0], n, rootId, undos);
    UndoStarts(ws[0], us[0], t, n, rootId, actions, inos);
    UndoRefines(n, rootId, undos, us, |undos|);
    assert undos[..|undos|] == undos;
  }
}
