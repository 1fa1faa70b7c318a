// Executing a clear plan and undoing it restores every name, in a library nobody else touches.
module RoundTrip {
  import opened Wrappers
  import opened FileSystem
  import opened Plan

  // ---- one action, undisturbed ----

  function MoveTo(t: Tree, source: Path, destination: Path, checksum: Option<string>): Option<Tree> {
    var s, d := Entry(t, source), Entry(t, destination);
    if Intact(Occupant(t, source), checksum) && d.Some? && d.value !in t.names
    then Some(t.(names := (t.names - {s.value})[d.value := t.names[s.value]])) else None
  }

  // `ino` is the number a new folder gets.  A folder that is there already is completed, not created.
  function Run(t: Tree, a: PlanAction, ino: Ino): Option<Tree> {
    if a.kind.CreateFolder? then
      var d := Entry(t, a.destination);
      if d.None? then None
      else if d.value in t.names then (if Occupant(t, a.destination) == Some(Directory) then Some(t) else None)
      else Some(t.(names := t.names[d.value := ino], nodes := t.nodes[ino := Directory], created := t.created[a.id := ino]))
    else MoveTo(t, a.source, a.destination, a.checksum)
  }

  predicate Vacant(t: Tree, ino: Ino) {
    forall n :: n in t.names ==> n.dir != ino
  }

  // journaledRemoveFolder removes only the empty directory that the original action created.
  function RunUndo(t: Tree, u: UndoAction): Option<Tree> {
    match u
    case UndoMove(_, source, destination, checksum) => MoveTo(t, source, destination, checksum)
    case RemoveFolder(_, source, original) =>
      var e := Entry(t, source);
      if original in t.created && Occupant(t, source) == Some(Directory) && t.names[e.value] == t.created[original] && Vacant(t, t.created[original])
      then Some(t.(names := t.names - {e.value})) else None
  }

  function RunAll(t: Tree, actions: seq<PlanAction>, inos: seq<Ino>): Option<Tree>
    requires |actions| == |inos|
    decreases |actions|
  {
    if actions == [] then Some(t)
    else
      var next := Run(t, actions[0], inos[0]);
      if next.None? then None else RunAll(next.value, actions[1..], inos[1..])
  }

  function UndoAll(t: Tree, undos: seq<UndoAction>): Option<Tree> {
    if undos == [] then Some(t)
    else
      var before := UndoAll(t, undos[..|undos| - 1]);
      if before.None? then None else RunUndo(before.value, undos[|undos| - 1])
  }

  // What takes one executed action back: nothing for a folder that was there already.
  function Reverse(t: Tree, a: PlanAction): seq<UndoAction> {
    if a.kind.CreateFolder? then
      if Occupant(t, a.destination).Some? then [] else [RemoveFolder(a.id, a.destination, a.id)]
    else [UndoMove(a.id, a.destination, a.source, a.checksum)]
  }

  // The undo list: the executed plan, reversed.
  function Undos(t: Tree, actions: seq<PlanAction>, inos: seq<Ino>): seq<UndoAction>
    requires |actions| == |inos|
    decreases |actions|
  {
    if actions == [] || Run(t, actions[0], inos[0]).None? then []
    else Undos(Run(t, actions[0], inos[0]).value, actions[1..], inos[1..]) + Reverse(t, actions[0])
  }

  // ---- plans that can run ----

  // The parent folder exists, or an earlier action creates it.
  ghost predicate ParentReady(t: Tree, actions: seq<PlanAction>, i: nat)
    requires i < |actions|
  {
    var d := actions[i].destination;
    && d != []
    && (FolderAt(t, Parent(d)).Some? ||
        exists j :: 0 <= j < i && actions[j].kind.CreateFolder? && actions[j].destination == Parent(d))
  }

  // A clear preview, and what the preview does not check: parents, and distinct sources.
  ghost predicate Feasible(t: Tree, actions: seq<PlanAction>) {
    && Sane(t) && Clear(t, actions)
    && (forall i :: 0 <= i < |actions| ==> ParentReady(t, actions, i))
    && (forall i, j | 0 <= i < j < |actions| && !actions[i].kind.CreateFolder? && !actions[j].kind.CreateFolder? ::
          actions[i].source != actions[j].source)
    && (forall i, j | 0 <= i < j < |actions| :: actions[i].id != actions[j].id)
    && (forall i | 0 <= i < |actions| :: actions[i].id !in t.created)
  }

  ghost predicate Fresh(t: Tree, inos: seq<Ino>) {
    && (forall i :: 0 <= i < |inos| ==> inos[i] !in t.nodes)
    && (forall i, j :: 0 <= i < j < |inos| ==> inos[i] != inos[j])
  }

  // ---- what one action does to paths ----

  lemma {:induction false} MoveKeepsDirectories(t: Tree, source: Path, destination: Path, checksum: Option<string>, p: Path)
    requires Sane(t) && MoveTo(t, source, destination, checksum).Some?
    ensures FolderAt(MoveTo(t, source, destination, checksum).value, p) == FolderAt(t, p)
    decreases |p|
  {
    if p != [] { MoveKeepsDirectories(t, source, destination, checksum, p[..|p| - 1]); }
  }

  ghost predicate Creates(t: Tree, a: PlanAction, ino: Ino) {
    a.kind.CreateFolder? && Entry(t, a.destination).Some? && Entry(t, a.destination).value !in t.names && ino !in t.nodes
  }

  lemma {:induction false} CreationAddsDirectory(t: Tree, a: PlanAction, ino: Ino, p: Path)
    requires Sane(t) && Creates(t, a, ino)
    ensures FolderAt(Run(t, a, ino).value, p) == if p == a.destination then Some(ino) else FolderAt(t, p)
    decreases |p|
  {
    if p != [] {
      CreationAddsDirectory(t, a, ino, Parent(p));
      if FolderAt(t, Parent(p)).Some? && Name(FolderAt(t, Parent(p)).value, p[|p| - 1]) == Entry(t, a.destination).value {
        EntryInjective(t, p, a.destination);
      }
      if p == a.destination { assert FolderAt(t, Parent(p)).Some?; }
    }
  }

  lemma RunSane(t: Tree, a: PlanAction, ino: Ino)
    requires Sane(t) && Run(t, a, ino).Some? && ino !in t.nodes
    ensures Sane(Run(t, a, ino).value)
  {
  }

  // Every other path denotes what it denoted before.
  ghost predicate SameThere(t: Tree, t': Tree, p: Path) {
    && Occupant(t', p) == Occupant(t, p) && (Entry(t, p).Some? ==> Entry(t', p) == Entry(t, p))
    && (Occupant(t, p).Some? ==> t'.names[Entry(t, p).value] == t.names[Entry(t, p).value])
  }

  lemma MoveSameThere(t: Tree, source: Path, destination: Path, checksum: Option<string>, p: Path)
    requires Sane(t) && MoveTo(t, source, destination, checksum).Some? && p != source && p != destination
    ensures SameThere(t, MoveTo(t, source, destination, checksum).value, p)
  {
    if p != [] {
      MoveKeepsDirectories(t, source, destination, checksum, Parent(p));
      if Entry(t, p).Some? && Entry(t, p) == Entry(t, source) { EntryInjective(t, p, source); }
      if Entry(t, p).Some? && Entry(t, p) == Entry(t, destination) { EntryInjective(t, p, destination); }
    }
  }

  lemma CreationSameThere(t: Tree, a: PlanAction, ino: Ino, p: Path)
    requires Sane(t) && Creates(t, a, ino) && p != a.destination
    ensures SameThere(t, Run(t, a, ino).value, p)
  {
    if p != [] {
      CreationAddsDirectory(t, a, ino, Parent(p));
      if Entry(t, p).Some? && Entry(t, p) == Entry(t, a.destination) { EntryInjective(t, p, a.destination); }
    }
  }

  lemma RunSameThere(t: Tree, a: PlanAction, ino: Ino, p: Path)
    requires Sane(t) && Run(t, a, ino).Some? && ino !in t.nodes && p != a.destination && (a.kind.CreateFolder? || p != a.source)
    ensures SameThere(t, Run(t, a, ino).value, p)
  {
    if Creates(t, a, ino) { CreationSameThere(t, a, ino, p); }
    else if !a.kind.CreateFolder? { MoveSameThere(t, a.source, a.destination, a.checksum, p); }
  }

  // ---- a feasible plan runs to its end ----

  lemma FirstRuns(t: Tree, actions: seq<PlanAction>, ino: Ino)
    requires Feasible(t, actions) && actions != []
    ensures Run(t, actions[0], ino).Some?
  {
    assert Previewed(t, actions[0]) && ParentReady(t, actions, 0);
  }

  // What the first action touches, the others neither read nor need.
  lemma Untouched(t: Tree, actions: seq<PlanAction>, i: nat)
    requires Feasible(t, actions) && 0 < i < |actions|
    ensures actions[i].destination != actions[0].destination
    ensures !actions[0].kind.CreateFolder? ==> actions[i].destination != actions[0].source
    ensures !actions[i].kind.CreateFolder? ==> actions[i].source != actions[0].destination
    ensures !actions[i].kind.CreateFolder? && !actions[0].kind.CreateFolder? ==> actions[i].source != actions[0].source
  {
    assert Previewed(t, actions[0]) && Previewed(t, actions[i]);
  }

  lemma RestPreviewed(t: Tree, actions: seq<PlanAction>, ino: Ino, i: nat)
    requires Feasible(t, actions) && 0 < i < |actions| && ino !in t.nodes && Run(t, actions[0], ino).Some?
    ensures Previewed(Run(t, actions[0], ino).value, actions[i])
  {
    Untouched(t, actions, i);
    assert Previewed(t, actions[i]);
    RunSameThere(t, actions[0], ino, actions[i].destination);
    if !actions[i].kind.CreateFolder? { RunSameThere(t, actions[0], ino, actions[i].source); }
  }

  lemma RunFolders(t: Tree, a: PlanAction, ino: Ino, p: Path)
    requires Sane(t) && Run(t, a, ino).Some? && ino !in t.nodes
    ensures FolderAt(t, p).Some? ==> FolderAt(Run(t, a, ino).value, p) == FolderAt(t, p)
    ensures a.kind.CreateFolder? ==> FolderAt(Run(t, a, ino).value, a.destination).Some?
  {
    if Creates(t, a, ino) {
      CreationAddsDirectory(t, a, ino, p);
      CreationAddsDirectory(t, a, ino, a.destination);
    } else if !a.kind.CreateFolder? {
      MoveKeepsDirectories(t, a.source, a.destination, a.checksum, p);
    }
  }

  lemma RestReady(t: Tree, actions: seq<PlanAction>, ino: Ino, i: nat)
    requires Feasible(t, actions) && i + 1 < |actions| && ino !in t.nodes && Run(t, actions[0], ino).Some?
    ensures ParentReady(Run(t, actions[0], ino).value, actions[1..], i)
  {
    assert ParentReady(t, actions, i + 1);
    var folder := Parent(actions[i + 1].destination);
    RunFolders(t, actions[0], ino, folder);
    if FolderAt(t, folder).None? {
      var j :| 0 <= j < i + 1 && actions[j].kind.CreateFolder? && actions[j].destination == folder;
      if j > 0 { assert actions[1..][j - 1] == actions[j]; }
    }
  }

  lemma RunCreated(t: Tree, a: PlanAction, ino: Ino)
    requires Run(t, a, ino).Some?
    ensures forall id :: id in Run(t, a, ino).value.created ==> id in t.created || id == a.id
  {
  }

  lemma RestFeasible(t: Tree, actions: seq<PlanAction>, ino: Ino)
    requires Feasible(t, actions) && actions != [] && ino !in t.nodes && Run(t, actions[0], ino).Some?
    ensures Feasible(Run(t, actions[0], ino).value, actions[1..])
  {
    var t', rest := Run(t, actions[0], ino).value, actions[1..];
    RunSane(t, actions[0], ino);
    RunCreated(t, actions[0], ino);
    hide Run, Previewed, ParentReady, Sane;
    forall i | 0 <= i < |rest| ensures Previewed(t', rest[i]) { RestPreviewed(t, actions, ino, i + 1); }
    forall i | 0 <= i < |rest| ensures ParentReady(t', rest, i) { RestReady(t, actions, ino, i); }
  }

  lemma RestFresh(t: Tree, a: PlanAction, inos: seq<Ino>)
    requires Fresh(t, inos) && inos != [] && Run(t, a, inos[0]).Some?
    ensures Fresh(Run(t, a, inos[0]).value, inos[1..])
  {
  }

  // Every action of a feasible plan completes.
  lemma {:induction false} PlanCompletes(t: Tree, actions: seq<PlanAction>, inos: seq<Ino>)
    requires |actions| == |inos| && Feasible(t, actions) && Fresh(t, inos)
    ensures RunAll(t, actions, inos).Some?
    decreases |actions|
  {
    if actions != [] {
      FirstRuns(t, actions, inos[0]);
      RestFeasible(t, actions, inos[0]);
      RestFresh(t, actions[0], inos);
      PlanCompletes(Run(t, actions[0], inos[0]).value, actions[1..], inos[1..]);
    }
  }

  // ---- what the rest of a run leaves alone ----

  predicate Apart(actions: seq<PlanAction>, p: Path) {
    forall i :: 0 <= i < |actions| ==> actions[i].destination != p && (actions[i].kind.CreateFolder? || actions[i].source != p)
  }

  lemma {:induction false} RunAllKeeps(t: Tree, actions: seq<PlanAction>, inos: seq<Ino>, p: Path)
    requires |actions| == |inos| && Feasible(t, actions) && Fresh(t, inos) && RunAll(t, actions, inos).Some?
    ensures var n := RunAll(t, actions, inos).value;
      && Sane(n) && (Apart(actions, p) ==> SameThere(t, n, p)) && (FolderAt(t, p).Some? ==> FolderAt(n, p) == FolderAt(t, p))
    decreases |actions|
  {
    if actions != [] {
      var t' := Run(t, actions[0], inos[0]).value;
      RestFeasible(t, actions, inos[0]);
      RestFresh(t, actions[0], inos);
      RunAllKeeps(t', actions[1..], inos[1..], p);
      RunFolders(t, actions[0], inos[0], p);
      if Apart(actions, p) { RunSameThere(t, actions[0], inos[0], p); }
    }
  }

  // The first action's own paths are not touched again.
  lemma FirstStays(t: Tree, actions: seq<PlanAction>, inos: seq<Ino>)
    requires |actions| == |inos| > 0 && Feasible(t, actions) && Fresh(t, inos) && RunAll(t, actions, inos).Some?
    ensures var t', n, a := Run(t, actions[0], inos[0]).value, RunAll(t, actions, inos).value, actions[0];
      && SameThere(t', n, a.destination) && (!a.kind.CreateFolder? ==> SameThere(t', n, a.source))
  {
    var t' := Run(t, actions[0], inos[0]).value;
    RestFeasible(t, actions, inos[0]);
    RestFresh(t, actions[0], inos);
    forall i | 0 < i < |actions| ensures
      && actions[i].destination != actions[0].destination && (actions[i].kind.CreateFolder? || actions[i].source != actions[0].destination)
      && (!actions[0].kind.CreateFolder? ==>
            actions[i].destination != actions[0].source && (actions[i].kind.CreateFolder? || actions[i].source != actions[0].source))
    {
      Untouched(t, actions, i);
    }
    RunAllKeeps(t', actions[1..], inos[1..], actions[0].destination);
    if !actions[0].kind.CreateFolder? { RunAllKeeps(t', actions[1..], inos[1..], actions[0].source); }
  }

  // ---- undoing restores every name ----

  // The same names, over an inode table that may have grown.
  ghost predicate SameNames(u: Tree, t: Tree) {
    && u.root == t.root && u.names == t.names
    && (forall i :: i in t.nodes ==> i in u.nodes && u.nodes[i] == t.nodes[i])
  }

  // And a record of creations that may have grown.
  ghost predicate Like(u: Tree, t: Tree) {
    SameNames(u, t) && forall id :: id in t.created ==> id in u.created && u.created[id] == t.created[id]
  }

  lemma {:induction false} LikeFolders(u: Tree, t: Tree, p: Path)
    requires SameNames(u, t) && Sane(t)
    ensures FolderAt(u, p) == FolderAt(t, p)
    decreases |p|
  {
    if p != [] { LikeFolders(u, t, p[..|p| - 1]); }
  }

  lemma LikePaths(u: Tree, t: Tree, p: Path)
    requires SameNames(u, t) && Sane(t)
    ensures Entry(u, p) == Entry(t, p) && Occupant(u, p) == Occupant(t, p)
  {
    if p != [] { LikeFolders(u, t, p[..|p| - 1]); }
  }

  lemma UndoMoveRestores(t: Tree, a: PlanAction, u: Tree)
    requires Sane(t) && !a.kind.CreateFolder? && Run(t, a, 0).Some? && Like(u, Run(t, a, 0).value)
    ensures var v := MoveTo(u, a.destination, a.source, a.checksum); v.Some? && Like(v.value, t)
  {
    var t' := Run(t, a, 0).value;
    LikePaths(u, t', a.destination);
    LikePaths(u, t', a.source);
    MoveKeepsDirectories(t, a.source, a.destination, a.checksum, Parent(a.source));
    MoveKeepsDirectories(t, a.source, a.destination, a.checksum, Parent(a.destination));
  }

  lemma NewFolderVacant(t: Tree, a: PlanAction, ino: Ino)
    requires Sane(t) && Creates(t, a, ino)
    ensures Vacant(Run(t, a, ino).value, ino)
    ensures Run(t, a, ino).value.names - {Entry(t, a.destination).value} == t.names
  {
  }

  lemma UndoCreationRestores(t: Tree, a: PlanAction, ino: Ino, u: Tree)
    requires Sane(t) && Creates(t, a, ino) && Like(u, Run(t, a, ino).value) && a.id !in t.created
    ensures var v := RunUndo(u, RemoveFolder(a.id, a.destination, a.id)); v.Some? && Like(v.value, t)
  {
    var t' := Run(t, a, ino).value;
    LikePaths(u, t', a.destination);
    RunOwnEntry(t, a, ino);
    NewFolderVacant(t, a, ino);
    var e := Entry(t, a.destination).value;
    assert Occupant(u, a.destination) == Some(Directory) && u.names[e] == ino && u.created[a.id] == ino;
    assert Vacant(u, ino);
  }

  lemma UndoStep(t: Tree, a: PlanAction, ino: Ino, u: Tree)
    requires Sane(t) && ino !in t.nodes && Run(t, a, ino).Some? && Like(u, Run(t, a, ino).value) && a.id !in t.created
    ensures UndoAll(u, Reverse(t, a)).Some? && Like(UndoAll(u, Reverse(t, a)).value, t)
  {
    if Reverse(t, a) != [] {
      var x := Reverse(t, a)[0];
      assert Reverse(t, a)[..0] == [];
      assert UndoAll(u, Reverse(t, a)) == RunUndo(u, x);
      if a.kind.CreateFolder? { UndoCreationRestores(t, a, ino, u); } else { UndoMoveRestores(t, a, u); }
    }
  }

  lemma UndoAllAppend(u: Tree, first: seq<UndoAction>, last: seq<UndoAction>)
    requires |last| <= 1 && UndoAll(u, first).Some?
    ensures UndoAll(u, first + last) == UndoAll(UndoAll(u, first).value, last)
  {
    if last == [] {
      assert first + last == first;
    } else {
      assert (first + last)[..|first + last| - 1] == first && last[..0] == [];
    }
  }

  lemma {:induction false} UndoAllPrefix(t: Tree, undos: seq<UndoAction>, k: nat)
    requires k <= |undos| && UndoAll(t, undos).Some?
    ensures UndoAll(t, undos[..k]).Some?
    decreases |undos|
  {
    if k < |undos| {
      assert undos[..|undos| - 1][..k] == undos[..k];
      UndoAllPrefix(t, undos[..|undos| - 1], k);
    } else {
      assert undos[..k] == undos;
    }
  }

  lemma {:induction false} UndoRestores(t: Tree, actions: seq<PlanAction>, inos: seq<Ino>, u: Tree)
    requires |actions| == |inos| && Feasible(t, actions) && Fresh(t, inos)
    requires RunAll(t, actions, inos).Some? && Like(u, RunAll(t, actions, inos).value)
    ensures UndoAll(u, Undos(t, actions, inos)).Some? && Like(UndoAll(u, Undos(t, actions, inos)).value, t)
    decreases |actions|
  {
    if actions != [] {
      var t' := Run(t, actions[0], inos[0]).value;
      RestFeasible(t, actions, inos[0]);
      RestFresh(t, actions[0], inos);
      UndoRestores(t', actions[1..], inos[1..], u);
      var first := Undos(t', actions[1..], inos[1..]);
      UndoStep(t, actions[0], inos[0], UndoAll(u, first).value);
      UndoAllAppend(u, first, Reverse(t, actions[0]));
    }
  }

  // ---- the preview accepts the undo list ----

  lemma {:induction false} UndosComeFrom(t: Tree, actions: seq<PlanAction>, inos: seq<Ino>, k: nat) returns (i: nat)
    requires |actions| == |inos| && k < |Undos(t, actions, inos)|
    ensures i < |actions| && Undos(t, actions, inos)[k].source == actions[i].destination
    ensures Undos(t, actions, inos)[k].UndoMove? ==> !actions[i].kind.CreateFolder? && Undos(t, actions, inos)[k].destination == actions[i].source
    decreases |actions|
  {
    var t' := Run(t, actions[0], inos[0]).value;
    var first := Undos(t', actions[1..], inos[1..]);
    if k < |first| {
      var j := UndosComeFrom(t', actions[1..], inos[1..], k);
      i := j + 1;
    } else {
      i := 0;
    }
  }

  // Every name a run adds is the source of an undo action.
  lemma {:induction false} NewNames(t: Tree, actions: seq<PlanAction>, inos: seq<Ino>, x: Name) returns (k: nat)
    requires |actions| == |inos| && Feasible(t, actions) && Fresh(t, inos) && RunAll(t, actions, inos).Some?
    requires x in RunAll(t, actions, inos).value.names && x !in t.names
    ensures k < |Undos(t, actions, inos)|
    ensures Entry(RunAll(t, actions, inos).value, Undos(t, actions, inos)[k].source) == Some(x)
    decreases |actions|
  {
    var t' := Run(t, actions[0], inos[0]).value;
    RestFeasible(t, actions, inos[0]);
    RestFresh(t, actions[0], inos);
    if x !in t'.names {
      k := NewNames(t', actions[1..], inos[1..], x);
    } else {
      k := |Undos(t', actions[1..], inos[1..])|;
      FirstStays(t, actions, inos);
      RunOwnEntry(t, actions[0], inos[0]);
    }
  }

  lemma RunOwnEntry(t: Tree, a: PlanAction, ino: Ino)
    requires Sane(t) && Run(t, a, ino).Some? && ino !in t.nodes
    ensures Entry(Run(t, a, ino).value, a.destination) == Entry(t, a.destination)
  {
    if Creates(t, a, ino) { CreationAddsDirectory(t, a, ino, Parent(a.destination)); }
    else if !a.kind.CreateFolder? { MoveKeepsDirectories(t, a.source, a.destination, a.checksum, Parent(a.destination)); }
  }

  // The folder the first action creates is still there at the end.
  lemma CreatedFolderStays(t: Tree, actions: seq<PlanAction>, inos: seq<Ino>)
    requires |actions| == |inos| > 0 && Feasible(t, actions) && Fresh(t, inos) && RunAll(t, actions, inos).Some?
    requires Creates(t, actions[0], inos[0])
    ensures var n, d := RunAll(t, actions, inos).value, actions[0].destination;
      && Sane(n) && FolderAt(n, d) == Some(inos[0]) && Occupant(n, d) == Some(Directory) && n.names[Entry(n, d).value] == inos[0]
  {
    var t', a := Run(t, actions[0], inos[0]).value, actions[0];
    RestFeasible(t, actions, inos[0]);
    RestFresh(t, a, inos);
    CreationAddsDirectory(t, a, inos[0], a.destination);
    RunAllKeeps(t', actions[1..], inos[1..], a.destination);
  }

  // What lies in it at the end, an earlier undo action takes out.
  lemma CreatedEntryLeaves(t: Tree, actions: seq<PlanAction>, inos: seq<Ino>, x: Name)
    requires |actions| == |inos| > 0 && Feasible(t, actions) && Fresh(t, inos) && RunAll(t, actions, inos).Some?
    requires Creates(t, actions[0], inos[0]) && x in RunAll(t, actions, inos).value.names && x.dir == inos[0]
    ensures x.base in Leaving(Undos(Run(t, actions[0], inos[0]).value, actions[1..], inos[1..]), actions[0].destination)
  {
    var t', n, d := Run(t, actions[0], inos[0]).value, RunAll(t, actions, inos).value, actions[0].destination;
    var first := Undos(t', actions[1..], inos[1..]);
    CreatedFolderStays(t, actions, inos);
    RestFeasible(t, actions, inos[0]);
    RestFresh(t, actions[0], inos);
    NewFolderVacant(t, actions[0], inos[0]);
    hide Feasible, Fresh, RunAll, Run, Undos, Sane;
    var k := NewNames(t', actions[1..], inos[1..], x);
    var p := d + [x.base];
    assert Parent(p) == d && p[|p| - 1] == x.base;
    EntryInjective(n, p, first[k].source);
    LeavingExactly(first, d, x.base);
  }

  lemma LastRemovalPreviewed(n: Tree, first: seq<UndoAction>, u: UndoAction)
    requires u.RemoveFolder? && Occupant(n, u.source) == Some(Directory)
    requires forall x :: x in n.names && x.dir == n.names[Entry(n, u.source).value] ==> x.base in Leaving(first, u.source)
    ensures UndoPreviewed(n, first + [u], |first|)
  {
    assert (first + [u])[..|first|] == first && (first + [u])[|first|] == u;
  }

  lemma UndosOfCreation(t: Tree, actions: seq<PlanAction>, inos: seq<Ino>)
    requires |actions| == |inos| > 0 && Creates(t, actions[0], inos[0])
    ensures var a := actions[0];
      Undos(t, actions, inos) == Undos(Run(t, a, inos[0]).value, actions[1..], inos[1..]) + [RemoveFolder(a.id, a.destination, a.id)]
  {
    assert Reverse(t, actions[0]) == [RemoveFolder(actions[0].id, actions[0].destination, actions[0].id)];
  }

  lemma CreatedFolderEmptied(t: Tree, actions: seq<PlanAction>, inos: seq<Ino>)
    requires |actions| == |inos| > 0 && Feasible(t, actions) && Fresh(t, inos) && RunAll(t, actions, inos).Some?
    requires Creates(t, actions[0], inos[0])
    ensures var n, l := RunAll(t, actions, inos).value, Undos(t, actions, inos); |l| > 0 && UndoPreviewed(n, l, |l| - 1)
  {
    var n, a := RunAll(t, actions, inos).value, actions[0];
    var first := Undos(Run(t, a, inos[0]).value, actions[1..], inos[1..]);
    CreatedFolderStays(t, actions, inos);
    UndosOfCreation(t, actions, inos);
    hide Feasible, Fresh, RunAll, Run, Sane, Creates, Undos, FolderAt, Occupant, Entry;
    forall x | x in n.names && x.dir == inos[0] ensures x.base in Leaving(first, a.destination) {
      CreatedEntryLeaves(t, actions, inos, x);
    }
    LastRemovalPreviewed(n, first, RemoveFolder(a.id, a.destination, a.id));
  }

  lemma MovePreviewed(t: Tree, actions: seq<PlanAction>, inos: seq<Ino>)
    requires |actions| == |inos| > 0 && Feasible(t, actions) && Fresh(t, inos) && RunAll(t, actions, inos).Some?
    requires !actions[0].kind.CreateFolder?
    ensures var n, l := RunAll(t, actions, inos).value, Undos(t, actions, inos); |l| > 0 && UndoPreviewed(n, l, |l| - 1)
  {
    var t', a := Run(t, actions[0], inos[0]).value, actions[0];
    FirstStays(t, actions, inos);
    RunOwnEntry(t, a, inos[0]);
    MoveKeepsDirectories(t, a.source, a.destination, a.checksum, Parent(a.source));
  }

  lemma DestinationsDiffer(t: Tree, actions: seq<PlanAction>, inos: seq<Ino>, i: nat)
    requires |actions| == |inos| > 0 && Feasible(t, actions) && Fresh(t, inos) && RunAll(t, actions, inos).Some?
    requires var first := Undos(Run(t, actions[0], inos[0]).value, actions[1..], inos[1..]);
      i < |first| && first[i].UndoMove? && !actions[0].kind.CreateFolder?
    ensures Undos(Run(t, actions[0], inos[0]).value, actions[1..], inos[1..])[i].destination != actions[0].source
  {
    var m := UndosComeFrom(Run(t, actions[0], inos[0]).value, actions[1..], inos[1..], i);
    Untouched(t, actions, m + 1);
  }

  // One more action, taken back last.
  lemma ClearWithLast(n: Tree, first: seq<UndoAction>, last: seq<UndoAction>)
    requires UndoClear(n, first) && |last| <= 1
    requires last != [] ==> UndoPreviewed(n, first + last, |first|)
    requires forall i :: 0 <= i < |first| && last != [] && first[i].UndoMove? && last[0].UndoMove? ==> first[i].destination != last[0].destination
    ensures UndoClear(n, first + last)
  {
    var l := first + last;
    forall k | 0 <= k < |l| ensures UndoPreviewed(n, l, k) {
      if k < |first| { assert l[..k] == first[..k] && UndoPreviewed(n, first, k); }
    }
  }

  lemma LastPreviewed(t: Tree, actions: seq<PlanAction>, inos: seq<Ino>)
    requires |actions| == |inos| > 0 && Feasible(t, actions) && Fresh(t, inos) && RunAll(t, actions, inos).Some?
    requires Reverse(t, actions[0]) != []
    ensures var n, l := RunAll(t, actions, inos).value, Undos(t, actions, inos); |l| > 0 && UndoPreviewed(n, l, |l| - 1)
  {
    if actions[0].kind.CreateFolder? { CreatedFolderEmptied(t, actions, inos); } else { MovePreviewed(t, actions, inos); }
  }

  lemma Unfold(t: Tree, actions: seq<PlanAction>, inos: seq<Ino>)
    requires |actions| == |inos| > 0 && RunAll(t, actions, inos).Some?
    ensures Run(t, actions[0], inos[0]).Some?
    ensures var t' := Run(t, actions[0], inos[0]).value;
      && RunAll(t, actions, inos) == RunAll(t', actions[1..], inos[1..])
      && Undos(t, actions, inos) == Undos(t', actions[1..], inos[1..]) + Reverse(t, actions[0])
    ensures |Reverse(t, actions[0])| <= 1
    ensures Reverse(t, actions[0]) != [] && Reverse(t, actions[0])[0].UndoMove? ==>
      !actions[0].kind.CreateFolder? && Reverse(t, actions[0])[0].destination == actions[0].source
  {
  }

  lemma {:induction false} UndoListClear(t: Tree, actions: seq<PlanAction>, inos: seq<Ino>)
    requires |actions| == |inos| && Feasible(t, actions) && Fresh(t, inos) && RunAll(t, actions, inos).Some?
    ensures UndoClear(RunAll(t, actions, inos).value, Undos(t, actions, inos))
    decreases |actions|
  {
    if actions != [] {
      Unfold(t, actions, inos);
      hide Run, RunAll, Undos, Reverse, Feasible, Fresh, UndoClear, UndoPreviewed;
      var t', n := Run(t, actions[0], inos[0]).value, RunAll(t, actions, inos).value;
      var first, last := Undos(t', actions[1..], inos[1..]), Reverse(t, actions[0]);
      FirstFresh(t, inos);
      RestFeasible(t, actions, inos[0]);
      RestFresh(t, actions[0], inos);
      UndoListClear(t', actions[1..], inos[1..]);
      if last != [] { LastPreviewed(t, actions, inos); }
      forall i | 0 <= i < |first| && last != [] && first[i].UndoMove? && last[0].UndoMove? ensures first[i].destination != last[0].destination {
        DestinationsDiffer(t, actions, inos, i);
      }
      ClearWithLast(n, first, last);
    }
  }

  lemma FirstFresh(t: Tree, inos: seq<Ino>)
    requires Fresh(t, inos) && inos != []
    ensures inos[0] !in t.nodes
  {
  }

  // Execute, then undo: every action completes, the preview accepts the undo list, and running it
  // puts every name back.
  lemma ExecuteThenUndo(t: Tree, actions: seq<PlanAction>, inos: seq<Ino>)
    requires |actions| == |inos| && Feasible(t, actions) && Fresh(t, inos)
    ensures var n, undos := RunAll(t, actions, inos), Undos(t, actions, inos);
      && n.Some? && UndoClear(n.value, undos)
      && UndoAll(n.value, undos).Some? && UndoAll(n.value, undos).value.names == t.names
  {
    PlanCompletes(t, actions, inos);
    UndoListClear(t, actions, inos);
    UndoRestores(t, actions, inos, RunAll(t, actions, inos).value);
  }
}
