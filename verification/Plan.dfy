// Plans over a library tree: paths, the two previews, and the order of execution.
module Plan {
  import opened Wrappers
  import opened FileSystem

  // A normalised relative path, segment by segment.
  type Path = seq<string>

  // The tree below a connected root: its public names, the inode table, and the folders that
  // completed creations recorded as their own.
  datatype Tree = Tree(root: Ino, names: map<Name, Ino>, nodes: map<Ino, Node>, created: map<string, Ino>)

  datatype ActionKind = CreateFolder | MoveFile | RenameFile | MoveAndRenameFile
  datatype PlanAction = PlanAction(id: string, kind: ActionKind, source: Path, destination: Path, checksum: Option<string>)

  // `original` is the id of the plan action whose folder is to be removed.
  datatype UndoAction = UndoMove(id: string, source: Path, destination: Path, checksum: Option<string>)
                      | RemoveFolder(id: string, source: Path, original: string)

  // ---- paths ----

  function FolderAt(t: Tree, p: Path): Option<Ino> {
    if p == [] then Some(t.root)
    else
      var parent := FolderAt(t, p[..|p| - 1]);
      if parent.None? then None
      else
        var n := Name(parent.value, p[|p| - 1]);
        if n in t.names && t.names[n] in t.nodes && t.nodes[t.names[n]].Directory? then Some(t.names[n]) else None
  }

  // The directory entry a path denotes, whether or not anything is there.
  function Entry(t: Tree, p: Path): Option<Name> {
    if p == [] then None
    else
      var parent := FolderAt(t, p[..|p| - 1]);
      if parent.None? then None else Some(Name(parent.value, p[|p| - 1]))
  }

  // lstat: what is there.
  function Occupant(t: Tree, p: Path): Option<Node> {
    var e := Entry(t, p);
    if e.Some? && e.value in t.names && t.names[e.value] in t.nodes then Some(t.nodes[t.names[e.value]]) else None
  }

  // Every directory has at most one name, and the root has none.
  ghost predicate Sane(t: Tree) {
    && (forall n :: n in t.names ==> t.names[n] in t.nodes && n.dir in t.nodes && t.names[n] != t.root)
    && (forall m, n | m in t.names && n in t.names && t.names[m] == t.names[n] ::
          t.nodes[t.names[m]].Directory? ==> m == n)
    && t.root in t.nodes
  }

  // Different paths lead to different directories.
  lemma {:induction false} FolderInjective(t: Tree, p: Path, q: Path)
    requires Sane(t) && FolderAt(t, p).Some? && FolderAt(t, p) == FolderAt(t, q)
    ensures p == q
    decreases |p|
  {
    if p != [] && q != [] {
      FolderInjective(t, p[..|p| - 1], q[..|q| - 1]);
      assert p == p[..|p| - 1] + [p[|p| - 1]] && q == q[..|q| - 1] + [q[|q| - 1]];
    }
  }

  lemma EntryInjective(t: Tree, p: Path, q: Path)
    requires Sane(t) && Entry(t, p).Some? && Entry(t, p) == Entry(t, q)
    ensures p == q
  {
    FolderInjective(t, p[..|p| - 1], q[..|q| - 1]);
    assert p == p[..|p| - 1] + [p[|p| - 1]] && q == q[..|q| - 1] + [q[|q| - 1]];
  }

  // ---- preview of an execution ----

  datatype Category = MissingSource | SourceNotFile | ChangedSource | DestinationConflict | DuplicateDestination
                    | DuplicateUndoDestination | FolderNotEmpty | ValidationFailed
  datatype Issue = Issue(actionId: string, category: Category)

  predicate Intact(found: Option<Node>, checksum: Option<string>) {
    found.Some? && found.value.File? && (checksum.Some? && checksum.value != "" ==> found.value.digest == checksum.value)
  }

  // What is wrong with a source, by category.
  predicate SourceBlame(found: Option<Node>, checksum: Option<string>, c: Category) {
    match c
    case MissingSource => found.None?
    case SourceNotFile => found.Some? && !found.value.File?
    case ChangedSource =>
      found.Some? && found.value.File? && checksum.Some? && checksum.value != "" && checksum.value != found.value.digest
    case _ => false
  }

  // validateSourceIntegrity
  function SourceIssues(id: string, found: Option<Node>, checksum: Option<string>): (issues: seq<Issue>)
    ensures issues == [] <==> Intact(found, checksum)
    ensures |issues| <= 1 && forall x :: x in issues <==> x.actionId == id && SourceBlame(found, checksum, x.category)
  {
    if found.None? then [Issue(id, MissingSource)]
    else if !found.value.File? then [Issue(id, SourceNotFile)]
    else if checksum.Some? && checksum.value != "" && found.value.digest != checksum.value then [Issue(id, ChangedSource)]
    else []
  }

  predicate DestinationFree(t: Tree, a: PlanAction) {
    var found := Occupant(t, a.destination);
    found.None? || (a.kind.CreateFolder? && found.value.Directory?)
  }

  predicate Previewed(t: Tree, a: PlanAction) {
    DestinationFree(t, a) && (a.kind != CreateFolder ==> Intact(Occupant(t, a.source), a.checksum))
  }

  // What is wrong with an action of a plan on its own.
  ghost predicate Blame(t: Tree, a: PlanAction, c: Category) {
    || (a.kind != CreateFolder && SourceBlame(Occupant(t, a.source), a.checksum, c))
    || (c == DestinationConflict && Occupant(t, a.destination).Some? &&
          !(a.kind == CreateFolder && Occupant(t, a.destination) == Some(Directory)))
  }

  ghost predicate Blamed(t: Tree, actions: seq<PlanAction>, k: nat, x: Issue)
    requires k <= |actions|
  {
    exists i :: 0 <= i < k && x.actionId == actions[i].id && Blame(t, actions[i], x.category)
  }

  // Its destination is that of another action too.
  ghost predicate Shares(destinations: seq<Path>, ids: seq<string>, x: Issue, c: Category)
    requires |destinations| == |ids|
  {
    x.category == c && exists i, j :: 0 <= i < |ids| && 0 <= j < |ids| && i != j && destinations[i] == destinations[j] && ids[i] == x.actionId
  }

  ghost predicate Clear(t: Tree, actions: seq<PlanAction>) {
    && (forall i :: 0 <= i < |actions| ==> Previewed(t, actions[i]))
    && (forall i, j :: 0 <= i < j < |actions| ==> actions[i].destination != actions[j].destination)
  }

  // The actions that use a destination, in order.
  function Users(destinations: seq<Path>, ids: seq<string>, p: Path): (users: seq<string>)
    requires |destinations| == |ids|
    ensures users != [] <==> p in destinations
  {
    if ids == [] then []
    else
      var last := |ids| - 1;
      Users(destinations[..last], ids[..last], p) + if destinations[last] == p then [ids[last]] else []
  }

  lemma {:induction false} SharedDestination(destinations: seq<Path>, ids: seq<string>, p: Path)
    requires |destinations| == |ids|
    ensures |Users(destinations, ids, p)| > 1 <==> exists i, j :: 0 <= i < j < |ids| && destinations[i] == destinations[j] == p
  {
    if ids != [] {
      var last := |ids| - 1;
      SharedDestination(destinations[..last], ids[..last], p);
      if i, j :| 0 <= i < j < |ids| && destinations[i] == destinations[j] == p {
        if j == last { assert destinations[..last][i] == p; }
        else { assert destinations[..last][i] == destinations[..last][j] == p; }
      }
      if |Users(destinations, ids, p)| > 1 && |Users(destinations[..last], ids[..last], p)| == 1 {
        assert p in destinations[..last];
        var i :| 0 <= i < last && destinations[..last][i] == p;
        assert destinations[i] == destinations[last] == p;
      }
    }
  }

  lemma {:induction false} UsersExactly(destinations: seq<Path>, ids: seq<string>, p: Path, id: string)
    requires |destinations| == |ids|
    ensures id in Users(destinations, ids, p) <==> exists i :: 0 <= i < |ids| && destinations[i] == p && ids[i] == id
  {
    if ids != [] {
      var last := |ids| - 1;
      UsersExactly(destinations[..last], ids[..last], p, id);
      if i :| 0 <= i < |ids| && destinations[i] == p && ids[i] == id {
        if i < last { assert destinations[..last][i] == p && ids[..last][i] == id; }
      }
    }
  }

  // One of several users of a destination shares it, and every one that shares is among them.
  lemma SharesExactly(destinations: seq<Path>, ids: seq<string>, x: Issue, c: Category)
    requires |destinations| == |ids|
    ensures Shares(destinations, ids, x, c) <==>
      x.category == c && exists p :: |Users(destinations, ids, p)| > 1 && x.actionId in Users(destinations, ids, p)
  {
    if i, j :| 0 <= i < |ids| && 0 <= j < |ids| && i != j && destinations[i] == destinations[j] && ids[i] == x.actionId {
      var p := destinations[i];
      SharedDestination(destinations, ids, p);
      UsersExactly(destinations, ids, p, x.actionId);
      var low, high := if i < j then i else j, if i < j then j else i;
      assert destinations[low] == destinations[high] == p;
    }
    if p :| |Users(destinations, ids, p)| > 1 && x.actionId in Users(destinations, ids, p) {
      SharedDestination(destinations, ids, p);
      UsersExactly(destinations, ids, p, x.actionId);
      var i :| 0 <= i < |ids| && destinations[i] == p && ids[i] == x.actionId;
      var m, n :| 0 <= m < n < |ids| && destinations[m] == destinations[n] == p;
      var j := if i == m then n else m;
      assert i != j && destinations[i] == destinations[j];
    }
  }

  // Which action ids are planned for which destination.
  class Destinations {
    var users: map<Path, seq<string>>
    ghost var paths: seq<Path>
    ghost var ids: seq<string>

    ghost predicate Valid()
      reads this
    {
      |paths| == |ids| && forall p :: (p in users <==> p in paths) && (p in users ==> users[p] == Users(paths, ids, p))
    }

    constructor ()
      ensures Valid() && paths == []
    {
      users, paths, ids := map[], [], [];
    }

    method Add(p: Path, id: string)
      requires Valid()
      modifies this
      ensures Valid() && paths == old(paths) + [p] && ids == old(ids) + [id]
    {
      users := users[p := (if p in users then users[p] else []) + [id]];
      paths, ids := paths + [p], ids + [id];
      assert paths[..|paths| - 1] == old(paths) && ids[..|ids| - 1] == old(ids);
    }

    // One issue for every action whose destination is used twice.
    method Duplicates(category: Category) returns (issues: seq<Issue>)
      requires Valid()
      ensures issues == [] <==> forall i, j :: 0 <= i < j < |paths| ==> paths[i] != paths[j]
      ensures forall x :: x in issues <==> Shares(paths, ids, x, category)
    {
      hide Shares;
      issues := [];
      var keys := users.Keys;
      while keys != {}
        invariant keys <= users.Keys
        invariant issues == [] <==> forall p :: p in users && p !in keys ==> |users[p]| <= 1
        invariant forall x :: x in issues <==> NamedIn(x, category, users.Keys - keys)
      {
        var p :| p in keys;
        NamedMore(category, users.Keys - keys, p);
        assert users.Keys - (keys - {p}) == users.Keys - keys + {p};
        keys := keys - {p};
        if |users[p]| > 1 {
          issues := issues + Sharing(users[p], category);
          assert p in users && p !in keys;
        }
      }
      AllShares(category);
      forall p ensures p in users ==> (|users[p]| > 1 <==> exists i, j :: 0 <= i < j < |ids| && paths[i] == paths[j] == p) {
        if p in users { SharedDestination(paths, ids, p); }
      }
      if i, j :| 0 <= i < j < |paths| && paths[i] == paths[j] {
        assert paths[i] in users;
      }
    }

    // The issue names a user of one of these destinations, which has several.
    ghost predicate NamedIn(x: Issue, category: Category, destinations: set<Path>)
      reads this
    {
      x.category == category && exists p :: p in destinations && p in users && |users[p]| > 1 && x.actionId in users[p]
    }

    lemma NamedMore(category: Category, destinations: set<Path>, p: Path)
      requires p in users
      ensures forall x :: NamedIn(x, category, destinations + {p}) <==>
        NamedIn(x, category, destinations) || (x.category == category && |users[p]| > 1 && x.actionId in users[p])
    {
    }

    lemma AllShares(category: Category)
      requires Valid()
      ensures forall x :: NamedIn(x, category, users.Keys) <==> Shares(paths, ids, x, category)
    {
      forall x ensures NamedIn(x, category, users.Keys) <==> Shares(paths, ids, x, category) {
        NamedShares(x, category);
      }
    }

    lemma NamedShares(x: Issue, category: Category)
      requires Valid()
      ensures NamedIn(x, category, users.Keys) <==> Shares(paths, ids, x, category)
    {
      SharesExactly(paths, ids, x, category);
      hide Shares;
      if NamedIn(x, category, users.Keys) {
        var p :| p in users.Keys && p in users && |users[p]| > 1 && x.actionId in users[p];
        assert users[p] == Users(paths, ids, p);
        assert |Users(paths, ids, p)| > 1 && x.actionId in Users(paths, ids, p);
        assert Shares(paths, ids, x, category);
      } else if x.category == category {
        forall p | |Users(paths, ids, p)| > 1 ensures x.actionId !in Users(paths, ids, p) {
          assert p in users && users[p] == Users(paths, ids, p);
        }
      }
    }
  }

  function Sharing(ids: seq<string>, category: Category): (issues: seq<Issue>)
    ensures |issues| == |ids| && forall x :: x in issues <==> x.category == category && x.actionId in ids
  {
    var issues := seq(|ids|, i requires 0 <= i < |ids| => Issue(ids[i], category));
    assert forall i :: 0 <= i < |ids| ==> issues[i].actionId == ids[i];
    issues
  }

  // previewBridgeExecution: clear exactly when every destination is free and used once and every
  // source is the authorised file; otherwise every cause is named, with its action.
  method PreviewExecution(t: Tree, actions: seq<PlanAction>) returns (canExecute: bool, issues: seq<Issue>)
    ensures canExecute <==> actions != [] && Clear(t, actions)
    ensures issues == [] <==> Clear(t, actions)
    ensures forall x :: x in issues <==>
      Blamed(t, actions, |actions|, x) || Shares(Destined(actions), Named(actions), x, DuplicateDestination)
  {
    hide Occupant, Blame, Previewed, Shares;
    issues := [];
    var destinations := new Destinations();
    for k := 0 to |actions|
      invariant destinations.Valid() && fresh(destinations)
      invariant destinations.paths == Destined(actions[..k]) && destinations.ids == Named(actions[..k])
      invariant issues == [] <==> forall i :: 0 <= i < k ==> Previewed(t, actions[i])
      invariant forall x :: x in issues <==> Blamed(t, actions, k, x)
    {
      var action := actions[k];
      destinations.Add(action.destination, action.id);
      var found := ActionIssues(t, action);
      BlamedNext(t, actions, k);
      issues := issues + found;
      assert Destined(actions[..k + 1]) == Destined(actions[..k]) + [action.destination];
      assert Named(actions[..k + 1]) == Named(actions[..k]) + [action.id];
    }
    assert actions[..|actions|] == actions;
    assert forall i :: 0 <= i < |actions| ==> destinations.paths[i] == actions[i].destination;
    var duplicates := destinations.Duplicates(DuplicateDestination);
    issues := issues + duplicates;
    canExecute := issues == [] && |actions| > 0;
  }

  function Destined(actions: seq<PlanAction>): (paths: seq<Path>)
    ensures |paths| == |actions|
  {
    seq(|actions|, i requires 0 <= i < |actions| => actions[i].destination)
  }

  function Named(actions: seq<PlanAction>): (ids: seq<string>)
    ensures |ids| == |actions|
  {
    seq(|actions|, i requires 0 <= i < |actions| => actions[i].id)
  }

  lemma BlamedNext(t: Tree, actions: seq<PlanAction>, k: nat)
    requires k < |actions|
    ensures forall x :: Blamed(t, actions, k + 1, x) <==>
      Blamed(t, actions, k, x) || (x.actionId == actions[k].id && Blame(t, actions[k], x.category))
  {
    hide Blame;
  }

  // The issues of one action on its own.
  method ActionIssues(t: Tree, action: PlanAction) returns (issues: seq<Issue>)
    ensures issues == [] <==> Previewed(t, action)
    ensures forall x :: x in issues <==> x.actionId == action.id && Blame(t, action, x.category)
  {
    hide Occupant;
    issues := [];
    if action.kind != CreateFolder {
      issues := issues + SourceIssues(action.id, Occupant(t, action.source), action.checksum);
    }
    var found := Occupant(t, action.destination);
    if found.Some? && !(action.kind.CreateFolder? && found.value.Directory?) {
      issues := issues + [Issue(action.id, DestinationConflict)];
    }
  }

  // ---- preview of an undo ----

  // Every entry of the folder is the source of an earlier undo action.
  ghost predicate Emptied(t: Tree, actions: seq<UndoAction>, k: nat, ino: Ino)
    requires k < |actions|
  {
    forall n :: n in t.names && n.dir == ino ==> n.base in Leaving(actions[..k], actions[k].source)
  }

  function Parent(p: Path): Path
    requires p != []
  {
    p[..|p| - 1]
  }

  // The base names that these actions take out of a folder.
  function Leaving(actions: seq<UndoAction>, folder: Path): set<string> {
    if actions == [] then {}
    else
      var p := actions[|actions| - 1].source;
      Leaving(actions[..|actions| - 1], folder) + if p != [] && Parent(p) == folder then {p[|p| - 1]} else {}
  }

  lemma {:induction false} LeavingExactly(actions: seq<UndoAction>, folder: Path, base: string)
    ensures base in Leaving(actions, folder) <==> exists i :: 0 <= i < |actions| && actions[i].source == folder + [base]
  {
    if actions != [] {
      var last := |actions| - 1;
      var p := actions[last].source;
      LeavingExactly(actions[..last], folder, base);
      assert p == folder + [base] <==> p != [] && Parent(p) == folder && p[|p| - 1] == base;
      if i :| 0 <= i < |actions| && actions[i].source == folder + [base] {
        if i < last { assert actions[..last][i].source == folder + [base]; }
      }
    }
  }

  ghost predicate UndoPreviewed(t: Tree, actions: seq<UndoAction>, k: nat)
    requires k < |actions|
  {
    match actions[k]
    case UndoMove(_, source, destination, checksum) => Intact(Occupant(t, source), checksum) && Occupant(t, destination).None?
    case RemoveFolder(_, source, _) =>
      Occupant(t, source) == Some(Directory) && Emptied(t, actions, k, t.names[Entry(t, source).value])
  }

  ghost predicate UndoClear(t: Tree, actions: seq<UndoAction>) {
    && (forall k :: 0 <= k < |actions| ==> UndoPreviewed(t, actions, k))
    && (forall i, j :: 0 <= i < j < |actions| && actions[i].UndoMove? && actions[j].UndoMove? ==>
          actions[i].destination != actions[j].destination)
  }

  // What is wrong with an action of an undo list on its own.
  ghost predicate UndoBlame(t: Tree, actions: seq<UndoAction>, k: nat, c: Category)
    requires k < |actions|
  {
    match actions[k]
    case UndoMove(_, source, destination, checksum) =>
      SourceBlame(Occupant(t, source), checksum, c) || (c == DestinationConflict && Occupant(t, destination).Some?)
    case RemoveFolder(_, source, _) =>
      if Occupant(t, source) != Some(Directory) then c == MissingSource
      else c == FolderNotEmpty && !Emptied(t, actions, k, t.names[Entry(t, source).value])
  }

  ghost predicate UndoBlamed(t: Tree, actions: seq<UndoAction>, k: nat, x: Issue)
    requires k <= |actions|
  {
    exists i :: 0 <= i < k && x.actionId == actions[i].id && UndoBlame(t, actions, i, x.category)
  }

  lemma UndoBlamedNext(t: Tree, actions: seq<UndoAction>, k: nat)
    requires k < |actions|
    ensures forall x :: UndoBlamed(t, actions, k + 1, x) <==>
      UndoBlamed(t, actions, k, x) || (x.actionId == actions[k].id && UndoBlame(t, actions, k, x.category))
  {
    hide UndoBlame;
  }

  method UndoIssues(t: Tree, actions: seq<UndoAction>, k: nat) returns (issues: seq<Issue>)
    requires k < |actions|
    ensures issues == [] <==> UndoPreviewed(t, actions, k)
    ensures forall x :: x in issues <==> x.actionId == actions[k].id && UndoBlame(t, actions, k, x.category)
  {
    match actions[k] {
      case RemoveFolder(id, source, _) =>
        if Occupant(t, source) != Some(Directory) { return [Issue(id, MissingSource)]; }
        var ino := t.names[Entry(t, source).value];
        var entries := set n | n in t.names && n.dir == ino :: n.base;
        assert entries <= Leaving(actions[..k], source) <==> Emptied(t, actions, k, ino) by {
          assert forall n :: n in t.names && n.dir == ino ==> n.base in entries;
        }
        return if entries <= Leaving(actions[..k], source) then [] else [Issue(id, FolderNotEmpty)];
      case UndoMove(id, source, destination, checksum) =>
        hide Occupant;
        issues := SourceIssues(id, Occupant(t, source), checksum);
        if Occupant(t, destination).Some? {
          issues := issues + [Issue(id, DestinationConflict)];
        }
    }
  }

  // The moves of an undo list, in order.
  function Restored(actions: seq<UndoAction>): (moves: seq<UndoAction>)
    ensures forall m :: m in moves <==> m in actions && m.UndoMove?
  {
    if actions == [] then []
    else
      var last := actions[|actions| - 1];
      assert actions == actions[..|actions| - 1] + [last];
      Restored(actions[..|actions| - 1]) + if last.UndoMove? then [last] else []
  }

  function RestoredTo(moves: seq<UndoAction>): (paths: seq<Path>)
    requires forall m :: m in moves ==> m.UndoMove?
    ensures |paths| == |moves|
  {
    seq(|moves|, i requires 0 <= i < |moves| => moves[i].destination)
  }

  function RestoredIds(moves: seq<UndoAction>): (ids: seq<string>)
    ensures |ids| == |moves|
  {
    seq(|moves|, i requires 0 <= i < |moves| => moves[i].id)
  }

  // previewBridgeUndo: clear exactly when every file to restore is the recorded one, its old name is
  // vacant, and every folder to remove holds only what earlier actions of the list take out of it;
  // otherwise every cause is named, with its action.
  method PreviewUndo(t: Tree, actions: seq<UndoAction>) returns (canUndo: bool, issues: seq<Issue>)
    ensures canUndo <==> actions != [] && UndoClear(t, actions)
    ensures issues == [] <==> UndoClear(t, actions)
    ensures forall x :: x in issues <==>
      || UndoBlamed(t, actions, |actions|, x)
      || Shares(RestoredTo(Restored(actions)), RestoredIds(Restored(actions)), x, DuplicateUndoDestination)
  {
    hide UndoPreviewed, UndoBlame, Occupant, FolderAt, Leaving, Shares;
    issues := [];
    var destinations := new Destinations();
    for k := 0 to |actions|
      invariant destinations.Valid() && fresh(destinations)
      invariant destinations.paths == RestoredTo(Restored(actions[..k])) && destinations.ids == RestoredIds(Restored(actions[..k]))
      invariant issues == [] <==> forall i :: 0 <= i < k ==> UndoPreviewed(t, actions, i)
      invariant forall x :: x in issues <==> UndoBlamed(t, actions, k, x)
    {
      assert actions[..k + 1][..k] == actions[..k];
      if actions[k].UndoMove? {
        destinations.Add(actions[k].destination, actions[k].id);
      }
      var found := UndoIssues(t, actions, k);
      UndoBlamedNext(t, actions, k);
      issues := issues + found;
    }
    assert actions[..|actions|] == actions;
    var duplicates := destinations.Duplicates(DuplicateUndoDestination);
    RestoredDistinct(actions);
    assert Apart(destinations.paths) <==> MovesApart(actions);
    issues := issues + duplicates;
    canUndo := issues == [] && |actions| > 0;
  }

  ghost predicate Apart(paths: seq<Path>) {
    forall i, j :: 0 <= i < j < |paths| ==> paths[i] != paths[j]
  }

  ghost predicate MovesApart(actions: seq<UndoAction>) {
    forall i, j :: 0 <= i < j < |actions| && actions[i].UndoMove? && actions[j].UndoMove? ==> actions[i].destination != actions[j].destination
  }

  ghost predicate MovedTo(actions: seq<UndoAction>, p: Path) {
    exists i :: 0 <= i < |actions| && actions[i].UndoMove? && actions[i].destination == p
  }

  lemma RestoredMore(front: seq<UndoAction>, last: UndoAction)
    ensures RestoredTo(Restored(front + [last])) ==
      RestoredTo(Restored(front)) + if last.UndoMove? then [last.destination] else []
  {
    assert (front + [last])[..|front|] == front;
  }

  lemma MovedToMore(front: seq<UndoAction>, last: UndoAction, p: Path)
    ensures MovedTo(front + [last], p) <==> MovedTo(front, p) || (last.UndoMove? && last.destination == p)
  {
    var more := front + [last];
    assert more[|front|] == last;
    if i :| 0 <= i < |front| && front[i].UndoMove? && front[i].destination == p {
      assert more[i].destination == p;
    }
  }

  lemma {:induction false} RestoredPaths(actions: seq<UndoAction>, p: Path)
    ensures p in RestoredTo(Restored(actions)) <==> MovedTo(actions, p)
  {
    if actions != [] {
      var front, last := actions[..|actions| - 1], actions[|actions| - 1];
      assert actions == front + [last];
      RestoredPaths(front, p);
      RestoredMore(front, last);
      MovedToMore(front, last, p);
      hide MovedTo, Restored, RestoredTo;
    }
  }

  // The moves of an undo list have different destinations exactly when the collected ones differ.
  lemma {:induction false} RestoredDistinct(actions: seq<UndoAction>)
    ensures Apart(RestoredTo(Restored(actions))) <==> MovesApart(actions)
  {
    if actions != [] {
      var front, last := actions[..|actions| - 1], actions[|actions| - 1];
      assert actions == front + [last];
      hide Apart, MovesApart, MovedTo, Restored, RestoredTo;
      RestoredDistinct(front);
      MovesApartMore(front, last);
      RestoredMore(front, last);
      if last.UndoMove? {
        RestoredPaths(front, last.destination);
        ApartMore(RestoredTo(Restored(front)), last.destination);
      } else {
        assert RestoredTo(Restored(front)) + [] == RestoredTo(Restored(front));
      }
    }
  }

  lemma ApartMore(paths: seq<Path>, p: Path)
    ensures Apart(paths + [p]) <==> Apart(paths) && p !in paths
  {
    var more := paths + [p];
    if Apart(more) {
      forall i, j | 0 <= i < j < |paths| ensures paths[i] != paths[j] { assert more[i] != more[j]; }
      forall i | 0 <= i < |paths| ensures paths[i] != p { assert more[i] != more[|paths|]; }
    }
  }

  lemma MovesApartMore(front: seq<UndoAction>, last: UndoAction)
    ensures MovesApart(front + [last]) <==> MovesApart(front) && (last.UndoMove? ==> !MovedTo(front, last.destination))
  {
    var more := front + [last];
    if MovesApart(more) {
      forall i, j | 0 <= i < j < |front| && front[i].UndoMove? && front[j].UndoMove? ensures front[i].destination != front[j].destination {
        assert more[i] == front[i] && more[j] == front[j];
      }
      forall i | last.UndoMove? && 0 <= i < |front| && front[i].UndoMove? ensures front[i].destination != last.destination {
        assert more[i] == front[i] && more[|front|] == last;
      }
    }
  }
}
