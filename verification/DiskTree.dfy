// The step machine carries out plans: on a disk that shows a library tree, each fresh, undisturbed
// journaled call is the one step on the tree that executing and undoing plans are made of.
module DiskTree {
  import opened Wrappers
  import opened FileSystem
  import opened Protocol
  import opened ProtocolInvariant
  import opened ProtocolSteps
  import opened ProtocolSafety
  import opened ProtocolOutcomes
  import opened QuietEffect
  import opened Owners
  import P = Plan
  import T = RoundTrip
  import QuietCreate
  import QuietMove
  import QuietRemove

  // The library tree that is on the disk below a root.
  function TreeOn(k: Disk, root: Ino): P.Tree {
    P.Tree(root, PublicNames(k), k.nodes, map[])
  }

  // No segment looks like a private directory.
  predicate Unreserved(p: P.Path) {
    forall i :: 0 <= i < |p| ==> !PrivateBase(p[i])
  }

  // A folder recorded as created by this owner is still at the recorded place, if anywhere, and holds
  // no private directory.
  ghost predicate Records(w: World, t: P.Tree, owner: string, ino: Ino) {
    && owner in w.journals
    && var j := w.journals[owner];
      && j.kind == CreateFolder && j.status == Completed && j.created && j.identity == Some(FileIdentity(ino, ""))
      && Public(w.disk, j.destination) && ino in w.disk.nodes && w.disk.nodes[ino].Directory? && !IsContainer(w.disk, ino)
      && (forall n :: n in t.names && t.names[n] == ino ==> n == j.destination)
      && (forall n :: n in w.disk.names && n.dir == ino ==> Public(w.disk, n))
  }

  // The disk shows this tree: the same public names, over inodes it knows, none of them a private
  // directory; and every creation the tree remembers is on record.
  ghost predicate Shows(w: World, t: P.Tree, rootId: string) {
    && t.names == PublicNames(w.disk)
    && (forall i :: i in t.nodes ==> i in w.disk.nodes && w.disk.nodes[i] == t.nodes[i])
    && !IsContainer(w.disk, t.root) && (forall n :: n in t.names ==> !IsContainer(w.disk, t.names[n]))
    && (forall id :: id in t.created ==> Records(w, t, Execution(rootId, id), t.created[id]))
  }

  // An owner that has done nothing yet.
  ghost predicate Unused(w: World, owner: string) {
    owner !in w.journals && forall c :: c in w.disk.containers ==> w.disk.containers[c].owner != owner
  }

  // One call, not interrupted, from its start to its end.
  ghost predicate Performed(w: World, call: Call, v: World) {
    exists es :: Legal(w, es) && Uninterrupted(es, call) && v == Exec(w, es) && !Running(v)
  }

  // ---- paths and names ----

  lemma SamePaths(w: World, t: P.Tree, rootId: string, p: P.Path)
    requires Shows(w, t, rootId) && P.Sane(t)
    ensures P.Entry(TreeOn(w.disk, t.root), p) == P.Entry(t, p) && P.Occupant(TreeOn(w.disk, t.root), p) == P.Occupant(t, p)
  {
    T.LikePaths(TreeOn(w.disk, t.root), t, p);
  }

  lemma EntryPublic(w: World, t: P.Tree, rootId: string, p: P.Path)
    requires Inv(w) && Shows(w, t, rootId) && P.Sane(t) && Unreserved(p) && P.Entry(t, p).Some?
    ensures Public(w.disk, P.Entry(t, p).value)
  {
    var parent := p[..|p| - 1];
    var folder := P.FolderAt(t, parent).value;
    if parent != [] {
      var n := Name(P.FolderAt(t, parent[..|parent| - 1]).value, parent[|parent| - 1]);
      assert n in t.names && t.names[n] == folder;
    }
  }

  // A public name is vacant on the disk exactly when it is in the tree.
  lemma EntryHolds(w: World, t: P.Tree, rootId: string, n: Name)
    requires Shows(w, t, rootId) && Public(w.disk, n)
    ensures n in t.names <==> n in w.disk.names
    ensures n in t.names ==> w.disk.names[n] == t.names[n]
  {
  }

  // ---- one call ----

  lemma Uninterfered(w: World, call: Call, v: World) returns (es: seq<Event>)
    requires Inv(w) && !Running(w) && Performed(w, call, v)
    ensures var w0 := w.(active := None);
      Inv(w0) && Legal(w0, es) && Uninterrupted(es, call) && v == Exec(w0, es) && !Running(v) && KeptBy(w0, v, call.owner) && Inv(v)
  {
    es :| Legal(w, es) && Uninterrupted(es, call) && v == Exec(w, es) && !Running(v);
    Restarted(w, w.(active := None), call, es);
    CallKept(w.(active := None), call, es);
  }

  // What is shown of inodes and journals stays so across a call that changes the public names from
  // t's to t''s.
  lemma StillShown(w: World, v: World, t: P.Tree, t': P.Tree, rootId: string, owner: string)
    requires Inv(w) && Inv(v) && Shows(w, t, rootId) && P.Sane(t) && KeptBy(w, v, owner) && NothingLeft(w.disk, v.disk)
    requires t'.names == PublicNames(v.disk) && t'.root == t.root && t'.created == t.created
    requires forall i :: i in t'.nodes ==> i in t.nodes && t'.nodes[i] == t.nodes[i]
    requires forall id :: id in t.created ==> Execution(rootId, id) != owner
    requires forall n :: n in t'.names ==> exists m :: m in t.names && t.names[m] == t'.names[n]
    requires forall n :: n in t'.names && n !in t.names ==> t.nodes[t'.names[n]].File?
    requires forall n :: n in t'.names && n in t.names ==> t'.names[n] == t.names[n]
    ensures Shows(v, t', rootId)
  {
    forall n | n in t'.names ensures !IsContainer(v.disk, t'.names[n]) {
      var m :| m in t.names && t.names[m] == t'.names[n];
      FreeStays(w.disk, v.disk, t.names[m]);
    }
    FreeStays(w.disk, v.disk, t.root);
    forall id | id in t.created ensures Records(v, t', Execution(rootId, id), t.created[id]) {
      RecordStays(w, v, t, t', rootId, owner, id);
    }
  }

  lemma FreeStays(k: Disk, k': Disk, ino: Ino)
    requires WellFormed(k) && Grew(k, k') && ino in k.nodes && !IsContainer(k, ino)
    ensures !IsContainer(k', ino)
  {
  }

  lemma PublicKept(k: Disk, k': Disk, n: Name)
    requires WellFormed(k) && Grew(k, k') && Public(k, n)
    ensures Public(k', n)
  {
  }

  lemma RecordStays(w: World, v: World, t: P.Tree, t': P.Tree, rootId: string, owner: string, id: string)
    requires WellFormed(w.disk) && KeptBy(w, v, owner) && NothingLeft(w.disk, v.disk)
    requires id in t.created && Records(w, t, Execution(rootId, id), t.created[id]) && Execution(rootId, id) != owner
    requires forall n :: n in t'.names && n !in t.names ==> t'.names[n] != t.created[id]
    requires forall n :: n in t'.names && n in t.names ==> t'.names[n] == t.names[n]
    ensures Records(v, t', Execution(rootId, id), t.created[id])
  {
    var o, ino := Execution(rootId, id), t.created[id];
    assert Lookup(v.journals, o) == Lookup(w.journals, o);
    PublicKept(w.disk, v.disk, w.journals[o].destination);
    FreeStays(w.disk, v.disk, ino);
  }

  // A moved file: journaledMove is MoveTo.
  lemma MoveRefines(w: World, v: World, t: P.Tree, rootId: string, owner: string, source: P.Path, destination: P.Path,
                    checksum: Option<string>)
    requires Inv(w) && !Running(w) && Shows(w, t, rootId) && P.Sane(t) && Unused(w, owner)
    requires Unreserved(source) && Unreserved(destination) && T.MoveTo(t, source, destination, checksum).Some?
    requires forall id :: id in t.created ==> Execution(rootId, id) != owner
    requires Performed(w, MoveCall(owner, P.Entry(t, source).value, P.Entry(t, destination).value, checksum), v)
    ensures Inv(v) && Shows(v, T.MoveTo(t, source, destination, checksum).value, rootId) && Delivered(v) && KeptBy(w, v, owner)
  {
    hide *;
    MoveToShape(t, source, destination, checksum);
    var s, d := P.Entry(t, source).value, P.Entry(t, destination).value;
    var call := MoveCall(owner, s, d, checksum);
    var es := Uninterfered(w, call, v);
    var w0 := w.(active := None);
    var job := MoveJob(w, t, rootId, owner, source, destination, checksum);
    MoveEffect(w0, call, es, job);
    var t' := T.MoveTo(t, source, destination, checksum).value;
    MovedInodes(t, t', s, d);
    NamesShown(w, t, rootId, s);
    ShowsIdle(w, t, rootId);
    StillShown(w0, v, t, t', rootId, owner);
    KeptFromIdle(w, v, owner);
  }

  lemma KeptFromIdle(w: World, v: World, owner: string)
    ensures KeptBy(w.(active := None), v, owner) <==> KeptBy(w, v, owner)
  {
  }

  lemma MoveToShape(t: P.Tree, source: P.Path, destination: P.Path, checksum: Option<string>)
    requires P.Sane(t) && T.MoveTo(t, source, destination, checksum).Some?
    ensures var s, d := P.Entry(t, source), P.Entry(t, destination);
      && s.Some? && d.Some? && s.value in t.names && d.value !in t.names && t.names[s.value] in t.nodes && t.nodes[t.names[s.value]].File?
      && T.MoveTo(t, source, destination, checksum).value == t.(names := (t.names - {s.value})[d.value := t.names[s.value]])
  {
  }

  lemma MoveJob(w: World, t: P.Tree, rootId: string, owner: string, source: P.Path, destination: P.Path,
                checksum: Option<string>) returns (job: QuietMove.Job)
    requires Inv(w) && !Running(w) && Shows(w, t, rootId) && P.Sane(t) && Unused(w, owner)
    requires Unreserved(source) && Unreserved(destination) && T.MoveTo(t, source, destination, checksum).Some?
    ensures var s, d, w0 := P.Entry(t, source).value, P.Entry(t, destination).value, w.(active := None);
      && s in t.names && job == QuietMove.Job(owner, s, d, t.names[s], job.digest)
      && QuietMove.Fresh(w0, job) && QuietMove.CallOf(job, MoveCall(owner, s, d, checksum))
  {
    var s, d := P.Entry(t, source).value, P.Entry(t, destination).value;
    EntryPublic(w, t, rootId, source);
    EntryPublic(w, t, rootId, destination);
    EntryHolds(w, t, rootId, s);
    EntryHolds(w, t, rootId, d);
    job := QuietMove.Job(owner, s, d, t.names[s], P.Occupant(t, source).value.digest);
    FreshMove(w.(active := None), t, job, MoveCall(owner, s, d, checksum));
  }

  lemma ShowsIdle(w: World, t: P.Tree, rootId: string)
    requires Shows(w, t, rootId)
    ensures Shows(w.(active := None), t, rootId)
  {
    forall id | id in t.created ensures Records(w.(active := None), t, Execution(rootId, id), t.created[id]) {
      assert Records(w, t, Execution(rootId, id), t.created[id]);
    }
  }

  lemma FreshMove(w: World, t: P.Tree, job: QuietMove.Job, call: Call)
    requires Inv(w) && w.active.None? && Unused(w, job.owner)
    requires Public(w.disk, job.source) && Public(w.disk, job.destination) && job.source != job.destination
    requires Holds(w.disk, job.source, job.ino) && job.destination !in w.disk.names
    requires job.ino in w.disk.nodes && w.disk.nodes[job.ino] == File(job.digest)
    requires call.MoveCall? && call == MoveCall(job.owner, job.source, job.destination, call.checksum)
    requires Given(call.checksum) ==> call.checksum.value == job.digest
    ensures QuietMove.Fresh(w, job) && QuietMove.CallOf(job, call)
  {
  }

  lemma MovedInodes(t: P.Tree, t': P.Tree, s: Name, d: Name)
    requires P.Sane(t) && s in t.names && d !in t.names && t.nodes[t.names[s]].File?
    requires t' == t.(names := (t.names - {s})[d := t.names[s]])
    ensures forall n :: n in t'.names ==> exists m :: m in t.names && t.names[m] == t'.names[n]
    ensures forall n :: n in t'.names && n !in t.names ==> t.nodes[t'.names[n]].File?
    ensures forall n :: n in t'.names && n in t.names ==> t'.names[n] == t.names[n]
  {
    forall n | n in t'.names ensures exists m :: m in t.names && t.names[m] == t'.names[n] {
      var m := if n == d then s else n;
      assert m in t.names && t.names[m] == t'.names[n];
    }
  }

  // A folder: journaledCreateFolder is Run of a creation, under the number the new folder got.
  lemma CreateRefines(w: World, v: World, t: P.Tree, rootId: string, a: P.PlanAction)
    requires Inv(w) && !Running(w) && Shows(w, t, rootId) && P.Sane(t) && Unused(w, Execution(rootId, a.id))
    requires a.kind.CreateFolder? && Unreserved(a.destination) && T.Run(t, a, 0).Some? && a.id !in t.created
    requires Performed(w, CreateCall(Execution(rootId, a.id), P.Entry(t, a.destination).value), v)
    ensures Inv(v) && Delivered(v) && KeptBy(w, v, Execution(rootId, a.id))
    ensures var d := P.Entry(t, a.destination).value;
      && d in v.disk.names && T.Run(t, a, v.disk.names[d]).Some? && Shows(v, T.Run(t, a, v.disk.names[d]).value, rootId)
      && (d !in t.names ==> v.disk.names[d] !in w.disk.nodes && v.disk.names[d] in v.disk.nodes)
      && Execution(rootId, a.id) in v.journals && v.journals[Execution(rootId, a.id)].created == (d !in t.names)
      && v.active.value.pc.outcome == Some(v.journals[Execution(rootId, a.id)])
  {
    var owner, d := Execution(rootId, a.id), P.Entry(t, a.destination).value;
    var call := CreateCall(owner, d);
    var es := Uninterfered(w, call, v);
    var w0 := w.(active := None);
    EntryPublic(w, t, rootId, a.destination);
    EntryHolds(w, t, rootId, d);
    var c := QuietCreate.Creation(owner, d);
    assert QuietCreate.Open(w.disk, c);
    CreationEffect(w0, call, es, c);
    OutcomeOnRecord(w0, call, es);
    ShowsIdle(w, t, rootId);
    forall id | id in t.created ensures Execution(rootId, id) != owner {
      if Execution(rootId, id) == owner { ExecutionInjective(rootId, id, a.id); }
    }
    if d in t.names {
      ExistingShown(w0, v, t, rootId, c);
    } else {
      CreationShown(w0, v, t, rootId, a, c);
    }
  }

  lemma OutcomeOnRecord(w: World, call: Call, es: seq<Event>)
    requires Inv(w) && w.active.None? && Legal(w, es) && Uninterrupted(es, call) && Delivered(Exec(w, es))
    ensures Lookup(Exec(w, es).journals, call.owner) == Exec(w, es).active.value.pc.outcome
  {
    OutcomesAreRecorded(w, es);
    CallKept(w, call, es);
  }

  lemma SameFolder(w: World, v: World, c: QuietCreate.Creation)
    requires QuietCreate.FolderMade(v, c, w.disk) && c.target in w.disk.names && c.target in v.disk.names
    ensures v.disk.names[c.target] == w.disk.names[c.target]
  {
  }

  lemma NamesShown(w: World, t: P.Tree, rootId: string, n: Name)
    requires Shows(w, t, rootId) && n in t.names
    ensures PublicNames(w.disk) == t.names && n in w.disk.names && t.names[n := w.disk.names[n]] == t.names
  {
  }

  lemma ExistingShown(w: World, v: World, t: P.Tree, rootId: string, c: QuietCreate.Creation)
    requires Inv(w) && Inv(v) && Shows(w, t, rootId) && P.Sane(t) && KeptBy(w, v, c.owner) && NothingLeft(w.disk, v.disk)
    requires c.target in t.names && c.target in v.disk.names && QuietCreate.FolderMade(v, c, w.disk)
    requires PublicNames(v.disk) == PublicNames(w.disk)[c.target := v.disk.names[c.target]]
    requires forall id :: id in t.created ==> Execution(rootId, id) != c.owner
    ensures Shows(v, t, rootId)
  {
    hide QuietCreate.FolderMade, Inv, KeptBy, NothingLeft, Shows, P.Sane, PublicNames;
    assert PublicNames(v.disk) == t.names by {
      NamesShown(w, t, rootId, c.target);
      SameFolder(w, v, c);
    }
    RemovedInodes(t, t, c.target);
    StillShown(w, v, t, t, rootId, c.owner);
  }

  lemma CreationShown(w: World, v: World, t: P.Tree, rootId: string, a: P.PlanAction, c: QuietCreate.Creation)
    requires Inv(w) && Inv(v) && Shows(w, t, rootId) && P.Sane(t) && KeptBy(w, v, c.owner) && NothingLeft(w.disk, v.disk)
    requires c.target !in t.names && c.target !in w.disk.names && Public(w.disk, c.target)
    requires c.target in v.disk.names && QuietCreate.FolderMade(v, c, w.disk) && v.journals[c.owner].created
    requires PublicNames(v.disk) == PublicNames(w.disk)[c.target := v.disk.names[c.target]]
    requires forall id :: id in t.created ==> Execution(rootId, id) != c.owner
    requires a.kind.CreateFolder? && c.owner == Execution(rootId, a.id) && P.Entry(t, a.destination) == Some(c.target)
    ensures v.disk.names[c.target] !in w.disk.nodes && v.disk.names[c.target] in v.disk.nodes
    ensures T.Run(t, a, v.disk.names[c.target]).Some?
    ensures Shows(v, T.Run(t, a, v.disk.names[c.target]).value, rootId)
  {
    var ino := v.disk.names[c.target];
    RunShape(t, a, c.target, ino);
    NewFolder(w, v, t, rootId, c);
    hide QuietCreate.FolderMade, T.Run, P.Entry, P.Sane, NothingLeft;
    NewRecord(w, v, t, T.Run(t, a, ino).value, c, ino);
    hide Records;
    NewTreeShown(w, v, t, T.Run(t, a, ino).value, rootId, a.id, c, ino);
  }

  lemma RunShape(t: P.Tree, a: P.PlanAction, d: Name, ino: Ino)
    requires a.kind.CreateFolder? && P.Entry(t, a.destination) == Some(d) && d !in t.names
    ensures T.Run(t, a, ino).Some? &&
      T.Run(t, a, ino).value == t.(names := t.names[d := ino], nodes := t.nodes[ino := Directory], created := t.created[a.id := ino])
  {
  }

  lemma NewTreeShown(w: World, v: World, t: P.Tree, t': P.Tree, rootId: string, id': string, c: QuietCreate.Creation, ino: Ino)
    requires Inv(w) && Shows(w, t, rootId) && P.Sane(t) && KeptBy(w, v, c.owner) && NothingLeft(w.disk, v.disk)
    requires c.target !in t.names && c.owner == Execution(rootId, id')
    requires t' == t.(names := t.names[c.target := ino], nodes := t.nodes[ino := Directory], created := t.created[id' := ino])
    requires t'.names == PublicNames(v.disk) && ino !in w.disk.nodes && ino in v.disk.nodes && v.disk.nodes[ino] == Directory
    requires !IsContainer(v.disk, ino) && Records(v, t', c.owner, ino)
    requires forall id :: id in t.created ==> Execution(rootId, id) != c.owner
    ensures Shows(v, t', rootId)
  {
    hide *;
    NewTreeFree(w, v, t, rootId, c);
    forall id | id in t'.created ensures Records(v, t', Execution(rootId, id), t'.created[id]) {
      if id != id' { NewTreeRecords(w, v, t, t', rootId, id, c, ino); }
    }
    ShowsWhen(v, t', rootId);
  }

  lemma ShowsWhen(v: World, t: P.Tree, rootId: string)
    requires t.names == PublicNames(v.disk) && !IsContainer(v.disk, t.root)
    requires forall i :: i in t.nodes ==> i in v.disk.nodes && v.disk.nodes[i] == t.nodes[i]
    requires forall n :: n in t.names ==> !IsContainer(v.disk, t.names[n])
    requires forall id :: id in t.created ==> Records(v, t, Execution(rootId, id), t.created[id])
    ensures Shows(v, t, rootId)
  {
    hide IsContainer, Records, PublicNames;
  }

  lemma NewTreeFree(w: World, v: World, t: P.Tree, rootId: string, c: QuietCreate.Creation)
    requires Inv(w) && Shows(w, t, rootId) && P.Sane(t) && KeptBy(w, v, c.owner)
    ensures !IsContainer(v.disk, t.root) && forall n :: n in t.names ==> !IsContainer(v.disk, t.names[n])
    ensures forall i :: i in t.nodes ==> i in v.disk.nodes && v.disk.nodes[i] == t.nodes[i]
  {
    forall n | n in t.names ensures !IsContainer(v.disk, t.names[n]) { FreeStays(w.disk, v.disk, t.names[n]); }
    FreeStays(w.disk, v.disk, t.root);
  }

  lemma NewTreeRecords(w: World, v: World, t: P.Tree, t': P.Tree, rootId: string, id: string, c: QuietCreate.Creation, ino: Ino)
    requires Inv(w) && Shows(w, t, rootId) && P.Sane(t) && KeptBy(w, v, c.owner) && NothingLeft(w.disk, v.disk)
    requires c.target !in t.names && t'.names == t.names[c.target := ino] && ino !in w.disk.nodes
    requires id in t.created && Execution(rootId, id) != c.owner
    ensures Records(v, t', Execution(rootId, id), t.created[id])
  {
    assert Records(w, t, Execution(rootId, id), t.created[id]);
    RecordStays(w, v, t, t', rootId, c.owner, id);
  }

  lemma NewFolder(w: World, v: World, t: P.Tree, rootId: string, c: QuietCreate.Creation)
    requires Inv(w) && KeptBy(w, v, c.owner) && c.target !in w.disk.names && c.target in v.disk.names
    requires QuietCreate.FolderMade(v, c, w.disk) && v.journals[c.owner].created && Shows(w, t, rootId) && Public(w.disk, c.target)
    ensures var ino := v.disk.names[c.target];
      && ino !in w.disk.nodes && ino in v.disk.nodes && v.disk.nodes[ino] == Directory && !IsContainer(v.disk, ino)
      && Empty(v.disk, ino) && Public(v.disk, c.target) && c.owner in v.journals
      && var j := v.journals[c.owner];
        && j.kind == CreateFolder && j.status == Completed && j.destination == c.target
        && j.identity == Some(FileIdentity(ino, ""))
  {
    PublicKept(w.disk, v.disk, c.target);
  }

  lemma NewRecord(w: World, v: World, t: P.Tree, t': P.Tree, c: QuietCreate.Creation, ino: Ino)
    requires WellFormed(w.disk) && t.names == PublicNames(w.disk) && t'.names == t.names[c.target := ino] && ino !in w.disk.nodes
    requires ino in v.disk.nodes && v.disk.nodes[ino] == Directory && !IsContainer(v.disk, ino) && Empty(v.disk, ino)
    requires Public(v.disk, c.target) && c.owner in v.journals && v.journals[c.owner].created
    requires var j := v.journals[c.owner];
      j.kind == CreateFolder && j.status == Completed && j.destination == c.target && j.identity == Some(FileIdentity(ino, ""))
    ensures Records(v, t', c.owner, ino)
  {
  }

  // A folder to be removed: journaledRemoveFolder is RunUndo of a removal.
  lemma RemoveRefines(w: World, v: World, t: P.Tree, rootId: string, u: P.UndoAction)
    requires Inv(w) && !Running(w) && Shows(w, t, rootId) && P.Sane(t) && Unused(w, Undo(rootId, u.id))
    requires u.RemoveFolder? && Unreserved(u.source) && T.RunUndo(t, u).Some?
    requires Performed(w, RemoveCall(Undo(rootId, u.id), Execution(rootId, u.original), P.Entry(t, u.source).value), v)
    ensures Inv(v) && Shows(v, T.RunUndo(t, u).value, rootId) && Delivered(v) && KeptBy(w, v, Undo(rootId, u.id))
  {
    hide *;
    RemovalShape(t, u);
    var owner, original, target := Undo(rootId, u.id), Execution(rootId, u.original), P.Entry(t, u.source).value;
    var call := RemoveCall(owner, original, target);
    var es := Uninterfered(w, call, v);
    var w0 := w.(active := None);
    var f := RemovalJob(w, t, rootId, u);
    RemovalEffect(w0, call, es, f);
    var t' := T.RunUndo(t, u).value;
    forall id | id in t.created ensures Execution(rootId, id) != owner { ExecutionIsNoUndo(rootId, id, u.id); }
    NamesShown(w, t, rootId, target);
    ShowsIdle(w, t, rootId);
    RemovedInodes(t, t', target);
    StillShown(w0, v, t, t', rootId, owner);
    KeptFromIdle(w, v, owner);
  }

  lemma RemovalShape(t: P.Tree, u: P.UndoAction)
    requires u.RemoveFolder? && T.RunUndo(t, u).Some?
    ensures P.Entry(t, u.source).Some? && P.Entry(t, u.source).value in t.names
    ensures T.RunUndo(t, u).value == t.(names := t.names - {P.Entry(t, u.source).value})
  {
  }

  lemma RemovalJob(w: World, t: P.Tree, rootId: string, u: P.UndoAction) returns (f: QuietRemove.Folder)
    requires Inv(w) && !Running(w) && Shows(w, t, rootId) && P.Sane(t) && Unused(w, Undo(rootId, u.id))
    requires u.RemoveFolder? && Unreserved(u.source) && T.RunUndo(t, u).Some?
    ensures var owner, original, target := Undo(rootId, u.id), Execution(rootId, u.original), P.Entry(t, u.source).value;
      && target in t.names && f.owner == owner && f.target == target
      && QuietRemove.Fresh(w.(active := None), f) && QuietRemove.CallOf(f, RemoveCall(owner, original, target))
  {
    var owner, original, target := Undo(rootId, u.id), Execution(rootId, u.original), P.Entry(t, u.source).value;
    var ino := t.created[u.original];
    EntryPublic(w, t, rootId, u.source);
    EntryHolds(w, t, rootId, target);
    assert Records(w, t, original, ino);
    f := QuietRemove.Folder(owner, original, target, FileIdentity(ino, ""));
    ExecutionIsNoUndo(rootId, u.original, u.id);
    EmptyOnDisk(w, t, rootId, original, ino);
    FreshRemoval(w.(active := None), f, RemoveCall(owner, original, target));
  }

  lemma RemovedInodes(t: P.Tree, t': P.Tree, e: Name)
    requires t' == t.(names := t.names - {e}) || t' == t
    ensures forall n :: n in t'.names ==> n in t.names && t.names[n] == t'.names[n]
    ensures forall n :: n in t'.names ==> exists m :: m in t.names && t.names[m] == t'.names[n]
  {
    forall n | n in t'.names ensures exists m :: m in t.names && t.names[m] == t'.names[n] {
      assert n in t.names && t.names[n] == t'.names[n];
    }
  }

  lemma EmptyOnDisk(w: World, t: P.Tree, rootId: string, owner: string, ino: Ino)
    requires Shows(w, t, rootId) && Records(w, t, owner, ino) && T.Vacant(t, ino)
    ensures Empty(w.disk, ino)
  {
    forall n | n in w.disk.names ensures n.dir != ino {
      if Public(w.disk, n) { assert n in t.names; }
    }
  }

  lemma FreshRemoval(w: World, f: QuietRemove.Folder, call: Call)
    requires Inv(w) && w.active.None? && Unused(w, f.owner) && f.owner != f.original && f.original in w.journals
    requires var j := w.journals[f.original];
      j.kind == CreateFolder && j.status == Completed && j.created && j.destination == f.target && j.identity == Some(f.identity)
    requires Public(w.disk, f.target) && Holds(w.disk, f.target, f.identity.ino) && Empty(w.disk, f.identity.ino)
    requires f.identity.ino in w.disk.nodes && w.disk.nodes[f.identity.ino].Directory? && !IsContainer(w.disk, f.identity.ino)
    requires call == RemoveCall(f.owner, f.original, f.target)
    ensures QuietRemove.Fresh(w, f) && QuietRemove.CallOf(f, call)
  {
  }
}
