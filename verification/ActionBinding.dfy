// Historical authority: the binding that recovery derives from an action, against the journal that
// running the action wrote.
module ActionBinding {
  import opened Wrappers
  import opened FileSystem
  import opened Protocol
  import opened ProtocolInvariant
  import opened ProtocolSafety
  import opened ProtocolAuthority
  import opened Paths
  import opened Owners

  datatype ActionType = CreateFolderAction | MoveFile | RenameFile | MoveAndRenameFile | RemoveFolderAction

  // An action of a plan or of an undo list, its paths as they were given.
  datatype PlannedAction = PlannedAction(
    id: string, actionType: ActionType, source: Option<string>, destination: string, checksum: Option<string>,
    originalId: Option<string>)

  // A connected root: where it lies, and the directory entry that an absolute path below it denotes.
  datatype ConnectedRoot = ConnectedRoot(id: string, path: string, at: string -> Name)

  // Different normalised paths denote different directory entries.
  ghost predicate Sound(root: ConnectedRoot) {
    && RootPath(root.path)
    && forall p: string, q: string | Plain(Split(p)) && Plain(Split(q)) ::
         root.at(Resolve(root.path, p)) == root.at(Resolve(root.path, q)) ==> p == q
  }

  function Absolute(root: ConnectedRoot, relative: string): Option<Name> {
    var normalized := NormalizeRelativePath(relative, false);
    if normalized.Accepted? then Some(root.at(Resolve(root.path, normalized.path))) else None
  }

  function Text(s: Option<string>): string {
    if s.Some? then s.value else ""
  }

  // The call that running the action makes, if it comes to that: a path that is refused or a missing
  // owner throws first.
  function LiveCall(root: ConnectedRoot, undo: bool, a: PlannedAction): Result<Call> {
    var owner := if undo then Undo(root.id, a.id) else Execution(root.id, a.id);
    var source, destination := Absolute(root, Text(a.source)), Absolute(root, a.destination);
    match a.actionType
    case RemoveFolderAction =>
      if source.None? || !Given(a.originalId) then Failed
      else Ok(RemoveCall(owner, Execution(root.id, a.originalId.value), source.value))
    case CreateFolderAction => if destination.None? then Failed else Ok(CreateCall(owner, destination.value))
    case _ =>
      if source.None? || destination.None? then Failed
      else Ok(MoveCall(owner, source.value, destination.value, a.checksum))
  }

  function KindOf(t: ActionType): Kind {
    match t
    case CreateFolderAction => CreateFolder
    case RemoveFolderAction => RemoveFolder
    case _ => Move
  }

  // physicalActionBinding: a removal is looked up under its destination path, not its source path.
  function PhysicalActionBinding(root: ConnectedRoot, a: PlannedAction): Result<Binding> {
    var destination := Absolute(root, a.destination);
    var source := if a.actionType.RemoveFolderAction? then destination
                  else if Given(a.source) then Absolute(root, a.source.value) else None;
    var originalOwner := if a.actionType.RemoveFolderAction? && a.originalId.Some?
                         then Some(Execution(root.id, a.originalId.value)) else None;
    if destination.None? || (Given(a.source) && !a.actionType.RemoveFolderAction? && source.None?) then Failed
    else Ok(Binding(KindOf(a.actionType), source, destination.value, a.checksum, originalOwner))
  }

  // Historical recovery accepts this journal for the action.
  predicate Recovers(root: ConnectedRoot, a: PlannedAction, j: Journal) {
    var binding := PhysicalActionBinding(root, a);
    binding.Ok? && RecoverAuthority(j, binding.value)
  }

  // What a caller can read off the action: a move carries a checksum, a removal names the folder
  // twice, and a creation names no source.
  predicate SelfConsistent(a: PlannedAction) {
    match a.actionType
    case RemoveFolderAction =>
      a.source.Some? && NormalizeRelativePath(a.source.value, false) == NormalizeRelativePath(a.destination, false)
    case CreateFolderAction => !Given(a.source)
    case _ => Given(a.checksum)
  }

  lemma SamePlace(root: ConnectedRoot, value: string, other: string)
    requires Sound(root) && Absolute(root, value).Some?
    ensures Absolute(root, value) == Absolute(root, other) <==>
      NormalizeRelativePath(value, false) == NormalizeRelativePath(other, false)
  {
    if Absolute(root, other).Some? {
      hide NormalizeRelativePath, Resolve;
      var p, q := NormalizeRelativePath(value, false).path, NormalizeRelativePath(other, false).path;
      NeverEmpty(value);
      NeverEmpty(other);
      AcceptedIsPlain(value, false);
      AcceptedIsPlain(other, false);
    }
  }

  lemma EmptyRefused(root: ConnectedRoot)
    ensures Absolute(root, "").None?
  {
  }

  // A journal written under the action's own call is accepted exactly for self-consistent actions.
  lemma JournalAgrees(k: Disk, js: map<string, Journal>, j: Journal, root: ConnectedRoot, undo: bool, a: PlannedAction)
    requires Sound(root) && LiveCall(root, undo, a).Ok?
    requires var call := LiveCall(root, undo, a).value; JournalOk(k, js, call.owner, j) && Authorized(j, call)
    ensures Recovers(root, a, j) <==> SelfConsistent(a)
  {
    hide NormalizeRelativePath, Resolve, Sound;
    EmptyRefused(root);
    if a.actionType.RemoveFolderAction? { SamePlace(root, a.source.value, a.destination); }
  }

  // In every run, whatever the processes and other programs did: the journal that running an action
  // left behind passes the check of historical recovery for that action exactly when the action is
  // self-consistent.
  lemma BindingAgrees(w: World, es: seq<Event>, root: ConnectedRoot, undo: bool, a: PlannedAction)
    requires Inv(w) && Legal(w, es) && Sound(root) && LiveCall(root, undo, a).Ok?
    requires var call := LiveCall(root, undo, a).value;
      && OneCall(es, call) && call.owner !in w.journals && call.owner in Exec(w, es).journals
      && (w.active.Some? ==> w.active.value.call.owner != call.owner)
    ensures Recovers(root, a, Exec(w, es).journals[LiveCall(root, undo, a).value.owner]) <==> SelfConsistent(a)
  {
    hide LiveCall, Sound, Recovers, SelfConsistent;
    var call := LiveCall(root, undo, a).value;
    assert !call.RecoverCall? by { NeverRecovery(root, undo, a); }
    InvAlways(w, es);
    AuthorityAlways(w, es, call);
    var v := Exec(w, es);
    JournalAgrees(v.disk, v.journals, v.journals[call.owner], root, undo, a);
  }

  lemma NeverRecovery(root: ConnectedRoot, undo: bool, a: PlannedAction)
    requires LiveCall(root, undo, a).Ok?
    ensures !LiveCall(root, undo, a).value.RecoverCall?
  {
  }

  // ---- actions that run, and whose journals recovery then refuses ----

  lemma Letters()
    ensures NormalizeRelativePath("a", false) == Accepted("a") && NormalizeRelativePath("b", false) == Accepted("b")
  {
    Letter("a");
    Letter("b");
  }

  lemma Letter(s: string)
    requires s == "a" || s == "b"
    ensures NormalizeRelativePath(s, false) == Accepted(s)
  {
    assert !Blank(s[0]) && NoSlash(s) && s[..0] == "";
    assert TrimStart(s) == s && TrimEnd(s) == s && Slashed(s) == s;
    SplitPlain(s);
    assert PlainSegment(s) && !InvalidSegment(s);
    FoldPlain([s], false);
    assert Join([s]) == s;
    assert NormalizeRelative(s) == s;
  }

  // No journal that the call of this action can write passes the check.
  ghost predicate NeverRecovered(root: ConnectedRoot, undo: bool, a: PlannedAction) {
    && LiveCall(root, undo, a).Ok?
    && forall k, js, j :: JournalOk(k, js, LiveCall(root, undo, a).value.owner, j) && Authorized(j, LiveCall(root, undo, a).value) ==>
         !Recovers(root, a, j)
  }

  lemma Disagree(root: ConnectedRoot, undo: bool, a: PlannedAction)
    requires Sound(root) && LiveCall(root, undo, a).Ok? && !SelfConsistent(a)
    ensures NeverRecovered(root, undo, a)
  {
    hide LiveCall, Sound, Recovers, SelfConsistent;
    forall k, js, j | JournalOk(k, js, LiveCall(root, undo, a).value.owner, j) && Authorized(j, LiveCall(root, undo, a).value)
      ensures !Recovers(root, a, j)
    {
      JournalAgrees(k, js, j, root, undo, a);
    }
  }

  // A removal whose destination is not its source, a creation with a source, a move without a
  // checksum.
  const OTHER_FOLDER := PlannedAction("1", RemoveFolderAction, Some("a"), "b", None, Some("0"))
  const WITH_SOURCE := PlannedAction("2", CreateFolderAction, Some("a"), "b", None, None)
  const UNCHECKED := PlannedAction("3", MoveFile, Some("a"), "b", None, None)

  lemma UnrecoverableActions(root: ConnectedRoot)
    requires Sound(root)
    ensures NeverRecovered(root, true, OTHER_FOLDER)
    ensures NeverRecovered(root, false, WITH_SOURCE)
    ensures NeverRecovered(root, false, UNCHECKED) && NeverRecovered(root, true, UNCHECKED)
  {
    Letters();
    hide NormalizeRelativePath, Resolve, NeverRecovered, Sound;
    Disagree(root, true, OTHER_FOLDER);
    Disagree(root, false, WITH_SOURCE);
    Disagree(root, false, UNCHECKED);
    Disagree(root, true, UNCHECKED);
  }
}
