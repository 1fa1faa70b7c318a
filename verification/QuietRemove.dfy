// Removing an owned folder without outside interference: replay finishes from every crash point at
// or after the capture rename, and an intent whose rename never happened stays unfinished.
module QuietRemove {
  import opened Wrappers
  import opened FileSystem
  import opened Protocol
  import opened ProtocolInvariant
  import opened ProtocolSteps
  import opened ProtocolSafety
  import opened ProtocolOutcomes

  // The removal, by `owner`, of the empty directory `ino` that `original` created at `target`.
  datatype Folder = Folder(owner: string, original: string, target: Name, identity: FileIdentity)

  predicate CallOf(f: Folder, call: Call) {
    match call
    case RemoveCall(o, original, target) => o == f.owner && original == f.original && target == f.target
    case RecoverCall(o, expected) =>
      o == f.owner && (expected.Some? ==>
        var b := expected.value;
        b.kind == RemoveFolder && b.source == Some(f.target) && b.destination == f.target && b.originalOwner == Some(f.original))
    case _ => false
  }

  predicate JournalOf(f: Folder, j: Journal) {
    && j.kind == RemoveFolder && j.source == Some(f.target) && j.destination == f.target
    && j.originalOwner == Some(f.original) && j.identity == Some(f.identity) && j.directoryCapture.Some?
  }

  // The stages of an unfinished removal.
  predicate Waiting(k: Disk, f: Folder, j: Journal, c: Capture) {
    j.status == Intent && Holds(k, f.target, f.identity.ino) && CapturedDirectory(c) !in k.names
  }

  predicate Taken(k: Disk, f: Folder, c: Capture) {
    f.target !in k.names && Holds(k, CapturedDirectory(c), f.identity.ino)
  }

  predicate Removed(k: Disk, f: Folder, c: Capture) {
    f.target !in k.names && CapturedDirectory(c) !in k.names
  }

  predicate Placed(k: Disk, js: map<string, Journal>, f: Folder) {
    if f.owner !in js then Holds(k, f.target, f.identity.ino)
    else
      var j := js[f.owner];
      && JournalOf(f, j)
      && var c := j.directoryCapture.value;
        if j.status == Completed then Removed(k, f, c)
        else c.at in k.names && (Waiting(k, f, j, c) || Taken(k, f, c) || (j.status == Linked && Removed(k, f, c)))
  }

  predicate Recorded(js: map<string, Journal>, f: Folder, c: Capture) {
    f.owner in js && js[f.owner].directoryCapture == Some(c)
  }

  // Nothing lies in the owner's private directories but the recorded capture.
  ghost predicate Private(k: Disk, js: map<string, Journal>, f: Folder) {
    forall n | n in k.names && OwnedDirectory(k, n.dir, f.owner) ::
      exists c :: Recorded(js, f, c) && n == CapturedDirectory(c)
  }

  ghost predicate Elsewhere(k: Disk, f: Folder, n: Name) {
    n != f.target && !OwnedDirectory(k, n.dir, f.owner) && !OwnPrivate(k, f.owner, n)
  }

  ghost predicate Rest(k: Disk, f: Folder, base: map<Name, Ino>) {
    forall n | Elsewhere(k, f, n) :: (n in k.names <==> n in base) && (n in k.names ==> k.names[n] == base[n])
  }

  // The original creation is on record, and its directory is empty.
  ghost predicate FolderOk(k: Disk, js: map<string, Journal>, f: Folder) {
    var ino := f.identity.ino;
    && Public(k, f.target) && ino in k.nodes && k.nodes[ino].Directory? && Empty(k, ino) && !IsContainer(k, ino)
    && f.original != f.owner && f.original in js
    && var j := js[f.original];
      j.kind == CreateFolder && j.status == Completed && j.created && j.destination == f.target && j.identity == Some(f.identity)
  }

  predicate InRemoving(k: Disk, js: map<string, Journal>, a: Attempt, f: Folder)
    requires a.pc.Removing? && f.original in js
  {
    && Holds(k, f.target, f.identity.ino) && a.call.RemoveCall?
    && (a.pc.d.RenameTarget? <==> f.owner in js)
    && (a.pc.d.RenameTarget? || a.original == Some(js[f.original]))
    && (a.pc.d.SaveRemoveIntent? ==> a.cap.at in k.names)
  }

  // The private directory that held the captured folder is gone too.
  predicate Tidied(k: Disk, js: map<string, Journal>, f: Folder) {
    f.owner in js && js[f.owner].directoryCapture.Some? && js[f.owner].directoryCapture.value.at !in k.names
  }

  predicate Underway(k: Disk, js: map<string, Journal>, a: Attempt, f: Folder)
    requires f.original in js
  {
    && CallOf(f, a.call)
    && match a.pc {
         case Load | Threw => true
         case Returned(outcome) => outcome.Some? ==> Tidied(k, js, f)
         case Removing(_) => InRemoving(k, js, a, f)
         case Finishing(p) => !p.ExposeStat? && !p.ExposeMake? && !p.ExposeCopy? && (p.CleanList? || p.CleanRemove? ==> a.cap.at in k.names)
         case _ => false
       }
  }

  // Every state a quiet run of the removal can reach.
  ghost predicate Quiet(w: World, f: Folder, base: map<Name, Ino>) {
    && Inv(w) && FolderOk(w.disk, w.journals, f) && Placed(w.disk, w.journals, f)
    && Rest(w.disk, f, base) && Private(w.disk, w.journals, f)
    && (w.active.Some? ==> Underway(w.disk, w.journals, w.active.value, f) && Reported(w.journals, w.active.value))
  }

  function Rank(pc: Pc): nat {
    match pc
    case Load => 16
    case Removing(d) =>
      (match d case StatTarget => 15 case ListTarget => 14 case MakeContainer => 13 case SaveRemoveIntent => 12 case RenameTarget => 11)
    case Finishing(f) =>
      (match f
       case FinishContainer => 10 case StatDirectory => 9 case ListDirectory => 8 case SaveProof => 7
       case RemoveDirectory => 6 case SaveRemoved => 5 case CleanStat => 4 case CleanList => 3 case CleanRemove => 2
       case _ => 1)
    case _ => 0
  }

  // The running call is bound to complete: the rename has happened, or is this call's own to make.
  predicate Bound(k: Disk, js: map<string, Journal>, a: Attempt, f: Folder) {
    f.target !in k.names || (a.call.RemoveCall? && (f.owner !in js || a.pc == Removing(RenameTarget)))
  }

  // ---- one step ----

  predicate Progress(k: Disk, js: map<string, Journal>, a: Attempt, b: Attempt, f: Folder)
    requires f.original in js
  {
    && Underway(k, js, b, f) && b.call == a.call && (Halted(b) || Rank(b.pc) < Rank(a.pc))
  }

  // A step of a bound call succeeds and leaves it bound; a step of any other changes nothing.
  predicate Promise(k: Disk, js: map<string, Journal>, bound: bool, action: Action, f: Folder) {
    match action
    case Go(b) =>
      && Bound(k, js, b, f) == bound
      && if bound then b.pc != Threw && (b.pc.Returned? ==> b.pc.outcome.Some?) else b.pc.Returned? ==> b.pc.outcome.None?
    case Write(b) => bound && Bound(k, js[f.owner := b.entry], b, f) && !Halted(b)
    case Make(call, b, _) => bound && Perform(k, call).Some? && Bound(Perform(k, call).value, js, b, f) && b.pc != Threw && (b.pc.Returned? ==> b.pc.outcome.Some?)
  }

  lemma LoadSteps(k: Disk, js: map<string, Journal>, a: Attempt, f: Folder)
    requires FolderOk(k, js, f) && Placed(k, js, f) && Underway(k, js, a, f) && a.pc.Load?
    ensures NextLoad(js, a).Go? && Progress(k, js, a, NextLoad(js, a).next, f)
    ensures Promise(k, js, Bound(k, js, a, f), NextLoad(js, a), f)
  {
  }

  lemma RemoveReads(k: Disk, js: map<string, Journal>, a: Attempt, f: Folder, pick: Pick)
    requires FolderOk(k, js, f) && Placed(k, js, f) && Underway(k, js, a, f) && Typed(a)
    requires a.pc == Removing(StatTarget) || a.pc == Removing(ListTarget)
    ensures var action := NextRemove(k, a, pick);
      action.Go? && Progress(k, js, a, action.next, f) && Promise(k, js, Bound(k, js, a, f), action, f)
  {
  }

  lemma FinishReads(k: Disk, js: map<string, Journal>, a: Attempt, f: Folder, pick: Pick)
    requires FolderOk(k, js, f) && Placed(k, js, f) && Underway(k, js, a, f) && Typed(a) && a.pc.Finishing?
    requires a.call.owner in js && js[a.call.owner] == a.entry && a.entry.directoryCapture == Some(a.cap)
    requires a.pc.f.FinishContainer? || a.pc.f.StatDirectory? || a.pc.f.ListDirectory?
    requires a.entry.status != Completed && CapturesSound(k, a.cap)
    requires a.pc.f.ListDirectory? ==> CapturedDirectory(a.cap) in k.names
    ensures var action := NextFinish(k, a, pick);
      action.Go? && Progress(k, js, a, action.next, f) && Promise(k, js, Bound(k, js, a, f), action, f)
  {
  }

  predicate CapturesSound(k: Disk, c: Capture) {
    c.at in k.names ==> DirectoryAt(k, c.at, c.ino)
  }

  // What is left in the private directory once the captured folder is removed: nothing.
  lemma CleanReads(k: Disk, js: map<string, Journal>, a: Attempt, f: Folder, pick: Pick)
    requires FolderOk(k, js, f) && Placed(k, js, f) && Private(k, js, f) && Underway(k, js, a, f) && Typed(a) && a.pc.Finishing?
    requires a.call.owner in js && js[a.call.owner] == a.entry && a.entry.directoryCapture == Some(a.cap)
    requires a.pc.f.CleanStat? || a.pc.f.CleanList?
    requires a.entry.status == Completed && CapturesSound(k, a.cap) && OwnedDirectory(k, a.cap.ino, f.owner)
    ensures var action := NextFinish(k, a, pick);
      action.Go? && Progress(k, js, a, action.next, f) && Promise(k, js, Bound(k, js, a, f), action, f)
  {
    assert Empty(k, a.cap.ino);
  }

  ghost predicate Kept(k: Disk, js: map<string, Journal>, f: Folder, base: map<Name, Ino>) {
    FolderOk(k, js, f) && Placed(k, js, f) && Rest(k, f, base) && Private(k, js, f)
  }

  lemma RemoveWrites(k: Disk, js: map<string, Journal>, a: Attempt, f: Folder, base: map<Name, Ino>, pick: Pick)
    requires Kept(k, js, f, base) && Underway(k, js, a, f) && Typed(a)
    requires a.pc == Removing(SaveRemoveIntent) && CapturedDirectory(a.cap) !in k.names
    ensures var action := NextRemove(k, a, pick);
      action.Write? && var js' := js[f.owner := action.next.entry];
      Progress(k, js', a, action.next, f) && Promise(k, js, Bound(k, js, a, f), action, f) && Kept(k, js', f, base)
  {
  }

  lemma FinishWrites(k: Disk, js: map<string, Journal>, a: Attempt, f: Folder, base: map<Name, Ino>, pick: Pick)
    requires Kept(k, js, f, base) && Underway(k, js, a, f) && Typed(a) && a.pc.Finishing?
    requires a.call.owner in js && js[a.call.owner] == a.entry && a.entry.directoryCapture == Some(a.cap)
    requires a.pc.f.SaveProof? || a.pc.f.SaveRemoved?
    requires a.entry.status != Completed
    requires if a.pc.f.SaveProof? then CapturedDirectory(a.cap) in k.names else CapturedDirectory(a.cap) !in k.names && f.target !in k.names
    ensures var action := NextFinish(k, a, pick);
      action.Write? && var js' := js[f.owner := action.next.entry];
      Progress(k, js', a, action.next, f) && Promise(k, js, Bound(k, js, a, f), action, f) && Kept(k, js', f, base)
  {
  }

  // ---- effects ----

  // All that a system call keeps, besides the stage of the removal.
  ghost predicate Orderly(k: Disk, js: map<string, Journal>, f: Folder, base: map<Name, Ino>) {
    FolderOk(k, js, f) && Rest(k, f, base) && Private(k, js, f)
  }

  lemma FolderStays(k: Disk, js: map<string, Journal>, f: Folder, call: Syscall)
    requires WellFormed(k) && Permitted(k, f.owner, call) && Perform(k, call).Some? && FolderOk(k, js, f)
    requires call.Mkdtemp? || call.Rename? || call.Rmdir?
    requires call.Rename? ==> OwnedDirectory(k, call.to.dir, f.owner)
    requires call.Mkdtemp? ==> call.target.dir == f.target.dir && f.identity.ino != f.target.dir
    ensures FolderOk(Perform(k, call).value, js, f)
  {
    PermittedKeeps(k, f.owner, call);
    PublicFrame(k, Perform(k, call).value, f.owner, f.target);
  }

  lemma MkdtempOrderly(k: Disk, js: map<string, Journal>, f: Folder, base: map<Name, Ino>, call: Syscall)
    requires Rest(k, f, base) && Private(k, js, f) && (forall n :: n in k.names ==> n.dir in k.nodes)
    requires call.Mkdtemp? && call.owner == f.owner && PrivateBase(call.target.base) && Perform(k, call).Some?
    requires call.ino !in k.nodes && call.target.dir in k.nodes && call.target !in k.containers && !IsContainer(k, call.target.dir)
    ensures Rest(Perform(k, call).value, f, base) && Private(Perform(k, call).value, js, f)
  {
    var k' := Perform(k, call).value;
    forall d: Ino | OwnedDirectory(k, d, f.owner) ensures OwnedDirectory(k', d, f.owner) {
      var c :| c in k.containers && k.containers[c] == Container(d, f.owner);
      assert k'.containers[c] == Container(d, f.owner);
    }
  }

  lemma RenameOrderly(k: Disk, js: map<string, Journal>, f: Folder, base: map<Name, Ino>, c: Capture)
    requires Rest(k, f, base) && Private(k, js, f) && Recorded(js, f, c) && Public(k, f.target)
    requires OwnedDirectory(k, c.ino, f.owner) && Perform(k, Rename(f.target, CapturedDirectory(c))).Some?
    ensures var k' := Perform(k, Rename(f.target, CapturedDirectory(c))).value; Rest(k', f, base) && Private(k', js, f)
  {
  }

  lemma RmdirOrderly(k: Disk, js: map<string, Journal>, f: Folder, base: map<Name, Ino>, n: Name)
    requires Rest(k, f, base) && Private(k, js, f)
    requires OwnPrivate(k, f.owner, n) || OwnedDirectory(k, n.dir, f.owner)
    requires Perform(k, Rmdir(n)).Some?
    ensures Rest(Perform(k, Rmdir(n)).value, f, base) && Private(Perform(k, Rmdir(n)).value, js, f)
  {
  }

  ghost predicate Succeeds(k: Disk, js: map<string, Journal>, a: Attempt, action: Action, f: Folder)
    requires f.original in js
  {
    action.Make? && Perform(k, action.call).Some? &&
    var k' := Perform(k, action.call).value;
    Placed(k', js, f) && Progress(k', js, a, action.next, f) && Promise(k, js, Bound(k, js, a, f), action, f)
  }

  lemma MkdtempSucceeds(k: Disk, js: map<string, Journal>, a: Attempt, f: Folder, pick: Pick)
    requires FolderOk(k, js, f) && Placed(k, js, f) && Underway(k, js, a, f) && Typed(a)
    requires a.pc == Removing(MakeContainer)
    requires Name(f.target.dir, REMOVE_PREFIX + pick.suffix) !in k.names && REMOVE_PREFIX + pick.suffix != f.target.base
    ensures Succeeds(k, js, a, NextRemove(k, a, pick), f)
  {
  }

  lemma RenameSucceeds(k: Disk, js: map<string, Journal>, a: Attempt, f: Folder, action: Action)
    requires FolderOk(k, js, f) && Placed(k, js, f) && Underway(k, js, a, f)
    requires a.pc == Removing(RenameTarget) && a.call.RemoveCall? && f.owner in js && js[f.owner] == a.entry
    requires a.entry.directoryCapture == Some(a.cap) && a.entry.status != Completed && OwnedDirectory(k, a.cap.ino, f.owner)
    requires action == Try(a, Rename(f.target, CapturedDirectory(a.cap)), Finishing(FinishContainer))
    requires a.cap.at in k.names && a.cap.at != f.target
    ensures Succeeds(k, js, a, action, f)
  {
  }

  lemma RemoveSucceeds(k: Disk, js: map<string, Journal>, a: Attempt, f: Folder, action: Action)
    requires FolderOk(k, js, f) && Placed(k, js, f) && Underway(k, js, a, f)
    requires a.pc == Finishing(RemoveDirectory) && f.owner in js && js[f.owner] == a.entry
    requires a.entry.directoryCapture == Some(a.cap) && a.entry.status == Linked
    requires Holds(k, CapturedDirectory(a.cap), f.identity.ino) && a.cap.at != CapturedDirectory(a.cap)
    requires action == Try(a, Rmdir(CapturedDirectory(a.cap)), Finishing(SaveRemoved))
    ensures Succeeds(k, js, a, action, f)
  {
  }

  lemma CleanSucceeds(k: Disk, js: map<string, Journal>, a: Attempt, f: Folder, action: Action)
    requires FolderOk(k, js, f) && Placed(k, js, f) && Private(k, js, f) && Underway(k, js, a, f)
    requires a.pc == Finishing(CleanRemove) && f.owner in js && js[f.owner] == a.entry && a.entry.status == Completed
    requires a.entry.directoryCapture == Some(a.cap) && CapturesSound(k, a.cap) && OwnedDirectory(k, a.cap.ino, f.owner)
    requires action == Try(a, Rmdir(a.cap.at), Returned(Some(a.entry)))
    ensures Succeeds(k, js, a, action, f)
  {
    assert Empty(k, a.cap.ino);
  }

  // ---- every step ----

  ghost predicate Advances(k: Disk, js: map<string, Journal>, a: Attempt, action: Action, f: Folder, base: map<Name, Ino>)
    requires f.original in js
  {
    Promise(k, js, Bound(k, js, a, f), action, f) &&
    match action
    case Go(b) => Progress(k, js, a, b, f)
    case Write(b) => f.owner != f.original && var js' := js[f.owner := b.entry]; Progress(k, js', a, b, f) && Kept(k, js', f, base)
    case Make(call, b, _) =>
      Perform(k, call).Some? && var k' := Perform(k, call).value; Progress(k', js, a, b, f) && Kept(k', js, f, base)
  }

  ghost predicate InCapture(k: Disk, js: map<string, Journal>, a: Attempt, f: Folder) {
    && Saved(js, a) && a.entry.directoryCapture == Some(a.cap) && CapturesSound(k, a.cap)
    && OwnPrivate(k, f.owner, a.cap.at) && OwnedDirectory(k, a.cap.ino, f.owner)
    && a.cap.at != f.target && a.cap.at != CapturedDirectory(a.cap)
  }

  ghost predicate FinishFacts(k: Disk, js: map<string, Journal>, a: Attempt, f: Folder)
    requires a.pc.Finishing?
  {
    var cleaning := a.pc.f.CleanStat? || a.pc.f.CleanList? || a.pc.f.CleanRemove?;
    && InCapture(k, js, a, f) && (cleaning <==> a.entry.status == Completed)
    && (a.pc.f.RemoveDirectory? ==> a.entry.status == Linked)
    && (a.pc.f.ListDirectory? || a.pc.f.SaveProof? || a.pc.f.RemoveDirectory? ==> Holds(k, CapturedDirectory(a.cap), f.identity.ino))
    && (a.pc.f.SaveRemoved? ==> CapturedDirectory(a.cap) !in k.names && f.target !in k.names)
  }

  ghost predicate FactsOf(k: Disk, js: map<string, Journal>, a: Attempt, f: Folder) {
    && a.call.owner == f.owner
    && (a.pc.Finishing? ==> FinishFacts(k, js, a, f))
    && (a.pc == Removing(SaveRemoveIntent) ==> CapturedDirectory(a.cap) !in k.names)
    && (a.pc == Removing(RenameTarget) ==> InCapture(k, js, a, f) && a.entry.status != Completed && a.cap.at in k.names)
  }

  lemma RemovingAdvances(k: Disk, js: map<string, Journal>, a: Attempt, f: Folder, base: map<Name, Ino>, pick: Pick)
    requires WellFormed(k) && Kept(k, js, f, base) && Underway(k, js, a, f) && Typed(a) && a.pc.Removing?
    requires FactsOf(k, js, a, f) && PickOk(k, pick)
    requires NextRemove(k, a, pick).Make? ==> Permitted(k, f.owner, NextRemove(k, a, pick).call)
    ensures Advances(k, js, a, NextRemove(k, a, pick), f, base)
  {
    var action := NextRemove(k, a, pick);
    match a.pc.d {
      case StatTarget | ListTarget => RemoveReads(k, js, a, f, pick);
      case SaveRemoveIntent => RemoveWrites(k, js, a, f, base, pick);
      case MakeContainer =>
        MkdtempSucceeds(k, js, a, f, pick);
        MkdtempOrderly(k, js, f, base, action.call);
        FolderStays(k, js, f, action.call);
      case RenameTarget =>
        RenameSucceeds(k, js, a, f, action);
        RenameOrderly(k, js, f, base, a.cap);
        FolderStays(k, js, f, action.call);
    }
  }

  lemma FinishRmdir(k: Disk, js: map<string, Journal>, a: Attempt, f: Folder, base: map<Name, Ino>, action: Action)
    requires WellFormed(k) && Kept(k, js, f, base) && Underway(k, js, a, f) && a.pc.Finishing?
    requires FactsOf(k, js, a, f) && action.Make? && Permitted(k, f.owner, action.call)
    requires if a.pc.f.RemoveDirectory? then action == Try(a, Rmdir(CapturedDirectory(a.cap)), Finishing(SaveRemoved))
             else a.pc.f.CleanRemove? && action == Try(a, Rmdir(a.cap.at), Returned(Some(a.entry)))
    ensures Advances(k, js, a, action, f, base)
  {
    if a.pc.f.RemoveDirectory? { RemoveSucceeds(k, js, a, f, action); } else { CleanSucceeds(k, js, a, f, action); }
    RmdirOrderly(k, js, f, base, action.call.target);
    FolderStays(k, js, f, action.call);
  }

  lemma FinishingAdvances(k: Disk, js: map<string, Journal>, a: Attempt, f: Folder, base: map<Name, Ino>, pick: Pick)
    requires WellFormed(k) && Kept(k, js, f, base) && Underway(k, js, a, f) && Typed(a) && a.pc.Finishing?
    requires FactsOf(k, js, a, f)
    requires NextFinish(k, a, pick).Make? ==> Permitted(k, f.owner, NextFinish(k, a, pick).call)
    ensures Advances(k, js, a, NextFinish(k, a, pick), f, base)
  {
    match a.pc.f {
      case FinishContainer | StatDirectory | ListDirectory => FinishReads(k, js, a, f, pick);
      case SaveProof | SaveRemoved => FinishWrites(k, js, a, f, base, pick);
      case CleanStat | CleanList => CleanReads(k, js, a, f, pick);
      case RemoveDirectory | CleanRemove => FinishRmdir(k, js, a, f, base, NextFinish(k, a, pick));
      case _ =>
    }
  }

  lemma JournalFacts(w: World, f: Folder, base: map<Name, Ino>)
    requires Quiet(w, f, base) && Running(w)
    ensures FactsOf(w.disk, w.journals, w.active.value, f)
  {
    var a := w.active.value;
    if a.pc.Finishing? || a.pc == Removing(RenameTarget) {
      assert RemoveOk(w.disk, w.journals, f.owner, a.entry);
    }
  }

  lemma TickAdvances(w: World, f: Folder, base: map<Name, Ino>, pick: Pick)
    requires Quiet(w, f, base) && Enabled(w, Tick(pick))
    ensures Advances(w.disk, w.journals, w.active.value, ActionOf(w, pick), f, base)
  {
    var k, js, a := w.disk, w.journals, w.active.value;
    JournalFacts(w, f, base);
    TickPermitted(w, pick);
    match a.pc {
      case Load => LoadSteps(k, js, a, f);
      case Removing(_) => RemovingAdvances(k, js, a, f, base, pick);
      case Finishing(_) => FinishingAdvances(k, js, a, f, base, pick);
    }
  }

  // One step: nearer to the end, bound calls stay bound and do not fail, others change nothing.
  ghost predicate StepsOn(w: World, w': World, f: Folder) {
    w.active.Some? && w'.active.Some? &&
    var a, b := w.active.value, w'.active.value;
    var bound := Bound(w.disk, w.journals, a, f);
    && b.call == a.call && (Halted(b) || Rank(b.pc) < Rank(a.pc))
    && (if bound then b.pc != Threw && (b.pc.Returned? ==> b.pc.outcome.Some?)
        else w'.disk == w.disk && w'.journals == w.journals && (b.pc.Returned? ==> b.pc.outcome.None?))
    && Bound(w'.disk, w'.journals, b, f) == bound
  }

  lemma AdvancedWorld(w: World, a: Attempt, action: Action, f: Folder, base: map<Name, Ino>)
    requires Kept(w.disk, w.journals, f, base) && w.active == Some(a) && a.call.owner == f.owner
    requires Advances(w.disk, w.journals, a, action, f, base)
    ensures var w' := Apply(w, action);
      && Kept(w'.disk, w'.journals, f, base) && StepsOn(w, w', f)
      && Underway(w'.disk, w'.journals, w'.active.value, f)
  {
  }

  lemma QuietTick(w: World, f: Folder, base: map<Name, Ino>, pick: Pick)
    requires Quiet(w, f, base) && Enabled(w, Tick(pick))
    ensures Quiet(Next(w, Tick(pick)), f, base) && StepsOn(w, Next(w, Tick(pick)), f)
  {
    JournalFacts(w, f, base);
    TickAdvances(w, f, base, pick);
    AdvancedWorld(w, w.active.value, ActionOf(w, pick), f, base);
    EventKeeps(w, Tick(pick));
    ReportedTick(w, pick);
  }

  // ---- schedules ----

  // Calls of this removal, steps, and deaths at any moment; no other program interferes.
  predicate Ours(f: Folder, e: Event) {
    match e
    case Outside(_) => false
    case Start(call) => CallOf(f, call)
    case Tick(_) => true
    case Die => true
  }

  lemma FreshFolderIsQuiet(w: World, f: Folder)
    requires Inv(w) && !Running(w) && FolderOk(w.disk, w.journals, f) && f.owner !in w.journals
    requires Holds(w.disk, f.target, f.identity.ino)
    requires w.active.Some? ==> CallOf(f, w.active.value.call) && Reported(w.journals, w.active.value)
    requires forall c :: c in w.disk.containers ==> w.disk.containers[c].owner != f.owner
    ensures Quiet(w, f, w.disk.names)
  {
  }

  lemma QuietEvent(w: World, e: Event, f: Folder, base: map<Name, Ino>)
    requires Quiet(w, f, base) && Enabled(w, e) && Ours(f, e)
    ensures Quiet(Next(w, e), f, base)
  {
    EventKeeps(w, e);
    if e.Tick? { QuietTick(w, f, base, e.pick); }
  }

  lemma {:induction false} QuietAlways(w: World, es: seq<Event>, f: Folder, base: map<Name, Ino>)
    requires Quiet(w, f, base) && Legal(w, es) && forall i :: 0 <= i < |es| ==> Ours(f, es[i])
    ensures Quiet(Exec(w, es), f, base)
    decreases |es|
  {
    if es != [] {
      QuietAlways(w, es[..|es| - 1], f, base);
      QuietEvent(Exec(w, es[..|es| - 1]), es[|es| - 1], f, base);
    }
  }

  // The folder is gone for good, its journal says so, nothing is left inside the owner's private
  // directories, and every other name is as it was.
  ghost predicate FolderRemoved(w: World, f: Folder, base: map<Name, Ino>) {
    var k := w.disk;
    && f.owner in w.journals && JournalOf(f, w.journals[f.owner]) && w.journals[f.owner].status == Completed
    && f.target !in k.names && f.identity.ino in k.removed && !Reachable(k, f.identity.ino)
    && (forall n :: n in k.names ==> !OwnedDirectory(k, n.dir, f.owner))
    && (forall n | n in base && n != f.target && Elsewhere(k, f, n) :: Holds(k, n, base[n]))
    && (forall n | n in k.names && n !in base :: OwnPrivate(k, f.owner, n))
  }

  lemma CompletedIsRemoved(w: World, f: Folder, base: map<Name, Ino>)
    requires Quiet(w, f, base) && f.owner in w.journals && w.journals[f.owner].status == Completed
    ensures FolderRemoved(w, f, base)
  {
    assert RemoveOk(w.disk, w.journals, f.owner, w.journals[f.owner]);
  }

  lemma RunningRank(k: Disk, js: map<string, Journal>, a: Attempt, f: Folder)
    requires f.original in js && Underway(k, js, a, f) && !Halted(a)
    ensures Rank(a.pc) > 0
  {
  }

  // Whether a call starting in this state will complete the removal.
  predicate WillComplete(w: World, call: Call, f: Folder) {
    f.target !in w.disk.names || (call.RemoveCall? && f.owner !in w.journals)
  }

  ghost predicate Standing(w: World, v: World, f: Folder, length: nat) {
    v.active.Some? &&
    var a := v.active.value;
    var bound := WillComplete(w, a.call, f);
    && length + Rank(a.pc) <= 17
    && Bound(v.disk, v.journals, a, f) == bound
    && if bound then a.pc != Threw && (a.pc.Returned? ==> a.pc.outcome.Some?)
       else v.disk == w.disk && v.journals == w.journals && (a.pc.Returned? ==> a.pc.outcome.None?)
  }

  lemma {:induction false} Stands(w: World, call: Call, es: seq<Event>, f: Folder, base: map<Name, Ino>)
    requires Quiet(w, f, base) && CallOf(f, call) && Legal(w, es) && Uninterrupted(es, call)
    ensures Quiet(Exec(w, es), f, base) && Standing(w, Exec(w, es), f, |es|) && Exec(w, es).active.value.call == call
    decreases |es|
  {
    var prefix, e := es[..|es| - 1], es[|es| - 1];
    if |es| == 1 {
      assert prefix == [];
      QuietEvent(w, e, f, base);
    } else {
      Stands(w, call, prefix, f, base);
      var v := Exec(w, prefix);
      RunningRank(v.disk, v.journals, v.active.value, f);
      QuietTick(v, f, base, e.pick);
      StandingStep(w, v, Exec(w, es), f, |prefix|);
    }
  }

  lemma StandingStep(w: World, v: World, v': World, f: Folder, length: nat)
    requires Standing(w, v, f, length) && StepsOn(v, v', f) && 0 < Rank(v.active.value.pc)
    ensures Standing(w, v', f, length + 1)
  {
  }

  // After any schedule of calls, steps and deaths, an uninterrupted removal or recovery ends within
  // 17 events.  It completes the removal exactly when the capture rename has happened, or when
  // nothing was journaled yet and it is the removal itself; otherwise it changes nothing.
  lemma RemovalReplay(w: World, es: seq<Event>, call: Call, es': seq<Event>, f: Folder, base: map<Name, Ino>)
    requires Quiet(w, f, base) && Legal(w, es) && forall i :: 0 <= i < |es| ==> Ours(f, es[i])
    requires CallOf(f, call) && Legal(Exec(w, es), es') && Uninterrupted(es', call)
    ensures var u, v := Exec(w, es), Exec(Exec(w, es), es');
      && v.active.Some? && |es'| <= 17 && (Running(v) ==> |es'| < 17 && exists pick :: Enabled(v, Tick(pick)))
      && (!WillComplete(u, call, f) ==> v.disk == u.disk && v.journals == u.journals)
      && (!Running(v) ==>
            ((v.active.value.pc.Returned? && v.active.value.pc.outcome.Some? && FolderRemoved(v, f, base) && Tidied(v.disk, v.journals, f)) <==> WillComplete(u, call, f)))
  {
    QuietAlways(w, es, f, base);
    var u := Exec(w, es);
    Stands(u, call, es', f, base);
    var v := Exec(u, es');
    if Running(v) {
      RunningRank(v.disk, v.journals, v.active.value, f);
      StepPossible(v);
    } else if WillComplete(u, call, f) {
      CompletedIsRemoved(v, f, base);
    }
  }

  // From a fresh removal: nothing journaled by its owner, the folder in its place.
  ghost predicate Fresh(w: World, f: Folder) {
    && Inv(w) && w.active.None? && FolderOk(w.disk, w.journals, f) && f.owner !in w.journals
    && Holds(w.disk, f.target, f.identity.ino)
    && forall c :: c in w.disk.containers ==> w.disk.containers[c].owner != f.owner
  }

  lemma FreshRemovalReplay(w: World, es: seq<Event>, call: Call, es': seq<Event>, f: Folder)
    requires Fresh(w, f) && Legal(w, es) && forall i :: 0 <= i < |es| ==> Ours(f, es[i])
    requires CallOf(f, call) && Legal(Exec(w, es), es') && Uninterrupted(es', call)
    ensures var u, v := Exec(w, es), Exec(Exec(w, es), es');
      && v.active.Some? && |es'| <= 17 && (Running(v) ==> |es'| < 17 && exists pick :: Enabled(v, Tick(pick)))
      && (!Running(v) ==>
            ((v.active.value.pc.Returned? && v.active.value.pc.outcome.Some? && FolderRemoved(v, f, w.disk.names)) <==> WillComplete(u, call, f)))
      && (!Running(v) && WillComplete(u, call, f) ==> Tidied(v.disk, v.journals, f))
  {
    FreshFolderIsQuiet(w, f);
    RemovalReplay(w, es, call, es', f, w.disk.names);
    if WillComplete(Exec(w, es), call, f) { Tidies(w, es, call, es', f); }
  }

  // A call that will complete ends with its private directory gone.
  lemma Tidies(w: World, es: seq<Event>, call: Call, es': seq<Event>, f: Folder)
    requires Quiet(w, f, w.disk.names) && Legal(w, es) && forall i :: 0 <= i < |es| ==> Ours(f, es[i])
    requires CallOf(f, call) && Legal(Exec(w, es), es') && Uninterrupted(es', call) && WillComplete(Exec(w, es), call, f)
    ensures var v := Exec(Exec(w, es), es'); v.active.Some? && !Running(v) ==> Tidied(v.disk, v.journals, f)
  {
    QuietAlways(w, es, f, w.disk.names);
    Stands(Exec(w, es), call, es', f, w.disk.names);
  }
}
