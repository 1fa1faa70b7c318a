// What one undisturbed journaled call does to the public names: exactly the effect that plans are
// made of, and nothing left behind.
module QuietEffect {
  import opened Wrappers
  import opened FileSystem
  import opened Protocol
  import opened ProtocolInvariant
  import opened ProtocolSteps
  import opened ProtocolSafety
  import opened ProtocolOutcomes
  import QuietCreate
  import QuietMove
  import QuietRemove

  function PublicNames(k: Disk): map<Name, Ino> {
    map n | n in k.names && Public(k, n) :: k.names[n]
  }

  // ---- what every call keeps ----

  // Inode numbers stay taken, and a private directory never takes over an existing one.
  ghost predicate Grew(k: Disk, k': Disk) {
    && NodesStay(k, k')
    && (forall n :: n in k.containers ==> n in k'.containers && k'.containers[n] == k.containers[n])
    && (forall n | n in k'.containers && n !in k.containers :: k'.containers[n].ino !in k.nodes)
  }

  // New private directories are the owner's, and no journal but the owner's has changed.
  ghost predicate KeptBy(w: World, v: World, owner: string) {
    && Grew(w.disk, v.disk)
    && (forall n | n in v.disk.containers && n !in w.disk.containers :: v.disk.containers[n].owner == owner)
    && (forall p | p != owner :: Lookup(v.journals, p) == Lookup(w.journals, p))
  }

  // Only mkdtemp makes a private directory.
  lemma ContainersAfter(k: Disk, call: Syscall)
    requires Perform(k, call).Some?
    ensures Perform(k, call).value.containers ==
      if call.Mkdtemp? then k.containers[call.target := Container(call.ino, call.owner)] else k.containers
  {
  }

  lemma PermittedGrows(k: Disk, o: string, call: Syscall)
    requires WellFormed(k) && Permitted(k, o, call) && Perform(k, call).Some? && NodesStay(k, Perform(k, call).value)
    ensures var k' := Perform(k, call).value;
      Grew(k, k') && forall n | n in k'.containers && n !in k.containers :: k'.containers[n].owner == o
  {
    hide WellFormed, NodesStay;
    ContainersAfter(k, call);
  }

  lemma TickKept(w: World, pick: Pick)
    requires Inv(w) && Enabled(w, Tick(pick))
    ensures KeptBy(w, Next(w, Tick(pick)), w.active.value.call.owner)
    ensures Next(w, Tick(pick)).active.Some? && Next(w, Tick(pick)).active.value.call == w.active.value.call
  {
    TickGood(w, pick);
    TickNodes(w, pick);
    hide NextAction, Grew, Perform, Permitted, AttemptOk, JournalOk, JournalsOk, NodesStay;
    var o, action := w.active.value.call.owner, ActionOf(w, pick);
    GrewSelf(w.disk);
    if action.Make? && Perform(w.disk, action.call).Some? { PermittedGrows(w.disk, o, action.call); }
  }

  lemma GrewSelf(k: Disk)
    ensures Grew(k, k)
  {
  }

  lemma KeptOn(w: World, u: World, v: World, owner: string)
    requires KeptBy(w, u, owner) && KeptBy(u, v, owner)
    ensures KeptBy(w, v, owner)
  {
  }

  lemma {:induction false} CallKept(w: World, call: Call, es: seq<Event>)
    requires Inv(w) && Legal(w, es) && Uninterrupted(es, call)
    ensures KeptBy(w, Exec(w, es), call.owner) && Inv(Exec(w, es))
    ensures Exec(w, es).active.Some? && Exec(w, es).active.value.call == call
    decreases |es|
  {
    InvAlways(w, es);
    var prefix, e := es[..|es| - 1], es[|es| - 1];
    hide KeptBy;
    if |es| == 1 {
      assert prefix == [];
      KeptSelf(w, call);
    } else {
      CallKept(w, call, prefix);
      TickKept(Exec(w, prefix), e.pick);
      KeptOn(w, Exec(w, prefix), Exec(w, es), call.owner);
    }
  }

  lemma KeptSelf(w: World, call: Call)
    requires Inv(w) && Enabled(w, Start(call))
    ensures KeptBy(w, Next(w, Start(call)), call.owner)
  {
  }

  // An existing name is public before a run exactly when it is public afterwards.
  lemma PublicStays(k: Disk, k': Disk, n: Name)
    requires WellFormed(k) && Grew(k, k') && n in k.names
    ensures Public(k, n) <==> Public(k', n)
  {
  }

  // The result of an earlier call does not matter to the next one.
  ghost predicate SameIdle(w: World, w0: World) {
    Inv(w) && Inv(w0) && !Running(w) && !Running(w0) && w0.disk == w.disk && w0.journals == w.journals
  }

  lemma {:induction false} Restarted(w: World, w0: World, call: Call, es: seq<Event>)
    requires SameIdle(w, w0) && Legal(w, es) && Uninterrupted(es, call)
    ensures Legal(w0, es) && Exec(w0, es) == Exec(w, es)
    decreases |es|
  {
    var prefix := es[..|es| - 1];
    if |es| == 1 {
      assert prefix == [];
    } else {
      Restarted(w, w0, call, prefix);
    }
  }

  // ---- a move ----

  // The owner's only private directory is the one its journal records, or is about to.
  ghost predicate OneCapture(w: World, job: QuietMove.Job) {
    forall c | c in w.disk.containers && w.disk.containers[c].owner == job.owner ::
      || (w.active.Some? && w.active.value.pc == Owning(SaveCapture) && c == w.active.value.cap.at)
      || (job.owner in w.journals && w.journals[job.owner].sourceCapture.Some? && w.journals[job.owner].sourceCapture.value.at == c)
  }

  ghost predicate NoCapture(w: World, job: QuietMove.Job) {
    forall c :: c in w.disk.containers ==> w.disk.containers[c].owner != job.owner
  }

  // Before a journal is written anew, and before a capture is made, there is none.
  lemma NoneYet(w: World, job: QuietMove.Job, base: map<Name, Ino>)
    requires QuietMove.Quiet(w, job, base) && OneCapture(w, job) && Running(w)
    requires w.active.value.pc == Moving(SaveIntent) || w.active.value.pc == Owning(MakeCapture)
    ensures NoCapture(w, job)
  {
  }

  lemma SavedHere(w: World, job: QuietMove.Job, base: map<Name, Ino>)
    requires QuietMove.Quiet(w, job, base) && Running(w) && (w.active.value.pc.Owning? || w.active.value.pc == Moving(SaveLinked))
    ensures Saved(w.journals, w.active.value) && w.active.value.call.owner == job.owner
    ensures w.active.value.pc == Owning(SaveCapture) ==> w.active.value.entry.sourceCapture.None?
  {
  }

  // Which steps touch private directories or their record.
  predicate CaptureStep(a: Attempt, action: Action, job: QuietMove.Job) {
    && (action.Make? && action.call.Mkdtemp? ==>
          a.pc == Owning(MakeCapture) && action.next.pc == Owning(SaveCapture) && action.next.cap.at == action.call.target)
    && (action.Write? ==>
          && action.next.call.owner == job.owner
          && (a.pc == Moving(SaveIntent) ||
              action.next.entry.sourceCapture == if a.pc == Owning(SaveCapture) then Some(a.cap) else a.entry.sourceCapture)
          && (a.pc == Moving(SaveIntent) || a.pc == Moving(SaveLinked) || a.pc.Owning?))
    && (a.pc == Owning(SaveCapture) ==> action.Write?)
  }

  lemma CaptureSteps(k: Disk, js: map<string, Journal>, a: Attempt, pick: Pick, job: QuietMove.Job)
    requires Typed(a) && !Halted(a) && QuietMove.Underway(k, a, job)
    ensures CaptureStep(a, NextAction(k, js, a, pick), job)
  {
    match a.pc
    case Load =>
    case Moving(_) =>
    case Owning(_) => OwningSteps(k, a, pick);
    case Recovering(_) => RecoveringSteps(k, a);
  }

  lemma OwningSteps(k: Disk, a: Attempt, pick: Pick)
    requires Typed(a) && a.pc.Owning?
    ensures var action := NextOwnedSource(k, a, pick);
      && (action.Make? && action.call.Mkdtemp? ==>
            a.pc == Owning(MakeCapture) && action.next.pc == Owning(SaveCapture) && action.next.cap.at == action.call.target)
      && (action.Write? ==>
            && action.next.call == a.call
            && action.next.entry.sourceCapture == if a.pc == Owning(SaveCapture) then Some(a.cap) else a.entry.sourceCapture)
      && (a.pc == Owning(SaveCapture) ==> action.Write?)
  {
    hide Perform, FileIdentityAt, DirectoryAt;
  }

  lemma RecoveringSteps(k: Disk, a: Attempt)
    requires Typed(a) && a.pc.Recovering?
    ensures !NextRecover(k, a).Write? && (NextRecover(k, a).Make? ==> !NextRecover(k, a).call.Mkdtemp?)
  {
    hide Perform, FileIdentityAt, DirectoryAt, StatAt;
  }

  lemma CaptureApplied(w: World, action: Action, job: QuietMove.Job)
    requires w.active.Some? && OneCapture(w, job) && CaptureStep(w.active.value, action, job)
    requires var a := w.active.value;
      && (a.pc == Moving(SaveIntent) || a.pc == Owning(MakeCapture) ==> NoCapture(w, job))
      && (a.pc.Owning? || a.pc == Moving(SaveLinked) ==> Saved(w.journals, a) && a.call.owner == job.owner)
      && (a.pc == Owning(SaveCapture) ==> a.entry.sourceCapture.None?)
    ensures OneCapture(Apply(w, action), job)
  {
    if action.Make? && Perform(w.disk, action.call).Some? { ContainersAfter(w.disk, action.call); }
    hide Perform;
  }

  lemma OneCaptureTick(w: World, job: QuietMove.Job, base: map<Name, Ino>, pick: Pick)
    requires QuietMove.Quiet(w, job, base) && OneCapture(w, job) && Enabled(w, Tick(pick))
    ensures OneCapture(Next(w, Tick(pick)), job)
  {
    var a := w.active.value;
    if a.pc == Moving(SaveIntent) || a.pc == Owning(MakeCapture) { NoneYet(w, job, base); }
    if a.pc.Owning? || a.pc == Moving(SaveLinked) { SavedHere(w, job, base); }
    CaptureSteps(w.disk, w.journals, a, pick, job);
    hide NextAction, Inv, Perform, PickOk, OneCapture, CaptureStep, Apply;
    CaptureApplied(w, ActionOf(w, pick), job);
  }

  lemma {:induction false} OneCaptureAlways(w: World, call: Call, es: seq<Event>, job: QuietMove.Job)
    requires QuietMove.Fresh(w, job) && QuietMove.CallOf(job, call) && Legal(w, es) && Uninterrupted(es, call)
    ensures QuietMove.Quiet(Exec(w, es), job, w.disk.names) && OneCapture(Exec(w, es), job)
    decreases |es|
  {
    QuietMove.FreshJobIsQuiet(w, job);
    QuietMove.Stands(w, call, es, job, w.disk.names);
    var prefix, e := es[..|es| - 1], es[|es| - 1];
    if |es| == 1 {
      assert prefix == [];
    } else {
      OneCaptureAlways(w, call, prefix, job);
      OneCaptureTick(Exec(w, prefix), job, w.disk.names, e.pick);
    }
  }

  // What a call leaves behind in the private names of the disk: nothing that was not there.
  ghost predicate NothingLeft(k: Disk, k': Disk) {
    forall n | n in k'.names && !Public(k', n) :: n in k.names && !Public(k, n)
  }

  // A move that starts afresh and is left alone takes the file from its old name to its new one, does
  // nothing else to any public name, and leaves nothing behind.
  lemma MoveEffect(w: World, call: Call, es: seq<Event>, job: QuietMove.Job)
    requires QuietMove.Fresh(w, job) && call.MoveCall? && QuietMove.CallOf(job, call)
    requires Legal(w, es) && Uninterrupted(es, call) && !Running(Exec(w, es))
    ensures var v := Exec(w, es);
      && PublicNames(v.disk) == (PublicNames(w.disk) - {job.source})[job.destination := job.ino]
      && NothingLeft(w.disk, v.disk) && Delivered(v)
  {
    assert Exec(w, []) == w;
    var v := Exec(w, es);
    QuietMove.FreshMoveCompletes(w, [], call, es, job);
    OneCaptureAlways(w, call, es, job);
    CallKept(w, call, es);
    MovedNames(w.disk, v, job);
    MoveLeaves(w, v, job);
    MoveReturns(w, call, es, job);
  }

  // The call ended with an outcome.
  predicate Delivered(v: World) {
    v.active.Some? && v.active.value.pc.Returned? && v.active.value.pc.outcome.Some?
  }

  lemma MoveReturns(w: World, call: Call, es: seq<Event>, job: QuietMove.Job)
    requires QuietMove.Fresh(w, job) && call.MoveCall? && QuietMove.CallOf(job, call)
    requires Legal(w, es) && Uninterrupted(es, call) && !Running(Exec(w, es))
    ensures Delivered(Exec(w, es))
  {
    QuietMove.FreshJobIsQuiet(w, job);
    QuietMove.Stands(w, call, es, job, w.disk.names);
  }

  lemma MoveLeaves(w: World, v: World, job: QuietMove.Job)
    requires WellFormed(w.disk) && WellFormed(v.disk) && Grew(w.disk, v.disk) && QuietMove.Moved(v, job, w.disk.names)
    requires OneCapture(v, job) && v.active.Some? && Halted(v.active.value) && Public(v.disk, job.destination)
    ensures NothingLeft(w.disk, v.disk)
  {
    forall n | n in v.disk.names && !Public(v.disk, n) ensures n in w.disk.names && !Public(w.disk, n) {
      if n in w.disk.names { PublicStays(w.disk, v.disk, n); }
    }
  }

  lemma MovedNames(k: Disk, v: World, job: QuietMove.Job)
    requires WellFormed(k) && Grew(k, v.disk) && QuietMove.Moved(v, job, k.names) && Public(v.disk, job.destination)
    ensures PublicNames(v.disk) == (PublicNames(k) - {job.source})[job.destination := job.ino]
  {
    assert Holds(v.disk, job.destination, job.ino);
    hide QuietMove.Moved, Grew, WellFormed, Public;
    forall n | n != job.destination
      ensures n in PublicNames(v.disk) <==> n in PublicNames(k) && n != job.source
      ensures n in PublicNames(v.disk) ==> PublicNames(v.disk)[n] == PublicNames(k)[n]
    {
      MovedName(k, v, job, n);
    }
    assert job.destination in PublicNames(v.disk) && PublicNames(v.disk)[job.destination] == job.ino;
    hide PublicNames;
  }

  lemma MovedName(k: Disk, v: World, job: QuietMove.Job, n: Name)
    requires WellFormed(k) && Grew(k, v.disk) && QuietMove.Moved(v, job, k.names) && n != job.destination
    ensures n in PublicNames(v.disk) <==> n in PublicNames(k) && n != job.source
    ensures n in PublicNames(v.disk) ==> v.disk.names[n] == k.names[n]
  {
    if n in k.names { PublicStays(k, v.disk, n); }
    assert Public(v.disk, n) && n != job.source ==> QuietMove.Elsewhere(v.disk, job, n);
  }

  // ---- a removal ----

  // Likewise for the private directory of a removal.
  ghost predicate OneContainer(w: World, f: QuietRemove.Folder) {
    forall c | c in w.disk.containers && w.disk.containers[c].owner == f.owner ::
      || (w.active.Some? && w.active.value.pc == Removing(SaveRemoveIntent) && c == w.active.value.cap.at)
      || (f.owner in w.journals && w.journals[f.owner].directoryCapture.Some? && w.journals[f.owner].directoryCapture.value.at == c)
  }

  lemma SavedRemoval(w: World, f: QuietRemove.Folder, base: map<Name, Ino>)
    requires QuietRemove.Quiet(w, f, base) && Running(w)
    ensures w.active.value.call.owner == f.owner
    ensures w.active.value.pc.Finishing? ==> Saved(w.journals, w.active.value)
    ensures w.active.value.pc == Removing(MakeContainer) || w.active.value.pc == Removing(SaveRemoveIntent) ==> f.owner !in w.journals
  {
  }

  lemma ContainerSteps(k: Disk, js: map<string, Journal>, a: Attempt, pick: Pick, f: QuietRemove.Folder)
    requires Typed(a) && !Halted(a) && f.original in js && QuietRemove.Underway(k, js, a, f)
    ensures var action := NextAction(k, js, a, pick);
      && (action.Make? && action.call.Mkdtemp? ==>
            a.pc == Removing(MakeContainer) && action.next.pc == Removing(SaveRemoveIntent) && action.next.cap.at == action.call.target)
      && (action.Write? ==>
            && action.next.call.owner == f.owner && (a.pc == Removing(SaveRemoveIntent) || a.pc.Finishing?)
            && action.next.entry.directoryCapture == if a.pc == Removing(SaveRemoveIntent) then Some(a.cap) else a.entry.directoryCapture)
      && (a.pc == Removing(SaveRemoveIntent) ==> action.Write?)
  {
    hide Perform, DirectoryAt, StatAt, Empty;
    match a.pc
    case Load =>
    case Removing(_) =>
    case Finishing(_) => FinishingSteps(k, a, pick);
  }

  lemma FinishingSteps(k: Disk, a: Attempt, pick: Pick)
    requires Typed(a) && a.pc.Finishing?
    ensures var action := NextFinish(k, a, pick);
      && (action.Make? ==> !action.call.Mkdtemp?)
      && (action.Write? ==> action.next.call == a.call && action.next.entry.directoryCapture == a.entry.directoryCapture)
  {
    hide Perform, DirectoryAt, StatAt, Empty;
  }

  lemma OneContainerTick(w: World, f: QuietRemove.Folder, base: map<Name, Ino>, pick: Pick)
    requires QuietRemove.Quiet(w, f, base) && OneContainer(w, f) && Enabled(w, Tick(pick))
    ensures OneContainer(Next(w, Tick(pick)), f)
  {
    SavedRemoval(w, f, base);
    var action := ActionOf(w, pick);
    ContainerSteps(w.disk, w.journals, w.active.value, pick, f);
    if action.Make? && Perform(w.disk, action.call).Some? { ContainersAfter(w.disk, action.call); }
    hide QuietRemove.Quiet, NextAction, Inv, Perform, PickOk;
  }

  lemma {:induction false} OneContainerAlways(w: World, call: Call, es: seq<Event>, f: QuietRemove.Folder)
    requires QuietRemove.Fresh(w, f) && QuietRemove.CallOf(f, call) && Legal(w, es) && Uninterrupted(es, call)
    ensures QuietRemove.Quiet(Exec(w, es), f, w.disk.names) && OneContainer(Exec(w, es), f)
    decreases |es|
  {
    QuietRemove.FreshFolderIsQuiet(w, f);
    QuietRemove.Stands(w, call, es, f, w.disk.names);
    var prefix, e := es[..|es| - 1], es[|es| - 1];
    if |es| == 1 {
      assert prefix == [];
    } else {
      OneContainerAlways(w, call, prefix, f);
      OneContainerTick(Exec(w, prefix), f, w.disk.names, e.pick);
    }
  }

  // An undisturbed removal takes away the name of the folder and no other, and leaves nothing behind.
  lemma RemovalEffect(w: World, call: Call, es: seq<Event>, f: QuietRemove.Folder)
    requires QuietRemove.Fresh(w, f) && call.RemoveCall? && QuietRemove.CallOf(f, call)
    requires Legal(w, es) && Uninterrupted(es, call) && !Running(Exec(w, es))
    ensures var v := Exec(w, es);
      && PublicNames(v.disk) == PublicNames(w.disk) - {f.target}
      && NothingLeft(w.disk, v.disk) && Delivered(v)
  {
    assert Exec(w, []) == w;
    var v := Exec(w, es);
    QuietRemove.FreshRemovalReplay(w, [], call, es, f);
    OneContainerAlways(w, call, es, f);
    CallKept(w, call, es);
    RemovedNames(w.disk, v, f);
    RemovalLeaves(w, v, f);
  }

  lemma RemovalLeaves(w: World, v: World, f: QuietRemove.Folder)
    requires WellFormed(w.disk) && Grew(w.disk, v.disk) && QuietRemove.FolderRemoved(v, f, w.disk.names)
    requires OneContainer(v, f) && QuietRemove.Tidied(v.disk, v.journals, f) && v.active.Some? && Halted(v.active.value)
    ensures NothingLeft(w.disk, v.disk)
  {
    forall n | n in v.disk.names && !Public(v.disk, n) ensures n in w.disk.names && !Public(w.disk, n) {
      if n in w.disk.names { PublicStays(w.disk, v.disk, n); }
    }
  }

  lemma RemovedNames(k: Disk, v: World, f: QuietRemove.Folder)
    requires WellFormed(k) && Grew(k, v.disk) && QuietRemove.FolderRemoved(v, f, k.names)
    ensures PublicNames(v.disk) == PublicNames(k) - {f.target}
  {
    hide QuietRemove.FolderRemoved, Grew, WellFormed, Public;
    forall n
      ensures n in PublicNames(v.disk) <==> n in PublicNames(k) && n != f.target
      ensures n in PublicNames(v.disk) ==> v.disk.names[n] == k.names[n]
    {
      RemovedName(k, v, f, n);
    }
  }

  lemma RemovedName(k: Disk, v: World, f: QuietRemove.Folder, n: Name)
    requires WellFormed(k) && Grew(k, v.disk) && QuietRemove.FolderRemoved(v, f, k.names)
    ensures n in PublicNames(v.disk) <==> n in PublicNames(k) && n != f.target
    ensures n in PublicNames(v.disk) ==> v.disk.names[n] == k.names[n]
  {
    if n in k.names { PublicStays(k, v.disk, n); }
    assert Public(v.disk, n) && n != f.target ==> QuietRemove.Elsewhere(v.disk, f, n);
  }

  // ---- a creation ----

  // A fresh undisturbed creation adds the name of a new, empty folder where nothing was, or changes
  // no name where a folder was; its journal says which.
  lemma CreationEffect(w: World, call: Call, es: seq<Event>, c: QuietCreate.Creation)
    requires Inv(w) && w.active.None? && Public(w.disk, c.target) && c.owner !in w.journals && QuietCreate.Open(w.disk, c)
    requires call.CreateCall? && QuietCreate.CallOf(c, call)
    requires Legal(w, es) && Uninterrupted(es, call) && !Running(Exec(w, es))
    ensures var v := Exec(w, es);
      && QuietCreate.FolderMade(v, c, w.disk) && NothingLeft(w.disk, v.disk) && Delivered(v)
      && c.target in v.disk.names
      && PublicNames(v.disk) == PublicNames(w.disk)[c.target := v.disk.names[c.target]]
      && v.journals[c.owner].created == (c.target !in w.disk.names)
  {
    assert Exec(w, []) == w;
    var v := Exec(w, es);
    QuietCreate.FreshCreationIsQuiet(w, c);
    QuietCreate.CreationReplay(w, [], call, es, c, w.disk);
    CallKept(w, call, es);
    CreatedNames(w.disk, v, c);
  }

  lemma CreatedNames(k: Disk, v: World, c: QuietCreate.Creation)
    requires WellFormed(k) && Grew(k, v.disk) && QuietCreate.FolderMade(v, c, k) && Public(k, c.target)
    ensures c.target in v.disk.names
    ensures PublicNames(v.disk) == PublicNames(k)[c.target := v.disk.names[c.target]] && NothingLeft(k, v.disk)
  {
    CreatedPublic(k, v, c);
    hide QuietCreate.FolderMade, Grew, WellFormed, Public;
    forall n | n != c.target
      ensures n in PublicNames(v.disk) <==> n in PublicNames(k)
      ensures n in PublicNames(v.disk) ==> PublicNames(v.disk)[n] == PublicNames(k)[n]
      ensures n in v.disk.names && !Public(v.disk, n) ==> n in k.names && !Public(k, n)
    {
      CreatedName(k, v, c, n);
    }
    assert c.target in PublicNames(v.disk) && PublicNames(v.disk)[c.target] == v.disk.names[c.target];
    hide PublicNames;
  }

  lemma CreatedName(k: Disk, v: World, c: QuietCreate.Creation, n: Name)
    requires WellFormed(k) && Grew(k, v.disk) && QuietCreate.FolderMade(v, c, k) && n != c.target
    ensures n in v.disk.names <==> n in k.names
    ensures n in k.names ==> v.disk.names[n] == k.names[n] && (Public(k, n) <==> Public(v.disk, n))
  {
    if n in k.names { PublicStays(k, v.disk, n); }
  }

  lemma CreatedPublic(k: Disk, v: World, c: QuietCreate.Creation)
    requires WellFormed(k) && Grew(k, v.disk) && QuietCreate.FolderMade(v, c, k) && Public(k, c.target)
    ensures Public(v.disk, c.target) && c.target in v.disk.names
  {
  }
}
