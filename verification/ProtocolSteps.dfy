// Every event keeps the protocol invariant.
module ProtocolSteps {
  import opened Wrappers
  import opened FileSystem
  import opened Protocol
  import opened ProtocolInvariant

  ghost predicate OwnedDirectory(k: Disk, ino: Ino, o: string) {
    exists c :: c in k.containers && k.containers[c] == Container(ino, o)
  }

  // The name of a private directory of this owner.
  predicate OwnPrivate(k: Disk, owner: string, n: Name) {
    PrivateBase(n.base) && n in k.containers && k.containers[n].owner == owner
  }

  // The system calls the protocol makes for owner o: it creates only vacant public names and fresh
  // private directories, it takes a public name away only by renaming it to a vacant name in its
  // own private directory, and it deletes only there.
  ghost predicate Permitted(k: Disk, o: string, call: Syscall) {
    match call
    case Link(_, to) => Public(k, to)
    case Rename(from, to) => Public(k, from) && OwnedDirectory(k, to.dir, o) && to !in k.names
    case Unlink(n) => OwnedDirectory(k, n.dir, o)
    case Mkdir(n, ino) => Public(k, n) && ino !in k.nodes
    case Mkdtemp(n, ino, owner) =>
      PrivateBase(n.base) && n.dir in k.nodes && !IsContainer(k, n.dir) && ino !in k.nodes && n !in k.containers && owner == o
    case Rmdir(n) =>
      (PrivateBase(n.base) && !IsContainer(k, n.dir) && n in k.containers && k.containers[n].owner == o) ||
      OwnedDirectory(k, n.dir, o)
    case Create(n, ino, _) => Public(k, n) && ino !in k.nodes
  }

  lemma MkdtempFrame(k: Disk, o: string, call: Syscall)
    requires WellFormed(k) && call.Mkdtemp? && Permitted(k, o, call) && Perform(k, call).Some?
    ensures Frame(k, Perform(k, call).value, o)
  {
  }

  lemma MkdtempKeeps(k: Disk, o: string, call: Syscall)
    requires WellFormed(k) && call.Mkdtemp? && Permitted(k, o, call) && Perform(k, call).Some?
    ensures WellFormed(Perform(k, call).value) && Frame(k, Perform(k, call).value, o)
  {
    MkdtempFrame(k, o, call);
    hide Frame;
    var k' := Perform(k, call).value;
    assert k'.containers[call.target].ino == call.ino;
    forall m | m in k'.names && PrivateBase(m.base) && !IsContainer(k', m.dir)
      ensures m in k'.containers && k'.names[m] == k'.containers[m].ino
    {
      assert forall n | n in k.containers :: n in k'.containers && k'.containers[n] == k.containers[n];
      assert !IsContainer(k, m.dir);
    }
  }

  lemma AddingWellFormed(k: Disk, o: string, call: Syscall)
    requires WellFormed(k) && Permitted(k, o, call) && Perform(k, call).Some?
    requires call.Mkdir? || call.Create?
    ensures WellFormed(Perform(k, call).value)
  {
  }

  lemma AddingKeeps(k: Disk, o: string, call: Syscall)
    requires WellFormed(k) && Permitted(k, o, call) && Perform(k, call).Some?
    requires call.Mkdir? || call.Create?
    ensures WellFormed(Perform(k, call).value) && Frame(k, Perform(k, call).value, o)
  {
    AddingWellFormed(k, o, call);
    hide WellFormed;
  }

  lemma LinkKeeps(k: Disk, o: string, call: Syscall)
    requires WellFormed(k) && Permitted(k, o, call) && Perform(k, call).Some? && call.Link?
    ensures WellFormed(Perform(k, call).value) && Frame(k, Perform(k, call).value, o)
  {
  }

  lemma TakingKeeps(k: Disk, o: string, call: Syscall)
    requires WellFormed(k) && Permitted(k, o, call) && Perform(k, call).Some?
    requires call.Unlink? || call.Rmdir?
    ensures WellFormed(Perform(k, call).value) && Frame(k, Perform(k, call).value, o)
  {
  }

  lemma RenameKeeps(k: Disk, o: string, call: Syscall)
    requires WellFormed(k) && Permitted(k, o, call) && Perform(k, call).Some? && call.Rename?
    ensures WellFormed(Perform(k, call).value) && Frame(k, Perform(k, call).value, o)
  {
  }

  lemma PermittedKeeps(k: Disk, o: string, call: Syscall)
    requires WellFormed(k) && Permitted(k, o, call) && Perform(k, call).Some?
    ensures WellFormed(Perform(k, call).value) && Frame(k, Perform(k, call).value, o)
  {
    match call
    case Mkdtemp(_, _, _) => MkdtempKeeps(k, o, call);
    case Link(_, _) => LinkKeeps(k, o, call);
    case Mkdir(_, _) => AddingKeeps(k, o, call);
    case Create(_, _, _) => AddingKeeps(k, o, call);
    case Rename(_, _) => RenameKeeps(k, o, call);
    case _ => TakingKeeps(k, o, call);
  }

  // One step of the call, and all that has to be true of it.
  ghost predicate Good(k: Disk, js: map<string, Journal>, a: Attempt, action: Action) {
    var o := a.call.owner;
    match action
    case Go(next) => next.call == a.call && AttemptOk(k, js, next)
    case Write(next) =>
      var js' := js[o := next.entry];
      next.call == a.call && Open(js, a, next.entry.kind) && JournalOk(k, js', o, next.entry) && AttemptOk(k, js', next)
    case Make(call, next, failed) =>
      var result := Perform(k, call);
      next.call == a.call && failed.call == a.call && Permitted(k, o, call) && AttemptOk(k, js, failed) &&
      (result.Some? ==> AttemptOk(result.value, js, next)) &&
      (result.Some? && o in js && js[o].kind == RemoveFolder ==> RemovalKept(k, result.value, js[o]))
  }

  lemma GoodKeeps(w: World, action: Action)
    requires Inv(w) && w.active.Some? && Good(w.disk, w.journals, w.active.value, action)
    ensures Inv(Apply(w, action))
  {
    var o, w' := w.active.value.call.owner, Apply(w, action);
    if action.Make? && Perform(w.disk, action.call).Some? {
      PermittedKeeps(w.disk, o, action.call);
      if o in w.journals { JournalFrame(w.disk, w'.disk, w.journals, w.journals, o, o, w.journals[o]); }
    }
    CallFrame(w.disk, w'.disk, o, w.active.value.call);
    JournalsFrame(w.disk, w'.disk, w.journals, w'.journals, o);
  }

  lemma LoadFreshGood(k: Disk, js: map<string, Journal>, a: Attempt)
    requires CallOk(k, a.call) && AttemptOk(k, js, a) && a.pc.Load? && a.call.owner !in js
    ensures Good(k, js, a, NextLoad(js, a))
  {
  }

  lemma LoadKnownGood(k: Disk, js: map<string, Journal>, a: Attempt)
    requires CallOk(k, a.call) && AttemptOk(k, js, a) && a.pc.Load? && a.call.owner in js
    requires JournalOk(k, js, a.call.owner, js[a.call.owner])
    ensures Good(k, js, a, NextLoad(js, a))
  {
    var next := NextLoad(js, a);
    assert next.Go? && next.next.call == a.call;
  }

  ghost predicate Journaled(k: Disk, js: map<string, Journal>, a: Attempt) {
    CallOk(k, a.call) && AttemptOk(k, js, a) && JournalOk(k, js, a.call.owner, a.entry)
  }

  lemma RecoverReadsGood(k: Disk, js: map<string, Journal>, a: Attempt)
    requires Journaled(k, js, a) && a.pc.Recovering?
    requires a.pc.r.StatSource? || a.pc.r.StatDestination?
    ensures Good(k, js, a, NextRecover(k, a))
  {
  }

  lemma RecoverIdentityGood(k: Disk, js: map<string, Journal>, a: Attempt)
    requires Journaled(k, js, a) && a.pc.Recovering?
    requires a.pc.r.ReadDestination? || a.pc.r.ReadSourceAgain?
    ensures Good(k, js, a, NextRecover(k, a))
  {
  }

  lemma RecoverCaptureGood(k: Disk, js: map<string, Journal>, a: Attempt)
    requires Journaled(k, js, a) && a.pc.Recovering?
    requires a.pc.r.StatCapture? || a.pc.r.RemoveContainer?
    ensures Good(k, js, a, NextRecover(k, a))
  {
  }

  lemma RecoverCapturedGood(k: Disk, js: map<string, Journal>, a: Attempt)
    requires Journaled(k, js, a) && a.pc == Recovering(StatCaptured)
    ensures Good(k, js, a, NextRecover(k, a))
  {
  }

  lemma MoveReadGood(k: Disk, js: map<string, Journal>, a: Attempt)
    requires CallOk(k, a.call) && AttemptOk(k, js, a) && a.pc.Moving?
    requires a.pc.m.ReadSource? || a.pc.m.SaveIntent?
    ensures Good(k, js, a, NextMove(k, a))
  {
  }

  lemma MoveLinkGood(k: Disk, js: map<string, Journal>, a: Attempt)
    requires CallOk(k, a.call) && AttemptOk(k, js, a) && a.pc.Moving?
    requires !a.pc.m.ReadSource? && !a.pc.m.SaveIntent?
    ensures Good(k, js, a, NextMove(k, a))
  {
  }

  lemma OwnedCaptureGood(k: Disk, js: map<string, Journal>, a: Attempt, pick: Pick)
    requires Journaled(k, js, a) && a.pc.Owning? && PickOk(k, pick)
    requires forall n :: n in k.names ==> n.dir in k.nodes
    requires a.pc.o.MakeCapture? || a.pc.o.SaveCapture?
    ensures Good(k, js, a, NextOwnedSource(k, a, pick))
  {
  }

  lemma OwnedCheckGood(k: Disk, js: map<string, Journal>, a: Attempt, pick: Pick)
    requires Journaled(k, js, a) && a.pc.Owning?
    requires a.pc.o.CheckCapture? || a.pc.o.StatCapturedSource?
    ensures Good(k, js, a, NextOwnedSource(k, a, pick))
  {
  }

  lemma OwnedRenameGood(k: Disk, js: map<string, Journal>, a: Attempt, pick: Pick)
    requires Journaled(k, js, a) && a.pc.Owning?
    requires a.pc.o.VerifySource? || a.pc.o.RenameSource? || a.pc.o.VerifyCaptured? || a.pc.o.RestoreSource?
    ensures Good(k, js, a, NextOwnedSource(k, a, pick))
  {
  }

  lemma OwnedUnlinkGood(k: Disk, js: map<string, Journal>, a: Attempt, pick: Pick)
    requires Journaled(k, js, a) && a.pc.Owning?
    requires a.pc.o.UnlinkCaptured? || a.pc.o.RemoveCapture? || a.pc.o.ReadCompleted? || a.pc.o.SaveCompleted?
    ensures Good(k, js, a, NextOwnedSource(k, a, pick))
  {
  }

  lemma CreateIntentGood(k: Disk, js: map<string, Journal>, a: Attempt, pick: Pick)
    requires CallOk(k, a.call) && AttemptOk(k, js, a) && a.pc.Creating? && PickOk(k, pick)
    requires a.pc.c.StatFolder? || a.pc.c.SaveFolderIntent?
    ensures Good(k, js, a, NextCreate(k, a, pick))
  {
  }

  lemma CreateMakeGood(k: Disk, js: map<string, Journal>, a: Attempt, pick: Pick)
    requires CallOk(k, a.call) && AttemptOk(k, js, a) && a.pc.Creating? && PickOk(k, pick)
    requires a.pc.c.MakeFolder? || a.pc.c.StatMade? || a.pc.c.SaveFolder?
    requires JournalOk(k, js, a.call.owner, js[a.call.owner])
    ensures Good(k, js, a, NextCreate(k, a, pick))
  {
  }

  lemma RemoveCheckGood(k: Disk, js: map<string, Journal>, a: Attempt, pick: Pick)
    requires CallOk(k, a.call) && AttemptOk(k, js, a) && a.pc.Removing?
    requires a.pc.d.StatTarget? || a.pc.d.ListTarget? || a.pc.d.SaveRemoveIntent?
    ensures Good(k, js, a, NextRemove(k, a, pick))
  {
  }

  lemma RemoveContainerGood(k: Disk, js: map<string, Journal>, a: Attempt, pick: Pick)
    requires CallOk(k, a.call) && AttemptOk(k, js, a) && a.pc == Removing(MakeContainer)
    requires PickOk(k, pick) && forall n :: n in k.names ==> n.dir in k.nodes
    requires a.call.owner in js ==> JournalOk(k, js, a.call.owner, js[a.call.owner])
    ensures Good(k, js, a, NextRemove(k, a, pick))
  {
  }

  lemma RemoveRenameGood(k: Disk, js: map<string, Journal>, a: Attempt, pick: Pick)
    requires Journaled(k, js, a) && a.pc == Removing(RenameTarget)
    ensures Good(k, js, a, NextRemove(k, a, pick))
  {
  }

  lemma FinishStatGood(k: Disk, js: map<string, Journal>, a: Attempt, pick: Pick)
    requires Journaled(k, js, a) && a.pc.Finishing?
    requires a.pc.f.FinishContainer? || a.pc.f.StatDirectory? || a.pc.f.ListDirectory?
    ensures Good(k, js, a, NextFinish(k, a, pick))
  {
  }

  lemma FinishRemoveGood(k: Disk, js: map<string, Journal>, a: Attempt, pick: Pick)
    requires Journaled(k, js, a) && a.pc.Finishing?
    requires a.pc.f.SaveProof? || a.pc.f.RemoveDirectory? || a.pc.f.SaveRemoved?
    ensures Good(k, js, a, NextFinish(k, a, pick))
  {
  }

  lemma FinishCleanGood(k: Disk, js: map<string, Journal>, a: Attempt, pick: Pick)
    requires Journaled(k, js, a) && a.pc.Finishing?
    requires a.pc.f.CleanStat? || a.pc.f.CleanList? || a.pc.f.CleanRemove?
    ensures Good(k, js, a, NextFinish(k, a, pick))
  {
  }

  lemma FinishExposeGood(k: Disk, js: map<string, Journal>, a: Attempt, pick: Pick)
    requires Journaled(k, js, a) && a.pc.Finishing? && PickOk(k, pick)
    requires a.pc.f.ExposeStat? || a.pc.f.ExposeMake? || a.pc.f.ExposeCopy?
    ensures Good(k, js, a, NextFinish(k, a, pick))
  {
  }

  lemma TickGood(w: World, pick: Pick)
    requires Inv(w) && Enabled(w, Tick(pick))
    ensures Good(w.disk, w.journals, w.active.value, NextAction(w.disk, w.journals, w.active.value, pick))
  {
    var k, js, a := w.disk, w.journals, w.active.value;
    match a.pc
    case Load => if a.call.owner in js { LoadKnownGood(k, js, a); } else { LoadFreshGood(k, js, a); }
    case Recovering(r) =>
      if r.StatCapture? || r.RemoveContainer? { RecoverCaptureGood(k, js, a); }
      else if r.StatCaptured? { RecoverCapturedGood(k, js, a); }
      else if r.StatSource? || r.StatDestination? { RecoverReadsGood(k, js, a); }
      else { RecoverIdentityGood(k, js, a); }
    case Moving(m) => if m.ReadSource? || m.SaveIntent? { MoveReadGood(k, js, a); } else { MoveLinkGood(k, js, a); }
    case Owning(o) =>
      match o {
        case MakeCapture | SaveCapture => OwnedCaptureGood(k, js, a, pick);
        case CheckCapture | StatCapturedSource => OwnedCheckGood(k, js, a, pick);
        case VerifySource | RenameSource | VerifyCaptured | RestoreSource => OwnedRenameGood(k, js, a, pick);
        case UnlinkCaptured | RemoveCapture | ReadCompleted | SaveCompleted => OwnedUnlinkGood(k, js, a, pick);
      }
    case Creating(c) =>
      if c.StatFolder? || c.SaveFolderIntent? { CreateIntentGood(k, js, a, pick); } else { CreateMakeGood(k, js, a, pick); }
    case Removing(d) =>
      match d {
        case StatTarget | ListTarget | SaveRemoveIntent => RemoveCheckGood(k, js, a, pick);
        case MakeContainer => RemoveContainerGood(k, js, a, pick);
        case RenameTarget => RemoveRenameGood(k, js, a, pick);
      }
    case Finishing(f) =>
      match f {
        case FinishContainer | StatDirectory | ListDirectory => FinishStatGood(k, js, a, pick);
        case SaveProof | RemoveDirectory | SaveRemoved => FinishRemoveGood(k, js, a, pick);
        case CleanStat | CleanList | CleanRemove => FinishCleanGood(k, js, a, pick);
        case ExposeStat | ExposeMake | ExposeCopy => FinishExposeGood(k, js, a, pick);
      }
  }

  lemma OutsidePublic(k: Disk, k': Disk, n: Name)
    requires OutsideOk(k, k') && Public(k, n)
    ensures Public(k', n)
  {
  }

  lemma OutsideJournal(k: Disk, k': Disk, js: map<string, Journal>, o: string, j: Journal)
    requires WellFormed(k) && OutsideOk(k, k') && JournalOk(k, js, o, j)
    ensures JournalOk(k', js, o, j)
  {
    OutsidePublic(k, k', j.destination);
    if j.kind == Move { OutsidePublic(k, k', j.source.value); }
  }

  lemma OutsideAttempt(k: Disk, k': Disk, js: map<string, Journal>, a: Attempt)
    requires OutsideOk(k, k') && AttemptOk(k, js, a)
    requires a.call.owner in js ==> JournalOk(k, js, a.call.owner, js[a.call.owner])
    ensures AttemptOk(k', js, a)
  {
  }

  lemma OutsideKeeps(w: World, k: Disk)
    requires Inv(w) && OutsideOk(w.disk, k)
    ensures Inv(w.(disk := k))
  {
    forall n | Public(w.disk, n) ensures Public(k, n) { OutsidePublic(w.disk, k, n); }
    forall o | o in w.journals ensures JournalOk(k, w.journals, o, w.journals[o]) {
      OutsideJournal(w.disk, k, w.journals, o, w.journals[o]);
    }
    if w.active.Some? { OutsideAttempt(w.disk, k, w.journals, w.active.value); }
  }

  lemma EventKeeps(w: World, e: Event)
    requires Inv(w) && Enabled(w, e)
    ensures Inv(Next(w, e))
  {
    match e
    case Outside(k) => OutsideKeeps(w, k);
    case Start(call) =>
    case Die =>
    case Tick(pick) =>
      TickGood(w, pick);
      GoodKeeps(w, NextAction(w.disk, w.journals, w.active.value, pick));
  }
}
