// What does not belong to the bridge: a foreign file or directory caught by a rename race is
// never deleted, and the only directories ever removed are the bridge's own.
module ProtocolForeign {
  import opened Wrappers
  import opened FileSystem
  import opened Protocol
  import opened ProtocolInvariant
  import opened ProtocolSteps
  import opened ProtocolSafety
  import opened ProtocolOutcomes

  lemma RmdirOwner(w: World, pick: Pick)
    requires Inv(w) && Enabled(w, Tick(pick)) && ActionOf(w, pick).Make? && ActionOf(w, pick).call.Rmdir?
    ensures var a, target := w.active.value, ActionOf(w, pick).call.target;
      if a.pc == Finishing(RemoveDirectory) then
        && target == CapturedDirectory(a.cap) && Saved(w.journals, a) && OriginalOf(w.journals, a.entry)
        && target in w.disk.names && w.disk.names[target] == a.entry.identity.value.ino
      else
        && target == a.cap.at && target in w.disk.containers && w.disk.containers[target] == Container(a.cap.ino, a.call.owner)
        && PrivateBase(target.base) && !IsContainer(w.disk, target.dir)
  {
    var a := w.active.value;
    RmdirPc(w, pick);
    assert JournalOk(w.disk, w.journals, a.call.owner, w.journals[a.call.owner]);
  }

  lemma RemovedByRmdir(k: Disk, call: Syscall, ino: Ino)
    requires Perform(k, call).Some? && ino in Perform(k, call).value.removed && ino !in k.removed
    ensures call.Rmdir? && call.target in k.names && k.names[call.target] == ino && Empty(k, ino)
  {
  }

  // A step removes a directory only when it is empty and is either a private directory of the
  // running call, or the very directory that the original creation recorded as made by itself.
  lemma OnlyOwnedDirectoriesAreRemoved(w: World, pick: Pick, ino: Ino)
    requires Inv(w) && Enabled(w, Tick(pick))
    requires ino in Next(w, Tick(pick)).disk.removed && ino !in w.disk.removed
    ensures Empty(w.disk, ino)
    ensures var a := w.active.value;
      || (a.cap.at in w.disk.containers && w.disk.containers[a.cap.at] == Container(ino, a.call.owner))
      || (Saved(w.journals, a) && OriginalOf(w.journals, a.entry) && a.entry.identity.value.ino == ino)
  {
    RemovedByRmdir(w.disk, ActionOf(w, pick).call, ino);
    RmdirOwner(w, pick);
    var a := w.active.value;
    if a.pc != Finishing(RemoveDirectory) { assert w.disk.names[a.cap.at] == a.cap.ino; }
  }

  // A removal on record means that the directory is gone for good, under any interference.
  lemma CompletedRemovalIsReal(w: World, es: seq<Event>, o: string)
    requires Inv(w) && Legal(w, es) && o in w.journals
    requires w.journals[o].kind == RemoveFolder && w.journals[o].status == Completed
    ensures OriginalOf(w.journals, w.journals[o])
    ensures w.journals[o].identity.Some? && !Reachable(Exec(w, es).disk, w.journals[o].identity.value.ino)
  {
    assert JournalOk(w.disk, w.journals, o, w.journals[o]);
    InvAlways(w, es);
    CompletedForever(w, es, o);
    var v := Exec(w, es);
    assert JournalOk(v.disk, v.journals, o, v.journals[o]);
  }

  // A directory other than the recorded one sits in the private capture of an unfinished removal.
  ghost predicate ForeignDirectory(w: World, o: string, ino: Ino) {
    && o in w.journals && w.journals[o].kind == RemoveFolder && w.journals[o].status != Completed
    && w.journals[o].identity.Some? && w.journals[o].directoryCapture.Some?
    && var captured := CapturedDirectory(w.journals[o].directoryCapture.value);
      captured in w.disk.names && w.disk.names[captured] == ino && ino != w.journals[o].identity.value.ino
  }

  lemma ForeignDirectoryWrite(w: World, pick: Pick, o: string, ino: Ino)
    requires Inv(w) && Enabled(w, Tick(pick)) && ForeignDirectory(w, o, ino)
    requires ActionOf(w, pick).Write?
    ensures w.active.value.call.owner != o
  {
    var a := w.active.value;
    if a.call.owner == o {
      WriteOpen(w, pick);
      assert a.pc.Finishing?;
      FinishingWrites(w.disk, a, pick);
    }
  }

  lemma FinishingWrites(k: Disk, a: Attempt, pick: Pick)
    requires Typed(a) && a.pc.Finishing? && NextFinish(k, a, pick).Write?
    ensures a.pc.f.SaveProof? || a.pc.f.SaveRemoved?
  {
  }

  // A name inside a private directory is out of reach of every other owner's calls.
  lemma StaysForOthers(w: World, pick: Pick, o: string, n: Name)
    requires Inv(w) && Enabled(w, Tick(pick)) && w.active.value.call.owner != o
    requires OwnedDirectory(w.disk, n.dir, o) && n in w.disk.names
    ensures n in Next(w, Tick(pick)).disk.names && Next(w, Tick(pick)).disk.names[n] == w.disk.names[n]
  {
    var action := ActionOf(w, pick);
    TickPermitted(w, pick);
    if action.Make? && Perform(w.disk, action.call).Some? {
      PermittedKeeps(w.disk, w.active.value.call.owner, action.call);
    }
  }

  lemma TakenOnlyByDeletion(k: Disk, o: string, call: Syscall, n: Name)
    requires WellFormed(k) && Permitted(k, o, call) && Perform(k, call).Some?
    requires OwnedDirectory(k, n.dir, o) && n in k.names
    ensures (n in Perform(k, call).value.names && Perform(k, call).value.names[n] == k.names[n]) ||
            call == Unlink(n) || call == Rmdir(n)
  {
  }

  // What the owner's own call can take out of its private directory.
  lemma StaysForOwner(w: World, pick: Pick, o: string, n: Name)
    requires Inv(w) && Enabled(w, Tick(pick)) && w.active.value.call.owner == o
    requires OwnedDirectory(w.disk, n.dir, o) && n in w.disk.names
    ensures var a, k' := w.active.value, Next(w, Tick(pick)).disk;
      || (n in k'.names && k'.names[n] == w.disk.names[n])
      || (a.pc == Owning(UnlinkCaptured) && n == CapturedSource(a.cap))
      || (a.pc == Finishing(RemoveDirectory) && n == CapturedDirectory(a.cap))
  {
    var action := ActionOf(w, pick);
    TickPermitted(w, pick);
    if action.Make? && Perform(w.disk, action.call).Some? {
      TakenOnlyByDeletion(w.disk, o, action.call, n);
      if action.call == Unlink(n) { UnlinkPc(w, pick); }
      if action.call == Rmdir(n) { RmdirOwner(w, pick); }
    }
  }

  lemma ForeignDirectoryTick(w: World, pick: Pick, o: string, ino: Ino)
    requires Inv(w) && Enabled(w, Tick(pick)) && ForeignDirectory(w, o, ino)
    ensures ForeignDirectory(Next(w, Tick(pick)), o, ino)
    ensures Next(w, Tick(pick)).journals[o] == w.journals[o]
  {
    var j := w.journals[o];
    var captured, a := CapturedDirectory(j.directoryCapture.value), w.active.value;
    assert JournalOk(w.disk, w.journals, o, j);
    if ActionOf(w, pick).Write? {
      ForeignDirectoryWrite(w, pick, o, ino);
      WriteOpen(w, pick);
    }
    if a.call.owner == o { StaysForOwner(w, pick, o, captured); } else { StaysForOthers(w, pick, o, captured); }
  }

  // Whatever happens afterwards, the foreign directory keeps its place and the removal is never
  // reported as completed.
  lemma {:induction false} ForeignDirectoryForever(w: World, es: seq<Event>, o: string, ino: Ino)
    requires Inv(w) && Legal(w, es) && ForeignDirectory(w, o, ino)
    ensures ForeignDirectory(Exec(w, es), o, ino) && Exec(w, es).journals[o] == w.journals[o]
    decreases |es|
  {
    if es != [] {
      var v, e := Exec(w, es[..|es| - 1]), es[|es| - 1];
      ForeignDirectoryForever(w, es[..|es| - 1], o, ino);
      InvAlways(w, es[..|es| - 1]);
      match e
      case Tick(pick) => ForeignDirectoryTick(v, pick, o, ino);
      case Outside(k) => PrivateOutside(v, k, o, CapturedDirectory(v.journals[o].directoryCapture.value));
      case Start(_) =>
      case Die =>
    }
  }

  lemma PrivateOutside(w: World, k: Disk, o: string, n: Name)
    requires Inv(w) && OutsideOk(w.disk, k) && n in w.disk.names && o in w.journals
    requires (w.journals[o].directoryCapture.Some? && n == CapturedDirectory(w.journals[o].directoryCapture.value)) || IsContainer(w.disk, n.dir)
    ensures n in k.names && k.names[n] == w.disk.names[n]
  {
    assert JournalOk(w.disk, w.journals, o, w.journals[o]);
  }

  // ---- a file caught by the rename race ----

  // A private name holds an inode that no journal pointing at that directory calls its own.
  ghost predicate ForeignFile(w: World, n: Name, ino: Ino) {
    && n.base == "source" && IsContainer(w.disk, n.dir) && n in w.disk.names && w.disk.names[n] == ino
    && forall o | o in w.journals :: Disowned(w.journals[o], n, ino)
  }

  predicate Disowned(j: Journal, n: Name, ino: Ino) {
    j.sourceCapture.Some? && j.sourceCapture.value.ino == n.dir ==> j.identity.Some? && j.identity.value.ino != ino
  }

  lemma CapturesWritten(k: Disk, js: map<string, Journal>, a: Attempt, pick: Pick)
    requires AttemptOk(k, js, a) && !Halted(a) && NextAction(k, js, a, pick).Write?
    ensures var next := NextAction(k, js, a, pick).next;
      || next.entry.sourceCapture.None?
      || (Saved(js, a) && next.entry.sourceCapture == a.entry.sourceCapture && next.entry.identity == a.entry.identity)
      || (a.pc == Owning(SaveCapture) && next.entry.sourceCapture == Some(a.cap))
  {
    if a.pc.Finishing? { FinishingWrites(k, a, pick); }
  }

  lemma ForeignFileTick(w: World, pick: Pick, n: Name, ino: Ino)
    requires Inv(w) && Enabled(w, Tick(pick)) && ForeignFile(w, n, ino)
    ensures ForeignFile(Next(w, Tick(pick)), n, ino)
  {
    hide JournalsOk, CallOk, PickOk, NextLoad, NextRecover, NextMove, NextCreate, NextRemove, NextFinish, NextOwnedSource;
    var a, action, w' := w.active.value, ActionOf(w, pick), Next(w, Tick(pick));
    var c :| c in w.disk.containers && w.disk.containers[c].ino == n.dir;
    var o := w.disk.containers[c].owner;
    assert OwnedDirectory(w.disk, n.dir, o);
    if action.Write? {
      WriteOpen(w, pick);
      CapturesWritten(w.disk, w.journals, a, pick);
    } else {
      ContainersStay(w, pick, n.dir);
    }
    if a.call.owner == o { StaysForOwner(w, pick, o, n); } else { StaysForOthers(w, pick, o, n); }
  }

  lemma ContainersStay(w: World, pick: Pick, ino: Ino)
    requires Inv(w) && Enabled(w, Tick(pick)) && IsContainer(w.disk, ino)
    ensures IsContainer(Next(w, Tick(pick)).disk, ino)
  {
    var action, k' := ActionOf(w, pick), Next(w, Tick(pick)).disk;
    var c :| c in w.disk.containers && w.disk.containers[c].ino == ino;
    TickPermitted(w, pick);
    assert c in k'.containers && k'.containers[c].ino == ino;
  }

  // Once a file that is not the moved one has been renamed into a private capture, that name is
  // never taken away again: not by the failing call, not by retries, not by recovery.
  lemma {:induction false} ForeignFileForever(w: World, es: seq<Event>, n: Name, ino: Ino)
    requires Inv(w) && Legal(w, es) && ForeignFile(w, n, ino)
    ensures ForeignFile(Exec(w, es), n, ino)
    decreases |es|
  {
    if es != [] {
      var v, e := Exec(w, es[..|es| - 1]), es[|es| - 1];
      ForeignFileForever(w, es[..|es| - 1], n, ino);
      InvAlways(w, es[..|es| - 1]);
      match e
      case Tick(pick) => ForeignFileTick(v, pick, n, ino);
      case Outside(k) => assert !Public(v.disk, n);
      case Start(_) =>
      case Die =>
    }
  }

  // The race itself: the rename moved an inode other than the verified one.
  lemma RaceCatchesForeignFile(w: World, pick: Pick)
    requires Inv(w) && Enabled(w, Tick(pick)) && w.active.value.pc == Owning(RenameSource)
    requires var j := w.active.value.entry;
      j.source.value in w.disk.names && w.disk.names[j.source.value] != j.identity.value.ino
    ensures var a := w.active.value;
      ForeignFile(Next(w, Tick(pick)), CapturedSource(a.cap), w.disk.names[a.entry.source.value])
  {
    hide NextLoad, NextRecover, NextMove, NextCreate, NextRemove, NextFinish, PickOk, CallOk;
    var a := w.active.value;
    var n, w' := CapturedSource(a.cap), Next(w, Tick(pick));
    assert JournalOk(w.disk, w.journals, a.call.owner, a.entry);
    assert IsContainer(w'.disk, n.dir) by { assert w'.disk.containers[a.cap.at].ino == n.dir; }
    forall o | o in w'.journals ensures Disowned(w'.journals[o], n, w'.disk.names[n]) {
      assert JournalOk(w.disk, w.journals, o, w.journals[o]);
    }
  }
}
