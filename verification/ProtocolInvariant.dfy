// What holds in every reachable state of the protocol, whatever other programs do to public names
// and wherever the process dies.
module ProtocolInvariant {
  import opened Wrappers
  import opened FileSystem
  import opened Protocol

  ghost predicate OwnedCapture(k: Disk, c: Capture, dir: Ino, prefix: string, owner: string) {
    c.at.dir == dir && prefix <= c.at.base && c.at in k.containers && k.containers[c.at] == Container(c.ino, owner)
  }

  // LINKED is written only once the owned directory sits in the private capture.
  ghost predicate RemovalProof(k: Disk, j: Journal)
    requires j.identity.Some? && j.directoryCapture.Some?
  {
    var captured, ino := CapturedDirectory(j.directoryCapture.value), j.identity.value.ino;
    (captured in k.names && k.names[captured] == ino) || ino in k.removed
  }

  ghost predicate OriginalOf(journals: map<string, Journal>, j: Journal) {
    && j.originalOwner.Some? && j.originalOwner.value in journals
    && var original := journals[j.originalOwner.value];
      original.kind == CreateFolder && original.status == Completed && original.created &&
      original.destination == j.destination && original.identity == j.identity
  }

  ghost predicate MoveOk(k: Disk, o: string, j: Journal) {
    && j.source.Some? && j.identity.Some? && Public(k, j.source.value) && Public(k, j.destination)
    && j.directoryCapture.None?
    && (j.sourceCapture.Some? ==> OwnedCapture(k, j.sourceCapture.value, j.source.value.dir, MOVE_PREFIX, o))
  }

  ghost predicate RemoveOk(k: Disk, journals: map<string, Journal>, o: string, j: Journal) {
    && j.source == Some(j.destination) && j.identity.Some? && Public(k, j.destination)
    && j.sourceCapture.None? && j.directoryCapture.Some?
    && OwnedCapture(k, j.directoryCapture.value, j.destination.dir, REMOVE_PREFIX, o)
    && OriginalOf(journals, j)
    && (j.status == Linked ==> RemovalProof(k, j))
    && (j.status == Completed ==> j.identity.value.ino in k.removed)
  }

  ghost predicate CreateOk(k: Disk, j: Journal) {
    && j.source.None? && j.sourceCapture.None? && j.directoryCapture.None? && Public(k, j.destination)
    && j.status != Linked && (j.status == Completed ==> j.identity.Some?)
  }

  ghost predicate JournalOk(k: Disk, journals: map<string, Journal>, o: string, j: Journal) {
    match j.kind
    case Move => MoveOk(k, o, j)
    case CreateFolder => CreateOk(k, j)
    case RemoveFolder => RemoveOk(k, journals, o, j)
  }

  ghost predicate JournalsOk(k: Disk, js: map<string, Journal>) {
    forall o :: o in js ==> JournalOk(k, js, o, js[o])
  }

  ghost predicate Saved(js: map<string, Journal>, a: Attempt) {
    a.call.owner in js && js[a.call.owner] == a.entry
  }

  // This call may write the journal: no recorded outcome and no other kind of action is there.
  ghost predicate Open(js: map<string, Journal>, a: Attempt, kind: Kind) {
    a.call.owner in js ==> js[a.call.owner].status != Completed && js[a.call.owner].kind == kind
  }

  ghost predicate SavedMove(js: map<string, Journal>, a: Attempt) {
    Saved(js, a) && a.entry.kind == Move && a.entry.status != Completed
  }

  ghost predicate RecoverOk(js: map<string, Journal>, a: Attempt)
    requires a.pc.Recovering?
  {
    && SavedMove(js, a) && (a.call.MoveCall? || a.call.RecoverCall?)
    && (a.pc.r.StatCaptured? || a.pc.r.RemoveContainer? || (a.pc.r.ReadSourceAgain? && a.captureSeen) ==>
          a.entry.sourceCapture == Some(a.cap))
    && (a.pc.r.ReadSourceAgain? ==> a.call.MoveCall?)
  }

  ghost predicate FreshMove(a: Attempt)
    requires a.call.MoveCall?
  {
    && a.entry.kind == Move && a.entry.status == Intent
    && a.entry.source == Some(a.call.source) && a.entry.destination == a.call.destination
    && a.entry.identity.Some? && a.entry.sourceCapture.None? && a.entry.directoryCapture.None?
  }

  ghost predicate MovingOk(js: map<string, Journal>, a: Attempt)
    requires a.pc.Moving? && a.call.MoveCall?
  {
    && Open(js, a, Move)
    && (!a.pc.m.ReadSource? ==> FreshMove(a))
    && (a.pc.m.LinkDestination? || a.pc.m.VerifyDestination? || a.pc.m.SaveLinked? ==> Saved(js, a))
  }

  // Historical recovery only ever clears a capture that already holds the source.
  ghost predicate Historical(a: Attempt)
    requires a.pc.Owning?
  {
    a.pc.o.ReadCompleted? || a.pc.o.SaveCompleted? ||
    (!a.allow && (a.pc.o.CheckCapture? || a.pc.o.StatCapturedSource? || a.pc.o.VerifyCaptured? ||
                  a.pc.o.UnlinkCaptured? || a.pc.o.RemoveCapture?))
  }

  ghost predicate OwnedSourceOk(k: Disk, js: map<string, Journal>, a: Attempt)
    requires a.pc.Owning? && a.entry.source.Some? && a.entry.identity.Some?
  {
    var captured := CapturedSource(a.cap);
    && SavedMove(js, a) && (a.call.MoveCall? || (a.call.RecoverCall? && Historical(a)))
    && (a.pc.o.SaveCapture? ==>
          OwnedCapture(k, a.cap, a.entry.source.value.dir, MOVE_PREFIX, a.call.owner))
    && (!a.pc.o.MakeCapture? && !a.pc.o.SaveCapture? && !a.pc.o.ReadCompleted? && !a.pc.o.SaveCompleted? ==>
          a.entry.sourceCapture == Some(a.cap))
    && (a.pc.o.SaveCapture? || a.pc.o.VerifySource? || a.pc.o.RenameSource? ==> captured !in k.names)
    && (a.pc.o.VerifySource? || a.pc.o.RenameSource? || a.pc.o.RestoreSource? ==> a.allow)
    && (a.pc.o.UnlinkCaptured? ==>
          captured in k.names && k.names[captured] == a.entry.identity.value.ino)
  }

  ghost predicate CreatingOk(js: map<string, Journal>, a: Attempt)
    requires a.pc.Creating? && a.call.CreateCall?
  {
    && Open(js, a, CreateFolder)
    && (a.pc.c.MakeFolder? || a.pc.c.StatMade? || a.pc.c.SaveFolder? ==>
          && a.entry.kind == CreateFolder && a.entry.destination == a.call.destination
          && a.call.owner in js
          && a.entry.source.None? && a.entry.sourceCapture.None? && a.entry.directoryCapture.None?)
    && (a.pc.c.SaveFolder? ==> a.entry.status == Completed && a.entry.identity.Some?)
  }

  ghost predicate RemovingOk(k: Disk, js: map<string, Journal>, a: Attempt)
    requires a.pc.Removing? && a.call.RemoveCall?
  {
    var original := a.original;
    && (!a.pc.d.RenameTarget? ==> a.call.owner !in js)
    && (!a.pc.d.RenameTarget? && original.Some? ==> Lookup(js, a.call.originalOwner) == original)
    && (a.pc.d.ListTarget? || a.pc.d.MakeContainer? || a.pc.d.SaveRemoveIntent? ==>
          && original.Some? && original.value.created && original.value.status == Completed
          && original.value.kind == CreateFolder && original.value.destination == a.call.target
          && original.value.identity.Some?)
    && (a.pc.d.SaveRemoveIntent? || a.pc.d.RenameTarget? ==>
          && OwnedCapture(k, a.cap, a.call.target.dir, REMOVE_PREFIX, a.call.owner)
          && a.cap.at in k.names && CapturedDirectory(a.cap) !in k.names)
    && (a.pc.d.RenameTarget? ==>
          && Saved(js, a) && a.entry.kind == RemoveFolder && a.entry.status == Intent
          && a.entry.destination == a.call.target && a.entry.directoryCapture == Some(a.cap))
  }

  ghost predicate FinishingOk(k: Disk, js: map<string, Journal>, a: Attempt)
    requires a.pc.Finishing? && a.entry.identity.Some?
  {
    var captured, ino := CapturedDirectory(a.cap), a.entry.identity.value.ino;
    var cleaning := a.pc.f.CleanStat? || a.pc.f.CleanList? || a.pc.f.CleanRemove?;
    && Saved(js, a) && a.entry.kind == RemoveFolder && a.entry.directoryCapture == Some(a.cap)
    && (cleaning <==> a.entry.status == Completed)
    && (a.pc.f.ListDirectory? || a.pc.f.SaveProof? || a.pc.f.RemoveDirectory? ==>
          captured in k.names && k.names[captured] == ino)
    && (a.pc.f.RemoveDirectory? ==> a.entry.status == Linked)
    && (a.pc.f.SaveRemoved? ==> ino in k.removed && captured !in k.names)
  }

  ghost predicate AttemptOk(k: Disk, js: map<string, Journal>, a: Attempt) {
    && Typed(a)
    && (a.pc.Recovering? ==> RecoverOk(js, a))
    && (a.pc.Moving? ==> MovingOk(js, a))
    && (a.pc.Owning? ==> OwnedSourceOk(k, js, a))
    && (a.pc.Creating? ==> CreatingOk(js, a))
    && (a.pc.Removing? ==> RemovingOk(k, js, a))
    && (a.pc.Finishing? ==> FinishingOk(k, js, a))
  }

  ghost predicate Inv(w: World) {
    && WellFormed(w.disk) && JournalsOk(w.disk, w.journals)
    && (w.active.Some? ==>
          CallOk(w.disk, w.active.value.call) && AttemptOk(w.disk, w.journals, w.active.value))
  }

  // ---- what an effect of owner o leaves alone ----

  ghost predicate Frame(k: Disk, k': Disk, o: string) {
    && (forall i :: i in k.nodes ==> i in k'.nodes)
    && (forall n :: n in k.containers ==> n in k'.containers && k'.containers[n] == k.containers[n])
    && (forall n | n in k'.containers && n !in k.containers :: k'.containers[n].ino !in k.nodes)
    && k.removed <= k'.removed
    && (forall c: Name, n: Name | c in k.containers && k.containers[c].owner != o && n.dir == k.containers[c].ino ::
          n in k.names ==> n in k'.names && k'.names[n] == k.names[n])
  }

  lemma PublicFrame(k: Disk, k': Disk, o: string, n: Name)
    requires Frame(k, k', o) && Public(k, n)
    ensures Public(k', n)
  {
  }

  lemma CallFrame(k: Disk, k': Disk, o: string, call: Call)
    requires Frame(k, k', o) && CallOk(k, call)
    ensures CallOk(k', call)
  {
    match call
    case MoveCall(_, source, destination, _) =>
      PublicFrame(k, k', o, source);
      PublicFrame(k, k', o, destination);
    case CreateCall(_, destination) => PublicFrame(k, k', o, destination);
    case RemoveCall(_, _, target) => PublicFrame(k, k', o, target);
    case RecoverCall(_, _) =>
  }

  // A journal of another owner stays in order; so does the own journal of a move or a creation.
  lemma JournalFrame(k: Disk, k': Disk, journals: map<string, Journal>, journals': map<string, Journal>,
                     o: string, p: string, j: Journal)
    requires Frame(k, k', o) && JournalOk(k, journals, p, j)
    requires j.kind == RemoveFolder && p == o ==> RemovalKept(k, k', j)
    requires forall q :: q in journals && journals[q].status == Completed ==> q in journals' && journals'[q] == journals[q]
    ensures JournalOk(k', journals', p, j)
  {
    PublicFrame(k, k', o, j.destination);
    if j.kind == Move { PublicFrame(k, k', o, j.source.value); }
  }

  ghost predicate RemovalKept(k: Disk, k': Disk, j: Journal) {
    j.identity.Some? && j.directoryCapture.Some? && RemovalProof(k, j) ==> RemovalProof(k', j)
  }

  // Everything but the running call's own journal follows from the frame.
  lemma JournalsFrame(k: Disk, k': Disk, js: map<string, Journal>, js': map<string, Journal>, o: string)
    requires JournalsOk(k, js) && Frame(k, k', o)
    requires forall p | p != o :: Lookup(js', p) == Lookup(js, p)
    requires o in js && js[o].status == Completed ==> Lookup(js', o) == Lookup(js, o)
    requires o in js' ==> JournalOk(k', js', o, js'[o])
    ensures JournalsOk(k', js')
  {
    forall p | p in js' && p != o ensures JournalOk(k', js', p, js'[p]) {
      assert Lookup(js', p) == Lookup(js, p);
      forall q | q in js && js[q].status == Completed ensures q in js' && js'[q] == js[q] {
        assert q != o ==> Lookup(js', q) == Lookup(js, q);
      }
      JournalFrame(k, k', js, js', o, p, js[p]);
    }
  }
}
