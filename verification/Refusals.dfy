// What an undisturbed call refuses, and how little it has done by then: the exact condition under
// which a call of an owner without a journal changes anything at all.
module Refusals {
  import opened Wrappers
  import opened FileSystem
  import opened Protocol
  import opened ProtocolInvariant
  import opened ProtocolSteps
  import opened ProtocolSafety
  import opened ProtocolOutcomes
  import QuietEffect
  import QuietMove

  predicate Same(w: World, v: World) {
    v.disk == w.disk && v.journals == w.journals
  }

  predicate HasThrown(v: World) {
    v.active.Some? && v.active.value.pc == Threw
  }

  // ---- removing a folder ----

  // The target is the directory that the completed creation of `originalOwner` recorded as made by
  // itself, and nothing lies in it.
  predicate Removable(k: Disk, js: map<string, Journal>, originalOwner: string, target: Name) {
    && originalOwner in js
    && var j := js[originalOwner];
    && j.kind == CreateFolder && j.status == Completed && j.created && j.destination == target && j.identity.Some?
    && target in k.names && k.names[target] == j.identity.value.ino
    && k.names[target] in k.nodes && k.nodes[k.names[target]] == Directory
    && forall n :: n in k.names ==> n.dir != k.names[target]
  }

  ghost predicate Grown(k: Disk, k': Disk) {
    exists ino :: ino in k'.nodes && ino !in k.nodes
  }

  // Where an undisturbed removal can stand: still looking, or past its first system call if the
  // folder is removable, or refused if it is not.
  ghost predicate RemovalStage(w: World, v: World, call: Call)
    requires call.RemoveCall?
  {
    v.active.Some? && v.active.value.call == call &&
    var a := v.active.value;
    var looking := a.pc == Load ||
      (a.original == Lookup(w.journals, call.originalOwner) && (a.pc == Removing(StatTarget) || a.pc == Removing(ListTarget)));
    if Removable(w.disk, w.journals, call.originalOwner, call.target) then
      (Same(w, v) && (looking || a.pc == Removing(MakeContainer))) || Grown(w.disk, v.disk)
    else Same(w, v) && (looking || a.pc == Threw) && (a.pc == Removing(ListTarget) ==> OwnedTarget(w.disk, a.original, call.target))
  }

  lemma RemovalLooks(w: World, v: World, call: Call, pick: Pick)
    requires call.RemoveCall? && RemovalStage(w, v, call) && Inv(v) && Enabled(v, Tick(pick))
    requires call.owner !in w.journals && !Grown(w.disk, v.disk) && v.active.value.pc != Removing(MakeContainer)
    ensures RemovalStage(w, Next(v, Tick(pick)), call)
  {
    hide Grown, Inv, PickOk;
    var a := v.active.value;
    if a.pc == Removing(ListTarget) { ListDecides(w.disk, w.journals, a, call); }
  }

  // The second look settles it.
  lemma ListDecides(k: Disk, js: map<string, Journal>, a: Attempt, call: Call)
    requires call.RemoveCall? && a.original == Lookup(js, call.originalOwner) && OwnedTarget(k, a.original, call.target)
    ensures Removable(k, js, call.originalOwner, call.target) <==>
      StatAt(k, call.target) == Some(Directory) && Empty(k, k.names[call.target])
  {
  }

  lemma MakesContainer(w: World, v: World, call: Call, pick: Pick)
    requires Same(w, v) && v.active.Some? && v.active.value.pc == Removing(MakeContainer) && Inv(v) && Enabled(v, Tick(pick))
    ensures Grown(w.disk, Next(v, Tick(pick)).disk)
  {
    var k' := Next(v, Tick(pick)).disk;
    assert pick.ino in k'.nodes && pick.ino !in w.disk.nodes;
  }

  lemma StaysGrown(w: World, v: World, pick: Pick)
    requires Inv(v) && Enabled(v, Tick(pick)) && Grown(w.disk, v.disk)
    ensures Grown(w.disk, Next(v, Tick(pick)).disk)
  {
    TickNodes(v, pick);
    hide Inv, PickOk, NextAction, Perform;
    var ino :| ino in v.disk.nodes && ino !in w.disk.nodes;
    assert ino in Next(v, Tick(pick)).disk.nodes;
  }

  lemma CallStays(w: World, pick: Pick)
    requires Inv(w) && Enabled(w, Tick(pick))
    ensures Next(w, Tick(pick)).active.Some? && Next(w, Tick(pick)).active.value.call == w.active.value.call
  {
    TickGood(w, pick);
    hide NextAction, Perform, Permitted, AttemptOk, JournalOk, JournalsOk;
  }

  lemma RemovalTick(w: World, v: World, call: Call, pick: Pick)
    requires call.RemoveCall? && RemovalStage(w, v, call) && Inv(v) && Enabled(v, Tick(pick)) && call.owner !in w.journals
    ensures RemovalStage(w, Next(v, Tick(pick)), call)
  {
    if Grown(w.disk, v.disk) {
      hide *;
      RemovalGrown(w, v, call, pick);
    } else if v.active.value.pc == Removing(MakeContainer) {
      MakesContainer(w, v, call, pick);
      CallStays(v, pick);
      hide NextAction, Inv, PickOk, Grown, Perform;
    } else {
      hide *;
      RemovalLooks(w, v, call, pick);
    }
  }

  lemma RemovalGrown(w: World, v: World, call: Call, pick: Pick)
    requires call.RemoveCall? && RemovalStage(w, v, call) && Inv(v) && Enabled(v, Tick(pick)) && Grown(w.disk, v.disk)
    ensures RemovalStage(w, Next(v, Tick(pick)), call)
  {
    StaysGrown(w, v, pick);
    CallStays(v, pick);
    hide NextAction, Inv, PickOk, Perform;
  }

  lemma {:induction false} RemovalStands(w: World, call: Call, es: seq<Event>)
    requires Inv(w) && !Running(w) && call.RemoveCall? && call.owner !in w.journals && Legal(w, es) && Uninterrupted(es, call)
    ensures RemovalStage(w, Exec(w, es), call)
    decreases |es|
  {
    var prefix := es[..|es| - 1];
    if |es| == 1 {
      assert prefix == [];
      hide Inv;
    } else {
      hide RemovalStage, Inv;
      RemovalStands(w, call, prefix);
      InvAlways(w, prefix);
      RemovalTick(w, Exec(w, prefix), call, es[|es| - 1].pick);
    }
  }

  // An undisturbed removal by an owner without a journal changes the disk or the journals exactly
  // when the target is the empty directory that the original creation recorded; otherwise it throws
  // and everything is as it was.
  lemma RemovalRefusedExactly(w: World, call: Call, es: seq<Event>)
    requires Inv(w) && !Running(w) && call.RemoveCall? && call.owner !in w.journals
    requires Legal(w, es) && Uninterrupted(es, call) && !Running(Exec(w, es))
    ensures var v := Exec(w, es);
      && (v.disk != w.disk || v.journals != w.journals <==> Removable(w.disk, w.journals, call.originalOwner, call.target))
      && (!Removable(w.disk, w.journals, call.originalOwner, call.target) ==> HasThrown(v) && Same(w, v))
  {
    RemovalStands(w, call, es);
  }

  // So a recorded folder in which something has been saved since stays where it is,
  lemma FilledFolderStays(w: World, call: Call, es: seq<Event>, n: Name)
    requires Inv(w) && !Running(w) && call.RemoveCall? && call.owner !in w.journals
    requires Legal(w, es) && Uninterrupted(es, call) && !Running(Exec(w, es))
    requires call.target in w.disk.names && n in w.disk.names && n.dir == w.disk.names[call.target]
    ensures HasThrown(Exec(w, es)) && Same(w, Exec(w, es))
  {
    RemovalRefusedExactly(w, call, es);
  }

  // and so does a folder that the original did not make itself, or that another one has replaced.
  lemma ForeignFolderStays(w: World, call: Call, es: seq<Event>)
    requires Inv(w) && !Running(w) && call.RemoveCall? && call.owner !in w.journals
    requires Legal(w, es) && Uninterrupted(es, call) && !Running(Exec(w, es))
    requires call.originalOwner in w.journals ==>
      var j := w.journals[call.originalOwner];
      !j.created || j.identity.None? || (call.target in w.disk.names && w.disk.names[call.target] != j.identity.value.ino)
    ensures HasThrown(Exec(w, es)) && Same(w, Exec(w, es))
  {
    RemovalRefusedExactly(w, call, es);
  }

  // ---- moving a file ----

  // The source is a regular file, with the authorised contents.
  predicate Movable(k: Disk, source: Name, checksum: Option<string>) {
    && source in k.names && k.names[source] in k.nodes && k.nodes[k.names[source]].File?
    && (checksum.Some? && checksum.value != "" ==> k.nodes[k.names[source]].digest == checksum.value)
  }

  // The intent journaled before a move touches anything.
  function MoveIntent(k: Disk, call: Call): Journal
    requires call.MoveCall? && Movable(k, call.source, call.checksum)
  {
    var ino := k.names[call.source];
    Journal(Move, Some(call.source), call.destination, Intent, Some(FileIdentity(ino, k.nodes[ino].digest)), false, None, None, None)
  }

  ghost predicate MoveStage(w: World, v: World, call: Call)
    requires call.MoveCall?
  {
    v.active.Some? && v.active.value.call == call && v.disk == w.disk &&
    var a := v.active.value;
    || (v.journals == w.journals && (a.pc == Load || a.pc == Moving(ReadSource)))
    || (if !Movable(w.disk, call.source, call.checksum) then v.journals == w.journals && a.pc == Threw
        else
          var j := MoveIntent(w.disk, call);
          || (v.journals == w.journals && a.pc == Moving(SaveIntent) && a.entry == j)
          || (v.journals == w.journals[call.owner := j] && (a.pc == Moving(LinkDestination) || a.pc == Threw)))
  }

  lemma MoveTick(w: World, v: World, call: Call, pick: Pick)
    requires call.MoveCall? && MoveStage(w, v, call) && Enabled(v, Tick(pick)) && call.owner !in w.journals
    requires Movable(w.disk, call.source, call.checksum) ==> call.destination in w.disk.names
    ensures MoveStage(w, Next(v, Tick(pick)), call)
  {
    hide PickOk;
  }

  lemma {:induction false} MoveStands(w: World, call: Call, es: seq<Event>)
    requires !Running(w) && call.MoveCall? && call.owner !in w.journals && Legal(w, es) && Uninterrupted(es, call)
    requires Movable(w.disk, call.source, call.checksum) ==> call.destination in w.disk.names
    ensures MoveStage(w, Exec(w, es), call)
    decreases |es|
  {
    var prefix := es[..|es| - 1];
    if |es| == 1 {
      assert prefix == [];
    } else {
      hide MoveStage;
      MoveStands(w, call, prefix);
      MoveTick(w, Exec(w, prefix), call, es[|es| - 1].pick);
    }
  }

  // An undisturbed move by an owner without a journal throws with nothing changed unless its source
  // is the authorised file; it throws with only its intent on record if the destination is occupied.
  lemma MoveRefused(w: World, call: Call, es: seq<Event>)
    requires !Running(w) && call.MoveCall? && call.owner !in w.journals
    requires Legal(w, es) && Uninterrupted(es, call) && !Running(Exec(w, es))
    requires Movable(w.disk, call.source, call.checksum) ==> call.destination in w.disk.names
    ensures var v := Exec(w, es);
      && HasThrown(v) && v.disk == w.disk
      && v.journals == if Movable(w.disk, call.source, call.checksum) then w.journals[call.owner := MoveIntent(w.disk, call)] else w.journals
  {
    MoveStands(w, call, es);
  }

  // So an undisturbed fresh move of an owner with nothing left over takes the file to its new name
  // exactly when the source is the authorised file and the destination is vacant; in every other case
  // it throws, and no name on the disk has changed.
  lemma MoveDecides(w: World, call: Call, es: seq<Event>)
    requires Inv(w) && !Running(w) && call.MoveCall? && call.owner !in w.journals
    requires forall c :: c in w.disk.containers ==> w.disk.containers[c].owner != call.owner
    requires Legal(w, es) && Uninterrupted(es, call) && !Running(Exec(w, es))
    ensures var v := Exec(w, es);
      if Movable(w.disk, call.source, call.checksum) && call.destination !in w.disk.names then
        && QuietEffect.PublicNames(v.disk) ==
             (QuietEffect.PublicNames(w.disk) - {call.source})[call.destination := w.disk.names[call.source]]
        && QuietEffect.NothingLeft(w.disk, v.disk) && QuietEffect.Delivered(v)
      else HasThrown(v) && v.disk == w.disk
  {
    if Movable(w.disk, call.source, call.checksum) && call.destination !in w.disk.names {
      var ino := w.disk.names[call.source];
      var job := QuietMove.Job(call.owner, call.source, call.destination, ino, w.disk.nodes[ino].digest);
      var w0 := w.(active := None);
      QuietEffect.Restarted(w, w0, call, es);
      MovesJob(w0, call, es, job);
      QuietEffect.MoveEffect(w0, call, es, job);
    } else {
      MoveRefused(w, call, es);
    }
  }

  lemma MovesJob(w: World, call: Call, es: seq<Event>, job: QuietMove.Job)
    requires Inv(w) && w.active.None? && call.MoveCall? && call.owner !in w.journals
    requires forall c :: c in w.disk.containers ==> w.disk.containers[c].owner != call.owner
    requires Legal(w, es) && Uninterrupted(es, call)
    requires Movable(w.disk, call.source, call.checksum) && call.destination !in w.disk.names
    requires var ino := w.disk.names[call.source];
      job == QuietMove.Job(call.owner, call.source, call.destination, ino, w.disk.nodes[ino].digest)
    ensures QuietMove.Fresh(w, job) && QuietMove.CallOf(job, call)
  {
    assert es[..1] == [Start(call)] && CallOk(w.disk, call) by { FirstIsStart(w, es, call); }
  }

  lemma {:induction false} FirstIsStart(w: World, es: seq<Event>, call: Call)
    requires Legal(w, es) && Uninterrupted(es, call)
    ensures es[..1] == [Start(call)] && CallOk(w.disk, call)
    decreases |es|
  {
    if |es| == 1 {
      assert es[..0] == [];
    } else {
      FirstIsStart(w, es[..|es| - 1], call);
    }
  }

  // A fresh move touches its source only with LINKED on record.
  ghost predicate LinkedFirst(v: World, call: Call)
    requires call.MoveCall?
  {
    v.active.Some? && v.active.value.call == call &&
    match v.active.value.pc
    case Load => call.owner !in v.journals
    case Moving(_) => true
    case Owning(_) => call.owner in v.journals && v.journals[call.owner] == v.active.value.entry && v.active.value.entry.status == Linked
    case Threw => true
    case Returned(_) => true
    case _ => false
  }

  lemma MovingOn(k: Disk, a: Attempt)
    requires a.pc.Moving? && Typed(a)
    ensures var action := NextMove(k, a);
      if a.pc.m.SaveLinked? then action.Write? && action.next.pc.Owning? && action.next.entry.status == Linked
      else (action.next.pc.Moving? || action.next.pc == Threw) && (action.Make? ==> action.failed.pc == Threw)
  {
    hide FileIdentityAt;
  }

  lemma OwningOn(k: Disk, a: Attempt, pick: Pick)
    requires a.pc.Owning? && Typed(a)
    ensures var action := NextOwnedSource(k, a, pick);
      && (action.next.pc.Owning? || action.next.pc == Threw || action.next.pc.Returned?)
      && (action.Make? ==> action.failed.pc == Threw)
      && (action.next.pc.Owning? ==> action.next.entry.status == a.entry.status && (action.Write? || action.next.entry == a.entry))
  {
    hide FileIdentityAt, DirectoryAt;
  }

  lemma LinkedFirstTick(v: World, call: Call, pick: Pick)
    requires call.MoveCall? && LinkedFirst(v, call) && Inv(v) && Enabled(v, Tick(pick))
    ensures LinkedFirst(Next(v, Tick(pick)), call)
  {
    CallStays(v, pick);
    var a := v.active.value;
    if a.pc.Moving? { MovingOn(v.disk, a); }
    if a.pc.Owning? { OwningOn(v.disk, a, pick); }
    hide PickOk, Perform, Inv, NextRecover, NextMove, NextOwnedSource, NextCreate, NextRemove, NextFinish;
  }

  // Whatever moment of a fresh undisturbed move: once it is about to take the source away, its journal
  // says that the link exists.
  lemma {:induction false} LinkIsRecordedFirst(w: World, call: Call, es: seq<Event>)
    requires Inv(w) && !Running(w) && call.MoveCall? && call.owner !in w.journals && Legal(w, es) && Uninterrupted(es, call)
    ensures LinkedFirst(Exec(w, es), call)
    ensures Exec(w, es).active.value.pc.Owning? ==>
      call.owner in Exec(w, es).journals && Exec(w, es).journals[call.owner].status == Linked
    decreases |es|
  {
    var prefix := es[..|es| - 1];
    if |es| == 1 {
      assert prefix == [];
    } else {
      LinkIsRecordedFirst(w, call, prefix);
      InvAlways(w, prefix);
      LinkedFirstTick(Exec(w, prefix), call, es[|es| - 1].pick);
    }
  }

  // ---- creating a folder ----

  ghost predicate CreationStage(w: World, v: World, call: Call)
    requires call.CreateCall?
  {
    v.active.Some? && v.active.value.call == call && v.disk == w.disk &&
    var a, j := v.active.value, Journal(CreateFolder, None, call.destination, Intent, None, false, None, None, None);
    || (v.journals == w.journals && (a.pc == Load || a.pc == Creating(SaveFolderIntent)))
    || (v.journals == w.journals[call.owner := j] && (a.pc == Creating(MakeFolder) || a.pc == Creating(StatMade) || a.pc == Threw))
  }

  lemma CreationTick(w: World, v: World, call: Call, pick: Pick)
    requires call.CreateCall? && CreationStage(w, v, call) && Enabled(v, Tick(pick)) && call.owner !in w.journals
    requires call.destination in w.disk.names && StatAt(w.disk, call.destination) != Some(Directory)
    ensures CreationStage(w, Next(v, Tick(pick)), call)
  {
    hide PickOk;
  }

  // An undisturbed creation over anything but a folder throws with only its intent on record.
  lemma {:induction false} CreationRefused(w: World, call: Call, es: seq<Event>)
    requires !Running(w) && call.CreateCall? && call.owner !in w.journals && Legal(w, es) && Uninterrupted(es, call)
    requires call.destination in w.disk.names && StatAt(w.disk, call.destination) != Some(Directory)
    ensures CreationStage(w, Exec(w, es), call)
    ensures var v := Exec(w, es);
      !Running(v) ==>
        && HasThrown(v) && v.disk == w.disk
        && v.journals == w.journals[call.owner := Journal(CreateFolder, None, call.destination, Intent, None, false, None, None, None)]
    decreases |es|
  {
    var prefix := es[..|es| - 1];
    if |es| == 1 {
      assert prefix == [];
    } else {
      CreationRefused(w, call, prefix);
      hide CreationStage;
      CreationTick(w, Exec(w, prefix), call, es[|es| - 1].pick);
    }
  }
}
