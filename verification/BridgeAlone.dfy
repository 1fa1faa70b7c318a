// The bridge left alone: what its journaled methods come to when the process does not die and no
// other program acts.
module BridgeAlone {
  import opened Wrappers
  import opened FileSystem
  import opened Protocol
  import opened ProtocolInvariant
  import opened ProtocolSafety
  import opened Bridge
  import opened Refusals
  import QuietCreate
  import QuietEffect
  import QuietRemove

  lemma {:induction false} SplitRun(w: World, es: seq<Event>, n: nat)
    requires Legal(w, es) && n <= |es|
    ensures Legal(w, es[..n]) && Legal(Exec(w, es[..n]), es[n..]) && Exec(Exec(w, es[..n]), es[n..]) == Exec(w, es)
    decreases |es|
  {
    hide Next, Enabled;
    if n == |es| {
      assert es[..n] == es && es[n..] == [];
    } else {
      var prefix := es[..|es| - 1];
      SplitRun(w, prefix, n);
      assert prefix[..n] == es[..n] && es[n..] == prefix[n..] + [es[|es| - 1]];
      Append(Exec(w, es[..n]), prefix[n..], es[|es| - 1]);
    }
  }

  // Where the latest call of a bridge began.
  ghost function Before(b: Bridge): (w: World)
    requires b.Valid()
    reads b
  {
    SplitRun(b.start, b.events, b.began);
    Exec(b.start, b.events[..b.began])
  }

  // The latest call has ended, and nobody could disturb it.
  ghost predicate Alone(b: Bridge, call: Call)
    reads b
  {
    && b.Valid() && !b.mortal && !b.interfering
    && b.began < |b.events| && b.events[b.began] == Start(call) && b.attempt.Some? && Halted(b.attempt.value)
  }

  lemma AloneRuns(b: Bridge, call: Call)
    requires Alone(b, call)
    ensures var w, es := Before(b), b.events[b.began..];
      && Inv(w) && !Running(w) && Legal(w, es) && Uninterrupted(es, call)
      && Exec(w, es) == World(b.disk, b.journals, b.attempt)
  {
    hide Inv, Legal, Exec, Attended;
    SplitRun(b.start, b.events, b.began);
    InvAlways(b.start, b.events[..b.began]);
    LatestCall(b.events, b.began, call);
    IdleBefore(Before(b), b.events[b.began..], call);
  }

  lemma LatestCall(events: seq<Event>, began: nat, call: Call)
    requires Attended(events, began, false, false) && began < |events| && events[began] == Start(call)
    ensures Uninterrupted(events[began..], call)
  {
    var es := events[began..];
    assert es[0] == Start(call);
    forall i | 1 <= i < |es| ensures es[i].Tick? { assert es[i] == events[began + i]; }
  }

  lemma IdleBefore(w: World, es: seq<Event>, call: Call)
    requires Legal(w, es) && Uninterrupted(es, call)
    ensures !Running(w)
  {
    FirstIsStart(w, es, call);
    SplitRun(w, es, 1);
    Started(w, call);
  }

  lemma Started(w: World, call: Call)
    requires Legal(w, [Start(call)])
    ensures !Running(w)
  {
    assert [Start(call)][..0] == [];
    assert Exec(w, []) == w;
  }

  // journaledMove, by an owner with nothing left over: it returns exactly if the source is the
  // authorised file and the destination is vacant, and has then moved that name; otherwise it throws,
  // and no name has changed.
  lemma MoveAlone(b: Bridge, call: Call)
    requires Alone(b, call) && call.MoveCall? && call.owner !in Before(b).journals
    requires forall c :: c in Before(b).disk.containers ==> Before(b).disk.containers[c].owner != call.owner
    ensures var w := Before(b);
      if Movable(w.disk, call.source, call.checksum) && call.destination !in w.disk.names then
        && b.attempt.value.pc.Returned? && b.attempt.value.pc.outcome.Some?
        && QuietEffect.PublicNames(b.disk) ==
             (QuietEffect.PublicNames(w.disk) - {call.source})[call.destination := w.disk.names[call.source]]
        && QuietEffect.NothingLeft(w.disk, b.disk)
      else b.attempt.value.pc == Threw && b.disk == w.disk
  {
    AloneRuns(b, call);
    MoveDecides(Before(b), call, b.events[b.began..]);
  }

  // journaledRemoveFolder: it leaves disk and journals as they were exactly if the folder is not the
  // empty one that the original creation recorded, and then it throws.
  lemma RemovalAlone(b: Bridge, call: Call)
    requires Alone(b, call) && call.RemoveCall? && call.owner !in Before(b).journals
    ensures var w := Before(b);
      && (b.disk != w.disk || b.journals != w.journals <==> Removable(w.disk, w.journals, call.originalOwner, call.target))
      && (!Removable(w.disk, w.journals, call.originalOwner, call.target) ==> b.attempt.value.pc == Threw)
  {
    AloneRuns(b, call);
    RemovalRefusedExactly(Before(b), call, b.events[b.began..]);
  }

  // It takes a recorded empty folder away, and nothing else, and returns.
  lemma FolderGone(b: Bridge, call: Call, f: QuietRemove.Folder)
    requires Alone(b, call) && call.RemoveCall? && QuietRemove.Fresh(Before(b).(active := None), f) && QuietRemove.CallOf(f, call)
    ensures b.attempt.value.pc.Returned? && b.attempt.value.pc.outcome.Some?
    ensures QuietEffect.PublicNames(b.disk) == QuietEffect.PublicNames(Before(b).disk) - {call.target}
  {
    AloneRuns(b, call);
    var w0 := Before(b).(active := None);
    QuietEffect.Restarted(Before(b), w0, call, b.events[b.began..]);
    QuietEffect.RemovalEffect(w0, call, b.events[b.began..], f);
  }

  // journaledCreateFolder: it returns exactly if nothing or a folder is there, and has then added a
  // name where nothing was, or changed none, as its journal says.
  lemma CreationAlone(b: Bridge, call: Call)
    requires Alone(b, call) && call.CreateCall? && call.owner !in Before(b).journals
    ensures var w := Before(b);
      if call.destination !in w.disk.names || StatAt(w.disk, call.destination) == Some(Directory) then
        && b.attempt.value.pc.Returned? && b.attempt.value.pc.outcome.Some? && call.destination in b.disk.names
        && QuietEffect.PublicNames(b.disk) == QuietEffect.PublicNames(w.disk)[call.destination := b.disk.names[call.destination]]
        && call.owner in b.journals && b.journals[call.owner].created == (call.destination !in w.disk.names)
      else b.attempt.value.pc == Threw && b.disk == w.disk
  {
    AloneRuns(b, call);
    var w, es := Before(b), b.events[b.began..];
    if call.destination !in w.disk.names || StatAt(w.disk, call.destination) == Some(Directory) {
      var c, w0 := QuietCreate.Creation(call.owner, call.destination), w.(active := None);
      QuietEffect.Restarted(w, w0, call, es);
      FirstIsStart(w, es, call);
      QuietEffect.CreationEffect(w0, call, es, c);
    } else {
      CreationRefused(w, call, es);
    }
  }

  // ---- which calls return ----

  // What has to be there for an undisturbed fresh call to return.
  predicate Feasible(k: Disk, js: map<string, Journal>, call: Call) {
    match call
    case MoveCall(_, source, destination, checksum) => Movable(k, source, checksum) && destination !in k.names
    case CreateCall(_, destination) => destination !in k.names || StatAt(k, destination) == Some(Directory)
    case RemoveCall(_, originalOwner, target) => Removable(k, js, originalOwner, target)
    case RecoverCall(_, _) => false
  }

  // The owner has journaled nothing, and left no private directory.
  predicate Unused(k: Disk, js: map<string, Journal>, owner: string) {
    owner !in js && forall c :: c in k.containers ==> k.containers[c].owner != owner
  }

  // An undisturbed call of an unused owner returns only if it is feasible, and a move or a creation
  // does whenever it is.
  lemma ReturnsIfFeasible(b: Bridge, call: Call)
    requires Alone(b, call) && !call.RecoverCall? && Unused(Before(b).disk, Before(b).journals, call.owner)
    ensures b.attempt.value.pc.Returned? ==> Feasible(Before(b).disk, Before(b).journals, call)
    ensures Feasible(Before(b).disk, Before(b).journals, call) && !call.RemoveCall? ==> b.attempt.value.pc.Returned?
  {
    hide Movable, Removable;
    match call
    case MoveCall(_, _, _, _) => MoveAlone(b, call);
    case CreateCall(_, _) => CreationAlone(b, call);
    case RemoveCall(_, _, _) => RemovalAlone(b, call);
  }

  // A call that began right after these events began in the state they led to.
  lemma BeganThere(b: Bridge, call: Call, before: seq<Event>, v: World)
    requires Alone(b, call) && before <= b.events && b.began == |before| && Legal(b.start, before) && Exec(b.start, before) == v
    ensures Before(b) == v
  {
    assert b.events[..b.began] == before;
  }
}
