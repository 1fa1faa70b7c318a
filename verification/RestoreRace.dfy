// Other programs winning the race for a name that the bridge renames into a private directory: what
// was caught instead, and what is given back before the call throws.
module RestoreRace {
  import opened Wrappers
  import opened FileSystem
  import opened Protocol
  import opened ProtocolInvariant
  import opened ProtocolSteps
  import opened ProtocolSafety

  // ---- a file caught instead of the verified source ----

  // The running call has caught `ino`, a file other than the journaled one, and is looking at it, about
  // to give it its name back, or has thrown.
  ghost predicate Caught(w: World, at: Attempt, ino: Ino) {
    && w.active.Some? && at.entry.identity.Some? && at.entry.source.Some?
    && var a := w.active.value;
    && a.call == at.call && a.entry == at.entry && a.cap == at.cap && a.allow
    && (a.pc == Owning(VerifyCaptured) || a.pc == Owning(RestoreSource) || a.pc == Threw)
    && Holds(w.disk, CapturedSource(a.cap), ino) && ino in w.disk.nodes && w.disk.nodes[ino].File?
    && ino != a.entry.identity.value.ino && IsContainer(w.disk, a.cap.ino)
  }

  lemma Catches(w: World, pick: Pick, ino: Ino)
    requires Inv(w) && Enabled(w, Tick(pick)) && w.active.value.pc == Owning(RenameSource)
    requires var j := w.active.value.entry;
      Holds(w.disk, j.source.value, ino) && w.disk.nodes[ino].File? && ino != j.identity.value.ino
    ensures Caught(Next(w, Tick(pick)), w.active.value, ino)
  {
    hide PickOk, CallOk, NextAction;
    var a := w.active.value;
    RenameAction(w.disk, w.journals, a, pick);
    assert JournalOk(w.disk, w.journals, a.call.owner, a.entry);
    assert w.disk.containers[a.cap.at].ino == CapturedSource(a.cap).dir;
  }

  lemma CaughtOutside(w: World, k: Disk, at: Attempt, ino: Ino)
    requires Caught(w, at, ino) && OutsideOk(w.disk, k)
    ensures Caught(Next(w, Outside(k)), at, ino)
  {
    hide WellFormed;
    assert !Public(w.disk, CapturedSource(w.active.value.cap));
  }

  lemma CaughtLooks(w: World, pick: Pick, at: Attempt, ino: Ino)
    requires Caught(w, at, ino) && Enabled(w, Tick(pick)) && w.active.value.pc == Owning(VerifyCaptured)
    ensures Caught(Next(w, Tick(pick)), at, ino) && Next(w, Tick(pick)).active.value.pc == Owning(RestoreSource)
    ensures Next(w, Tick(pick)).disk == w.disk && Next(w, Tick(pick)).journals == w.journals
  {
    hide PickOk;
  }

  // The restoring step: an exclusive link.
  ghost predicate Restores(k: Disk, k': Disk, source: Name, ino: Ino) {
    if source in k.names then k' == k
    else Holds(k', source, ino) && forall n | n != source :: (n in k'.names <==> n in k.names) && (n in k.names ==> k'.names[n] == k.names[n])
  }

  lemma CaughtRestores(w: World, pick: Pick, at: Attempt, ino: Ino)
    requires Caught(w, at, ino) && Enabled(w, Tick(pick)) && w.active.value.pc == Owning(RestoreSource)
    ensures Caught(Next(w, Tick(pick)), at, ino) && Next(w, Tick(pick)).active.value.pc == Threw
    ensures Restores(w.disk, Next(w, Tick(pick)).disk, at.entry.source.value, ino) && Next(w, Tick(pick)).journals == w.journals
  {
    hide PickOk;
  }

  predicate TickOrOutside(es: seq<Event>) {
    forall i :: 0 <= i < |es| ==> es[i].Tick? || es[i].Outside?
  }

  // The event at `i` is the step that gave the name back, and only other programs have acted since.
  ghost predicate RestoredAt(w: World, es: seq<Event>, source: Name, ino: Ino, i: nat) {
    && i < |es| && es[i].Tick? && Legal(w, es[..i]) && Legal(w, es[..i + 1])
    && Restores(Exec(w, es[..i]).disk, Exec(w, es[..i + 1]).disk, source, ino)
    && forall j :: i < j < |es| ==> es[j].Outside?
  }

  lemma RestoredMore(w: World, es: seq<Event>, source: Name, ino: Ino, i: nat)
    requires es != [] && RestoredAt(w, es[..|es| - 1], source, ino, i) && es[|es| - 1].Outside?
    ensures RestoredAt(w, es, source, ino, i)
  {
    hide Exec, Legal, Restores, Next, Enabled;
    var prefix := es[..|es| - 1];
    assert prefix[..i] == es[..i] && prefix[..i + 1] == es[..i + 1];
  }

  // Where the race leads, step by step.
  ghost predicate Course(w: World, es: seq<Event>, at: Attempt, ino: Ino)
    requires Legal(w, es)
  {
    && Caught(Exec(w, es), at, ino)
    && (Exec(w, es).active.value.pc == Threw ==> exists i :: RestoredAt(w, es, at.entry.source.value, ino, i))
  }

  lemma RaceFirst(w: World, es: seq<Event>, ino: Ino)
    requires Inv(w) && Running(w) && w.active.value.pc == Owning(RenameSource)
    requires var j := w.active.value.entry;
      Holds(w.disk, j.source.value, ino) && w.disk.nodes[ino].File? && ino != j.identity.value.ino
    requires Legal(w, es) && |es| == 1 && es[0].Tick?
    ensures Course(w, es, w.active.value, ino)
  {
    assert es[..0] == [];
    Catches(w, es[0].pick, ino);
    FirstLooks(w, es[0].pick);
    hide Inv, PickOk, NextAction, RestoredAt;
  }

  // The rename has succeeded: what it caught is looked at next.
  lemma FirstLooks(w: World, pick: Pick)
    requires Inv(w) && Enabled(w, Tick(pick)) && w.active.value.pc == Owning(RenameSource)
    requires w.active.value.entry.source.value in w.disk.names
    ensures Next(w, Tick(pick)).active.Some? && Next(w, Tick(pick)).active.value.pc == Owning(VerifyCaptured)
  {
    hide PickOk, CallOk, NextLoad, NextRecover, NextMove, NextCreate, NextRemove, NextFinish;
  }

  lemma {:induction false} RaceRuns(w: World, es: seq<Event>, ino: Ino)
    requires Inv(w) && Running(w) && w.active.value.pc == Owning(RenameSource)
    requires var j := w.active.value.entry;
      Holds(w.disk, j.source.value, ino) && w.disk.nodes[ino].File? && ino != j.identity.value.ino
    requires Legal(w, es) && es != [] && es[0].Tick? && TickOrOutside(es)
    ensures Course(w, es, w.active.value, ino)
    decreases |es|
  {
    var prefix, e, at := es[..|es| - 1], es[|es| - 1], w.active.value;
    if |es| == 1 {
      RaceFirst(w, es, ino);
    } else {
      hide Inv, Caught, Course;
      RaceRuns(w, prefix, ino);
      RaceGoesOn(w, es, at, ino);
    }
  }

  lemma RaceGoesOn(w: World, es: seq<Event>, at: Attempt, ino: Ino)
    requires Legal(w, es) && es != [] && TickOrOutside(es) && Course(w, es[..|es| - 1], at, ino)
    ensures Course(w, es, at, ino)
  {
    var prefix, e := es[..|es| - 1], es[|es| - 1];
    var v := Exec(w, prefix);
    if e.Outside? {
      CaughtOutside(v, e.disk, at, ino);
      if v.active.value.pc == Threw {
        var i :| RestoredAt(w, prefix, at.entry.source.value, ino, i);
        RestoredMore(w, es, at.entry.source.value, ino, i);
      }
    } else if v.active.value.pc == Owning(VerifyCaptured) {
      CaughtLooks(v, e.pick, at, ino);
    } else {
      CaughtRestores(v, e.pick, at, ino);
      assert es[..|es|] == es;
      assert RestoredAt(w, es, at.entry.source.value, ino, |es| - 1);
    }
  }

  // A file that won the race for the source name: however other programs act meanwhile, the call
  // throws; before that it gave the file its name back if that was vacant at the time, and left the
  // name alone if it was occupied; and the file keeps its private name.
  lemma {:induction false} RacedFileIsGivenBack(w: World, es: seq<Event>, ino: Ino)
    requires Inv(w) && Running(w) && w.active.value.pc == Owning(RenameSource)
    requires var j := w.active.value.entry;
      Holds(w.disk, j.source.value, ino) && w.disk.nodes[ino].File? && ino != j.identity.value.ino
    requires Legal(w, es) && es != [] && es[0].Tick? && TickOrOutside(es) && !Running(Exec(w, es))
    ensures var v, source := Exec(w, es), w.active.value.entry.source.value;
      && v.active.Some? && v.active.value.pc == Threw
      && Holds(v.disk, CapturedSource(w.active.value.cap), ino)
      && exists i :: RestoredAt(w, es, source, ino, i)
  {
    RaceRuns(w, es, ino);
  }

  // ---- without other programs: from the rename to the end ----

  // Whatever the name denotes that is not the journaled file: a regular file is back under its name
  // when the call has thrown; anything else stays in the private directory, and its name is vacant.
  ghost predicate RaceStage(w: World, v: World, ino: Ino)
    requires w.active.Some? && w.active.value.entry.source.Some?
  {
    var at, source := w.active.value, w.active.value.entry.source.value;
    var captured := CapturedSource(at.cap);
    var taken := (w.disk.names - {source})[captured := ino];
    && v.active.Some? && v.journals == w.journals && v.disk.nodes == w.disk.nodes
    && v.active.value.entry == at.entry && v.active.value.cap == at.cap && v.active.value.allow
    && source != captured && ino in w.disk.nodes
    && match v.active.value.pc
       case Owning(o) =>
         && v.disk.names == taken
         && (o.VerifyCaptured? || (o.RestoreSource? && w.disk.nodes[ino].File?))
       case Threw => v.disk.names == if w.disk.nodes[ino].File? then taken[source := ino] else taken
       case _ => false
  }

  lemma RaceBegins(w: World, pick: Pick)
    requires Inv(w) && Enabled(w, Tick(pick)) && w.active.value.pc == Owning(RenameSource)
    requires var j := w.active.value.entry;
      j.source.value in w.disk.names && FileIdentityAt(w.disk, j.source.value) != j.identity
    ensures RaceStage(w, Next(w, Tick(pick)), w.disk.names[w.active.value.entry.source.value])
  {
    hide PickOk, CallOk, NextAction;
    var a := w.active.value;
    RenameAction(w.disk, w.journals, a, pick);
    assert JournalOk(w.disk, w.journals, a.call.owner, a.entry);
    assert w.disk.containers[a.cap.at].ino == CapturedSource(a.cap).dir;
  }

  lemma RaceTick(w: World, v: World, ino: Ino, pick: Pick)
    requires w.active.Some? && w.active.value.entry.source.Some? && w.active.value.entry.identity.Some?
    requires Holds(w.disk, w.active.value.entry.source.value, ino)
    requires FileIdentityAt(w.disk, w.active.value.entry.source.value) != w.active.value.entry.identity
    requires RaceStage(w, v, ino) && Enabled(v, Tick(pick))
    ensures RaceStage(w, Next(v, Tick(pick)), ino)
  {
    hide PickOk;
    var captured := CapturedSource(w.active.value.cap);
    assert captured in v.disk.names && v.disk.names[captured] == ino;
  }

  lemma {:induction false} RaceStands(w: World, es: seq<Event>)
    requires Inv(w) && Running(w) && w.active.value.pc == Owning(RenameSource)
    requires var j := w.active.value.entry;
      j.source.value in w.disk.names && FileIdentityAt(w.disk, j.source.value) != j.identity
    requires Legal(w, es) && es != [] && forall i :: 0 <= i < |es| ==> es[i].Tick?
    ensures RaceStage(w, Exec(w, es), w.disk.names[w.active.value.entry.source.value])
    decreases |es|
  {
    var prefix, e := es[..|es| - 1], es[|es| - 1];
    if |es| == 1 {
      assert prefix == [];
      RaceBegins(w, e.pick);
    } else {
      RaceStands(w, prefix);
      hide RaceStage;
      RaceTick(w, Exec(w, prefix), w.disk.names[w.active.value.entry.source.value], e.pick);
    }
  }

  // By steps alone the call throws with the raced file under its own name again, its other name being
  // the private one, and no other name changed.  A folder or a link that won the race is not given
  // back: its name is vacant, and it is left in the private directory.
  lemma {:induction false} RestoredExactly(w: World, es: seq<Event>)
    requires Inv(w) && Running(w) && w.active.value.pc == Owning(RenameSource)
    requires var j := w.active.value.entry;
      j.source.value in w.disk.names && FileIdentityAt(w.disk, j.source.value) != j.identity
    requires Legal(w, es) && (forall i :: 0 <= i < |es| ==> es[i].Tick?) && !Running(Exec(w, es))
    ensures var v, source, captured := Exec(w, es), w.active.value.entry.source.value, CapturedSource(w.active.value.cap);
      var ino := w.disk.names[source];
      && v.active.Some? && v.active.value.pc == Threw && v.journals == w.journals
      && captured in v.disk.names && v.disk.names[captured] == ino
      && (source in v.disk.names <==> w.disk.nodes[ino].File?)
      && (source in v.disk.names ==> v.disk.names[source] == ino)
      && forall n | n != source && n != captured ::
           (n in v.disk.names <==> n in w.disk.names) && (n in w.disk.names ==> v.disk.names[n] == w.disk.names[n])
  {
    assert es != [];
    RaceStands(w, es);
  }

  // ---- a source or a destination that others have changed before the bridge looks again ----

  // From the verified link to the look at the source, with the capture still empty.
  ghost predicate BeforeTheLook(w: World, v: World)
    requires w.active.Some? && w.active.value.entry.source.Some?
  {
    var source, a0 := w.active.value.entry.source.value, w.active.value;
    && v.active.Some? && v.active.value.call == a0.call && v.active.value.entry.source == a0.entry.source
    && v.active.value.entry.identity == a0.entry.identity && v.active.value.allow
    && (forall n | n in w.disk.names :: n in v.disk.names && v.disk.names[n] == w.disk.names[n])
    && (forall i | i in w.disk.nodes :: i in v.disk.nodes && v.disk.nodes[i] == w.disk.nodes[i])
    && (source in v.disk.names ==> source in w.disk.names)
    && (v.active.value.pc == Threw ||
        (v.active.value.pc.Owning? &&
         var o := v.active.value.pc.o;
         o.MakeCapture? || o.VerifySource? ||
         ((o.SaveCapture? || o.CheckCapture? || o.StatCapturedSource?) && CapturedSource(v.active.value.cap) !in v.disk.names)))
  }

  lemma LookTick(w: World, v: World, pick: Pick)
    requires w.active.Some? && w.active.value.entry.source.Some? && WellFormed(w.disk) && !PrivateBase(w.active.value.entry.source.value.base)
    requires FileIdentityAt(w.disk, w.active.value.entry.source.value) != w.active.value.entry.identity
    requires BeforeTheLook(w, v) && Enabled(v, Tick(pick)) && v.active.value.pc != Owning(MakeCapture)
    ensures BeforeTheLook(w, Next(v, Tick(pick)))
  {
    SameLook(w.disk, v.disk, w.active.value.entry.source.value);
    if v.active.value.pc != Threw { EmptyCaptureStep(v.disk, v.active.value, pick); }
    hide PickOk, NextLoad, NextRecover, NextMove, NextCreate, NextRemove, NextFinish, NextOwnedSource, Perform, PrivateBase, FileIdentityAt;
  }

  // With the capture empty and the source no longer the journaled file, no step makes a system call.
  lemma EmptyCaptureStep(k: Disk, a: Attempt, pick: Pick)
    requires Typed(a) && a.allow && a.pc.Owning? && FileIdentityAt(k, a.entry.source.value) != a.entry.identity
    requires a.pc.o.VerifySource? ||
      ((a.pc.o.SaveCapture? || a.pc.o.CheckCapture? || a.pc.o.StatCapturedSource?) && CapturedSource(a.cap) !in k.names)
    ensures var action := NextOwnedSource(k, a, pick);
      && !action.Make? && action.next.call == a.call && action.next.cap == a.cap && action.next.allow
      && action.next.entry.source == a.entry.source && action.next.entry.identity == a.entry.identity
      && (action.next.pc == Threw || (action.next.pc.Owning? && var o := action.next.pc.o;
            o.VerifySource? || o.CheckCapture? || o.StatCapturedSource?))
  {
    hide FileIdentityAt, DirectoryAt;
  }

  lemma SameLook(k: Disk, k': Disk, n: Name)
    requires WellFormed(k) && (n in k'.names <==> n in k.names) && (n in k.names ==> k'.names[n] == k.names[n])
    requires forall i | i in k.nodes :: i in k'.nodes && k'.nodes[i] == k.nodes[i]
    ensures FileIdentityAt(k', n) == FileIdentityAt(k, n)
  {
  }

  lemma NoNameBelow(k: Disk, ino: Ino)
    requires WellFormed(k) && ino !in k.nodes
    ensures forall n :: n in k.names ==> n.dir != ino
  {
  }

  lemma CaptureAction(k: Disk, js: map<string, Journal>, a: Attempt, pick: Pick)
    requires Typed(a) && a.pc == Owning(MakeCapture)
    ensures var at := Name(a.entry.source.value.dir, MOVE_PREFIX + pick.suffix);
      NextAction(k, js, a, pick) == Try(a.(cap := Capture(at, pick.ino)), Mkdtemp(at, pick.ino, a.call.owner), Owning(SaveCapture))
  {
  }

  lemma CaptureMade(w: World, v: World, pick: Pick)
    requires w.active.Some? && w.active.value.entry.source.Some? && !PrivateBase(w.active.value.entry.source.value.base)
    requires BeforeTheLook(w, v) && Enabled(v, Tick(pick)) && v.active.value.pc == Owning(MakeCapture) && WellFormed(v.disk)
    ensures BeforeTheLook(w, Next(v, Tick(pick)))
  {
    NewNumber(v.disk, pick);
    NoNameBelow(v.disk, pick.ino);
    CaptureAction(v.disk, v.journals, v.active.value, pick);
    hide WellFormed, PickOk, NextAction;
  }

  // A source that is no longer the journaled file when the bridge looks at it before the rename is left
  // where it is: the call throws, and every name denotes what it did.
  lemma {:induction false} ChangedSourceIsLeft(w: World, es: seq<Event>)
    requires Inv(w) && Running(w) && w.active.value.pc == Owning(MakeCapture) && w.active.value.allow
    requires FileIdentityAt(w.disk, w.active.value.entry.source.value) != w.active.value.entry.identity
    requires Legal(w, es) && forall i :: 0 <= i < |es| ==> es[i].Tick?
    ensures BeforeTheLook(w, Exec(w, es))
    ensures var v, source := Exec(w, es), w.active.value.entry.source.value;
      !Running(v) ==>
        && v.active.value.pc == Threw && (source in v.disk.names <==> source in w.disk.names)
        && forall n | n in w.disk.names :: n in v.disk.names && v.disk.names[n] == w.disk.names[n]
    decreases |es|
  {
    if es != [] {
      var prefix := es[..|es| - 1];
      ChangedSourceIsLeft(w, prefix);
      InvAlways(w, prefix);
      PublicSource(w);
      assert WellFormed(Exec(w, prefix).disk);
      hide BeforeTheLook, Inv, WellFormed;
      if Exec(w, prefix).active.value.pc == Owning(MakeCapture) {
        CaptureMade(w, Exec(w, prefix), es[|es| - 1].pick);
      } else {
        LookTick(w, Exec(w, prefix), es[|es| - 1].pick);
      }
    }
  }

  lemma PublicSource(w: World)
    requires Inv(w) && Running(w) && w.active.value.pc == Owning(MakeCapture)
    ensures WellFormed(w.disk) && !PrivateBase(w.active.value.entry.source.value.base)
  {
    assert JournalOk(w.disk, w.journals, w.active.value.call.owner, w.active.value.entry);
  }

  // A destination that is gone when the bridge looks at it for the last time: no outcome is recorded.
  lemma {:induction false} MissingDestinationThrows(w: World, es: seq<Event>)
    requires Inv(w) && Running(w) && w.active.value.pc == Owning(ReadCompleted) && w.active.value.entry.destination !in w.disk.names
    requires Legal(w, es) && es != [] && forall i :: 0 <= i < |es| ==> es[i].Tick?
    ensures var v := Exec(w, es); v.active.Some? && v.active.value.pc == Threw && v.disk == w.disk && v.journals == w.journals
    decreases |es|
  {
    var prefix := es[..|es| - 1];
    if |es| == 1 {
      assert prefix == [];
      hide PickOk, NextLoad, NextRecover, NextMove, NextCreate, NextRemove, NextFinish;
    } else {
      MissingDestinationThrows(w, prefix);
    }
  }

  // ---- a directory caught instead of the owned folder ----

  // The name denotes a new directory, and everything else is where the rename left it.
  ghost predicate Exposed(w: World, k: Disk, target: Name, taken: map<Name, Ino>) {
    && target in k.names && k.names[target] !in w.disk.nodes && StatAt(k, target) == Some(Directory)
    && (forall n :: n in taken ==> n in k.names && k.names[n] == taken[n])
    && NodesStay(w.disk, k)
  }

  ghost predicate DirectoryStage(w: World, v: World, ino: Ino)
    requires w.active.Some? && w.active.value.entry.identity.Some?
  {
    var at, target := w.active.value, w.active.value.entry.destination;
    var captured := CapturedDirectory(at.cap);
    var taken := (w.disk.names - {target})[captured := ino];
    var still := v.disk.names == taken && v.disk.nodes == w.disk.nodes;
    && v.active.Some? && v.journals == w.journals && v.active.value.entry == at.entry && v.active.value.cap == at.cap
    && target != captured && ino in w.disk.nodes && DirectoryAt(w.disk, at.cap.at, at.cap.ino) && at.cap.at != target && at.cap.at != captured
    && match v.active.value.pc
       case Finishing(f) =>
         if f.ExposeCopy? then w.disk.nodes[ino].Directory? && Exposed(w, v.disk, target, taken)
         else still && (f.FinishContainer? || f.StatDirectory? || ((f.ExposeStat? || f.ExposeMake?) && w.disk.nodes[ino].Directory?))
       case Threw => if w.disk.nodes[ino].Directory? then Exposed(w, v.disk, target, taken) else still
       case _ => false
  }

  lemma RenameAction(k: Disk, js: map<string, Journal>, a: Attempt, pick: Pick)
    requires Typed(a)
    ensures a.pc == Removing(RenameTarget) ==>
      NextAction(k, js, a, pick) == Try(a, Rename(a.call.target, CapturedDirectory(a.cap)), Finishing(FinishContainer))
    ensures a.pc == Owning(RenameSource) ==>
      NextAction(k, js, a, pick) == Try(a, Rename(a.entry.source.value, CapturedSource(a.cap)), Owning(VerifyCaptured))
  {
  }

  lemma DirectoryBegins(w: World, pick: Pick)
    requires Inv(w) && Enabled(w, Tick(pick)) && w.active.value.pc == Removing(RenameTarget)
    requires w.active.value.entry.destination in w.disk.names
    ensures w.active.value.entry.identity.Some?
    ensures DirectoryStage(w, Next(w, Tick(pick)), w.disk.names[w.active.value.entry.destination])
  {
    hide PickOk, CallOk, NextAction, Exposed, RemovalProof, OriginalOf;
    var a := w.active.value;
    RenameAction(w.disk, w.journals, a, pick);
    assert JournalOk(w.disk, w.journals, a.call.owner, a.entry);
    assert w.disk.containers[a.cap.at].ino == CapturedDirectory(a.cap).dir;
    assert !IsContainer(w.disk, a.cap.at.dir);
  }

  lemma DirectoryLooks(w: World, v: World, ino: Ino, pick: Pick)
    requires w.active.Some? && w.active.value.entry.identity.Some? && ino != w.active.value.entry.identity.value.ino
    requires DirectoryStage(w, v, ino) && Enabled(v, Tick(pick))
    requires v.active.value.pc != Finishing(ExposeCopy) && v.active.value.pc != Finishing(ExposeMake)
    ensures DirectoryStage(w, Next(v, Tick(pick)), ino)
  {
    hide WellFormed, Exposed, PickOk, NextLoad, NextRecover, NextMove, NextCreate, NextRemove, NextOwnedSource, Perform;
    var captured := CapturedDirectory(w.active.value.cap);
    assert captured in v.disk.names && v.disk.names[captured] == ino;
  }

  lemma DirectoryMakes(w: World, v: World, ino: Ino, pick: Pick)
    requires w.active.Some? && w.active.value.entry.identity.Some?
    requires DirectoryStage(w, v, ino) && Enabled(v, Tick(pick)) && v.active.value.pc == Finishing(ExposeMake)
    ensures DirectoryStage(w, Next(v, Tick(pick)), ino)
  {
    hide WellFormed, Public, NextLoad, NextRecover, NextMove, NextCreate, NextRemove, NextOwnedSource;
    var target := w.active.value.entry.destination;
    assert Next(v, Tick(pick)).disk.names == v.disk.names[target := pick.ino];
    assert Next(v, Tick(pick)).disk.nodes == v.disk.nodes[pick.ino := Directory];
  }

  lemma CreateKeepsExposed(w: World, k: Disk, target: Name, taken: map<Name, Ino>, call: Syscall)
    requires Exposed(w, k, target, taken) && call.Create? && call.ino !in k.nodes && Perform(k, call).Some?
    ensures Exposed(w, Perform(k, call).value, target, taken)
  {
  }

  lemma CopyAction(k: Disk, js: map<string, Journal>, a: Attempt, pick: Pick)
    requires Typed(a) && a.pc == Finishing(ExposeCopy)
    ensures NextAction(k, js, a, pick) ==
      if pick.copy.None? then Goto(a, Threw)
      else Try(a, Create(pick.copy.value.0, pick.ino, pick.copy.value.1), Finishing(ExposeCopy))
  {
  }

  lemma NewNumber(k: Disk, pick: Pick)
    requires PickOk(k, pick)
    ensures pick.ino !in k.nodes
  {
  }

  lemma DirectoryCopies(w: World, v: World, ino: Ino, pick: Pick)
    requires w.active.Some? && w.active.value.entry.identity.Some?
    requires DirectoryStage(w, v, ino) && Enabled(v, Tick(pick)) && v.active.value.pc == Finishing(ExposeCopy)
    ensures DirectoryStage(w, Next(v, Tick(pick)), ino)
  {
    hide WellFormed, Public, Exposed, Perform, NextAction, PickOk, DirectoryAt, StatAt, Typed;
    var at, target := w.active.value, w.active.value.entry.destination;
    var taken := (w.disk.names - {target})[CapturedDirectory(at.cap) := ino];
    CopyAction(v.disk, v.journals, v.active.value, pick);
    NewNumber(v.disk, pick);
    if pick.copy.Some? {
      var call := Create(pick.copy.value.0, pick.ino, pick.copy.value.1);
      if Perform(v.disk, call).Some? { CreateKeepsExposed(w, v.disk, target, taken, call); }
    }
  }

  lemma {:induction false} DirectoryStands(w: World, es: seq<Event>)
    requires Inv(w) && Running(w) && w.active.value.pc == Removing(RenameTarget)
    requires var j := w.active.value.entry;
      j.identity.Some? && j.destination in w.disk.names && w.disk.names[j.destination] != j.identity.value.ino
    requires Legal(w, es) && es != [] && forall i :: 0 <= i < |es| ==> es[i].Tick?
    ensures DirectoryStage(w, Exec(w, es), w.disk.names[w.active.value.entry.destination])
    decreases |es|
  {
    var prefix, e := es[..|es| - 1], es[|es| - 1];
    var ino := w.disk.names[w.active.value.entry.destination];
    if |es| == 1 {
      assert prefix == [];
      DirectoryBegins(w, e.pick);
      hide Inv, PickOk, NextAction;
    } else {
      DirectoryStands(w, prefix);
      hide DirectoryStage, Inv, PickOk;
      if Exec(w, prefix).active.value.pc == Finishing(ExposeCopy) {
        DirectoryCopies(w, Exec(w, prefix), ino, e.pick);
      } else if Exec(w, prefix).active.value.pc == Finishing(ExposeMake) {
        DirectoryMakes(w, Exec(w, prefix), ino, e.pick);
      } else {
        DirectoryLooks(w, Exec(w, prefix), ino, e.pick);
      }
    }
  }

  // By steps alone the removal throws and is not journaled any further.  A directory that won the race
  // for the folder's name stays in the private directory, and a new one stands under its name; the
  // entries of the copy are all new names.  Anything but a directory is not given back.
  lemma {:induction false} ExposedExactly(w: World, es: seq<Event>)
    requires Inv(w) && Running(w) && w.active.value.pc == Removing(RenameTarget)
    requires var j := w.active.value.entry;
      j.identity.Some? && j.destination in w.disk.names && w.disk.names[j.destination] != j.identity.value.ino
    requires Legal(w, es) && (forall i :: 0 <= i < |es| ==> es[i].Tick?) && !Running(Exec(w, es))
    ensures var v, target, captured := Exec(w, es), w.active.value.entry.destination, CapturedDirectory(w.active.value.cap);
      var ino := w.disk.names[target];
      && v.active.Some? && v.active.value.pc == Threw && v.journals == w.journals
      && captured in v.disk.names && v.disk.names[captured] == ino
      && (target in v.disk.names <==> w.disk.nodes[ino].Directory?)
      && (target in v.disk.names ==> v.disk.names[target] !in w.disk.nodes && StatAt(v.disk, target) == Some(Directory))
      && forall n | n in w.disk.names && n != target && n != captured :: n in v.disk.names && v.disk.names[n] == w.disk.names[n]
  {
    assert es != [];
    DirectoryStands(w, es);
  }
}
