// What a call that finds the journal of an unfinished move decides, when it is left alone: to start
// afresh, to refuse, to clear what is left of the source, or to record the outcome.
module Recoveries {
  import opened Wrappers
  import opened FileSystem
  import opened Protocol
  import opened ProtocolInvariant
  import opened ProtocolSteps
  import opened ProtocolSafety
  import opened Refusals

  datatype Decision = Afresh | Refuse | Continue | Finish

  // The private directory of the journaled capture is there, and holds the source.
  predicate Present(k: Disk, j: Journal) {
    j.sourceCapture.Some? && j.sourceCapture.value.at in k.names
  }

  predicate Captured(k: Disk, j: Journal) {
    Present(k, j) && CapturedSource(j.sourceCapture.value) in k.names
  }

  predicate SameContainer(k: Disk, j: Journal) {
    Present(k, j) && DirectoryAt(k, j.sourceCapture.value.at, j.sourceCapture.value.ino)
  }

  // A file that is not the journaled one at the destination proves nothing: as long as something is at
  // the source, the move may start afresh.  The journaled file there proves the link; what is left of
  // the source then has to be the journaled file too, in the recorded private directory.
  function Decide(k: Disk, j: Journal, live: bool): Decision
    requires j.source.Some?
  {
    var source := j.source.value;
    if j.destination !in k.names then Afresh
    else if FileIdentityAt(k, j.destination) != j.identity then (if source in k.names then Afresh else Refuse)
    else if Captured(k, j) then
      (if SameContainer(k, j) && FileIdentityAt(k, CapturedSource(j.sourceCapture.value)) == j.identity then Finish else Refuse)
    else if source in k.names then (if live && FileIdentityAt(k, source) == j.identity then Continue else Refuse)
    else if Present(k, j) && !SameContainer(k, j) then Refuse else Finish
  }

  // Nothing but the source lies in the private directory.
  ghost predicate Tidy(k: Disk, j: Journal) {
    Present(k, j) ==> forall n | n in k.names :: n.dir == j.sourceCapture.value.ino ==> n == CapturedSource(j.sourceCapture.value)
  }

  // The journal of an unfinished move that the call is authorised for.
  ghost predicate Unfinished(w: World, call: Call) {
    && (call.MoveCall? || call.RecoverCall?) && call.owner in w.journals
    && var j := w.journals[call.owner];
    && j.kind == Move && j.status != Completed && Authorized(j, call) && j.source.Some? && j.identity.Some?
  }

  // ---- while the call is looking ----

  // Where it stands, with what it has seen: all of it true of the disk as it still is.
  ghost predicate Looking(w: World, v: World, call: Call)
    requires Unfinished(w, call)
  {
    var k, j := w.disk, w.journals[call.owner];
    var source := j.source.value;
    && v.disk == k && v.journals == w.journals && v.active.Some? && v.active.value.call == call
    && var a := v.active.value;
    var proven := j.destination in k.names && FileIdentityAt(k, j.destination) == j.identity;
    match a.pc
    case Load => true
    case Recovering(r) =>
      && a.entry == j && (r.StatSource? || a.sourceSeen == StatAt(k, source))
      && (match r
          case StatSource => true
          case StatDestination => true
          case ReadDestination => j.destination in k.names && StatAt(k, j.destination).Some? && StatAt(k, j.destination).value.File?
          case StatCapture => proven
          case StatCaptured => proven && Present(k, j) && a.cap == j.sourceCapture.value && a.captureSeen && a.captureSame == SameContainer(k, j)
          case ReadSourceAgain => proven && !Captured(k, j) && source in k.names && call.MoveCall? && a.captureSeen == Present(k, j)
          case RemoveContainer =>
            && proven && Decide(k, j, call.MoveCall?) == Finish && SameContainer(k, j) && !Captured(k, j)
            && a.cap == j.sourceCapture.value)
    case Owning(o) =>
      && a.entry == j && proven
      && if o.ReadCompleted? then Decide(k, j, call.MoveCall?) == Finish && !Present(k, j)
         else if Captured(k, j) then
           && a.cap == j.sourceCapture.value && !a.allow
           && (o.CheckCapture? || ((o.StatCapturedSource? || o.VerifyCaptured?) && SameContainer(k, j))
               || (o.UnlinkCaptured? && Decide(k, j, call.MoveCall?) == Finish))
         else false
    case _ => false
  }

  // The move starts afresh, as one without a journal does.
  ghost predicate Restarts(w: World, v: World, call: Call)
    requires call.MoveCall? && v.active.Some?
  {
    v.disk == w.disk &&
    var a := v.active.value;
    || (v.journals == w.journals && a.pc == Moving(ReadSource))
    || (if !Movable(w.disk, call.source, call.checksum) then v.journals == w.journals && a.pc == Threw
        else
          var j := MoveIntent(w.disk, call);
          || (v.journals == w.journals && a.pc == Moving(SaveIntent) && a.entry == j)
          || (v.journals == w.journals[call.owner := j] && (a.pc == Moving(LinkDestination) || a.pc == Threw)))
  }

  // The disk without the captured source, and without its private directory.
  function Uncaptured(k: Disk, j: Journal): map<Name, Ino> {
    if Captured(k, j) then k.names - {CapturedSource(j.sourceCapture.value)} else k.names
  }

  function Cleared(k: Disk, j: Journal): map<Name, Ino> {
    if Present(k, j) then Uncaptured(k, j) - {j.sourceCapture.value.at} else Uncaptured(k, j)
  }

  // The captured source goes, then its directory; the outcome is recorded last.
  ghost predicate Ends(w: World, v: World, call: Call)
    requires Unfinished(w, call) && v.active.Some?
  {
    var k, j, a := w.disk, w.journals[call.owner], v.active.value;
    var done := j.(status := Completed);
    match a.pc
    case Owning(o) =>
      && a.entry == j && v.journals == w.journals && v.disk.nodes == k.nodes
      && ((o.RemoveCapture? && Captured(k, j) && a.cap == j.sourceCapture.value && v.disk.names == Uncaptured(k, j))
          || ((o.ReadCompleted? || o.SaveCompleted?) && v.disk.names == Cleared(k, j) && Tidy(k, j)))
    case Threw => v.journals == w.journals && v.disk.names == Uncaptured(k, j) && !Tidy(k, j)
    case Returned(outcome) =>
      outcome == Some(done) && v.journals == w.journals[call.owner := done] && v.disk.names == Cleared(k, j) && Tidy(k, j)
    case _ => false
  }

  // How looking ends.
  ghost predicate Decided(w: World, v: World, call: Call)
    requires Unfinished(w, call)
  {
    && v.active.Some? && v.active.value.call == call
    && var a := v.active.value;
    match Decide(w.disk, w.journals[call.owner], call.MoveCall?)
    case Refuse => a.pc == Threw && v.disk == w.disk && v.journals == w.journals
    case Afresh =>
      if call.RecoverCall? then a.pc == Returned(None) && v.disk == w.disk && v.journals == w.journals
      else (Movable(w.disk, call.source, call.checksum) && call.destination !in w.disk.names) || Restarts(w, v, call)
    case Continue => true
    case Finish => Ends(w, v, call)
  }

  // What the invariant says of the names in the journal.
  ghost predicate Sound(k: Disk, j: Journal, owner: string) {
    && WellFormed(k) && MoveOk(k, owner, j)
    && (j.sourceCapture.Some? ==>
          var c := j.sourceCapture.value;
          CapturedSource(c) != j.destination && c.at != j.destination && c.at != CapturedSource(c) && CapturedSource(c) != j.source.value)
  }

  lemma SoundJournal(w: World, call: Call)
    requires Inv(w) && Unfinished(w, call)
    ensures Sound(w.disk, w.journals[call.owner], call.owner)
  {
    var j := w.journals[call.owner];
    assert JournalOk(w.disk, w.journals, call.owner, j);
    if j.sourceCapture.Some? {
      var c := j.sourceCapture.value;
      assert w.disk.containers[c.at].ino == c.ino;
      assert IsContainer(w.disk, CapturedSource(c).dir);
    }
  }

  // ---- one step ----

  lemma LooksAtSource(w: World, v: World, call: Call, pick: Pick)
    requires Unfinished(w, call) && Looking(w, v, call) && Enabled(v, Tick(pick)) && WellFormed(w.disk)
    requires v.active.value.pc == Recovering(StatSource)
    ensures Looking(w, Next(v, Tick(pick)), call) || Decided(w, Next(v, Tick(pick)), call)
  {
    hide PickOk, Movable, WellFormed, Perform, Ends, Tidy, Cleared, Uncaptured, Captured, Present, SameContainer;
    hide NextLoad, NextMove, NextCreate, NextRemove, NextFinish, NextOwnedSource, Authorized;
    assert forall n :: n in w.disk.names ==> StatAt(w.disk, n).Some? by { Nodes(w.disk); }
  }

  lemma LooksAtDestination(w: World, v: World, call: Call, pick: Pick)
    requires Unfinished(w, call) && Looking(w, v, call) && Enabled(v, Tick(pick)) && WellFormed(w.disk)
    requires v.active.value.pc == Recovering(StatDestination)
    ensures Looking(w, Next(v, Tick(pick)), call) || Decided(w, Next(v, Tick(pick)), call)
  {
    hide PickOk, Movable, WellFormed, Perform, Ends, Tidy, Cleared, Uncaptured, Captured, Present, SameContainer;
    hide NextLoad, NextMove, NextCreate, NextRemove, NextFinish, NextOwnedSource, Authorized;
    assert forall n :: n in w.disk.names ==> StatAt(w.disk, n).Some? by { Nodes(w.disk); }
  }

  lemma ReadsDestination(w: World, v: World, call: Call, pick: Pick)
    requires Unfinished(w, call) && Looking(w, v, call) && Enabled(v, Tick(pick)) && WellFormed(w.disk)
    requires v.active.value.pc == Recovering(ReadDestination)
    ensures Looking(w, Next(v, Tick(pick)), call) || Decided(w, Next(v, Tick(pick)), call)
  {
    hide PickOk, Movable, WellFormed, Perform, Ends, Tidy, Cleared, Uncaptured, Captured, Present, SameContainer;
    hide NextLoad, NextMove, NextCreate, NextRemove, NextFinish, NextOwnedSource, Authorized;
    assert forall n :: n in w.disk.names ==> StatAt(w.disk, n).Some? by { Nodes(w.disk); }
  }

  // The journal is loaded, and the call authorised.
  lemma Loads(w: World, v: World, call: Call, pick: Pick)
    requires Unfinished(w, call) && Looking(w, v, call) && Enabled(v, Tick(pick)) && v.active.value.pc.Load?
    ensures Looking(w, Next(v, Tick(pick)), call)
  {
    hide PickOk, NextRecover, NextMove, NextCreate, NextRemove, NextFinish, NextOwnedSource, Perform, Decide, FileIdentityAt, Authorized;
  }

  lemma Nodes(k: Disk)
    requires WellFormed(k)
    ensures forall n :: n in k.names ==> StatAt(k, n).Some?
  {
  }

  lemma LooksForCapture(w: World, v: World, call: Call, pick: Pick)
    requires Unfinished(w, call) && Looking(w, v, call) && Enabled(v, Tick(pick)) && WellFormed(w.disk)
    requires v.active.value.pc == Recovering(StatCapture)
    ensures Looking(w, Next(v, Tick(pick)), call) || Decided(w, Next(v, Tick(pick)), call)
  {
    hide PickOk, Movable, WellFormed, Tidy, Perform, Ends, Restarts, Cleared, Uncaptured;
    hide NextLoad, NextMove, NextCreate, NextRemove, NextFinish, NextOwnedSource, Authorized;
    assert forall n :: n in w.disk.names ==> StatAt(w.disk, n).Some? by { Nodes(w.disk); }
  }

  lemma LooksIntoCapture(w: World, v: World, call: Call, pick: Pick)
    requires Unfinished(w, call) && Looking(w, v, call) && Enabled(v, Tick(pick)) && WellFormed(w.disk)
    requires v.active.value.pc == Recovering(StatCaptured)
    ensures Looking(w, Next(v, Tick(pick)), call) || Decided(w, Next(v, Tick(pick)), call)
  {
    hide PickOk, Movable, WellFormed, Tidy, Perform, Ends, Restarts, Cleared, Uncaptured;
    hide NextLoad, NextMove, NextCreate, NextRemove, NextFinish, NextOwnedSource, Authorized;
    assert forall n :: n in w.disk.names ==> StatAt(w.disk, n).Some? by { Nodes(w.disk); }
  }

  lemma LooksAgain(w: World, v: World, call: Call, pick: Pick)
    requires Unfinished(w, call) && Looking(w, v, call) && Enabled(v, Tick(pick)) && WellFormed(w.disk)
    requires v.active.value.pc.Recovering? && (v.active.value.pc.r.ReadSourceAgain? || v.active.value.pc.r.RemoveContainer?)
    ensures Looking(w, Next(v, Tick(pick)), call) || Decided(w, Next(v, Tick(pick)), call)
  {
    hide PickOk, Movable, WellFormed;
  }

  lemma LooksThrough(w: World, v: World, call: Call, pick: Pick)
    requires Unfinished(w, call) && Looking(w, v, call) && Enabled(v, Tick(pick)) && v.active.value.pc.Owning?
    requires !v.active.value.pc.o.UnlinkCaptured? && !v.active.value.pc.o.ReadCompleted?
    requires Sound(w.disk, w.journals[call.owner], call.owner)
    ensures Looking(w, Next(v, Tick(pick)), call) || Decided(w, Next(v, Tick(pick)), call)
  {
    hide PickOk, Movable, WellFormed, Tidy, Perform, Ends, Restarts, Uncaptured, Cleared, Public, IsContainer;
  }

  // The last two looks that may change something.
  lemma LooksLast(w: World, v: World, call: Call, pick: Pick)
    requires Unfinished(w, call) && Looking(w, v, call) && Enabled(v, Tick(pick)) && v.active.value.pc.Owning?
    requires v.active.value.pc.o.UnlinkCaptured? || v.active.value.pc.o.ReadCompleted?
    requires Sound(w.disk, w.journals[call.owner], call.owner)
    ensures Decided(w, Next(v, Tick(pick)), call)
  {
    hide PickOk, Movable, WellFormed, Restarts, Public, IsContainer;
    NothingThere(w.disk, w.journals[call.owner]);
    hide Tidy;
  }

  lemma NothingThere(k: Disk, j: Journal)
    ensures !Present(k, j) ==> Tidy(k, j) && !Captured(k, j)
  {
  }

  // The private directory is empty once the captured source is out of it, exactly if it was tidy.
  lemma EmptiedExactly(k: Disk, k': Disk, j: Journal)
    requires Present(k, j) && k'.names == Uncaptured(k, j)
    ensures Tidy(k, j) <==> Empty(k', j.sourceCapture.value.ino)
  {
  }

  lemma RmdirExactly(k: Disk, at: Name, ino: Ino)
    requires DirectoryAt(k, at, ino)
    ensures Perform(k, Rmdir(at)).Some? <==> Empty(k, ino)
    ensures Empty(k, ino) ==>
      Perform(k, Rmdir(at)).value.names == k.names - {at} && Perform(k, Rmdir(at)).value.nodes == k.nodes
  {
  }

  lemma RemovalAction(k: Disk, js: map<string, Journal>, a: Attempt, pick: Pick)
    requires Typed(a) && a.pc == Owning(RemoveCapture)
    ensures NextAction(k, js, a, pick) == Try(a, Rmdir(a.cap.at), Owning(ReadCompleted))
  {
  }

  // The private directory is still the recorded one.
  lemma ContainerStands(k: Disk, k': Disk, j: Journal, owner: string, live: bool)
    requires j.source.Some? && Decide(k, j, live) == Finish && Captured(k, j) && Sound(k, j, owner)
    requires k'.names == Uncaptured(k, j) && k'.nodes == k.nodes
    ensures j.sourceCapture.Some? && DirectoryAt(k', j.sourceCapture.value.at, j.sourceCapture.value.ino) && Present(k, j)
  {
    FinishContainers(k, j, live);
    hide WellFormed, MoveOk, FileIdentityAt;
  }

  lemma SettlesRemoval(w: World, v: World, call: Call, pick: Pick)
    requires Unfinished(w, call) && Decided(w, v, call) && Enabled(v, Tick(pick)) && Sound(w.disk, w.journals[call.owner], call.owner)
    requires Decide(w.disk, w.journals[call.owner], call.MoveCall?) == Finish && v.active.value.pc == Owning(RemoveCapture)
    ensures Decided(w, Next(v, Tick(pick)), call)
  {
    hide PickOk, Movable, Tidy, Empty, Restarts, Decide, SameContainer, Sound, NextAction, Perform, DirectoryAt, Captured, Present;
    var j, k := w.journals[call.owner], w.disk;
    ContainerStands(k, v.disk, j, call.owner, call.MoveCall?);
    var c := j.sourceCapture.value;
    EmptiedExactly(k, v.disk, j);
    RmdirExactly(v.disk, c.at, c.ino);
    RemovalAction(v.disk, v.journals, v.active.value, pick);
  }

  lemma FinishContainers(k: Disk, j: Journal, live: bool)
    requires j.source.Some? && Decide(k, j, live) == Finish && Present(k, j)
    ensures SameContainer(k, j) && DirectoryAt(k, j.sourceCapture.value.at, j.sourceCapture.value.ino)
  {
  }

  lemma SettlesRecord(w: World, v: World, call: Call, pick: Pick)
    requires Unfinished(w, call) && Decided(w, v, call) && Enabled(v, Tick(pick)) && Sound(w.disk, w.journals[call.owner], call.owner)
    requires Decide(w.disk, w.journals[call.owner], call.MoveCall?) == Finish
    requires v.active.value.pc == Owning(ReadCompleted) || v.active.value.pc == Owning(SaveCompleted)
    ensures Decided(w, Next(v, Tick(pick)), call)
  {
    hide PickOk, Movable, Tidy, Empty, Restarts, Decide, SameContainer, Cleared, Uncaptured, Sound, NextAction;
    DestinationLeft(w.disk, w.journals[call.owner], call.owner, call.MoveCall?);
    RecordAction(v.disk, v.journals, v.active.value, pick);
  }

  lemma RecordAction(k: Disk, js: map<string, Journal>, a: Attempt, pick: Pick)
    requires Typed(a)
    ensures a.pc == Owning(ReadCompleted) ==>
      NextAction(k, js, a, pick) == Goto(a, if a.entry.destination in k.names then Owning(SaveCompleted) else Threw)
    ensures a.pc == Owning(SaveCompleted) ==>
      NextAction(k, js, a, pick) == Save(a, a.entry.(status := Completed), Returned(Some(a.entry.(status := Completed))))
  {
  }

  lemma DestinationLeft(k: Disk, j: Journal, owner: string, live: bool)
    requires j.source.Some? && Decide(k, j, live) == Finish && Sound(k, j, owner)
    ensures j.destination in Cleared(k, j)
  {
    hide WellFormed, MoveOk;
  }

  lemma SettlesAfresh(w: World, v: World, call: Call, pick: Pick)
    requires Unfinished(w, call) && Decided(w, v, call) && Enabled(v, Tick(pick))
    requires Decide(w.disk, w.journals[call.owner], call.MoveCall?) == Afresh
    requires Next(v, Tick(pick)).active.Some? && Next(v, Tick(pick)).active.value.call == v.active.value.call
    ensures Decided(w, Next(v, Tick(pick)), call)
  {
    hide PickOk, WellFormed, Ends, Tidy, Cleared, Uncaptured, Decide, Authorized;
    hide NextLoad, NextRecover, NextCreate, NextRemove, NextFinish, NextOwnedSource;
  }

  lemma EndsRunning(w: World, v: World, call: Call)
    requires Unfinished(w, call) && Decided(w, v, call) && Running(v)
    ensures Decide(w.disk, w.journals[call.owner], call.MoveCall?) == Finish ==>
      v.active.value.pc == Owning(RemoveCapture) || v.active.value.pc == Owning(ReadCompleted) || v.active.value.pc == Owning(SaveCompleted)
  {
    hide Decide, Tidy;
  }

  lemma DecidedStays(w: World, v: World, call: Call, pick: Pick)
    requires Inv(w) && Inv(v) && Unfinished(w, call) && Decided(w, v, call) && Enabled(v, Tick(pick))
    ensures Decided(w, Next(v, Tick(pick)), call)
  {
    CallStays(v, pick);
    SoundJournal(w, call);
    EndsRunning(w, v, call);
    hide Inv, Sound, NextAction, PickOk, Ends, Restarts;
    match Decide(w.disk, w.journals[call.owner], call.MoveCall?)
    case Finish =>
      if v.active.value.pc == Owning(RemoveCapture) { SettlesRemoval(w, v, call, pick); } else { SettlesRecord(w, v, call, pick); }
    case Afresh => SettlesAfresh(w, v, call, pick);
    case _ =>
  }

  lemma LookingGoesOn(w: World, v: World, call: Call, pick: Pick)
    requires Inv(w) && Inv(v) && Unfinished(w, call) && Looking(w, v, call) && Enabled(v, Tick(pick))
    ensures Looking(w, Next(v, Tick(pick)), call) || Decided(w, Next(v, Tick(pick)), call)
  {
    SoundJournal(w, call);
    assert WellFormed(w.disk);
    hide Inv, Decided, Sound, WellFormed, NextAction, PickOk;
    match v.active.value.pc
    case Load => Loads(w, v, call, pick);
    case Recovering(r) =>
      if r.StatCapture? {
        LooksForCapture(w, v, call, pick);
      } else if r.StatCaptured? {
        LooksIntoCapture(w, v, call, pick);
      } else if r.ReadSourceAgain? || r.RemoveContainer? {
        LooksAgain(w, v, call, pick);
      } else if r.StatSource? {
        LooksAtSource(w, v, call, pick);
      } else if r.StatDestination? {
        LooksAtDestination(w, v, call, pick);
      } else {
        ReadsDestination(w, v, call, pick);
      }
    case Owning(o) =>
      if o.UnlinkCaptured? || o.ReadCompleted? { LooksLast(w, v, call, pick); } else { LooksThrough(w, v, call, pick); }
  }

  lemma {:induction false} DecisionStands(w: World, call: Call, es: seq<Event>)
    requires Inv(w) && !Running(w) && Unfinished(w, call) && Legal(w, es) && Uninterrupted(es, call)
    ensures Looking(w, Exec(w, es), call) || Decided(w, Exec(w, es), call)
    decreases |es|
  {
    var prefix := es[..|es| - 1];
    if |es| == 1 {
      assert prefix == [];
      hide Inv;
    } else {
      hide Looking, Decided, Inv;
      DecisionStands(w, call, prefix);
      InvAlways(w, prefix);
      if Looking(w, Exec(w, prefix), call) {
        LookingGoesOn(w, Exec(w, prefix), call, es[|es| - 1].pick);
      } else {
        DecidedStays(w, Exec(w, prefix), call, es[|es| - 1].pick);
      }
    }
  }

  // Historical recovery of an unfinished move, left alone: it reports nothing and changes nothing where
  // the move may start afresh, throws and changes nothing where it must not be taken further, and
  // otherwise clears the capture and records and returns the outcome, unless something else lies in the
  // private directory.
  lemma RecoveryDecides(w: World, call: Call, es: seq<Event>)
    requires Inv(w) && !Running(w) && Unfinished(w, call) && call.RecoverCall?
    requires Legal(w, es) && Uninterrupted(es, call) && !Running(Exec(w, es))
    ensures var v, j := Exec(w, es), w.journals[call.owner];
      v.active.Some? && var pc := v.active.value.pc;
      match Decide(w.disk, j, false)
      case Afresh => pc == Returned(None) && v.disk == w.disk && v.journals == w.journals
      case Finish =>
        if Tidy(w.disk, j) then
          && pc == Returned(Some(j.(status := Completed))) && v.journals == w.journals[call.owner := j.(status := Completed)]
          && v.disk.names == Cleared(w.disk, j)
        else pc == Threw && v.journals == w.journals && v.disk.names == Uncaptured(w.disk, j)
      case _ => pc == Threw && v.disk == w.disk && v.journals == w.journals
  {
    DecisionStands(w, call, es);
  }

  // A repeated move, left alone, decides alike; but where it may start afresh it does, so it throws
  // with nothing changed if its source is not the authorised file, and with only a new intent on record
  // if its destination is occupied.
  lemma RetryDecides(w: World, call: Call, es: seq<Event>)
    requires Inv(w) && !Running(w) && Unfinished(w, call) && call.MoveCall?
    requires Legal(w, es) && Uninterrupted(es, call) && !Running(Exec(w, es))
    ensures var v, j := Exec(w, es), w.journals[call.owner];
      v.active.Some? && var pc := v.active.value.pc;
      match Decide(w.disk, j, true)
      case Refuse => pc == Threw && v.disk == w.disk && v.journals == w.journals
      case Afresh =>
        || (Movable(w.disk, call.source, call.checksum) && call.destination !in w.disk.names)
        || (pc == Threw && v.disk == w.disk &&
         v.journals == if Movable(w.disk, call.source, call.checksum) then w.journals[call.owner := MoveIntent(w.disk, call)] else w.journals)
      case Finish =>
        if Tidy(w.disk, j) then
          && pc == Returned(Some(j.(status := Completed))) && v.journals == w.journals[call.owner := j.(status := Completed)]
          && v.disk.names == Cleared(w.disk, j)
        else pc == Threw && v.journals == w.journals && v.disk.names == Uncaptured(w.disk, j)
      case Continue => true
  {
    DecisionStands(w, call, es);
  }
}
