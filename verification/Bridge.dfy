// The journaled functions as the bridge runs them: methods that change the disk and the journal
// files one system call at a time, while other programs act in between.  Every execution of them
// is a run of the step machine, so what is proved of runs holds of them.
module Bridge {
  import opened Wrappers
  import opened FileSystem
  import opened Protocol
  import opened ProtocolInvariant
  import opened ProtocolSteps
  import opened ProtocolSafety
  import opened ProtocolOutcomes

  const ANY := Pick(0, "", None)

  // recoverMove has found nothing to recover: a move starts afresh, historical recovery ends.
  predicate Unstarted(a: Attempt, call: Call) {
    a.call == call && a.pc == if call.MoveCall? then Moving(ReadSource) else Returned(None)
  }

  // What recoverMove finds of the journaled capture: the private directory, whether it is still the
  // recorded one, and whether it holds the source.
  datatype Leftovers = Leftovers(seen: Option<Capture>, same: bool, captured: bool)

  function WithoutCapturedSource(a: Attempt, left: Leftovers): Pc {
    if a.sourceSeen.Some? then
      if a.call.MoveCall? && a.sourceSeen.value.File? then Recovering(ReadSourceAgain) else Threw
    else if left.seen.None? then Owning(ReadCompleted)
    else if left.same then Recovering(RemoveContainer) else Threw
  }

  // Where a call goes on from there.
  predicate Inspected(a: Attempt, b: Attempt, left: Leftovers) {
    && (left.captured ==> left.seen.Some?) && (left.seen.Some? ==> left.seen == a.entry.sourceCapture)
    && (left.seen.Some? ==> b.cap == left.seen.value)
    && b.call == a.call && b.entry == a.entry
    && (left.captured ==> b.pc == Owning(CheckCapture) && !b.allow)
    && (!left.captured ==> b.pc == WithoutCapturedSource(a, left))
    && (b.pc == Recovering(ReadSourceAgain) ==> b.captureSeen == left.seen.Some?)
  }

  // Steps that only read the disk or the journals.
  predicate Reads(pc: Pc) {
    match pc
    case Load => true
    case Recovering(r) => !r.RemoveContainer?
    case Moving(m) => m.ReadSource? || m.VerifyDestination?
    case Owning(o) => o.CheckCapture? || o.StatCapturedSource? || o.VerifySource? || o.VerifyCaptured? || o.ReadCompleted?
    case Creating(c) => c.StatFolder? || c.StatMade?
    case Removing(d) => d.StatTarget? || d.ListTarget?
    case Finishing(f) => f.FinishContainer? || f.StatDirectory? || f.ListDirectory? || f.CleanStat? || f.CleanList? || f.ExposeStat?
    case _ => false
  }

  // Steps that write the journal file.
  predicate Writes(pc: Pc) {
    match pc
    case Moving(m) => m.SaveIntent? || m.SaveLinked?
    case Owning(o) => o.SaveCapture? || o.SaveCompleted?
    case Creating(c) => c.SaveFolderIntent? || c.SaveFolder?
    case Removing(d) => d.SaveRemoveIntent?
    case Finishing(f) => f.SaveProof? || f.SaveRemoved?
    case _ => false
  }

  // Steps that make a system call which needs no choice of the environment.
  predicate Changes(pc: Pc) {
    match pc
    case Recovering(r) => r.RemoveContainer?
    case Moving(m) => m.LinkDestination?
    case Owning(o) => o.RenameSource? || o.RestoreSource? || o.UnlinkCaptured? || o.RemoveCapture?
    case Removing(d) => d.RenameTarget?
    case Finishing(f) => f.RemoveDirectory? || f.CleanRemove?
    case _ => false
  }

  lemma RecoveringKinds(k: Disk, a: Attempt)
    requires a.pc.Recovering? && Typed(a)
    ensures Reads(a.pc) ==> NextRecover(k, a).Go?
    ensures Changes(a.pc) ==> NextRecover(k, a).Make?
  {
  }

  lemma OwningKinds(k: Disk, a: Attempt, pick: Pick)
    requires a.pc.Owning? && Typed(a)
    ensures Reads(a.pc) ==> NextOwnedSource(k, a, pick) == NextOwnedSource(k, a, ANY) && NextOwnedSource(k, a, pick).Go?
    ensures Writes(a.pc) || Changes(a.pc) ==> NextOwnedSource(k, a, pick) == NextOwnedSource(NO_DISK, a, ANY)
    ensures Writes(a.pc) ==> NextOwnedSource(k, a, pick).Write?
    ensures Changes(a.pc) ==> NextOwnedSource(k, a, pick).Make?
  {
  }

  const NO_DISK := Disk(map[], map[], map[], {})

  lemma RemovingKinds(k: Disk, a: Attempt, pick: Pick)
    requires a.pc.Removing? && Typed(a)
    ensures Reads(a.pc) ==> NextRemove(k, a, pick) == NextRemove(k, a, ANY) && NextRemove(k, a, pick).Go?
    ensures Writes(a.pc) || Changes(a.pc) ==> NextRemove(k, a, pick) == NextRemove(NO_DISK, a, ANY)
    ensures Writes(a.pc) ==> NextRemove(k, a, pick).Write?
    ensures Changes(a.pc) ==> NextRemove(k, a, pick).Make?
  {
  }

  lemma FinishingKinds(k: Disk, a: Attempt, pick: Pick)
    requires a.pc.Finishing? && Typed(a)
    ensures Reads(a.pc) ==> NextFinish(k, a, pick) == NextFinish(k, a, ANY) && NextFinish(k, a, pick).Go?
    ensures Writes(a.pc) || Changes(a.pc) ==> NextFinish(k, a, pick) == NextFinish(NO_DISK, a, ANY)
    ensures Writes(a.pc) ==> NextFinish(k, a, pick).Write?
    ensures Changes(a.pc) ==> NextFinish(k, a, pick).Make?
  {
  }

  lemma MovingKinds(k: Disk, a: Attempt)
    requires a.pc.Moving? && Typed(a)
    ensures Reads(a.pc) ==> NextMove(k, a).Go?
    ensures Writes(a.pc) || Changes(a.pc) ==> NextMove(k, a) == NextMove(NO_DISK, a)
    ensures Writes(a.pc) ==> NextMove(k, a).Write?
    ensures Changes(a.pc) ==> NextMove(k, a).Make?
  {
  }

  lemma CreatingKinds(k: Disk, a: Attempt, pick: Pick)
    requires a.pc.Creating? && Typed(a)
    ensures Reads(a.pc) ==> NextCreate(k, a, pick) == NextCreate(k, a, ANY) && NextCreate(k, a, pick).Go?
    ensures Writes(a.pc) ==> NextCreate(k, a, pick) == NextCreate(NO_DISK, a, ANY) && NextCreate(k, a, pick).Write?
  {
  }

  // What the environment chooses matters only where a new directory is made, and what is on the
  // disk only where it is read.
  lemma Kinds(k: Disk, js: map<string, Journal>, a: Attempt, pick: Pick)
    requires !Halted(a) && Typed(a)
    ensures Reads(a.pc) ==> NextAction(k, js, a, pick) == NextAction(k, js, a, ANY) && NextAction(k, js, a, pick).Go?
    ensures Writes(a.pc) || Changes(a.pc) ==> NextAction(k, js, a, pick) == NextAction(NO_DISK, js, a, ANY)
    ensures Writes(a.pc) ==> NextAction(k, js, a, pick).Write?
    ensures Changes(a.pc) ==> NextAction(k, js, a, pick).Make?
  {
    match a.pc
    case Load =>
    case Recovering(_) => RecoveringKinds(k, a); RecoveringKinds(NO_DISK, a);
    case Moving(_) => MovingKinds(k, a);
    case Owning(_) => OwningKinds(k, a, pick);
    case Creating(_) => CreatingKinds(k, a, pick);
    case Removing(_) => RemovingKinds(k, a, pick);
    case Finishing(_) => FinishingKinds(k, a, pick);
  }

  lemma Append(w: World, es: seq<Event>, e: Event)
    requires Legal(w, es) && Enabled(Exec(w, es), e)
    ensures Legal(w, es + [e]) && Exec(w, es + [e]) == Next(Exec(w, es), e)
  {
    assert (es + [e])[..|es + [e]| - 1] == es;
  }

  // The next step of a run that has one.
  lemma Step(w: World, es: seq<Event>) returns (pick: Pick)
    requires Inv(w) && Legal(w, es) && Running(Exec(w, es)) && Typed(Exec(w, es).active.value)
    ensures Legal(w, es + [Tick(pick)])
    ensures var v := Exec(w, es);
      Exec(w, es + [Tick(pick)]) == Apply(v, NextAction(v.disk, v.journals, v.active.value, pick))
  {
    InvAlways(w, es);
    StepPossible(Exec(w, es));
    pick :| Enabled(Exec(w, es), Tick(pick));
    Append(w, es, Tick(pick));
  }

  function PrivateDirectory(a: Attempt, suffix: string): Name
    requires Typed(a) && (a.pc == Owning(MakeCapture) || a.pc == Removing(MakeContainer))
  {
    if a.pc.Owning? then Name(a.entry.source.value.dir, MOVE_PREFIX + suffix) else Name(a.call.target.dir, REMOVE_PREFIX + suffix)
  }

  lemma PrivateStep(w: World, es: seq<Event>, a: Attempt, pick: Pick)
    requires Inv(w) && Legal(w, es) && Exec(w, es).active == Some(a) && PickOk(Exec(w, es).disk, pick)
    requires Typed(a) && (a.pc == Owning(MakeCapture) || a.pc == Removing(MakeContainer))
    ensures Legal(w, es + [Tick(pick)])
    ensures var v, at := Exec(w, es), PrivateDirectory(a, pick.suffix);
      var b := a.(cap := Capture(at, pick.ino), pc := if a.pc.Owning? then Owning(SaveCapture) else Removing(SaveRemoveIntent));
      var made := Perform(v.disk, Mkdtemp(at, pick.ino, a.call.owner));
      made.Some? && Exec(w, es + [Tick(pick)]) == World(made.value, v.journals, Some(b))
  {
    Append(w, es, Tick(pick));
    assert PrivateDirectory(a, pick.suffix) !in Exec(w, es).disk.names;
  }

  lemma Contains(k: Disk, at: Name, ino: Ino, owner: string)
    requires Perform(k, Mkdtemp(at, ino, owner)).Some?
    ensures var made := Perform(k, Mkdtemp(at, ino, owner)).value; at in made.containers && made.containers[at] == Container(ino, owner)
  {
  }

  predicate Exposes(a: Attempt, pick: Pick, call: Syscall) {
    if a.pc == Finishing(ExposeMake) then call == Mkdir(a.entry.destination, pick.ino)
    else a.pc == Finishing(ExposeCopy) && pick.copy.Some? && call == Create(pick.copy.value.0, pick.ino, pick.copy.value.1)
  }

  lemma ExposeAction(k: Disk, js: map<string, Journal>, a: Attempt, pick: Pick, call: Syscall)
    requires Typed(a) && Exposes(a, pick, call)
    ensures NextAction(k, js, a, pick) == Try(a, call, Finishing(ExposeCopy))
  {
  }

  lemma ExposeStep(w: World, es: seq<Event>, a: Attempt, pick: Pick, call: Syscall)
    requires Legal(w, es) && Exec(w, es).active == Some(a) && PickOk(Exec(w, es).disk, pick)
    requires Typed(a) && Exposes(a, pick, call)
    ensures Legal(w, es + [Tick(pick)])
    ensures Exec(w, es + [Tick(pick)]) == Apply(Exec(w, es), Try(a, call, Finishing(ExposeCopy)))
  {
    hide NextAction, PickOk, Perform;
    var v := Exec(w, es);
    ExposeAction(v.disk, v.journals, a, pick, call);
    Append(w, es, Tick(pick));
  }

  ghost predicate OthersKept(js: map<string, Journal>, js': map<string, Journal>, owner: string) {
    forall o: string | o != owner :: Lookup(js', o) == Lookup(js, o)
  }

  lemma CopyEnds(w: World, es: seq<Event>, a: Attempt, pick: Pick)
    requires Legal(w, es) && Exec(w, es).active == Some(a) && PickOk(Exec(w, es).disk, pick)
    requires Typed(a) && a.pc == Finishing(ExposeCopy) && pick.copy.None?
    ensures Legal(w, es + [Tick(pick)])
    ensures Exec(w, es + [Tick(pick)]) == Exec(w, es).(active := Some(a.(pc := Threw)))
  {
    hide PickOk, Perform;
    Append(w, es, Tick(pick));
  }

  lemma FolderStep(w: World, es: seq<Event>, a: Attempt, pick: Pick)
    requires Legal(w, es) && Exec(w, es).active == Some(a) && PickOk(Exec(w, es).disk, pick)
    requires Typed(a) && a.pc == Creating(MakeFolder)
    ensures Legal(w, es + [Tick(pick)])
    ensures var v, result := Exec(w, es), Perform(Exec(w, es).disk, Mkdir(a.call.destination, pick.ino));
      Exec(w, es + [Tick(pick)]) ==
        if result.Some? then World(result.value, v.journals, Some(a.(entry := a.entry.(created := true), pc := Creating(StatMade))))
        else v.(active := Some(a.(pc := Creating(StatMade))))
  {
    hide PickOk;
    Append(w, es, Tick(pick));
  }

  // No other call has begun since, and nobody has died or interfered who may not.
  ghost predicate Attended(events: seq<Event>, began: nat, mortal: bool, interfering: bool) {
    && began <= |events|
    && (forall i :: began < i < |events| ==> !events[i].Start?)
    && (!mortal ==> forall i :: 0 <= i < |events| ==> !events[i].Die?)
    && (!interfering ==> forall i :: 0 <= i < |events| ==> !events[i].Outside?)
  }

  lemma AttendedOn(events: seq<Event>, began: nat, mortal: bool, interfering: bool, e: Event)
    requires Attended(events, began, mortal, interfering)
    requires e.Tick? || (e.Outside? && interfering) || (e.Die? && mortal)
    ensures Attended(events + [e], began, mortal, interfering)
  {
  }

  class Bridge {
    var disk: Disk
    var journals: map<string, Journal>  // the physical-actions directory, one file per owner
    var entry: Journal                  // the journal record the running call works on

    const mortal: bool       // the process may die between any two steps
    const interfering: bool  // other programs may act between any two steps

    // The run so far, where its latest call began, and where that call stands in the step machine.
    ghost const start: World
    ghost var events: seq<Event>
    ghost var began: nat
    ghost var attempt: Option<Attempt>

    ghost predicate Valid()
      reads `disk, `journals, `events, `attempt, `began
    {
      && Inv(start) && (start.active.Some? ==> Reported(start.journals, start.active.value))
      && Legal(start, events) && Exec(start, events) == World(disk, journals, attempt) && Attended(events, began, mortal, interfering)
    }

    ghost predicate Ready()
      reads `disk, `journals, `events, `attempt, `began
    {
      Valid() && attempt.Some? && !Halted(attempt.value) && Typed(attempt.value)
    }

    // The running call stands here with the record it works on.
    ghost predicate At(pc: Pc)
      reads this
    {
      Ready() && attempt.value.pc == pc && attempt.value.entry == entry
    }

    // The running call has thrown, or the process has died.
    ghost predicate Ended()
      reads `disk, `journals, `events, `attempt, `began
    {
      Valid() && if attempt.Some? then attempt.value.pc == Threw else mortal
    }

    // The latest call is this one, and began right after these events.
    ghost predicate Begun(before: seq<Event>, call: Call)
      reads `events, `began
    {
      before < events && began == |before| && events[began] == Start(call)
    }

    // No call is running.
    ghost predicate Idle()
      reads `disk, `journals, `events, `attempt, `began
    {
      Valid() && (attempt.Some? ==> Halted(attempt.value))
    }

    constructor (k: Disk, mortal: bool, interfering: bool)
      requires WellFormed(k) && k.containers == map[] && k.removed == {}
      requires forall n :: n in k.names ==> !PrivateBase(n.base)
      ensures Valid() && Initial(start) && start.disk == k && events == [] && attempt == None
      ensures this.mortal == mortal && this.interfering == interfering
    {
      disk, journals, entry := k, map[], BLANK;
      this.mortal, this.interfering := mortal, interfering;
      start, events, began, attempt := World(k, map[], None), [], 0, None;
    }

    // ---- one step ----

    // Other programs act; several of their changes in a row amount to one.
    method Interfere()
      requires Valid()
      modifies `disk, `events
      ensures Valid() && old(events) <= events
      ensures disk == old(disk) || (interfering && OutsideOk(old(disk), disk))
      ensures !interfering ==> events == old(events)
    {
      var k: Disk := *;
      if interfering && OutsideOk(disk, k) {
        Append(start, events, Outside(k));
        events := events + [Outside(k)];
        disk := k;
      }
    }

    // The process dies here, or a system call fails in a way nothing handles.
    method Die()
      requires Valid() && mortal
      modifies `events, `attempt
      ensures Valid() && old(events) <= events && attempt == None
    {
      Append(start, events, Event.Die);
      events := events + [Event.Die];
      attempt := None;
    }

    method Survive() returns (r: Result<()>)
      requires Valid()
      modifies `events, `attempt
      ensures Valid() && old(events) <= events
      ensures if r.Ok? then events == old(events) && attempt == old(attempt) else attempt == None && mortal
    {
      var alive: bool := *;
      if alive || !mortal { return Ok(()); }
      Die();
      return Failed;
    }

    // A moment at which the running call reads `disk` or `journals`.
    method Observe() returns (r: Result<()>)
      requires Ready() && Reads(attempt.value.pc)
      modifies `disk, `events, `attempt
      ensures Valid() && old(events) <= events
      ensures if r.Ok? then attempt == Some(NextAction(disk, journals, old(attempt).value, ANY).next) else attempt == None && mortal
    {
      hide Attended, NextAction, OutsideOk, Perform, Reads, Writes, Changes;
      Interfere();
      var _ :- Survive();
      ghost var pick := Step(start, events);
      Kinds(disk, journals, attempt.value, pick);
      AttendedOn(events, began, mortal, interfering, Tick(pick));
      events := events + [Tick(pick)];
      attempt := Some(NextAction(disk, journals, attempt.value, ANY).next);
      return Ok(());
    }

    // writeLocalJson: the file is replaced atomically.
    method WriteJournal(owner: string) returns (r: Result<()>)
      requires Ready() && Writes(attempt.value.pc) && attempt.value.call.owner == owner
      requires NextAction(NO_DISK, journals, attempt.value, ANY).next.entry == entry
      requires NextAction(NO_DISK, journals, attempt.value, ANY).next.call == attempt.value.call
      modifies `disk, `journals, `events, `attempt
      ensures Valid() && old(events) <= events
      ensures if r.Ok? then
          && attempt == Some(NextAction(NO_DISK, old(journals), old(attempt).value, ANY).next)
          && journals == old(journals)[owner := entry]
        else attempt == None && mortal && journals == old(journals)
    {
      hide Attended, NextAction, OutsideOk, Perform, Reads, Writes, Changes;
      Interfere();
      var _ :- Survive();
      ghost var pick := Step(start, events);
      Kinds(disk, journals, attempt.value, pick);
      AttendedOn(events, began, mortal, interfering, Tick(pick));
      events := events + [Tick(pick)];
      attempt := Some(NextAction(NO_DISK, journals, attempt.value, ANY).next);
      journals := journals[owner := entry];
      return Ok(());
    }

    // One system call on whatever the disk has become by then; an error return throws.
    method Make(call: Syscall) returns (r: Result<()>)
      requires Ready() && Changes(attempt.value.pc)
      requires var action := NextAction(NO_DISK, journals, attempt.value, ANY);
        action.Make? && action.call == call && action.failed.pc == Threw
      modifies `disk, `events, `attempt
      ensures Valid() && old(events) <= events
      ensures if r.Ok? then
          && attempt == Some(NextAction(NO_DISK, journals, old(attempt).value, ANY).next)
          && exists before :: (before == old(disk) || OutsideOk(old(disk), before)) && Perform(before, call) == Some(disk)
        else Ended() && (disk == old(disk) || OutsideOk(old(disk), disk))
    {
      hide Attended, NextAction, OutsideOk, Perform, Reads, Writes, Changes;
      Interfere();
      var _ :- Survive();
      ghost var pick := Step(start, events);
      Kinds(disk, journals, attempt.value, pick);
      AttendedOn(events, began, mortal, interfering, Tick(pick));
      events := events + [Tick(pick)];
      ghost var action := NextAction(NO_DISK, journals, attempt.value, ANY);
      var result := Perform(disk, call);
      if result.None? {
        attempt := Some(action.failed);
        return Failed;
      }
      disk := result.value;
      attempt := Some(action.next);
      return Ok(());
    }

    // A new inode number and a random suffix that was never used.
    method Choose(copy: Option<(Name, Node)>) returns (pick: Pick)
      requires copy.Some? ==> Public(disk, copy.value.0)
      ensures PickOk(disk, pick) && pick.copy == copy
    {
      pick := *;
      pick := pick.(copy := copy);
      if !PickOk(disk, pick) {
        var ino := UnusedNumber(disk.nodes.Keys);
        var length := LongestBase(disk.containers.Keys + disk.names.Keys);
        pick := Pick(ino, seq(length + 1, _ => 'x'), copy);
        assert |pick.suffix| == length + 1;
      }
    }

    static method UnusedNumber(numbers: set<Ino>) returns (ino: Ino)
      ensures ino !in numbers
    {
      ino := 0;
      var rest := numbers;
      while rest != {}
        invariant rest <= numbers && forall i :: i in numbers && i !in rest ==> i < ino
      {
        var i :| i in rest;
        rest := rest - {i};
        if i >= ino { ino := i + 1; }
      }
    }

    static method LongestBase(names: set<Name>) returns (length: nat)
      ensures forall n :: n in names ==> |n.base| <= length
    {
      length := 0;
      var rest := names;
      while rest != {}
        invariant rest <= names && forall n :: n in names && n !in rest ==> |n.base| <= length
      {
        var n :| n in rest;
        rest := rest - {n};
        if |n.base| > length { length := |n.base|; }
      }
    }

    // mkdtemp beside a public name, with a random suffix that was never used.
    method MakePrivate(dir: Ino, prefix: string, owner: string) returns (r: Result<Capture>)
      requires Ready() && attempt.value.call.owner == owner
      requires if attempt.value.pc == Owning(MakeCapture) then dir == attempt.value.entry.source.value.dir && prefix == MOVE_PREFIX
               else attempt.value.pc == Removing(MakeContainer) && dir == attempt.value.call.target.dir && prefix == REMOVE_PREFIX
      modifies `disk, `events, `attempt
      ensures Valid() && old(events) <= events
      ensures if r.Ok? then
          && attempt == Some(old(attempt).value.(cap := r.value,
               pc := if prefix == MOVE_PREFIX then Owning(SaveCapture) else Removing(SaveRemoveIntent)))
          && r.value.at.dir == dir && prefix <= r.value.at.base
          && r.value.at in disk.containers && disk.containers[r.value.at] == Container(r.value.ino, owner)
        else Ended()
    {
      hide Attended, OutsideOk, NextLoad, NextRecover, NextOwnedSource, NextMove, NextCreate, NextRemove, NextFinish, NextAction, PickOk, Perform;
      Interfere();
      var _ :- Survive();
      var pick := Choose(None);
      var cap := Capture(Name(dir, prefix + pick.suffix), pick.ino);
      PrivateStep(start, events, attempt.value, pick);
      AttendedOn(events, began, mortal, interfering, Tick(pick));
      events := events + [Tick(pick)];
      attempt := Some(attempt.value.(cap := cap, pc := if prefix == MOVE_PREFIX then Owning(SaveCapture) else Removing(SaveRemoveIntent)));
      Contains(disk, cap.at, cap.ino, owner);
      disk := Perform(disk, Mkdtemp(cap.at, cap.ino, owner)).value;
      return Ok(cap);
    }

    // ---- safe-move ----

    // Makes a private directory beside the source and journals it before it is used.
    method AdmitCapture(owner: string, source: Name) returns (r: Result<Capture>)
      requires At(Owning(MakeCapture)) && attempt.value.call.owner == owner && entry.source == Some(source)
      modifies `disk, `journals, `entry, `events, `attempt
      ensures Valid() && old(events) <= events && OthersKept(old(journals), journals, owner)
      ensures if r.Ok? then
          entry == old(entry).(sourceCapture := Some(r.value)) &&
          attempt == Some(old(attempt).value.(cap := r.value, entry := entry, pc := Owning(CheckCapture)))
        else Ended()
    {
      hide Attended, Valid, OutsideOk, NextLoad, NextRecover, NextMove, NextCreate, NextRemove, NextFinish, Perform;
      var capture :- MakePrivate(source.dir, MOVE_PREFIX, owner);
      entry := entry.(sourceCapture := Some(capture));
      var _ :- WriteJournal(owner);
      return Ok(capture);
    }

    // The private directory is still the one the journal names; tells whether the source is in it.
    method InspectCapture(source: Name, capture: Capture, allow: bool) returns (r: Result<bool>)
      requires At(Owning(CheckCapture)) && attempt.value.cap == capture && attempt.value.allow == allow && entry.source == Some(source)
      modifies `disk, `events, `attempt
      ensures Valid() && old(events) <= events
      ensures if r.Ok? then
          attempt == Some(old(attempt).value.(pc := if r.value then Owning(VerifyCaptured) else Owning(VerifySource))) && (r.value || allow)
        else Ended()
    {
      hide Attended, Valid, OutsideOk, NextLoad, NextRecover, NextMove, NextCreate, NextRemove, NextFinish, Perform;
      var _ :- Observe();
      if !DirectoryAt(disk, capture.at, capture.ino) || capture.at.dir != source.dir || !(MOVE_PREFIX <= capture.at.base) {
        return Failed;
      }
      var _ :- Observe();
      var captured := CapturedSource(capture) in disk.names;
      if !captured && !allow { return Failed; }
      return Ok(captured);
    }

    // Verifies the source, then renames whatever the name denotes by then into the capture.
    method TakeSource(source: Name, identity: FileIdentity, capture: Capture) returns (r: Result<()>)
      requires At(Owning(VerifySource)) && attempt.value.cap == capture
      requires entry.source == Some(source) && entry.identity == Some(identity)
      modifies `disk, `events, `attempt
      ensures Valid() && old(events) <= events
      ensures if r.Ok? then attempt == Some(old(attempt).value.(pc := Owning(VerifyCaptured))) else Ended()
    {
      hide Attended, Valid, OutsideOk, NextLoad, NextRecover, NextMove, NextCreate, NextRemove, NextFinish, Perform;
      var _ :- Observe();
      if FileIdentityAt(disk, source) != Some(identity) { return Failed; }
      r := Make(Rename(source, CapturedSource(capture)));
    }

    // Verifies what the rename caught; an unrelated file that won the race gets its public name
    // back if that is vacant.
    method InspectCaptured(source: Name, identity: FileIdentity, capture: Capture, allow: bool) returns (r: Result<()>)
      requires At(Owning(VerifyCaptured)) && attempt.value.cap == capture && attempt.value.allow == allow
      requires entry.source == Some(source) && entry.identity == Some(identity)
      modifies `disk, `events, `attempt
      ensures Valid() && old(events) <= events
      ensures if r.Ok? then attempt == Some(old(attempt).value.(pc := Owning(UnlinkCaptured))) else Ended()
    {
      hide Attended, Valid, OutsideOk, NextLoad, NextRecover, NextMove, NextCreate, NextRemove, NextFinish, Perform;
      var _ :- Observe();
      var current := FileIdentityAt(disk, CapturedSource(capture));
      if current.None? { return Failed; }
      if current == Some(identity) { return Ok(()); }
      if allow { var _ :- Make(Link(CapturedSource(capture), source)); }
      return Failed;
    }

    method DeleteCaptured(capture: Capture) returns (r: Result<()>)
      requires At(Owning(UnlinkCaptured)) && attempt.value.cap == capture
      modifies `disk, `events, `attempt
      ensures Valid() && old(events) <= events
      ensures if r.Ok? then attempt == Some(old(attempt).value.(pc := Owning(ReadCompleted))) else Ended()
    {
      hide Attended, Valid, OutsideOk, NextLoad, NextRecover, NextMove, NextCreate, NextRemove, NextFinish, Perform;
      var _ :- Make(Unlink(CapturedSource(capture)));
      r := Make(Rmdir(capture.at));
    }

    // Takes the source away through a private capture.
    method RemoveOwnedSource(owner: string, source: Name, identity: FileIdentity, admitted: Option<Capture>, allow: bool)
      returns (r: Result<()>)
      requires At(if admitted.Some? then Owning(CheckCapture) else Owning(MakeCapture))
      requires attempt.value.call.owner == owner && attempt.value.allow == allow
      requires admitted.Some? ==> attempt.value.cap == admitted.value
      requires entry.source == Some(source) && entry.identity == Some(identity)
      modifies `disk, `journals, `entry, `events, `attempt
      ensures Valid() && old(events) <= events && OthersKept(old(journals), journals, owner)
      ensures if r.Ok? then At(Owning(ReadCompleted)) && attempt.value.call == old(attempt.value.call) else Ended()
      ensures r.Ok? ==> entry == old(entry).(sourceCapture := entry.sourceCapture)
    {
      hide Attended, Valid, OutsideOk, NextLoad, NextRecover, NextMove, NextCreate, NextRemove, NextFinish, Perform;
      hide NextOwnedSource, NextAction;
      var capture: Capture;
      if admitted.Some? {
        capture := admitted.value;
      } else {
        capture :- AdmitCapture(owner, source);
      }
      r := RemoveThrough(source, identity, capture, allow);
    }

    method RemoveThrough(source: Name, identity: FileIdentity, capture: Capture, allow: bool) returns (r: Result<()>)
      requires At(Owning(CheckCapture)) && attempt.value.cap == capture && attempt.value.allow == allow
      requires entry.source == Some(source) && entry.identity == Some(identity)
      modifies `disk, `events, `attempt
      ensures Valid() && old(events) <= events
      ensures if r.Ok? then attempt == Some(old(attempt).value.(pc := Owning(ReadCompleted))) else Ended()
    {
      hide Attended, Valid, OutsideOk, NextLoad, NextRecover, NextMove, NextCreate, NextRemove, NextFinish, Perform;
      hide NextOwnedSource, NextAction;
      var captured :- InspectCapture(source, capture, allow);
      if !captured {
        var _ :- TakeSource(source, identity, capture);
      }
      var _ :- InspectCaptured(source, identity, capture, allow);
      r := DeleteCaptured(capture);
    }

    method CompleteMove(owner: string) returns (r: Result<Journal>)
      requires At(Owning(ReadCompleted)) && attempt.value.call.owner == owner
      modifies `disk, `journals, `entry, `events, `attempt
      ensures Valid() && old(events) <= events && OthersKept(old(journals), journals, owner)
      ensures if r.Ok? then
          && attempt.Some? && attempt.value.pc == Returned(Some(r.value)) && attempt.value.call == old(attempt.value.call)
          && r.value == old(entry).(status := Completed)
        else Ended()
    {
      hide Attended, Valid, OutsideOk, NextLoad, NextRecover, NextMove, NextCreate, NextRemove, NextFinish, Perform;
      var _ :- Observe();
      if entry.destination !in disk.names { return Failed; }
      entry := entry.(status := Completed);
      var _ :- WriteJournal(owner);
      return Ok(entry);
    }

    // ---- moves ----

    // The two public names, as recoverMove finds them: None when the move must start afresh.
    method InspectMove() returns (r: Result<Option<Option<Node>>>)
      requires At(Recovering(StatSource))
      modifies `disk, `events, `attempt
      ensures Valid() && old(events) <= events
      ensures match r
        case Failed => Ended()
        case Ok(None) => attempt.Some? && Unstarted(attempt.value, old(attempt).value.call)
        case Ok(Some(source)) =>
          attempt == Some(old(attempt).value.(sourceSeen := source, pc := Recovering(StatCapture)))
    {
      hide Attended, Valid, OutsideOk, NextLoad, NextOwnedSource, NextMove, NextCreate, NextRemove, NextFinish, Perform;
      var _ :- Observe();
      var source := StatAt(disk, entry.source.value);
      var _ :- Observe();
      var destination := StatAt(disk, entry.destination);
      if destination.None? { return Ok(None); }
      if destination.value.File? {
        r := MatchDestination(source);
      } else if source.Some? {
        r := Ok(None);
      } else {
        r := Failed;
      }
    }

    method MatchDestination(source: Option<Node>) returns (r: Result<Option<Option<Node>>>)
      requires At(Recovering(ReadDestination)) && attempt.value.sourceSeen == source
      modifies `disk, `events, `attempt
      ensures Valid() && old(events) <= events
      ensures match r
        case Failed => Ended()
        case Ok(None) => attempt.Some? && Unstarted(attempt.value, old(attempt).value.call)
        case Ok(Some(s)) => s == source && attempt == Some(old(attempt).value.(pc := Recovering(StatCapture)))
    {
      hide Attended, Valid, OutsideOk, NextLoad, NextOwnedSource, NextMove, NextCreate, NextRemove, NextFinish, Perform;
      var _ :- Observe();
      var found := FileIdentityAt(disk, entry.destination);
      if found.None? { return Failed; }
      if found != entry.identity {
        if source.None? { return Failed; }
        return Ok(None);
      }
      return Ok(Some(source));
    }

    // What is left of the journaled capture, and whether the source is in it.
    method InspectLeftovers() returns (r: Result<Leftovers>)
      requires At(Recovering(StatCapture))
      modifies `disk, `events, `attempt
      ensures Valid() && old(events) <= events
      ensures if r.Ok? then attempt.Some? && Inspected(old(attempt).value, attempt.value, r.value) else Ended()
    {
      hide Attended, Valid, OutsideOk, NextLoad, NextOwnedSource, NextMove, NextCreate, NextRemove, NextFinish, Perform;
      var _ :- Observe();
      var capture := entry.sourceCapture;
      if capture.None? || capture.value.at !in disk.names {
        return Ok(Leftovers(None, false, false));
      }
      var same := DirectoryAt(disk, capture.value.at, capture.value.ino);
      var _ :- Observe();
      return Ok(Leftovers(capture, same, CapturedSource(capture.value) in disk.names));
    }

    // Clears the source name and the capture, whichever of them is left.
    method ClearSource(owner: string, finish: bool, source: Option<Node>, left: Leftovers, ghost before: Attempt) returns (r: Result<()>)
      requires Valid() && attempt.Some? && Inspected(before, attempt.value, left) && before.sourceSeen == source && before.entry == entry
      requires before.call.owner == owner && finish == before.call.MoveCall? && entry.source.Some? && entry.identity.Some?
      modifies `disk, `journals, `entry, `events, `attempt
      ensures Valid() && old(events) <= events && OthersKept(old(journals), journals, owner)
      ensures if r.Ok? then At(Owning(ReadCompleted)) && attempt.value.call == before.call else Ended()
      ensures r.Ok? ==> entry == old(entry).(sourceCapture := entry.sourceCapture)
    {
      hide Attended, Valid, OutsideOk, NextLoad, NextOwnedSource, NextMove, NextCreate, NextRemove, NextFinish, Perform;
      if left.captured {
        r := RemoveOwnedSource(owner, entry.source.value, entry.identity.value, left.seen, false);
      } else if source.Some? {
        if !finish || !source.value.File? { return Failed; }
        var _ :- Observe();
        if FileIdentityAt(disk, entry.source.value) != entry.identity { return Failed; }
        r := RemoveOwnedSource(owner, entry.source.value, entry.identity.value, left.seen, true);
      } else if left.seen.Some? {
        if !left.same { return Failed; }
        r := Make(Rmdir(left.seen.value.at));
      } else {
        r := Ok(());
      }
    }

    // Finishes what the journal proves to be a linked move.  Ok(None) admits nothing.
    method RecoverMove(owner: string, finish: bool) returns (r: Result<Option<Journal>>)
      requires Valid() && attempt.Some? && attempt.value.call.owner == owner && finish == attempt.value.call.MoveCall?
      requires if entry.status == Completed then attempt.value.pc == Returned(Some(entry)) else At(Recovering(StatSource))
      modifies `disk, `journals, `entry, `events, `attempt
      ensures Valid() && old(events) <= events && OthersKept(old(journals), journals, owner)
      ensures match r
        case Failed => Ended()
        case Ok(None) => attempt.Some? && Unstarted(attempt.value, old(attempt).value.call)
        case Ok(Some(j)) =>
          && attempt.Some? && attempt.value.call == old(attempt).value.call && attempt.value.pc == Returned(Some(j))
          && j == old(entry).(status := Completed, sourceCapture := j.sourceCapture)
      ensures old(entry).status == Completed ==> r == Ok(Some(old(entry))) && journals == old(journals)
    {
      hide Attended, Valid, OutsideOk, NextLoad, NextRecover, NextOwnedSource, NextMove, NextCreate, NextRemove, NextFinish, Perform, NextAction,
        Inspected, NoCapturedSource, Lookup;
      if entry.status == Completed { return Ok(Some(entry)); }
      var source :- InspectMove();
      if source.None? { return Ok(None); }
      ghost var before := attempt.value;
      var left :- InspectLeftovers();
      var _ :- ClearSource(owner, finish, source.value, left, before);
      var done :- CompleteMove(owner);
      return Ok(Some(done));
    }

    // link() fails if the destination exists and never replaces it.
    method MoveWithoutReplacement(owner: string, source: Name, destination: Name, checksum: Option<string>) returns (r: Result<()>)
      requires Ready() && attempt.value.pc == Moving(ReadSource) && attempt.value.call == MoveCall(owner, source, destination, checksum)
      modifies `disk, `journals, `entry, `events, `attempt
      ensures Valid() && old(events) <= events && OthersKept(old(journals), journals, owner)
      ensures if r.Ok? then
          && At(Owning(ReadCompleted)) && attempt.value.call == old(attempt).value.call
          && MoveAuthority(entry, attempt.value.call)
        else Ended()
    {
      hide Attended, Valid, OutsideOk, NextLoad, NextRecover, NextOwnedSource, NextMove, NextCreate, NextRemove, NextFinish, Perform;
      var identity :- ReserveDestination(owner, source, destination, checksum);
      r := RemoveOwnedSource(owner, source, identity, None, true);
    }

    method ReserveDestination(owner: string, source: Name, destination: Name, checksum: Option<string>) returns (r: Result<FileIdentity>)
      requires Ready() && attempt.value.pc == Moving(ReadSource) && attempt.value.call == MoveCall(owner, source, destination, checksum)
      modifies `disk, `journals, `entry, `events, `attempt
      ensures Valid() && old(events) <= events && OthersKept(old(journals), journals, owner)
      ensures if r.Ok? then
          && At(Owning(MakeCapture)) && attempt.value.call == old(attempt).value.call && attempt.value.allow
          && entry == Journal(Move, Some(source), destination, Linked, Some(r.value), false, None, None, None)
          && (Given(checksum) ==> r.value.digest == checksum.value)
        else Ended()
    {
      hide Attended, Valid, OutsideOk, NextLoad, NextRecover, NextOwnedSource, NextCreate, NextRemove, NextFinish, Perform;
      r := JournalIntent(owner, source, destination, checksum);
      if r.Ok? {
        var _ :- LinkDestination(owner, source, destination);
      }
    }

    method JournalIntent(owner: string, source: Name, destination: Name, checksum: Option<string>) returns (r: Result<FileIdentity>)
      requires Ready() && attempt.value.pc == Moving(ReadSource) && attempt.value.call == MoveCall(owner, source, destination, checksum)
      modifies `disk, `journals, `entry, `events, `attempt
      ensures Valid() && old(events) <= events && OthersKept(old(journals), journals, owner)
      ensures if r.Ok? then
          && At(Moving(MovePc.LinkDestination)) && attempt.value.call == old(attempt).value.call
          && entry == Journal(Move, Some(source), destination, Intent, Some(r.value), false, None, None, None)
          && (Given(checksum) ==> r.value.digest == checksum.value)
        else Ended()
    {
      hide Attended, Valid, OutsideOk, NextLoad, NextRecover, NextOwnedSource, NextCreate, NextRemove, NextFinish, Perform, Typed;
      var _ :- Observe();
      WellTyped();
      var identity := FileIdentityAt(disk, source);
      if identity.None? || (Given(checksum) && identity.value.digest != checksum.value) { return Failed; }
      entry := Journal(Move, Some(source), destination, Intent, identity, false, None, None, None);
      var _ :- WriteJournal(owner);
      WellTyped();
      return Ok(identity.value);
    }

    method LinkDestination(owner: string, source: Name, destination: Name) returns (r: Result<()>)
      requires At(Moving(MovePc.LinkDestination)) && entry.kind == Move
      requires attempt.value.call.owner == owner && attempt.value.call.source == source && attempt.value.call.destination == destination
      modifies `disk, `journals, `entry, `events, `attempt
      ensures Valid() && old(events) <= events && OthersKept(old(journals), journals, owner)
      ensures if r.Ok? then
          && entry == old(entry).(status := Linked)
          && attempt == Some(old(attempt).value.(entry := entry, allow := true, pc := Owning(MakeCapture)))
        else Ended()
    {
      hide Attended, Valid, OutsideOk, NextLoad, NextRecover, NextOwnedSource, NextCreate, NextRemove, NextFinish, Perform;
      var _ :- Make(Link(source, destination));
      var _ :- Observe();
      if FileIdentityAt(disk, destination) != entry.identity { return Failed; }
      entry := entry.(status := Linked);
      var _ :- WriteJournal(owner);
      return Ok(());
    }

    method Begin(call: Call)
      requires Idle() && CallOk(disk, call)
      modifies `events, `attempt, `began
      ensures Valid() && Begun(old(events), call) && attempt == Some(Protocol.Begin(call))
    {
      Append(start, events, Start(call));
      began := |events|;
      events := events + [Start(call)];
      attempt := Some(Protocol.Begin(call));
    }

    // Admits a call and reads its owner's journal.
    method Admit(call: Call) returns (r: Result<Option<Journal>>)
      requires Idle() && CallOk(disk, call)
      modifies `disk, `events, `attempt, `began
      ensures Valid() && Begun(old(events), call)
      ensures if r.Ok? then
          && r.value == Lookup(journals, call.owner) && attempt == Some(NextLoad(journals, Protocol.Begin(call)).next)
          && Typed(attempt.value) && NextLoad(journals, Protocol.Begin(call)).Go?
        else Ended()
    {
      hide Attended, Valid, OutsideOk, NextRecover, NextOwnedSource, NextMove, NextCreate, NextRemove, NextFinish, Perform;
      Begin(call);
      var _ :- Observe();
      WellTyped();
      return Ok(Lookup(journals, call.owner));
    }

    lemma WellTyped()
      requires Valid() && attempt.Some?
      ensures Typed(attempt.value)
    {
      InvAlways(start, events);
    }

    method JournaledMove(owner: string, source: Name, destination: Name, checksum: Option<string>) returns (r: Result<Journal>)
      requires Idle() && CallOk(disk, MoveCall(owner, source, destination, checksum))
      modifies this
      ensures Idle() && Begun(old(events), MoveCall(owner, source, destination, checksum)) && OthersKept(old(journals), journals, owner)
      ensures if r.Failed? then Ended() else attempt.Some? && attempt.value.pc == Returned(Some(r.value))
      ensures r.Ok? ==>
        && Lookup(journals, owner) == Some(r.value) && r.value.status == Completed
        && MoveAuthority(r.value, MoveCall(owner, source, destination, checksum))
      ensures owner in old(journals) && old(journals)[owner].status == Completed ==>
        journals == old(journals) && (r.Ok? ==> r.value == old(journals)[owner])
    {
      hide Attended, Valid, OutsideOk, NextRecover, NextOwnedSource, NextMove, NextCreate, NextRemove, NextFinish, Perform;
      var existing :- Admit(MoveCall(owner, source, destination, checksum));
      if existing.Some? {
        if !MoveAuthority(existing.value, MoveCall(owner, source, destination, checksum)) { return Failed; }
        entry := existing.value;
        var recovered :- RecoverMove(owner, true);
        if recovered.Some? {
          Outcome();
          return Ok(recovered.value);
        }
      }
      var _ :- MoveWithoutReplacement(owner, source, destination, checksum);
      r := CompleteMove(owner);
      if r.Ok? { Outcome(); }
    }

    // A returned outcome is the one on record.
    lemma Outcome()
      requires Valid() && attempt.Some?
      ensures Reported(journals, attempt.value)
    {
      OutcomesAreRecorded(start, events);
    }

    // ---- folders ----

    // mkdir; an occupied name is left for the caller to look at.
    method MakeFolder(destination: Name) returns (r: Result<bool>)
      requires At(Creating(CreatePc.MakeFolder)) && attempt.value.call.destination == destination
      modifies `disk, `events, `attempt
      ensures Valid() && old(events) <= events
      ensures if r.Ok? then
          attempt == Some(old(attempt).value.(entry := if r.value then entry.(created := true) else entry, pc := Creating(StatMade)))
        else Ended()
    {
      hide Attended, OutsideOk, NextLoad, NextRecover, NextOwnedSource, NextMove, NextRemove, NextFinish, NextCreate, NextAction, PickOk;
      Interfere();
      var _ :- Survive();
      var pick := Choose(None);
      FolderStep(start, events, attempt.value, pick);
      AttendedOn(events, began, mortal, interfering, Tick(pick));
      events := events + [Tick(pick)];
      var result := Perform(disk, Mkdir(destination, pick.ino));
      if result.Some? {
        disk := result.value;
        attempt := Some(attempt.value.(entry := entry.(created := true), pc := Creating(StatMade)));
        return Ok(true);
      }
      attempt := Some(attempt.value.(pc := Creating(StatMade)));
      return Ok(false);
    }

    method CreateFolder(owner: string, destination: Name) returns (r: Result<Journal>)
      requires Ready() && attempt.value.pc == Creating(SaveFolderIntent) && attempt.value.call == CreateCall(owner, destination)
      modifies `disk, `journals, `entry, `events, `attempt
      ensures Valid() && old(events) <= events && OthersKept(old(journals), journals, owner)
      ensures if r.Ok? then
          && attempt.Some? && attempt.value.pc == Returned(Some(r.value)) && attempt.value.call == old(attempt).value.call
          && r.value.kind == Kind.CreateFolder && r.value.destination == destination
        else Ended()
    {
      hide Attended, Valid, OutsideOk, NextLoad, NextRecover, NextOwnedSource, NextMove, NextRemove, NextFinish, Perform;
      entry := Journal(Kind.CreateFolder, None, destination, Intent, None, false, None, None, None);
      var _ :- WriteJournal(owner);
      var created :- MakeFolder(destination);
      entry := entry.(created := created);
      r := RecordFolder(owner, destination);
    }

    method RecordFolder(owner: string, destination: Name) returns (r: Result<Journal>)
      requires At(Creating(StatMade)) && attempt.value.call == CreateCall(owner, destination)
      modifies `disk, `journals, `entry, `events, `attempt
      ensures Valid() && old(events) <= events && OthersKept(old(journals), journals, owner)
      ensures if r.Ok? then
          && attempt.Some? && attempt.value.pc == Returned(Some(r.value)) && attempt.value.call == old(attempt).value.call
          && r.value == old(entry).(identity := r.value.identity, status := Completed)
        else Ended()
    {
      hide Attended, Valid, OutsideOk, NextLoad, NextRecover, NextOwnedSource, NextMove, NextRemove, NextFinish, Perform;
      var _ :- Observe();
      if StatAt(disk, destination) != Some(Directory) { return Failed; }
      entry := entry.(identity := Some(FileIdentity(disk.names[destination], "")), status := Completed);
      var _ :- WriteJournal(owner);
      return Ok(entry);
    }

    method JournaledCreateFolder(owner: string, destination: Name) returns (r: Result<Journal>)
      requires Idle() && CallOk(disk, CreateCall(owner, destination))
      modifies this
      ensures Idle() && Begun(old(events), CreateCall(owner, destination)) && OthersKept(old(journals), journals, owner)
      ensures if r.Failed? then Ended() else attempt.Some? && attempt.value.pc == Returned(Some(r.value))
      ensures r.Ok? ==>
        && Lookup(journals, owner) == Some(r.value) && r.value.status == Completed
        && CreateAuthority(r.value, CreateCall(owner, destination))
      ensures owner in old(journals) && old(journals)[owner].status == Completed ==>
        journals == old(journals) && (r.Ok? ==> r.value == old(journals)[owner])
    {
      hide Attended, Valid, OutsideOk, NextRecover, NextOwnedSource, NextMove, NextRemove, NextFinish, Perform;
      var existing :- Admit(CreateCall(owner, destination));
      if existing.Some? {
        if !CreateAuthority(existing.value, CreateCall(owner, destination)) { return Failed; }
        entry := existing.value;
        if entry.status == Completed {
          Outcome();
          return Ok(entry);
        }
        var _ :- Observe();
        if destination in disk.names { return Failed; }
      }
      r := CreateFolder(owner, destination);
      if r.Ok? { Outcome(); }
    }

    // Only the exact empty private directory may be cleaned; the public name is never revisited.
    method CleanupCompletedDirectoryRemoval(capture: Capture) returns (r: Result<Journal>)
      requires At(Finishing(CleanStat)) && attempt.value.cap == capture
      modifies `disk, `events, `attempt
      ensures Valid() && old(events) <= events
      ensures if r.Ok? then r.value == entry && attempt == Some(old(attempt).value.(pc := Returned(Some(entry)))) else Ended()
    {
      hide Attended, Valid, OutsideOk, NextLoad, NextRecover, NextOwnedSource, NextMove, NextCreate, NextRemove, Perform;
      var remaining :- InspectContainer(capture);
      if remaining {
        var _ :- Make(Rmdir(capture.at));
      }
      return Ok(entry);
    }

    method InspectContainer(capture: Capture) returns (r: Result<bool>)
      requires At(Finishing(CleanStat)) && attempt.value.cap == capture
      modifies `disk, `events, `attempt
      ensures Valid() && old(events) <= events
      ensures if r.Ok? then
          attempt == Some(old(attempt).value.(pc := if r.value then Finishing(CleanRemove) else Returned(Some(entry))))
        else Ended()
    {
      hide Attended, Valid, OutsideOk, NextLoad, NextRecover, NextOwnedSource, NextMove, NextCreate, NextRemove, Perform;
      var _ :- Observe();
      if capture.at !in disk.names { return Ok(false); }
      if !DirectoryAt(disk, capture.at, capture.ino) { return Failed; }
      var _ :- Observe();
      if capture.at !in disk.names || !Empty(disk, disk.names[capture.at]) { return Failed; }
      return Ok(true);
    }

    // Gives a raced foreign directory its public name back, where that is vacant: recreated
    // exclusively and copied, entry by entry, without replacing anything.  The call still fails.
    method ExposeForeignCapturedDirectory()
      requires At(Finishing(ExposeStat))
      modifies `disk, `events, `attempt
      ensures Ended() && old(events) <= events
    {
      hide Attended, Valid, OutsideOk, NextLoad, NextRecover, NextOwnedSource, NextMove, NextCreate, NextRemove, Perform;
      var r := Observe();
      if r.Failed? || entry.destination in disk.names { return; }
      r := CreateExclusively(true);
      var entries: nat := *;
      while r.Ok? && entries > 0
        invariant Valid() && old(events) <= events
        invariant if r.Ok? then At(Finishing(ExposeCopy)) else Ended()
      {
        r := CreateExclusively(false);
        entries := entries - 1;
      }
      if r.Ok? { EndCopy(); }
    }

    // The copy is done; the call throws all the same.
    method EndCopy()
      requires At(Finishing(ExposeCopy))
      modifies `disk, `events, `attempt
      ensures Ended() && old(events) <= events
    {
      hide Attended, OutsideOk, NextLoad, NextRecover, NextOwnedSource, NextMove, NextRemove, NextCreate, NextFinish, NextAction, PickOk, Perform;
      Interfere();
      var r := Survive();
      if r.Failed? { return; }
      var pick := Choose(None);
      CopyEnds(start, events, attempt.value, pick);
      AttendedOn(events, began, mortal, interfering, Tick(pick));
      events := events + [Tick(pick)];
      attempt := Some(attempt.value.(pc := Threw));
    }

    // mkdir of the public name, or one exclusive creation of a recursive copy.
    method CreateExclusively(folder: bool) returns (r: Result<()>)
      requires At(if folder then Finishing(ExposeMake) else Finishing(ExposeCopy))
      modifies `disk, `events, `attempt
      ensures Valid() && old(events) <= events
      ensures if r.Ok? then attempt == Some(old(attempt).value.(pc := Finishing(ExposeCopy))) else Ended()
    {
      hide Attended, OutsideOk, NextLoad, NextRecover, NextOwnedSource, NextMove, NextRemove, NextCreate, NextFinish, NextAction, PickOk, Perform;
      Interfere();
      var _ :- Survive();
      var copy: (Name, Node) := *;
      if !folder && !Public(disk, copy.0) { return Ok(()); }
      var pick := Choose(if folder then None else Some(copy));
      var call := if folder then Mkdir(entry.destination, pick.ino) else Create(copy.0, pick.ino, copy.1);
      r := Expose(pick, call);
    }

    method Expose(ghost pick: Pick, call: Syscall) returns (r: Result<()>)
      requires Ready() && PickOk(disk, pick) && Exposes(attempt.value, pick, call)
      modifies `disk, `events, `attempt
      ensures Valid() && old(events) <= events
      ensures if r.Ok? then attempt == Some(old(attempt).value.(pc := Finishing(ExposeCopy))) else Ended()
    {
      hide Attended, OutsideOk, NextLoad, NextRecover, NextOwnedSource, NextMove, NextRemove, NextCreate, NextFinish, NextAction, PickOk, Perform,
        Exposes;
      ExposeStep(start, events, attempt.value, pick, call);
      AttendedOn(events, began, mortal, interfering, Tick(pick));
      events := events + [Tick(pick)];
      var result := Perform(disk, call);
      if result.None? {
        attempt := Some(attempt.value.(pc := Threw));
        return Failed;
      }
      disk := result.value;
      attempt := Some(attempt.value.(pc := Finishing(ExposeCopy)));
      return Ok(());
    }

    // The directory the rename captured, once verified to be the owned one and empty; None when it
    // is gone and the journal proves the removal.
    method InspectCapturedDirectory(capture: Capture, identity: FileIdentity) returns (r: Result<bool>)
      requires At(Finishing(FinishContainer)) && attempt.value.cap == capture && entry.identity == Some(identity)
      modifies `disk, `events, `attempt
      ensures Valid() && old(events) <= events
      ensures if r.Ok? then
          attempt == Some(old(attempt).value.(pc := if r.value then Finishing(ListDirectory) else Finishing(SaveRemoved)))
        else Ended()
    {
      hide Attended, Valid, OutsideOk, NextLoad, NextRecover, NextOwnedSource, NextMove, NextCreate, NextRemove, Perform;
      var _ :- Observe();
      if !DirectoryAt(disk, capture.at, capture.ino) { return Failed; }
      var _ :- Observe();
      var captured := CapturedDirectory(capture);
      if captured !in disk.names {
        // LINKED proves that the owned directory reached the private capture; absence alone does not.
        return if entry.status == Linked then Ok(false) else Failed;
      }
      if DirectoryAt(disk, captured, identity.ino) { return Ok(true); }
      if StatAt(disk, captured) == Some(Directory) { ExposeForeignCapturedDirectory(); }
      return Failed;
    }

    method RemoveCapturedDirectory(owner: string, capture: Capture) returns (r: Result<()>)
      requires At(Finishing(ListDirectory)) && attempt.value.cap == capture && attempt.value.call.owner == owner
      modifies `disk, `journals, `entry, `events, `attempt
      ensures Valid() && old(events) <= events && OthersKept(old(journals), journals, owner)
      ensures if r.Ok? then
          && entry == old(entry).(status := Linked)
          && attempt == Some(old(attempt).value.(entry := entry, pc := Finishing(SaveRemoved)))
        else Ended()
    {
      hide Attended, Valid, OutsideOk, NextLoad, NextRecover, NextOwnedSource, NextMove, NextCreate, NextRemove, Perform;
      var _ :- JournalProof(owner, capture);
      r := Make(Rmdir(CapturedDirectory(capture)));
    }

    method JournalProof(owner: string, capture: Capture) returns (r: Result<()>)
      requires At(Finishing(ListDirectory)) && attempt.value.cap == capture && attempt.value.call.owner == owner
      modifies `disk, `journals, `entry, `events, `attempt
      ensures Valid() && old(events) <= events && OthersKept(old(journals), journals, owner)
      ensures if r.Ok? then
          && entry == old(entry).(status := Linked)
          && attempt == Some(old(attempt).value.(entry := entry, pc := Finishing(RemoveDirectory)))
        else Ended()
    {
      hide Attended, Valid, OutsideOk, NextLoad, NextRecover, NextOwnedSource, NextMove, NextCreate, NextRemove, Perform;
      var _ :- Observe();
      var captured := CapturedDirectory(capture);
      if captured !in disk.names || !Empty(disk, disk.names[captured]) { return Failed; }
      entry := entry.(status := Linked);
      r := WriteJournal(owner);
    }

    method FinishDirectoryRemoval(owner: string, capture: Capture) returns (r: Result<Journal>)
      requires At(Finishing(FinishContainer)) && attempt.value.cap == capture && attempt.value.call.owner == owner
      modifies `disk, `journals, `entry, `events, `attempt
      ensures Valid() && old(events) <= events && OthersKept(old(journals), journals, owner)
      ensures if r.Ok? then
          && attempt.Some? && attempt.value.pc == Returned(Some(r.value)) && attempt.value.call == old(attempt).value.call
          && r.value == old(entry).(status := Completed)
        else Ended()
    {
      hide Attended, Valid, OutsideOk, NextLoad, NextRecover, NextOwnedSource, NextMove, NextCreate, NextRemove, NextFinish, Perform, NextAction;
      var present :- InspectCapturedDirectory(capture, entry.identity.value);
      if present {
        var _ :- RemoveCapturedDirectory(owner, capture);
      }
      r := RecordRemoval(owner, capture);
    }

    method RecordRemoval(owner: string, capture: Capture) returns (r: Result<Journal>)
      requires At(Finishing(SaveRemoved)) && attempt.value.cap == capture && attempt.value.call.owner == owner
      modifies `disk, `journals, `entry, `events, `attempt
      ensures Valid() && old(events) <= events && OthersKept(old(journals), journals, owner)
      ensures if r.Ok? then
          && attempt.Some? && attempt.value.pc == Returned(Some(r.value)) && attempt.value.call == old(attempt).value.call
          && r.value == old(entry).(status := Completed)
        else Ended()
    {
      hide Attended, Valid, OutsideOk, NextLoad, NextRecover, NextOwnedSource, NextMove, NextCreate, NextRemove, Perform;
      entry := entry.(status := Completed);
      var _ :- WriteJournal(owner);
      r := CleanupCompletedDirectoryRemoval(capture);
    }

    // Checks that the public folder is the empty one this owner's plan created.
    method InspectTarget(target: Name, original: Option<Journal>) returns (r: Result<()>)
      requires Ready() && attempt.value.pc == Removing(StatTarget) && attempt.value.original == original
      requires attempt.value.call.RemoveCall? && attempt.value.call.target == target
      modifies `disk, `events, `attempt
      ensures Valid() && old(events) <= events
      ensures if r.Ok? then attempt == Some(old(attempt).value.(pc := Removing(MakeContainer))) && original.Some? else Ended()
    {
      hide Attended, Valid, OutsideOk, NextLoad, NextRecover, NextOwnedSource, NextMove, NextCreate, NextFinish, Perform;
      var _ :- Observe();
      if !OwnedTarget(disk, original, target) { return Failed; }
      var _ :- Observe();
      if StatAt(disk, target) != Some(Directory) || !Empty(disk, disk.names[target]) { return Failed; }
      return Ok(());
    }

    // Captures first, then lets finishDirectoryRemoval verify what the rename actually captured.
    method CaptureTarget(owner: string, originalOwner: string, target: Name, original: Journal) returns (r: Result<Capture>)
      requires Ready() && attempt.value.pc == Removing(MakeContainer) && attempt.value.original == Some(original)
      requires attempt.value.call == RemoveCall(owner, originalOwner, target)
      modifies `disk, `journals, `entry, `events, `attempt
      ensures Valid() && old(events) <= events && OthersKept(old(journals), journals, owner)
      ensures if r.Ok? then
          && At(Finishing(FinishContainer)) && attempt.value.cap == r.value && attempt.value.call == old(attempt).value.call
          && entry == Journal(RemoveFolder, Some(target), target, Intent, original.identity, false, Some(originalOwner), None, Some(r.value))
        else Ended()
    {
      hide Attended, Valid, OutsideOk, NextLoad, NextRecover, NextOwnedSource, NextMove, NextCreate, NextFinish, Perform;
      r := JournalRemoval(owner, originalOwner, target, original);
      if r.Ok? {
        var _ :- Make(Rename(target, CapturedDirectory(r.value)));
        WellTyped();
      }
    }

    // Makes a private directory beside the folder and journals the intent that names it.
    method JournalRemoval(owner: string, originalOwner: string, target: Name, original: Journal) returns (r: Result<Capture>)
      requires Ready() && attempt.value.pc == Removing(MakeContainer) && attempt.value.original == Some(original)
      requires attempt.value.call == RemoveCall(owner, originalOwner, target)
      modifies `disk, `journals, `entry, `events, `attempt
      ensures Valid() && old(events) <= events && OthersKept(old(journals), journals, owner)
      ensures if r.Ok? then
          && At(Removing(RenameTarget)) && attempt.value.cap == r.value && attempt.value.call == old(attempt).value.call
          && entry == Journal(RemoveFolder, Some(target), target, Intent, original.identity, false, Some(originalOwner), None, Some(r.value))
        else Ended()
    {
      hide Attended, Valid, OutsideOk, NextLoad, NextRecover, NextOwnedSource, NextMove, NextCreate, NextFinish, Perform;
      var capture :- MakePrivate(target.dir, REMOVE_PREFIX, owner);
      entry := Journal(RemoveFolder, Some(target), target, Intent, original.identity, false, Some(originalOwner), None, Some(capture));
      var _ :- WriteJournal(owner);
      return Ok(capture);
    }

    method JournaledRemoveFolder(owner: string, originalOwner: string, target: Name) returns (r: Result<Journal>)
      requires Idle() && CallOk(disk, RemoveCall(owner, originalOwner, target))
      modifies this
      ensures Idle() && Begun(old(events), RemoveCall(owner, originalOwner, target)) && OthersKept(old(journals), journals, owner)
      ensures if r.Failed? then Ended() else attempt.Some? && attempt.value.pc == Returned(Some(r.value))
      ensures r.Ok? ==>
        && Lookup(journals, owner) == Some(r.value) && r.value.status == Completed
        && RemoveAuthority(r.value, RemoveCall(owner, originalOwner, target))
      ensures owner in old(journals) && old(journals)[owner].status == Completed ==>
        journals == old(journals) && (r.Ok? ==> r.value == old(journals)[owner])
    {
      hide Attended, Valid, OutsideOk, NextRecover, NextOwnedSource, NextMove, NextCreate, NextRemove, NextFinish, Perform;
      var existing :- Admit(RemoveCall(owner, originalOwner, target));
      if existing.Some? && !RemoveAuthority(existing.value, RemoveCall(owner, originalOwner, target)) { return Failed; }
      if existing.Some? && (existing.value.status == Completed || existing.value.directoryCapture.Some?) {
        r := ResumeRemoval(owner, existing.value);
        return;
      }
      var original := Lookup(journals, originalOwner);
      var _ :- InspectTarget(target, original);
      var capture :- CaptureTarget(owner, originalOwner, target, original.value);
      r := FinishDirectoryRemoval(owner, capture);
      if r.Ok? { Outcome(); }
    }

    // A removal that has been journaled already: tidies up a recorded outcome, or finishes.
    method ResumeRemoval(owner: string, existing: Journal) returns (r: Result<Journal>)
      requires Valid() && attempt.Some? && Typed(attempt.value) && attempt.value.call.owner == owner
      requires existing.kind == RemoveFolder && (existing.status == Completed || existing.directoryCapture.Some?)
      requires attempt.value.entry == existing && Lookup(journals, owner) == Some(existing)
      requires attempt.value.pc ==
        if existing.directoryCapture.None? then Returned(Some(existing))
        else if existing.status == Completed then Finishing(CleanStat) else Finishing(FinishContainer)
      requires existing.directoryCapture.Some? ==> attempt.value.cap == existing.directoryCapture.value
      modifies `disk, `journals, `entry, `events, `attempt
      ensures Idle() && old(events) <= events && OthersKept(old(journals), journals, owner)
      ensures r.Ok? ==> Lookup(journals, owner) == Some(r.value) && r.value == existing.(status := Completed)
      ensures if r.Ok? then attempt.Some? && attempt.value.pc == Returned(Some(r.value)) else Ended()
      ensures existing.status == Completed ==> journals == old(journals)
    {
      hide Attended, Valid, OutsideOk, NextLoad, NextRecover, NextOwnedSource, NextMove, NextCreate, NextRemove, NextFinish, Perform, NextAction;
      entry := existing;
      if existing.directoryCapture.None? { return Ok(existing); }
      if existing.status == Completed {
        r := CleanupCompletedDirectoryRemoval(existing.directoryCapture.value);
      } else {
        r := FinishDirectoryRemoval(owner, existing.directoryCapture.value);
      }
      if r.Ok? { Outcome(); }
    }

    // Records only outcomes that are already owned; it admits no new effect.
    method RecoverPhysicalAction(owner: string, expected: Option<Binding>) returns (r: Result<Option<Journal>>)
      requires Idle()
      modifies this
      ensures Idle() && Begun(old(events), RecoverCall(owner, expected)) && OthersKept(old(journals), journals, owner)
      ensures if r.Failed? then Ended() else attempt.Some? && attempt.value.pc == Returned(r.value)
      ensures r.Ok? && r.value.Some? ==>
        && Lookup(journals, owner) == r.value && r.value.value.status == Completed
        && (expected.Some? ==> RecoverAuthority(r.value.value, expected.value))
      ensures owner !in old(journals) ==> journals == old(journals) && (r.Ok? ==> r.value.None?)
      ensures owner in old(journals) && old(journals)[owner].status == Completed ==>
        journals == old(journals) && (r.Ok? ==> r.value == Some(old(journals)[owner]))
    {
      hide Attended, Valid, OutsideOk, NextRecover, NextOwnedSource, NextMove, NextCreate, NextRemove, NextFinish, Perform;
      var existing :- Admit(RecoverCall(owner, expected));
      if existing.None? { return Ok(None); }
      if expected.Some? && !RecoverAuthority(existing.value, expected.value) { return Failed; }
      if existing.value.kind == RemoveFolder && (existing.value.status == Completed || existing.value.directoryCapture.Some?) {
        var removed :- ResumeRemoval(owner, existing.value);
        return Ok(Some(removed));
      }
      entry := existing.value;
      if entry.kind == Move {
        r := RecoverMove(owner, false);
      } else {
        r := if entry.status == Completed then Ok(Some(entry)) else Failed;
      }
      if r.Ok? { Outcome(); }
    }
  }
}
