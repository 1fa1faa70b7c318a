// The journaled filesystem protocol as a step machine: one program counter per system call or
// durable journal write, with other programs and process death between any two of them.
module Protocol {
  import opened Wrappers
  import opened FileSystem

  datatype Kind = Move | CreateFolder | RemoveFolder
  datatype Status = Intent | Linked | Completed
  datatype Capture = Capture(at: Name, ino: Ino)

  // One durable journal file, keyed by its owner.
  datatype Journal = Journal(
    kind: Kind, source: Option<Name>, destination: Name, status: Status,
    identity: Option<FileIdentity>, created: bool, originalOwner: Option<string>,
    sourceCapture: Option<Capture>, directoryCapture: Option<Capture>)

  datatype Binding = Binding(kind: Kind, source: Option<Name>, destination: Name,
                             checksum: Option<string>, originalOwner: Option<string>)

  datatype Call =
    | MoveCall(owner: string, source: Name, destination: Name, checksum: Option<string>)
    | CreateCall(owner: string, destination: Name)
    | RemoveCall(owner: string, originalOwner: string, target: Name)
    | RecoverCall(owner: string, expected: Option<Binding>)

  // recoverMove
  datatype RecoverPc = StatSource | StatDestination | ReadDestination | StatCapture | StatCaptured
                     | ReadSourceAgain | RemoveContainer
  // moveWithoutReplacement
  datatype MovePc = ReadSource | SaveIntent | LinkDestination | VerifyDestination | SaveLinked
  // removeOwnedSource and completeMove
  datatype OwnPc = MakeCapture | SaveCapture | CheckCapture | StatCapturedSource | VerifySource
                 | RenameSource | VerifyCaptured | RestoreSource | UnlinkCaptured | RemoveCapture
                 | ReadCompleted | SaveCompleted
  // journaledCreateFolder
  datatype CreatePc = StatFolder | SaveFolderIntent | MakeFolder | StatMade | SaveFolder
  // journaledRemoveFolder
  datatype RemovePc = StatTarget | ListTarget | MakeContainer | SaveRemoveIntent | RenameTarget
  // finishDirectoryRemoval, cleanupCompletedDirectoryRemoval, exposeForeignCapturedDirectory
  datatype FinishPc = FinishContainer | StatDirectory | ListDirectory | SaveProof | RemoveDirectory
                    | SaveRemoved | CleanStat | CleanList | CleanRemove
                    | ExposeStat | ExposeMake | ExposeCopy

  // Where a running call stands, or how it ended.
  datatype Pc = Load | Recovering(r: RecoverPc) | Moving(m: MovePc) | Owning(o: OwnPc)
              | Creating(c: CreatePc) | Removing(d: RemovePc) | Finishing(f: FinishPc)
              | Returned(outcome: Option<Journal>) | Threw

  // The local variables of a running call.
  datatype Attempt = Attempt(
    call: Call, pc: Pc, entry: Journal, original: Option<Journal>, cap: Capture,
    sourceSeen: Option<Node>, captureSeen: bool, captureSame: bool, allow: bool)

  datatype World = World(disk: Disk, journals: map<string, Journal>, active: Option<Attempt>)

  // What the environment chooses for a step: the number of a new inode, the random suffix of a
  // private directory, and the next name a recursive copy creates (None ends the copy).
  datatype Pick = Pick(ino: Ino, suffix: string, copy: Option<(Name, Node)>)

  datatype Event = Outside(disk: Disk) | Start(call: Call) | Tick(pick: Pick) | Die

  const NOWHERE := Name(0, "")
  const BLANK := Journal(Move, None, NOWHERE, Intent, None, false, None, None, None)

  function Begin(call: Call): Attempt {
    Attempt(call, Load, BLANK, None, Capture(NOWHERE, 0), None, false, false, true)
  }

  predicate Halted(a: Attempt) {
    a.pc.Returned? || a.pc.Threw?
  }

  predicate Running(w: World) {
    w.active.Some? && !Halted(w.active.value)
  }

  function Lookup(journals: map<string, Journal>, owner: string): Option<Journal> {
    if owner in journals then Some(journals[owner]) else None
  }

  // A falsy checksum authorises any contents.
  predicate Given(checksum: Option<string>) {
    checksum.Some? && checksum.value != ""
  }

  predicate ChecksumIs(identity: Option<FileIdentity>, checksum: string) {
    identity.Some? && identity.value.digest == checksum
  }

  function CapturedSource(cap: Capture): Name {
    Name(cap.ino, "source")
  }

  function CapturedDirectory(cap: Capture): Name {
    Name(cap.ino, "directory")
  }

  // ---- authority checks ----

  predicate MoveAuthority(j: Journal, call: Call)
    requires call.MoveCall?
  {
    && j.kind == Move && j.source == Some(call.source) && j.destination == call.destination
    && (Given(call.checksum) ==> ChecksumIs(j.identity, call.checksum.value))
  }

  predicate CreateAuthority(j: Journal, call: Call)
    requires call.CreateCall?
  {
    j.kind == CreateFolder && j.destination == call.destination
  }

  predicate RemoveAuthority(j: Journal, call: Call)
    requires call.RemoveCall?
  {
    && j.kind == RemoveFolder && j.source == Some(call.target) && j.destination == call.target
    && j.originalOwner == Some(call.originalOwner)
  }

  predicate RecoverAuthority(j: Journal, b: Binding) {
    && j.kind == b.kind && j.source == b.source && j.destination == b.destination
    && (b.kind == Move ==> Given(b.checksum) && ChecksumIs(j.identity, b.checksum.value))
    && (b.kind == RemoveFolder ==> j.originalOwner == b.originalOwner)
  }

  predicate Authorized(j: Journal, call: Call) {
    match call
    case MoveCall(_, _, _, _) => MoveAuthority(j, call)
    case CreateCall(_, _) => CreateAuthority(j, call)
    case RemoveCall(_, _, _) => RemoveAuthority(j, call)
    case RecoverCall(_, expected) => expected.Some? ==> RecoverAuthority(j, expected.value)
  }

  // ---- control flow ----

  // What one step of a running call does: go on, write the journal file, or make a system call
  // and go on according to its result.
  datatype Action =
    | Go(next: Attempt)
    | Write(next: Attempt)
    | Make(call: Syscall, next: Attempt, failed: Attempt)

  function Goto(a: Attempt, pc: Pc): Action {
    Go(a.(pc := pc))
  }

  function Save(a: Attempt, entry: Journal, pc: Pc): Action {
    Write(a.(entry := entry, pc := pc))
  }

  // An error return throws.
  function Try(a: Attempt, call: Syscall, pc: Pc): Action {
    Make(call, a.(pc := pc), a.(pc := Threw))
  }

  // recoverMove returning null: a move starts afresh, historical recovery reports nothing.
  function Unproven(a: Attempt): Action {
    Goto(a, if a.call.MoveCall? then Moving(ReadSource) else Returned(None))
  }

  function NextLoad(js: map<string, Journal>, a: Attempt): Action {
    var found := Lookup(js, a.call.owner);
    if found.None? then
      match a.call {
        case MoveCall(_, _, _, _) => Goto(a, Moving(ReadSource))
        case CreateCall(_, _) => Goto(a, Creating(SaveFolderIntent))
        case RemoveCall(_, originalOwner, _) =>
          Goto(a.(original := Lookup(js, originalOwner)), Removing(StatTarget))
        case RecoverCall(_, _) => Goto(a, Returned(None))
      }
    else if !Authorized(found.value, a.call) then Goto(a, Threw)
    else
      var j := found.value;
      var b := a.(entry := j);
      if j.status == Completed then
        if j.kind == RemoveFolder && j.directoryCapture.Some?
        then Goto(b.(cap := j.directoryCapture.value), Finishing(CleanStat))
        else Goto(b, Returned(Some(j)))
      else if j.kind == Move then Goto(b, Recovering(StatSource))
      else if j.kind == RemoveFolder && j.directoryCapture.Some? then
        Goto(b.(cap := j.directoryCapture.value), Finishing(FinishContainer))
      else match a.call {
        case CreateCall(_, _) => Goto(b, Creating(StatFolder))
        case RemoveCall(_, originalOwner, _) =>
          Goto(b.(original := Lookup(js, originalOwner)), Removing(StatTarget))
        case _ => Goto(b, Threw)
      }
  }

  // The choice recoverMove makes when no captured source is present.
  function NoCapturedSource(a: Attempt): Action {
    if a.sourceSeen.Some? then
      if a.call.MoveCall? && a.sourceSeen.value.File? then Goto(a, Recovering(ReadSourceAgain))
      else Goto(a, Threw)
    else if a.captureSeen then
      if a.captureSame then Goto(a, Recovering(RemoveContainer)) else Goto(a, Threw)
    else Goto(a, Owning(ReadCompleted))
  }

  function NextRecover(k: Disk, a: Attempt): Action
    requires a.pc.Recovering?
    requires a.entry.source.Some? && a.entry.identity.Some?
  {
    var j := a.entry;
    var source, destination := j.source.value, j.destination;
    match a.pc.r
    case StatSource => Goto(a.(sourceSeen := StatAt(k, source)), Recovering(StatDestination))
    case StatDestination =>
      var found := StatAt(k, destination);
      if found.None? then Unproven(a)
      else if found.value.File? then Goto(a, Recovering(ReadDestination))
      else if a.sourceSeen.Some? then Unproven(a) else Goto(a, Threw)
    case ReadDestination =>
      var found := FileIdentityAt(k, destination);
      if found.None? then Goto(a, Threw)
      else if found == j.identity then Goto(a, Recovering(StatCapture))
      else if a.sourceSeen.Some? then Unproven(a) else Goto(a, Threw)
    case StatCapture =>
      if j.sourceCapture.None? || j.sourceCapture.value.at !in k.names
      then NoCapturedSource(a.(captureSeen := false))
      else
        var c := j.sourceCapture.value;
        Goto(a.(cap := c, captureSeen := true, captureSame := DirectoryAt(k, c.at, c.ino)), Recovering(StatCaptured))
    case StatCaptured =>
      if CapturedSource(a.cap) in k.names then Goto(a.(allow := false), Owning(CheckCapture))
      else NoCapturedSource(a)
    case ReadSourceAgain =>
      if FileIdentityAt(k, source) != j.identity then Goto(a, Threw)
      else Goto(a.(allow := true), if a.captureSeen then Owning(CheckCapture) else Owning(MakeCapture))
    case RemoveContainer => Try(a, Rmdir(a.cap.at), Owning(ReadCompleted))
  }

  function NextMove(k: Disk, a: Attempt): Action
    requires a.pc.Moving?
    requires a.call.MoveCall?
  {
    var call := a.call;
    match a.pc.m
    case ReadSource =>
      var found := FileIdentityAt(k, call.source);
      if found.None? || (Given(call.checksum) && found.value.digest != call.checksum.value)
      then Goto(a, Threw)
      else Goto(a.(entry := Journal(Move, Some(call.source), call.destination, Intent, found,
                                       false, None, None, None)), Moving(SaveIntent))
    case SaveIntent => Save(a, a.entry, Moving(LinkDestination))
    case LinkDestination => Try(a, Link(call.source, call.destination), Moving(VerifyDestination))
    case VerifyDestination =>
      Goto(a, if FileIdentityAt(k, call.destination) == a.entry.identity then Moving(SaveLinked) else Threw)
    case SaveLinked => Save(a.(allow := true), a.entry.(status := Linked), Owning(MakeCapture))
  }

  function NextOwnedSource(k: Disk, a: Attempt, pick: Pick): Action
    requires a.pc.Owning?
    requires a.entry.source.Some? && a.entry.identity.Some?
  {
    var j := a.entry;
    var source, captured := j.source.value, CapturedSource(a.cap);
    match a.pc.o
    case MakeCapture =>
      var at := Name(source.dir, MOVE_PREFIX + pick.suffix);
      Try(a.(cap := Capture(at, pick.ino)), Mkdtemp(at, pick.ino, a.call.owner), Owning(SaveCapture))
    case SaveCapture => Save(a, j.(sourceCapture := Some(a.cap)), Owning(CheckCapture))
    case CheckCapture =>
      Goto(a, if DirectoryAt(k, a.cap.at, a.cap.ino) && a.cap.at.dir == source.dir
                    && MOVE_PREFIX <= a.cap.at.base then Owning(StatCapturedSource) else Threw)
    case StatCapturedSource =>
      Goto(a, if captured in k.names then Owning(VerifyCaptured) else if a.allow then Owning(VerifySource) else Threw)
    case VerifySource => Goto(a, if FileIdentityAt(k, source) == j.identity then Owning(RenameSource) else Threw)
    case RenameSource => Try(a, Rename(source, captured), Owning(VerifyCaptured))
    case VerifyCaptured =>
      var found := FileIdentityAt(k, captured);
      Goto(a, if found.None? then Threw else if found == j.identity then Owning(UnlinkCaptured)
                 else if a.allow then Owning(RestoreSource) else Threw)
    case RestoreSource => Try(a, Link(captured, source), Threw)
    case UnlinkCaptured => Try(a, Unlink(captured), Owning(RemoveCapture))
    case RemoveCapture => Try(a, Rmdir(a.cap.at), Owning(ReadCompleted))
    case ReadCompleted => Goto(a, if j.destination in k.names then Owning(SaveCompleted) else Threw)
    case SaveCompleted =>
      Save(a, j.(status := Completed), Returned(Some(j.(status := Completed))))
  }

  function NextCreate(k: Disk, a: Attempt, pick: Pick): Action
    requires a.pc.Creating?
    requires a.call.CreateCall?
  {
    var destination := a.call.destination;
    match a.pc.c
    case StatFolder => Goto(a, if destination in k.names then Threw else Creating(SaveFolderIntent))
    case SaveFolderIntent =>
      Save(a, Journal(CreateFolder, None, destination, Intent, None, false, None, None, None), Creating(MakeFolder))
    case MakeFolder =>
      Make(Mkdir(destination, pick.ino),
           a.(entry := a.entry.(created := true), pc := Creating(StatMade)), a.(pc := Creating(StatMade)))
    case StatMade =>
      if StatAt(k, destination) != Some(Directory) then Goto(a, Threw)
      else Goto(a.(entry := a.entry.(identity := Some(FileIdentity(k.names[destination], "")),
                                        status := Completed)), Creating(SaveFolder))
    case SaveFolder => Save(a, a.entry, Returned(Some(a.entry)))
  }

  // The folder may be removed only while it is the empty directory its creation recorded.
  predicate OwnedTarget(k: Disk, original: Option<Journal>, target: Name)
  {
    && original.Some? && original.value.created && original.value.status == Completed
    && original.value.kind == CreateFolder && original.value.destination == target
    && original.value.identity.Some? && DirectoryAt(k, target, original.value.identity.value.ino)
  }

  function NextRemove(k: Disk, a: Attempt, pick: Pick): Action
    requires a.pc.Removing?
    requires a.call.RemoveCall?
  {
    var target := a.call.target;
    match a.pc.d
    case StatTarget => Goto(a, if OwnedTarget(k, a.original, target) then Removing(ListTarget) else Threw)
    case ListTarget =>
      Goto(a, if StatAt(k, target) == Some(Directory) && Empty(k, k.names[target])
                 then Removing(MakeContainer) else Threw)
    case MakeContainer =>
      var at := Name(target.dir, REMOVE_PREFIX + pick.suffix);
      Try(a.(cap := Capture(at, pick.ino)), Mkdtemp(at, pick.ino, a.call.owner), Removing(SaveRemoveIntent))
    case SaveRemoveIntent =>
      var identity := if a.original.Some? then a.original.value.identity else None;
      Save(a, Journal(RemoveFolder, Some(target), target, Intent, identity, false,
                         Some(a.call.originalOwner), None, Some(a.cap)), Removing(RenameTarget))
    case RenameTarget => Try(a, Rename(target, CapturedDirectory(a.cap)), Finishing(FinishContainer))
  }

  function NextFinish(k: Disk, a: Attempt, pick: Pick): Action
    requires a.pc.Finishing?
    requires a.entry.identity.Some?
  {
    var j, captured := a.entry, CapturedDirectory(a.cap);
    match a.pc.f
    case FinishContainer => Goto(a, if DirectoryAt(k, a.cap.at, a.cap.ino) then Finishing(StatDirectory) else Threw)
    case StatDirectory =>
      if captured !in k.names then Goto(a, if j.status == Linked then Finishing(SaveRemoved) else Threw)
      else if DirectoryAt(k, captured, j.identity.value.ino) then Goto(a, Finishing(ListDirectory))
      else Goto(a, if StatAt(k, captured) == Some(Directory) then Finishing(ExposeStat) else Threw)
    case ListDirectory =>
      Goto(a, if captured in k.names && Empty(k, k.names[captured]) then Finishing(SaveProof) else Threw)
    case SaveProof => Save(a, j.(status := Linked), Finishing(RemoveDirectory))
    case RemoveDirectory => Try(a, Rmdir(captured), Finishing(SaveRemoved))
    case SaveRemoved => Save(a, j.(status := Completed), Finishing(CleanStat))
    case CleanStat =>
      Goto(a, if a.cap.at !in k.names then Returned(Some(j))
                 else if DirectoryAt(k, a.cap.at, a.cap.ino) then Finishing(CleanList) else Threw)
    case CleanList =>
      Goto(a, if a.cap.at in k.names && Empty(k, k.names[a.cap.at]) then Finishing(CleanRemove) else Threw)
    case CleanRemove => Try(a, Rmdir(a.cap.at), Returned(Some(j)))
    case ExposeStat => Goto(a, if j.destination in k.names then Threw else Finishing(ExposeMake))
    case ExposeMake => Try(a, Mkdir(j.destination, pick.ino), Finishing(ExposeCopy))
    case ExposeCopy =>
      if pick.copy.None? then Goto(a, Threw)
      else Try(a, Create(pick.copy.value.0, pick.ino, pick.copy.value.1), Finishing(ExposeCopy))
  }

  // The phase of the code a program counter belongs to fits the call and the loaded journal.
  predicate Typed(a: Attempt) {
    && (a.pc.Recovering? || a.pc.Owning? ==> a.entry.source.Some? && a.entry.identity.Some?)
    && (a.pc.Moving? ==> a.call.MoveCall?)
    && (a.pc.Creating? ==> a.call.CreateCall?)
    && (a.pc.Removing? ==> a.call.RemoveCall?)
    && (a.pc.Finishing? ==> a.entry.identity.Some?)
  }

  function NextAction(k: Disk, js: map<string, Journal>, a: Attempt, pick: Pick): Action
    requires !Halted(a) && Typed(a)
  {
    match a.pc
    case Load => NextLoad(js, a)
    case Recovering(_) => NextRecover(k, a)
    case Moving(_) => NextMove(k, a)
    case Owning(_) => NextOwnedSource(k, a, pick)
    case Creating(_) => NextCreate(k, a, pick)
    case Removing(_) => NextRemove(k, a, pick)
    case Finishing(_) => NextFinish(k, a, pick)
  }

  function Apply(w: World, action: Action): World {
    match action
    case Go(next) => w.(active := Some(next))
    case Write(next) => w.(journals := w.journals[next.call.owner := next.entry], active := Some(next))
    case Make(call, next, failed) =>
      var result := Perform(w.disk, call);
      if result.None? then w.(active := Some(failed))
      else w.(disk := result.value, active := Some(next))
  }

  // One step of the running call.
  function Advance(w: World, pick: Pick): World
    requires Running(w) && Typed(w.active.value)
  {
    Apply(w, NextAction(w.disk, w.journals, w.active.value, pick))
  }

  // What the environment may choose: inode numbers and random private names are never reused,
  // and a recursive copy only creates public names.
  predicate PickOk(k: Disk, pick: Pick) {
    && pick.ino !in k.nodes
    && (forall n :: n in k.containers ==> n.base != MOVE_PREFIX + pick.suffix && n.base != REMOVE_PREFIX + pick.suffix)
    && (forall n :: n in k.names ==> n.base != MOVE_PREFIX + pick.suffix && n.base != REMOVE_PREFIX + pick.suffix)
    && (pick.copy.Some? ==> Public(k, pick.copy.value.0))
  }

  // What other programs may do between two steps of the bridge: anything to public names and to
  // file contents, but nothing inside the private directories.
  predicate OutsideOk(k: Disk, k': Disk) {
    && WellFormed(k')
    && k'.containers == k.containers && k'.removed == k.removed
    && (forall i :: i in k.nodes ==> i in k'.nodes && (k'.nodes[i] == k.nodes[i] || (k.nodes[i].File? && k'.nodes[i].File?)))
    && (forall n :: n in k.names && !Public(k, n) ==> n in k'.names && k'.names[n] == k.names[n])
    && (forall n :: n in k'.names && n !in k.names ==> Public(k', n))
  }

  // Names in a call are public names of existing directories.
  predicate CallOk(k: Disk, call: Call) {
    match call
    case MoveCall(_, source, destination, _) => Public(k, source) && Public(k, destination)
    case CreateCall(_, destination) => Public(k, destination)
    case RemoveCall(_, _, target) => Public(k, target)
    case RecoverCall(_, _) => true
  }

  ghost predicate Enabled(w: World, e: Event) {
    match e
    case Outside(k) => OutsideOk(w.disk, k)
    case Start(call) => !Running(w) && CallOk(w.disk, call)
    case Tick(pick) => Running(w) && Typed(w.active.value) && PickOk(w.disk, pick)
    case Die => true
  }

  // Process death and an exception from any system call both end the running call where it is:
  // no handler in the protocol touches the disk or the journals.
  ghost function Next(w: World, e: Event): World
    requires Enabled(w, e)
  {
    match e
    case Outside(k) => w.(disk := k)
    case Start(call) => w.(active := Some(Begin(call)))
    case Tick(pick) => Advance(w, pick)
    case Die => w.(active := None)
  }

  // A run: every event is enabled where it happens.
  ghost predicate Legal(w: World, es: seq<Event>)
    decreases |es|, 0
  {
    es == [] || (Legal(w, es[..|es| - 1]) && Enabled(Exec(w, es[..|es| - 1]), es[|es| - 1]))
  }

  ghost function Exec(w: World, es: seq<Event>): World
    requires Legal(w, es)
    decreases |es|, 1
  {
    if es == [] then w else Next(Exec(w, es[..|es| - 1]), es[|es| - 1])
  }

  // One call that is not interrupted.
  predicate Uninterrupted(es: seq<Event>, call: Call) {
    |es| > 0 && es[0] == Start(call) && forall i :: 1 <= i < |es| ==> es[i].Tick?
  }

  // Nothing journaled, nothing private yet: where every run starts.
  ghost predicate Initial(w: World) {
    && WellFormed(w.disk) && w.disk.containers == map[] && w.disk.removed == {}
    && (forall n :: n in w.disk.names ==> !PrivateBase(n.base))
    && w.journals == map[] && w.active == None
  }
}
