// Crash-restart completeness of a move: with no outside interference, whatever crashes and
// retries came before, the next uncrashed call finishes the move.
module QuietMove {
  import opened Wrappers
  import opened FileSystem
  import opened Protocol
  import opened ProtocolInvariant
  import opened ProtocolSteps
  import opened ProtocolSafety
  import opened ProtocolOutcomes

  // One authorised move of the file `ino`, known by `digest`.
  datatype Job = Job(owner: string, source: Name, destination: Name, ino: Ino, digest: string)

  predicate CallOf(job: Job, call: Call) {
    match call
    case MoveCall(o, s, d, checksum) =>
      o == job.owner && s == job.source && d == job.destination && (Given(checksum) ==> checksum.value == job.digest)
    case RecoverCall(o, expected) =>
      o == job.owner && (expected.Some? ==>
        var b := expected.value;
        b.kind == Move && b.source == Some(job.source) && b.destination == job.destination &&
        Given(b.checksum) && b.checksum.value == job.digest)
    case _ => false
  }

  function Identity(job: Job): Option<FileIdentity> {
    Some(FileIdentity(job.ino, job.digest))
  }

  predicate JournalOf(job: Job, j: Journal) {
    j.kind == Move && j.source == Some(job.source) && j.destination == job.destination && j.identity == Identity(job)
  }

  // The stages of the private capture, in the order a run goes through them.
  predicate Untouched(k: Disk, job: Job, c: Capture) {
    Holds(k, job.source, job.ino) && c.at in k.names && CapturedSource(c) !in k.names
  }

  predicate Taken(k: Disk, job: Job, c: Capture) {
    job.source !in k.names && c.at in k.names && Holds(k, CapturedSource(c), job.ino)
  }

  predicate Cleared(k: Disk, job: Job, c: Capture) {
    job.source !in k.names && c.at in k.names && CapturedSource(c) !in k.names
  }

  predicate Gone(k: Disk, job: Job, c: Capture) {
    job.source !in k.names && c.at !in k.names && CapturedSource(c) !in k.names
  }

  // Where the file is, by what the journal says.
  predicate Placed(k: Disk, js: map<string, Journal>, job: Job) {
    if job.owner !in js then Holds(k, job.source, job.ino) && job.destination !in k.names
    else
      var j := js[job.owner];
      && JournalOf(job, j)
      && if j.sourceCapture.None? then
           && Holds(k, job.source, job.ino) && j.status != Completed
           && (job.destination in k.names ==> Holds(k, job.destination, job.ino))
           && (j.status == Linked ==> job.destination in k.names)
         else
           var c := j.sourceCapture.value;
           && Holds(k, job.destination, job.ino)
           && if j.status == Completed then Gone(k, job, c)
              else Untouched(k, job, c) || Taken(k, job, c) || Cleared(k, job, c) || Gone(k, job, c)
  }

  predicate Recorded(js: map<string, Journal>, job: Job, c: Capture) {
    job.owner in js && js[job.owner].sourceCapture == Some(c)
  }

  // Nothing lies in the owner's private directories but the recorded capture's source: what a
  // crash between mkdtemp and the journal write leaves behind is an empty directory.
  ghost predicate Private(k: Disk, js: map<string, Journal>, job: Job) {
    forall n | n in k.names && OwnedDirectory(k, n.dir, job.owner) ::
      exists c :: Recorded(js, job, c) && n == CapturedSource(c)
  }

  ghost predicate Elsewhere(k: Disk, job: Job, n: Name) {
    && n != job.source && n != job.destination && !OwnedDirectory(k, n.dir, job.owner)
    && !OwnPrivate(k, job.owner, n)
  }

  // Every other name is as it was in `base`.
  ghost predicate Rest(k: Disk, job: Job, base: map<Name, Ino>) {
    forall n | Elsewhere(k, job, n) :: (n in k.names <==> n in base) && (n in k.names ==> k.names[n] == base[n])
  }

  ghost predicate JobOk(k: Disk, job: Job) {
    && job.source != job.destination && Public(k, job.source) && Public(k, job.destination)
    && job.ino in k.nodes && k.nodes[job.ino] == File(job.digest)
  }

  predicate SourceSeen(k: Disk, a: Attempt, job: Job) {
    a.sourceSeen == if job.source in k.names then Some(File(job.digest)) else None
  }

  predicate InRecovery(k: Disk, a: Attempt, job: Job)
    requires a.pc.Recovering?
  {
    var c := a.entry.sourceCapture;
    && (!a.pc.r.StatSource? ==> SourceSeen(k, a, job))
    && (!a.pc.r.StatSource? && !a.pc.r.StatDestination? ==> Holds(k, job.destination, job.ino))
    && (a.pc.r.StatCaptured? || a.pc.r.RemoveContainer? ==> a.captureSeen && a.captureSame && a.cap.at in k.names)
    && (a.pc.r.ReadSourceAgain? ==> Holds(k, job.source, job.ino) && a.captureSeen == c.Some?)
    && (a.pc.r.RemoveContainer? ==> Cleared(k, job, a.cap))
  }

  predicate InMove(k: Disk, a: Attempt, job: Job)
    requires a.pc.Moving?
  {
    && Holds(k, job.source, job.ino)
    && (if a.pc.m.VerifyDestination? || a.pc.m.SaveLinked? then Holds(k, job.destination, job.ino)
        else job.destination !in k.names)
    && (!a.pc.m.ReadSource? ==> JournalOf(job, a.entry))
  }

  predicate InOwning(k: Disk, a: Attempt, job: Job)
    requires a.pc.Owning?
  {
    && Holds(k, job.destination, job.ino)
    && match a.pc.o {
         case MakeCapture => Holds(k, job.source, job.ino) && a.allow && a.entry.sourceCapture.None?
         case SaveCapture => Untouched(k, job, a.cap) && a.allow && a.entry.sourceCapture.None?
         case CheckCapture | StatCapturedSource => (a.allow && Untouched(k, job, a.cap)) || Taken(k, job, a.cap)
         case VerifySource | RenameSource => Untouched(k, job, a.cap)
         case VerifyCaptured | UnlinkCaptured => Taken(k, job, a.cap)
         case RemoveCapture => Cleared(k, job, a.cap)
         case ReadCompleted | SaveCompleted =>
           a.entry.sourceCapture.Some? && Gone(k, job, a.entry.sourceCapture.value)
         case RestoreSource => false
       }
  }

  predicate Underway(k: Disk, a: Attempt, job: Job) {
    && CallOf(job, a.call)
    && match a.pc {
         case Load | Returned(_) | Threw => true
         case Recovering(_) => InRecovery(k, a, job)
         case Moving(_) => InMove(k, a, job)
         case Owning(_) => InOwning(k, a, job)
         case _ => false
       }
  }

  // Every state a quiet run of the job can reach.
  ghost predicate Quiet(w: World, job: Job, base: map<Name, Ino>) {
    && Inv(w) && JobOk(w.disk, job) && Placed(w.disk, w.journals, job) && Rest(w.disk, job, base)
    && Private(w.disk, w.journals, job)
    && (w.active.Some? ==> Underway(w.disk, w.active.value, job) && Reported(w.journals, w.active.value))
  }

  function Rank(pc: Pc): nat {
    match pc
    case Load => 30
    case Recovering(r) =>
      (match r
       case StatSource => 29 case StatDestination => 28 case ReadDestination => 27 case StatCapture => 26
       case StatCaptured => 25 case ReadSourceAgain => 24 case RemoveContainer => 3)
    case Moving(m) =>
      (match m
       case ReadSource => 19 case SaveIntent => 18 case LinkDestination => 17
       case VerifyDestination => 16 case SaveLinked => 15)
    case Owning(o) =>
      (match o
       case MakeCapture => 14 case SaveCapture => 13 case CheckCapture => 12 case StatCapturedSource => 11
       case VerifySource => 10 case RenameSource => 9 case VerifyCaptured => 8 case RestoreSource => 6
       case UnlinkCaptured => 5 case RemoveCapture => 4 case ReadCompleted => 2 case SaveCompleted => 1)
    case _ => 0
  }

  // ---- one step, without its effect ----

  // Where a step may go on: nearer to the end, and a live move never throws.
  predicate Progress(k: Disk, a: Attempt, b: Attempt, job: Job) {
    && Underway(k, b, job) && (Halted(b) || Rank(b.pc) < Rank(a.pc))
    && (a.call.MoveCall? || job.source !in k.names ==> b.pc != Threw && (b.pc.Returned? ==> b.pc.outcome.Some?))
  }

  lemma LoadProgress(k: Disk, js: map<string, Journal>, a: Attempt, job: Job)
    requires JobOk(k, job) && Placed(k, js, job) && Underway(k, a, job) && a.pc.Load?
    ensures NextLoad(js, a).Go? && Progress(k, a, NextLoad(js, a).next, job)
    ensures var b := NextLoad(js, a).next; b.pc.Returned? && b.pc.outcome.Some? ==> b.pc.outcome.value.status == Completed
  {
  }

  predicate CaptureSound(k: Disk, j: Journal) {
    j.sourceCapture.Some? && j.sourceCapture.value.at in k.names ==>
      DirectoryAt(k, j.sourceCapture.value.at, j.sourceCapture.value.ino)
  }

  lemma CaptureIsDirectory(k: Disk, js: map<string, Journal>, o: string, j: Journal)
    requires WellFormed(k) && MoveOk(k, o, j)
    ensures CaptureSound(k, j)
  {
  }

  lemma RecoverReadsProgress(k: Disk, js: map<string, Journal>, a: Attempt, job: Job)
    requires JobOk(k, job) && Placed(k, js, job) && Underway(k, a, job) && a.call.owner in js && a.entry == js[a.call.owner]
    requires Typed(a) && a.pc.Recovering? && a.entry.status != Completed
    requires a.pc.r.StatSource? || a.pc.r.StatDestination? || a.pc.r.ReadDestination? || a.pc.r.ReadSourceAgain?
    requires a.pc.r.ReadSourceAgain? ==> a.call.MoveCall? && (a.captureSeen ==> a.entry.sourceCapture == Some(a.cap))
    ensures NextRecover(k, a).Go? && Progress(k, a, NextRecover(k, a).next, job)
    ensures NextRecover(k, a).next.pc.Returned? ==> job.source in k.names
  {
  }

  lemma RecoverCaptureProgress(k: Disk, js: map<string, Journal>, a: Attempt, job: Job)
    requires JobOk(k, job) && Placed(k, js, job) && Underway(k, a, job) && a.call.owner in js && a.entry == js[a.call.owner]
    requires Typed(a) && a.pc.Recovering? && a.entry.status != Completed && CaptureSound(k, a.entry)
    requires a.pc.r.StatCapture? || (a.pc.r.StatCaptured? && a.entry.sourceCapture == Some(a.cap))
    ensures NextRecover(k, a).Go? && Progress(k, a, NextRecover(k, a).next, job) && !NextRecover(k, a).next.pc.Returned?
  {
    hide Perform, Public, NextLoad, NextMove, NextCreate, NextRemove, NextFinish, NextOwnedSource;
  }

  lemma MoveReadsProgress(k: Disk, js: map<string, Journal>, a: Attempt, job: Job)
    requires JobOk(k, job) && Placed(k, js, job) && Underway(k, a, job) && Typed(a)
    requires a.pc == Moving(ReadSource) || a.pc == Moving(VerifyDestination)
    ensures NextMove(k, a).Go? && Progress(k, a, NextMove(k, a).next, job) && !NextMove(k, a).next.pc.Returned?
  {
  }

  lemma OwningReadsProgress(k: Disk, js: map<string, Journal>, a: Attempt, job: Job, pick: Pick)
    requires JobOk(k, job) && Placed(k, js, job) && Underway(k, a, job) && Typed(a) && a.pc.Owning?
    requires a.call.owner in js && a.entry == js[a.call.owner] && CaptureSound(k, a.entry)
    requires a.pc.o.ReadCompleted? || (a.entry.sourceCapture == Some(a.cap) && a.cap.at.dir == job.source.dir && MOVE_PREFIX <= a.cap.at.base)
    requires a.pc.o.CheckCapture? || a.pc.o.StatCapturedSource? || a.pc.o.VerifySource? || a.pc.o.VerifyCaptured? || a.pc.o.ReadCompleted?
    ensures var action := NextOwnedSource(k, a, pick); action.Go? && Progress(k, a, action.next, job) && !action.next.pc.Returned?
  {
  }

  // ---- journal writes ----

  ghost predicate Kept(k: Disk, js: map<string, Journal>, job: Job, base: map<Name, Ino>) {
    Placed(k, js, job) && Rest(k, job, base) && Private(k, js, job)
  }

  lemma MoveWrites(k: Disk, js: map<string, Journal>, a: Attempt, job: Job, base: map<Name, Ino>)
    requires JobOk(k, job) && Kept(k, js, job, base) && Underway(k, a, job) && Typed(a)
    requires a.pc == Moving(SaveIntent) || a.pc == Moving(SaveLinked)
    requires MovingOk(js, a)
    ensures var action := NextMove(k, a);
      action.Write? && Progress(k, a, action.next, job) && !action.next.pc.Returned? &&
      Kept(k, js[job.owner := action.next.entry], job, base)
  {
  }

  lemma OwningWrites(k: Disk, js: map<string, Journal>, a: Attempt, job: Job, base: map<Name, Ino>, pick: Pick)
    requires JobOk(k, job) && Kept(k, js, job, base) && Underway(k, a, job) && Typed(a) && a.pc.Owning?
    requires a.call.owner in js && a.entry == js[a.call.owner]
    requires a.pc.o.SaveCapture? || a.pc.o.SaveCompleted?
    ensures var action := NextOwnedSource(k, a, pick);
      action.Write? && Progress(k, a, action.next, job) &&
      Kept(k, js[job.owner := action.next.entry], job, base) &&
      (action.next.pc.Returned? ==> action.next.pc.outcome.value.status == Completed)
  {
  }

  // ---- effects ----

  // The private directories and all unrelated names, across one system call.
  ghost predicate Orderly(k: Disk, js: map<string, Journal>, job: Job, base: map<Name, Ino>) {
    Rest(k, job, base) && Private(k, js, job)
  }

  lemma LinkOrderly(k: Disk, js: map<string, Journal>, job: Job, base: map<Name, Ino>, call: Syscall)
    requires Orderly(k, js, job, base) && Public(k, job.destination)
    requires call.Link? && call.to == job.destination && Perform(k, call).Some?
    ensures Orderly(Perform(k, call).value, js, job, base)
  {
  }

  lemma MkdtempOrderly(k: Disk, js: map<string, Journal>, job: Job, base: map<Name, Ino>, call: Syscall)
    requires Orderly(k, js, job, base) && (forall n :: n in k.names ==> n.dir in k.nodes)
    requires call.Mkdtemp? && call.owner == job.owner && PrivateBase(call.target.base) && Perform(k, call).Some?
    requires call.ino !in k.nodes && call.target.dir in k.nodes && call.target !in k.containers && !IsContainer(k, call.target.dir)
    ensures Orderly(Perform(k, call).value, js, job, base)
  {
    var k' := Perform(k, call).value;
    forall d: Ino | OwnedDirectory(k, d, job.owner) ensures OwnedDirectory(k', d, job.owner) {
      var c :| c in k.containers && k.containers[c] == Container(d, job.owner);
      assert k'.containers[c] == Container(d, job.owner);
    }
  }

  lemma RenameOrderly(k: Disk, js: map<string, Journal>, job: Job, base: map<Name, Ino>, c: Capture)
    requires Orderly(k, js, job, base) && Recorded(js, job, c) && Public(k, job.source)
    requires OwnedDirectory(k, c.ino, job.owner) && Perform(k, Rename(job.source, CapturedSource(c))).Some?
    ensures Orderly(Perform(k, Rename(job.source, CapturedSource(c))).value, js, job, base)
  {
  }

  lemma UnlinkOrderly(k: Disk, js: map<string, Journal>, job: Job, base: map<Name, Ino>, c: Capture)
    requires Orderly(k, js, job, base)
    requires OwnedDirectory(k, c.ino, job.owner) && Perform(k, Unlink(CapturedSource(c))).Some?
    ensures Orderly(Perform(k, Unlink(CapturedSource(c))).value, js, job, base)
  {
  }

  lemma RmdirOrderly(k: Disk, js: map<string, Journal>, job: Job, base: map<Name, Ino>, c: Capture)
    requires Orderly(k, js, job, base) && Recorded(js, job, c)
    requires OwnPrivate(k, job.owner, c.at) && Perform(k, Rmdir(c.at)).Some?
    ensures Orderly(Perform(k, Rmdir(c.at)).value, js, job, base)
  {
  }

  ghost predicate Succeeds(k: Disk, js: map<string, Journal>, a: Attempt, action: Action, job: Job) {
    action.Make? && Perform(k, action.call).Some? &&
    var k' := Perform(k, action.call).value;
    Placed(k', js, job) && Progress(k', a, action.next, job) && !Halted(action.next)
  }

  lemma LinkSucceeds(k: Disk, js: map<string, Journal>, a: Attempt, job: Job, action: Action)
    requires JobOk(k, job) && Underway(k, a, job)
    requires a.pc == Moving(LinkDestination) && a.call.MoveCall? && MovingOk(js, a)
    requires action == Try(a, Link(job.source, job.destination), Moving(VerifyDestination))
    ensures Succeeds(k, js, a, action, job)
  {
  }

  lemma MkdtempSucceeds(k: Disk, js: map<string, Journal>, a: Attempt, job: Job, pick: Pick)
    requires Placed(k, js, job) && Underway(k, a, job) && Typed(a)
    requires a.pc == Owning(MakeCapture) && a.call.owner in js && a.entry == js[a.call.owner]
    requires Name(job.source.dir, MOVE_PREFIX + pick.suffix) !in k.names && pick.ino !in k.nodes
    requires forall n :: n in k.names ==> n.dir in k.nodes
    requires a.entry.status != Completed && MOVE_PREFIX + pick.suffix != job.destination.base
    ensures Succeeds(k, js, a, NextOwnedSource(k, a, pick), job)
  {
  }

  lemma RenameSucceeds(k: Disk, js: map<string, Journal>, a: Attempt, job: Job, pick: Pick)
    requires JobOk(k, job) && Placed(k, js, job) && Underway(k, a, job) && Typed(a)
    requires a.pc == Owning(RenameSource) && a.call.owner in js && a.entry == js[a.call.owner] && a.entry.sourceCapture == Some(a.cap)
    requires OwnedCapture(k, a.cap, job.source.dir, MOVE_PREFIX, job.owner) && a.entry.status != Completed
    ensures Succeeds(k, js, a, NextOwnedSource(k, a, pick), job)
  {
  }

  lemma UnlinkSucceeds(k: Disk, js: map<string, Journal>, a: Attempt, job: Job, pick: Pick)
    requires JobOk(k, job) && Placed(k, js, job) && Underway(k, a, job) && Typed(a)
    requires a.pc == Owning(UnlinkCaptured) && a.call.owner in js && a.entry == js[a.call.owner] && a.entry.sourceCapture == Some(a.cap)
    requires OwnedCapture(k, a.cap, job.source.dir, MOVE_PREFIX, job.owner) && a.entry.status != Completed
    ensures Succeeds(k, js, a, NextOwnedSource(k, a, pick), job)
  {
  }

  // The capture is empty once its source is cleared.
  lemma RmdirSucceeds(k: Disk, js: map<string, Journal>, a: Attempt, job: Job, action: Action)
    requires JobOk(k, job) && Placed(k, js, job) && Private(k, js, job) && CallOf(job, a.call)
    requires action == Try(a, Rmdir(a.cap.at), Owning(ReadCompleted)) && Rank(a.pc) > 2
    requires Cleared(k, job, a.cap) && Holds(k, job.destination, job.ino) && CaptureSound(k, a.entry)
    requires a.call.owner in js && a.entry == js[a.call.owner] && a.entry.sourceCapture == Some(a.cap)
    requires OwnedCapture(k, a.cap, job.source.dir, MOVE_PREFIX, job.owner) && a.entry.status != Completed
    ensures Succeeds(k, js, a, action, job)
  {
    assert OwnedDirectory(k, a.cap.ino, job.owner);
    assert Empty(k, a.cap.ino);
  }

  // ---- every step ----

  // One step of the job's running call: nothing else moves, and the call gets nearer to its end.
  ghost predicate Advances(k: Disk, js: map<string, Journal>, a: Attempt, action: Action, job: Job,
                           base: map<Name, Ino>) {
    && (action.next.pc.Returned? && action.next.pc.outcome.Some? ==> action.next.pc.outcome.value.status == Completed)
    && match action
       case Go(b) => Progress(k, a, b, job) && Kept(k, js, job, base)
       case Write(b) => Progress(k, a, b, job) && Kept(k, js[a.call.owner := b.entry], job, base)
       case Make(call, b, _) => Succeeds(k, js, a, action, job) && Orderly(Perform(k, call).value, js, job, base)
  }

  lemma LoadAdvances(k: Disk, js: map<string, Journal>, a: Attempt, job: Job, base: map<Name, Ino>)
    requires JobOk(k, job) && Kept(k, js, job, base) && Underway(k, a, job) && a.pc.Load?
    ensures Advances(k, js, a, NextLoad(js, a), job, base)
  {
    LoadProgress(k, js, a, job);
  }

  // A step that only reads and goes on.
  lemma GoAdvances(k: Disk, js: map<string, Journal>, a: Attempt, b: Attempt, job: Job, base: map<Name, Ino>)
    requires Kept(k, js, job, base) && Progress(k, a, b, job)
    requires b.pc.Returned? && b.pc.outcome.Some? ==> b.pc.outcome.value.status == Completed
    ensures Advances(k, js, a, Go(b), job, base)
  {
  }

  lemma RecoverReadsAdvances(k: Disk, js: map<string, Journal>, a: Attempt, job: Job, base: map<Name, Ino>)
    requires JobOk(k, job) && Kept(k, js, job, base) && Underway(k, a, job) && Typed(a) && a.pc.Recovering?
    requires CaptureSound(k, a.entry) && RecoverOk(js, a) && !a.pc.r.RemoveContainer?
    ensures Advances(k, js, a, NextRecover(k, a), job, base)
  {
    if a.pc.r.StatCapture? || a.pc.r.StatCaptured? { RecoverCaptureProgress(k, js, a, job); }
    else { RecoverReadsProgress(k, js, a, job); }
    RecoverGoes(k, a);
    GoAdvances(k, js, a, NextRecover(k, a).next, job, base);
  }

  lemma RecoverGoes(k: Disk, a: Attempt)
    requires Typed(a) && a.pc.Recovering? && !a.pc.r.RemoveContainer?
    ensures NextRecover(k, a).Go?
    ensures NextRecover(k, a).next.pc.Returned? ==> NextRecover(k, a).next.pc.outcome == None
  {
  }

  ghost predicate InCapture(k: Disk, a: Attempt, job: Job) {
    && a.entry.sourceCapture == Some(a.cap) && CaptureSound(k, a.entry)
    && OwnedCapture(k, a.cap, job.source.dir, MOVE_PREFIX, job.owner)
  }

  lemma RmdirAdvances(k: Disk, js: map<string, Journal>, a: Attempt, job: Job, base: map<Name, Ino>, action: Action)
    requires JobOk(k, job) && Kept(k, js, job, base) && Underway(k, a, job)
    requires a.pc == Recovering(RemoveContainer) || a.pc == Owning(RemoveCapture)
    requires action == Try(a, Rmdir(a.cap.at), Owning(ReadCompleted)) && InCapture(k, a, job) && SavedMove(js, a)
    ensures Advances(k, js, a, action, job, base)
  {
    RmdirSucceeds(k, js, a, job, action);
    RmdirOrderly(k, js, job, base, a.cap);
  }

  lemma MakeAdvances(k: Disk, js: map<string, Journal>, a: Attempt, action: Action, job: Job, base: map<Name, Ino>)
    requires action.Make? && Succeeds(k, js, a, action, job)
    requires Orderly(Perform(k, action.call).value, js, job, base)
    ensures Advances(k, js, a, action, job, base)
  {
  }

  lemma LinkAdvances(k: Disk, js: map<string, Journal>, a: Attempt, job: Job, base: map<Name, Ino>, action: Action)
    requires JobOk(k, job) && Kept(k, js, job, base) && Underway(k, a, job)
    requires a.pc == Moving(LinkDestination) && a.call.MoveCall? && MovingOk(js, a)
    requires action == Try(a, Link(job.source, job.destination), Moving(VerifyDestination))
    ensures Advances(k, js, a, action, job, base)
  {
    assert Orderly(k, js, job, base);
    LinkSucceeds(k, js, a, job, action);
    LinkOrderly(k, js, job, base, action.call);
    MakeAdvances(k, js, a, action, job, base);
  }

  lemma MoveAdvances(k: Disk, js: map<string, Journal>, a: Attempt, job: Job, base: map<Name, Ino>)
    requires JobOk(k, job) && Kept(k, js, job, base) && Underway(k, a, job) && Typed(a) && a.pc.Moving?
    requires MovingOk(js, a)
    ensures Advances(k, js, a, NextMove(k, a), job, base)
  {
    match a.pc.m {
      case ReadSource | VerifyDestination => MoveReadsProgress(k, js, a, job);
      case LinkDestination => LinkAdvances(k, js, a, job, base, NextMove(k, a));
      case _ => MoveWrites(k, js, a, job, base);
    }
  }

  lemma MkdtempAdvances(k: Disk, js: map<string, Journal>, a: Attempt, job: Job, base: map<Name, Ino>, pick: Pick)
    requires JobOk(k, job) && Kept(k, js, job, base) && Underway(k, a, job) && Typed(a)
    requires a.pc == Owning(MakeCapture) && SavedMove(js, a)
    requires (forall n :: n in k.names ==> n.dir in k.nodes) && PickOk(k, pick)
    ensures Advances(k, js, a, NextOwnedSource(k, a, pick), job, base)
  {
    MkdtempSucceeds(k, js, a, job, pick);
    MkdtempOrderly(k, js, job, base, NextOwnedSource(k, a, pick).call);
  }

  lemma TakingAdvances(k: Disk, js: map<string, Journal>, a: Attempt, job: Job, base: map<Name, Ino>, pick: Pick)
    requires JobOk(k, job) && Kept(k, js, job, base) && Underway(k, a, job) && Typed(a)
    requires a.pc == Owning(RenameSource) || a.pc == Owning(UnlinkCaptured)
    requires InCapture(k, a, job) && SavedMove(js, a)
    ensures Advances(k, js, a, NextOwnedSource(k, a, pick), job, base)
  {
    if a.pc.o.RenameSource? {
      RenameSucceeds(k, js, a, job, pick);
      RenameOrderly(k, js, job, base, a.cap);
    } else {
      UnlinkSucceeds(k, js, a, job, pick);
      UnlinkOrderly(k, js, job, base, a.cap);
    }
  }

  lemma OwningReadsAdvances(k: Disk, js: map<string, Journal>, a: Attempt, job: Job, base: map<Name, Ino>, pick: Pick)
    requires JobOk(k, job) && Kept(k, js, job, base) && Underway(k, a, job) && Typed(a) && a.pc.Owning?
    requires a.pc.o.CheckCapture? || a.pc.o.StatCapturedSource? || a.pc.o.VerifySource? || a.pc.o.VerifyCaptured? || a.pc.o.ReadCompleted?
    requires SavedMove(js, a) && CaptureSound(k, a.entry) && (a.pc.o.ReadCompleted? || InCapture(k, a, job))
    ensures Advances(k, js, a, NextOwnedSource(k, a, pick), job, base)
  {
    OwningReadsProgress(k, js, a, job, pick);
  }

  lemma OwningAdvances(k: Disk, js: map<string, Journal>, a: Attempt, job: Job, base: map<Name, Ino>, pick: Pick)
    requires JobOk(k, job) && Kept(k, js, job, base) && Underway(k, a, job) && Typed(a) && a.pc.Owning?
    requires SavedMove(js, a) && CaptureSound(k, a.entry)
    requires a.pc.o.MakeCapture? || a.pc.o.SaveCapture? || a.pc.o.ReadCompleted? || a.pc.o.SaveCompleted? || InCapture(k, a, job)
    requires (forall n :: n in k.names ==> n.dir in k.nodes) && PickOk(k, pick)
    ensures Advances(k, js, a, NextOwnedSource(k, a, pick), job, base)
  {
    match a.pc.o {
      case MakeCapture => MkdtempAdvances(k, js, a, job, base, pick);
      case SaveCapture | SaveCompleted => OwningWrites(k, js, a, job, base, pick);
      case RemoveCapture => RmdirAdvances(k, js, a, job, base, NextOwnedSource(k, a, pick));
      case RenameSource | UnlinkCaptured => TakingAdvances(k, js, a, job, base, pick);
      case RestoreSource =>
      case _ => OwningReadsAdvances(k, js, a, job, base, pick);
    }
  }

  // What the protocol invariant says about the job's running call.
  ghost predicate FactsOf(k: Disk, js: map<string, Journal>, a: Attempt, job: Job) {
    && a.call.owner == job.owner
    && (a.pc.Recovering? ==> RecoverOk(js, a)) && (a.pc.Moving? && a.call.MoveCall? ==> MovingOk(js, a))
    && (a.pc.Recovering? || a.pc.Owning? ==> SavedMove(js, a) && CaptureSound(k, a.entry))
    && (a.pc == Recovering(RemoveContainer) ==> InCapture(k, a, job))
    && (a.pc.Owning? ==> a.pc.o.MakeCapture? || a.pc.o.SaveCapture? || a.pc.o.ReadCompleted? || a.pc.o.SaveCompleted? || InCapture(k, a, job))
  }

  lemma JournalFacts(w: World, job: Job, base: map<Name, Ino>)
    requires Quiet(w, job, base) && Running(w)
    ensures FactsOf(w.disk, w.journals, w.active.value, job)
  {
    var a := w.active.value;
    if a.pc.Recovering? || a.pc.Owning? {
      assert MoveOk(w.disk, job.owner, a.entry);
      CaptureIsDirectory(w.disk, w.journals, job.owner, a.entry);
    }
  }

  lemma StepAdvances(k: Disk, js: map<string, Journal>, a: Attempt, job: Job, base: map<Name, Ino>, pick: Pick)
    requires JobOk(k, job) && Kept(k, js, job, base) && Underway(k, a, job)
    requires !Halted(a) && Typed(a) && FactsOf(k, js, a, job) && PickOk(k, pick)
    requires forall n :: n in k.names ==> n.dir in k.nodes
    ensures Advances(k, js, a, NextAction(k, js, a, pick), job, base)
  {
    match a.pc {
      case Load => LoadAdvances(k, js, a, job, base);
      case Moving(_) => MoveAdvances(k, js, a, job, base);
      case Recovering(r) =>
        if r.RemoveContainer? { RmdirAdvances(k, js, a, job, base, NextRecover(k, a)); }
        else { RecoverReadsAdvances(k, js, a, job, base); }
      case Owning(_) => OwningAdvances(k, js, a, job, base, pick);
    }
  }

  lemma TickAdvances(w: World, job: Job, base: map<Name, Ino>, pick: Pick)
    requires Quiet(w, job, base) && Enabled(w, Tick(pick))
    ensures Advances(w.disk, w.journals, w.active.value, ActionOf(w, pick), job, base)
  {
    JournalFacts(w, job, base);
    StepAdvances(w.disk, w.journals, w.active.value, job, base, pick);
  }

  lemma JobStays(k: Disk, o: string, call: Syscall, job: Job)
    requires WellFormed(k) && Permitted(k, o, call) && Perform(k, call).Some? && JobOk(k, job)
    ensures JobOk(Perform(k, call).value, job)
  {
    PermittedKeeps(k, o, call);
    PublicFrame(k, Perform(k, call).value, o, job.source);
    PublicFrame(k, Perform(k, call).value, o, job.destination);
  }

  // A step brings the call nearer to its end.  A live move never fails; historical recovery
  // either finishes what is left to clear or changes nothing at all.
  ghost predicate StepsOn(w: World, w': World, job: Job) {
    w.active.Some? && w'.active.Some? &&
    var a, b := w.active.value, w'.active.value;
    && b.call == a.call && (Halted(b) || Rank(b.pc) < Rank(a.pc))
    && (a.call.MoveCall? || job.source !in w.disk.names ==> b.pc != Threw && (b.pc.Returned? ==> b.pc.outcome.Some?))
    && (b.pc.Returned? && b.pc.outcome.Some? ==> b.pc.outcome.value.status == Completed)
    && (a.call.RecoverCall? && job.source in w.disk.names ==>
          w'.disk == w.disk && w'.journals == w.journals && (b.pc.Returned? ==> b.pc.outcome.None?))
    && (a.call.RecoverCall? && job.source !in w.disk.names ==> job.source !in w'.disk.names)
  }

  // With the source still in place, historical recovery only reads.
  lemma HistoryReads(w: World, job: Job, base: map<Name, Ino>, pick: Pick)
    requires Quiet(w, job, base) && Enabled(w, Tick(pick))
    requires w.active.value.call.RecoverCall? && job.source in w.disk.names
    ensures ActionOf(w, pick).Go? && (ActionOf(w, pick).next.pc.Returned? ==> ActionOf(w, pick).next.pc.outcome.None?)
  {
    var a := w.active.value;
    HistoricalCapture(w);
    JournalFacts(w, job, base);
    HistoryNotOwning(w.disk, a, job);
    if a.pc.Load? { LoadProgress(w.disk, w.journals, a, job); } else { RecoverGoes(w.disk, a); }
  }

  lemma HistoryNotOwning(k: Disk, a: Attempt, job: Job)
    requires Underway(k, a, job) && !Halted(a) && a.call.RecoverCall? && job.source in k.names
    requires a.pc.Owning? ==> Historical(a)
    requires Typed(a)
    ensures a.pc.Load? || (a.pc.Recovering? && !a.pc.r.RemoveContainer?)
  {
  }

  lemma HistoryNeverRestores(w: World, job: Job, base: map<Name, Ino>, pick: Pick)
    requires Quiet(w, job, base) && Enabled(w, Tick(pick))
    requires w.active.value.call.RecoverCall? && job.source !in w.disk.names
    ensures job.source !in Next(w, Tick(pick)).disk.names
  {
    var a := w.active.value;
    if a.pc.Recovering? || a.pc.Owning? { HistoricalRecovery(w, pick); }
    else { LoadProgress(w.disk, w.journals, a, job); }
  }

  // A step keeps the run quiet.
  lemma QuietTick(w: World, job: Job, base: map<Name, Ino>, pick: Pick)
    requires Quiet(w, job, base) && Enabled(w, Tick(pick))
    ensures Quiet(Next(w, Tick(pick)), job, base) && StepsOn(w, Next(w, Tick(pick)), job)
  {
    var a, action := w.active.value, ActionOf(w, pick);
    TickAdvances(w, job, base, pick);
    EventKeeps(w, Tick(pick));
    TickGood(w, pick);
    ReportedTick(w, pick);
    if action.Make? { JobStays(w.disk, a.call.owner, action.call, job); }
    if a.call.RecoverCall? {
      if job.source in w.disk.names { HistoryReads(w, job, base, pick); } else { HistoryNeverRestores(w, job, base, pick); }
    }
  }

  // ---- schedules ----

  // Calls of the job, steps, and deaths at any moment; no other program interferes.
  predicate Ours(job: Job, e: Event) {
    match e
    case Outside(_) => false
    case Start(call) => CallOf(job, call)
    case Tick(_) => true
    case Die => true
  }

  // Where a job starts.
  lemma FreshJobIsQuiet(w: World, job: Job)
    requires Inv(w) && !Running(w) && JobOk(w.disk, job) && job.owner !in w.journals
    requires Holds(w.disk, job.source, job.ino) && job.destination !in w.disk.names
    requires w.active.Some? ==> CallOf(job, w.active.value.call) && Reported(w.journals, w.active.value)
    requires forall c :: c in w.disk.containers ==> w.disk.containers[c].owner != job.owner
    ensures Quiet(w, job, w.disk.names)
  {
  }

  lemma QuietEvent(w: World, e: Event, job: Job, base: map<Name, Ino>)
    requires Quiet(w, job, base) && Enabled(w, e) && Ours(job, e)
    ensures Quiet(Next(w, e), job, base)
  {
    EventKeeps(w, e);
    if e.Tick? { QuietTick(w, job, base, e.pick); }
  }

  lemma {:induction false} QuietAlways(w: World, es: seq<Event>, job: Job, base: map<Name, Ino>)
    requires Quiet(w, job, base) && Legal(w, es) && forall i :: 0 <= i < |es| ==> Ours(job, es[i])
    ensures Quiet(Exec(w, es), job, base)
    decreases |es|
  {
    if es != [] {
      QuietAlways(w, es[..|es| - 1], job, base);
      QuietEvent(Exec(w, es[..|es| - 1]), es[|es| - 1], job, base);
    }
  }

  // The move is done: the original inode sits at the destination under its final journal, its old
  // name and the recorded capture are gone, what is left of the owner's private directories is
  // empty, and every other name is as it was.
  ghost predicate Moved(w: World, job: Job, base: map<Name, Ino>) {
    var k := w.disk;
    && job.owner in w.journals && JournalOf(job, w.journals[job.owner]) && w.journals[job.owner].status == Completed
    && Holds(k, job.destination, job.ino) && job.source !in k.names
    && w.journals[job.owner].sourceCapture.Some? && w.journals[job.owner].sourceCapture.value.at !in k.names
    && (forall n :: n in k.names ==> !OwnedDirectory(k, n.dir, job.owner))
    && (forall n | n in base && n != job.source && Elsewhere(k, job, n) :: Holds(k, n, base[n]))
    && (forall n | n in k.names && n != job.destination && n !in base :: OwnPrivate(k, job.owner, n))
  }

  lemma CompletedIsMoved(w: World, job: Job, base: map<Name, Ino>)
    requires Quiet(w, job, base) && job.owner in w.journals && w.journals[job.owner].status == Completed
    ensures Moved(w, job, base)
  {
  }

  lemma RunningRank(k: Disk, a: Attempt, job: Job)
    requires Underway(k, a, job) && !Halted(a)
    ensures Rank(a.pc) > 0
  {
  }

  // Where an uninterrupted call stands after its first `length` events.
  ghost predicate Standing(w: World, v: World, job: Job, length: nat) {
    v.active.Some? &&
    var a := v.active.value;
    && length + Rank(a.pc) <= 31
    && (a.call.MoveCall? || job.source !in w.disk.names ==> a.pc != Threw && (a.pc.Returned? ==> a.pc.outcome.Some?))
    && (a.pc.Returned? && a.pc.outcome.Some? ==> a.pc.outcome.value.status == Completed)
    && (a.call.RecoverCall? && job.source in w.disk.names ==>
          v.disk == w.disk && v.journals == w.journals && (a.pc.Returned? ==> a.pc.outcome.None?))
    && (a.call.RecoverCall? && job.source !in w.disk.names ==> job.source !in v.disk.names)
  }

  lemma StandingStep(w: World, v: World, v': World, job: Job, length: nat)
    requires Standing(w, v, job, length) && StepsOn(v, v', job) && 0 < Rank(v.active.value.pc)
    requires CallOf(job, v.active.value.call)
    ensures Standing(w, v', job, length + 1)
  {
  }

  lemma {:induction false} Stands(w: World, call: Call, es: seq<Event>, job: Job, base: map<Name, Ino>)
    requires Quiet(w, job, base) && CallOf(job, call) && Legal(w, es) && Uninterrupted(es, call)
    ensures Quiet(Exec(w, es), job, base) && Standing(w, Exec(w, es), job, |es|)
    ensures Exec(w, es).active.value.call == call
    decreases |es|
  {
    var prefix, e := es[..|es| - 1], es[|es| - 1];
    if |es| == 1 {
      assert prefix == [];
      QuietEvent(w, e, job, base);
    } else {
      Stands(w, call, prefix, job, base);
      var v := Exec(w, prefix);
      RunningRank(v.disk, v.active.value, job);
      QuietTick(v, job, base, e.pick);
      StandingStep(w, v, Exec(w, es), job, |prefix|);
    }
  }

  // Crash-restart completeness: after any schedule of calls, steps and deaths, at any point and
  // inside retries too, the next uninterrupted move ends after at most 31 events, never in
  // failure, and only with the move done.  (A step is possible as long as it has not ended.)
  lemma CrashedMovesComplete(w: World, es: seq<Event>, call: Call, es': seq<Event>, job: Job, base: map<Name, Ino>)
    requires Quiet(w, job, base) && Legal(w, es) && forall i :: 0 <= i < |es| ==> Ours(job, es[i])
    requires call.MoveCall? && CallOf(job, call) && Legal(Exec(w, es), es') && Uninterrupted(es', call)
    ensures var v := Exec(Exec(w, es), es');
      && v.active.Some? && |es'| <= 31 && v.active.value.pc != Threw
      && (if Running(v) then |es'| < 31 && exists pick :: Enabled(v, Tick(pick)) else Moved(v, job, base))
  {
    QuietAlways(w, es, job, base);
    var u := Exec(w, es);
    Stands(u, call, es', job, base);
    var v := Exec(u, es');
    if Running(v) {
      RunningRank(v.disk, v.active.value, job);
      StepPossible(v);
    } else {
      CompletedIsMoved(v, job, base);
    }
  }

  // Historical recovery admits nothing: it ends with the move done exactly when the capture rename
  // had already taken the source away, and otherwise leaves every name and journal as they were.
  lemma HistoryCompletesExactly(w: World, es: seq<Event>, call: Call, es': seq<Event>, job: Job, base: map<Name, Ino>)
    requires Quiet(w, job, base) && Legal(w, es) && forall i :: 0 <= i < |es| ==> Ours(job, es[i])
    requires call.RecoverCall? && CallOf(job, call) && Legal(Exec(w, es), es') && Uninterrupted(es', call)
    ensures var u, v := Exec(w, es), Exec(Exec(w, es), es');
      && v.active.Some? && |es'| <= 31 && (Running(v) ==> |es'| < 31 && exists pick :: Enabled(v, Tick(pick)))
      && (job.source in u.disk.names ==> v.disk == u.disk && v.journals == u.journals)
      && (!Running(v) ==>
            ((v.active.value.pc.Returned? && v.active.value.pc.outcome.Some? && Moved(v, job, base)) <==> job.source !in u.disk.names))
  {
    QuietAlways(w, es, job, base);
    var u := Exec(w, es);
    Stands(u, call, es', job, base);
    var v := Exec(u, es');
    if Running(v) {
      RunningRank(v.disk, v.active.value, job);
      StepPossible(v);
    } else if job.source !in u.disk.names {
      CompletedIsMoved(v, job, base);
    }
  }

  // From a fresh job: nothing journaled, the file in its place, the destination vacant.
  ghost predicate Fresh(w: World, job: Job) {
    && Inv(w) && w.active.None? && JobOk(w.disk, job) && job.owner !in w.journals
    && Holds(w.disk, job.source, job.ino) && job.destination !in w.disk.names
    && forall c :: c in w.disk.containers ==> w.disk.containers[c].owner != job.owner
  }

  lemma FreshMoveCompletes(w: World, es: seq<Event>, call: Call, es': seq<Event>, job: Job)
    requires Fresh(w, job) && Legal(w, es) && forall i :: 0 <= i < |es| ==> Ours(job, es[i])
    requires call.MoveCall? && CallOf(job, call) && Legal(Exec(w, es), es') && Uninterrupted(es', call)
    ensures var v := Exec(Exec(w, es), es');
      && v.active.Some? && |es'| <= 31 && v.active.value.pc != Threw
      && (if Running(v) then |es'| < 31 && exists pick :: Enabled(v, Tick(pick)) else Moved(v, job, w.disk.names))
  {
    FreshJobIsQuiet(w, job);
    CrashedMovesComplete(w, es, call, es', job, w.disk.names);
  }
}
