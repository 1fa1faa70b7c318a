// Where conservation stops: moving a name onto itself.  The exclusive link fails, but the intent
// is on record, so the retry takes the source for its own verified destination and deletes it.
// Without other programs that is the only way for a move to lose its file.
module SelfMove {
  import opened Wrappers
  import opened FileSystem
  import opened Protocol
  import opened ProtocolInvariant
  import opened ProtocolSteps
  import opened ProtocolSafety
  import opened ProtocolAuthority

  // A file with one name, which is to be moved onto itself.
  datatype Job = Job(owner: string, file: Name, ino: Ino, digest: string, checksum: Option<string>)

  function CallOf(job: Job): Call {
    MoveCall(job.owner, job.file, job.file, job.checksum)
  }

  function IntentOf(job: Job): Journal {
    Journal(Move, Some(job.file), job.file, Intent, Some(FileIdentity(job.ino, job.digest)), false, None, None, None)
  }

  ghost predicate Sole(k: Disk, job: Job) {
    && Public(k, job.file) && Holds(k, job.file, job.ino) && job.ino in k.nodes && k.nodes[job.ino] == File(job.digest)
    && forall n :: n in k.names && k.names[n] == job.ino ==> n == job.file
  }

  // A quiet run: calls and their steps only.
  ghost predicate Quiet(es: seq<Event>, call: Call) {
    forall e | e in es :: e.Tick? || e.Die? || e == Start(call)
  }

  ghost predicate Reaches(w: World, call: Call, v: World) {
    exists es: seq<Event> :: Quiet(es, call) && Legal(w, es) && Exec(w, es) == v
  }

  lemma ReachesSelf(w: World, call: Call)
    ensures Reaches(w, call, w)
  {
    assert Legal(w, []) && Exec(w, []) == w && Quiet([], call);
  }

  lemma ReachesNext(w: World, call: Call, v: World, e: Event)
    requires Reaches(w, call, v) && Enabled(v, e) && (e.Tick? || e == Start(call))
    ensures Reaches(w, call, Next(v, e))
  {
    var es: seq<Event> :| Quiet(es, call) && Legal(w, es) && Exec(w, es) == v;
    var es' := es + [e];
    assert es'[..|es'| - 1] == es;
    assert Legal(w, es') && Exec(w, es') == Next(v, e) && Quiet(es', call);
  }

  lemma ReachesInv(w: World, call: Call, v: World)
    requires Inv(w) && Reaches(w, call, v)
    ensures Inv(v)
  {
    var es: seq<Event> :| Quiet(es, call) && Legal(w, es) && Exec(w, es) == v;
    InvAlways(w, es);
  }

  // The running call stands here; `pc` is what its next step starts from.
  ghost predicate At(w: World, v: World, job: Job, pc: Pc, entry: Journal) {
    && Inv(w) && Reaches(w, CallOf(job), v) && v.active.Some? && Running(v)
    && v.active.value.call == CallOf(job) && v.active.value.pc == pc && v.active.value.entry == entry
  }

  lemma Step(w: World, v: World, job: Job) returns (u: World, pick: Pick)
    requires Inv(w) && Reaches(w, CallOf(job), v) && Running(v)
    ensures PickOk(v.disk, pick) && Typed(v.active.value) && Inv(v) && Inv(u)
    ensures u == Apply(v, NextAction(v.disk, v.journals, v.active.value, pick)) && Reaches(w, CallOf(job), u)
  {
    ReachesInv(w, CallOf(job), v);
    StepPossible(v);
    pick :| Enabled(v, Tick(pick));
    ReachesNext(w, CallOf(job), v, Tick(pick));
    u := Next(v, Tick(pick));
    ReachesInv(w, CallOf(job), u);
  }

  // ---- the first call ----

  ghost predicate Idle(w: World, job: Job) {
    && Inv(w) && !Running(w) && job.owner !in w.journals && Sole(w.disk, job)
    && (Given(job.checksum) ==> job.checksum.value == job.digest)
  }

  lemma Loads(w: World, v0: World, job: Job) returns (v: World)
    requires Idle(w, job) && Reaches(w, CallOf(job), v0) && v0 == w.(active := Some(Begin(CallOf(job))))
    ensures At(w, v, job, Moving(SaveIntent), IntentOf(job)) && v.disk == w.disk && v.journals == w.journals
  {
    hide NextRecover, NextOwnedSource, NextCreate, NextRemove, NextFinish, Perform, Inv, Legal, Exec, Reaches;
    var pick;
    v, pick := Step(w, v0, job);
    assert v.active == Some(v0.active.value.(pc := Moving(ReadSource)));
    v, pick := Step(w, v, job);
  }

  // It records its intent and throws at the link.
  lemma FirstCall(w: World, v0: World, job: Job) returns (v: World)
    requires Idle(w, job) && Reaches(w, CallOf(job), v0) && v0 == w.(active := Some(Begin(CallOf(job))))
    ensures Reaches(w, CallOf(job), v) && v.disk == w.disk && v.journals == w.journals[job.owner := IntentOf(job)] && !Running(v)
  {
    hide NextLoad, NextRecover, NextOwnedSource, NextCreate, NextRemove, NextFinish, Inv, Legal, Exec, Reaches;
    var pick;
    v := Loads(w, v0, job);
    v, pick := Step(w, v, job);
    v, pick := Step(w, v, job);
  }

  // ---- the retry ----

  lemma RetryLoads(w: World, v0: World, job: Job) returns (v: World)
    requires Idle(w, job) && Reaches(w, CallOf(job), v0)
    requires v0 == World(w.disk, w.journals[job.owner := IntentOf(job)], Some(Begin(CallOf(job))))
    ensures At(w, v, job, Recovering(StatSource), IntentOf(job)) && v.disk == v0.disk && v.journals == v0.journals
  {
    hide NextRecover, NextOwnedSource, NextCreate, NextRemove, NextFinish, Perform, Inv, Legal, Exec, Reaches;
    var pick;
    v, pick := Step(w, v0, job);
  }

  lemma RetryLooks(w: World, v0: World, job: Job) returns (v: World)
    requires At(w, v0, job, Recovering(StatSource), IntentOf(job)) && Sole(v0.disk, job)
    ensures At(w, v, job, Recovering(StatCapture), IntentOf(job)) && v.disk == v0.disk && v.journals == v0.journals
    ensures v.active.value.sourceSeen == Some(File(job.digest))
  {
    hide NextLoad, NextMove, NextOwnedSource, NextCreate, NextRemove, NextFinish, Perform, Inv, Legal, Exec, Reaches;
    var pick;
    v, pick := Step(w, v0, job);
    v, pick := Step(w, v, job);
    v, pick := Step(w, v, job);
  }

  // No capture is recorded and the source is there, so it is taken for the file's second name.
  lemma RetryMistakes(w: World, v0: World, job: Job) returns (v: World)
    requires At(w, v0, job, Recovering(StatCapture), IntentOf(job)) && Sole(v0.disk, job)
    requires v0.active.value.sourceSeen == Some(File(job.digest))
    ensures At(w, v, job, Owning(MakeCapture), IntentOf(job)) && v.active.value.allow
    ensures v.disk == v0.disk && v.journals == v0.journals
  {
    hide NextLoad, NextMove, NextOwnedSource, NextCreate, NextRemove, NextFinish, Perform, Inv, Legal, Exec, Reaches;
    var pick;
    v, pick := Step(w, v0, job);
    assert v.active == Some(v0.active.value.(pc := Recovering(ReadSourceAgain), captureSeen := false));
    v, pick := Step(w, v, job);
  }

  // ---- the capture ----

  // A private directory is there, empty, and the file still where it was.
  ghost predicate Captures(v: World, job: Job) {
    v.active.Some? &&
    var a := v.active.value;
    && a.allow && Sole(v.disk, job) && CapturedSource(a.cap) !in v.disk.names
    && DirectoryAt(v.disk, a.cap.at, a.cap.ino) && a.cap.at.dir == job.file.dir && MOVE_PREFIX <= a.cap.at.base
  }

  lemma FreshDirectory(k: Disk, job: Job, at: Name, ino: Ino, owner: string)
    requires WellFormed(k) && Sole(k, job) && at !in k.names && ino !in k.nodes && PrivateBase(at.base)
    ensures var made := Perform(k, Mkdtemp(at, ino, owner));
      made.Some? && Sole(made.value, job) && DirectoryAt(made.value, at, ino) && Name(ino, "source") !in made.value.names
  {
  }

  lemma MakesDirectory(w: World, v0: World, job: Job) returns (v: World)
    requires At(w, v0, job, Owning(MakeCapture), IntentOf(job)) && Sole(v0.disk, job) && v0.active.value.allow
    ensures At(w, v, job, Owning(SaveCapture), IntentOf(job)) && Captures(v, job)
  {
    ReachesInv(w, CallOf(job), v0);
    WellFormedNow(v0);
    hide NextLoad, NextMove, NextRecover, NextCreate, NextRemove, NextFinish, Inv, Legal, Exec, Reaches, Perform, Sole, WellFormed;
    hide PickOk, NextAction, NextOwnedSource, DirectoryAt;
    var pick;
    v, pick := Step(w, v0, job);
    MakeAction(v0.disk, v0.journals, v0.active.value, pick);
    FreshName(v0.disk, pick, job.file.dir);
    FreshDirectory(v0.disk, job, Name(job.file.dir, MOVE_PREFIX + pick.suffix), pick.ino, job.owner);
  }

  lemma MakeAction(k: Disk, js: map<string, Journal>, a: Attempt, pick: Pick)
    requires Typed(a) && a.pc == Owning(MakeCapture)
    ensures var at := Name(a.entry.source.value.dir, MOVE_PREFIX + pick.suffix);
      NextAction(k, js, a, pick) == Try(a.(cap := Capture(at, pick.ino)), Mkdtemp(at, pick.ino, a.call.owner), Owning(SaveCapture))
  {
  }

  lemma FreshName(k: Disk, pick: Pick, dir: Ino)
    requires PickOk(k, pick)
    ensures Name(dir, MOVE_PREFIX + pick.suffix) !in k.names && pick.ino !in k.nodes && PrivateBase(MOVE_PREFIX + pick.suffix)
  {
  }

  lemma MakesCapture(w: World, v0: World, job: Job) returns (v: World)
    requires At(w, v0, job, Owning(MakeCapture), IntentOf(job)) && Sole(v0.disk, job) && v0.active.value.allow
    ensures v.active.Some? && At(w, v, job, Owning(CheckCapture), IntentOf(job).(sourceCapture := Some(v.active.value.cap)))
    ensures Captures(v, job)
  {
    hide NextLoad, NextMove, NextRecover, NextCreate, NextRemove, NextFinish, Inv, Legal, Exec, Reaches, Perform, Sole;
    v := MakesDirectory(w, v0, job);
    var pick;
    v, pick := Step(w, v, job);
  }

  lemma WellFormedNow(v: World)
    requires Inv(v)
    ensures WellFormed(v.disk)
  {
  }

  lemma ChecksCapture(w: World, v0: World, job: Job) returns (v: World)
    requires v0.active.Some? && At(w, v0, job, Owning(CheckCapture), IntentOf(job).(sourceCapture := Some(v0.active.value.cap)))
    requires Captures(v0, job)
    ensures v.active.Some? && v.active.value.cap == v0.active.value.cap
    ensures At(w, v, job, Owning(RenameSource), v0.active.value.entry) && Captures(v, job)
  {
    hide NextLoad, NextMove, NextRecover, NextCreate, NextRemove, NextFinish, Inv, Legal, Exec, Reaches, Perform;
    var pick;
    v, pick := Step(w, v0, job);
    v, pick := Step(w, v, job);
    v, pick := Step(w, v, job);
  }

  // The captured name is the file's only one.
  ghost predicate OnlyCaptured(v: World, job: Job) {
    v.active.Some? &&
    var captured := CapturedSource(v.active.value.cap);
    && Holds(v.disk, captured, job.ino) && job.ino in v.disk.nodes && v.disk.nodes[job.ino] == File(job.digest)
    && forall n :: n in v.disk.names && v.disk.names[n] == job.ino ==> n == captured
  }

  lemma Takes(w: World, v0: World, job: Job) returns (v: World)
    requires v0.active.Some? && At(w, v0, job, Owning(RenameSource), IntentOf(job).(sourceCapture := Some(v0.active.value.cap)))
    requires Captures(v0, job)
    ensures v.active.Some? && At(w, v, job, Owning(UnlinkCaptured), v0.active.value.entry) && OnlyCaptured(v, job)
  {
    hide NextLoad, NextMove, NextRecover, NextCreate, NextRemove, NextFinish, Inv, Legal, Exec, Reaches;
    var pick;
    v, pick := Step(w, v0, job);
    assert OnlyCaptured(v, job);
    v, pick := Step(w, v, job);
  }

  lemma Deletes(w: World, v0: World, job: Job) returns (v: World)
    requires v0.active.Some? && At(w, v0, job, Owning(UnlinkCaptured), v0.active.value.entry) && OnlyCaptured(v0, job)
    ensures Reaches(w, CallOf(job), v) && !Reachable(v.disk, job.ino)
  {
    hide NextLoad, NextMove, NextRecover, NextCreate, NextRemove, NextFinish, Inv, Legal, Exec, Reaches;
    var pick;
    v, pick := Step(w, v0, job);
  }

  // From every idle state: a file with one name, two quiet calls to move it to that same name, and
  // the file is gone.
  lemma SelfMoveLosesTheFile(w: World, job: Job) returns (v: World)
    requires Idle(w, job)
    ensures Reaches(w, CallOf(job), v) && Reachable(w.disk, job.ino) && !Reachable(v.disk, job.ino)
  {
    hide Inv, Legal, Exec, Reaches;
    ReachesSelf(w, CallOf(job));
    ReachesNext(w, CallOf(job), w, Start(CallOf(job)));
    v := FirstCall(w, Next(w, Start(CallOf(job))), job);
    ReachesNext(w, CallOf(job), v, Start(CallOf(job)));
    v := RetryLoads(w, Next(v, Start(CallOf(job))), job);
    v := RetryLooks(w, v, job);
    v := RetryMistakes(w, v, job);
    v := MakesCapture(w, v, job);
    v := ChecksCapture(w, v, job);
    v := Takes(w, v, job);
    v := Deletes(w, v, job);
    assert w.disk.names[job.file] == job.ino;
  }

  // ---- and only then ----

  // What every state of such a run keeps when source and destination differ.
  ghost predicate Safe(w: World, call: Call, ino: Ino) {
    && Inv(w) && Held(w) && Entitled(w, call) && Reachable(w.disk, ino) && FileInode(w.disk, ino)
    && (Running(w) ==> w.active.value.call == call)
  }

  lemma SafeNext(w: World, e: Event, call: Call, ino: Ino)
    requires Safe(w, call, ino) && Enabled(w, e) && (e.Tick? || e.Die? || e == Start(call))
    requires call.MoveCall? && call.source != call.destination
    ensures Safe(Next(w, e), call, ino)
  {
    hide JournalsOk, CallOk, PickOk, NextLoad, NextRecover, NextMove, NextOwnedSource, NextCreate, NextRemove, NextFinish;
    EventKeeps(w, e);
    if e.Tick? {
      SafeTick(w, e.pick, call, ino);
    }
  }

  lemma SafeTick(w: World, pick: Pick, call: Call, ino: Ino)
    requires Safe(w, call, ino) && Enabled(w, Tick(pick))
    requires call.MoveCall? && call.source != call.destination
    ensures Held(Next(w, Tick(pick))) && Entitled(Next(w, Tick(pick)), call)
    ensures Reachable(Next(w, Tick(pick)).disk, ino) && FileInode(Next(w, Tick(pick)).disk, ino)
    ensures Next(w, Tick(pick)).active.value.call == call
  {
    hide JournalsOk, CallOk, PickOk, NextLoad, NextRecover, NextMove, NextOwnedSource, NextCreate, NextRemove, NextFinish, Held;
    var a := w.active.value;
    TickGood(w, pick);
    HeldTick(w, pick);
    EntitledTick(w, pick, call);
    TickNodes(w, pick);
    if a.pc == Owning(UnlinkCaptured) {
      assert w.journals[call.owner] == a.entry;
      HeldConserves(w, pick, ino);
    } else {
      LossExactly(w, pick, ino);
    }
  }

  lemma {:induction false} SafeAlways(w: World, es: seq<Event>, call: Call, ino: Ino)
    requires Safe(w, call, ino) && Legal(w, es) && Quiet(es, call)
    requires call.MoveCall? && call.source != call.destination
    ensures Safe(Exec(w, es), call, ino)
    decreases |es|
  {
    if es != [] {
      SafeAlways(w, es[..|es| - 1], call, ino);
      SafeNext(Exec(w, es[..|es| - 1]), es[|es| - 1], call, ino);
    }
  }

  // Without other programs, some schedule of calls, steps and deaths loses the file exactly when the
  // move names one place twice.
  lemma LosesExactlySelfMoves(w: World, job: Job, destination: Name)
    requires Idle(w, job) && Public(w.disk, destination)
    requires w.active.Some? ==> w.active.value.call.owner != job.owner
    ensures var call := MoveCall(job.owner, job.file, destination, job.checksum);
      (exists v :: Reaches(w, call, v) && !Reachable(v.disk, job.ino)) <==> destination == job.file
  {
    var call := MoveCall(job.owner, job.file, destination, job.checksum);
    if destination == job.file {
      var v := SelfMoveLosesTheFile(w, job);
    } else {
      assert w.disk.names[job.file] == job.ino;
      assert Safe(w, call, job.ino);
      forall v | Reaches(w, call, v) ensures Reachable(v.disk, job.ino) {
        var es: seq<Event> :| Quiet(es, call) && Legal(w, es) && Exec(w, es) == v;
        SafeAlways(w, es, call, job.ino);
      }
    }
  }
}
