// Creating a folder without outside interference: what the call does, from which states a replay
// completes, and the one crash that leaves the creation unfinished for good.
module QuietCreate {
  import opened Wrappers
  import opened FileSystem
  import opened Protocol
  import opened ProtocolInvariant
  import opened ProtocolSteps
  import opened ProtocolSafety
  import opened ProtocolOutcomes

  // The creation of a folder at `target`.
  datatype Creation = Creation(owner: string, target: Name)

  predicate CallOf(c: Creation, call: Call) {
    match call
    case CreateCall(o, target) => o == c.owner && target == c.target
    case RecoverCall(o, expected) =>
      o == c.owner && (expected.Some? ==>
        expected.value.kind == CreateFolder && expected.value.source.None? && expected.value.destination == c.target)
    case _ => false
  }

  // Where the target stands: as it was before everything, or made by this creation and still empty.
  predicate AsBefore(k: Disk, c: Creation, before: Disk) {
    (c.target in k.names <==> c.target in before.names) && (c.target in k.names ==> k.names[c.target] == before.names[c.target])
  }

  predicate Made(k: Disk, c: Creation, before: Disk) {
    && c.target !in before.names && StatAt(k, c.target) == Some(Directory) && k.names[c.target] !in before.nodes
    && Empty(k, k.names[c.target])
  }

  predicate Settled(k: Disk, j: Journal, c: Creation, before: Disk) {
    && j.created == (c.target !in before.names)
    && (if j.created then Made(k, c, before) else AsBefore(k, c, before))
    && StatAt(k, c.target) == Some(Directory) && j.identity == Some(FileIdentity(k.names[c.target], ""))
  }

  predicate JournalOf(c: Creation, j: Journal) {
    j.kind == CreateFolder && j.destination == c.target && j.source.None?
  }

  predicate Placed(k: Disk, js: map<string, Journal>, c: Creation, before: Disk) {
    if c.owner !in js then AsBefore(k, c, before)
    else
      && JournalOf(c, js[c.owner])
      && if js[c.owner].status == Completed then Settled(k, js[c.owner], c, before)
         else js[c.owner].status == Intent && (AsBefore(k, c, before) || Made(k, c, before))
  }

  // Every other name is as it was.
  ghost predicate Rest(k: Disk, c: Creation, before: Disk) {
    && (forall n | n != c.target :: n in k.names <==> n in before.names)
    && (forall n | n != c.target && n in k.names :: k.names[n] == before.names[n])
  }

  predicate InCreating(k: Disk, js: map<string, Journal>, a: Attempt, c: Creation, before: Disk)
    requires a.pc.Creating?
  {
    var recorded := c.owner in js;
    && a.call.CreateCall?
    && match a.pc.c {
         case StatFolder => recorded && js[c.owner].status == Intent
         case SaveFolderIntent => recorded ==> js[c.owner].status == Intent && c.target !in k.names
         case MakeFolder => recorded && js[c.owner].status == Intent && AsBefore(k, c, before) && !a.entry.created
         case StatMade =>
           && recorded && js[c.owner].status == Intent && c.target in k.names
           && (if a.entry.created then Made(k, c, before) else AsBefore(k, c, before))
         case SaveFolder => recorded && js[c.owner].status == Intent && a.entry.status == Completed && Settled(k, a.entry, c, before)
       }
  }

  predicate Underway(k: Disk, js: map<string, Journal>, a: Attempt, c: Creation, before: Disk) {
    && CallOf(c, a.call)
    && match a.pc {
         case Load | Returned(_) | Threw => true
         case Creating(_) => InCreating(k, js, a, c, before)
         case _ => false
       }
  }

  // Every state a quiet run of the creation can reach.
  ghost predicate Quiet(w: World, c: Creation, before: Disk) {
    && Inv(w) && Public(w.disk, c.target) && Placed(w.disk, w.journals, c, before) && Rest(w.disk, c, before)
    && (forall n :: n in before.names ==> n.dir in before.nodes) && (forall i :: i in before.nodes ==> i in w.disk.nodes)
    && w.disk.containers == before.containers
    && (w.active.Some? ==> Underway(w.disk, w.journals, w.active.value, c, before) && Reported(w.journals, w.active.value))
  }

  function Rank(pc: Pc): nat {
    match pc
    case Load => 6
    case Creating(c) =>
      (match c case StatFolder => 5 case SaveFolderIntent => 4 case MakeFolder => 3 case StatMade => 2 case SaveFolder => 1)
    case _ => 0
  }

  // The target is vacant, or a folder already.
  predicate Open(k: Disk, c: Creation) {
    c.target !in k.names || StatAt(k, c.target) == Some(Directory)
  }

  // Whether a call that begins in this state will complete.
  predicate WillComplete(k: Disk, js: map<string, Journal>, call: Call, c: Creation) {
    if c.owner in js then js[c.owner].status == Completed || (call.CreateCall? && c.target !in k.names)
    else call.CreateCall? && Open(k, c)
  }

  // The running call is bound to complete.
  predicate Bound(k: Disk, js: map<string, Journal>, a: Attempt, c: Creation) {
    match a.pc
    case Load => WillComplete(k, js, a.call, c)
    case Creating(p) =>
      (match p
       case StatFolder => c.target !in k.names
       case SaveFolderIntent => Open(k, c)
       case MakeFolder => Open(k, c)
       case StatMade => StatAt(k, c.target) == Some(Directory)
       case SaveFolder => true)
    case Returned(outcome) => outcome.Some?
    case _ => false
  }

  // ---- one step ----

  // Nearer to the end, bound or unbound as before; an unbound call changes nothing on the disk.
  ghost predicate StepsOn(w: World, w': World, c: Creation) {
    w.active.Some? && w'.active.Some? &&
    var a, b := w.active.value, w'.active.value;
    && b.call == a.call && (Halted(b) || Rank(b.pc) < Rank(a.pc))
    && Bound(w'.disk, w'.journals, b, c) == Bound(w.disk, w.journals, a, c)
    && (!Bound(w.disk, w.journals, a, c) ==> w'.disk == w.disk)
  }

  // All that a step of a quiet run has to show.
  ghost predicate Advances(k: Disk, js: map<string, Journal>, a: Attempt, action: Action, c: Creation, before: Disk) {
    var w' := Apply(World(k, js, Some(a)), action);
    && w'.active.Some? && Placed(w'.disk, w'.journals, c, before) && Rest(w'.disk, c, before)
    && Underway(w'.disk, w'.journals, w'.active.value, c, before) && w'.disk.containers == k.containers
    && StepsOn(World(k, js, Some(a)), w', c)
  }

  lemma LoadAdvances(k: Disk, js: map<string, Journal>, a: Attempt, c: Creation, before: Disk)
    requires Placed(k, js, c, before) && Rest(k, c, before) && Underway(k, js, a, c, before) && a.pc.Load?
    ensures Advances(k, js, a, NextLoad(js, a), c, before)
  {
    hide Perform, Rest, Settled, Made, AsBefore, StatAt;
  }

  lemma ReadAdvances(k: Disk, js: map<string, Journal>, a: Attempt, c: Creation, before: Disk, pick: Pick)
    requires Placed(k, js, c, before) && Rest(k, c, before) && Underway(k, js, a, c, before)
    requires a.pc == Creating(StatFolder) || a.pc == Creating(StatMade)
    ensures Advances(k, js, a, NextCreate(k, a, pick), c, before)
  {
    hide Perform, Rest;
  }

  lemma WriteAdvances(k: Disk, js: map<string, Journal>, a: Attempt, c: Creation, before: Disk, pick: Pick)
    requires Placed(k, js, c, before) && Rest(k, c, before) && Underway(k, js, a, c, before)
    requires a.pc == Creating(SaveFolderIntent) || (a.pc == Creating(SaveFolder) && JournalOf(c, a.entry))
    ensures Advances(k, js, a, NextCreate(k, a, pick), c, before)
  {
    hide Perform, Rest;
  }

  lemma MkdirAdvances(k: Disk, js: map<string, Journal>, a: Attempt, c: Creation, before: Disk, pick: Pick)
    requires Placed(k, js, c, before) && Rest(k, c, before) && Underway(k, js, a, c, before)
    requires a.pc == Creating(MakeFolder) && pick.ino !in k.nodes && c.target.dir in k.nodes
    requires (forall n :: n in k.names ==> n.dir in k.nodes) && forall i :: i in before.nodes ==> i in k.nodes
    requires c.target in k.names ==> k.names[c.target] in k.nodes
    ensures Advances(k, js, a, NextCreate(k, a, pick), c, before)
  {
    var made := Perform(k, Mkdir(c.target, pick.ino));
    assert made.Some? ==> Made(made.value, c, before);
  }

  lemma StepAdvances(k: Disk, js: map<string, Journal>, a: Attempt, c: Creation, before: Disk, pick: Pick)
    requires Placed(k, js, c, before) && Rest(k, c, before) && Underway(k, js, a, c, before)
    requires AttemptOk(k, js, a) && !Halted(a) && pick.ino !in k.nodes && c.target.dir in k.nodes
    requires (forall n :: n in k.names ==> n.dir in k.nodes && k.names[n] in k.nodes) && forall i :: i in before.nodes ==> i in k.nodes
    ensures Advances(k, js, a, NextAction(k, js, a, pick), c, before)
  {
    hide NextLoad, NextCreate, Advances, Perform;
    match a.pc {
      case Load => LoadAdvances(k, js, a, c, before);
      case Creating(p) =>
        match p {
          case StatFolder | StatMade => ReadAdvances(k, js, a, c, before, pick);
          case MakeFolder => MkdirAdvances(k, js, a, c, before, pick);
          case _ => WriteAdvances(k, js, a, c, before, pick);
        }
    }
  }

  lemma QuietTick(w: World, c: Creation, before: Disk, pick: Pick)
    requires Quiet(w, c, before) && Enabled(w, Tick(pick))
    ensures Quiet(Next(w, Tick(pick)), c, before) && StepsOn(w, Next(w, Tick(pick)), c)
  {
    hide NextAction, Placed, Rest, Underway, StepsOn, JournalsOk, Perform;
    var a := w.active.value;
    StepAdvances(w.disk, w.journals, a, c, before, pick);
    EventKeeps(w, Tick(pick));
    ReportedTick(w, pick);
    TickNodes(w, pick);
    TickPublic(w, pick, c.target);
  }

  lemma TickPublic(w: World, pick: Pick, n: Name)
    requires Inv(w) && Enabled(w, Tick(pick)) && Public(w.disk, n)
    ensures Public(Next(w, Tick(pick)).disk, n)
  {
    TickPermitted(w, pick);
    var action, o := ActionOf(w, pick), w.active.value.call.owner;
    if action.Make? && Perform(w.disk, action.call).Some? {
      PermittedKeeps(w.disk, o, action.call);
      PublicFrame(w.disk, Perform(w.disk, action.call).value, o, n);
    }
  }

  // ---- schedules ----

  // Calls of this creation, steps, and deaths at any moment; no other program interferes.
  predicate Ours(c: Creation, e: Event) {
    match e
    case Outside(_) => false
    case Start(call) => CallOf(c, call)
    case Tick(_) => true
    case Die => true
  }

  lemma FreshCreationIsQuiet(w: World, c: Creation)
    requires Inv(w) && Public(w.disk, c.target) && c.owner !in w.journals && w.active.None?
    ensures Quiet(w, c, w.disk)
  {
  }

  lemma QuietEvent(w: World, e: Event, c: Creation, before: Disk)
    requires Quiet(w, c, before) && Enabled(w, e) && Ours(c, e)
    ensures Quiet(Next(w, e), c, before)
  {
    EventKeeps(w, e);
    if e.Tick? { QuietTick(w, c, before, e.pick); }
  }

  lemma {:induction false} QuietAlways(w: World, es: seq<Event>, c: Creation, before: Disk)
    requires Quiet(w, c, before) && Legal(w, es) && forall i :: 0 <= i < |es| ==> Ours(c, es[i])
    ensures Quiet(Exec(w, es), c, before)
    decreases |es|
  {
    if es != [] {
      QuietAlways(w, es[..|es| - 1], c, before);
      QuietEvent(Exec(w, es[..|es| - 1]), es[|es| - 1], c, before);
    }
  }

  // The folder is there under its final journal: made by this creation, empty and new, exactly when
  // there was none before; and no other name has changed.
  ghost predicate FolderMade(w: World, c: Creation, before: Disk) {
    && c.owner in w.journals && JournalOf(c, w.journals[c.owner]) && w.journals[c.owner].status == Completed
    && Settled(w.disk, w.journals[c.owner], c, before) && Rest(w.disk, c, before) && w.disk.containers == before.containers
  }

  ghost predicate Standing(w: World, v: World, c: Creation, length: nat) {
    v.active.Some? &&
    var a := v.active.value;
    && length + Rank(a.pc) <= 7
    && Bound(v.disk, v.journals, a, c) == WillComplete(w.disk, w.journals, a.call, c)
    && (!WillComplete(w.disk, w.journals, a.call, c) ==> v.disk == w.disk)
  }

  lemma {:induction false} Stands(w: World, call: Call, es: seq<Event>, c: Creation, before: Disk)
    requires Quiet(w, c, before) && CallOf(c, call) && Legal(w, es) && Uninterrupted(es, call)
    ensures Quiet(Exec(w, es), c, before) && Standing(w, Exec(w, es), c, |es|) && Exec(w, es).active.value.call == call
    decreases |es|
  {
    var prefix, e := es[..|es| - 1], es[|es| - 1];
    if |es| == 1 {
      assert prefix == [];
      QuietEvent(w, e, c, before);
    } else {
      Stands(w, call, prefix, c, before);
      var v := Exec(w, prefix);
      RunningRank(v.disk, v.journals, v.active.value, c, before);
      QuietTick(v, c, before, e.pick);
      StandingStep(w, v, Exec(w, es), c, |prefix|);
    }
  }

  lemma RunningRank(k: Disk, js: map<string, Journal>, a: Attempt, c: Creation, before: Disk)
    requires Underway(k, js, a, c, before) && !Halted(a)
    ensures Rank(a.pc) > 0
  {
  }

  lemma StandingStep(w: World, v: World, v': World, c: Creation, length: nat)
    requires Standing(w, v, c, length) && StepsOn(v, v', c) && 0 < Rank(v.active.value.pc)
    ensures Standing(w, v', c, length + 1)
  {
    hide Bound, WillComplete;
  }

  lemma CompletedIsMade(w: World, c: Creation, before: Disk)
    requires Quiet(w, c, before) && c.owner in w.journals && w.journals[c.owner].status == Completed
    ensures FolderMade(w, c, before)
  {
  }

  // After any schedule of calls, steps and deaths, an uninterrupted creation or recovery ends within
  // 7 events.  It completes exactly when the outcome is on record, or it is a creation and the name
  // is vacant, or nothing is journaled yet and the name is a folder already; otherwise it changes no
  // name.
  lemma CreationReplay(w: World, es: seq<Event>, call: Call, es': seq<Event>, c: Creation, before: Disk)
    requires Quiet(w, c, before) && Legal(w, es) && forall i :: 0 <= i < |es| ==> Ours(c, es[i])
    requires CallOf(c, call) && Legal(Exec(w, es), es') && Uninterrupted(es', call)
    ensures var u, v := Exec(w, es), Exec(Exec(w, es), es');
      && v.active.Some? && |es'| <= 7 && (Running(v) ==> |es'| < 7 && exists pick :: Enabled(v, Tick(pick)))
      && (!WillComplete(u.disk, u.journals, call, c) ==> v.disk == u.disk)
      && (!Running(v) ==>
            ((v.active.value.pc.Returned? && v.active.value.pc.outcome.Some? && FolderMade(v, c, before)) <==>
             WillComplete(u.disk, u.journals, call, c)))
  {
    QuietAlways(w, es, c, before);
    var u := Exec(w, es);
    Stands(u, call, es', c, before);
    var v := Exec(u, es');
    if Running(v) {
      RunningRank(v.disk, v.journals, v.active.value, c, before);
      StepPossible(v);
    } else if WillComplete(u.disk, u.journals, call, c) {
      CompletedIsMade(v, c, before);
    }
  }

  // ---- the crash between mkdir and the final record ----

  // The folder is there, the journal says no more than that it was to be made, and no running call
  // knows better.
  ghost predicate Stuck(w: World, c: Creation) {
    && Inv(w) && c.owner in w.journals && JournalOf(c, w.journals[c.owner]) && w.journals[c.owner].status == Intent
    && c.target in w.disk.names
    && (Running(w) ==> CallOf(c, w.active.value.call) && (w.active.value.pc.Load? || w.active.value.pc == Creating(StatFolder)))
  }

  lemma StuckEvent(w: World, e: Event, c: Creation)
    requires Stuck(w, c) && Enabled(w, e) && Ours(c, e)
    ensures Stuck(Next(w, e), c) && Next(w, e).disk == w.disk && Next(w, e).journals == w.journals
    ensures e.Tick? && !Running(Next(w, e)) ==> Next(w, e).active.value.pc == Threw
  {
    EventKeeps(w, e);
  }

  // A death after the folder was made and before that was recorded.
  lemma DeathAfterMkdir(w: World, c: Creation, before: Disk)
    requires Quiet(w, c, before) && w.active.Some?
    requires w.active.value.pc == Creating(StatMade) || w.active.value.pc == Creating(SaveFolder)
    ensures Stuck(Next(w, Die), c)
  {
    EventKeeps(w, Die);
  }

  // It leaves the creation in need of recovery for good: every later call throws, and changes nothing.
  lemma {:induction false} StuckForever(w: World, es: seq<Event>, c: Creation)
    requires Stuck(w, c) && Legal(w, es) && forall i :: 0 <= i < |es| ==> Ours(c, es[i])
    ensures Stuck(Exec(w, es), c) && Exec(w, es).disk == w.disk && Exec(w, es).journals == w.journals
    decreases |es|
  {
    if es != [] {
      StuckForever(w, es[..|es| - 1], c);
      StuckEvent(Exec(w, es[..|es| - 1]), es[|es| - 1], c);
    }
  }
}
