// Safety of the protocol over every run: any sequence of calls, deaths and outside changes.
module ProtocolSafety {
  import opened Wrappers
  import opened FileSystem
  import opened Protocol
  import opened ProtocolInvariant
  import opened ProtocolSteps

  lemma InitialInv(w: World)
    requires Initial(w)
    ensures Inv(w) && Held(w)
  {
  }

  lemma {:induction false} InvAlways(w: World, es: seq<Event>)
    requires Inv(w) && Legal(w, es)
    ensures Inv(Exec(w, es))
    decreases |es|
  {
    if es != [] {
      InvAlways(w, es[..|es| - 1]);
      EventKeeps(Exec(w, es[..|es| - 1]), es[|es| - 1]);
    }
  }

  function ActionOf(w: World, pick: Pick): Action
    requires Running(w) && Typed(w.active.value)
  {
    NextAction(w.disk, w.journals, w.active.value, pick)
  }

  // ---- a running call can always take a step ----

  lemma {:induction false} FreshNumber(s: set<nat>) returns (n: nat)
    ensures forall i :: i in s ==> i < n
    decreases |s|
  {
    n := 0;
    if s != {} {
      var i :| i in s;
      var m := FreshNumber(s - {i});
      n := if i < m then m else i + 1;
      forall j | j in s ensures j < n { if j != i { assert j in s - {i}; } }
    }
  }

  function Zeros(n: nat): (s: string)
    ensures |s| == n
  {
    seq(n, i => '0')
  }

  lemma StepPossible(w: World)
    requires Inv(w) && Running(w)
    ensures exists pick :: Enabled(w, Tick(pick))
  {
    var names := w.disk.names.Keys + w.disk.containers.Keys;
    var ino := FreshNumber(w.disk.nodes.Keys);
    var lengths: set<nat> := set n | n in names :: |n.base|;
    var length := FreshNumber(lengths);
    var pick := Pick(ino, Zeros(length), None);
    forall n | n in w.disk.containers || n in w.disk.names
      ensures n.base != MOVE_PREFIX + pick.suffix && n.base != REMOVE_PREFIX + pick.suffix
    {
      assert n in names && |n.base| in lengths && |n.base| < length;
      assert |MOVE_PREFIX + pick.suffix| > |n.base| && |REMOVE_PREFIX + pick.suffix| > |n.base|;
    }
    assert PickOk(w.disk, pick);
    assert Enabled(w, Tick(pick));
  }

  // ---- which program counters make which system calls ----

  lemma UnlinkPc(w: World, pick: Pick)
    requires Running(w) && Typed(w.active.value)
    requires ActionOf(w, pick).Make? && ActionOf(w, pick).call.Unlink?
    ensures w.active.value.pc == Owning(UnlinkCaptured)
    ensures ActionOf(w, pick).call.target == CapturedSource(w.active.value.cap)
  {
  }

  lemma RenamePc(w: World, pick: Pick)
    requires Running(w) && Typed(w.active.value)
    requires ActionOf(w, pick).Make? && ActionOf(w, pick).call.Rename?
    ensures var a, call := w.active.value, ActionOf(w, pick).call;
      || (a.pc == Owning(RenameSource) && call == Rename(a.entry.source.value, CapturedSource(a.cap)))
      || (a.pc == Removing(RenameTarget) && call == Rename(a.call.target, CapturedDirectory(a.cap)))
  {
  }

  lemma RmdirPc(w: World, pick: Pick)
    requires Running(w) && Typed(w.active.value)
    requires ActionOf(w, pick).Make? && ActionOf(w, pick).call.Rmdir?
    ensures var a, call := w.active.value, ActionOf(w, pick).call;
      || (call.target == a.cap.at && (a.pc == Recovering(RemoveContainer) || a.pc == Owning(RemoveCapture) || a.pc == Finishing(CleanRemove)))
      || (call.target == CapturedDirectory(a.cap) && a.pc == Finishing(RemoveDirectory))
  {
  }

  // ---- no public name is ever overwritten ----

  lemma TickPermitted(w: World, pick: Pick)
    requires Inv(w) && Enabled(w, Tick(pick))
    ensures ActionOf(w, pick).Make? ==> Permitted(w.disk, w.active.value.call.owner, ActionOf(w, pick).call)
  {
    TickGood(w, pick);
  }

  // Across a step of the bridge a public name keeps its inode, or the very inode it denoted moves
  // to a name inside a private directory of the running call's owner.
  ghost predicate KeptOrCaptured(k: Disk, k': Disk, o: string, n: Name)
    requires n in k.names
  {
    if n in k'.names then k'.names[n] == k.names[n]
    else exists m :: m in k'.names && k'.names[m] == k.names[n] && OwnedDirectory(k, m.dir, o)
  }

  lemma PermittedOverwritesNothing(k: Disk, o: string, call: Syscall, n: Name)
    requires WellFormed(k) && Permitted(k, o, call) && Perform(k, call).Some? && Public(k, n) && n in k.names
    ensures KeptOrCaptured(k, Perform(k, call).value, o, n)
  {
    if call.Rename? && call.from == n { assert call.to in Perform(k, call).value.names; }
  }

  lemma NoOverwrite(w: World, pick: Pick, n: Name)
    requires Inv(w) && Enabled(w, Tick(pick)) && Public(w.disk, n) && n in w.disk.names
    ensures KeptOrCaptured(w.disk, Next(w, Tick(pick)).disk, w.active.value.call.owner, n)
  {
    TickPermitted(w, pick);
    var action := ActionOf(w, pick);
    if action.Make? && Perform(w.disk, action.call).Some? {
      PermittedOverwritesNothing(w.disk, w.active.value.call.owner, action.call, n);
    }
  }

  // ---- conservation of file contents ----

  predicate FileInode(k: Disk, ino: Ino) {
    ino in k.nodes && k.nodes[ino].File?
  }

  // What an inode is does not change under the bridge.
  predicate NodesStay(k: Disk, k': Disk) {
    forall i :: i in k.nodes ==> i in k'.nodes && k'.nodes[i] == k.nodes[i]
  }

  lemma TickNodes(w: World, pick: Pick)
    requires Inv(w) && Enabled(w, Tick(pick))
    ensures NodesStay(w.disk, Next(w, Tick(pick)).disk)
  {
    TickPermitted(w, pick);
  }

  lemma OnlyUnlinkLoses(k: Disk, o: string, call: Syscall, ino: Ino)
    requires WellFormed(k) && Permitted(k, o, call) && Perform(k, call).Some? && !call.Unlink?
    requires Reachable(k, ino) && FileInode(k, ino)
    ensures Reachable(Perform(k, call).value, ino)
  {
    var k' := Perform(k, call).value;
    var n :| n in k.names && k.names[n] == ino;
    if call.Rename? && call.from == n {
      assert k'.names[call.to] == ino;
    } else {
      assert n in k'.names && k'.names[n] == ino;
    }
  }

  // Exactly when a step of the bridge takes a file's last name away, under any interference: it
  // unlinks its own verified capture while nothing else, the destination included, names the file.
  lemma LossExactly(w: World, pick: Pick, ino: Ino)
    requires Inv(w) && Enabled(w, Tick(pick))
    requires Reachable(w.disk, ino) && FileInode(w.disk, ino)
    ensures var a := w.active.value;
      !Reachable(Next(w, Tick(pick)).disk, ino) <==>
        && a.pc == Owning(UnlinkCaptured) && a.entry.identity.value.ino == ino
        && forall n :: n in w.disk.names && w.disk.names[n] == ino ==> n == CapturedSource(a.cap)
  {
    hide JournalsOk, CallOk, PickOk, NextLoad, NextRecover, NextMove, NextCreate, NextRemove, NextFinish;
    var a, action, k := w.active.value, ActionOf(w, pick), w.disk;
    var k' := Next(w, Tick(pick)).disk;
    TickGood(w, pick);
    if a.pc == Owning(UnlinkCaptured) {
      var captured := CapturedSource(a.cap);
      assert action == Make(Unlink(captured), action.next, action.failed);
      if n :| n in k.names && k.names[n] == ino && n != captured {
        assert a.entry.identity.value.ino == ino ==> n in k'.names && k'.names[n] == ino;
      }
      if k.names[captured] != ino {
        var n :| n in k.names && k.names[n] == ino;
        assert n in k'.names && k'.names[n] == ino;
      }
    } else if action.Make? && Perform(k, action.call).Some? {
      if action.call.Unlink? { UnlinkPc(w, pick); }
      OnlyUnlinkLoses(k, a.call.owner, action.call, ino);
    } else {
      assert k' == k;
    }
  }

  // The destination of an unfinished move, while it holds the moved file.
  ghost predicate LinkedDestination(w: World, o: string) {
    && o in w.journals && w.journals[o].kind == Move && w.journals[o].status != Completed
    && w.journals[o].identity.Some? && w.journals[o].destination in w.disk.names
    && w.disk.names[w.journals[o].destination] == w.journals[o].identity.value.ino
  }

  // Other programs may do anything else, to source names above all.
  ghost predicate Keeping(w: World, e: Event) {
    e.Outside? ==> forall o | LinkedDestination(w, o) ::
      var d := w.journals[o].destination; d in e.disk.names && e.disk.names[d] == w.disk.names[d]
  }

  // From the moment the destination has been verified, it holds the moved inode.
  predicate Verified(a: Attempt) {
    || (a.pc.Recovering? && !a.pc.r.StatSource? && !a.pc.r.StatDestination? && !a.pc.r.ReadDestination?)
    || a.pc == Moving(SaveLinked) || a.pc.Owning?
  }

  predicate Distinct(j: Journal) {
    j.source != Some(j.destination)
  }

  ghost predicate Held(w: World) {
    w.active.Some? && Verified(w.active.value) && Distinct(w.active.value.entry) ==>
      var j := w.active.value.entry;
      j.identity.Some? && j.destination in w.disk.names && w.disk.names[j.destination] == j.identity.value.ino
  }

  // The attempts a step may continue with.
  ghost predicate Follows(action: Action, b: Attempt) {
    b == action.next || (action.Make? && b == action.failed)
  }

  ghost predicate SameMove(a: Attempt, b: Attempt) {
    b.entry.destination == a.entry.destination && b.entry.identity == a.entry.identity && b.entry.source == a.entry.source
  }

  lemma VerifiedInRecovery(k: Disk, a: Attempt, b: Attempt)
    requires a.pc.Recovering? && Typed(a) && Follows(NextRecover(k, a), b) && Verified(b)
    ensures SameMove(a, b) && (Verified(a) || FileIdentityAt(k, a.entry.destination) == a.entry.identity)
  {
    hide Perform;
    match a.pc.r
    case StatSource =>
    case StatDestination =>
    case ReadDestination =>
    case StatCapture =>
    case StatCaptured =>
    case ReadSourceAgain =>
    case RemoveContainer =>
  }

  lemma VerifiedInMove(k: Disk, a: Attempt, b: Attempt)
    requires a.pc.Moving? && Typed(a) && Follows(NextMove(k, a), b) && Verified(b)
    ensures (a.pc.m.SaveLinked? && SameMove(a, b)) || (a.pc.m.VerifyDestination? && b.entry == a.entry)
    ensures a.pc.m.VerifyDestination? ==> FileIdentityAt(k, a.call.destination) == a.entry.identity
  {
  }

  lemma VerifiedInOwning(k: Disk, a: Attempt, pick: Pick, b: Attempt)
    requires a.pc.Owning? && Typed(a) && Follows(NextOwnedSource(k, a, pick), b)
    ensures SameMove(a, b)
  {
  }

  lemma NotVerifiedFinishing(k: Disk, a: Attempt, pick: Pick, b: Attempt)
    requires Typed(a) && a.pc.Finishing? && Follows(NextFinish(k, a, pick), b)
    ensures !Verified(b)
  {
  }

  lemma NotVerifiedLoading(js: map<string, Journal>, a: Attempt, b: Attempt)
    requires a.pc.Load? && Follows(NextLoad(js, a), b)
    ensures !Verified(b)
  {
  }

  lemma NotVerifiedFolders(k: Disk, js: map<string, Journal>, a: Attempt, pick: Pick, b: Attempt)
    requires Typed(a) && (a.pc.Creating? || a.pc.Removing?) && Follows(NextAction(k, js, a, pick), b)
    ensures !Verified(b)
  {
    hide NextLoad, NextRecover, NextMove, NextOwnedSource, NextFinish, Perform;
  }

  lemma NotVerifiedElsewhere(k: Disk, js: map<string, Journal>, a: Attempt, pick: Pick, b: Attempt)
    requires Typed(a) && (a.pc.Load? || a.pc.Creating? || a.pc.Removing? || a.pc.Finishing?)
    requires Follows(NextAction(k, js, a, pick), b)
    ensures !Verified(b)
  {
    hide NextLoad, NextRecover, NextMove, NextOwnedSource, NextCreate, NextRemove, NextFinish, Perform, Verified;
    match a.pc {
      case Load => NotVerifiedLoading(js, a, b);
      case Finishing(_) => NotVerifiedFinishing(k, a, pick, b);
      case _ => NotVerifiedFolders(k, js, a, pick, b);
    }
  }

  lemma VerifiedFrom(w: World, pick: Pick, b: Attempt)
    requires Inv(w) && Enabled(w, Tick(pick)) && Follows(ActionOf(w, pick), b) && Verified(b)
    ensures var a := w.active.value;
      && SameMove(a, b) && a.entry.kind == Move && Public(w.disk, a.entry.destination)
      && (a.pc.Recovering? || a.pc.Moving? || a.pc.Owning?)
      && (Verified(a) || FileIdentityAt(w.disk, a.entry.destination) == a.entry.identity)
  {
    var a := w.active.value;
    match a.pc {
      case Recovering(_) => VerifiedInRecovery(w.disk, a, b);
      case Moving(_) => VerifiedInMove(w.disk, a, b);
      case Owning(_) => VerifiedInOwning(w.disk, a, pick, b);
      case _ => NotVerifiedElsewhere(w.disk, w.journals, a, pick, b);
    }
    assert JournalOk(w.disk, w.journals, a.call.owner, w.journals[a.call.owner]);
  }

  lemma StaysUnlessRenamed(k: Disk, o: string, call: Syscall, n: Name)
    requires WellFormed(k) && Permitted(k, o, call) && Perform(k, call).Some? && Public(k, n) && n in k.names
    requires call.Rename? ==> call.from != n
    ensures n in Perform(k, call).value.names && Perform(k, call).value.names[n] == k.names[n]
  {
  }

  lemma HeldOutside(w: World, k: Disk)
    requires Inv(w) && Held(w) && Enabled(w, Outside(k)) && Keeping(w, Outside(k))
    ensures Held(w.(disk := k))
  {
    if w.active.Some? && Verified(w.active.value) && Distinct(w.active.value.entry) {
      assert LinkedDestination(w, w.active.value.call.owner);
    }
  }

  lemma EffectKeepsDestination(w: World, pick: Pick)
    requires Inv(w) && Enabled(w, Tick(pick)) && ActionOf(w, pick).Make?
    requires Perform(w.disk, ActionOf(w, pick).call).Some?
    requires w.active.value.pc.Recovering? || w.active.value.pc.Moving? || w.active.value.pc.Owning?
    requires var j := w.active.value.entry;
      Distinct(j) && Public(w.disk, j.destination) && j.destination in w.disk.names
    ensures var k', d := Next(w, Tick(pick)).disk, w.active.value.entry.destination;
      d in k'.names && k'.names[d] == w.disk.names[d]
  {
    var call := ActionOf(w, pick).call;
    TickPermitted(w, pick);
    if call.Rename? { RenamePc(w, pick); }
    StaysUnlessRenamed(w.disk, w.active.value.call.owner, call, w.active.value.entry.destination);
  }

  lemma HeldTick(w: World, pick: Pick)
    requires Inv(w) && Held(w) && Enabled(w, Tick(pick))
    ensures Held(Next(w, Tick(pick)))
  {
    var a, b, action := w.active.value, Next(w, Tick(pick)).active.value, ActionOf(w, pick);
    if Verified(b) && Distinct(b.entry) {
      VerifiedFrom(w, pick, b);
      if action.Make? && Perform(w.disk, action.call).Some? { EffectKeepsDestination(w, pick); }
    }
  }

  ghost predicate KeepingRun(w: World, es: seq<Event>)
    requires Legal(w, es)
    decreases |es|
  {
    es == [] || (KeepingRun(w, es[..|es| - 1]) && Keeping(Exec(w, es[..|es| - 1]), es[|es| - 1]))
  }

  lemma {:induction false} HeldAlways(w: World, es: seq<Event>)
    requires Inv(w) && Held(w) && Legal(w, es) && KeepingRun(w, es)
    ensures Held(Exec(w, es))
    decreases |es|
  {
    if es != [] {
      var v, e := Exec(w, es[..|es| - 1]), es[|es| - 1];
      HeldAlways(w, es[..|es| - 1]);
      InvAlways(w, es[..|es| - 1]);
      match e
      case Outside(k) => HeldOutside(v, k);
      case Tick(pick) => HeldTick(v, pick);
      case Start(_) =>
      case Die =>
    }
  }

  // As long as linked destinations are left alone, no run of calls, crashes, retries and outside
  // changes reaches a step of the bridge that takes a file's last name away, whichever file it is.
  // The one exception is a move of a name onto itself.
  lemma FilesAreConserved(w: World, es: seq<Event>, pick: Pick, ino: Ino)
    requires Initial(w) && Legal(w, es) && KeepingRun(w, es) && Enabled(Exec(w, es), Tick(pick))
    requires Reachable(Exec(w, es).disk, ino) && FileInode(Exec(w, es).disk, ino)
    requires Distinct(Exec(w, es).active.value.entry)
    ensures Reachable(Next(Exec(w, es), Tick(pick)).disk, ino)
  {
    InitialInv(w);
    InvAlways(w, es);
    HeldAlways(w, es);
    HeldConserves(Exec(w, es), pick, ino);
  }

  // While the verified destination is held, the unlinked capture is not the file's last name.
  lemma HeldConserves(v: World, pick: Pick, ino: Ino)
    requires Inv(v) && Held(v) && Enabled(v, Tick(pick)) && Distinct(v.active.value.entry)
    requires Reachable(v.disk, ino) && FileInode(v.disk, ino)
    ensures Reachable(Next(v, Tick(pick)).disk, ino)
  {
    LossExactly(v, pick, ino);
    var a := v.active.value;
    if a.pc == Owning(UnlinkCaptured) {
      assert JournalOk(v.disk, v.journals, a.call.owner, a.entry);
      assert a.entry.destination != CapturedSource(a.cap);
    }
  }
}
