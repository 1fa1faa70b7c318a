// What a call that finds the journal of a removal decides, when it is left alone: to leave everything
// as it is, to tidy up, or to finish what the journal proves.
module RemovalRetries {
  import opened Wrappers
  import opened FileSystem
  import opened Protocol
  import opened ProtocolInvariant
  import opened ProtocolSteps
  import opened ProtocolSafety
  import opened Refusals

  datatype Verdict = Stay | Done | Tidy | Record | Remove | Expose

  // The journal of a removal, and the call's authority over it.
  ghost predicate Journaled(w: World, call: Call) {
    && (call.RemoveCall? || call.RecoverCall?) && call.owner in w.journals
    && var j := w.journals[call.owner];
    && j.kind == RemoveFolder && Authorized(j, call) && j.identity.Some? && j.directoryCapture.Some?
  }

  // A recorded removal only ever tidies up its empty private directory.  An unfinished one takes nothing
  // for granted: the recorded private directory must be there; the captured folder must be the recorded
  // one, and empty; and that it is gone proves something only once LINKED is on record.
  function Judge(k: Disk, j: Journal): Verdict
    requires j.identity.Some? && j.directoryCapture.Some?
  {
    var c, captured := j.directoryCapture.value, CapturedDirectory(j.directoryCapture.value);
    if j.status == Completed then
      (if c.at !in k.names then Done else if DirectoryAt(k, c.at, c.ino) && Empty(k, c.ino) then Tidy else Stay)
    else if !DirectoryAt(k, c.at, c.ino) then Stay
    else if captured !in k.names then (if j.status == Linked then Record else Stay)
    else if DirectoryAt(k, captured, j.identity.value.ino) then (if Empty(k, j.identity.value.ino) then Remove else Stay)
    else if StatAt(k, captured) == Some(Directory) then Expose else Stay
  }

  // Nothing but the captured folder lies in the private directory.
  ghost predicate Sole(k: Disk, j: Journal)
    requires j.directoryCapture.Some?
  {
    forall n | n in k.names :: n.dir == j.directoryCapture.value.ino ==> n == CapturedDirectory(j.directoryCapture.value)
  }

  // ---- the stages ----

  ghost predicate Looking(w: World, v: World, call: Call)
    requires Journaled(w, call)
  {
    var k, j := w.disk, w.journals[call.owner];
    var verdict, c := Judge(k, j), j.directoryCapture.value;
    && v.disk == k && v.journals == w.journals && v.active.Some? && v.active.value.call == call
    && var a := v.active.value;
    match a.pc
    case Load => true
    case Finishing(f) =>
      && a.entry == j && a.cap == c
      && (if f.CleanStat? then j.status == Completed
          else if f.CleanList? then j.status == Completed && DirectoryAt(k, c.at, c.ino)
          else if f.CleanRemove? then verdict == Tidy
          else if f.FinishContainer? then j.status != Completed
          else if f.StatDirectory? then j.status != Completed && DirectoryAt(k, c.at, c.ino)
          else if f.ListDirectory? then
            j.status != Completed && DirectoryAt(k, c.at, c.ino) && DirectoryAt(k, CapturedDirectory(c), j.identity.value.ino)
          else if f.SaveProof? then verdict == Remove
          else f.SaveRemoved? && verdict == Record)
    case _ => false
  }

  function Without(k: Disk, j: Journal): map<Name, Ino>
    requires j.identity.Some? && j.directoryCapture.Some?
  {
    if Judge(k, j) == Remove then k.names - {CapturedDirectory(j.directoryCapture.value)} else k.names
  }

  // What it has done since it decided to finish.
  ghost predicate Finishes(w: World, v: World, call: Call)
    requires Journaled(w, call) && v.active.Some?
  {
    var k, j, a := w.disk, w.journals[call.owner], v.active.value;
    var c, proof, done := j.directoryCapture.value, j.(status := Linked), j.(status := Completed);
    match a.pc
    case Finishing(f) =>
      && a.cap == c
      && (if f.RemoveDirectory? then
            Judge(k, j) == Remove && a.entry == proof && v.journals == w.journals[call.owner := proof] && v.disk == k
          else if f.SaveRemoved? then
            && Judge(k, j) == Remove && a.entry == proof && v.journals == w.journals[call.owner := proof]
            && v.disk.names == Without(k, j) && v.disk.nodes == k.nodes
          else
            && (f.CleanStat? || f.CleanList? || (f.CleanRemove? && Sole(k, j))) && a.entry == done
            && v.journals == w.journals[call.owner := done] && v.disk.names == Without(k, j) && v.disk.nodes == k.nodes)
    case Threw => v.journals == w.journals[call.owner := done] && v.disk.names == Without(k, j) && !Sole(k, j)
    case Returned(outcome) =>
      outcome == Some(done) && v.journals == w.journals[call.owner := done] && v.disk.names == Without(k, j) - {c.at} && Sole(k, j)
    case _ => false
  }

  ghost predicate Decided(w: World, v: World, call: Call)
    requires Journaled(w, call)
  {
    && v.active.Some? && v.active.value.call == call
    && var a, k, j := v.active.value, w.disk, w.journals[call.owner];
    match Judge(k, j)
    case Stay => a.pc == Threw && v.disk == k && v.journals == w.journals
    case Done => a.pc == Returned(Some(j)) && v.disk == k && v.journals == w.journals
    case Tidy => a.pc == Returned(Some(j)) && v.disk.names == k.names - {j.directoryCapture.value.at} && v.journals == w.journals
    case Expose =>
      && v.journals == w.journals
      && (a.pc == Threw || a.pc == Finishing(ExposeStat) || a.pc == Finishing(ExposeMake) || a.pc == Finishing(ExposeCopy))
    case _ => Finishes(w, v, call)
  }

  // What the invariant says of the names in the journal.
  ghost predicate Sound(k: Disk, j: Journal)
    requires j.identity.Some? && j.directoryCapture.Some?
  {
    var c := j.directoryCapture.value;
    c.at != CapturedDirectory(c) && c.at.dir != c.ino
  }

  lemma SoundJournal(w: World, call: Call)
    requires Inv(w) && Journaled(w, call)
    ensures Sound(w.disk, w.journals[call.owner])
  {
    var j := w.journals[call.owner];
    assert JournalOk(w.disk, w.journals, call.owner, j);
    var c := j.directoryCapture.value;
    assert w.disk.containers[c.at].ino == c.ino;
    assert !IsContainer(w.disk, j.destination.dir);
  }

  // ---- one step ----

  lemma Loads(w: World, v: World, call: Call, pick: Pick)
    requires Journaled(w, call) && Looking(w, v, call) && Enabled(v, Tick(pick)) && v.active.value.pc.Load?
    ensures Looking(w, Next(v, Tick(pick)), call)
  {
    hide PickOk, NextRecover, NextMove, NextCreate, NextRemove, NextFinish, NextOwnedSource, Perform, Judge, Authorized;
  }

  lemma LooksInside(w: World, v: World, call: Call, pick: Pick)
    requires Journaled(w, call) && Looking(w, v, call) && Enabled(v, Tick(pick)) && v.active.value.pc.Finishing?
    requires v.active.value.pc.f.FinishContainer? || v.active.value.pc.f.StatDirectory? || v.active.value.pc.f.ListDirectory?
    ensures Looking(w, Next(v, Tick(pick)), call) || Decided(w, Next(v, Tick(pick)), call)
  {
    hide PickOk, NextLoad, NextRecover, NextMove, NextCreate, NextRemove, NextOwnedSource, Perform, Authorized, Finishes, Sole, Without;
  }

  lemma LooksClean(w: World, v: World, call: Call, pick: Pick)
    requires Journaled(w, call) && Looking(w, v, call) && Enabled(v, Tick(pick)) && v.active.value.pc.Finishing?
    requires v.active.value.pc.f.CleanStat? || v.active.value.pc.f.CleanList? || v.active.value.pc.f.CleanRemove?
    ensures Looking(w, Next(v, Tick(pick)), call) || Decided(w, Next(v, Tick(pick)), call)
  {
    hide PickOk, NextLoad, NextRecover, NextMove, NextCreate, NextRemove, NextOwnedSource, Authorized, Finishes, Sole, Without;
  }

  lemma Decides(w: World, v: World, call: Call, pick: Pick)
    requires Journaled(w, call) && Looking(w, v, call) && Enabled(v, Tick(pick)) && v.active.value.pc.Finishing?
    requires v.active.value.pc.f.SaveProof? || v.active.value.pc.f.SaveRemoved?
    ensures Decided(w, Next(v, Tick(pick)), call)
  {
    hide PickOk, NextLoad, NextRecover, NextMove, NextCreate, NextRemove, NextOwnedSource, Authorized, Perform, Sole;
  }

  lemma EmptiedExactly(k: Disk, k': Disk, j: Journal)
    requires j.identity.Some? && j.directoryCapture.Some? && k'.names == Without(k, j) && (Judge(k, j) == Remove || Judge(k, j) == Record)
    ensures Sole(k, j) <==> Empty(k', j.directoryCapture.value.ino)
  {
  }

  lemma RemovesFolder(w: World, v: World, call: Call, pick: Pick)
    requires Journaled(w, call) && Judge(w.disk, w.journals[call.owner]) == Remove && v.active.Some? && v.active.value.call == call
    requires Finishes(w, v, call)
    requires Enabled(v, Tick(pick)) && (v.active.value.pc == Finishing(RemoveDirectory) || v.active.value.pc == Finishing(SaveRemoved))
    ensures Decided(w, Next(v, Tick(pick)), call)
  {
    hide PickOk, NextLoad, NextRecover, NextMove, NextCreate, NextRemove, NextOwnedSource, Authorized, Sole;
  }

  lemma Cleans(w: World, v: World, call: Call, pick: Pick)
    requires Journaled(w, call) && Sound(w.disk, w.journals[call.owner]) && Enabled(v, Tick(pick))
    requires Judge(w.disk, w.journals[call.owner]) == Remove || Judge(w.disk, w.journals[call.owner]) == Record
    requires Decided(w, v, call) && (v.active.value.pc == Finishing(CleanStat) || v.active.value.pc == Finishing(CleanList))
    ensures Decided(w, Next(v, Tick(pick)), call)
  {
    var k, j := w.disk, w.journals[call.owner];
    EmptiedExactly(k, v.disk, j);
    Stands(k, v.disk, j);
    hide PickOk, NextLoad, NextRecover, NextMove, NextCreate, NextRemove, NextOwnedSource, Authorized, Sole, Perform, Judge, Without, Empty, Sound;
  }

  lemma CleansUp(w: World, v: World, call: Call, pick: Pick)
    requires Journaled(w, call) && Sound(w.disk, w.journals[call.owner]) && Enabled(v, Tick(pick))
    requires Judge(w.disk, w.journals[call.owner]) == Remove || Judge(w.disk, w.journals[call.owner]) == Record
    requires Decided(w, v, call) && v.active.value.pc == Finishing(CleanRemove)
    ensures Decided(w, Next(v, Tick(pick)), call)
  {
    var k, j := w.disk, w.journals[call.owner];
    EmptiedExactly(k, v.disk, j);
    Stands(k, v.disk, j);
    RmdirExactly(v.disk, j.directoryCapture.value.at, j.directoryCapture.value.ino);
    hide PickOk, NextLoad, NextRecover, NextMove, NextCreate, NextRemove, NextOwnedSource, Authorized, Sole, Perform, Judge, Without, Empty, Sound,
      DirectoryAt, StatAt;
  }

  lemma StillRunning(w: World, v: World, call: Call)
    requires Journaled(w, call) && Decided(w, v, call) && Running(v)
    requires Judge(w.disk, w.journals[call.owner]) == Remove || Judge(w.disk, w.journals[call.owner]) == Record
    ensures var pc := v.active.value.pc;
      || pc == Finishing(RemoveDirectory) || pc == Finishing(SaveRemoved) || pc == Finishing(CleanStat) || pc == Finishing(CleanList)
      || pc == Finishing(CleanRemove)
    ensures Judge(w.disk, w.journals[call.owner]) == Record ==>
      v.active.value.pc != Finishing(RemoveDirectory) && v.active.value.pc != Finishing(SaveRemoved)
  {
    hide Judge, Sole, Without;
  }

  lemma RmdirExactly(k: Disk, at: Name, ino: Ino)
    requires DirectoryAt(k, at, ino)
    ensures at in k.names && k.names[at] == ino
    ensures Perform(k, Rmdir(at)).Some? <==> Empty(k, ino)
    ensures Empty(k, ino) ==>
      Perform(k, Rmdir(at)).value.names == k.names - {at} && Perform(k, Rmdir(at)).value.nodes == k.nodes
  {
  }

  lemma Stands(k: Disk, k': Disk, j: Journal)
    requires j.identity.Some? && j.directoryCapture.Some? && Sound(k, j) && k'.names == Without(k, j) && k'.nodes == k.nodes
    requires Judge(k, j) == Remove || Judge(k, j) == Record
    ensures DirectoryAt(k', j.directoryCapture.value.at, j.directoryCapture.value.ino)
  {
  }

  lemma Exposing(w: World, v: World, call: Call, pick: Pick)
    requires Journaled(w, call) && Judge(w.disk, w.journals[call.owner]) == Expose && Decided(w, v, call) && Enabled(v, Tick(pick))
    ensures Decided(w, Next(v, Tick(pick)), call)
  {
    hide PickOk, NextLoad, NextRecover, NextMove, NextCreate, NextRemove, NextOwnedSource, Authorized, Perform, Judge;
  }

  lemma DecidedStays(w: World, v: World, call: Call, pick: Pick)
    requires Inv(w) && Journaled(w, call) && Decided(w, v, call) && Enabled(v, Tick(pick))
    ensures Decided(w, Next(v, Tick(pick)), call)
  {
    SoundJournal(w, call);
    hide Inv, Sound, NextAction, PickOk, Judge, Sole, Without;
    match Judge(w.disk, w.journals[call.owner])
    case Remove | Record =>
      StillRunning(w, v, call);
      if v.active.value.pc == Finishing(RemoveDirectory) || v.active.value.pc == Finishing(SaveRemoved) {
        RemovesFolder(w, v, call, pick);
      } else if v.active.value.pc == Finishing(CleanRemove) {
        CleansUp(w, v, call, pick);
      } else {
        Cleans(w, v, call, pick);
      }
    case Expose => Exposing(w, v, call, pick);
    case _ =>
  }

  lemma LookingGoesOn(w: World, v: World, call: Call, pick: Pick)
    requires Journaled(w, call) && Looking(w, v, call) && Enabled(v, Tick(pick))
    ensures Looking(w, Next(v, Tick(pick)), call) || Decided(w, Next(v, Tick(pick)), call)
  {
    hide Decided, NextAction, PickOk, Judge;
    match v.active.value.pc
    case Load => Loads(w, v, call, pick);
    case Finishing(f) =>
      if f.CleanStat? || f.CleanList? || f.CleanRemove? {
        LooksClean(w, v, call, pick);
      } else if f.SaveProof? || f.SaveRemoved? {
        Decides(w, v, call, pick);
      } else {
        LooksInside(w, v, call, pick);
      }
  }

  lemma {:induction false} VerdictStands(w: World, call: Call, es: seq<Event>)
    requires Inv(w) && !Running(w) && Journaled(w, call) && Legal(w, es) && Uninterrupted(es, call)
    ensures Looking(w, Exec(w, es), call) || Decided(w, Exec(w, es), call)
    decreases |es|
  {
    var prefix := es[..|es| - 1];
    if |es| == 1 {
      assert prefix == [];
      hide Inv;
    } else {
      hide Looking, Decided, Inv;
      VerdictStands(w, call, prefix);
      if Looking(w, Exec(w, prefix), call) {
        LookingGoesOn(w, Exec(w, prefix), call, es[|es| - 1].pick);
      } else {
        DecidedStays(w, Exec(w, prefix), call, es[|es| - 1].pick);
      }
    }
  }

  // A removal that is taken up again, by a retry or by historical recovery, and left alone: it changes
  // nothing, tidies up, or takes the recorded empty folder out of its capture, records the outcome and
  // returns it, unless something else lies in the private directory.
  lemma RetryDecides(w: World, call: Call, es: seq<Event>)
    requires Inv(w) && !Running(w) && Journaled(w, call)
    requires Legal(w, es) && Uninterrupted(es, call) && !Running(Exec(w, es))
    ensures var v, k, j := Exec(w, es), w.disk, w.journals[call.owner];
      var at, captured, done := j.directoryCapture.value.at, CapturedDirectory(j.directoryCapture.value), j.(status := Completed);
      v.active.Some? && var pc := v.active.value.pc;
      match Judge(k, j)
      case Stay => pc == Threw && v.disk == k && v.journals == w.journals
      case Done => pc == Returned(Some(j)) && v.disk == k && v.journals == w.journals
      case Tidy => pc == Returned(Some(j)) && v.disk.names == k.names - {at} && v.journals == w.journals
      case Record =>
        && v.journals == w.journals[call.owner := done]
        && (if Sole(k, j) then pc == Returned(Some(done)) && v.disk.names == k.names - {at} else pc == Threw && v.disk.names == k.names)
      case Remove =>
        && v.journals == w.journals[call.owner := done]
        && (if Sole(k, j) then pc == Returned(Some(done)) && v.disk.names == k.names - {captured} - {at}
            else pc == Threw && v.disk.names == k.names - {captured})
      case Expose => pc == Threw && v.journals == w.journals
  {
    VerdictStands(w, call, es);
  }
}
