// What a journal means: proofs of removal, absorbing outcomes, honest failures, and foreign files
// and directories that keep their names.
module ProtocolOutcomes {
  import opened Wrappers
  import opened FileSystem
  import opened Protocol
  import opened ProtocolInvariant
  import opened ProtocolSteps
  import opened ProtocolSafety

  // ---- the running call's own journal is the only one a step can write ----

  lemma WriteOpen(w: World, pick: Pick)
    requires Inv(w) && Enabled(w, Tick(pick)) && ActionOf(w, pick).Write?
    ensures var a, next := w.active.value, ActionOf(w, pick).next;
      next.call == a.call && Open(w.journals, a, next.entry.kind)
  {
    TickGood(w, pick);
  }

  // A recorded outcome is final.
  lemma CompletedStays(w: World, e: Event, o: string)
    requires Inv(w) && Enabled(w, e) && o in w.journals && w.journals[o].status == Completed
    ensures o in Next(w, e).journals && Next(w, e).journals[o] == w.journals[o]
  {
    if e.Tick? && ActionOf(w, e.pick).Write? { WriteOpen(w, e.pick); }
  }

  lemma {:induction false} CompletedForever(w: World, es: seq<Event>, o: string)
    requires Inv(w) && Legal(w, es) && o in w.journals && w.journals[o].status == Completed
    ensures o in Exec(w, es).journals && Exec(w, es).journals[o] == w.journals[o]
    decreases |es|
  {
    if es != [] {
      CompletedForever(w, es[..|es| - 1], o);
      InvAlways(w, es[..|es| - 1]);
      CompletedStays(Exec(w, es[..|es| - 1]), es[|es| - 1], o);
    }
  }

  ghost predicate SamePublicNames(k: Disk, k': Disk) {
    forall n | Public(k, n) :: (n in k.names <==> n in k'.names) && (n in k.names ==> k'.names[n] == k.names[n])
  }

  // With an outcome on record, a call is loading it or tidying up an empty private directory.
  lemma OnlyTidying(w: World)
    requires Inv(w) && Running(w)
    requires w.active.value.call.owner in w.journals && w.journals[w.active.value.call.owner].status == Completed
    ensures var a := w.active.value;
      || a.pc.Load?
      || (a.pc.Finishing? && Saved(w.journals, a) && (a.pc.f.CleanStat? || a.pc.f.CleanList? || a.pc.f.CleanRemove?))
  {
  }

  lemma DirectoryCapturePrivate(w: World)
    requires Inv(w) && w.active.Some? && w.active.value.pc.Finishing?
    ensures PrivateBase(w.active.value.cap.at.base)
  {
    var a := w.active.value;
    assert JournalOk(w.disk, w.journals, a.call.owner, w.journals[a.call.owner]);
  }

  lemma TidyingStep(k: Disk, js: map<string, Journal>, a: Attempt, pick: Pick)
    requires Typed(a) && !Halted(a)
    requires a.pc.Finishing? && (a.pc.f.CleanStat? || a.pc.f.CleanList? || a.pc.f.CleanRemove?)
    ensures var action := NextAction(k, js, a, pick);
      && !action.Write? && (action.Make? ==> action.call == Rmdir(a.cap.at))
      && forall b | Follows(action, b) :: b.pc.Returned? ==> b.pc.outcome == Some(a.entry)
  {
  }

  lemma LoadingStep(k: Disk, js: map<string, Journal>, a: Attempt, pick: Pick)
    requires a.pc.Load? && Typed(a) && a.call.owner in js && js[a.call.owner].status == Completed
    ensures var action := NextAction(k, js, a, pick);
      action.Go? && (action.next.pc.Returned? ==> action.next.pc.outcome == Some(js[a.call.owner]))
  {
  }

  // A call whose owner already has an outcome returns that outcome or throws; it changes no public
  // name, whatever other programs have done since.
  lemma NoSecondEffect(w: World, pick: Pick)
    requires Inv(w) && Enabled(w, Tick(pick))
    requires w.active.value.call.owner in w.journals && w.journals[w.active.value.call.owner].status == Completed
    ensures SamePublicNames(w.disk, Next(w, Tick(pick)).disk)
    ensures var b := Next(w, Tick(pick)).active.value;
      b.pc.Returned? ==> b.pc.outcome == Some(w.journals[w.active.value.call.owner])
  {
    hide NextLoad, NextRecover, NextMove, NextOwnedSource, NextCreate, NextRemove, NextFinish, JournalsOk, CallOk, PickOk, OutsideOk;
    var a := w.active.value;
    OnlyTidying(w);
    if a.pc.Load? { LoadingStep(w.disk, w.journals, a, pick); }
    else {
      TidyingStep(w.disk, w.journals, a, pick);
      DirectoryCapturePrivate(w);
    }
  }

  // ---- what a call returns ----

  // A returned outcome is the completed journal on record.
  predicate Reported(js: map<string, Journal>, a: Attempt) {
    a.pc.Returned? && a.pc.outcome.Some? ==>
      a.pc.outcome.value.status == Completed && Lookup(js, a.call.owner) == a.pc.outcome
  }

  lemma ReportedLoad(js: map<string, Journal>, a: Attempt)
    requires a.pc.Load?
    ensures NextLoad(js, a).Go? && Reported(js, NextLoad(js, a).next) && NextLoad(js, a).next.call == a.call
  {
  }

  lemma ReportedOwning(k: Disk, js: map<string, Journal>, a: Attempt, pick: Pick, b: Attempt)
    requires a.pc.Owning? && Typed(a) && Follows(NextOwnedSource(k, a, pick), b) && b.pc.Returned?
    ensures NextOwnedSource(k, a, pick) == Write(b) && b.pc == Returned(Some(b.entry)) && b.entry.status == Completed
  {
  }

  lemma ReportedMoving(k: Disk, a: Attempt, b: Attempt)
    requires Typed(a) && (a.pc.Moving? && Follows(NextMove(k, a), b))
    ensures !b.pc.Returned?
  {
  }

  lemma ReportedRecovering(k: Disk, a: Attempt, b: Attempt)
    requires Typed(a) && a.pc.Recovering? && Follows(NextRecover(k, a), b)
    ensures b.pc.Returned? ==> b.pc.outcome.None?
  {
    hide Perform;
  }

  lemma ReportedFolders(k: Disk, js: map<string, Journal>, a: Attempt, pick: Pick, b: Attempt)
    requires AttemptOk(k, js, a) && (a.pc.Creating? || a.pc.Removing?) && Follows(NextAction(k, js, a, pick), b)
    requires b.pc.Returned?
    ensures NextAction(k, js, a, pick) == Write(b) && b.pc == Returned(Some(b.entry)) && b.entry.status == Completed
  {
  }

  lemma ReportedFinishing(k: Disk, js: map<string, Journal>, a: Attempt, pick: Pick, b: Attempt)
    requires AttemptOk(k, js, a) && a.pc.Finishing? && Follows(NextFinish(k, a, pick), b) && b.pc.Returned?
    ensures !NextFinish(k, a, pick).Write? && b.pc.outcome == Some(a.entry) && a.entry.status == Completed && b.call == a.call
  {
  }

  lemma ReportedTick(w: World, pick: Pick)
    requires Inv(w) && Enabled(w, Tick(pick))
    ensures Reported(Next(w, Tick(pick)).journals, Next(w, Tick(pick)).active.value)
  {
    var k, js, a, b := w.disk, w.journals, w.active.value, Next(w, Tick(pick)).active.value;
    TickGood(w, pick);
    if b.pc.Returned? {
      match a.pc {
        case Load => ReportedLoad(js, a);
        case Recovering(_) => ReportedRecovering(k, a, b);
        case Moving(_) => ReportedMoving(k, a, b);
        case Owning(_) => ReportedOwning(k, js, a, pick, b);
        case Finishing(_) => ReportedFinishing(k, js, a, pick, b);
        case _ => ReportedFolders(k, js, a, pick, b);
      }
    }
  }

  // In every run, a call that has just returned an outcome returned its owner's recorded one.
  lemma {:induction false} OutcomesAreRecorded(w: World, es: seq<Event>)
    requires Inv(w) && Legal(w, es) && (w.active.Some? ==> Reported(w.journals, w.active.value))
    ensures Exec(w, es).active.Some? ==> Reported(Exec(w, es).journals, Exec(w, es).active.value)
    decreases |es|
  {
    if es != [] {
      OutcomesAreRecorded(w, es[..|es| - 1]);
      InvAlways(w, es[..|es| - 1]);
      if es[|es| - 1].Tick? { ReportedTick(Exec(w, es[..|es| - 1]), es[|es| - 1].pick); }
    }
  }

  // ---- failures that report no effect ----

  // Until a journal exists for an owner, none of its calls changes a public name.
  lemma NoJournalNoEffect(w: World, pick: Pick)
    requires Inv(w) && Enabled(w, Tick(pick)) && w.active.value.call.owner !in w.journals
    ensures SamePublicNames(w.disk, Next(w, Tick(pick)).disk)
  {
    hide WellFormed, JournalsOk, OutsideOk, FileIdentityAt, DirectoryAt, OwnedTarget;
  }

  // Journals are never deleted.
  lemma {:induction false} JournalsStay(w: World, es: seq<Event>, i: nat, o: string)
    requires Legal(w, es) && i <= |es|
    ensures Legal(w, es[..i])
    ensures o in Exec(w, es[..i]).journals ==> o in Exec(w, es).journals
    decreases |es|
  {
    if i < |es| {
      assert es[..|es| - 1][..i] == es[..i];
      JournalsStay(w, es[..|es| - 1], i, o);
    } else {
      assert es[..i] == es;
    }
  }

  // "FAILED with no effect" is reported when no journal exists for the owner.  Then no step of any
  // call of that owner, however many times the process died, ever changed a public name.
  lemma HonestFailure(w: World, es: seq<Event>, i: nat, o: string)
    requires Inv(w) && Legal(w, es) && i < |es| && o !in Exec(w, es).journals
    requires Legal(w, es[..i]) && Legal(w, es[..i + 1])
    requires es[i].Tick? && Exec(w, es[..i]).active.Some? && Exec(w, es[..i]).active.value.call.owner == o
    ensures SamePublicNames(Exec(w, es[..i]).disk, Exec(w, es[..i + 1]).disk)
  {
    JournalsStay(w, es, i, o);
    InvAlways(w, es[..i]);
    assert es[..i + 1][..i] == es[..i] && es[..i + 1][i] == es[i];
    NoJournalNoEffect(Exec(w, es[..i]), es[i].pick);
  }

  // ---- historical recovery of a move ----

  // It never links, renames or creates: names only disappear, and only the captured name and its
  // private directory; the one journal it may write is the completed outcome.
  lemma HistoricalRecovery(w: World, pick: Pick)
    requires Inv(w) && Enabled(w, Tick(pick))
    requires w.active.value.call.RecoverCall?
    requires w.active.value.pc.Recovering? || w.active.value.pc.Owning?
    ensures var a, w' := w.active.value, Next(w, Tick(pick));
      && (forall n :: n in w'.disk.names ==> n in w.disk.names && w'.disk.names[n] == w.disk.names[n])
      && (forall n :: n in w.disk.names && n !in w'.disk.names ==>
            a.entry.sourceCapture.Some? && n in {CapturedSource(a.entry.sourceCapture.value), a.entry.sourceCapture.value.at})
      && (w'.journals == w.journals || w'.journals == w.journals[a.call.owner := a.entry.(status := Completed)])
  {
    hide WellFormed, JournalsOk, NextLoad, NextMove, NextCreate, NextRemove, NextFinish, PickOk;
    var a := w.active.value;
    HistoricalCapture(w);
    match a.pc {
      case Recovering(_) => HistoricalRecovering(w.disk, a);
      case Owning(_) => HistoricalOwning(w.disk, a, pick);
    }
  }

  lemma HistoricalCapture(w: World)
    requires Inv(w) && Running(w) && w.active.value.call.RecoverCall?
    ensures var a := w.active.value;
      && (a.pc.Owning? ==> Historical(a))
      && (a.pc == Recovering(RemoveContainer) || (a.pc.Owning? && !a.pc.o.ReadCompleted? && !a.pc.o.SaveCompleted?) ==>
            a.entry.sourceCapture == Some(a.cap))
  {
  }

  lemma HistoricalRecovering(k: Disk, a: Attempt)
    requires a.pc.Recovering? && Typed(a)
    ensures var action := NextRecover(k, a);
      !action.Write? && (action.Make? ==> a.pc.r.RemoveContainer? && action.call == Rmdir(a.cap.at))
  {
  }

  lemma HistoricalOwning(k: Disk, a: Attempt, pick: Pick)
    requires a.pc.Owning? && Typed(a) && Historical(a)
    ensures var action := NextOwnedSource(k, a, pick);
      && (action.Write? ==> action.next.call == a.call && action.next.entry == a.entry.(status := Completed))
      && (action.Make? ==>
            && !a.pc.o.ReadCompleted? && !a.pc.o.SaveCompleted?
            && (action.call == Unlink(CapturedSource(a.cap)) || action.call == Rmdir(a.cap.at)))
  {
  }
}
