// What a report says of an action's effect is what happened to the names of the library.
module ReportedEffect {
  import opened Wrappers
  import opened FileSystem
  import opened Protocol
  import opened ProtocolInvariant
  import opened ProtocolSafety
  import opened ProtocolOutcomes
  import opened QuietEffect
  import opened Executor
  import R = PlanRun
  import QuietCreate
  import QuietMove
  import QuietRemove

  // A live action that nobody has begun: a move of a file to a vacant name, a creation, or the removal
  // of the empty folder that its creation recorded.
  ghost predicate FreshAction(w: World, call: Call) {
    match call
    case MoveCall(_, _, _, _) => exists job :: QuietMove.Fresh(w, job) && QuietMove.CallOf(job, call)
    case CreateCall(_, _) => exists c :: FreshCreation(w, call, c)
    case RemoveCall(_, _, _) => exists f :: QuietRemove.Fresh(w, f) && QuietRemove.CallOf(f, call)
    case RecoverCall(_, _) => false
  }

  ghost predicate FreshCreation(w: World, call: Call, c: QuietCreate.Creation) {
    && Inv(w) && w.active.None? && Public(w.disk, c.target) && c.owner !in w.journals && QuietCreate.Open(w.disk, c)
    && call.CreateCall? && QuietCreate.CallOf(c, call)
  }

  // Two disks with the same nodes and the same private directories, or more of them, agree on public
  // names exactly when their public entries do.
  lemma SameExactly(k: Disk, k': Disk)
    requires WellFormed(k) && WellFormed(k') && Grew(k, k')
    requires forall n :: n in PublicNames(k') ==> Public(k, n)
    ensures SamePublicNames(k, k') <==> PublicNames(k) == PublicNames(k')
  {
    forall n ensures Public(k, n) ==> Public(k', n) {
      if Public(k, n) { VacantStays(k, k', n); }
    }
    forall n ensures n in k.names && Public(k', n) ==> Public(k, n) {
      if n in k.names { PublicStays(k, k', n); }
    }
    hide Public, Grew, WellFormed;
    if SamePublicNames(k, k') {
      forall n ensures n in PublicNames(k) <==> n in PublicNames(k') {}
    }
    if PublicNames(k) == PublicNames(k') {
      forall n | Public(k, n) ensures (n in k.names <==> n in k'.names) && (n in k.names ==> k'.names[n] == k.names[n]) {
        assert n in k.names <==> n in PublicNames(k);
        assert n in k'.names <==> n in PublicNames(k');
      }
    }
  }

  lemma VacantStays(k: Disk, k': Disk, n: Name)
    requires Grew(k, k') && Public(k, n)
    ensures Public(k', n)
  {
  }

  // After an undisturbed fresh action, "completed without effect" is reported exactly when every
  // public name is as it was.
  lemma EffectIsReal(w: World, call: Call, es: seq<Event>, report: R.Report)
    requires FreshAction(w, call) && Legal(w, es) && Uninterrupted(es, call) && !Running(Exec(w, es))
    requires Honest(Exec(w, es).journals, call.owner, report) && report.status.Completed?
    ensures report.effect == R.NoEffect <==> SamePublicNames(w.disk, Exec(w, es).disk)
    ensures report.effect == R.Changed <==> !SamePublicNames(w.disk, Exec(w, es).disk)
  {
    match call
    case MoveCall(_, _, _, _) =>
      var job :| QuietMove.Fresh(w, job) && QuietMove.CallOf(job, call);
      MoveIsReal(w, call, es, job);
    case CreateCall(_, _) =>
      var c :| FreshCreation(w, call, c);
      CreationIsReal(w, call, es, c);
    case RemoveCall(_, _, _) =>
      var f :| QuietRemove.Fresh(w, f) && QuietRemove.CallOf(f, call);
      RemovalIsReal(w, call, es, f);
  }

  lemma MoveIsReal(w: World, call: Call, es: seq<Event>, job: QuietMove.Job)
    requires QuietMove.Fresh(w, job) && QuietMove.CallOf(job, call) && call.MoveCall?
    requires Legal(w, es) && Uninterrupted(es, call) && !Running(Exec(w, es))
    ensures var v := Exec(w, es);
      !SamePublicNames(w.disk, v.disk) && call.owner in v.journals && v.journals[call.owner].kind == Move
  {
    assert Exec(w, []) == w;
    var v := Exec(w, es);
    QuietMove.FreshMoveCompletes(w, [], call, es, job);
    assert Public(w.disk, job.source) && job.source in w.disk.names && job.source !in v.disk.names;
  }

  lemma RemovalIsReal(w: World, call: Call, es: seq<Event>, f: QuietRemove.Folder)
    requires QuietRemove.Fresh(w, f) && QuietRemove.CallOf(f, call) && call.RemoveCall?
    requires Legal(w, es) && Uninterrupted(es, call) && !Running(Exec(w, es))
    ensures var v := Exec(w, es);
      !SamePublicNames(w.disk, v.disk) && call.owner in v.journals && v.journals[call.owner].kind == RemoveFolder
  {
    assert Exec(w, []) == w;
    var v := Exec(w, es);
    QuietRemove.FreshRemovalReplay(w, [], call, es, f);
    assert Public(w.disk, f.target) && f.target in w.disk.names && f.target !in v.disk.names;
  }

  lemma CreationIsReal(w: World, call: Call, es: seq<Event>, c: QuietCreate.Creation)
    requires FreshCreation(w, call, c) && Legal(w, es) && Uninterrupted(es, call) && !Running(Exec(w, es))
    ensures var v := Exec(w, es);
      && call.owner in v.journals && v.journals[call.owner].kind == CreateFolder
      && (v.journals[call.owner].created <==> !SamePublicNames(w.disk, v.disk))
  {
    var v := Exec(w, es);
    CreationEffect(w, call, es, c);
    CallKept(w, call, es);
    forall n | n in PublicNames(v.disk) ensures Public(w.disk, n) {
      assert n == c.target || n in PublicNames(w.disk);
    }
    SameExactly(w.disk, v.disk);
    if c.target in w.disk.names {
      assert PublicNames(v.disk)[c.target] == v.disk.names[c.target];
    }
  }
}
