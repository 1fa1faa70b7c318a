// Executing and undoing a list of actions through the bridge, while other programs act: one journaled
// call after another up to the first that throws, the settling of that one, and the recovery of a
// whole list.  What is reported of an action is what its journal says.
module Executor {
  import opened Wrappers
  import opened FileSystem
  import opened Protocol
  import opened ProtocolInvariant
  import opened ProtocolSteps
  import opened ProtocolSafety
  import opened ProtocolOutcomes
  import opened ActionBinding
  import opened Owners
  import opened Bridge
  import BridgeAlone
  import R = PlanRun

  function OwnerOf(root: ConnectedRoot, undo: bool, a: PlannedAction): string {
    if undo then Undo(root.id, a.id) else Execution(root.id, a.id)
  }

  // Ids are unique in a plan and in an undo list.
  ghost predicate Distinct(actions: seq<PlannedAction>) {
    forall i, j :: 0 <= i < j < |actions| ==> actions[i].id != actions[j].id
  }

  lemma OwnersDiffer(root: ConnectedRoot, undo: bool, a: PlannedAction, b: PlannedAction)
    requires a.id != b.id
    ensures OwnerOf(root, undo, a) != OwnerOf(root, undo, b)
  {
    if OwnerOf(root, undo, a) == OwnerOf(root, undo, b) {
      if undo { UndoInjective(root.id, a.id, b.id); } else { ExecutionInjective(root.id, a.id, b.id); }
    }
  }

  // Whether a recorded outcome changed the library: not when a folder was there already.
  predicate ChangedBy(j: Journal) {
    j.kind != CreateFolder || j.created
  }

  // ---- what a report means ----

  // The report of an action, against the journals: completed actions have their completed journal on
  // record, and changed the library exactly if it is one of a move, of a removal, or of a creation
  // that made its folder; failed ones have none at all; and of the others nothing is claimed.
  predicate Honest(js: map<string, Journal>, owner: string, report: R.Report) {
    match report.status
    case Completed =>
      && owner in js && js[owner].status == Status.Completed && report.reason.None?
      && (report.effect == R.NoEffect <==> js[owner].kind == CreateFolder && !js[owner].created)
      && (report.effect == R.Changed <==>
            js[owner].kind == Move || js[owner].kind == RemoveFolder || (js[owner].kind == CreateFolder && js[owner].created))
    case Failed => owner !in js && report.effect == R.NoEffect
    case Pending => report.effect == R.Unknown && report.reason.Some?
  }

  lemma HonestStays(js: map<string, Journal>, js': map<string, Journal>, owner: string, other: string, report: R.Report)
    requires Honest(js, owner, report) && OthersKept(js, js', other) && owner != other
    ensures Honest(js', owner, report)
  {
    assert Lookup(js', owner) == Lookup(js, owner);
  }

  // No step of any call of this owner has changed a public name, in the whole run so far.
  ghost predicate NeverChanged(w: World, es: seq<Event>, owner: string) {
    forall i: nat | i < |es| && Legal(w, es[..i]) && Legal(w, es[..i + 1]) && es[i].Tick? &&
                    Exec(w, es[..i]).active.Some? && Exec(w, es[..i]).active.value.call.owner == owner ::
      SamePublicNames(Exec(w, es[..i]).disk, Exec(w, es[..i + 1]).disk)
  }

  lemma FailedChangedNothing(w: World, es: seq<Event>, js: map<string, Journal>, owner: string, report: R.Report)
    requires Inv(w) && Legal(w, es) && Exec(w, es).journals == js && Honest(js, owner, report) && report.status.Failed?
    ensures NeverChanged(w, es, owner)
  {
    forall i: nat | i < |es| && Legal(w, es[..i]) && Legal(w, es[..i + 1]) && es[i].Tick? &&
                    Exec(w, es[..i]).active.Some? && Exec(w, es[..i]).active.value.call.owner == owner
      ensures SamePublicNames(Exec(w, es[..i]).disk, Exec(w, es[..i + 1]).disk)
    {
      HonestFailure(w, es, i, owner);
    }
  }

  // ---- names stay public ----

  lemma PublicNext(w: World, e: Event, n: Name)
    requires Inv(w) && Enabled(w, e) && Public(w.disk, n)
    ensures Public(Next(w, e).disk, n)
  {
    if e.Tick? {
      TickPermitted(w, e.pick);
      var action, o := ActionOf(w, e.pick), w.active.value.call.owner;
      if action.Make? && Perform(w.disk, action.call).Some? {
        PermittedKeeps(w.disk, o, action.call);
        PublicFrame(w.disk, Perform(w.disk, action.call).value, o, n);
      }
    }
  }

  lemma {:induction false} PublicLater(w: World, es: seq<Event>, es': seq<Event>, n: Name)
    requires Inv(w) && Legal(w, es) && Legal(w, es') && es <= es' && Public(Exec(w, es).disk, n)
    ensures Public(Exec(w, es').disk, n)
    decreases |es'|
  {
    if |es| < |es'| {
      var prefix := es'[..|es'| - 1];
      assert es <= prefix;
      PublicLater(w, es, prefix, n);
      InvAlways(w, prefix);
      PublicNext(Exec(w, prefix), es'[|es'| - 1], n);
    } else {
      assert es == es';
    }
  }

  lemma CallOkLater(w: World, es: seq<Event>, es': seq<Event>, call: Call)
    requires Inv(w) && Legal(w, es) && Legal(w, es') && es <= es' && CallOk(Exec(w, es).disk, call)
    ensures CallOk(Exec(w, es').disk, call)
  {
    match call
    case MoveCall(_, source, destination, _) =>
      PublicLater(w, es, es', source);
      PublicLater(w, es, es', destination);
    case CreateCall(_, destination) => PublicLater(w, es, es', destination);
    case RemoveCall(_, _, target) => PublicLater(w, es, es', target);
    case RecoverCall(_, _) =>
  }

  // The paths of the actions denote public names.
  ghost predicate Addressed(k: Disk, root: ConnectedRoot, undo: bool, actions: seq<PlannedAction>) {
    forall i :: 0 <= i < |actions| && LiveCall(root, undo, actions[i]).Ok? ==> CallOk(k, LiveCall(root, undo, actions[i]).value)
  }

  lemma AddressedLater(w: World, es: seq<Event>, es': seq<Event>, root: ConnectedRoot, undo: bool, actions: seq<PlannedAction>)
    requires Inv(w) && Legal(w, es) && Legal(w, es') && es <= es' && Addressed(Exec(w, es).disk, root, undo, actions)
    ensures Addressed(Exec(w, es').disk, root, undo, actions)
  {
    forall i | 0 <= i < |actions| && LiveCall(root, undo, actions[i]).Ok?
      ensures CallOk(Exec(w, es').disk, LiveCall(root, undo, actions[i]).value)
    {
      CallOkLater(w, es, es', LiveCall(root, undo, actions[i]).value);
    }
  }

  lemma LiveOwner(root: ConnectedRoot, undo: bool, a: PlannedAction)
    requires LiveCall(root, undo, a).Ok?
    ensures LiveCall(root, undo, a).value.owner == OwnerOf(root, undo, a) && !LiveCall(root, undo, a).value.RecoverCall?
  {
  }

  // ---- one action ----

  // What stands in the way of an action that has no journal yet: an occupied destination, or a source
  // that is not the authorised file.
  predicate Unobstructed(k: Disk, undo: bool, call: Call) {
    match call
    case MoveCall(_, source, destination, checksum) =>
      && (undo || destination !in k.names)
      && FileIdentityAt(k, source).Some? && (Given(checksum) ==> ChecksumIs(FileIdentityAt(k, source), checksum.value))
    case CreateCall(_, destination) => destination !in k.names || StatAt(k, destination) == Some(Directory)
    case _ => true
  }

  // Why an attempt throws: it is not allowed, names no call, is obstructed before anything is journaled,
  // or its call has begun, and threw or died.
  ghost predicate Stopped(k: Disk, js: map<string, Journal>, es: seq<Event>, since: nat, root: ConnectedRoot, undo: bool,
                          a: PlannedAction, allowed: bool) {
    !allowed || LiveCall(root, undo, a).Failed? ||
    var call := LiveCall(root, undo, a).value;
    (call.owner !in js && !Unobstructed(k, undo, call)) || CallBegan(es, since, call)
  }

  ghost predicate CallBegan(es: seq<Event>, since: nat, call: Call) {
    exists i :: since <= i < |es| && es[i] == Start(call)
  }

  lemma BeganBefore(es: seq<Event>, es': seq<Event>, since: nat, call: Call)
    requires CallBegan(es, since, call) && es <= es'
    ensures CallBegan(es', since, call)
  {
    var i :| since <= i < |es| && es[i] == Start(call);
    assert es'[i] == Start(call);
  }

  // The journaled call of the action.
  method Carry(bridge: Bridge, call: Call) returns (r: Result<Journal>)
    requires bridge.Idle() && CallOk(bridge.disk, call) && !call.RecoverCall?
    modifies bridge
    ensures bridge.Idle() && bridge.Begun(old(bridge.events), call) && OthersKept(old(bridge.journals), bridge.journals, call.owner)
    ensures if r.Failed? then bridge.Ended() else bridge.attempt.Some? && bridge.attempt.value.pc == Returned(Some(r.value))
    ensures r.Ok? ==>
      Lookup(bridge.journals, call.owner) == Some(r.value) && r.value.status == Status.Completed && Authorized(r.value, call)
  {
    match call
    case MoveCall(owner, source, destination, checksum) => r := bridge.JournaledMove(owner, source, destination, checksum);
    case CreateCall(owner, destination) => r := bridge.JournaledCreateFolder(owner, destination);
    case RemoveCall(owner, originalOwner, target) => r := bridge.JournaledRemoveFolder(owner, originalOwner, target);
  }

  // One attempt.  `allowed` is what the permission checks find.
  method AttemptAction(bridge: Bridge, root: ConnectedRoot, undo: bool, a: PlannedAction, allowed: bool) returns (r: Result<Journal>)
    requires bridge.Idle() && Addressed(bridge.disk, root, undo, [a])
    modifies bridge
    ensures bridge.Idle() && old(bridge.events) <= bridge.events
    ensures OthersKept(old(bridge.journals), bridge.journals, OwnerOf(root, undo, a))
    ensures r.Ok? ==> LiveCall(root, undo, a).Ok? && Lookup(bridge.journals, OwnerOf(root, undo, a)) == Some(r.value)
    ensures r.Ok? ==> r.value.status == Status.Completed && Authorized(r.value, LiveCall(root, undo, a).value)
    ensures r.Ok? ==> allowed && bridge.attempt.Some? && bridge.attempt.value.pc == Returned(Some(r.value))
    ensures r.Failed? ==> Stopped(bridge.disk, bridge.journals, bridge.events, |old(bridge.events)|, root, undo, a, allowed)
    ensures !bridge.mortal && !bridge.interfering && BridgeAlone.Unused(old(bridge.disk), old(bridge.journals), OwnerOf(root, undo, a)) ==>
      && (r.Ok? ==> BridgeAlone.Feasible(old(bridge.disk), old(bridge.journals), LiveCall(root, undo, a).value))
      && (r.Failed? && allowed && LiveCall(root, undo, a).Ok? ==>
            LiveCall(root, undo, a).value.RemoveCall? ||
            !BridgeAlone.Feasible(old(bridge.disk), old(bridge.journals), LiveCall(root, undo, a).value))
  {
    var call := LiveCall(root, undo, a);
    if !allowed || call.Failed? { return Result.Failed; }
    LiveOwner(root, undo, a);
    assert CallOk(bridge.disk, LiveCall(root, undo, [a][0]).value);
    var owner := OwnerOf(root, undo, a);
    ghost var w := World(bridge.disk, bridge.journals, bridge.attempt);
    label before:
    bridge.Interfere();
    CallOkLater(bridge.start, old@before(bridge.events), bridge.events, call.value);
    if owner !in bridge.journals && !Unobstructed(bridge.disk, undo, call.value) {
      ObstructedInfeasible(bridge.disk, bridge.journals, undo, call.value);
      return Result.Failed;
    }
    r := Carry(bridge, call.value);
    assert bridge.events[bridge.began] == Start(call.value);
    if !bridge.mortal && !bridge.interfering && BridgeAlone.Unused(w.disk, w.journals, owner) {
      BridgeAlone.BeganThere(bridge, call.value, old(bridge.events), w);
      BridgeAlone.ReturnsIfFeasible(bridge, call.value);
    }
  }

  // An obstructed call would not have returned.
  lemma ObstructedInfeasible(k: Disk, js: map<string, Journal>, undo: bool, call: Call)
    requires !Unobstructed(k, undo, call)
    ensures !BridgeAlone.Feasible(k, js, call)
  {
  }

  // Recovery of the action has begun, right after these events.
  ghost predicate RecoveryBegan(bridge: Bridge, before: seq<Event>, root: ConnectedRoot, undo: bool, a: PlannedAction)
    reads bridge
  {
    PhysicalActionBinding(root, a).Ok? &&
    bridge.Begun(before, RecoverCall(OwnerOf(root, undo, a), Some(PhysicalActionBinding(root, a).value)))
  }

  ghost predicate NothingRecovered(bridge: Bridge)
    reads bridge
  {
    bridge.attempt.Some? && bridge.attempt.value.pc == Returned(None)
  }

  // settleFailedPhysicalAction
  method Settle(bridge: Bridge, root: ConnectedRoot, undo: bool, a: PlannedAction) returns (report: R.Report, ghost attempt: R.Attempt)
    requires bridge.Idle()
    modifies bridge
    ensures bridge.Idle() && old(bridge.events) <= bridge.events
    ensures OthersKept(old(bridge.journals), bridge.journals, OwnerOf(root, undo, a))
    ensures attempt.Raised? && report == R.Settled(a.id, attempt) && Honest(bridge.journals, OwnerOf(root, undo, a), report)
    ensures attempt.journaled <==> OwnerOf(root, undo, a) in bridge.journals
    ensures attempt.journaled <==> OwnerOf(root, undo, a) in old(bridge.journals)
    ensures attempt.journaled && attempt.recovery.Recorded? ==> Recovers(root, a, bridge.journals[OwnerOf(root, undo, a)])
    ensures !attempt.journaled ==> bridge.events == old(bridge.events) && bridge.disk == old(bridge.disk) && bridge.journals == old(bridge.journals)
    ensures attempt.journaled ==> PhysicalActionBinding(root, a).Failed? || RecoveryBegan(bridge, old(bridge.events), root, undo, a)
    ensures attempt.journaled && !attempt.recovery.Recorded? ==> PhysicalActionBinding(root, a).Failed? || bridge.Ended() || NothingRecovered(bridge)
  {
    var owner := OwnerOf(root, undo, a);
    if owner !in bridge.journals {
      attempt := R.Raised(R.OtherReason, false, R.Unproven);
      return R.Report(a.id, R.Status.Failed, R.NoEffect, Some(R.OtherReason)), attempt;
    }
    var pending := R.Report(a.id, R.Pending, R.Unknown, Some(R.RecoveryRequired));
    attempt := R.Raised(R.OtherReason, true, R.Threw);
    var binding := PhysicalActionBinding(root, a);
    if binding.Failed? { return pending, attempt; }
    var recovered := bridge.RecoverPhysicalAction(owner, Some(binding.value));
    JournaledStill(bridge.start, old(bridge.events), bridge.events, owner);
    if recovered.Failed? { return pending, attempt; }
    if recovered.value.None? {
      attempt := R.Raised(R.OtherReason, true, R.Unproven);
      return pending, attempt;
    }
    attempt := R.Raised(R.OtherReason, true, R.Recorded(ChangedBy(recovered.value.value)));
    return R.Report(a.id, R.Completed, R.EffectOf(ChangedBy(recovered.value.value)), None), attempt;
  }

  lemma JournaledStill(w: World, es: seq<Event>, es': seq<Event>, owner: string)
    requires Legal(w, es) && Legal(w, es') && es <= es' && owner in Exec(w, es).journals
    ensures owner in Exec(w, es').journals
  {
    assert es'[..|es|] == es;
    JournalsStay(w, es', |es|, owner);
  }

  // ---- a whole list ----

  function Ids(actions: seq<PlannedAction>): (ids: seq<string>)
    ensures |ids| == |actions|
  {
    seq(|actions|, i requires 0 <= i < |actions| => actions[i].id)
  }

  // The first `done` reports are honest, and the owners from `next` on have done nothing meanwhile.
  ghost predicate Standing(js0: map<string, Journal>, js: map<string, Journal>, root: ConnectedRoot, undo: bool,
                           actions: seq<PlannedAction>, results: seq<R.Report>, done: nat, next: nat)
    requires done <= |actions| == |results| && next <= |actions|
  {
    && (forall i :: 0 <= i < done ==> Honest(js, OwnerOf(root, undo, actions[i]), results[i]))
    && (forall i :: next <= i < |actions| ==>
          Lookup(js, OwnerOf(root, undo, actions[i])) == Lookup(js0, OwnerOf(root, undo, actions[i])))
  }

  lemma StandingOn(js0: map<string, Journal>, js: map<string, Journal>, js': map<string, Journal>, root: ConnectedRoot, undo: bool,
                   actions: seq<PlannedAction>, results: seq<R.Report>, k: nat, report: R.Report)
    requires Distinct(actions) && k < |actions| == |results| && Standing(js0, js, root, undo, actions, results, k, k)
    requires OthersKept(js, js', OwnerOf(root, undo, actions[k])) && Honest(js', OwnerOf(root, undo, actions[k]), report)
    ensures Standing(js0, js', root, undo, actions, results[k := report], k + 1, k + 1)
  {
    var owner := OwnerOf(root, undo, actions[k]);
    forall i | 0 <= i < k ensures Honest(js', OwnerOf(root, undo, actions[i]), results[i]) {
      OwnersDiffer(root, undo, actions[i], actions[k]);
      HonestStays(js, js', OwnerOf(root, undo, actions[i]), owner, results[i]);
    }
    forall i | k + 1 <= i < |actions|
      ensures Lookup(js', OwnerOf(root, undo, actions[i])) == Lookup(js0, OwnerOf(root, undo, actions[i]))
    {
      OwnersDiffer(root, undo, actions[k], actions[i]);
      assert Lookup(js', OwnerOf(root, undo, actions[i])) == Lookup(js, OwnerOf(root, undo, actions[i]));
    }
  }

  lemma StandingStart(js: map<string, Journal>, root: ConnectedRoot, undo: bool, actions: seq<PlannedAction>, results: seq<R.Report>)
    requires |results| == |actions|
    ensures Standing(js, js, root, undo, actions, results, 0, 0)
  {
  }

  lemma StillStopped(k: Disk, k': Disk, js: map<string, Journal>, js': map<string, Journal>, es: seq<Event>, es': seq<Event>, since: nat,
                     root: ConnectedRoot, undo: bool, a: PlannedAction, allowed: bool)
    requires Stopped(k, js, es, since, root, undo, a, allowed) && es <= es'
    requires OwnerOf(root, undo, a) !in js' ==> k' == k && js' == js
    requires OwnerOf(root, undo, a) in js' ==> OwnerOf(root, undo, a) in js
    ensures Stopped(k', js', es', since, root, undo, a, allowed)
  {
    if allowed && LiveCall(root, undo, a).Ok? {
      LiveOwner(root, undo, a);
      var call := LiveCall(root, undo, a).value;
      if CallBegan(es, since, call) { BeganBefore(es, es', since, call); }
    }
  }

  // One action, tried and, if that throws, settled.
  method RunAction(bridge: Bridge, root: ConnectedRoot, undo: bool, actions: seq<PlannedAction>, k: nat, allowed: bool)
    returns (report: R.Report, threw: bool, ghost attempt: R.Attempt)
    requires bridge.Idle() && k < |actions| && Addressed(bridge.disk, root, undo, actions)
    modifies bridge
    ensures bridge.Idle() && old(bridge.events) <= bridge.events && Addressed(bridge.disk, root, undo, actions)
    ensures OthersKept(old(bridge.journals), bridge.journals, OwnerOf(root, undo, actions[k]))
    ensures report == R.Reported(actions[k].id, attempt) && threw == attempt.Raised?
    ensures Honest(bridge.journals, OwnerOf(root, undo, actions[k]), report)
    ensures threw ==> (attempt.journaled <==> OwnerOf(root, undo, actions[k]) in bridge.journals)
    ensures threw ==> Stopped(bridge.disk, bridge.journals, bridge.events, |old(bridge.events)|, root, undo, actions[k], allowed)
    ensures !threw ==> allowed
  {
    hide LiveCall, PhysicalActionBinding, Inv, Legal, Exec, Authorized;
    ghost var es := bridge.events;
    OneAddressed(bridge.disk, root, undo, actions, k);
    var r := AttemptAction(bridge, root, undo, actions[k], allowed);
    threw := r.Failed?;
    if threw {
      ghost var js, stop, k0 := bridge.journals, bridge.events, bridge.disk;
      report, attempt := Settle(bridge, root, undo, actions[k]);
      StillStopped(k0, bridge.disk, js, bridge.journals, stop, bridge.events, |es|, root, undo, actions[k], allowed);
      OthersStill(old(bridge.journals), js, bridge.journals, OwnerOf(root, undo, actions[k]));
    } else {
      report := R.Report(actions[k].id, R.Completed, R.EffectOf(ChangedBy(r.value)), None);
      attempt := R.Returned(ChangedBy(r.value));
    }
    AddressedLater(bridge.start, es, bridge.events, root, undo, actions);
  }

  lemma OneAddressed(k: Disk, root: ConnectedRoot, undo: bool, actions: seq<PlannedAction>, i: nat)
    requires i < |actions| && Addressed(k, root, undo, actions)
    ensures Addressed(k, root, undo, [actions[i]])
  {
  }

  // executeBridgePlanActionsOwned and executeBridgeUndoActionsOwned: completed actions, at most one
  // settled one, then untouched ones whose owners have done nothing; and every report is honest.
  method RunActions(bridge: Bridge, root: ConnectedRoot, undo: bool, actions: seq<PlannedAction>, allowed: seq<bool>)
    returns (results: array<R.Report>, ghost attempts: seq<R.Attempt>)
    requires |allowed| == |actions| && bridge.Idle() && Distinct(actions) && Addressed(bridge.disk, root, undo, actions)
    modifies bridge
    ensures bridge.Idle() && old(bridge.events) <= bridge.events && fresh(results)
    ensures |attempts| == |actions| && R.Shape(Ids(actions), attempts, results[..])
    ensures var done := if R.Stop(attempts) < |actions| then R.Stop(attempts) + 1 else |actions|;
      Standing(old(bridge.journals), bridge.journals, root, undo, actions, results[..], done, done)
    ensures R.Stop(attempts) < |actions| ==>
      var k := R.Stop(attempts);
      Stopped(bridge.disk, bridge.journals, bridge.events, |old(bridge.events)|, root, undo, actions[k], allowed[k])
    ensures forall i :: 0 <= i < R.Stop(attempts) ==> allowed[i]
    ensures forall i :: 0 <= i < |actions| ==>
      && results[i].actionId == actions[i].id
      && (i < R.Stop(attempts) ==> results[i].status.Completed?)
      && (i > R.Stop(attempts) ==> results[i].status.Pending? && results[i].effect == R.NoEffect && results[i].reason == None)
    ensures R.Stop(attempts) < |actions| ==>
      (attempts[R.Stop(attempts)].journaled <==> OwnerOf(root, undo, actions[R.Stop(attempts)]) in bridge.journals)
    ensures forall i :: 0 <= i < |actions| && results[i].status.Failed? ==>
      NeverChanged(bridge.start, bridge.events, OwnerOf(root, undo, actions[i]))
  {
    hide NeverChanged;
    hide Bridge.Valid, Standing, Honest, OthersKept, Addressed, Distinct, Stopped, R.Reported, R.Settled, Legal, Exec, Inv;
    var ids := Ids(actions);
    results := new R.Report[|ids|](i requires 0 <= i < |ids| => R.Untouched(ids[i]));
    attempts := [];
    ghost var js0 := bridge.journals;
    StandingStart(js0, root, undo, actions, results[..]);
    for k := 0 to |actions|
      invariant bridge.Idle() && old(bridge.events) <= bridge.events && Addressed(bridge.disk, root, undo, actions)
      invariant |attempts| == k && forall i :: 0 <= i < k ==> attempts[i].Returned?
      invariant forall i :: 0 <= i < |ids| ==> results[i] == if i < k then R.Reported(ids[i], attempts[i]) else R.Untouched(ids[i])
      invariant Standing(js0, bridge.journals, root, undo, actions, results[..], k, k)
      invariant forall i :: 0 <= i < k ==> allowed[i]
    {
      ghost var js, before := bridge.journals, results[..];
      ghost var attempt;
      var report, threw;
      ghost var since := |bridge.events|;
      report, threw, attempt := RunAction(bridge, root, undo, actions, k, allowed[k]);
      results[k] := report;
      StandingOn(js0, js, bridge.journals, root, undo, actions, before, k, report);
      assert results[..] == before[k := report];
      attempts := attempts + [attempt];
      if threw {
        attempts := attempts + seq(|actions| - k - 1, i => R.Returned(true));
        Stops(attempts, k);
        ShapedReports(actions, attempts, results[..]);
        StoppedSince(bridge.disk, bridge.journals, bridge.events, since, |old(bridge.events)|, root, undo, actions[k], allowed[k]);
        FailedReports(bridge, js0, root, undo, actions, results[..], k + 1);
        return;
      }
    }
    Stops(attempts, |actions|);
    ShapedReports(actions, attempts, results[..]);
    FailedReports(bridge, js0, root, undo, actions, results[..], |actions|);
  }

  lemma StoppedSince(k: Disk, js: map<string, Journal>, es: seq<Event>, since: nat, before: nat, root: ConnectedRoot, undo: bool,
                     a: PlannedAction, allowed: bool)
    requires Stopped(k, js, es, since, root, undo, a, allowed) && before <= since
    ensures Stopped(k, js, es, before, root, undo, a, allowed)
  {
  }

  lemma ShapedReports(actions: seq<PlannedAction>, attempts: seq<R.Attempt>, results: seq<R.Report>)
    requires |attempts| == |actions| && R.Shape(Ids(actions), attempts, results)
    ensures forall i :: 0 <= i < |actions| ==>
      && results[i].actionId == actions[i].id
      && (i < R.Stop(attempts) ==> results[i].status.Completed?)
      && (i > R.Stop(attempts) ==> results[i].status.Pending? && results[i].effect == R.NoEffect && results[i].reason == None)
  {
  }

  // "Failed with no effect" is true: of all that happened since the bridge started.
  lemma FailedReports(bridge: Bridge, js0: map<string, Journal>, root: ConnectedRoot, undo: bool, actions: seq<PlannedAction>,
                      results: seq<R.Report>, done: nat)
    requires bridge.Idle() && done <= |actions| == |results|
    requires Standing(js0, bridge.journals, root, undo, actions, results, done, done)
    requires forall i :: done <= i < |actions| ==> results[i].status.Pending?
    ensures forall i :: 0 <= i < |actions| && results[i].status.Failed? ==>
      NeverChanged(bridge.start, bridge.events, OwnerOf(root, undo, actions[i]))
  {
    hide NeverChanged, Honest;
    forall i | 0 <= i < |actions| && results[i].status.Failed?
      ensures NeverChanged(bridge.start, bridge.events, OwnerOf(root, undo, actions[i]))
    {
      FailedChangedNothing(bridge.start, bridge.events, bridge.journals, OwnerOf(root, undo, actions[i]), results[i]);
    }
  }

  lemma OthersStill(js: map<string, Journal>, js1: map<string, Journal>, js2: map<string, Journal>, owner: string)
    requires OthersKept(js, js1, owner) && OthersKept(js1, js2, owner)
    ensures OthersKept(js, js2, owner)
  {
    forall o: string | o != owner ensures Lookup(js2, o) == Lookup(js, o) {
      assert Lookup(js2, o) == Lookup(js1, o);
    }
  }

  lemma Stops(attempts: seq<R.Attempt>, k: nat)
    requires k <= |attempts| && (forall i :: 0 <= i < k ==> attempts[i].Returned?) && (k < |attempts| ==> attempts[k].Raised?)
    ensures R.Stop(attempts) == k
  {
  }

  // ---- historical recovery of a list ----

  // What recovery reports of one action: a completed one has its completed journal on record, which
  // is the action's own; "failed with no effect" is only said of a command that never started.
  predicate Recovered(js: map<string, Journal>, root: ConnectedRoot, undo: bool, a: PlannedAction, neverStarted: bool, report: R.Report) {
    var owner := OwnerOf(root, undo, a);
    match report.status
    case Completed => Honest(js, owner, report) && Recovers(root, a, js[owner])
    case Failed => neverStarted && report.effect == R.NoEffect
    case Pending => report.effect == R.Unknown && report.reason.Some?
  }

  method RecoverAction(bridge: Bridge, root: ConnectedRoot, undo: bool, a: PlannedAction, neverStarted: bool) returns (report: R.Report)
    requires bridge.Idle()
    modifies bridge
    ensures bridge.Idle() && old(bridge.events) <= bridge.events
    ensures OthersKept(old(bridge.journals), bridge.journals, OwnerOf(root, undo, a))
    ensures report.actionId == a.id && Recovered(bridge.journals, root, undo, a, neverStarted, report)
    ensures OwnerOf(root, undo, a) !in old(bridge.journals) ==>
      OwnerOf(root, undo, a) !in bridge.journals && Honest(bridge.journals, OwnerOf(root, undo, a), report)
    ensures PhysicalActionBinding(root, a).Failed? || RecoveryBegan(bridge, old(bridge.events), root, undo, a)
    ensures PhysicalActionBinding(root, a).Ok? ==>
      && (report.status.Completed? <==> bridge.attempt.Some? && bridge.attempt.value.pc.Returned? && bridge.attempt.value.pc.outcome.Some?)
      && (report.status.Failed? <==> neverStarted && NothingRecovered(bridge))
  {
    var owner := OwnerOf(root, undo, a);
    var pending := R.Report(a.id, R.Pending, R.Unknown, Some(R.RecoveryRequired));
    var binding := PhysicalActionBinding(root, a);
    if binding.Failed? { return pending; }
    var recovered := bridge.RecoverPhysicalAction(owner, Some(binding.value));
    if recovered.Failed? { return pending; }
    if recovered.value.Some? {
      return R.Report(a.id, R.Completed, R.EffectOf(ChangedBy(recovered.value.value)), None);
    }
    return if neverStarted then R.Report(a.id, R.Status.Failed, R.NoEffect, Some(R.OtherReason))
           else R.Report(a.id, R.Pending, R.Unknown, Some(R.OtherReason));
  }

  ghost predicate AllRecovered(js: map<string, Journal>, root: ConnectedRoot, undo: bool, actions: seq<PlannedAction>, neverStarted: bool,
                               results: seq<R.Report>, done: nat)
    requires done <= |actions| == |results|
  {
    forall i :: 0 <= i < done ==> Recovered(js, root, undo, actions[i], neverStarted, results[i])
  }

  lemma RecoveredOn(js: map<string, Journal>, js': map<string, Journal>, root: ConnectedRoot, undo: bool, actions: seq<PlannedAction>,
                    neverStarted: bool, results: seq<R.Report>, k: nat, report: R.Report)
    requires Distinct(actions) && k < |actions| == |results| && AllRecovered(js, root, undo, actions, neverStarted, results, k)
    requires OthersKept(js, js', OwnerOf(root, undo, actions[k])) && Recovered(js', root, undo, actions[k], neverStarted, report)
    ensures AllRecovered(js', root, undo, actions, neverStarted, results[k := report], k + 1)
  {
    hide Recovers, Honest;
    forall i | 0 <= i < k ensures Recovered(js', root, undo, actions[i], neverStarted, results[i]) {
      OwnersDiffer(root, undo, actions[i], actions[k]);
      var owner := OwnerOf(root, undo, actions[i]);
      assert Lookup(js', owner) == Lookup(js, owner);
      if results[i].status.Completed? {
        assert owner in js by { HonestOnRecord(js, owner, results[i]); }
        HonestStays(js, js', owner, OwnerOf(root, undo, actions[k]), results[i]);
      }
    }
  }

  // The recovery of every action whose binding can be derived has been called.
  ghost predicate AllTried(es: seq<Event>, since: nat, root: ConnectedRoot, undo: bool, actions: seq<PlannedAction>, done: nat)
    requires done <= |actions|
  {
    forall i :: 0 <= i < done && PhysicalActionBinding(root, actions[i]).Ok? ==>
      CallBegan(es, since, RecoverCall(OwnerOf(root, undo, actions[i]), Some(PhysicalActionBinding(root, actions[i]).value)))
  }

  lemma NoneTried(es: seq<Event>, since: nat, root: ConnectedRoot, undo: bool, actions: seq<PlannedAction>)
    ensures AllTried(es, since, root, undo, actions, 0)
  {
  }

  lemma TriedOn(es: seq<Event>, es': seq<Event>, since: nat, began: nat, root: ConnectedRoot, undo: bool, actions: seq<PlannedAction>, k: nat)
    requires k < |actions| && AllTried(es, since, root, undo, actions, k) && since <= |es| && es <= es'
    requires PhysicalActionBinding(root, actions[k]).Ok? ==>
      var call := RecoverCall(OwnerOf(root, undo, actions[k]), Some(PhysicalActionBinding(root, actions[k]).value));
      began == |es| < |es'| && es'[began] == Start(call)
    ensures AllTried(es', since, root, undo, actions, k + 1)
  {
    forall i | 0 <= i < k && PhysicalActionBinding(root, actions[i]).Ok?
      ensures CallBegan(es', since, RecoverCall(OwnerOf(root, undo, actions[i]), Some(PhysicalActionBinding(root, actions[i]).value)))
    {
      BeganBefore(es, es', since, RecoverCall(OwnerOf(root, undo, actions[i]), Some(PhysicalActionBinding(root, actions[i]).value)));
    }
  }

  lemma HonestOnRecord(js: map<string, Journal>, owner: string, report: R.Report)
    requires Honest(js, owner, report) && report.status.Completed?
    ensures owner in js
  {
  }

  // recoverBridgePhysicalActions: the whole list is reported COMPLETED exactly when every action is,
  // and then every action's own completed journal is on record.
  method RecoverActions(bridge: Bridge, root: ConnectedRoot, undo: bool, actions: seq<PlannedAction>, neverStarted: bool)
    returns (results: array<R.Report>, status: R.RunStatus)
    requires bridge.Idle() && Distinct(actions)
    modifies bridge
    ensures bridge.Idle() && old(bridge.events) <= bridge.events && fresh(results) && results.Length == |actions|
    ensures AllRecovered(bridge.journals, root, undo, actions, neverStarted, results[..], |actions|)
    ensures AllTried(bridge.events, |old(bridge.events)|, root, undo, actions, |actions|)
    ensures forall i :: 0 <= i < |actions| ==> results[i].actionId == actions[i].id
    ensures status == R.RecoveryStatusOf(results[..])
    ensures status == R.RunCompleted <==> forall i :: 0 <= i < |actions| ==> results[i].status.Completed?
    ensures status == R.RunCompleted ==> forall i :: 0 <= i < |actions| ==>
      && OwnerOf(root, undo, actions[i]) in bridge.journals
      && bridge.journals[OwnerOf(root, undo, actions[i])].status == Status.Completed
      && Recovers(root, actions[i], bridge.journals[OwnerOf(root, undo, actions[i])])
  {
    hide Bridge.Valid, Recovered, OthersKept, Distinct, Recovers, AllTried, PhysicalActionBinding, R.RecoveryStatusOf;
    results := new R.Report[|actions|](i requires 0 <= i < |actions| => R.Untouched(actions[i].id));
    NoneTried(bridge.events, |bridge.events|, root, undo, actions);
    for k := 0 to |actions|
      invariant bridge.Idle() && old(bridge.events) <= bridge.events
      invariant AllRecovered(bridge.journals, root, undo, actions, neverStarted, results[..], k)
      invariant AllTried(bridge.events, |old(bridge.events)|, root, undo, actions, k)
      invariant forall i :: 0 <= i < |actions| ==> results[i].actionId == actions[i].id
    {
      ghost var js, before, es := bridge.journals, results[..], bridge.events;
      var report := RecoverAction(bridge, root, undo, actions[k], neverStarted);
      TriedOn(es, bridge.events, |old(bridge.events)|, bridge.began, root, undo, actions, k);
      results[k] := report;
      RecoveredOn(js, bridge.journals, root, undo, actions, neverStarted, before, k, report);
      assert results[..] == before[k := report];
    }
    status := R.RecoveryStatusOf(results[..]);
    R.RecoveryCompletedExactly(results[..]);
    if status == R.RunCompleted { OnRecord(bridge.journals, root, undo, actions, neverStarted, results[..]); }
  }

  lemma OnRecord(js: map<string, Journal>, root: ConnectedRoot, undo: bool, actions: seq<PlannedAction>, neverStarted: bool,
                 results: seq<R.Report>)
    requires |results| == |actions| && AllRecovered(js, root, undo, actions, neverStarted, results, |actions|)
    requires forall i :: 0 <= i < |actions| ==> results[i].status.Completed?
    ensures forall i :: 0 <= i < |actions| ==>
      && OwnerOf(root, undo, actions[i]) in js && js[OwnerOf(root, undo, actions[i])].status == Status.Completed
      && Recovers(root, actions[i], js[OwnerOf(root, undo, actions[i])])
  {
    forall i | 0 <= i < |actions|
      ensures
        && OwnerOf(root, undo, actions[i]) in js && js[OwnerOf(root, undo, actions[i])].status == Status.Completed
        && Recovers(root, actions[i], js[OwnerOf(root, undo, actions[i])])
    {
      assert Recovered(js, root, undo, actions[i], neverStarted, results[i]);
    }
  }
}
