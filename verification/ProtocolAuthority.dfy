// Whose journal a journal is: as long as an owner belongs to one action, whatever its calls have
// journaled carries the authority of that action's call.
module ProtocolAuthority {
  import opened Wrappers
  import opened FileSystem
  import opened Protocol
  import opened ProtocolInvariant
  import opened ProtocolSteps
  import opened ProtocolSafety

  // Every live call of this owner is this one; historical recovery may come in at any time.
  predicate OneCall(es: seq<Event>, call: Call) {
    forall e | e in es :: OneCallEvent(e, call)
  }

  predicate OneCallEvent(e: Event, call: Call) {
    e.Start? && e.call.owner == call.owner ==> e.call == call || e.call.RecoverCall?
  }

  ghost predicate Entitled(w: World, call: Call) {
    var o := call.owner;
    && (o in w.journals ==> Authorized(w.journals[o], call))
    && (w.active.Some? && w.active.value.call.owner == o ==>
          var a := w.active.value;
          && (a.call == call || a.call.RecoverCall?)
          && (a.pc.Moving? && !a.pc.m.ReadSource? ==> Authorized(a.entry, call)))
  }

  lemma MovingAuthority(k: Disk, js: map<string, Journal>, a: Attempt)
    requires a.pc.Moving? && Typed(a) && (!a.pc.m.ReadSource? ==> Authorized(a.entry, a.call))
    ensures var action := NextMove(k, a);
      && (action.Write? ==> Authorized(action.next.entry, a.call))
      && forall b | Follows(action, b) :: b.call == a.call && (b.pc.Moving? && !b.pc.m.ReadSource? ==> Authorized(b.entry, a.call))
  {
  }

  // What authority looks at.
  predicate SameAction(i: Journal, j: Journal) {
    && i.kind == j.kind && i.source == j.source && i.destination == j.destination && i.identity == j.identity
    && i.originalOwner == j.originalOwner
  }

  lemma OwningGoes(k: Disk, a: Attempt, pick: Pick)
    requires a.pc.Owning? && Typed(a)
    ensures var action := NextOwnedSource(k, a, pick);
      && action.next.call == a.call && !action.next.pc.Moving?
      && (action.Make? ==> action.failed.call == a.call && !action.failed.pc.Moving?)
  {
    hide Perform, FileIdentityAt, DirectoryAt;
  }

  lemma OwningWrites(k: Disk, a: Attempt, pick: Pick)
    requires a.pc.Owning? && Typed(a) && NextOwnedSource(k, a, pick).Write?
    ensures SameAction(NextOwnedSource(k, a, pick).next.entry, a.entry)
  {
    hide Perform, FileIdentityAt, DirectoryAt;
  }

  lemma OwningAuthority(k: Disk, a: Attempt, pick: Pick)
    requires a.pc.Owning? && Typed(a)
    ensures var action := NextOwnedSource(k, a, pick);
      && (action.Write? ==> SameAction(action.next.entry, a.entry))
      && forall b | Follows(action, b) :: b.call == a.call && !b.pc.Moving?
  {
    OwningGoes(k, a, pick);
    if NextOwnedSource(k, a, pick).Write? { OwningWrites(k, a, pick); }
    hide NextOwnedSource;
  }

  lemma FoldersAuthority(k: Disk, js: map<string, Journal>, a: Attempt, pick: Pick)
    requires AttemptOk(k, js, a) && (a.pc.Creating? || a.pc.Removing?)
    ensures var action := NextAction(k, js, a, pick);
      && (action.Write? ==> Authorized(action.next.entry, a.call))
      && forall b | Follows(action, b) :: b.call == a.call && !b.pc.Moving?
  {
    hide NextLoad, NextRecover, NextMove, NextOwnedSource, NextFinish, Perform;
  }

  lemma FinishingAuthority(k: Disk, a: Attempt, pick: Pick)
    requires a.pc.Finishing? && Typed(a)
    ensures var action := NextFinish(k, a, pick);
      && (action.Write? ==> SameAction(action.next.entry, a.entry))
      && forall b | Follows(action, b) :: b.call == a.call && !b.pc.Moving?
  {
    hide Perform, DirectoryAt, StatAt, Empty;
  }

  lemma SameAuthority(i: Journal, j: Journal, call: Call)
    requires SameAction(i, j) && Authorized(j, call) && !call.RecoverCall?
    ensures Authorized(i, call)
  {
  }

  lemma ReadingAuthority(k: Disk, js: map<string, Journal>, a: Attempt, pick: Pick)
    requires Typed(a) && (a.pc.Load? || a.pc.Recovering?)
    ensures var action := NextAction(k, js, a, pick);
      && !action.Write?
      && forall b | Follows(action, b) :: b.call == a.call && (b.pc.Moving? ==> b.pc.m.ReadSource?)
  {
    hide NextMove, NextOwnedSource, NextCreate, NextRemove, NextFinish, Perform;
    match a.pc {
      case Load =>
      case Recovering(_) => RecoveringGoes(k, a);
    }
  }

  lemma RecoveringGoes(k: Disk, a: Attempt)
    requires Typed(a) && a.pc.Recovering?
    ensures var action := NextRecover(k, a);
      !action.Write? && forall b | Follows(action, b) :: b.call == a.call && (b.pc.Moving? ==> b.pc.m.ReadSource?)
  {
    hide Perform, FileIdentityAt, DirectoryAt, StatAt;
    match a.pc.r
    case StatSource =>
    case StatDestination =>
    case ReadDestination =>
    case StatCapture =>
    case StatCaptured =>
    case ReadSourceAgain =>
    case RemoveContainer =>
  }

  lemma EntitledTick(w: World, pick: Pick, call: Call)
    requires Inv(w) && Enabled(w, Tick(pick)) && Entitled(w, call) && !call.RecoverCall?
    ensures Entitled(Next(w, Tick(pick)), call)
  {
    hide PickOk, WellFormed, JournalsOk, CallOk, NextLoad, NextRecover, NextMove, NextOwnedSource, NextCreate, NextRemove,
      NextFinish, Perform, Authorized;
    var k, js, a, action := w.disk, w.journals, w.active.value, ActionOf(w, pick);
    TickGood(w, pick);
    if a.call.owner == call.owner {
      match a.pc {
        case Load => ReadingAuthority(k, js, a, pick);
        case Recovering(_) => ReadingAuthority(k, js, a, pick);
        case Moving(_) => MovingAuthority(k, js, a);
        case Owning(_) =>
          OwningAuthority(k, a, pick);
          if action.Write? { SameAuthority(action.next.entry, a.entry, call); }
        case Finishing(_) =>
          FinishingAuthority(k, a, pick);
          if action.Write? { SameAuthority(action.next.entry, a.entry, call); }
        case _ => FoldersAuthority(k, js, a, pick);
      }
    }
  }

  // Whatever an owner has journaled is authorised for its action.
  lemma {:induction false} AuthorityAlways(w: World, es: seq<Event>, call: Call)
    requires Inv(w) && Legal(w, es) && Entitled(w, call) && !call.RecoverCall? && OneCall(es, call)
    ensures Entitled(Exec(w, es), call)
    decreases |es|
  {
    if es != [] {
      var v, e := Exec(w, es[..|es| - 1]), es[|es| - 1];
      AuthorityAlways(w, es[..|es| - 1], call);
      InvAlways(w, es[..|es| - 1]);
      assert OneCallEvent(e, call);
      if e.Tick? { EntitledTick(v, e.pick, call); }
    }
  }
}
