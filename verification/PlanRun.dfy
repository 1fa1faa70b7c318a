// Running a plan: the order of its actions, the report on each of them, and the overall status.
module PlanRun {
  import opened Wrappers
  import opened Plan

  // ---- the order of execution ----

  // Locale comparison of relative paths and of ids: any total orders in which a folder comes before
  // what lies inside it.
  datatype Orders = Orders(path: (Path, Path) -> bool, id: (string, string) -> bool)

  ghost predicate TotalOrder<T(!new)>(le: (T, T) -> bool) {
    && (forall a, b :: le(a, b) || le(b, a))
    && (forall a, b :: le(a, b) && le(b, a) ==> a == b)
    && (forall a, b, c :: le(a, b) && le(b, c) ==> le(a, c))
  }

  ghost predicate Sound(o: Orders) {
    TotalOrder(o.path) && TotalOrder(o.id) && forall p: Path, q: Path :: p <= q ==> o.path(p, q)
  }

  function ExecutionOrder(kind: ActionKind): int {
    match kind
    case CreateFolder => 10
    case MoveFile => 30
    case RenameFile => 40
    case MoveAndRenameFile => 50
  }

  // The comparator gives at most zero.
  predicate NotAfter(a: PlanAction, b: PlanAction, o: Orders) {
    if ExecutionOrder(a.kind) != ExecutionOrder(b.kind) then ExecutionOrder(a.kind) < ExecutionOrder(b.kind)
    else if a.destination != b.destination then o.path(a.destination, b.destination)
    else o.id(a.id, b.id)
  }

  function Insert(a: PlanAction, sorted: seq<PlanAction>, o: Orders): (r: seq<PlanAction>)
    ensures |r| == |sorted| + 1
  {
    if sorted == [] || NotAfter(a, sorted[0], o) then [a] + sorted else [sorted[0]] + Insert(a, sorted[1..], o)
  }

  function Ordered(actions: seq<PlanAction>, o: Orders): (r: seq<PlanAction>)
    ensures |r| == |actions|
  {
    if actions == [] then [] else Insert(actions[0], Ordered(actions[1..], o), o)
  }

  ghost predicate InOrder(actions: seq<PlanAction>, o: Orders) {
    forall i, j :: 0 <= i < j < |actions| ==> NotAfter(actions[i], actions[j], o)
  }

  lemma NotAfterTransitive(a: PlanAction, b: PlanAction, c: PlanAction, o: Orders)
    requires Sound(o) && NotAfter(a, b, o) && NotAfter(b, c, o)
    ensures NotAfter(a, c, o)
  {
  }

  lemma {:induction false} InsertOrders(a: PlanAction, sorted: seq<PlanAction>, o: Orders)
    requires Sound(o) && InOrder(sorted, o)
    ensures InOrder(Insert(a, sorted, o), o) && multiset(Insert(a, sorted, o)) == multiset(sorted) + multiset{a}
  {
    if sorted == [] {
    } else if NotAfter(a, sorted[0], o) {
      forall j | 0 <= j < |sorted| ensures NotAfter(a, sorted[j], o) {
        if j > 0 { NotAfterTransitive(a, sorted[0], sorted[j], o); }
      }
    } else {
      InsertOrders(a, sorted[1..], o);
      assert sorted == [sorted[0]] + sorted[1..];
      var rest := Insert(a, sorted[1..], o);
      forall x | x in rest ensures NotAfter(sorted[0], x, o) {
        assert x in multiset(rest);
        if x != a { assert x in sorted[1..]; }
      }
    }
  }

  lemma {:induction false} OrderedOrders(actions: seq<PlanAction>, o: Orders)
    requires Sound(o)
    ensures InOrder(Ordered(actions, o), o) && multiset(Ordered(actions, o)) == multiset(actions)
  {
    if actions != [] {
      OrderedOrders(actions[1..], o);
      InsertOrders(actions[0], Ordered(actions[1..], o), o);
      assert actions == [actions[0]] + actions[1..];
    }
  }

  // The executed plan has the same actions: creations, then moves, then renames, then both in one;
  // within a kind by destination and then by id.  So a folder comes before everything inside it.
  lemma PlanOrder(actions: seq<PlanAction>, o: Orders)
    requires Sound(o)
    ensures multiset(Ordered(actions, o)) == multiset(actions)
    ensures var s := Ordered(actions, o);
      forall i, j :: 0 <= i < j < |s| ==>
        && (s[j].kind.CreateFolder? ==> s[i].kind.CreateFolder?)
        && (s[j].kind.MoveFile? ==> s[i].kind.CreateFolder? || s[i].kind.MoveFile?)
        && (s[j].kind.RenameFile? ==> !s[i].kind.MoveAndRenameFile?)
        && (s[i].kind == s[j].kind ==> o.path(s[i].destination, s[j].destination))
        && (s[i].kind == s[j].kind && s[i].destination == s[j].destination ==> o.id(s[i].id, s[j].id))
    ensures var s := Ordered(actions, o);
      && (forall i, j :: 0 <= i < |s| && 0 <= j < |s| && s[i].kind.CreateFolder? && !s[j].kind.CreateFolder? ==> i < j)
      && (forall i, j :: 0 <= i < |s| && 0 <= j < |s| && s[i].kind.CreateFolder? && s[i].destination < s[j].destination ==> i < j)
  {
    OrderedOrders(actions, o);
    var s := Ordered(actions, o);
    forall i, j | 0 <= i < j < |s|
      ensures s[j].kind.CreateFolder? ==> s[i].kind.CreateFolder?
      ensures s[j].kind.MoveFile? ==> s[i].kind.CreateFolder? || s[i].kind.MoveFile?
      ensures s[j].kind.RenameFile? ==> !s[i].kind.MoveAndRenameFile?
      ensures s[i].kind == s[j].kind ==> o.path(s[i].destination, s[j].destination)
      ensures s[i].kind == s[j].kind && s[i].destination == s[j].destination ==> o.id(s[i].id, s[j].id)
    {
      assert NotAfter(s[i], s[j], o);
      assert o.path(s[i].destination, s[i].destination);
    }
    forall i, j | 0 <= i < |s| && 0 <= j < |s| && s[i].kind.CreateFolder? && s[i].destination < s[j].destination ensures i < j {
      FolderFirst(s[i], s[j], o);
    }
  }

  lemma FolderFirst(a: PlanAction, b: PlanAction, o: Orders)
    requires Sound(o) && a.kind.CreateFolder? && a.destination < b.destination
    ensures !NotAfter(b, a, o)
  {
    assert o.path(a.destination, b.destination);
  }

  // ---- one action's report ----

  datatype Status = Completed | Failed | Pending
  datatype Effect = NoEffect | Changed | Unknown
  datatype Reason = RecoveryRequired | OtherReason
  datatype Report = Report(actionId: string, status: Status, effect: Effect, reason: Option<Reason>)

  // What recoverPhysicalAction gives for a failed action: nothing proven, a recorded outcome (that
  // changed the library or found its folder there already), or an exception.
  datatype Recovery = Unproven | Recorded(changed: bool) | Threw

  // How one attempt ends: it returns, or it throws for some reason, with or without a journal.
  datatype Attempt = Returned(changed: bool) | Raised(reason: Reason, journaled: bool, recovery: Recovery)

  function Untouched(id: string): Report {
    Report(id, Pending, NoEffect, None)
  }

  function EffectOf(changed: bool): Effect {
    if changed then Changed else NoEffect
  }

  // settleFailedPhysicalAction
  function Settled(id: string, a: Attempt): Report
    requires a.Raised?
  {
    if !a.journaled then Report(id, Status.Failed, NoEffect, Some(a.reason))
    else match a.recovery
      case Unproven => Report(id, Pending, Unknown, Some(RecoveryRequired))
      case Recorded(changed) => Report(id, Completed, EffectOf(changed), None)
      case Threw => Report(id, Pending, Unknown, Some(RecoveryRequired))
  }

  function Reported(id: string, a: Attempt): Report {
    if a.Returned? then Report(id, Completed, EffectOf(a.changed), None) else Settled(id, a)
  }

  // The first attempt that throws, or the length of the plan.
  function Stop(attempts: seq<Attempt>): (k: nat)
    ensures k <= |attempts| && (forall i :: 0 <= i < k ==> attempts[i].Returned?) && (k < |attempts| ==> attempts[k].Raised?)
  {
    if attempts == [] || attempts[0].Raised? then 0 else 1 + Stop(attempts[1..])
  }

  // The reports come in the executed order: completed actions, at most one settled one, and the
  // rest untouched.
  ghost predicate Shape(ids: seq<string>, attempts: seq<Attempt>, reports: seq<Report>)
    requires |ids| == |attempts|
  {
    |reports| == |ids| &&
    forall i :: 0 <= i < |ids| ==> reports[i] == if i <= Stop(attempts) then Reported(ids[i], attempts[i]) else Untouched(ids[i])
  }

  // ---- the overall status ----

  datatype RunStatus = RunRecoveryRequired | RunPartiallyCompleted | RunFailed | RunCompleted

  function Count(reports: seq<Report>, status: Status): (n: nat)
    ensures n <= |reports|
    ensures n > 0 <==> exists i :: 0 <= i < |reports| && reports[i].status == status
    ensures n == |reports| <==> forall i :: 0 <= i < |reports| ==> reports[i].status == status
  {
    if reports == [] then 0
    else
      var n := Count(reports[..|reports| - 1], status);
      assert forall i :: 0 <= i < |reports| - 1 ==> reports[..|reports| - 1][i] == reports[i];
      n + if reports[|reports| - 1].status == status then 1 else 0
  }

  function RunStatusOf(reports: seq<Report>): RunStatus {
    if exists i :: 0 <= i < |reports| && reports[i].reason == Some(RecoveryRequired) then RunRecoveryRequired
    else if Count(reports, Status.Failed) > 0 then (if Count(reports, Completed) > 0 then RunPartiallyCompleted else RunFailed)
    else RunCompleted
  }

  function RecoveryStatusOf(reports: seq<Report>): RunStatus {
    if exists i :: 0 <= i < |reports| && reports[i].status == Pending then RunRecoveryRequired
    else if Count(reports, Completed) == |reports| then RunCompleted
    else if Count(reports, Completed) > 0 then RunPartiallyCompleted
    else RunFailed
  }

  predicate Any(reports: seq<Report>, status: Status) {
    exists i :: 0 <= i < |reports| && reports[i].status == status
  }

  // What each overall status says of the single reports.
  lemma RunStatusMeans(reports: seq<Report>)
    ensures var status := RunStatusOf(reports);
      var unsure := exists i :: 0 <= i < |reports| && reports[i].reason == Some(RecoveryRequired);
      && (status == RunRecoveryRequired <==> unsure)
      && (status == RunPartiallyCompleted <==> !unsure && Any(reports, Status.Failed) && Any(reports, Completed))
      && (status == RunFailed <==> !unsure && Any(reports, Status.Failed) && !Any(reports, Completed))
      && (status == RunCompleted <==> !unsure && !Any(reports, Status.Failed))
  {
  }

  // Recovery reports COMPLETED exactly when every action is, and never leaves a pending one unsaid.
  lemma RecoveryCompletedExactly(reports: seq<Report>)
    ensures var status := RecoveryStatusOf(reports);
      && (status == RunCompleted <==> forall i :: 0 <= i < |reports| ==> reports[i].status == Completed)
      && (status == RunRecoveryRequired <==> Any(reports, Pending))
      && (status == RunPartiallyCompleted <==> !Any(reports, Pending) && Any(reports, Completed) && Any(reports, Status.Failed))
      && (status == RunFailed <==> !Any(reports, Pending) && Any(reports, Status.Failed) && !Any(reports, Completed))
  {
    assert Any(reports, Status.Failed) ==> Count(reports, Completed) < |reports|;
    if Count(reports, Completed) < |reports| && !Any(reports, Pending) {
      var i :| 0 <= i < |reports| && reports[i].status != Completed;
      assert reports[i].status == Status.Failed;
    }
  }

  // The overall status of a live run, by how the first attempt that threw was settled.  It is
  // COMPLETED also when that action turned out to be completed; the actions after it are then left
  // untouched.
  lemma {:induction false} CompletedRunExactly(ids: seq<string>, attempts: seq<Attempt>, reports: seq<Report>)
    requires |ids| == |attempts| && Shape(ids, attempts, reports)
    ensures var k, status := Stop(attempts), RunStatusOf(reports);
      && (status == RunCompleted <==> k == |attempts| || (attempts[k].journaled && attempts[k].recovery.Recorded?))
      && ((forall i :: 0 <= i < |reports| ==> reports[i].status == Completed) <==> status == RunCompleted && k + 1 >= |attempts|)
      && (k < |attempts| ==>
            var a := attempts[k];
            && (status == RunRecoveryRequired <==>
                  if a.journaled then !a.recovery.Recorded? else a.reason == RecoveryRequired)
            && (status == RunFailed <==> !a.journaled && a.reason != RecoveryRequired && k == 0)
            && (status == RunPartiallyCompleted <==> !a.journaled && a.reason != RecoveryRequired && k > 0))
  {
    AroundStop(ids, attempts, reports);
    RunStatusMeans(reports);
    var k := Stop(attempts);
    if k > 0 { assert reports[0].status == Completed; }
    if k < |attempts| && !attempts[k].journaled {
      assert reports[k].status == Status.Failed;
      if k == 0 { assert forall i :: 0 < i < |reports| ==> reports[i].status == Pending; }
    }
  }

  lemma AroundStop(ids: seq<string>, attempts: seq<Attempt>, reports: seq<Report>)
    requires |ids| == |attempts| && Shape(ids, attempts, reports)
    ensures var k := Stop(attempts);
      && (k < |attempts| ==> reports[k] == Settled(ids[k], attempts[k]))
      && (k + 1 < |attempts| ==> reports[k + 1] == Untouched(ids[k + 1]))
  {
  }

  // So "the run is COMPLETED" does not imply "every action is".
  lemma CompletedRunLeavesPending()
    ensures exists ids: seq<string>, attempts: seq<Attempt>, reports: seq<Report> ::
      |ids| == |attempts| == |reports| == 2 && Shape(ids, attempts, reports) &&
      RunStatusOf(reports) == RunCompleted && reports[1].status == Pending
  {
    var ids := ["a", "b"];
    var attempts := [Raised(OtherReason, true, Recorded(true)), Returned(true)];
    var reports := [Report("a", Completed, Changed, None), Untouched("b")];
    assert Stop(attempts) == 0;
    assert Shape(ids, attempts, reports);
    CompletedRunExactly(ids, attempts, reports);
  }
}
