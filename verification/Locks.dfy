// The lock that local stores share: one chain of promises per key, for the root authority and for
// the registry, journal and outbox files.
module Locks {
  import opened Wrappers

  datatype Key = RootAuthority(id: string) | Registry | Journal(owner: string) | Outbox

  // Root authority is taken before any other lock, and taken again only by the scope that holds it.
  function Rank(k: Key): nat {
    if k.RootAuthority? then 0 else 1
  }

  datatype Phase = Waiting | Running | Settled(ok: bool)

  // One call of withLocalStoreLock.  `previous` is the tail it chained on, `tailDone` whether its own
  // tail has settled, `outer` the call whose work makes this one.
  datatype Job = Job(key: Key, previous: Option<nat>, outer: Option<nat>, phase: Phase, tailDone: bool)

  // `mutations` maps a key to the call whose tail it holds.
  datatype State = State(mutations: map<Key, nat>, jobs: seq<Job>)

  datatype Event = Call(key: Key, outer: Option<nat>) | Start(i: nat) | Finish(i: nat, ok: bool) | SettleTail(i: nat)
                 | CleanUp(i: nat)

  predicate Pending(j: Job) {
    !j.phase.Settled?
  }

  // The work of i is waiting for a lock it called inside.
  ghost predicate Nested(s: State, i: nat, c: nat) {
    c < |s.jobs| && s.jobs[c].outer == Some(i) && Pending(s.jobs[c])
  }

  ghost predicate Enabled(s: State, e: Event) {
    match e
    case Call(key, outer) =>
      outer.Some? ==>
        && outer.value < |s.jobs| && s.jobs[outer.value].phase.Running? && Rank(s.jobs[outer.value].key) < Rank(key)
        && forall c: nat :: !Nested(s, outer.value, c)
    case Start(i) =>
      i < |s.jobs| && s.jobs[i].phase.Waiting? &&
      (s.jobs[i].previous.Some? ==> s.jobs[i].previous.value < |s.jobs| && s.jobs[s.jobs[i].previous.value].tailDone)
    case Finish(i, _) => i < |s.jobs| && s.jobs[i].phase.Running? && forall c: nat :: !Nested(s, i, c)
    case SettleTail(i) => i < |s.jobs| && s.jobs[i].phase.Settled?
    case CleanUp(i) => i < |s.jobs| && s.jobs[i].phase.Settled?
  }

  function Next(s: State, e: Event): State
    requires Enabled(s, e)
  {
    match e
    case Call(key, outer) =>
      var previous := if key in s.mutations then Some(s.mutations[key]) else None;
      s.(jobs := s.jobs + [Job(key, previous, outer, Waiting, false)], mutations := s.mutations[key := |s.jobs|])
    case Start(i) => s.(jobs := s.jobs[i := s.jobs[i].(phase := Running)])
    case Finish(i, ok) => s.(jobs := s.jobs[i := s.jobs[i].(phase := Settled(ok))])
    case SettleTail(i) => s.(jobs := s.jobs[i := s.jobs[i].(tailDone := true)])
    case CleanUp(i) =>
      var key := s.jobs[i].key;
      if key in s.mutations && s.mutations[key] == i then s.(mutations := s.mutations - {key}) else s
  }

  // ---- what every state keeps ----

  // Every call before i for the same key has settled, but perhaps those up to its predecessor.
  ghost predicate Chained(s: State, i: nat)
    requires i < |s.jobs|
  {
    var j := s.jobs[i];
    if j.previous.Some? then
      && j.previous.value < i && s.jobs[j.previous.value].key == j.key
      && forall m :: j.previous.value < m < i ==> s.jobs[m].key != j.key
    else forall m :: 0 <= m < i && s.jobs[m].key == j.key ==> s.jobs[m].phase.Settled?
  }

  // A call that has begun comes after all earlier calls for its key have settled.
  ghost predicate InTurn(s: State, i: nat)
    requires i < |s.jobs|
  {
    !s.jobs[i].phase.Waiting? ==> forall m :: 0 <= m < i && s.jobs[m].key == s.jobs[i].key ==> s.jobs[m].phase.Settled?
  }

  // The entry of a key is its last call.
  ghost predicate LastCall(s: State, k: Key)
    requires k in s.mutations
  {
    s.mutations[k] < |s.jobs| && s.jobs[s.mutations[k]].key == k && forall m :: s.mutations[k] < m < |s.jobs| ==> s.jobs[m].key != k
  }

  // A pending call has an entry to chain on, and is awaited by the work that made it, whose key
  // ranks lower.
  ghost predicate Awaited(s: State, i: nat)
    requires i < |s.jobs|
  {
    var j := s.jobs[i];
    && (j.key !in s.mutations ==> j.phase.Settled?) && (j.tailDone ==> j.phase.Settled?)
    && (j.outer.Some? ==>
          && j.outer.value < i && Rank(s.jobs[j.outer.value].key) < Rank(j.key)
          && (Pending(j) ==> s.jobs[j.outer.value].phase.Running?))
  }

  ghost predicate Valid(s: State) {
    && (forall i :: 0 <= i < |s.jobs| ==> Chained(s, i)) && (forall i :: 0 <= i < |s.jobs| ==> InTurn(s, i))
    && (forall i :: 0 <= i < |s.jobs| ==> Awaited(s, i)) && (forall k :: k in s.mutations ==> LastCall(s, k))
  }

  lemma CallKeeps(s: State, e: Event)
    requires Valid(s) && Enabled(s, e) && e.Call?
    ensures Valid(Next(s, e))
  {
    var s', n := Next(s, e), |s.jobs|;
    forall i | 0 <= i < |s'.jobs| ensures Chained(s', i) {
      if i < n { assert Chained(s, i); } else { NewChained(s, e); }
    }
    forall i | 0 <= i < |s'.jobs| ensures InTurn(s', i) {
      if i < n { assert InTurn(s, i); }
    }
    forall i | 0 <= i < |s'.jobs| ensures Awaited(s', i) {
      if i < n { assert Awaited(s, i); }
    }
    forall k | k in s'.mutations ensures LastCall(s', k) {
      if k != e.key { assert LastCall(s, k); }
    }
  }

  lemma NewChained(s: State, e: Event)
    requires Valid(s) && Enabled(s, e) && e.Call?
    ensures Chained(Next(s, e), |s.jobs|)
  {
    if e.key in s.mutations {
      assert LastCall(s, e.key);
    } else {
      forall m | 0 <= m < |s.jobs| && s.jobs[m].key == e.key ensures s.jobs[m].phase.Settled? { assert Awaited(s, m); }
    }
  }

  // Changing the phase of one call leaves the order of calls alone.
  ghost predicate SameOrder(s: State, s': State) {
    && |s'.jobs| == |s.jobs| && s'.mutations == s.mutations
    && forall m :: 0 <= m < |s.jobs| ==>
         && s'.jobs[m].key == s.jobs[m].key && s'.jobs[m].previous == s.jobs[m].previous && s'.jobs[m].outer == s.jobs[m].outer
         && (s.jobs[m].phase.Settled? ==> s'.jobs[m].phase.Settled?)
  }

  lemma OrderKeeps(s: State, s': State)
    requires Valid(s) && SameOrder(s, s')
    ensures (forall i :: 0 <= i < |s'.jobs| ==> Chained(s', i)) && (forall k :: k in s'.mutations ==> LastCall(s', k))
  {
    forall i | 0 <= i < |s'.jobs| ensures Chained(s', i) { assert Chained(s, i); }
    forall k | k in s'.mutations ensures LastCall(s', k) { assert LastCall(s, k); }
  }

  lemma StartKeeps(s: State, i: nat)
    requires Valid(s) && Enabled(s, Start(i))
    ensures Valid(Next(s, Start(i)))
  {
    var s' := Next(s, Start(i));
    OrderKeeps(s, s');
    StartsInTurn(s, i);
    forall m | 0 <= m < |s'.jobs| ensures InTurn(s', m) { assert InTurn(s, m); }
    forall m | 0 <= m < |s'.jobs| ensures Awaited(s', m) { assert Awaited(s, m); }
  }

  // Where the order comes from: a call starts once the tail it chained on has settled.
  lemma StartsInTurn(s: State, i: nat)
    requires Valid(s) && Enabled(s, Start(i))
    ensures forall m :: 0 <= m < i && s.jobs[m].key == s.jobs[i].key ==> s.jobs[m].phase.Settled?
  {
    assert Chained(s, i);
    if s.jobs[i].previous.Some? {
      assert InTurn(s, s.jobs[i].previous.value) && Awaited(s, s.jobs[i].previous.value);
    }
  }

  lemma SettlingKeeps(s: State, e: Event)
    requires Valid(s) && Enabled(s, e) && (e.Finish? || e.SettleTail?)
    ensures Valid(Next(s, e))
  {
    var s' := Next(s, e);
    OrderKeeps(s, s');
    forall m | 0 <= m < |s'.jobs| ensures InTurn(s', m) { assert InTurn(s, m); }
    forall m | 0 <= m < |s'.jobs| ensures Awaited(s', m) {
      assert Awaited(s, m);
      assert s.jobs[m].outer == Some(e.i) && Pending(s.jobs[m]) ==> Nested(s, e.i, m);
    }
  }

  // Only the entry of the last call for a key is ever deleted, and only once it has settled: a later
  // caller finds no chain, and nothing pending.
  lemma CleanUpKeeps(s: State, i: nat)
    requires Valid(s) && Enabled(s, CleanUp(i))
    ensures Valid(Next(s, CleanUp(i)))
  {
    var s', key := Next(s, CleanUp(i)), s.jobs[i].key;
    forall m | 0 <= m < |s'.jobs| ensures Chained(s', m) { assert Chained(s, m); }
    forall m | 0 <= m < |s'.jobs| ensures InTurn(s', m) { assert InTurn(s, m); }
    forall m | 0 <= m < |s'.jobs| ensures Awaited(s', m) {
      assert Awaited(s, m) && InTurn(s, i);
      if key in s.mutations { assert LastCall(s, key); }
    }
    forall k | k in s'.mutations ensures LastCall(s', k) { assert LastCall(s, k); }
  }

  // The last call for a key to have settled leaves no entry behind when it cleans up.
  lemma LastOneCleansUp(s: State, i: nat)
    requires Valid(s) && Enabled(s, CleanUp(i)) && forall m :: i < m < |s.jobs| ==> s.jobs[m].key != s.jobs[i].key
    ensures s.jobs[i].key !in Next(s, CleanUp(i)).mutations
    ensures forall k :: k != s.jobs[i].key ==> (k in Next(s, CleanUp(i)).mutations <==> k in s.mutations)
  {
    var key := s.jobs[i].key;
    if key in s.mutations { assert LastCall(s, key); }
  }

  lemma StepKeeps(s: State, e: Event)
    requires Valid(s) && Enabled(s, e)
    ensures Valid(Next(s, e))
  {
    hide Valid, Enabled, Next;
    match e
    case Call(_, _) => CallKeeps(s, e);
    case Start(i) => StartKeeps(s, i);
    case CleanUp(i) => CleanUpKeeps(s, i);
    case _ => SettlingKeeps(s, e);
  }

  // ---- every run ----

  ghost predicate Legal(s: State, es: seq<Event>)
    decreases |es|, 0
  {
    es == [] || (Legal(s, es[..|es| - 1]) && Enabled(Exec(s, es[..|es| - 1]), es[|es| - 1]))
  }

  ghost function Exec(s: State, es: seq<Event>): State
    requires Legal(s, es)
    decreases |es|, 1
  {
    if es == [] then s else Next(Exec(s, es[..|es| - 1]), es[|es| - 1])
  }

  const EMPTY := State(map[], [])

  lemma {:induction false} ValidAlways(s: State, es: seq<Event>)
    requires Valid(s) && Legal(s, es)
    ensures Valid(Exec(s, es))
    decreases |es|
  {
    if es != [] {
      hide Valid, Enabled, Next;
      ValidAlways(s, es[..|es| - 1]);
      StepKeeps(Exec(s, es[..|es| - 1]), es[|es| - 1]);
    }
  }

  // In every run, from the start, at most one work per key is running, and works for a key run in
  // the order of their calls.
  lemma MutualExclusion(es: seq<Event>, i: nat, m: nat)
    requires Legal(EMPTY, es) && i < m < |Exec(EMPTY, es).jobs|
    requires Exec(EMPTY, es).jobs[i].key == Exec(EMPTY, es).jobs[m].key && !Exec(EMPTY, es).jobs[m].phase.Waiting?
    ensures Exec(EMPTY, es).jobs[i].phase.Settled?
  {
    ValidAlways(EMPTY, es);
    assert InTurn(Exec(EMPTY, es), m);
  }

  // A rejected work is to its successors like a resolved one.
  lemma RejectionInvisible(s: State, i: nat, e: Event)
    requires Enabled(s, Finish(i, true))
    ensures Enabled(Next(s, Finish(i, true)), e) <==> Enabled(Next(s, Finish(i, false)), e)
  {
    var t, u := Next(s, Finish(i, true)), Next(s, Finish(i, false));
    assert forall k: nat, c: nat :: Nested(t, k, c) <==> Nested(u, k, c);
  }

  // No deadlock: as long as any call is pending, some work can start or end, or a settled work's
  // tail can settle.  Waiting goes to earlier calls of the same key or to keys of higher rank.
  lemma {:induction false} AlwaysMovable(s: State, i: nat) returns (e: Event)
    requires Valid(s) && i < |s.jobs| && Pending(s.jobs[i])
    ensures Enabled(s, e) && (e.Start? || e.Finish? || (e.SettleTail? && !s.jobs[e.i].tailDone))
    decreases 1 - Rank(s.jobs[i].key), i
  {
    var j := s.jobs[i];
    assert Chained(s, i);
    if j.phase.Running? {
      if c: nat :| Nested(s, i, c) {
        assert Awaited(s, c);
        e := AlwaysMovable(s, c);
      } else {
        e := Finish(i, true);
      }
    } else if j.previous.None? || s.jobs[j.previous.value].tailDone {
      e := Start(i);
    } else {
      if Pending(s.jobs[j.previous.value]) { e := AlwaysMovable(s, j.previous.value); } else { e := SettleTail(j.previous.value); }
    }
  }

  // ---- the module's own variables ----

  class LocalStore {
    var mutations: map<Key, nat>
    var jobs: seq<Job>

    ghost function View(): State
      reads this
    {
      State(mutations, jobs)
    }

    constructor ()
      ensures View() == EMPTY && Valid(View())
    {
      mutations, jobs := map[], [];
    }

    // The synchronous part of withLocalStoreLock: chains on the current tail and becomes the tail.
    method WithLocalStoreLock(key: Key, outer: Option<nat>) returns (i: nat)
      requires Valid(View()) && Enabled(View(), Call(key, outer))
      modifies this
      ensures Valid(View()) && View() == Next(old(View()), Call(key, outer)) && i == |old(jobs)|
    {
      CallKeeps(View(), Call(key, outer));
      var previous := if key in mutations then Some(mutations[key]) else None;
      i := |jobs|;
      jobs := jobs + [Job(key, previous, outer, Waiting, false)];
      mutations := mutations[key := i];
    }

    method StartWork(i: nat)
      requires Valid(View()) && Enabled(View(), Start(i))
      modifies `jobs
      ensures Valid(View()) && View() == Next(old(View()), Start(i))
    {
      StartKeeps(View(), i);
      jobs := jobs[i := jobs[i].(phase := Running)];
    }

    method SettleWork(i: nat, ok: bool)
      requires Valid(View()) && Enabled(View(), Finish(i, ok))
      modifies `jobs
      ensures Valid(View()) && View() == Next(old(View()), Finish(i, ok))
    {
      SettlingKeeps(View(), Finish(i, ok));
      jobs := jobs[i := jobs[i].(phase := Settled(ok))];
    }

    // The tail swallows a rejection.
    method SettleTail(i: nat)
      requires Valid(View()) && Enabled(View(), Event.SettleTail(i))
      modifies `jobs
      ensures Valid(View()) && View() == Next(old(View()), Event.SettleTail(i))
    {
      SettlingKeeps(View(), Event.SettleTail(i));
      jobs := jobs[i := jobs[i].(tailDone := true)];
    }

    // The finally block: deletes the entry only while it is still this call's own tail.
    method CleanUp(i: nat)
      requires Valid(View()) && Enabled(View(), Event.CleanUp(i))
      modifies `mutations
      ensures Valid(View()) && View() == Next(old(View()), Event.CleanUp(i))
    {
      CleanUpKeeps(View(), i);
      var key := jobs[i].key;
      if key in mutations && mutations[key] == i { mutations := mutations - {key}; }
    }
  }
}
