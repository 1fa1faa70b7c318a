// The root authority: what registration, updates and runs on a connected root do under which lock,
// and why the authority a run was admitted with cannot change while it runs.
module RootAuthority {
  import opened Wrappers
  import L = Locks
  import R = Registry

  type Path = string

  // The registry file: connected roots by id, and open folder selections by token.
  datatype Registry = Registry(roots: map<string, R.Root>, selections: map<string, Path>)

  // What a call of withLocalStoreLock does once it has the lock.  An update names its changes of
  // grants and status; an update with neither only notes a time or the watcher's state.
  datatype Work = Run | Select | Register(token: string) | Update(patch: Option<R.Patch>, status: Option<R.Status>) | Other

  // A registration between its unlocked look at the selections and its call for a lock.
  datatype Reader = Reader(token: string, found: Option<Path>)

  // `works` are the works of the lock's calls; `snapshots` are registry files read under the lock
  // and not yet written back.  `idOf` is rootIdForPath.
  datatype State = State(
    locks: L.State, works: seq<Work>, snapshots: map<nat, Registry>, registry: Registry, readers: seq<Reader>,
    known: set<string>, issued: set<string>, idOf: Path -> string)

  // What a write-back contributes: the tokens that have not expired, a fresh token and its folder, or
  // the new record of a root.
  datatype Entry = Entry(live: set<string>, token: string, path: Path, root: R.Root)

  datatype Event =
    | Read(token: string)                            // registerRootFromSelection looks for its selection
    | Enqueue(r: nat)                                // and calls for the lock that this tells it to take
    | Call(key: L.Key, work: Work)                   // any other outermost call
    | Enter(i: nat, key: L.Key, work: Work)          // a call inside the scope of a held root authority
    | Lock(step: L.Event)                            // a work starts or ends, a tail settles or is dropped
    | Load(i: nat)                                   // the registry file is read under its lock
    | Store(i: nat, entry: Entry)                    // and written back

  // ---- what the program allows itself ----

  function Look(f: Registry, token: string): Option<Path> {
    if token in f.selections then Some(f.selections[token]) else None
  }

  // The authority a registry work was called under.
  function AuthorityOf(s: State, i: nat): Option<string>
    requires i < |s.locks.jobs|
  {
    var j := s.locks.jobs[i];
    if j.key.RootAuthority? then Some(j.key.id)
    else if j.outer.Some? && j.outer.value < |s.locks.jobs| && s.locks.jobs[j.outer.value].key.RootAuthority?
    then Some(s.locks.jobs[j.outer.value].key.id) else None
  }

  // Outermost calls: a selection under the registry lock, an update or a run under the root's
  // authority, and works of the other stores.
  predicate Outermost(key: L.Key, work: Work) {
    match key
    case Registry => work.Select?
    case RootAuthority(_) => work.Update? || work.Run?
    case _ => work.Other?
  }

  // Inside the authority: the registry work it was taken for; inside a run also updates of the same
  // root, which do not call for its lock again, and journals.
  predicate Inside(work: Work, key: L.Key, inner: Work) {
    match key
    case Registry => if work.Run? then inner.Update? else inner == work
    case Journal(_) => work.Run? && inner.Other?
    case _ => false
  }

  // The new record of an updated root.
  predicate Updated(before: R.Root, after: R.Root, work: Work)
    requires work.Update?
  {
    && after.id == before.id && after.connectionRevision == before.connectionRevision && after.actualPath == before.actualPath
    && after.permissions == (if work.patch.Some? then R.Patched(work.patch.value, before.permissions) else before.permissions)
    && after.status == (if work.status.Some? then work.status.value else before.status)
  }

  function Restricted(selections: map<string, Path>, live: set<string>): map<string, Path> {
    map token | token in selections && token in live :: selections[token]
  }

  // What the work writes back, from the file it has read; None when it throws before that.  A
  // validated folder is the selected one, and gives the root its id.
  function Written(s: State, i: nat, f: Registry, entry: Entry): Option<Registry>
    requires i < |s.works| && i < |s.locks.jobs|
  {
    var live := Restricted(f.selections, entry.live);
    match s.works[i]
    case Select => Some(f.(selections := live[entry.token := entry.path]))
    case Register(token) =>
      if token !in live then Some(f.(selections := live))
      else
        var id := s.idOf(live[token]);
        if entry.root.id == id then Some(f.(roots := f.roots[id := entry.root], selections := live - {token})) else None
    case Update(_, _) =>
      var id := AuthorityOf(s, i);
      if id.Some? && id.value in f.roots && Updated(f.roots[id.value], entry.root, s.works[i])
      then Some(f.(roots := f.roots[id.value := entry.root])) else None
    case _ => None
  }

  // Tokens are fresh: nobody has mentioned this one before.
  predicate Fresh(s: State, work: Work, entry: Entry) {
    work.Select? ==> entry.token !in s.known && entry.token !in s.issued
  }

  predicate RegistryWork(s: State, i: nat) {
    i < |s.locks.jobs| && i < |s.works| && s.locks.jobs[i].key.Registry? && s.locks.jobs[i].phase.Running?
  }

  ghost predicate Enabled(s: State, e: Event) {
    match e
    case Read(_) => true
    case Enqueue(r) => r < |s.readers|
    case Call(key, work) => Outermost(key, work)
    case Enter(i, key, work) =>
      && i < |s.locks.jobs| && i < |s.works| && s.locks.jobs[i].phase.Running? && s.locks.jobs[i].key.RootAuthority?
      && Inside(s.works[i], key, work) && forall c: nat :: !L.Nested(s.locks, i, c)
    case Lock(step) => !step.Call? && L.Enabled(s.locks, step)
    case Load(i) => RegistryWork(s, i)
    case Store(i, entry) =>
      RegistryWork(s, i) && i in s.snapshots && Fresh(s, s.works[i], entry) && Written(s, i, s.snapshots[i], entry).Some?
  }

  // withRootAuthority over the registry lock, or the registry lock alone when no selection was found.
  function LockFor(s: State, reader: Reader): L.Key {
    if reader.found.Some? then L.RootAuthority(s.idOf(reader.found.value)) else L.Registry
  }

  function Called(s: State, key: L.Key, outer: Option<nat>, work: Work): State
    requires L.Enabled(s.locks, L.Call(key, outer))
  {
    s.(locks := L.Next(s.locks, L.Call(key, outer)), works := s.works + [work])
  }

  // Nested calls keep the order of locks: the key of a call inside an authority ranks higher.
  lemma CallsInOrder(s: State, e: Event)
    requires Enabled(s, e) && e.Enter?
    ensures L.Enabled(s.locks, L.Call(e.key, Some(e.i)))
  {
  }

  function Next(s: State, e: Event): State
    requires Enabled(s, e)
  {
    match e
    case Read(token) =>
      s.(readers := s.readers + [Reader(token, Look(s.registry, token))], known := s.known + {token})
    case Enqueue(r) => Called(s, LockFor(s, s.readers[r]), None, Register(s.readers[r].token))
    case Call(key, work) => Called(s, key, None, work)
    case Enter(i, key, work) =>
      CallsInOrder(s, e);
      Called(s, key, Some(i), work)
    case Lock(step) =>
      s.(locks := L.Next(s.locks, step), snapshots := if step.Finish? then s.snapshots - {step.i} else s.snapshots)
    case Load(i) => s.(snapshots := s.snapshots[i := s.registry])
    case Store(i, entry) =>
      s.(registry := Written(s, i, s.snapshots[i], entry).value, snapshots := s.snapshots - {i},
         issued := if s.works[i].Select? then s.issued + {entry.token} else s.issued)
  }

  // ---- what every state keeps ----

  // A token that was mentioned either has no selection, or one under whose authority we are.
  predicate Covered(s: State, token: string, authority: Option<string>) {
    && token in s.known
    && (token in s.registry.selections ==> authority == Some(s.idOf(s.registry.selections[token])))
  }

  ghost predicate Bound(s: State, i: nat)
    requires i < |s.locks.jobs| && i < |s.works|
  {
    var j, work := s.locks.jobs[i], s.works[i];
    && (work.Register? ==> Covered(s, work.token, AuthorityOf(s, i)))
    && (j.key.Registry? && work.Update? ==> AuthorityOf(s, i).Some?)
    && (j.key.RootAuthority? ==> j.outer.None?)
    && (j.outer.Some? ==> j.outer.value < i)
  }

  ghost predicate Valid(s: State) {
    && L.Valid(s.locks) && |s.works| == |s.locks.jobs|
    && (forall i :: 0 <= i < |s.works| ==> Bound(s, i))
    && (forall i :: i in s.snapshots ==> RegistryWork(s, i) && s.snapshots[i] == s.registry)
    && (forall r :: 0 <= r < |s.readers| ==>
          Covered(s, s.readers[r].token, if s.readers[r].found.Some? then Some(s.idOf(s.readers[r].found.value)) else None))
    && s.registry.selections.Keys <= s.issued
  }

  lemma SameAuthority(s: State, s': State, i: nat)
    requires i < |s.locks.jobs| <= |s'.locks.jobs|
    requires forall m :: 0 <= m < |s.locks.jobs| ==>
      s'.locks.jobs[m].key == s.locks.jobs[m].key && s'.locks.jobs[m].outer == s.locks.jobs[m].outer
    requires s.locks.jobs[i].outer.Some? ==> s.locks.jobs[i].outer.value < |s.locks.jobs|
    ensures AuthorityOf(s', i) == AuthorityOf(s, i)
  {
  }

  lemma ReadKeeps(s: State, token: string)
    requires Valid(s)
    ensures Valid(Next(s, Read(token)))
  {
    hide L.Valid, L.Next;
    var s' := Next(s, Read(token));
    forall i | 0 <= i < |s'.works| ensures Bound(s', i) { assert Bound(s, i); }
  }

  lemma CalledKeeps(s: State, key: L.Key, outer: Option<nat>, work: Work)
    requires Valid(s) && L.Enabled(s.locks, L.Call(key, outer))
    requires work.Register? ==> Covered(s, work.token, NewAuthority(s, key, outer))
    requires key.Registry? && work.Update? ==> NewAuthority(s, key, outer).Some?
    requires key.RootAuthority? ==> outer.None?
    ensures Valid(Called(s, key, outer, work))
  {
    var s', n := Called(s, key, outer, work), |s.works|;
    L.CallKeeps(s.locks, L.Call(key, outer));
    hide L.Valid;
    forall i | 0 <= i < |s'.works| ensures Bound(s', i) {
      if i < n {
        assert Bound(s, i);
        SameAuthority(s, s', i);
      }
    }
  }

  function NewAuthority(s: State, key: L.Key, outer: Option<nat>): Option<string> {
    if key.RootAuthority? then Some(key.id)
    else if outer.Some? && outer.value < |s.locks.jobs| && s.locks.jobs[outer.value].key.RootAuthority?
    then Some(s.locks.jobs[outer.value].key.id) else None
  }

  lemma EnterKeeps(s: State, e: Event)
    requires Valid(s) && Enabled(s, e) && e.Enter?
    ensures Valid(Next(s, e))
  {
    CallsInOrder(s, e);
    assert Bound(s, e.i);
    CalledKeeps(s, e.key, Some(e.i), e.work);
  }

  lemma LockKeeps(s: State, e: Event)
    requires Valid(s) && Enabled(s, e) && e.Lock?
    ensures Valid(Next(s, e))
  {
    var s' := Next(s, e);
    L.StepKeeps(s.locks, e.step);
    hide L.Valid;
    forall i | 0 <= i < |s'.works| ensures Bound(s', i) {
      assert Bound(s, i);
      SameAuthority(s, s', i);
    }
  }

  lemma LoadKeeps(s: State, e: Event)
    requires Valid(s) && Enabled(s, e) && e.Load?
    ensures Valid(Next(s, e))
  {
    hide L.Valid;
    var s' := Next(s, e);
    forall i | 0 <= i < |s'.works| ensures Bound(s', i) {
      assert Bound(s, i);
      SameAuthority(s, s', i);
    }
  }

  // Nobody else is inside a read, change and write of the registry: the lock has one holder.
  lemma OneRegistryWork(s: State, i: nat, m: nat)
    requires Valid(s) && RegistryWork(s, i) && RegistryWork(s, m)
    ensures i == m
  {
    assert L.InTurn(s.locks, i) && L.InTurn(s.locks, m);
  }

  // A write-back only ever drops selections, or adds one under a token nobody has mentioned.
  lemma WrittenSelections(s: State, e: Event, token: string)
    requires Valid(s) && Enabled(s, e) && e.Store? && token in Next(s, e).registry.selections
    ensures if s.works[e.i].Select? && token == e.entry.token then token !in s.known
            else token in s.registry.selections && Next(s, e).registry.selections[token] == s.registry.selections[token]
    ensures token in Next(s, e).issued
  {
    hide L.Valid, L.Next;
  }

  lemma StillCovered(s: State, e: Event, token: string, authority: Option<string>)
    requires Valid(s) && Enabled(s, e) && e.Store? && Covered(s, token, authority)
    ensures Covered(Next(s, e), token, authority)
  {
    if token in Next(s, e).registry.selections { WrittenSelections(s, e, token); }
    hide Valid, Enabled;
  }

  lemma StoreKeeps(s: State, e: Event)
    requires Valid(s) && Enabled(s, e) && e.Store?
    ensures Valid(Next(s, e))
  {
    var s' := Next(s, e);
    hide L.Valid, Covered;
    forall i | 0 <= i < |s'.works| ensures Bound(s', i) {
      assert Bound(s, i);
      SameAuthority(s, s', i);
      if s.works[i].Register? { StillCovered(s, e, s.works[i].token, AuthorityOf(s, i)); }
    }
    forall r | 0 <= r < |s'.readers|
      ensures Covered(s', s'.readers[r].token, if s'.readers[r].found.Some? then Some(s'.idOf(s'.readers[r].found.value)) else None)
    {
      StillCovered(s, e, s.readers[r].token, if s.readers[r].found.Some? then Some(s.idOf(s.readers[r].found.value)) else None);
    }
    forall m ensures m !in s'.snapshots {
      if m in s'.snapshots { OneRegistryWork(s, e.i, m); }
    }
    forall token | token in s'.registry.selections ensures token in s'.issued { WrittenSelections(s, e, token); }
  }

  lemma StepKeeps(s: State, e: Event)
    requires Valid(s) && Enabled(s, e)
    ensures Valid(Next(s, e))
  {
    match e
    case Read(token) => ReadKeeps(s, token);
    case Enqueue(r) => CalledKeeps(s, LockFor(s, s.readers[r]), None, Register(s.readers[r].token));
    case Call(key, work) => CalledKeeps(s, key, None, work);
    case Enter(_, _, _) => EnterKeeps(s, e);
    case Lock(_) => LockKeeps(s, e);
    case Load(_) => LoadKeeps(s, e);
    case Store(_, _) => StoreKeeps(s, e);
  }

  // Inside a run there are only updates; so every registry work called inside one is an update.
  ghost predicate NestedWorks(s: State) {
    forall m :: 0 <= m < |s.locks.jobs| && m < |s.works| && s.locks.jobs[m].key.Registry? && s.locks.jobs[m].outer.Some? ==>
      s.locks.jobs[m].outer.value < m &&
      Inside(s.works[s.locks.jobs[m].outer.value], L.Registry, s.works[m])
  }

  lemma SameLength(s: State)
    requires Valid(s)
    ensures |s.works| == |s.locks.jobs|
  {
  }

  lemma NestedStays(s: State, e: Event)
    requires Valid(s) && NestedWorks(s) && Enabled(s, e)
    ensures NestedWorks(Next(s, e))
  {
    hide Valid, L.Valid;
    assert |s.works| == |s.locks.jobs| by { SameLength(s); }
  }

  // ---- every run ----

  ghost predicate Legal(s: State, es: seq<Event>)
    decreases |es|, 0
  {
    es == [] || (Legal(s, es[..|es| - 1]) && Enabled(Exec(s, es[..|es| - 1]), es[|es| - 1]))
  }

  ghost function Exec(s: State, es: seq<Event>): State
    requires Legal(s, es)
    decreases |es|, 1
  {
    if es == [] then s else Next(Exec(s, es[..|es| - 1]), es[|es| - 1])
  }

  lemma {:induction false} ValidAlways(s: State, es: seq<Event>)
    requires Valid(s) && NestedWorks(s) && Legal(s, es)
    ensures Valid(Exec(s, es)) && NestedWorks(Exec(s, es))
    decreases |es|
  {
    if es != [] {
      hide Valid, NestedWorks, Enabled, Next;
      ValidAlways(s, es[..|es| - 1]);
      StepKeeps(Exec(s, es[..|es| - 1]), es[|es| - 1]);
      NestedStays(Exec(s, es[..|es| - 1]), es[|es| - 1]);
    }
  }

  lemma StartsValid(registry: Registry, issued: set<string>, idOf: Path -> string)
    requires registry.selections.Keys <= issued
    ensures var s := State(L.EMPTY, [], map[], registry, [], {}, issued, idOf); Valid(s) && NestedWorks(s)
  {
  }

  // No update is lost: what a work writes back is made from the file as it is.
  lemma NoLostUpdate(s: State, e: Event)
    requires Valid(s) && Enabled(s, e) && e.Store?
    ensures Some(Next(s, e).registry) == Written(s, e.i, s.registry, e.entry)
  {
  }

  // ---- a token registers at most once ----

  // A token somebody has presented, and that has no selection (any more).
  predicate Spent(s: State, token: string) {
    token in s.known && token !in s.registry.selections
  }

  // When a registration is written, its token is spent, whether it was still good or not.
  lemma RegistrationSpends(s: State, e: Event)
    requires Valid(s) && Enabled(s, e) && e.Store? && s.works[e.i].Register?
    ensures Spent(Next(s, e), s.works[e.i].token)
  {
    assert Bound(s, e.i);
  }

  // A spent token stays so, whatever folders are selected later, and no registration by it ever
  // changes a root.
  lemma {:induction false} SpentForever(s: State, es: seq<Event>, token: string)
    requires Valid(s) && NestedWorks(s) && Legal(s, es) && Spent(s, token)
    ensures Spent(Exec(s, es), token)
    ensures es != [] ==>
      var v, e := Exec(s, es[..|es| - 1]), es[|es| - 1];
      e.Store? && e.i < |v.works| && v.works[e.i] == Register(token) ==> Exec(s, es).registry.roots == v.registry.roots
    decreases |es|
  {
    if es != [] {
      var prefix, e := es[..|es| - 1], es[|es| - 1];
      SpentForever(s, prefix, token);
      ValidAlways(s, prefix);
      SpentStep(Exec(s, prefix), e, token);
    }
  }

  lemma SpentStep(s: State, e: Event, token: string)
    requires Valid(s) && Enabled(s, e) && Spent(s, token)
    ensures Spent(Next(s, e), token)
    ensures e.Store? && e.i < |s.works| && s.works[e.i] == Register(token) ==> Next(s, e).registry.roots == s.registry.roots
  {
    hide L.Valid, L.Next;
    if e.Store? && token in Next(s, e).registry.selections { WrittenSelections(s, e, token); }
  }

  // ---- roots change only under their authority ----

  function Get(s: State, id: string): Option<R.Root> {
    if id in s.registry.roots then Some(s.registry.roots[id]) else None
  }

  predicate Holds(s: State, m: nat, id: string) {
    m < |s.locks.jobs| && s.locks.jobs[m].phase.Running? && s.locks.jobs[m].key == L.RootAuthority(id)
  }

  // The registration fallback that takes the registry lock alone never finds its token again, and so
  // writes no root; every other write of a root is made inside a scope that holds its authority.
  lemma WrittenUnderAuthority(s: State, e: Event, id: string)
    requires Valid(s) && Enabled(s, e) && Get(Next(s, e), id) != Get(s, id)
    ensures e.Store? && e.i < |s.locks.jobs| && s.locks.jobs[e.i].outer.Some? && Holds(s, s.locks.jobs[e.i].outer.value, id)
  {
    hide L.Next, L.Enabled;
    var i := e.i;
    assert Bound(s, i) && L.Awaited(s.locks, i);
  }

  // ---- stability of the authority a run was admitted with ----

  // What admission looks at: revision, status and grants.
  function Authority(s: State, id: string): Option<(nat, R.Status, R.Permissions)> {
    var root := Get(s, id);
    if root.Some? then Some((root.value.connectionRevision, root.value.status, root.value.permissions)) else None
  }

  // The updates a run makes itself only note times and the watcher's state.
  predicate OnlyNotes(s: State, i: nat) {
    && i < |s.works| && s.works[i].Run?
    && forall m :: i < m < |s.works| && m < |s.locks.jobs| && s.locks.jobs[m].outer == Some(i) && s.works[m].Update? ==>
         s.works[m] == Update(None, None)
  }

  lemma OneHolder(s: State, i: nat, m: nat, id: string)
    requires Valid(s) && Holds(s, i, id) && Holds(s, m, id)
    ensures i == m
  {
    assert L.InTurn(s.locks, i) && L.InTurn(s.locks, m);
  }

  lemma HolderOnlyNotes(s: State, e: Event, i: nat, id: string)
    requires Valid(s) && Enabled(s, e) && Holds(s, i, id) && OnlyNotes(s, i) && NestedWorks(s)
    ensures Authority(Next(s, e), id) == Authority(s, id)
  {
    if Get(Next(s, e), id) != Get(s, id) {
      WrittenUnderAuthority(s, e, id);
      OneHolder(s, i, s.locks.jobs[e.i].outer.value, id);
      assert Bound(s, e.i);
      assert s.works[e.i] == Update(None, None);
    }
  }

  // Calls stay what they are, and a work that has ended does not begin again.
  lemma CallsStay(s: State, e: Event, i: nat)
    requires Valid(s) && Enabled(s, e) && i < |s.works|
    ensures |s.works| <= |Next(s, e).works| && Next(s, e).works[i] == s.works[i] && i < |s.locks.jobs| <= |Next(s, e).locks.jobs|
    ensures var j, j' := s.locks.jobs[i], Next(s, e).locks.jobs[i];
      && j'.key == j.key && j'.outer == j.outer && (j.phase.Settled? ==> j'.phase.Settled?)
      && (!j.phase.Waiting? ==> !j'.phase.Waiting?)
  {
  }

  lemma OnlyNotesBefore(s: State, e: Event, i: nat)
    requires Valid(s) && Enabled(s, e) && OnlyNotes(Next(s, e), i) && i < |s.works|
    ensures OnlyNotes(s, i)
  {
    SameLength(s);
    forall m | i < m < |s.works| && s.locks.jobs[m].outer == Some(i) && s.works[m].Update? ensures s.works[m] == Update(None, None) {
      CallsStay(s, e, m);
    }
    CallsStay(s, e, i);
  }

  lemma {:induction false} Begun(s: State, es: seq<Event>, i: nat)
    requires Valid(s) && NestedWorks(s) && Legal(s, es) && i < |s.works| && !s.locks.jobs[i].phase.Waiting?
    ensures i < |Exec(s, es).works| && i < |Exec(s, es).locks.jobs| && !Exec(s, es).locks.jobs[i].phase.Waiting?
    ensures Exec(s, es).locks.jobs[i].key == s.locks.jobs[i].key
    decreases |es|
  {
    if es != [] {
      Begun(s, es[..|es| - 1], i);
      ValidAlways(s, es[..|es| - 1]);
      CallsStay(Exec(s, es[..|es| - 1]), es[|es| - 1], i);
    }
  }

  // While a run holds the root's authority, nobody registers, updates or revokes that root: its
  // revision, status and grants stay what they were when the run was admitted.
  lemma {:induction false} AuthorityStable(s: State, es: seq<Event>, i: nat, id: string)
    requires Valid(s) && NestedWorks(s) && Legal(s, es)
    requires Holds(s, i, id) && Holds(Exec(s, es), i, id) && OnlyNotes(Exec(s, es), i)
    ensures Authority(Exec(s, es), id) == Authority(s, id)
    decreases |es|
  {
    if es != [] {
      var prefix, e := es[..|es| - 1], es[|es| - 1];
      var v := Exec(s, prefix);
      ValidAlways(s, prefix);
      SameLength(s);
      SameLength(v);
      Begun(s, prefix, i);
      CallsStay(v, e, i);
      OnlyNotesBefore(v, e, i);
      AuthorityStable(s, prefix, i, id);
      HolderOnlyNotes(v, e, i, id);
    }
  }

  // So every check of a permission comes out as it did at admission.
  lemma GrantsStable(s: State, es: seq<Event>, i: nat, id: string, permission: R.Permission)
    requires Valid(s) && NestedWorks(s) && Legal(s, es)
    requires Holds(s, i, id) && Holds(Exec(s, es), i, id) && OnlyNotes(Exec(s, es), i)
    ensures Get(s, id).Some? <==> Get(Exec(s, es), id).Some?
    ensures Get(s, id).Some? ==> (R.Granted(Get(Exec(s, es), id).value, permission) <==> R.Granted(Get(s, id).value, permission))
  {
    AuthorityStable(s, es, i, id);
  }

  // ---- no deadlock ----

  // As long as any call is pending, some work can start or end, or a settled work's tail can settle:
  // the order of nested calls is the program's own.
  lemma DeadlockFree(s: State, i: nat) returns (e: Event)
    requires Valid(s) && i < |s.locks.jobs| && L.Pending(s.locks.jobs[i])
    ensures Enabled(s, e) && e.Lock? && (e.step.Start? || e.step.Finish? || (e.step.SettleTail? && !s.locks.jobs[e.step.i].tailDone))
  {
    var step := L.AlwaysMovable(s.locks, i);
    e := Lock(step);
  }
}
