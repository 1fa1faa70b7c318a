// The registry of connected folders: what every registration and update keeps, under any clock.
module Registry {
  import opened Wrappers

  datatype Permissions = Permissions(
    read: bool, watch: bool, recommendation: bool, organizationPlan: bool, createFolder: bool, moveFile: bool, renameFile: bool)

  // A partial set of permissions, as it comes from a caller.
  datatype Patch = Patch(
    read: Option<bool>, watch: Option<bool>, recommendation: Option<bool>, organizationPlan: Option<bool>,
    createFolder: Option<bool>, moveFile: Option<bool>, renameFile: Option<bool>)

  datatype Status = Connected | Paused | Disconnected | NeedsAttention
  datatype WatcherState = Stopped | WatcherPaused | Watching

  datatype Root = Root(id: string, actualPath: string, displayName: string, permissions: Permissions, status: Status,
                       watcherState: WatcherState, connectionRevision: nat, updatedAt: int)

  datatype Selection = Selection(token: string, actualPath: string, rootId: string, displayName: string, expiresAt: int)

  const DEFAULTS := Permissions(true, false, true, true, false, false, false)
  const FOLDER_SELECTION_TTL_MS := 10 * 60 * 1000

  function Or(patch: Option<bool>, current: bool): bool {
    if patch.Some? then patch.value else current
  }

  function Patched(p: Patch, current: Permissions): Permissions {
    Permissions(Or(p.read, current.read), Or(p.watch, current.watch), Or(p.recommendation, current.recommendation),
                Or(p.organizationPlan, current.organizationPlan), Or(p.createFolder, current.createFolder),
                Or(p.moveFile, current.moveFile), Or(p.renameFile, current.renameFile))
  }

  predicate WatchNeedsRead(p: Permissions) {
    p.watch ==> p.read
  }

  function Max(a: int, b: int): int {
    if a < b then b else a
  }

  // ---- what the file holds ----

  ghost predicate UniqueIds(roots: seq<Root>) {
    forall i, j :: 0 <= i < j < |roots| ==> roots[i].id != roots[j].id
  }

  ghost predicate UniqueTokens(selections: seq<Selection>) {
    forall i, j :: 0 <= i < j < |selections| ==> selections[i].token != selections[j].token
  }

  ghost predicate Consistent(roots: seq<Root>, selections: seq<Selection>, issued: set<string>, used: set<string>) {
    && UniqueIds(roots) && UniqueTokens(selections)
    && (forall i :: 0 <= i < |roots| ==> WatchNeedsRead(roots[i].permissions))
    && (forall i :: 0 <= i < |selections| ==> selections[i].token in issued && selections[i].token !in used)
    && used <= issued
  }

  // The root at position i has moved on; no other has changed.
  ghost predicate Advanced(before: Root, after: Root) {
    && after.id == before.id && after.updatedAt > before.updatedAt
    && after.connectionRevision >= before.connectionRevision
  }

  ghost predicate OnlyAdvances(before: seq<Root>, after: seq<Root>, i: nat) {
    && i < |before| == |after| && Advanced(before[i], after[i])
    && forall j :: 0 <= j < |before| && j != i ==> after[j] == before[j]
  }

  // What is stored of a folder that is connected: as it was before with everything about this
  // connection replaced, or a new record.
  ghost predicate ConnectedAs(root: Root, before: Option<Root>, selection: Selection, permissions: Permissions,
                              displayName: string, now: int) {
    && root.id == selection.rootId && root.actualPath == selection.actualPath && root.status == Connected
    && root.permissions == permissions
    && root.displayName == (if displayName != "" then displayName else selection.displayName)
    && root.watcherState ==
         (if before.Some? then (if permissions.watch then before.value.watcherState else WatcherPaused)
          else if permissions.watch then WatcherPaused else Stopped)
    && root.connectionRevision == (if before.Some? then before.value.connectionRevision + 1 else 1)
    && root.updatedAt == Max(now, if before.Some? then before.value.updatedAt + 1 else 0)
  }

  ghost predicate Reconnects(before: seq<Root>, after: seq<Root>, root: Root, selection: Selection, permissions: Permissions,
                             displayName: string, now: int, i: nat) {
    OnlyAdvances(before, after, i) && after[i] == root && ConnectedAs(root, Some(before[i]), selection, permissions, displayName, now)
  }

  ghost predicate Connects(before: seq<Root>, after: seq<Root>, root: Root, selection: Selection, permissions: Permissions,
                           displayName: string, now: int) {
    if exists i :: 0 <= i < |before| && before[i].id == selection.rootId
    then exists i: nat :: Reconnects(before, after, root, selection, permissions, displayName, now, i)
    else after == before + [root] && ConnectedAs(root, None, selection, permissions, displayName, now)
  }

  // Everything an update does not name stays; a watcher that may no longer watch is paused, unless
  // the update says what it does.
  ghost predicate Updates(before: seq<Root>, after: seq<Root>, root: Root, displayName: string, patch: Option<Patch>,
                          status: Option<Status>, watcherState: Option<WatcherState>, now: int, i: nat) {
    && OnlyAdvances(before, after, i) && after[i] == root
    && root.connectionRevision == before[i].connectionRevision && root.actualPath == before[i].actualPath
    && root.displayName == (if displayName != "" then displayName else before[i].displayName)
    && root.permissions == (if patch.Some? then Patched(patch.value, before[i].permissions) else before[i].permissions)
    && root.status == (if status.Some? then status.value else before[i].status)
    && root.watcherState ==
         (if watcherState.Some? then watcherState.value
          else if patch.Some? && !root.permissions.watch && before[i].watcherState == Watching then WatcherPaused
          else before[i].watcherState)
    && root.updatedAt == Max(now, before[i].updatedAt + 1)
  }

  // An unexpired selection goes by this token.
  predicate Live(selections: seq<Selection>, token: string, now: int) {
    exists i :: 0 <= i < |selections| && selections[i].token == token && selections[i].expiresAt > now
  }

  // The selection of a token, and what a registration by it leaves of the others.
  ghost predicate Consumes(before: seq<Selection>, after: seq<Selection>, selection: Selection, token: string, now: int) {
    && selection in before && selection.token == token && selection.expiresAt > now
    && forall s :: s in after <==> s in before && s.expiresAt > now && s.token != token
  }

  function Unexpired(selections: seq<Selection>, now: int): (kept: seq<Selection>)
    ensures forall s :: s in kept <==> s in selections && s.expiresAt > now
  {
    if selections == [] then []
    else
      var last := selections[|selections| - 1];
      assert selections == selections[..|selections| - 1] + [last];
      Unexpired(selections[..|selections| - 1], now) + if last.expiresAt > now then [last] else []
  }

  lemma {:induction false} UnexpiredUnique(selections: seq<Selection>, now: int)
    requires UniqueTokens(selections)
    ensures UniqueTokens(Unexpired(selections, now))
  {
    if selections != [] {
      var last := |selections| - 1;
      UnexpiredUnique(selections[..last], now);
      var kept := Unexpired(selections[..last], now);
      forall i | 0 <= i < |kept| ensures kept[i].token != selections[last].token {
        assert kept[i] in selections[..last];
      }
    }
  }

  lemma LiveExactly(selections: seq<Selection>, at: nat, token: string, now: int)
    requires var live := Unexpired(selections, now);
      at <= |live| && (forall j :: 0 <= j < at ==> live[j].token != token) && (at < |live| ==> live[at].token == token)
    ensures at < |Unexpired(selections, now)| <==> Live(selections, token, now)
  {
    var live := Unexpired(selections, now);
    if at < |live| {
      assert live[at] in selections && live[at].expiresAt > now;
    }
  }

  lemma Consumed(selections: seq<Selection>, live: seq<Selection>, at: nat, token: string, now: int)
    requires UniqueTokens(live) && at < |live| && live[at].token == token
    requires forall s :: s in live <==> s in selections && s.expiresAt > now
    ensures Consumes(selections, live[..at] + live[at + 1..], live[at], token, now)
  {
    assert live[at] in live;
    forall s ensures s in live[..at] + live[at + 1..] <==> s in live && s.token != token {
      Others(live, at, s);
    }
  }

  lemma Others(live: seq<Selection>, at: nat, s: Selection)
    requires UniqueTokens(live) && at < |live|
    ensures s in live[..at] + live[at + 1..] <==> s in live && s.token != live[at].token
  {
    assert live == live[..at] + [live[at]] + live[at + 1..];
    if s in live && s.token != live[at].token {
      assert s in live[..at] || s == live[at] || s in live[at + 1..];
    }
  }

  // The other tokens stay unique, issued and unused.
  lemma TokenUsed(roots: seq<Root>, selections: seq<Selection>, live: seq<Selection>, issued: set<string>, used: set<string>, at: nat)
    requires Consistent(roots, selections, issued, used) && UniqueTokens(live) && at < |live|
    requires forall i :: 0 <= i < |live| ==> live[i] in selections
    ensures Consistent(roots, live[..at] + live[at + 1..], issued, used + {live[at].token})
  {
    var rest := live[..at] + live[at + 1..];
    forall i | 0 <= i < |rest| ensures rest[i] == live[if i < at then i else i + 1] {}
  }

  class RegistryFile {
    var roots: seq<Root>
    var selections: seq<Selection>
    ghost var issued: set<string>  // every token ever handed out
    ghost var used: set<string>    // every token that has registered a folder

    ghost predicate Valid()
      reads this
    {
      Consistent(roots, selections, issued, used)
    }

    constructor ()
      ensures Valid() && roots == [] && selections == []
    {
      roots, selections, issued, used := [], [], {}, {};
    }

    // The token is fresh: 24 random bytes.
    method CreateFolderSelection(token: string, actualPath: string, rootId: string, displayName: string, now: int)
      requires Valid() && token !in issued
      modifies this
      ensures Valid() && roots == old(roots) && used == old(used) && issued == old(issued) + {token}
      ensures selections == Unexpired(old(selections), now) + [Selection(token, actualPath, rootId, displayName, now + 600000)]
    {
      UnexpiredUnique(selections, now);
      selections := Unexpired(selections, now) + [Selection(token, actualPath, rootId, displayName, now + FOLDER_SELECTION_TTL_MS)];
      issued := issued + {token};
    }

    static method FindSelection(selections: seq<Selection>, token: string) returns (i: nat)
      ensures i <= |selections| && (forall j :: 0 <= j < i ==> selections[j].token != token)
      ensures i < |selections| ==> selections[i].token == token
    {
      i := 0;
      while i < |selections| && selections[i].token != token
        invariant i <= |selections| && forall j :: 0 <= j < i ==> selections[j].token != token
      {
        i := i + 1;
      }
    }

    method FindRoot(id: string) returns (i: nat)
      ensures i <= |roots| && (forall j :: 0 <= j < i ==> roots[j].id != id)
      ensures i < |roots| ==> roots[i].id == id
    {
      i := 0;
      while i < |roots| && roots[i].id != id
        invariant i <= |roots| && forall j :: 0 <= j < i ==> roots[j].id != id
      {
        i := i + 1;
      }
    }

    // Connects the folder of a selection anew with a higher revision, or for the first time.
    method Connect(selection: Selection, permissions: Permissions, displayName: string, now: int) returns (root: Root)
      requires Valid() && WatchNeedsRead(permissions)
      modifies `roots
      ensures Valid() && Connects(old(roots), roots, root, selection, permissions, displayName, now)
    {
      var name := if displayName == "" then selection.displayName else displayName;
      var i := FindRoot(selection.rootId);
      if i < |roots| {
        var existing := roots[i];
        root := existing.(
          permissions := permissions, connectionRevision := existing.connectionRevision + 1, actualPath := selection.actualPath,
          displayName := name, status := Connected, updatedAt := Max(now, existing.updatedAt + 1),
          watcherState := if permissions.watch then existing.watcherState else WatcherPaused);
        roots := roots[i := root];
        assert Reconnects(old(roots), roots, root, selection, permissions, displayName, now, i);
      } else {
        root := Root(selection.rootId, selection.actualPath, name, permissions, Connected,
                     if permissions.watch then WatcherPaused else Stopped, 1, Max(now, 0));
        roots := roots + [root];
      }
    }

    // Consumes the token.  `valid` is what validateRootPath finds of the selected folder.
    method RegisterRoot(token: string, patch: Patch, displayName: string, valid: bool, now: int) returns (r: Result<Root>)
      requires Valid()
      modifies this
      ensures Valid() && issued == old(issued)
      ensures r.Failed? <==>
        token == "" || !Live(old(selections), token, now) || !valid || (patch.watch == Some(true) && patch.read == Some(false))
      ensures r.Failed? ==> roots == old(roots) && used == old(used)
      ensures r.Failed? ==>
        selections == if token == "" || Live(old(selections), token, now) then old(selections) else Unexpired(old(selections), now)
      ensures r.Ok? ==>
        && token !in old(used) && used == old(used) + {token}
        && exists selection ::
             && Consumes(old(selections), selections, selection, token, now)
             && Connects(old(roots), roots, r.value, selection, Patched(patch, DEFAULTS), displayName, now)
    {
      if token == "" { return Failed; }
      UnexpiredUnique(selections, now);
      var live := Unexpired(selections, now);
      assert forall i :: 0 <= i < |live| ==> live[i] in selections;
      var at := FindSelection(live, token);
      LiveExactly(selections, at, token, now);
      hide Connects, Reconnects, Updates, ConnectedAs, OnlyAdvances, Unexpired, Live, Consumes;
      if at == |live| {
        selections := live;
        return Failed;
      }
      if !valid { return Failed; }
      var permissions := Patched(patch, DEFAULTS);
      if !WatchNeedsRead(permissions) { return Failed; }
      var root := Connect(live[at], permissions, displayName, now);
      Consumed(selections, live, at, token, now);
      TokenUsed(roots, selections, live, issued, used, at);
      selections := live[..at] + live[at + 1..];
      used := used + {token};
      return Ok(root);
    }

    // Changes what it is given; a watch grant without read is refused, and nothing is written then.
    method UpdateRoot(id: string, displayName: string, patch: Option<Patch>, status: Option<Status>,
                      watcherState: Option<WatcherState>, now: int) returns (r: Result<Root>)
      requires Valid()
      modifies `roots
      ensures Valid()
      ensures r.Failed? <==>
        (forall i :: 0 <= i < |old(roots)| ==> old(roots)[i].id != id) ||
        exists i :: 0 <= i < |old(roots)| && old(roots)[i].id == id && patch.Some? && !WatchNeedsRead(Patched(patch.value, old(roots)[i].permissions))
      ensures r.Failed? ==> roots == old(roots)
      ensures r.Ok? ==>
        r.value.id == id && exists i: nat :: Updates(old(roots), roots, r.value, displayName, patch, status, watcherState, now, i)
    {
      var i := FindRoot(id);
      if i == |roots| { return Failed; }
      var root := roots[i];
      if displayName != "" { root := root.(displayName := displayName); }
      if patch.Some? {
        var permissions := Patched(patch.value, root.permissions);
        if !WatchNeedsRead(permissions) { return Failed; }
        root := root.(permissions := permissions);
        if !permissions.watch && root.watcherState == Watching { root := root.(watcherState := WatcherPaused); }
      }
      if status.Some? { root := root.(status := status.value); }
      if watcherState.Some? { root := root.(watcherState := watcherState.value); }
      root := root.(updatedAt := Max(now, root.updatedAt + 1));
      roots := roots[i := root];
      assert Updates(old(roots), roots, root, displayName, patch, status, watcherState, now, i);
      return Ok(root);
    }
  }

  // ---- what a granted permission means ----

  datatype Permission = Read | Watch | CreateFolder | MoveFile | RenameFile

  predicate Granted(root: Root, permission: Permission) {
    root.status == Connected &&
    match permission
    case Read => root.permissions.read
    case Watch => root.permissions.watch
    case CreateFolder => root.permissions.createFolder
    case MoveFile => root.permissions.moveFile
    case RenameFile => root.permissions.renameFile
  }

  // What a patch asks for one permission.
  function Wish(patch: Patch, permission: Permission): Option<bool> {
    match permission
    case Read => patch.read
    case Watch => patch.watch
    case CreateFolder => patch.createFolder
    case MoveFile => patch.moveFile
    case RenameFile => patch.renameFile
  }

  // A patch decides the permissions it names and leaves the others; without one, a new root may be
  // read and nothing else.  A root that is not connected grants nothing.
  lemma GrantsFollowWishes(root: Root, patch: Patch, permission: Permission)
    ensures var wish, patched := Wish(patch, permission), root.(permissions := Patched(patch, root.permissions));
      root.status == Connected ==>
        (Granted(patched, permission) <==> wish == Some(true) || (wish.None? && Granted(root, permission)))
    ensures var wish, newRoot := Wish(patch, permission), root.(status := Connected, permissions := Patched(patch, DEFAULTS));
      Granted(newRoot, permission) <==> wish == Some(true) || (wish.None? && permission.Read?)
    ensures Granted(root, permission) ==> root.status == Connected
  {
  }

  // Whatever was granted through the registry, watching always comes with reading.
  lemma WatchedIsReadable(roots: seq<Root>, selections: seq<Selection>, issued: set<string>, used: set<string>, i: nat)
    requires Consistent(roots, selections, issued, used) && i < |roots| && Granted(roots[i], Watch)
    ensures Granted(roots[i], Read)
  {
  }
}
