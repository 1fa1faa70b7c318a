// The two-pass scanner: what a returned inventory says about one moment of a tree that other
// programs keep changing.
module Scanner {
  import opened Wrappers

  type Path = seq<string>
  type Obj = nat
  type Stamp = nat  // device, inode, size, modification and change time, and mode

  datatype Node = File(digest: string) | Link | Other | Dir(entries: map<string, Obj>)
  datatype Meta = Meta(stamp: Stamp, node: Node)

  // The tree at one moment, and the tree at every moment.
  datatype Snap = Snap(root: Obj, objects: map<Obj, Meta>)
  type History = nat -> Snap

  function Resolve(s: Snap, p: Path): (o: Option<Obj>)
    ensures o.Some? ==> o.value in s.objects
  {
    if p == [] then (if s.root in s.objects then Some(s.root) else None)
    else
      var parent := Resolve(s, p[..|p| - 1]);
      if parent.None? || !s.objects[parent.value].node.Dir? then None
      else
        var entries := s.objects[parent.value].node.entries;
        var name := p[|p| - 1];
        if name in entries && entries[name] in s.objects then Some(entries[name]) else None
  }

  function Look(s: Snap, p: Path): Option<Meta> {
    var o := Resolve(s, p);
    if o.None? then None else Some(s.objects[o.value])
  }

  predicate FileLike(n: Node) {
    n.File? || n.Link?
  }

  predicate SameKind(m: Node, n: Node) {
    m.Dir? == n.Dir? && FileLike(m) == FileLike(n)
  }

  ghost predicate Unchanged(h: History, o: Obj, s: nat, u: nat) {
    o in h(s).objects && forall t: nat | s <= t <= u :: o in h(t).objects && h(t).objects[o] == h(s).objects[o]
  }

  function StampOf(s: Snap, o: Obj): Option<Stamp> {
    if o in s.objects then Some(s.objects[o].stamp) else None
  }

  // Every change gives an object a stamp that no object ever had.
  ghost predicate StampsTell(h: History) {
    forall s: nat, u: nat, o, o' | s <= u && StampOf(h(s), o).Some? && StampOf(h(s), o) == StampOf(h(u), o') ::
      o == o' && Unchanged(h, o, s, u)
  }

  // Renaming the root itself is such a change; the directories above it are left alone.
  ghost predicate RootTells(h: History) {
    forall s: nat, t: nat, u: nat | s <= t <= u && Unchanged(h, h(s).root, s, u) :: h(t).root == h(s).root
  }

  ghost predicate KindsStay(h: History) {
    forall s: nat, u: nat, o | o in h(s).objects && o in h(u).objects :: SameKind(h(s).objects[o].node, h(u).objects[o].node)
  }

  ghost predicate Faithful(h: History) {
    StampsTell(h) && RootTells(h) && KindsStay(h)
  }

  function Parent(p: Path): Path
    requires p != []
  {
    p[..|p| - 1]
  }

  datatype ReadStatus = Supported | Unsupported | Failed
  datatype Draft = Draft(path: Path, status: ReadStatus, checksum: Option<string>)

  // Which names are skipped, which extensions are read, which of these are images, and how much of
  // a stamp sameFileIdentity compares.
  datatype Rules = Rules(ignored: Path -> bool, supported: Path -> bool, image: Path -> bool, coarse: Stamp -> nat, depth: nat)

  ghost predicate Visible(rules: Rules, p: Path) {
    forall i :: 0 < i <= |p| ==> !rules.ignored(p[..i])
  }

  function Paths(files: seq<Draft>): (paths: set<Path>)
    ensures forall p :: p in paths <==> exists i :: 0 <= i < |files| && files[i].path == p
  {
    set i | 0 <= i < |files| :: files[i].path
  }

  // ---- what the first pass has seen ----

  // The times at which each path was looked at, listed and read, and the listings gone through.
  datatype Seen = Seen(begun: nat, at: map<Path, nat>, listed: map<Path, nat>, read: map<Path, (nat, nat)>)

  function Begun(seen: Seen, p: Path): nat {
    if p in seen.at then seen.at[p] else seen.begun
  }

  // A path is looked at after its parent was.
  ghost predicate LookedAt(h: History, rules: Rules, identities: map<Path, Stamp>, seen: Seen, now: nat, p: Path)
    requires p in seen.at && p in identities
  {
    && p != [] && seen.begun <= seen.at[p] <= now && Visible(rules, p)
    && Look(h(seen.at[p]), p).Some? && Look(h(seen.at[p]), p).value.stamp == identities[p]
    && (Parent(p) == [] || (Parent(p) in seen.at && seen.at[Parent(p)] <= seen.at[p]))
  }

  ghost predicate Looked(h: History, rules: Rules, identities: map<Path, Stamp>, seen: Seen, now: nat) {
    && seen.begun <= now && seen.at.Keys == identities.Keys
    && forall p | p in seen.at :: LookedAt(h, rules, identities, seen, now, p)
  }

  // An entry is published, or recorded; recorded directories are gone through in turn.
  ghost predicate Handled(h: History, files: seq<Draft>, seen: Seen, q: Path) {
    || q in Paths(files)
    || (q in seen.at && Look(h(seen.at[q]), q).Some? &&
        var node := Look(h(seen.at[q]), q).value.node;
        (node.Dir? ==> q in seen.listed) && !FileLike(node))
  }

  ghost predicate ListedAt(h: History, rules: Rules, files: seq<Draft>, seen: Seen, now: nat, p: Path)
    requires p in seen.listed
  {
    && Begun(seen, p) <= seen.listed[p] <= now && (p == [] || p in seen.at)
    && Look(h(seen.listed[p]), p).Some? && Look(h(seen.listed[p]), p).value.node.Dir?
    && forall b | b in Look(h(seen.listed[p]), p).value.node.entries ::
         !rules.ignored(p + [b]) ==> Handled(h, files, seen, p + [b])
  }

  ghost predicate Listed(h: History, rules: Rules, files: seq<Draft>, seen: Seen, now: nat) {
    forall p | p in seen.listed :: ListedAt(h, rules, files, seen, now, p)
  }

  // The bytes of a supported draft were read after its path was looked at.
  ghost predicate DraftRead(h: History, d: Draft, at: nat, opening: nat, closing: nat, now: nat) {
    && at <= opening <= closing <= now && d.checksum.Some? && Resolve(h(opening), d.path).Some?
    && var o := Resolve(h(opening), d.path).value;
      Unchanged(h, o, opening, closing) ==> h(opening).objects[o].node == File(d.checksum.value)
  }

  // The checksum of a supported draft is that of the bytes at its path, if they did not change
  // while they were read.
  ghost predicate Checksummed(h: History, files: seq<Draft>, seen: Seen, now: nat) {
    forall d | d in files && d.status.Supported? ::
      && d.path in seen.at && d.path in seen.read
      && DraftRead(h, d, seen.at[d.path], seen.read[d.path].0, seen.read[d.path].1, now)
  }

  // A path denotes the same unchanged object all the time.
  ghost predicate Steady(h: History, p: Path, s: nat, u: nat) {
    forall t: nat | s <= t <= u :: Resolve(h(t), p) == Resolve(h(s), p) && Look(h(t), p) == Look(h(s), p)
  }

  // The directory at `p` has an entry of that name.
  ghost predicate Lists(s: Snap, p: Path, name: string) {
    Look(s, p).Some? && Look(s, p).value.node.Dir? && name in Look(s, p).value.node.entries
  }

  // The entry was listed, but could not be looked at.
  ghost predicate Unseen(h: History, rules: Rules, q: Path, begun: nat, now: nat)
    requires q != []
  {
    && (exists t: nat | begun <= t <= now :: Lists(h(t), Parent(q), q[|q| - 1]))
    && (|q| > rules.depth || exists t: nat | begun <= t <= now :: Look(h(t), q).None?)
  }

  // What the status of a draft means.  Only regular files of supported types are read; a link, or a
  // file of any other type, is published unread.  Anything else took a change between the look at
  // the path and the end of its inspection, or a path that could not be looked at.
  ghost predicate ClassifiedAs(h: History, rules: Rules, d: Draft, seen: Seen, now: nat) {
    && d.path != [] && Visible(rules, d.path)
    && (d.path in seen.at ==> Look(h(seen.at[d.path]), d.path).Some? && FileLike(Look(h(seen.at[d.path]), d.path).value.node))
    && match d.status
       case Supported => rules.supported(d.path) && d.path in seen.at && Look(h(seen.at[d.path]), d.path).value.node.File?
       case Unsupported =>
         && d.checksum.None? && d.path in seen.at
         && (Look(h(seen.at[d.path]), d.path).value.node.Link? || !rules.supported(d.path)
             || !Steady(h, d.path, seen.at[d.path], now))
       case Failed =>
         && d.checksum.None?
         && if d.path in seen.at then !Steady(h, d.path, seen.at[d.path], now)
            else Unseen(h, rules, d.path, seen.begun, now)
  }

  ghost predicate Classified(h: History, rules: Rules, files: seq<Draft>, seen: Seen, now: nat) {
    forall d | d in files :: ClassifiedAs(h, rules, d, seen, now)
  }

  // ---- what the second pass has seen ----

  // A path is looked at again, and has the stamp that was recorded.
  ghost predicate AgainAt(h: History, rules: Rules, identities: map<Path, Stamp>, seen: Seen, again: map<Path, nat>,
                          moment: nat, now: nat, p: Path)
    requires p in again
  {
    && p != [] && moment <= again[p] <= now && p in seen.at && p in identities
    && Look(h(again[p]), p).Some? && Look(h(again[p]), p).value.stamp == identities[p]
    && (Parent(p) == [] || Parent(p) in again) && Visible(rules, p)
  }

  // A directory is listed a second time after it was looked at again; every visible entry of that
  // listing was looked at again too.
  ghost predicate RelistedAt(h: History, rules: Rules, again: map<Path, nat>, relisted: map<Path, nat>, moment: nat, now: nat, p: Path)
    requires p in relisted
  {
    && moment <= relisted[p] <= now && (p in again ==> again[p] <= relisted[p]) && (p == [] || p in again)
    && Look(h(relisted[p]), p).Some? && Look(h(relisted[p]), p).value.node.Dir?
    && forall b | b in Look(h(relisted[p]), p).value.node.entries :: !rules.ignored(p + [b]) ==> p + [b] in again
  }

  ghost predicate PassTwo(h: History, rules: Rules, identities: map<Path, Stamp>, seen: Seen, again: map<Path, nat>,
                          relisted: map<Path, nat>, paths: set<Path>, moment: nat, now: nat) {
    && (forall p | p in again :: AgainAt(h, rules, identities, seen, again, moment, now, p))
    && (forall p | p in relisted :: RelistedAt(h, rules, again, relisted, moment, now, p))
    && (forall p :: p in paths <==> p in again && Look(h(again[p]), p).Some? && FileLike(Look(h(again[p]), p).value.node))
  }

  // The root is the same, unchanged directory from the first moment to the last.
  ghost predicate RootHeld(h: History, seen: Seen, end: nat) {
    seen.begun <= end && Look(h(seen.begun), []).Some? && Look(h(end), []).Some? &&
    Look(h(seen.begun), []).value.stamp == Look(h(end), []).value.stamp && Look(h(seen.begun), []).value.node.Dir?
  }

  // All that a scan has seen.  `moment` is between its two passes, `end` when it returns.
  datatype Transcript = Transcript(
    h: History, rules: Rules, identities: map<Path, Stamp>, files: seq<Draft>, seen: Seen, again: map<Path, nat>,
    relisted: map<Path, nat>, moment: nat, end: nat)

  // All that a scan has checked when it returns an inventory.
  ghost predicate Verified(x: Transcript) {
    && Faithful(x.h) && x.moment <= x.end && Looked(x.h, x.rules, x.identities, x.seen, x.moment)
    && Listed(x.h, x.rules, x.files, x.seen, x.moment) && Checksummed(x.h, x.files, x.seen, x.moment)
    && Classified(x.h, x.rules, x.files, x.seen, x.moment)
    && [] in x.seen.listed && [] in x.relisted && RootHeld(x.h, x.seen, x.end)
    && PassTwo(x.h, x.rules, x.identities, x.seen, x.again, x.relisted, Paths(x.files), x.moment, x.end)
    && (forall p | p in x.again && Look(x.h(x.again[p]), p).Some? && Look(x.h(x.again[p]), p).value.node.Dir? :: p in x.relisted)
  }

  // ---- the snapshot theorem ----

  ghost predicate Stable(h: History, p: Path, s: nat, u: nat) {
    Resolve(h(s), p).Some? &&
    var o := Resolve(h(s), p).value;
    Unchanged(h, o, s, u) && forall t: nat | s <= t <= u :: Resolve(h(t), p) == Some(o)
  }

  lemma SameStamp(h: History, o: Obj, o': Obj, s: nat, u: nat)
    requires Faithful(h) && s <= u && o in h(s).objects && o' in h(u).objects
    requires h(s).objects[o].stamp == h(u).objects[o'].stamp
    ensures o == o' && Unchanged(h, o, s, u)
  {
    assert StampOf(h(s), o) == StampOf(h(u), o');
  }

  lemma RootStable(h: History, seen: Seen, end: nat)
    requires Faithful(h) && RootHeld(h, seen, end)
    ensures Stable(h, [], seen.begun, end)
  {
    SameStamp(h, h(seen.begun).root, h(end).root, seen.begun, end);
    assert Unchanged(h, h(seen.begun).root, seen.begun, end);
  }

  // A path whose parent held still, and whose own stamp came back, held still too.
  lemma ChildStable(h: History, p: Path, begun: nat, s: nat, moment: nat, u: nat)
    requires Faithful(h) && p != [] && begun <= s <= moment <= u && Stable(h, Parent(p), begun, moment)
    requires Look(h(s), p).Some? && Look(h(u), p).Some? && Look(h(s), p).value.stamp == Look(h(u), p).value.stamp
    ensures Stable(h, p, s, moment) && Look(h(u), p) == Look(h(s), p)
  {
    var o := Resolve(h(s), p).value;
    SameStamp(h, o, Resolve(h(u), p).value, s, u);
    hide Faithful;
    forall t: nat | s <= t <= moment ensures Resolve(h(t), p) == Some(o) {
      assert Resolve(h(t), Parent(p)) == Resolve(h(s), Parent(p));
    }
  }

  lemma {:induction false} RevisitedStable(x: Transcript, p: Path)
    requires Verified(x) && (p == [] || p in x.again)
    ensures Stable(x.h, p, Begun(x.seen, p), x.moment)
    decreases |p|
  {
    hide Faithful, Listed, Checksummed, Classified;
    if p == [] {
      RootStable(x.h, x.seen, x.end);
    } else {
      RevisitedStable(x, Parent(p));
      ChildStable(x.h, p, Begun(x.seen, Parent(p)), x.seen.at[p], x.moment, x.again[p]);
    }
  }

  // What the inventory says was true at `moment`: every published path denoted the recorded file or
  // link; a regular file of a supported type is published with the checksum of its bytes then, every
  // other file and every link unread; and nothing is published as failed.
  lemma PublishedWasThere(x: Transcript, d: Draft)
    requires Verified(x) && d in x.files
    ensures d.path in x.identities && Look(x.h(x.moment), d.path).Some?
    ensures var m := Look(x.h(x.moment), d.path).value;
      && m.stamp == x.identities[d.path] && FileLike(m.node)
      && (d.status.Supported? <==> m.node.File? && x.rules.supported(d.path))
      && (d.status.Unsupported? <==> m.node.Link? || !x.rules.supported(d.path))
      && (d.status.Supported? ==> d.checksum.Some? && m.node == File(d.checksum.value))
      && (d.status.Unsupported? ==> d.checksum.None?)
  {
    hide Faithful, Listed, Checksummed, Classified;
    PublishedRevisited(x, d);
    var p := d.path;
    RevisitedStable(x, p);
    RevisitedStable(x, Parent(p));
    ChildStable(x.h, p, Begun(x.seen, Parent(p)), x.seen.at[p], x.moment, x.again[p]);
    StableSteady(x.h, p, x.seen.at[p], x.moment);
    OfKind(x.h, x.rules, x.files, x.seen, x.moment, d);
    if d.status.Supported? { SupportedDigest(x, d); }
  }

  lemma StableSteady(h: History, p: Path, s: nat, u: nat)
    requires Stable(h, p, s, u) && s <= u
    ensures Steady(h, p, s, u) && Look(h(u), p) == Look(h(s), p)
  {
  }

  // The status of a draft whose path held still.
  lemma OfKind(h: History, rules: Rules, files: seq<Draft>, seen: Seen, now: nat, d: Draft)
    requires Classified(h, rules, files, seen, now) && d in files && d.path in seen.at
    requires Steady(h, d.path, seen.at[d.path], now) && Look(h(now), d.path) == Look(h(seen.at[d.path]), d.path)
    ensures Look(h(now), d.path).Some?
    ensures var node := Look(h(now), d.path).value.node;
      && FileLike(node) && (d.status.Unsupported? ==> d.checksum.None?)
      && (d.status.Supported? <==> node.File? && rules.supported(d.path))
      && (d.status.Unsupported? <==> node.Link? || !rules.supported(d.path))
  {
    assert ClassifiedAs(h, rules, d, seen, now);
    hide Steady;
  }

  lemma SupportedDigest(x: Transcript, d: Draft)
    requires Checksummed(x.h, x.files, x.seen, x.moment) && d in x.files && d.status.Supported? && d.path in x.seen.at
    requires Stable(x.h, d.path, x.seen.at[d.path], x.moment) && x.seen.at[d.path] <= x.moment
    ensures d.checksum.Some? && Look(x.h(x.moment), d.path).Some?
    ensures Look(x.h(x.moment), d.path).value.node == File(d.checksum.value)
  {
    var c := x.seen.read[d.path].0;
    var o := Resolve(x.h(x.seen.at[d.path]), d.path).value;
    assert Resolve(x.h(c), d.path) == Some(o);
  }

  lemma PublishedRevisited(x: Transcript, d: Draft)
    requires Verified(x) && d in x.files
    ensures d.path in x.again && d.path != [] && FileLike(Look(x.h(x.again[d.path]), d.path).value.node)
  {
    hide Faithful, Listed, Checksummed, Classified, Looked;
    var i :| 0 <= i < |x.files| && x.files[i] == d;
    assert d.path in Paths(x.files);
  }

  // A directory that the second pass came back to.
  ghost predicate Reached(x: Transcript, p: Path) {
    p == [] || p in x.again
  }

  // A visible entry of a revisited directory at `moment` had been recorded or published.
  lemma EntryHandled(x: Transcript, q: Path)
    requires Verified(x) && q != [] && Reached(x, Parent(q)) && Parent(q) in x.seen.listed
    requires Look(x.h(x.moment), q).Some? && !x.rules.ignored(q)
    ensures Handled(x.h, x.files, x.seen, q)
  {
    hide PassTwo, RootHeld, Handled;
    hide Faithful, Checksummed, Classified, Looked;
    var p := Parent(q);
    RevisitedStable(x, p);
    assert q == p + [q[|q| - 1]];
    assert Look(x.h(x.seen.listed[p]), p) == Look(x.h(x.moment), p);
  }

  // The kind a path had when it was recorded is the kind it had at `moment`.
  lemma RecordedKind(x: Transcript, q: Path)
    requires Verified(x) && q != [] && Reached(x, Parent(q)) && q in x.seen.at && Look(x.h(x.moment), q).Some?
    ensures Look(x.h(x.seen.at[q]), q).Some?
    ensures SameKind(Look(x.h(x.seen.at[q]), q).value.node, Look(x.h(x.moment), q).value.node)
  {
    hide Listed, Checksummed, Classified;
    RevisitedStable(x, Parent(q));
    SameEntry(x.h, q, Begun(x.seen, Parent(q)), x.seen.at[q], x.moment);
  }

  lemma SameEntry(h: History, q: Path, begun: nat, s: nat, u: nat)
    requires Faithful(h) && q != [] && begun <= s <= u && Stable(h, Parent(q), begun, u)
    requires Look(h(s), q).Some? && Look(h(u), q).Some?
    ensures SameKind(Look(h(s), q).value.node, Look(h(u), q).value.node)
  {
    assert Resolve(h(s), Parent(q)) == Resolve(h(u), Parent(q));
    assert Resolve(h(s), q) == Resolve(h(u), q);
  }

  // A directory recorded by the first pass and never revisited by the second: it was gone again
  // when its parent was listed for the second time.
  ghost predicate Missed(x: Transcript, p: Path) {
    p in x.seen.at && p !in x.again && Look(x.h(x.seen.at[p]), p).Some? && Look(x.h(x.seen.at[p]), p).value.node.Dir?
  }

  ghost predicate MissedAbove(x: Transcript, q: Path) {
    exists i :: 0 < i <= |q| && Missed(x, q[..i])
  }

  lemma {:induction false} DirectoryReached(x: Transcript, p: Path)
    requires Verified(x) && Visible(x.rules, p) && !MissedAbove(x, p)
    requires Look(x.h(x.moment), p).Some? && Look(x.h(x.moment), p).value.node.Dir?
    ensures Reached(x, p) && p in x.seen.listed
    decreases |p|
  {
    hide Faithful, Checksummed, Classified, Looked, Listed;
    if p != [] {
      Above(x, p);
      DirectoryReached(x, Parent(p));
      EntryHandled(x, p);
      RecordedDirectory(x, p);
    }
  }

  lemma Above(x: Transcript, p: Path)
    requires p != [] && Visible(x.rules, p)
    ensures Visible(x.rules, Parent(p)) && !x.rules.ignored(p) && (MissedAbove(x, Parent(p)) || Missed(x, p) ==> MissedAbove(x, p))
  {
    assert p[..|p|] == p;
    assert forall i :: 0 < i <= |Parent(p)| ==> Parent(p)[..i] == p[..i];
  }

  // A handled directory was recorded: a published path denotes no directory.
  lemma RecordedDirectory(x: Transcript, p: Path)
    requires Verified(x) && p != [] && Reached(x, Parent(p)) && Handled(x.h, x.files, x.seen, p) && !Missed(x, p)
    requires Look(x.h(x.moment), p).Some? && Look(x.h(x.moment), p).value.node.Dir?
    ensures p in x.again && p in x.seen.listed
  {
    hide PassTwo, RootHeld, Looked;
    hide Faithful, Checksummed, Classified, Listed;
    if p in Paths(x.files) {
      var i :| 0 <= i < |x.files| && x.files[i].path == p;
      PublishedWasThere(x, x.files[i]);
    } else {
      RecordedKind(x, p);
    }
  }

  // Nothing visible was left out, except below directories that the second pass missed.
  lemma NothingLeftOut(x: Transcript, q: Path)
    requires Verified(x) && Visible(x.rules, q) && q != [] && !MissedAbove(x, Parent(q))
    requires Look(x.h(x.moment), q).Some? && FileLike(Look(x.h(x.moment), q).value.node)
    ensures q in Paths(x.files)
  {
    hide Faithful, Checksummed, Classified, Listed;
    Above(x, q);
    DirectoryReached(x, Parent(q));
    EntryHandled(x, q);
    if q in x.seen.at { RecordedKind(x, q); }
  }

  lemma {:induction false} NotBelowMissed(x: Transcript, p: Path)
    requires Verified(x) && Reached(x, p)
    ensures !MissedAbove(x, p)
    decreases |p|
  {
    hide Faithful, Checksummed, Classified, Listed, Looked;
    if p != [] {
      NotBelowMissed(x, Parent(p));
      forall i | 0 < i <= |p| ensures !Missed(x, p[..i]) {
        if i == |p| { assert p[..i] == p; } else { assert Parent(p)[..i] == p[..i]; }
      }
    }
  }

  // The inventory is exactly what was visible at `moment`, but for what then lay below a directory
  // that the second pass missed.
  lemma InventoryExactly(x: Transcript, q: Path)
    requires Verified(x) && q != []
    ensures q in Paths(x.files) <==>
      && Visible(x.rules, q) && Look(x.h(x.moment), q).Some? && FileLike(Look(x.h(x.moment), q).value.node)
      && !MissedAbove(x, Parent(q))
  {
    if q in Paths(x.files) {
      var i :| 0 <= i < |x.files| && x.files[i].path == q;
      PublishedWasThere(x, x.files[i]);
      NotBelowMissed(x, Parent(q));
    } else if Visible(x.rules, q) && Look(x.h(x.moment), q).Some? && FileLike(Look(x.h(x.moment), q).value.node) && !MissedAbove(x, Parent(q)) {
      NothingLeftOut(x, q);
    }
  }

  // What a complete scan at time t would publish.
  ghost predicate Shown(x: Transcript, t: nat, q: Path) {
    q != [] && Visible(x.rules, q) && Look(x.h(t), q).Some? && FileLike(Look(x.h(t), q).value.node)
  }

  // The published inventory is that of time t.
  ghost predicate ExactAt(x: Transcript, t: nat) {
    forall q | q != [] :: q in Paths(x.files) <==> Shown(x, t, q)
  }

  // The scan published its moment exactly when nothing lay below a missed directory then.
  lemma SnapshotExactly(x: Transcript)
    requires Verified(x)
    ensures ExactAt(x, x.moment) <==> forall q :: Shown(x, x.moment, q) ==> !MissedAbove(x, Parent(q))
  {
    hide Verified, MissedAbove;
    forall q | q != []
      ensures q in Paths(x.files) <==> Shown(x, x.moment, q) && !MissedAbove(x, Parent(q))
    {
      InventoryExactly(x, q);
    }
  }

  // In particular when the second pass came back to every recorded directory.
  lemma SnapshotTheorem(x: Transcript)
    requires Verified(x) && forall p :: !Missed(x, p)
    ensures ExactAt(x, x.moment)
  {
    SnapshotExactly(x);
    forall q | Shown(x, x.moment, q) ensures !MissedAbove(x, Parent(q)) {
    }
  }
}
