// A scan of a tree that is left alone: it succeeds, and publishes exactly that tree.
module ScannerCalm {
  import opened Wrappers
  import opened Scanner

  ghost predicate IsDirectory(s: Snap, p: Path) {
    Look(s, p).Some? && Look(s, p).value.node.Dir?
  }

  // The root is a directory, and every visible entry is there and within the depth that can be reached.
  ghost predicate Whole(s: Snap, rules: Rules) {
    && IsDirectory(s, [])
    && forall p: Path, b: string | Visible(rules, p) && Lists(s, p, b) && !rules.ignored(p + [b]) ::
         Look(s, p + [b]).Some? && |p| < rules.depth
  }

  // Nobody changes such a tree from one time to the other.
  ghost predicate Calm(h: History, rules: Rules, s: nat, u: nat) {
    (forall t: nat | s <= t <= u :: h(t) == h(s)) && Whole(h(s), rules)
  }

  ghost predicate Within(s: Snap, rules: Rules, q: Path) {
    Look(s, q).Some? && |q| <= rules.depth
  }

  // Everything visible has been recorded with its stamp.
  ghost predicate Complete(s: Snap, rules: Rules, identities: map<Path, Stamp>) {
    forall q | q != [] && Visible(rules, q) && Look(s, q).Some? :: q in identities && identities[q] == Look(s, q).value.stamp
  }

  // ---- what calm gives to the steps of a scan ----

  lemma CalmLook(h: History, rules: Rules, begun: nat, t: nat, now: nat, q: Path)
    requires begun <= t <= now && IsDirectory(h(t), q)
    ensures Calm(h, rules, begun, now) ==> IsDirectory(h(now), q)
  {
  }

  lemma CalmAlways(h: History, rules: Rules, begun: nat, before: nat, now: nat, p: Path)
    requires begun <= before <= now && (Calm(h, rules, begun, before) ==> IsDirectory(h(before), p))
    ensures Calm(h, rules, begun, now) ==> IsDirectory(h(now), p)
  {
    if Calm(h, rules, begun, now) { assert Calm(h, rules, begun, before); }
  }

  lemma CalmEntry(h: History, rules: Rules, identities: map<Path, Stamp>, begun: nat, before: nat, now: nat, q: Path)
    requires begun <= before <= now && q != [] && Visible(rules, q)
    requires Calm(h, rules, begun, before) ==> Complete(h(before), rules, identities) && Within(h(before), rules, q)
    ensures Calm(h, rules, begun, now) ==>
      && Complete(h(now), rules, identities) && Look(h(now), q).Some? && |q| <= rules.depth
      && q in identities && identities[q] == Look(h(now), q).value.stamp
  {
    if Calm(h, rules, begun, now) { assert Calm(h, rules, begun, before); }
  }

  lemma CalmDirectory(h: History, rules: Rules, identities: map<Path, Stamp>, begun: nat, before: nat, now: nat, p: Path)
    requires begun <= before <= now
    requires Calm(h, rules, begun, before) ==> Complete(h(before), rules, identities) && IsDirectory(h(before), p)
    ensures Calm(h, rules, begun, now) ==> Complete(h(now), rules, identities) && IsDirectory(h(now), p)
  {
    if Calm(h, rules, begun, now) { assert Calm(h, rules, begun, before); }
  }

  lemma CalmChild(h: History, rules: Rules, identities: map<Path, Stamp>, begun: nat, t: nat, now: nat, p: Path, b: string)
    requires begun <= t <= now && Visible(rules, p) && Lists(h(t), p, b) && !rules.ignored(p + [b])
    requires Calm(h, rules, begun, t) ==> Complete(h(t), rules, identities)
    ensures Calm(h, rules, begun, now) ==> Complete(h(now), rules, identities) && Within(h(now), rules, p + [b])
  {
    if Calm(h, rules, begun, now) { assert Calm(h, rules, begun, t); }
  }

  lemma CalmRoot(h: History, rules: Rules, begun: nat, now: nat)
    requires begun <= now
    ensures Calm(h, rules, begun, now) ==> IsDirectory(h(now), []) && Look(h(now), []) == Look(h(begun), [])
  {
  }

  lemma CalmSame(h: History, rules: Rules, begun: nat, s: nat, u: nat, p: Path)
    requires begun <= s <= u
    ensures Calm(h, rules, begun, u) ==> Look(h(u), p) == Look(h(s), p) && Look(h(s), p) == Look(h(begun), p)
    ensures Calm(h, rules, begun, u) ==> IsDirectory(h(begun), [])
  {
  }

  lemma CalmLater(h: History, rules: Rules, begun: nat, before: nat, now: nat)
    requires begun <= before <= now
    ensures Calm(h, rules, begun, now) ==> Calm(h, rules, begun, before)
  {
  }

  lemma CalmPart(h: History, rules: Rules, s: nat, begun: nat, now: nat)
    requires s <= begun <= now
    ensures Calm(h, rules, s, now) ==> Calm(h, rules, begun, now)
  {
  }

  // ---- what a calm first pass has recorded and published ----

  // A draft of a calm scan belongs to a path that was looked at, and was a file or a link.
  lemma CalmDraft(h: History, rules: Rules, files: seq<Draft>, seen: Seen, now: nat, q: Path)
    requires Classified(h, rules, files, seen, now) && Calm(h, rules, seen.begun, now) && seen.begun <= now && q in Paths(files)
    requires forall p | p in seen.at :: seen.begun <= seen.at[p] <= now
    ensures q in seen.at && q != [] && Visible(rules, q) && Look(h(seen.begun), q).Some?
    ensures FileLike(Look(h(seen.begun), q).value.node)
  {
    hide Look, Paths;
    var i :| 0 <= i < |files| && files[i].path == q;
    var d := files[i];
    assert ClassifiedAs(h, rules, d, seen, now);
    if q !in seen.at {
      var t: nat :| seen.begun <= t <= now && Lists(h(t), Parent(q), q[|q| - 1]);
      CalmSees(h, rules, seen.begun, t, now, q);
    }
  }

  lemma CalmSees(h: History, rules: Rules, begun: nat, t: nat, now: nat, q: Path)
    requires q != [] && Calm(h, rules, begun, now) && begun <= t <= now && Visible(rules, q) && Lists(h(t), Parent(q), q[|q| - 1])
    ensures Look(h(begun), q).Some? && |q| <= rules.depth
  {
    VisibleParent(rules, q);
    assert Parent(q) + [q[|q| - 1]] == q;
    hide Look, Visible;
    assert h(t) == h(begun);
  }

  lemma VisibleParent(rules: Rules, q: Path)
    requires q != [] && Visible(rules, q)
    ensures Visible(rules, Parent(q)) && !rules.ignored(q)
  {
    assert q[..|q|] == q;
    assert forall i :: 0 < i <= |Parent(q)| ==> Parent(q)[..i] == q[..i];
  }

  lemma ParentListed(s: Snap, q: Path)
    requires q != [] && Look(s, q).Some?
    ensures Lists(s, Parent(q), q[|q| - 1])
  {
  }

  // Every visible path has been recorded; files and links are published, directories gone through.
  lemma {:induction false} RecordedThere(h: History, rules: Rules, identities: map<Path, Stamp>, files: seq<Draft>, seen: Seen, now: nat, q: Path)
    requires Looked(h, rules, identities, seen, now) && Listed(h, rules, files, seen, now) && Classified(h, rules, files, seen, now)
    requires [] in seen.listed && Calm(h, rules, seen.begun, now) && Visible(rules, q) && Look(h(now), q).Some?
    ensures q != [] ==> q in seen.at && q in identities && identities[q] == Look(h(now), q).value.stamp
    ensures q != [] && FileLike(Look(h(now), q).value.node) ==> q in Paths(files)
    ensures Look(h(now), q).value.node.Dir? ==> q in seen.listed
    decreases |q|
  {
    if q != [] {
      VisibleParent(rules, q);
      ParentListed(h(now), q);
      RecordedThere(h, rules, identities, files, seen, now, Parent(q));
      HandledThere(h, rules, files, seen, now, q);
      RecordedNow(h, rules, identities, files, seen, now, q);
    }
  }

  lemma HandledThere(h: History, rules: Rules, files: seq<Draft>, seen: Seen, now: nat, q: Path)
    requires q != [] && Listed(h, rules, files, seen, now) && Parent(q) in seen.listed && Calm(h, rules, seen.begun, now)
    requires seen.begun <= now && (forall p | p in seen.at :: seen.begun <= seen.at[p])
    requires Lists(h(now), Parent(q), q[|q| - 1]) && !rules.ignored(q)
    ensures Handled(h, files, seen, q)
  {
    var p := Parent(q);
    assert ListedAt(h, rules, files, seen, now, p);
    assert p + [q[|q| - 1]] == q;
    assert h(seen.listed[p]) == h(now);
    hide Handled;
  }

  lemma RecordedNow(h: History, rules: Rules, identities: map<Path, Stamp>, files: seq<Draft>, seen: Seen, now: nat, q: Path)
    requires q != [] && Handled(h, files, seen, q) && Looked(h, rules, identities, seen, now) && Classified(h, rules, files, seen, now)
    requires Calm(h, rules, seen.begun, now) && Look(h(now), q).Some?
    ensures q in seen.at && q in identities && identities[q] == Look(h(now), q).value.stamp
    ensures FileLike(Look(h(now), q).value.node) ==> q in Paths(files)
    ensures Look(h(now), q).value.node.Dir? ==> q in seen.listed
  {
    hide Classified, Look;
    assert forall p | p in seen.at :: LookedAt(h, rules, identities, seen, now, p);
    if q in Paths(files) { CalmDraft(h, rules, files, seen, now, q); }
    assert LookedAt(h, rules, identities, seen, now, q);
    assert h(seen.at[q]) == h(seen.begun) && h(now) == h(seen.begun);
  }

  lemma AllRecorded(h: History, rules: Rules, identities: map<Path, Stamp>, files: seq<Draft>, seen: Seen, now: nat)
    requires Looked(h, rules, identities, seen, now) && Listed(h, rules, files, seen, now) && Classified(h, rules, files, seen, now)
    requires [] in seen.listed && Calm(h, rules, seen.begun, now)
    ensures Complete(h(now), rules, identities)
  {
    hide Looked, Listed, Classified, Calm, Visible, Look;
    forall q | q != [] && Visible(rules, q) && Look(h(now), q).Some?
      ensures q in identities && identities[q] == Look(h(now), q).value.stamp
    {
      RecordedThere(h, rules, identities, files, seen, now, q);
    }
  }

  // ---- and what the second pass has come back to ----

  // Every directory that was looked at again was listed again.
  ghost predicate Resumed(h: History, again: map<Path, nat>, relisted: map<Path, nat>) {
    forall r | r in again :: IsDirectory(h(again[r]), r) ==> r in relisted
  }

  lemma {:induction false} CameBack(h: History, rules: Rules, identities: map<Path, Stamp>, seen: Seen, again: map<Path, nat>,
                                    relisted: map<Path, nat>, paths: set<Path>, moment: nat, now: nat, q: Path)
    requires PassTwo(h, rules, identities, seen, again, relisted, paths, moment, now) && [] in relisted
    requires Resumed(h, again, relisted)
    requires seen.begun <= moment <= now && Calm(h, rules, seen.begun, now) && Visible(rules, q) && Look(h(now), q).Some?
    ensures q != [] ==> q in again
    ensures Look(h(now), q).value.node.Dir? ==> q in relisted
    decreases |q|
  {
    if q != [] {
      VisibleParent(rules, q);
      ParentListed(h(now), q);
      var p := Parent(q);
      CameBack(h, rules, identities, seen, again, relisted, paths, moment, now, p);
      EntryBack(h, rules, identities, seen, again, relisted, paths, moment, now, q);
      hide *;
      BackAt(h, rules, identities, seen, again, relisted, paths, moment, now, q);
    }
  }

  lemma EntryBack(h: History, rules: Rules, identities: map<Path, Stamp>, seen: Seen, again: map<Path, nat>,
                  relisted: map<Path, nat>, paths: set<Path>, moment: nat, now: nat, q: Path)
    requires PassTwo(h, rules, identities, seen, again, relisted, paths, moment, now) && q != [] && Parent(q) in relisted
    requires seen.begun <= moment <= now && Calm(h, rules, seen.begun, now)
    requires Lists(h(now), Parent(q), q[|q| - 1]) && !rules.ignored(q)
    ensures q in again
  {
    hide Look;
    var p := Parent(q);
    assert RelistedAt(h, rules, again, relisted, moment, now, p);
    assert h(relisted[p]) == h(now) && p + [q[|q| - 1]] == q;
  }

  lemma BackAt(h: History, rules: Rules, identities: map<Path, Stamp>, seen: Seen, again: map<Path, nat>,
               relisted: map<Path, nat>, paths: set<Path>, moment: nat, now: nat, q: Path)
    requires PassTwo(h, rules, identities, seen, again, relisted, paths, moment, now) && q in again
    requires seen.begun <= moment <= now && Calm(h, rules, seen.begun, now) && Resumed(h, again, relisted) && Look(h(now), q).Some?
    ensures Look(h(now), q).value.node.Dir? ==> q in relisted
  {
    hide Look;
    assert AgainAt(h, rules, identities, seen, again, moment, now, q);
    assert h(again[q]) == h(now);
  }

  lemma PublishedTwice(h: History, rules: Rules, identities: map<Path, Stamp>, files: seq<Draft>, seen: Seen, again: map<Path, nat>,
                       relisted: map<Path, nat>, paths: set<Path>, moment: nat, now: nat, q: Path)
    requires Looked(h, rules, identities, seen, moment) && Listed(h, rules, files, seen, moment)
    requires Classified(h, rules, files, seen, moment) && [] in seen.listed && [] in relisted && moment <= now
    requires PassTwo(h, rules, identities, seen, again, relisted, paths, moment, now) && Calm(h, rules, seen.begun, now)
    requires Resumed(h, again, relisted)
    ensures q in paths <==> q in Paths(files)
  {
    assert Calm(h, rules, seen.begun, moment) && h(moment) == h(now) && h(seen.begun) == h(now);
    assert forall p | p in seen.at :: LookedAt(h, rules, identities, seen, moment, p);
    if q in Paths(files) {
      CalmDraft(h, rules, files, seen, moment, q);
      CameBack(h, rules, identities, seen, again, relisted, paths, moment, now, q);
    }
    if q in again {
      assert AgainAt(h, rules, identities, seen, again, moment, now, q);
      assert h(again[q]) == h(now);
      if FileLike(Look(h(now), q).value.node) { RecordedThere(h, rules, identities, files, seen, moment, q); }
    }
  }

  // ---- the published inventory of a tree that was left alone ----

  // Nothing recorded is missed by the second pass,
  lemma NothingMissed(x: Transcript, p: Path)
    requires Verified(x) && Calm(x.h, x.rules, x.seen.begun, x.end)
    ensures !Missed(x, p)
  {
    if p in x.seen.at {
      assert LookedAt(x.h, x.rules, x.identities, x.seen, x.moment, p);
      assert x.h(x.seen.at[p]) == x.h(x.end);
      CameBack(x.h, x.rules, x.identities, x.seen, x.again, x.relisted, Paths(x.files), x.moment, x.end, p);
    }
  }

  // so the inventory is the tree: exactly the visible files and links, regular files of supported types
  // with their checksums, everything else unread.
  lemma CalmScanIsExact(x: Transcript, t: nat)
    requires Verified(x) && Calm(x.h, x.rules, x.seen.begun, x.end) && x.seen.begun <= t <= x.end
    ensures ExactAt(x, t)
    ensures forall d | d in x.files ::
      && Look(x.h(t), d.path).Some?
      && var node := Look(x.h(t), d.path).value.node;
         if node.File? && x.rules.supported(d.path) then d == Draft(d.path, Supported, Some(node.digest))
         else d == Draft(d.path, Unsupported, None)
  {
    assert x.seen.begun <= x.moment && x.h(t) == x.h(x.moment);
    forall p ensures !Missed(x, p) { NothingMissed(x, p); }
    SnapshotTheorem(x);
    hide Verified, Calm, Missed;
    forall d | d in x.files
      ensures Look(x.h(t), d.path).Some?
      ensures var node := Look(x.h(t), d.path).value.node;
         if node.File? && x.rules.supported(d.path) then d == Draft(d.path, Supported, Some(node.digest))
         else d == Draft(d.path, Unsupported, None)
    {
      PublishedWasThere(x, d);
    }
  }
}
