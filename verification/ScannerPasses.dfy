// The two passes of the scanner, step by step, with other programs changing the tree between any
// two system calls: what they leave behind is all that the snapshot theorem asks for.
module ScannerPasses {
  import opened Wrappers
  import opened Scanner
  import opened ScannerCalm

  // ---- how the first pass grows ----

  ghost predicate Pass(h: History, rules: Rules, identities: map<Path, Stamp>, files: seq<Draft>, seen: Seen, now: nat) {
    && Looked(h, rules, identities, seen, now) && Listed(h, rules, files, seen, now) && Checksummed(h, files, seen, now)
    && Classified(h, rules, files, seen, now)
  }

  // Nothing at or below a path has been looked at yet.
  ghost predicate New(seen: Seen, files: seq<Draft>, q: Path) {
    && (forall r :: r in seen.at ==> !(q <= r)) && (forall r :: r in seen.listed ==> !(q <= r))
    && (forall d :: d in files ==> !(q <= d.path))
  }

  lemma LaterPass(h: History, rules: Rules, identities: map<Path, Stamp>, files: seq<Draft>, seen: Seen, now: nat, later: nat)
    requires Pass(h, rules, identities, files, seen, now) && now <= later
    ensures Pass(h, rules, identities, files, seen, later)
  {
    LaterClassified(h, rules, files, seen, now, later);
    hide ClassifiedAs;
  }

  lemma LaterClassified(h: History, rules: Rules, files: seq<Draft>, seen: Seen, now: nat, later: nat)
    requires Classified(h, rules, files, seen, now) && now <= later
    ensures Classified(h, rules, files, seen, later)
  {
    forall d | d in files ensures ClassifiedAs(h, rules, d, seen, later) {
      assert ClassifiedAs(h, rules, d, seen, now);
      if d.path in seen.at && Steady(h, d.path, seen.at[d.path], later) { assert Steady(h, d.path, seen.at[d.path], now); }
      if d.path !in seen.at { LaterUnseen(h, rules, d.path, seen.begun, now, later); }
    }
  }

  lemma LaterUnseen(h: History, rules: Rules, q: Path, begun: nat, now: nat, later: nat)
    requires q != [] && now <= later && Unseen(h, rules, q, begun, now)
    ensures Unseen(h, rules, q, begun, later)
  {
    var t: nat :| begun <= t <= now && Lists(h(t), Parent(q), q[|q| - 1]);
    assert begun <= t <= later && Lists(h(t), Parent(q), q[|q| - 1]);
  }

  lemma HandledStays(h: History, files: seq<Draft>, seen: Seen, files': seq<Draft>, seen': Seen, q: Path)
    requires Handled(h, files, seen, q) && files <= files'
    requires (q in seen.at ==> q in seen'.at && seen'.at[q] == seen.at[q]) && seen.listed.Keys <= seen'.listed.Keys
    ensures Handled(h, files', seen', q)
  {
    if q in Paths(files) {
      var i :| 0 <= i < |files| && files[i].path == q;
      assert files'[i] == files[i];
    }
  }

  lemma RecordLooked(h: History, rules: Rules, identities: map<Path, Stamp>, files: seq<Draft>, seen: Seen, now: nat, q: Path, m: Meta)
    requires Looked(h, rules, identities, seen, now) && New(seen, files, q) && q != [] && Visible(rules, q)
    requires (Parent(q) == [] || Parent(q) in seen.at) && Look(h(now), q) == Some(m)
    ensures Looked(h, rules, identities[q := m.stamp], seen.(at := seen.at[q := now]), now)
  {
    hide Look, Visible;
    var seen', identities' := seen.(at := seen.at[q := now]), identities[q := m.stamp];
    assert q !in seen.at;
    forall p | p in seen'.at ensures LookedAt(h, rules, identities', seen', now, p) {
      if p != q {
        assert LookedAt(h, rules, identities, seen, now, p);
        assert Parent(p) <= p;
      }
    }
  }

  // A listing gone through stays so.
  lemma ListedStays(h: History, rules: Rules, files: seq<Draft>, seen: Seen, files': seq<Draft>, seen': Seen, now: nat, p: Path)
    requires p in seen.listed && ListedAt(h, rules, files, seen, now, p) && files <= files'
    requires seen'.begun == seen.begun && (p in seen.at <==> p in seen'.at)
    requires p in seen'.listed && seen'.listed[p] == seen.listed[p]
    requires forall r :: r in seen.at ==> r in seen'.at && seen'.at[r] == seen.at[r]
    requires seen.listed.Keys <= seen'.listed.Keys
    ensures ListedAt(h, rules, files', seen', now, p)
  {
    forall b | b in Look(h(seen.listed[p]), p).value.node.entries && !rules.ignored(p + [b]) ensures Handled(h, files', seen', p + [b]) {
      HandledStays(h, files, seen, files', seen', p + [b]);
    }
  }

  lemma RecordListed(h: History, rules: Rules, files: seq<Draft>, seen: Seen, now: nat, q: Path)
    requires Listed(h, rules, files, seen, now) && New(seen, files, q) && seen.begun <= now
    ensures Listed(h, rules, files, seen.(at := seen.at[q := now]), now)
  {
    var seen' := seen.(at := seen.at[q := now]);
    forall p | p in seen'.listed ensures ListedAt(h, rules, files, seen', now, p) {
      assert p != q;
      ListedStays(h, rules, files, seen, files, seen', now, p);
    }
  }

  lemma RecordPass(h: History, rules: Rules, identities: map<Path, Stamp>, files: seq<Draft>, seen: Seen, now: nat, q: Path, m: Meta)
    requires Pass(h, rules, identities, files, seen, now) && New(seen, files, q) && q != [] && Visible(rules, q)
    requires (Parent(q) == [] || Parent(q) in seen.at) && Look(h(now), q) == Some(m)
    ensures Pass(h, rules, identities[q := m.stamp], files, seen.(at := seen.at[q := now]), now)
  {
    RecordLooked(h, rules, identities, files, seen, now, q, m);
    assert q !in seen.at && seen.begun <= now;
    RecordListed(h, rules, files, seen, now, q);
    RecordClassified(h, rules, files, seen, now, q);
    hide Looked, Listed, Classified, DraftRead;
  }

  lemma RecordClassified(h: History, rules: Rules, files: seq<Draft>, seen: Seen, now: nat, q: Path)
    requires Classified(h, rules, files, seen, now) && New(seen, files, q)
    ensures Classified(h, rules, files, seen.(at := seen.at[q := now]), now)
  {
    hide Unseen, Steady, Visible;
    var seen' := seen.(at := seen.at[q := now]);
    forall d | d in files ensures ClassifiedAs(h, rules, d, seen', now) {
      assert ClassifiedAs(h, rules, d, seen, now) && d.path != q;
    }
  }

  lemma DraftPass(h: History, rules: Rules, identities: map<Path, Stamp>, files: seq<Draft>, seen: Seen, now: nat,
                  d: Draft, opening: nat, closing: nat)
    requires Pass(h, rules, identities, files, seen, now) && forall e :: e in files ==> e.path != d.path
    requires d.status.Supported? ==> d.path in seen.at && DraftRead(h, d, seen.at[d.path], opening, closing, now)
    requires ClassifiedAs(h, rules, d, seen, now)
    ensures var seen' := if d.status.Supported? then seen.(read := seen.read[d.path := (opening, closing)]) else seen;
      Pass(h, rules, identities, files + [d], seen', now)
  {
    hide ClassifiedAs, DraftRead;
    var seen' := if d.status.Supported? then seen.(read := seen.read[d.path := (opening, closing)]) else seen;
    DraftListed(h, rules, files, seen, seen', now, d);
    DraftLooked(h, rules, identities, seen, seen', now);
    DraftClassified(h, rules, files, seen, seen', now, d);
    hide Listed, Looked, Classified;
  }

  lemma DraftListed(h: History, rules: Rules, files: seq<Draft>, seen: Seen, seen': Seen, now: nat, d: Draft)
    requires Listed(h, rules, files, seen, now) && seen' == seen.(read := seen'.read)
    ensures Listed(h, rules, files + [d], seen', now)
  {
    forall p | p in seen'.listed ensures ListedAt(h, rules, files + [d], seen', now, p) {
      ListedStays(h, rules, files, seen, files + [d], seen', now, p);
    }
  }

  lemma DraftLooked(h: History, rules: Rules, identities: map<Path, Stamp>, seen: Seen, seen': Seen, now: nat)
    requires Looked(h, rules, identities, seen, now) && seen' == seen.(read := seen'.read)
    ensures Looked(h, rules, identities, seen', now)
  {
    forall p | p in seen'.at ensures LookedAt(h, rules, identities, seen', now, p) {
      assert LookedAt(h, rules, identities, seen, now, p);
    }
  }

  lemma DraftClassified(h: History, rules: Rules, files: seq<Draft>, seen: Seen, seen': Seen, now: nat, d: Draft)
    requires Classified(h, rules, files, seen, now) && ClassifiedAs(h, rules, d, seen, now) && seen' == seen.(read := seen'.read)
    ensures Classified(h, rules, files + [d], seen', now)
  {
    hide ClassifiedAs;
    SameClassified(h, rules, files, seen, seen', now);
    SameClass(h, rules, d, seen, seen', now);
  }

  lemma SameClass(h: History, rules: Rules, d: Draft, seen: Seen, seen': Seen, now: nat)
    requires ClassifiedAs(h, rules, d, seen, now) && seen'.at == seen.at && seen'.begun == seen.begun
    ensures ClassifiedAs(h, rules, d, seen', now)
  {
    hide Unseen, Steady, Visible;
  }

  lemma SameClassified(h: History, rules: Rules, files: seq<Draft>, seen: Seen, seen': Seen, now: nat)
    requires Classified(h, rules, files, seen, now) && seen'.at == seen.at && seen'.begun == seen.begun
    ensures Classified(h, rules, files, seen', now)
  {
    hide ClassifiedAs;
    forall d | d in files ensures ClassifiedAs(h, rules, d, seen', now) { SameClass(h, rules, d, seen, seen', now); }
  }

  lemma Unlooked(seen: Seen, files: seq<Draft>, q: Path)
    requires New(seen, files, q)
    ensures q !in seen.at && q !in seen.listed && forall d :: d in files ==> d.path != q
  {
  }

  lemma PublishedGrew(seen: Seen, files: seq<Draft>, seen': Seen, d: Draft)
    requires seen' == seen.(read := seen'.read)
    ensures Grew(seen, files, seen', files + [d], d.path)
  {
  }

  lemma Recorded(seen: Seen, files: seq<Draft>, seen': Seen, files': seq<Draft>, q: Path, t: nat)
    requires seen' == seen.(at := seen.at[q := t], read := seen'.read) && New(seen, files, q)
    requires files <= files' && forall d :: d in files' ==> d in files || d.path == q
    ensures Grew(seen, files, seen', files', q)
  {
    Unlooked(seen, files, q);
  }

  lemma GrewAt(seen: Seen, files: seq<Draft>, seen': Seen, files': seq<Draft>, q: Path)
    requires Grew(seen, files, seen', files', q) && q in seen.at
    ensures q in seen'.at && seen'.at[q] == seen.at[q]
  {
  }

  // What looking at everything at and below `q` may have added.
  ghost predicate Grew(seen: Seen, files: seq<Draft>, seen': Seen, files': seq<Draft>, q: Path) {
    && seen'.begun == seen.begun && files <= files'
    && (forall r :: r in seen.at ==> r in seen'.at && seen'.at[r] == seen.at[r])
    && (forall r :: r in seen.listed ==> r in seen'.listed && seen'.listed[r] == seen.listed[r])
    && (forall r :: r in seen'.at ==> r in seen.at || q <= r)
    && (forall r :: r in seen'.listed ==> r in seen.listed || q <= r)
    && (forall d :: d in files' ==> d in files || q <= d.path)
  }

  lemma GrewOn(s0: Seen, f0: seq<Draft>, s1: Seen, f1: seq<Draft>, s2: Seen, f2: seq<Draft>, p: Path, q: Path)
    requires Grew(s0, f0, s1, f1, p) && Grew(s1, f1, s2, f2, q) && p <= q
    ensures Grew(s0, f0, s2, f2, p)
  {
  }

  // Siblings do not get in each other's way.
  lemma StillNew(seen: Seen, files: seq<Draft>, seen': Seen, files': seq<Draft>, q: Path, q': Path)
    requires Grew(seen, files, seen', files', q) && New(seen, files, q') && |q| == |q'| && q != q'
    ensures New(seen', files', q')
  {
    forall r | r in seen'.at ensures !(q' <= r) { Siblings(q, q', r); }
    forall r | r in seen'.listed ensures !(q' <= r) { Siblings(q, q', r); }
    forall d | d in files' ensures !(q' <= d.path) { Siblings(q, q', d.path); }
  }

  lemma Siblings(q: Path, q': Path, r: Path)
    requires |q| == |q'| && q != q'
    ensures !(q <= r) || !(q' <= r)
  {
    assert q <= r ==> q == r[..|q|];
    assert q' <= r ==> q' == r[..|q'|];
  }

  ghost predicate Below(seen: Seen, files: seq<Draft>, p: Path) {
    p !in seen.listed && forall b: string :: New(seen, files, p + [b])
  }

  lemma Unchanging(seen: Seen, files: seq<Draft>, p: Path)
    ensures Grew(seen, files, seen, files, p)
  {
  }

  lemma AllNew(seen: Seen, files: seq<Draft>, p: Path)
    requires Below(seen, files, p)
    ensures forall b: string :: New(seen, files, p + [b])
  {
  }

  lemma BeginsBefore(h: History, rules: Rules, identities: map<Path, Stamp>, files: seq<Draft>, seen: Seen, now: nat, p: Path)
    requires Pass(h, rules, identities, files, seen, now)
    ensures Begun(seen, p) <= now
  {
    assert p in seen.at ==> LookedAt(h, rules, identities, seen, now, p);
  }

  // One entry gone through: the others are as they were.
  lemma Stepped(h: History, s0: Seen, f0: seq<Draft>, s1: Seen, f1: seq<Draft>, s2: Seen, f2: seq<Draft>,
                p: Path, b: string, rest: set<string>, listing: set<string>, rules: Rules)
    requires Grew(s0, f0, s1, f1, p) && Grew(s1, f1, s2, f2, p + [b]) && b !in rest && p !in s1.listed
    requires forall c :: c in rest ==> New(s1, f1, p + [c])
    requires forall c :: c in listing && c !in rest && c != b && !rules.ignored(p + [c]) ==> Handled(h, f1, s1, p + [c])
    ensures Grew(s0, f0, s2, f2, p) && p !in s2.listed && (p in s1.at ==> p in s2.at)
    ensures Begun(s2, p) == Begun(s1, p) && s2.begun == s1.begun
    ensures forall c :: c in rest ==> New(s2, f2, p + [c])
    ensures forall c :: c in listing && c !in rest && c != b && !rules.ignored(p + [c]) ==> Handled(h, f2, s2, p + [c])
  {
    GrewOn(s0, f0, s1, f1, s2, f2, p, p + [b]);
    forall c | c in rest ensures New(s2, f2, p + [c]) {
      assert (p + [b])[|p|] != (p + [c])[|p|];
      StillNew(s1, f1, s2, f2, p + [b], p + [c]);
    }
    forall c | c in listing && c !in rest && c != b && !rules.ignored(p + [c]) ensures Handled(h, f2, s2, p + [c]) {
      HandledStays(h, f1, s1, f2, s2, p + [c]);
    }
  }

  lemma ListedGrew(s0: Seen, f0: seq<Draft>, s1: Seen, f1: seq<Draft>, s2: Seen, p: Path)
    requires Grew(s0, f0, s1, f1, p) && s2 == s1.(listed := s2.listed) && p !in s1.listed && p in s2.listed
    requires s2.listed == s1.listed[p := s2.listed[p]]
    ensures Grew(s0, f0, s2, f1, p)
  {
  }

  lemma NewBelow(seen: Seen, files: seq<Draft>, seen': Seen, q: Path, t: nat)
    requires New(seen, files, q) && seen' == seen.(at := seen.at[q := t], read := seen'.read)
    ensures Below(seen', files, q)
  {
    forall b: string ensures New(seen', files, q + [b]) {
      assert q <= q + [b];
    }
  }

  // A directory whose listing has been gone through.
  lemma ListPass(h: History, rules: Rules, identities: map<Path, Stamp>, files: seq<Draft>, seen: Seen, now: nat, p: Path, t: nat)
    requires Pass(h, rules, identities, files, seen, now) && (p == [] || p in seen.at) && p !in seen.listed
    requires Begun(seen, p) <= t <= now && Look(h(t), p).Some? && Look(h(t), p).value.node.Dir?
    requires forall b | b in Look(h(t), p).value.node.entries :: !rules.ignored(p + [b]) ==> Handled(h, files, seen, p + [b])
    ensures Pass(h, rules, identities, files, seen.(listed := seen.listed[p := t]), now)
  {
    hide DraftRead;
    var seen' := seen.(listed := seen.listed[p := t]);
    ListLooked(h, rules, identities, seen, seen', now);
    SameClassified(h, rules, files, seen, seen', now);
    hide Classified;
    forall r | r in seen'.listed ensures ListedAt(h, rules, files, seen', now, r) {
      if r != p { ListedStays(h, rules, files, seen, files, seen', now, r); }
      else { NewListing(h, rules, files, seen, seen', now, p); }
    }
  }

  lemma NewListing(h: History, rules: Rules, files: seq<Draft>, seen: Seen, seen': Seen, now: nat, p: Path)
    requires seen' == seen.(listed := seen'.listed) && seen.listed.Keys <= seen'.listed.Keys && p in seen'.listed
    requires (p == [] || p in seen.at) && Begun(seen, p) <= seen'.listed[p] <= now
    requires Look(h(seen'.listed[p]), p).Some? && Look(h(seen'.listed[p]), p).value.node.Dir?
    requires forall b | b in Look(h(seen'.listed[p]), p).value.node.entries :: !rules.ignored(p + [b]) ==> Handled(h, files, seen, p + [b])
    ensures ListedAt(h, rules, files, seen', now, p)
  {
    forall b | b in Look(h(seen'.listed[p]), p).value.node.entries && !rules.ignored(p + [b]) ensures Handled(h, files, seen', p + [b]) {
      HandledStays(h, files, seen, files, seen', p + [b]);
    }
  }

  lemma ListLooked(h: History, rules: Rules, identities: map<Path, Stamp>, seen: Seen, seen': Seen, now: nat)
    requires Looked(h, rules, identities, seen, now) && seen' == seen.(listed := seen'.listed)
    ensures Looked(h, rules, identities, seen', now)
  {
    forall p | p in seen'.at ensures LookedAt(h, rules, identities, seen', now, p) {
      assert LookedAt(h, rules, identities, seen, now, p);
    }
  }

  // ---- how the second pass grows ----

  // Nothing at or below a path has been looked at again yet.
  ghost predicate NewAgain(again: map<Path, nat>, relisted: map<Path, nat>, q: Path) {
    (forall r :: r in again ==> !(q <= r)) && (forall r :: r in relisted ==> !(q <= r))
  }

  // Directories at and below a path that were looked at again have been listed again.
  ghost predicate Revived(h: History, again: map<Path, nat>, relisted: map<Path, nat>, q: Path) {
    forall r | r in again && q <= r :: Look(h(again[r]), r).Some? && Look(h(again[r]), r).value.node.Dir? ==> r in relisted
  }

  ghost predicate GrewAgain(again: map<Path, nat>, relisted: map<Path, nat>, again': map<Path, nat>, relisted': map<Path, nat>, q: Path) {
    && (forall r :: r in again ==> r in again' && again'[r] == again[r])
    && (forall r :: r in relisted ==> r in relisted' && relisted'[r] == relisted[r])
    && (forall r :: r in again' ==> r in again || q <= r)
    && (forall r :: r in relisted' ==> r in relisted || q <= r)
  }

  lemma AgainPass(h: History, rules: Rules, identities: map<Path, Stamp>, seen: Seen, again: map<Path, nat>,
                  relisted: map<Path, nat>, paths: set<Path>, moment: nat, now: nat, later: nat, q: Path, m: Meta)
    requires PassTwo(h, rules, identities, seen, again, relisted, paths, moment, now) && moment <= now <= later
    requires NewAgain(again, relisted, q) && q != [] && (Parent(q) == [] || Parent(q) in again) && Visible(rules, q)
    requires Look(h(later), q) == Some(m) && q in seen.at && q in identities && m.stamp == identities[q]
    ensures PassTwo(h, rules, identities, seen, again[q := later], relisted,
                    if FileLike(m.node) then paths + {q} else paths, moment, later)
  {
    var again' := again[q := later];
    assert q !in again && q !in relisted;
    AgainRelisted(h, rules, identities, seen, again, relisted, paths, moment, now, later, q);
    forall p | p in again' ensures AgainAt(h, rules, identities, seen, again', moment, later, p) {
      if p != q { assert AgainAt(h, rules, identities, seen, again, moment, now, p); }
    }
  }

  lemma AgainGrew(again: map<Path, nat>, relisted: map<Path, nat>, q: Path, later: nat)
    requires NewAgain(again, relisted, q)
    ensures GrewAgain(again, relisted, again[q := later], relisted, q)
    ensures q !in relisted && forall b: string :: NewAgain(again[q := later], relisted, q + [b])
  {
    forall b: string ensures NewAgain(again[q := later], relisted, q + [b]) {
      assert q <= q + [b];
    }
  }

  lemma AgainRelisted(h: History, rules: Rules, identities: map<Path, Stamp>, seen: Seen, again: map<Path, nat>,
                      relisted: map<Path, nat>, paths: set<Path>, moment: nat, now: nat, later: nat, q: Path)
    requires PassTwo(h, rules, identities, seen, again, relisted, paths, moment, now) && now <= later
    requires q !in again && q !in relisted && q != []
    ensures forall p | p in relisted :: RelistedAt(h, rules, again[q := later], relisted, moment, later, p)
  {
    forall p | p in relisted ensures RelistedAt(h, rules, again[q := later], relisted, moment, later, p) {
      assert RelistedAt(h, rules, again, relisted, moment, now, p);
    }
  }

  lemma UnchangingAgain(again: map<Path, nat>, relisted: map<Path, nat>, q: Path)
    ensures GrewAgain(again, relisted, again, relisted, q)
  {
  }

  lemma GrewAgainOn(a0: map<Path, nat>, l0: map<Path, nat>, a1: map<Path, nat>, l1: map<Path, nat>,
                    a2: map<Path, nat>, l2: map<Path, nat>, p: Path, q: Path)
    requires GrewAgain(a0, l0, a1, l1, p) && GrewAgain(a1, l1, a2, l2, q) && p <= q
    ensures GrewAgain(a0, l0, a2, l2, p)
  {
  }

  lemma KeptAgain(a1: map<Path, nat>, l1: map<Path, nat>, a2: map<Path, nat>, l2: map<Path, nat>, q: Path)
    requires GrewAgain(a1, l1, a2, l2, q) && q in a1
    ensures q in a2 && a2[q] == a1[q]
  {
  }

  lemma LeafRevived(h: History, again: map<Path, nat>, relisted: map<Path, nat>, again': map<Path, nat>, q: Path, t: nat, m: Meta)
    requires NewAgain(again, relisted, q) && again' == again[q := t] && Look(h(t), q) == Some(m) && !m.node.Dir?
    ensures Revived(h, again', relisted, q)
  {
  }

  lemma LaterPassTwo(h: History, rules: Rules, identities: map<Path, Stamp>, seen: Seen, again: map<Path, nat>,
                     relisted: map<Path, nat>, paths: set<Path>, moment: nat, now: nat, later: nat)
    requires PassTwo(h, rules, identities, seen, again, relisted, paths, moment, now) && now <= later
    ensures PassTwo(h, rules, identities, seen, again, relisted, paths, moment, later)
  {
    forall p | p in again ensures AgainAt(h, rules, identities, seen, again, moment, later, p) {
      assert AgainAt(h, rules, identities, seen, again, moment, now, p);
    }
    forall p | p in relisted ensures RelistedAt(h, rules, again, relisted, moment, later, p) {
      assert RelistedAt(h, rules, again, relisted, moment, now, p);
    }
  }

  lemma RelistPass(h: History, rules: Rules, identities: map<Path, Stamp>, seen: Seen, again: map<Path, nat>,
                   relisted: map<Path, nat>, paths: set<Path>, moment: nat, now: nat, p: Path, t: nat)
    requires PassTwo(h, rules, identities, seen, again, relisted, paths, moment, now) && p !in relisted
    requires moment <= t <= now && (p in again ==> again[p] <= t) && (p == [] || p in again)
    requires Look(h(t), p).Some? && Look(h(t), p).value.node.Dir?
    requires forall b | b in Look(h(t), p).value.node.entries :: !rules.ignored(p + [b]) ==> p + [b] in again
    ensures PassTwo(h, rules, identities, seen, again, relisted[p := t], paths, moment, now)
  {
    var relisted' := relisted[p := t];
    forall r | r in relisted' ensures RelistedAt(h, rules, again, relisted', moment, now, r) {
      if r != p { assert RelistedAt(h, rules, again, relisted, moment, now, r); }
    }
  }

  lemma StillNewAgain(again: map<Path, nat>, relisted: map<Path, nat>, again': map<Path, nat>, relisted': map<Path, nat>, q: Path, q': Path)
    requires GrewAgain(again, relisted, again', relisted', q) && NewAgain(again, relisted, q') && |q| == |q'| && q != q'
    ensures NewAgain(again', relisted', q')
  {
    forall r | r in again' ensures !(q' <= r) { Siblings(q, q', r); }
    forall r | r in relisted' ensures !(q' <= r) { Siblings(q, q', r); }
  }

  lemma NextName(p: Path, r: Path)
    ensures p < r ==> exists b: string :: p + [b] <= r
  {
    if p < r { assert p + [r[|p|]] <= r; }
  }

  lemma NoneBelow(h: History, again: map<Path, nat>, relisted: map<Path, nat>, p: Path)
    requires forall b: string :: NewAgain(again, relisted, p + [b])
    ensures RevivedBelow(h, again, relisted, p)
  {
    forall r | r in again ensures !(p < r) {
      NextName(p, r);
    }
  }

  lemma VisibleChild(rules: Rules, p: Path, b: string)
    requires Visible(rules, p) && !rules.ignored(p + [b])
    ensures Visible(rules, p + [b])
  {
    forall i | 0 < i <= |p + [b]| ensures !rules.ignored((p + [b])[..i]) {
      if i == |p + [b]| { assert (p + [b])[..i] == p + [b]; } else { assert (p + [b])[..i] == p[..i]; }
    }
  }

  lemma GrewKeys(a1: map<Path, nat>, l1: map<Path, nat>, a2: map<Path, nat>, l2: map<Path, nat>, q: Path)
    requires GrewAgain(a1, l1, a2, l2, q)
    ensures forall r :: r in a1 ==> r in a2 && a2[r] == a1[r]
    ensures forall r :: r in a2 && r !in a1 ==> q <= r
  {
  }

  lemma RelistedGrew(h: History, a0: map<Path, nat>, l0: map<Path, nat>, a: map<Path, nat>, l: map<Path, nat>, p: Path, t: nat)
    requires GrewAgain(a0, l0, a, l, p) && RevivedBelow(h, a, l, p) && p !in l
    ensures GrewAgain(a0, l0, a, l[p := t], p) && Revived(h, a, l[p := t], p)
  {
    forall r | r in a && p <= r ensures r == p || p < r {
    }
  }

  // One entry verified: the others are as they were.
  lemma Verifies(h: History, a0: map<Path, nat>, l0: map<Path, nat>, a1: map<Path, nat>, l1: map<Path, nat>,
                 a2: map<Path, nat>, l2: map<Path, nat>, p: Path, b: string, rest: set<string>)
    requires GrewAgain(a0, l0, a1, l1, p) && GrewAgain(a1, l1, a2, l2, p + [b]) && b !in rest && p !in l1
    requires (forall c :: c in rest ==> NewAgain(a1, l1, p + [c])) && RevivedBelow(h, a1, l1, p) && Revived(h, a2, l2, p + [b])
    requires NewAgain(a1, l1, p + [b])
    ensures GrewAgain(a0, l0, a2, l2, p) && p !in l2 && RevivedBelow(h, a2, l2, p)
    ensures forall c :: c in rest ==> NewAgain(a2, l2, p + [c])
  {
    forall c | c in rest ensures NewAgain(a2, l2, p + [c]) {
      assert (p + [b])[|p|] != (p + [c])[|p|];
      StillNewAgain(a1, l1, a2, l2, p + [b], p + [c]);
    }
    forall r | r in a2 && p < r && Look(h(a2[r]), r).Some? && Look(h(a2[r]), r).value.node.Dir? ensures r in l2 {
      if r in a1 { assert a2[r] == a1[r]; }
    }
  }

  ghost predicate RevivedBelow(h: History, again: map<Path, nat>, relisted: map<Path, nat>, p: Path) {
    forall r | r in again && p < r :: Look(h(again[r]), r).Some? && Look(h(again[r]), r).value.node.Dir? ==> r in relisted
  }

  // ---- drafts ----

  // Of a file that held still the digest is its own.
  lemma DigestOf(h: History, p: Path, m: Meta, s: nat, opening: nat, closing: nat, digest: string)
    requires Look(h(s), p) == Some(m) && m.node.File? && s <= opening <= closing && Resolve(h(opening), p).Some?
    requires var o := Resolve(h(opening), p).value; Unchanged(h, o, opening, closing) ==> h(opening).objects[o].node == File(digest)
    ensures Steady(h, p, s, closing) ==> digest == m.node.digest
  {
    if Steady(h, p, s, closing) {
      var o := Resolve(h(opening), p).value;
      forall t: nat | opening <= t <= closing ensures o in h(t).objects && h(t).objects[o] == h(opening).objects[o] {
        assert Resolve(h(t), p) == Resolve(h(s), p) && Look(h(t), p) == Look(h(s), p);
      }
    }
  }

  // A regular file before and after, the same as far as identities are compared.
  ghost predicate SameAt(h: History, rules: Rules, p: Path, s: nat, u: nat) {
    && Look(h(s), p).Some? && Look(h(s), p).value.node.File? && Look(h(u), p).Some? && Look(h(u), p).value.node.File?
    && rules.coarse(Look(h(u), p).value.stamp) == rules.coarse(Look(h(s), p).value.stamp)
  }

  // An entry that was listed and could not be looked at.
  lemma NotSeen(h: History, rules: Rules, seen: Seen, q: Path, listing: nat, now: nat)
    requires q != [] && Visible(rules, q) && q !in seen.at && seen.begun <= listing <= now
    requires Lists(h(listing), Parent(q), q[|q| - 1]) && (|q| > rules.depth || Look(h(now), q).None?)
    ensures ClassifiedAs(h, rules, Draft(q, ReadStatus.Failed, None), seen, now)
  {
  }

  lemma BeginsNow(h: History, rules: Rules, identities: map<Path, Stamp>, files: seq<Draft>, seen: Seen, now: nat)
    requires Pass(h, rules, identities, files, seen, now)
    ensures seen.begun <= now
  {
  }

  lemma ListsEntry(s: Snap, p: Path, b: string)
    requires IsDirectory(s, p) && b in Look(s, p).value.node.entries
    ensures Lists(s, p, b) && Parent(p + [b]) == p && (p + [b])[|p + [b]| - 1] == b
  {
  }

  // ---- the scan itself ----

  class Scan {
    const history: History
    const rules: Rules
    var now: nat
    var identities: map<Path, Stamp>
    var files: seq<Draft>
    var paths: set<Path>
    ghost var seen: Seen
    ghost var again: map<Path, nat>
    ghost var relisted: map<Path, nat>

    constructor (h: History, rules: Rules, now: nat)
      ensures history == h && this.rules == rules && this.now == now
      ensures identities == map[] && files == [] && paths == {} && again == map[] && relisted == map[]
      ensures seen == Seen(now, map[], map[], map[])
    {
      history, this.rules, this.now := h, rules, now;
      identities, files, paths := map[], [], {};
      seen, again, relisted := Seen(now, map[], map[], map[]), map[], map[];
    }

    // Every system call takes some time, in which other programs go on.
    method Wait()
      modifies `now
      ensures now >= old(now)
    {
      var d: int := *;
      if d > 0 { now := now + d; }
    }

    // A path that is too long cannot be looked at.
    method Lstat(p: Path) returns (m: Option<Meta>)
      modifies `now
      ensures now >= old(now) && m == if |p| <= rules.depth then Look(history(now), p) else None
    {
      Wait();
      m := if |p| <= rules.depth then Look(history(now), p) else None;
    }

    method Readdir(p: Path) returns (names: Option<set<string>>)
      modifies `now
      ensures now >= old(now)
      ensures names.Some? <==> Look(history(now), p).Some? && Look(history(now), p).value.node.Dir?
      ensures names.Some? ==> names.value == Look(history(now), p).value.node.entries.Keys
    {
      Wait();
      var m := Look(history(now), p);
      names := if m.Some? && m.value.node.Dir? then Some(m.value.node.entries.Keys) else None;
    }

    // Streams the bytes of whatever file the path denotes when it is opened.  If the file changes
    // while it is read, the digest can be that of no moment at all.
    method Checksum(p: Path) returns (digest: Option<string>, ghost opening: nat)
      modifies `now
      ensures old(now) <= opening <= now
      ensures digest.Some? <==> Look(history(opening), p).Some? && Look(history(opening), p).value.node.File?
      ensures digest.Some? ==>
        var o := Resolve(history(opening), p).value;
        Unchanged(history, o, opening, now) ==> history(opening).objects[o].node == File(digest.value)
    {
      Wait();
      opening := now;
      var m := Look(history(now), p);
      if m.Some? && m.value.node.File? {
        digest := Some(m.value.node.digest);
      } else {
        digest := None;
      }
      Wait();
    }

    // Still a regular file, with the same identity as far as it is compared.
    method SameFile(p: Path, before: Meta) returns (same: bool)
      requires |p| <= rules.depth
      modifies `now
      ensures now >= old(now)
      ensures same <==>
        && Look(history(now), p).Some? && Look(history(now), p).value.node.File?
        && rules.coarse(Look(history(now), p).value.stamp) == rules.coarse(before.stamp)
    {
      var after := Lstat(p);
      same := after.Some? && after.value.node.File? && rules.coarse(after.value.stamp) == rules.coarse(before.stamp);
    }

    // The entry of one file: read and verified when its type is supported, failed when anything
    // about it changes meanwhile.  `m` is what the path denoted when it was looked at.
    method FileDraft(p: Path, ghost m: Meta) returns (d: Draft, ghost opening: nat, ghost closing: nat)
      requires |p| <= rules.depth && Look(history(now), p) == Some(m) && m.node.File?
      modifies `now
      ensures old(now) <= opening <= closing <= now && d.path == p
      ensures d.status.Supported? ==>
        && rules.supported(p) && d.checksum.Some? && Resolve(history(opening), p).Some?
        && var o := Resolve(history(opening), p).value;
          Unchanged(history, o, opening, closing) ==> history(opening).objects[o].node == File(d.checksum.value)
      ensures d.status.Supported? ==> exists s :: old(now) <= s <= opening && SameAt(history, rules, p, s, now)
      ensures !d.status.Supported? ==> d.checksum.None?
      ensures d.status.Unsupported? ==> !rules.supported(p) || !Steady(history, p, old(now), now)
      ensures d.status.Failed? ==> !Steady(history, p, old(now), now)
    {
      opening, closing := now, now;
      var failed := Draft(p, ReadStatus.Failed, None);
      var stats := Lstat(p);
      ghost var looked := now;
      if stats.None? { return failed, now, now; }
      if !stats.value.node.File? || !rules.supported(p) { return Draft(p, Unsupported, None), now, now; }
      var checksum;
      checksum, opening := Checksum(p);
      closing := now;
      if checksum.None? { return failed, now, now; }
      DigestOf(history, p, m, old(now), opening, closing, checksum.value);
      var same := SameFile(p, stats.value);
      if !same { return failed, now, now; }
      var verified := stats;
      if rules.image(p) {
        verified := Lstat(p);
        looked := now;
        if verified.None? || !verified.value.node.File? { return failed, now, now; }
        var repeated;
        repeated, opening := Checksum(p);
        closing := now;
        if repeated.Some? { DigestOf(history, p, m, old(now), opening, closing, repeated.value); }
        same := SameFile(p, verified.value);
        if repeated.None? || !same || repeated != checksum { return failed, now, now; }
      }
      same := SameFile(p, verified.value);
      if !same { return failed, now, now; }
      assert SameAt(history, rules, p, looked, now);
      return Draft(p, Supported, checksum), opening, closing;
    }

    // ---- the first pass ----

    ghost predicate One()
      reads this
    {
      Pass(history, rules, identities, files, seen, now)
    }

    // Records one entry that is there: its stamp, and its draft unless it is a directory.
    method Record(q: Path, m: Meta)
      requires One() && New(seen, files, q) && q != [] && (Parent(q) == [] || Parent(q) in seen.at)
      requires Look(history(now), q) == Some(m) && |q| <= rules.depth && Visible(rules, q)
      modifies this
      ensures One() && now >= old(now) && q in seen.at && Look(history(seen.at[q]), q) == Some(m)
      ensures seen == old(seen).(at := old(seen).at[q := old(now)], read := seen.read)
      ensures FileLike(m.node) ==> q in Paths(files)
      ensures m.node.Dir? ==> files == old(files)
      ensures old(files) <= files && forall d :: d in files ==> d in old(files) || d.path == q
      ensures unchanged(`again) && unchanged(`relisted) && unchanged(`paths)
    {
      hide Pass, SameAt, Steady, Visible, Unseen;
      assert q !in seen.at && forall d :: d in files ==> d.path != q;
      RecordPass(history, rules, identities, files, seen, now, q, m);
      identities := identities[q := m.stamp];
      seen := seen.(at := seen.at[q := now]);
      if m.node.Link? {
        Publish(Draft(q, Unsupported, None), now, now);
      } else if m.node.File? {
        ghost var before := now;
        var draft;
        ghost var opening, closing;
        draft, opening, closing := FileDraft(q, m);
        LaterPass(history, rules, identities, files, seen, before, now);
        Publish(draft, opening, closing);
      }
    }

    method Publish(d: Draft, ghost opening: nat, ghost closing: nat)
      requires One() && (forall e :: e in files ==> e.path != d.path) && ClassifiedAs(history, rules, d, seen, now)
      requires d.status.Supported? ==> d.path in seen.at && DraftRead(history, d, seen.at[d.path], opening, closing, now)
      modifies `files, `seen
      ensures One() && files == old(files) + [d] && seen == old(seen).(read := seen.read) && d.path in Paths(files)
    {
      DraftPass(history, rules, identities, files, seen, now, d, opening, closing);
      files := files + [d];
      assert files[|files| - 1] == d;
      if d.status.Supported? { seen := seen.(read := seen.read[d.path := (opening, closing)]); }
    }

    // `listing` is when the parent's listing named the entry.
    method ScanEntry(q: Path, ghost listing: nat) returns (r: Result<()>)
      requires One() && New(seen, files, q) && q != [] && (Parent(q) == [] || Parent(q) in seen.at) && |q| <= rules.depth + 1
      requires Visible(rules, q) && seen.begun <= listing <= now && Lists(history(listing), Parent(q), q[|q| - 1])
      modifies this
      decreases rules.depth + 1 - |q|, 0
      ensures One() && now >= old(now) && Grew(old(seen), old(files), seen, files, q)
      ensures unchanged(`again) && unchanged(`relisted) && unchanged(`paths)
      ensures r.Ok? ==> Handled(history, files, seen, q)
      ensures r.Failed? ==> !Calm(history, rules, seen.begun, now)
    {
      hide Pass, New, Grew, Calm, Visible, Lists, ClassifiedAs;
      ghost var before, seen0, files0 := now, seen, files;
      var m := Lstat(q);
      LaterPass(history, rules, identities, files, seen, before, now);
      if m.None? {
        Unlooked(seen, files, q);
        NotSeen(history, rules, seen, q, listing, now);
        Publish(Draft(q, ReadStatus.Failed, None), now, now);
        PublishedGrew(seen0, files0, seen, Draft(q, ReadStatus.Failed, None));
        return Ok(());
      }
      ghost var t := now;
      Record(q, m.value);
      Recorded(seen0, files0, seen, files, q, t);
      if m.value.node.Dir? {
        NewBelow(seen0, files0, seen, q, t);
        ghost var seen1, files1 := seen, files;
        CalmLook(history, rules, seen.begun, t, now, q);
        r := ScanDirectory(q);
        GrewOn(seen0, files0, seen1, files1, seen, files, q, q);
        assert seen.at[q] == t && seen.begun == seen1.begun by { GrewAt(seen1, files1, seen, files, q); }
        return;
      }
      return Ok(());
    }

    // The names in a directory, if it still is one.
    method ListDirectory(p: Path) returns (names: Option<set<string>>)
      requires One() && |p| <= rules.depth && (Calm(history, rules, seen.begun, now) ==> IsDirectory(history(now), p))
      modifies `now
      ensures One() && now >= old(now)
      ensures names.Some? ==> IsDirectory(history(now), p) && names.value == Look(history(now), p).value.node.entries.Keys
      ensures names.None? ==> !Calm(history, rules, seen.begun, now)
    {
      hide Pass, Calm;
      ghost var before := now;
      BeginsNow(history, rules, identities, files, seen, now);
      var m := Lstat(p);
      CalmAlways(history, rules, seen.begun, before, now, p);
      LaterPass(history, rules, identities, files, seen, before, now);
      if m.None? || !m.value.node.Dir? { return None; }
      ghost var looked := now;
      names := Readdir(p);
      CalmAlways(history, rules, seen.begun, looked, now, p);
      LaterPass(history, rules, identities, files, seen, looked, now);
    }

    method ScanDirectory(p: Path) returns (r: Result<()>)
      requires One() && (p == [] || p in seen.at) && |p| <= rules.depth && Below(seen, files, p) && Visible(rules, p)
      requires Calm(history, rules, seen.begun, now) ==> IsDirectory(history(now), p)
      modifies this
      decreases rules.depth - |p|, 1
      ensures One() && now >= old(now) && Grew(old(seen), old(files), seen, files, p)
      ensures unchanged(`again) && unchanged(`relisted) && unchanged(`paths)
      ensures r.Ok? ==> p in seen.listed
      ensures r.Failed? ==> !Calm(history, rules, seen.begun, now)
    {
      hide Pass, New, Grew, Handled, Calm, Visible, Lists, Look;
      ghost var seen0, files0 := seen, files;
      Unchanging(seen0, files0, p);
      var names := ListDirectory(p);
      if names.None? { return Result.Failed; }
      ghost var t := now;
      ghost var listing := names.value;
      var rest := names.value;
      BeginsBefore(history, rules, identities, files, seen, now, p);
      BeginsNow(history, rules, identities, files, seen, now);
      AllNew(seen, files, p);
      while rest != {}
        invariant rest <= listing && One() && now >= t && Grew(seen0, files0, seen, files, p)
        invariant (p == [] || p in seen.at) && seen.begun <= t && Begun(seen, p) <= t && p !in seen.listed
        invariant forall b :: b in rest ==> New(seen, files, p + [b])
        invariant forall b :: b in listing && b !in rest && !rules.ignored(p + [b]) ==> Handled(history, files, seen, p + [b])
        invariant again == old(again) && relisted == old(relisted) && paths == old(paths)
      {
        var b :| b in rest;
        rest := rest - {b};
        var q := p + [b];
        if !rules.ignored(q) {
          assert Parent(q) == p;
          VisibleChild(rules, p, b);
          ListsEntry(history(t), p, b);
          ghost var seen1, files1 := seen, files;
          r := ScanEntry(q, t);
          Stepped(history, seen0, files0, seen1, files1, seen, files, p, b, rest, listing, rules);
          if r.Failed? { return; }
        }
      }
      ListPass(history, rules, identities, files, seen, now, p, t);
      ghost var seen1 := seen;
      seen := seen.(listed := seen.listed[p := t]);
      ListedGrew(seen0, files0, seen1, files, seen, p);
      return Ok(());
    }

    // ---- the second pass ----

    ghost predicate Two(moment: nat)
      reads this
    {
      && PassTwo(history, rules, identities, seen, again, relisted, paths, moment, now)
      && seen.at.Keys == identities.Keys && seen.begun <= moment
    }

    // The entry is still there with the identity that the first pass recorded.
    method VerifyEntry(q: Path, ghost moment: nat) returns (r: Result<()>)
      requires Two(moment) && moment <= now && NewAgain(again, relisted, q) && q != [] && (Parent(q) == [] || Parent(q) in again)
      requires Visible(rules, q) && |q| <= rules.depth + 1
      requires Calm(history, rules, seen.begun, now) ==> Complete(history(now), rules, identities) && Within(history(now), rules, q)
      modifies `now, `paths, `again, `relisted
      decreases rules.depth + 1 - |q|, 0
      ensures Two(moment) && now >= old(now) && GrewAgain(old(again), old(relisted), again, relisted, q)
      ensures r.Ok? ==> q in again && Revived(history, again, relisted, q)
      ensures r.Failed? ==> !Calm(history, rules, seen.begun, now)
    {
      hide PassTwo, NewAgain, GrewAgain, Revived, Look, Calm, Complete, Within;
      ghost var before, again0, relisted0 := now, again, relisted;
      UnchangingAgain(again, relisted, q);
      var m := Lstat(q);
      CalmEntry(history, rules, identities, seen.begun, before, now, q);
      if m.None? || q !in identities || identities[q] != m.value.stamp {
        LaterPassTwo(history, rules, identities, seen, again, relisted, paths, moment, before, now);
        return Result.Failed;
      }
      AgainPass(history, rules, identities, seen, again, relisted, paths, moment, before, now, q, m.value);
      AgainGrew(again, relisted, q, now);
      again := again[q := now];
      if m.value.node.Dir? {
        ghost var again1 := again;
        CalmLook(history, rules, seen.begun, now, now, q);
        r := VisiblePaths(q, moment);
        GrewAgainOn(again0, relisted0, again1, relisted0, again, relisted, q, q);
        KeptAgain(again1, relisted0, again, relisted, q);
      } else {
        if FileLike(m.value.node) { paths := paths + {q}; }
        LeafRevived(history, again0, relisted, again, q, now, m.value);
        return Ok(());
      }
    }

    method VisiblePaths(p: Path, ghost moment: nat) returns (r: Result<()>)
      requires Two(moment) && moment <= now && (p == [] || p in again) && |p| <= rules.depth && Visible(rules, p) && p !in relisted
      requires (p in again ==> again[p] <= now) && forall b: string :: NewAgain(again, relisted, p + [b])
      requires Calm(history, rules, seen.begun, now) ==> Complete(history(now), rules, identities) && IsDirectory(history(now), p)
      modifies `now, `paths, `again, `relisted
      decreases rules.depth - |p|, 1
      ensures Two(moment) && now >= old(now) && GrewAgain(old(again), old(relisted), again, relisted, p)
      ensures r.Ok? ==> p in relisted && Revived(history, again, relisted, p)
      ensures r.Failed? ==> !Calm(history, rules, seen.begun, now)
    {
      hide PassTwo, NewAgain, GrewAgain, Revived, RevivedBelow, Calm, Complete, Within;
      ghost var before, again0, relisted0 := now, again, relisted;
      UnchangingAgain(again, relisted, p);
      NoneBelow(history, again, relisted, p);
      var names := Readdir(p);
      LaterPassTwo(history, rules, identities, seen, again, relisted, paths, moment, before, now);
      CalmDirectory(history, rules, identities, seen.begun, before, now, p);
      if names.None? { return Result.Failed; }
      ghost var t := now;
      var rest := names.value;
      while rest != {}
        invariant rest <= names.value && Two(moment) && now >= t && GrewAgain(again0, relisted0, again, relisted, p)
        invariant (p == [] || p in again) && (p in again ==> again[p] <= t) && p !in relisted
        invariant RevivedBelow(history, again, relisted, p)
        invariant forall b :: b in rest ==> NewAgain(again, relisted, p + [b])
        invariant forall b :: b in names.value && b !in rest && !rules.ignored(p + [b]) ==> p + [b] in again
      {
        var b :| b in rest;
        rest := rest - {b};
        var q := p + [b];
        if !rules.ignored(q) {
          assert Parent(q) == p;
          VisibleChild(rules, p, b);
          ghost var again1, relisted1 := again, relisted;
          CalmChild(history, rules, identities, seen.begun, t, now, p, b);
          r := VerifyEntry(q, moment);
          if r.Failed? {
            GrewAgainOn(again0, relisted0, again1, relisted1, again, relisted, p, q);
            return;
          }
          Verifies(history, again0, relisted0, again1, relisted1, again, relisted, p, b, rest);
          GrewKeys(again1, relisted1, again, relisted, q);
        }
      }
      RelistPass(history, rules, identities, seen, again, relisted, paths, moment, now, p, t);
      ghost var relisted1 := relisted;
      relisted := relisted[p := t];
      RelistedGrew(history, again0, relisted0, again, relisted1, p, t);
      return Ok(());
    }

    // The first pass, between two looks at the root.
    method Inventory() returns (r: Result<Meta>)
      requires identities == map[] && files == []
      modifies this
      ensures unchanged(`again) && unchanged(`relisted) && unchanged(`paths) && One() && old(now) <= seen.begun <= now
      ensures r.Ok? ==> [] in seen.listed && RootHeld(history, seen, now) && Look(history(now), []) == Some(r.value)
      ensures r.Failed? ==> !Calm(history, rules, seen.begun, now)
    {
      var before := Lstat([]);
      seen := Seen(now, map[], map[], map[]);
      Start(history, rules, now);
      CalmRoot(history, rules, now, now);
      hide Pass, Calm;
      if before.None? || !before.value.node.Dir? { return Result.Failed; }
      var scanned := ScanDirectory([]);
      assert seen.begun == old(now) || seen.begun <= now by { BeginsNow(history, rules, identities, files, seen, now); }
      ghost var last := now;
      var after := Lstat([]);
      CalmLater(history, rules, seen.begun, last, now);
      CalmRoot(history, rules, seen.begun, now);
      LaterPass(history, rules, identities, files, seen, last, now);
      if scanned.Failed? || after.None? || after.value.stamp != before.value.stamp { return Result.Failed; }
      return Ok(after.value);
    }

    // scanBridgeRoot: an inventory, or an error when the tree moved under the scan.
    method ScanBridgeRoot() returns (r: Result<seq<Draft>>, ghost x: Transcript)
      requires Faithful(history) && identities == map[] && files == [] && paths == {} && again == map[] && relisted == map[]
      modifies this
      ensures r.Ok? ==> Verified(x) && x.h == history && x.rules == rules && x.files == r.value
      ensures r.Ok? ==> old(now) <= x.seen.begun && x.end == now
      ensures r.Failed? ==> !Calm(history, rules, old(now), now)
    {
      hide Pass, PassTwo, Faithful, Calm, Complete, RootHeld, Verified;
      x := Transcript(history, rules, identities, files, seen, again, relisted, now, now);
      var inventory := Inventory();
      CalmPart(history, rules, old(now), seen.begun, now);
      if inventory.Failed? { return Result.Failed, x; }
      ghost var moment := now;
      SameKeys(history, rules, identities, files, seen, now);
      PassTwoStarts(history, rules, identities, seen, now);
      FirstPassComplete(history, rules, identities, files, seen, now);
      CalmRoot(history, rules, seen.begun, now);
      var verified := VisiblePaths([], moment);
      CalmPart(history, rules, old(now), seen.begun, now);
      if verified.Failed? { return Result.Failed, x; }
      ghost var last := now;
      var final := Lstat([]);
      CalmPart(history, rules, old(now), seen.begun, now);
      CalmSame(history, rules, seen.begun, moment, now, []);
      if final.None? || final.value.stamp != inventory.value.stamp { return Result.Failed, x; }
      LaterPassTwo(history, rules, identities, seen, again, relisted, paths, moment, last, now);
      SamePaths(history, rules, identities, files, seen, again, relisted, paths, moment, now);
      if |Paths(files)| != |paths| || !(paths <= Paths(files)) { return Result.Failed, x; }
      SameSize(paths, Paths(files));
      x := Transcript(history, rules, identities, files, seen, again, relisted, moment, now);
      RootHeldOn(history, seen, moment, now);
      AllVerified(x);
      return Ok(files), x;
    }
  }

  lemma PassTwoStarts(h: History, rules: Rules, identities: map<Path, Stamp>, seen: Seen, now: nat)
    ensures PassTwo(h, rules, identities, seen, map[], map[], {}, now, now)
    ensures forall b: string :: NewAgain(map[], map[], [] + [b])
  {
  }

  lemma RootHeldOn(h: History, seen: Seen, moment: nat, now: nat)
    requires RootHeld(h, seen, moment) && moment <= now && Look(h(now), []).Some?
    requires Look(h(now), []).value.stamp == Look(h(moment), []).value.stamp
    ensures RootHeld(h, seen, now)
  {
  }

  // ---- a scan of a tree that is left alone ----

  lemma FirstPassComplete(h: History, rules: Rules, identities: map<Path, Stamp>, files: seq<Draft>, seen: Seen, now: nat)
    requires Pass(h, rules, identities, files, seen, now) && [] in seen.listed
    ensures Calm(h, rules, seen.begun, now) ==> Complete(h(now), rules, identities)
  {
    hide Calm, Complete;
    PassParts(h, rules, identities, files, seen, now);
    if Calm(h, rules, seen.begun, now) { AllRecorded(h, rules, identities, files, seen, now); }
  }

  lemma SamePaths(h: History, rules: Rules, identities: map<Path, Stamp>, files: seq<Draft>, seen: Seen, again: map<Path, nat>,
                  relisted: map<Path, nat>, paths: set<Path>, moment: nat, now: nat)
    requires Pass(h, rules, identities, files, seen, moment) && [] in seen.listed && [] in relisted && moment <= now
    requires PassTwo(h, rules, identities, seen, again, relisted, paths, moment, now) && Revived(h, again, relisted, [])
    ensures Calm(h, rules, seen.begun, now) ==> paths == Paths(files)
  {
    hide Calm, PassTwo;
    PassParts(h, rules, identities, files, seen, moment);
    if Calm(h, rules, seen.begun, now) {
      CalmPart(h, rules, seen.begun, seen.begun, moment);
      CalmLater(h, rules, seen.begun, moment, now);
      assert Resumed(h, again, relisted);
      hide Resumed, Revived;
      forall q ensures q in paths <==> q in Paths(files) {
        PublishedTwice(h, rules, identities, files, seen, again, relisted, paths, moment, now, q);
      }
    }
  }

  lemma Start(h: History, rules: Rules, now: nat)
    ensures var seen := Seen(now, map[], map[], map[]); Pass(h, rules, map[], [], seen, now) && Below(seen, [], [])
  {
  }

  lemma SameKeys(h: History, rules: Rules, identities: map<Path, Stamp>, files: seq<Draft>, seen: Seen, now: nat)
    requires Pass(h, rules, identities, files, seen, now)
    ensures seen.at.Keys == identities.Keys
  {
  }

  // Put together: what the two passes leave behind is all that the snapshot theorem needs.
  lemma AllVerified(x: Transcript)
    requires Faithful(x.h) && x.moment <= x.end && Pass(x.h, x.rules, x.identities, x.files, x.seen, x.moment)
    requires [] in x.seen.listed && [] in x.relisted && RootHeld(x.h, x.seen, x.end)
    requires PassTwo(x.h, x.rules, x.identities, x.seen, x.again, x.relisted, Paths(x.files), x.moment, x.end)
    requires Revived(x.h, x.again, x.relisted, [])
    ensures Verified(x)
  {
    hide Faithful, Pass, PassTwo, RootHeld, Looked, Listed, Checksummed, Classified;
    PassParts(x.h, x.rules, x.identities, x.files, x.seen, x.moment);
  }

  lemma PassParts(h: History, rules: Rules, identities: map<Path, Stamp>, files: seq<Draft>, seen: Seen, now: nat)
    requires Pass(h, rules, identities, files, seen, now)
    ensures Looked(h, rules, identities, seen, now) && Listed(h, rules, files, seen, now) && Checksummed(h, files, seen, now)
    ensures Classified(h, rules, files, seen, now)
  {
  }

  lemma SameSize<T>(s: set<T>, t: set<T>)
    requires s <= t && |s| == |t|
    ensures s == t
  {
    assert t == s + (t - s);
  }
}
