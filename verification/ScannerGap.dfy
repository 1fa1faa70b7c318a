// A scan that publishes the inventory of no moment.  A file is in the library all the time, but
// always where the scan has just been: in a folder the first pass has already listed, in a nested
// folder that is gone before the second pass would list it, in a folder the second pass has listed.
module ScannerGap {
  import opened Wrappers
  import opened Scanner
  import opened ScannerPasses

  // root / a / d and root / b / g;  then f in d;  then g gone;  then h in b;  then d gone.
  const ROOT_META := Meta(10, Dir(map["a" := 1, "b" := 3]))
  const A_META := Meta(11, Dir(map["d" := 2]))
  const D_META := Meta(22, Dir(map["f" := 4]))
  const F_META := Meta(14, File("f"))
  const SNAP0 := Snap(0, map[0 := ROOT_META, 1 := A_META, 2 := Meta(12, Dir(map[])), 3 := Meta(13, Dir(map["g" := 5])),
                             5 := Meta(15, File("g"))])
  const SNAP1 := Snap(0, map[0 := ROOT_META, 1 := A_META, 2 := D_META, 3 := Meta(13, Dir(map["g" := 5])), 4 := F_META, 5 := Meta(15, File("g"))])
  const SNAP2 := Snap(0, map[0 := ROOT_META, 1 := A_META, 2 := D_META, 3 := Meta(23, Dir(map[])), 4 := F_META])
  const SNAP3 := Snap(0, map[0 := ROOT_META, 1 := A_META, 2 := D_META, 3 := Meta(33, Dir(map["h" := 6])), 4 := F_META, 6 := Meta(16, File("h"))])
  const SNAP4 := Snap(0, map[0 := ROOT_META, 1 := Meta(21, Dir(map[])), 3 := Meta(33, Dir(map["h" := 6])), 6 := Meta(16, File("h"))])

  const FOLDER_A := ["a"]
  const FOLDER_D := ["a", "d"]
  const FILE_F := ["a", "d", "f"]
  const FOLDER_B := ["b"]
  const FILE_G := ["b", "g"]
  const FILE_H := ["b", "h"]

  function Tree(t: nat): Snap {
    if t < 4 then SNAP0 else if t < 5 then SNAP1 else if t < 10 then SNAP2 else if t < 12 then SNAP3 else SNAP4
  }

  const EVERYTHING := Rules((p: Path) => false, (p: Path) => true, (p: Path) => false, (s: Stamp) => s, 8)

  const SEEN := Seen(0, map[FOLDER_A := 1, FOLDER_D := 2, FOLDER_B := 6],
                     map[[] := 0, FOLDER_A := 2, FOLDER_D := 3, FOLDER_B := 7], map[])

  const SCAN := Transcript(Tree, EVERYTHING, map[FOLDER_A := 11, FOLDER_D := 12, FOLDER_B := 23], [], SEEN,
                           map[FOLDER_B := 8, FOLDER_A := 11], map[[] := 8, FOLDER_B := 9, FOLDER_A := 12], 8, 13)

  lemma Steps()
    ensures FOLDER_A[..0] == [] && FOLDER_B[..0] == [] && FOLDER_D[..1] == FOLDER_A
    ensures FILE_F[..2] == FOLDER_D && FILE_G[..1] == FOLDER_B && FILE_H[..1] == FOLDER_B
    ensures [] + ["a"] == FOLDER_A && [] + ["b"] == FOLDER_B && FOLDER_A + ["d"] == FOLDER_D
  {
  }

  // The folders of each phase, and the files.
  lemma Folders(t: nat)
    ensures Resolve(Tree(t), []) == Some(0)
    ensures Resolve(Tree(t), FOLDER_A) == Some(1) && Resolve(Tree(t), FOLDER_B) == Some(3)
    ensures Resolve(Tree(t), FOLDER_D) == if t < 12 then Some(2) else None
  {
    Steps();
    assert Resolve(Tree(t), []) == Some(0);
    assert Resolve(Tree(t), FOLDER_A) == Some(1);
  }

  // What the scan sees of them when it looks.
  lemma Sights(t: nat)
    ensures Look(Tree(t), []) == Some(ROOT_META)
    ensures Look(Tree(t), FOLDER_A) == Some(if t < 12 then A_META else Meta(21, Dir(map[])))
    ensures t < 4 ==> Look(Tree(t), FOLDER_D) == Some(Meta(12, Dir(map[])))
    ensures 5 <= t < 10 ==> Look(Tree(t), FOLDER_B) == Some(Meta(23, Dir(map[])))
  {
    Folders(t);
    hide Resolve;
  }

  lemma FileThere(t: nat)
    ensures t < 5 ==> Look(Tree(t), FILE_G) == Some(Meta(15, File("g")))
    ensures 4 <= t < 12 ==> Look(Tree(t), FILE_F) == Some(F_META)
    ensures 10 <= t ==> Look(Tree(t), FILE_H) == Some(Meta(16, File("h")))
  {
    Steps();
    Folders(t);
  }

  // Every change of an object shows in its stamp.
  function StampTable(t: nat, o: Obj): Option<Stamp> {
    match o
    case 0 => Some(10)
    case 1 => Some(if t < 12 then 11 else 21)
    case 2 => if t < 4 then Some(12) else if t < 12 then Some(22) else None
    case 3 => Some(if t < 5 then 13 else if t < 10 then 23 else 33)
    case 4 => if 4 <= t < 12 then Some(14) else None
    case 5 => if t < 5 then Some(15) else None
    case 6 => if 10 <= t then Some(16) else None
    case _ => None
  }

  predicate IsFile(o: Obj) {
    4 <= o
  }

  lemma Stamps(t: nat, o: Obj)
    ensures StampOf(Tree(t), o) == StampTable(t, o)
    ensures o in Tree(t).objects ==> Tree(t).objects[o].node.Dir? == !IsFile(o) && FileLike(Tree(t).objects[o].node) == IsFile(o)
  {
  }

  // Between two times with the same stamp lies no change.
  lemma Between(s: nat, u: nat, t: nat, o: Obj)
    requires s <= t <= u && StampTable(s, o).Some? && StampTable(s, o) == StampTable(u, o)
    ensures o in Tree(t).objects && o in Tree(s).objects && Tree(t).objects[o] == Tree(s).objects[o]
  {
    match o
    case 0 =>
    case 1 => assert t < 12 <==> s < 12;
    case 2 => assert t < 12 && (t < 4 <==> s < 4);
    case 3 => assert (t < 5 <==> s < 5) && (t < 10 <==> s < 10);
    case 4 => assert 4 <= t < 12;
    case 5 => assert t < 5;
    case 6 => assert 10 <= t;
  }

  lemma SamePhase(s: nat, u: nat, o: Obj, o': Obj)
    requires s <= u && StampOf(Tree(s), o).Some? && StampOf(Tree(s), o) == StampOf(Tree(u), o')
    ensures o == o' && Unchanged(Tree, o, s, u)
  {
    hide Tree;
    Stamps(s, o);
    Stamps(u, o');
    forall t: nat | s <= t <= u ensures o in Tree(t).objects && o in Tree(s).objects && Tree(t).objects[o] == Tree(s).objects[o] {
      Between(s, u, t, o);
    }
    Between(s, u, s, o);
  }

  lemma TreeStampsTell()
    ensures StampsTell(Tree)
  {
    hide Tree, Unchanged, StampOf;
    forall s: nat, u: nat, o, o' | s <= u && StampOf(Tree(s), o).Some? && StampOf(Tree(s), o) == StampOf(Tree(u), o')
      ensures o == o' && Unchanged(Tree, o, s, u)
    {
      SamePhase(s, u, o, o');
    }
  }

  lemma TreeKindsStay()
    ensures KindsStay(Tree)
  {
    hide Tree;
    forall s: nat, u: nat, o | o in Tree(s).objects && o in Tree(u).objects
      ensures SameKind(Tree(s).objects[o].node, Tree(u).objects[o].node)
    {
      Stamps(s, o);
      Stamps(u, o);
    }
  }

  lemma TreeRootTells()
    ensures RootTells(Tree)
  {
  }

  lemma Times()
    ensures SEEN.at.Keys == {FOLDER_A, FOLDER_D, FOLDER_B} == SCAN.identities.Keys
    ensures SEEN.at[FOLDER_A] == 1 && SEEN.at[FOLDER_D] == 2 && SEEN.at[FOLDER_B] == 6
    ensures SCAN.identities[FOLDER_A] == 11 && SCAN.identities[FOLDER_D] == 12 && SCAN.identities[FOLDER_B] == 23
  {
    assert FOLDER_A[0] != FOLDER_B[0] && |FOLDER_D| == 2;
  }

  lemma LookAtA()
    ensures LookedAt(Tree, EVERYTHING, SCAN.identities, SEEN, 8, FOLDER_A)
  {
    hide Tree, Look;
    Times();
    Steps();
    Sights(1);
  }

  lemma LookAtD()
    ensures LookedAt(Tree, EVERYTHING, SCAN.identities, SEEN, 8, FOLDER_D)
  {
    hide Tree, Look;
    Times();
    Steps();
    Sights(2);
  }

  lemma LookAtB()
    ensures LookedAt(Tree, EVERYTHING, SCAN.identities, SEEN, 8, FOLDER_B)
  {
    hide Tree, Look;
    Times();
    Steps();
    Sights(6);
  }

  lemma FirstLooks()
    ensures Looked(Tree, EVERYTHING, SCAN.identities, SEEN, 8)
  {
    hide Tree, Look, LookedAt;
    Times();
    LookAtA();
    LookAtD();
    LookAtB();
  }

  lemma FolderHandled(q: Path)
    requires q in SEEN.at
    ensures Handled(Tree, [], SEEN, q)
  {
    hide Tree, Look;
    Times();
    Sights(SEEN.at[q]);
  }

  lemma FirstListings()
    ensures Listed(Tree, EVERYTHING, [], SEEN, 8)
  {
    hide Tree, Look, Handled;
    Steps();
    forall q | q in SEEN.at ensures Handled(Tree, [], SEEN, q) { FolderHandled(q); }
    forall p | p in SEEN.listed ensures ListedAt(Tree, EVERYTHING, [], SEEN, 8, p) {
      Sights(SEEN.listed[p]);
      assert p == [] || p == FOLDER_A || p == FOLDER_D || p == FOLDER_B;
    }
  }

  lemma SecondListings()
    ensures forall p | p in SCAN.relisted :: RelistedAt(Tree, EVERYTHING, SCAN.again, SCAN.relisted, 8, 13, p)
  {
    hide Tree, Look;
    Steps();
    forall p | p in SCAN.relisted ensures RelistedAt(Tree, EVERYTHING, SCAN.again, SCAN.relisted, 8, 13, p) {
      Sights(SCAN.relisted[p]);
      assert p == [] || p == FOLDER_A || p == FOLDER_B;
    }
  }

  lemma SecondPass()
    ensures PassTwo(Tree, EVERYTHING, SCAN.identities, SEEN, SCAN.again, SCAN.relisted, {}, 8, 13)
  {
    hide Tree, Look, RelistedAt;
    SecondListings();
    Steps();
    Sights(8);
    Sights(11);
    forall p | p in SCAN.again ensures AgainAt(Tree, EVERYTHING, SCAN.identities, SEEN, SCAN.again, 8, 13, p) {
      assert p == FOLDER_A || p == FOLDER_B;
    }
  }

  lemma RootStays()
    ensures RootHeld(Tree, SEEN, 13)
  {
    Folders(0);
    Folders(13);
  }

  lemma FolderRevived()
    ensures Revived(Tree, SCAN.again, SCAN.relisted, [])
  {
    forall r | r in SCAN.again ensures r in SCAN.relisted {
      assert r == FOLDER_A || r == FOLDER_B;
    }
  }

  lemma ScanVerified()
    ensures Verified(SCAN)
  {
    hide Tree, StampsTell, RootTells, KindsStay, Looked, Listed, PassTwo, RootHeld, Revived, Verified;
    TreeStampsTell();
    TreeKindsStay();
    TreeRootTells();
    FirstLooks();
    FirstListings();
    SecondPass();
    RootStays();
    FolderRevived();
    assert Paths([]) == {};
    AllVerified(SCAN);
  }

  // The scan has checked all it checks, and returns an empty inventory.  At no time at all, before,
  // during or after the scan, was the library empty.
  lemma ScanMatchesNoMoment(t: nat)
    ensures Verified(SCAN) && SCAN.files == []
    ensures exists q :: Shown(SCAN, t, q) && q !in Paths(SCAN.files)
    ensures !ExactAt(SCAN, t)
  {
    ScanVerified();
    FileThere(t);
    var q := if t < 5 then FILE_G else if t < 12 then FILE_F else FILE_H;
    assert Shown(SCAN, t, q);
  }
}
