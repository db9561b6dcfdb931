/** Folders as a table of parent pointers: ancestors, subtrees and what keeps them a forest. */
module FolderForest {
  import opened Basics

  type FolderId = nat
  type UserId = nat

  datatype Folder = Folder(owner: UserId, parent: Option<FolderId>)

  type Folders = map<FolderId, Folder>

  /** The n-th ancestor of x, when there is one. */
  function Climb(folders: Folders, x: FolderId, n: nat): Option<FolderId> {
    if n == 0 then Some(x)
    else
      match Climb(folders, x, n - 1)
      case None => None
      case Some(y) => if y in folders then folders[y].parent else None
  }

  /** x is f or lies somewhere below it. */
  ghost predicate Under(folders: Folders, x: FolderId, f: FolderId) {
    exists n: nat :: Climb(folders, x, n) == Some(f)
  }

  ghost function Subtree(folders: Folders, f: FolderId): set<FolderId> {
    set x <- folders | Under(folders, x, f)
  }

  type Ranks = map<FolderId, nat>

  /** Parents exist, belong to the same owner and rank below their children. */
  ghost predicate Ranked(folders: Folders, ranks: Ranks) {
    && folders.Keys <= ranks.Keys
    && forall x <- folders :: folders[x].parent.Some? ==>
         var p := folders[x].parent.value;
         p in folders && folders[p].owner == folders[x].owner && ranks[p] < ranks[x]
  }

  /** An owner-closed forest. */
  ghost predicate Forest(folders: Folders) {
    exists ranks :: Ranked(folders, ranks)
  }

  lemma {:induction false} ClimbRanks(folders: Folders, ranks: Ranks, x: FolderId, n: nat)
    requires Ranked(folders, ranks) && x in folders && Climb(folders, x, n).Some?
    ensures var y := Climb(folders, x, n).value;
      y in folders && folders[y].owner == folders[x].owner && ranks[y] + n <= ranks[x]
  {
    if n > 0 {
      ClimbRanks(folders, ranks, x, n - 1);
    }
  }

  /** Climbing n + 1 steps is one step and then n. */
  lemma {:induction false} ClimbFirst(folders: Folders, x: FolderId, p: FolderId, n: nat)
    requires x in folders && folders[x].parent == Some(p)
    ensures Climb(folders, x, n + 1) == Climb(folders, p, n)
  {
    if n > 0 {
      ClimbFirst(folders, x, p, n - 1);
    }
  }

  lemma {:induction false} ClimbTwice(folders: Folders, x: FolderId, m: nat, n: nat)
    requires Climb(folders, x, m).Some?
    ensures Climb(folders, x, m + n) == Climb(folders, Climb(folders, x, m).value, n)
    decreases n
  {
    if n > 0 {
      ClimbTwice(folders, x, m, n - 1);
    }
  }

  lemma UnderTrans(folders: Folders, x: FolderId, y: FolderId, z: FolderId)
    requires Under(folders, x, y) && Under(folders, y, z)
    ensures Under(folders, x, z)
  {
    var m: nat :| Climb(folders, x, m) == Some(y);
    var n: nat :| Climb(folders, y, n) == Some(z);
    ClimbTwice(folders, x, m, n);
  }

  // ------------------------------------------------------------------ moving

  function Reparented(folders: Folders, f: FolderId, parent: Option<FolderId>): Folders
    requires f in folders
  {
    folders[f := folders[f].(parent := parent)]
  }

  /** Climbing a path that meets f only at its end never uses the parent of f. */
  lemma {:induction false} ClimbAvoids(folders: Folders, f: FolderId, parent: Option<FolderId>, x: FolderId, n: nat)
    requires f in folders && forall k: nat :: k < n ==> Climb(folders, x, k) != Some(f)
    ensures Climb(Reparented(folders, f, parent), x, n) == Climb(folders, x, n)
  {
    if n > 0 {
      ClimbAvoids(folders, f, parent, x, n - 1);
      assert Climb(folders, x, n - 1) != Some(f);
    }
  }

  lemma {:induction false} FirstMeeting(folders: Folders, x: FolderId, f: FolderId, n: nat) returns (m: nat)
    requires Climb(folders, x, n) == Some(f)
    ensures Climb(folders, x, m) == Some(f) && forall k: nat :: k < m ==> Climb(folders, x, k) != Some(f)
    decreases n
  {
    if k: nat :| k < n && Climb(folders, x, k) == Some(f) {
      m := FirstMeeting(folders, x, f, k);
    } else {
      m := n;
    }
  }

  /** Ranks after a move: the moved subtree sinks below its new parent. */
  ghost function Sunk(folders: Folders, ranks: Ranks, f: FolderId, depth: nat): Ranks {
    map x <- ranks :: if Under(folders, x, f) then ranks[x] + depth else ranks[x]
  }

  lemma UnderParent(folders: Folders, x: FolderId, f: FolderId)
    requires x in folders && x != f && folders[x].parent.Some?
    ensures Under(folders, x, f) <==> Under(folders, folders[x].parent.value, f)
  {
    var p := folders[x].parent.value;
    if n: nat :| Climb(folders, x, n) == Some(f) {
      assert n > 0;
      ClimbFirst(folders, x, p, n - 1);
    }
    if n: nat :| Climb(folders, p, n) == Some(f) {
      ClimbFirst(folders, x, p, n);
      assert Climb(folders, x, n + 1) == Some(f);
    }
  }

  lemma MoveKeepsRanked(folders: Folders, ranks: Ranks, f: FolderId, target: FolderId)
    requires Ranked(folders, ranks) && f in folders && target in folders && folders[target].owner == folders[f].owner
    requires !Under(folders, target, f)
    ensures Ranked(Reparented(folders, f, Some(target)), Sunk(folders, ranks, f, ranks[target] + 1))
  {
    var sunk := Sunk(folders, ranks, f, ranks[target] + 1);
    assert Under(folders, f, f) by { assert Climb(folders, f, 0) == Some(f); }
    forall x | x in folders && x != f && folders[x].parent.Some?
      ensures sunk[folders[x].parent.value] < sunk[x]
    {
      UnderParent(folders, x, f);
    }
  }

  lemma MoveIntoSubtreeBreaks(folders: Folders, f: FolderId, target: FolderId, ranks: Ranks)
    requires f in folders && target in folders && Under(folders, target, f)
    ensures !Ranked(Reparented(folders, f, Some(target)), ranks)
  {
    var moved := Reparented(folders, f, Some(target));
    var n: nat :| Climb(folders, target, n) == Some(f);
    var m := FirstMeeting(folders, target, f, n);
    ClimbAvoids(folders, f, Some(target), target, m);
    assert moved[f].parent == Some(target);
    if Ranked(moved, ranks) {
      ClimbRanks(moved, ranks, target, m);
    }
  }

  /** A move keeps the forest exactly when the target does not lie in the moved subtree. */
  lemma MoveKeepsForestIff(folders: Folders, f: FolderId, target: FolderId)
    requires Forest(folders) && f in folders && target in folders && folders[target].owner == folders[f].owner
    ensures Forest(Reparented(folders, f, Some(target))) <==> !Under(folders, target, f)
  {
    if Under(folders, target, f) {
      forall ranks ensures !Ranked(Reparented(folders, f, Some(target)), ranks) {
        MoveIntoSubtreeBreaks(folders, f, target, ranks);
      }
    } else {
      var ranks :| Ranked(folders, ranks);
      MoveKeepsRanked(folders, ranks, f, target);
    }
  }

  /** Two moves whose checks both ran before either update leave two folders inside each other. */
  lemma InterleavedMovesCanCycle() returns (folders: Folders)
    ensures Forest(folders) && 1 in folders && 2 in folders
    ensures !Under(folders, 2, 1) && !Under(folders, 1, 2)
    ensures !Forest(Reparented(Reparented(folders, 1, Some(2)), 2, Some(1)))
  {
    folders := map[1 := Folder(0, None), 2 := Folder(0, None)];
    assert Ranked(folders, map[1 := 0, 2 := 0]);
    RootsAreApart(folders, 2, 1);
    RootsAreApart(folders, 1, 2);
    var once := Reparented(folders, 1, Some(2));
    MoveKeepsForestIff(folders, 1, 2);
    assert Under(once, 1, 2) by { assert Climb(once, 1, 0) == Some(1); assert Climb(once, 1, 1) == Some(2); }
    MoveKeepsForestIff(once, 2, 1);
  }

  lemma RootsAreApart(folders: Folders, x: FolderId, f: FolderId)
    requires x in folders && folders[x].parent.None? && x != f
    ensures !Under(folders, x, f)
  {
    forall n: nat ensures Climb(folders, x, n) != Some(f) {
      RootClimb(folders, x, n);
    }
  }

  lemma {:induction false} RootClimb(folders: Folders, x: FolderId, n: nat)
    requires x in folders && folders[x].parent.None?
    ensures Climb(folders, x, n) == if n == 0 then Some(x) else None
  {
    if n > 0 {
      RootClimb(folders, x, n - 1);
    }
  }

  // ---------------------------------------------------------------- subtrees

  ghost predicate UnderAny(folders: Folders, x: FolderId, tops: seq<FolderId>) {
    exists c <- tops :: Under(folders, x, c)
  }

  ghost function Union(folders: Folders, tops: seq<FolderId>): set<FolderId> {
    set x <- folders | UnderAny(folders, x, tops)
  }

  /** `tops` lists the children of f. */
  predicate AreChildren(folders: Folders, f: FolderId, tops: seq<FolderId>) {
    && (forall c <- tops :: c in folders && folders[c].parent == Some(f))
    && (forall c <- folders :: folders[c].parent == Some(f) ==> c in tops)
    && forall i, j :: 0 <= i < j < |tops| ==> tops[i] != tops[j]
  }

  /** A subtree is its top and the subtrees of the children. */
  lemma SubtreeSplits(folders: Folders, f: FolderId, tops: seq<FolderId>)
    requires f in folders && AreChildren(folders, f, tops)
    ensures Subtree(folders, f) == {f} + Union(folders, tops)
  {
    assert Climb(folders, f, 0) == Some(f);
    forall x | x in folders && Under(folders, x, f) && x != f ensures UnderAny(folders, x, tops) {
      LastStep(folders, x, f, tops);
    }
    forall x | x in folders && UnderAny(folders, x, tops) ensures Under(folders, x, f) {
      var c :| c in tops && Under(folders, x, c);
      var n: nat :| Climb(folders, x, n) == Some(c);
      assert Climb(folders, x, n + 1) == Some(f);
    }
  }

  lemma LastStep(folders: Folders, x: FolderId, f: FolderId, tops: seq<FolderId>)
    requires AreChildren(folders, f, tops) && Under(folders, x, f) && x != f
    ensures UnderAny(folders, x, tops)
  {
    var n: nat :| Climb(folders, x, n) == Some(f);
    assert n > 0;
    var c := Climb(folders, x, n - 1).value;
    assert c in tops && Climb(folders, x, n - 1) == Some(c);
  }

  /** A set with everything below its members. */
  predicate Closed(folders: Folders, hit: set<FolderId>) {
    forall x <- folders :: folders[x].parent.Some? && folders[x].parent.value in hit ==> x in hit
  }

  lemma UnionClosed(folders: Folders, tops: seq<FolderId>)
    ensures Closed(folders, Union(folders, tops))
  {
    forall x | x in folders && folders[x].parent.Some? && folders[x].parent.value in Union(folders, tops)
      ensures UnderAny(folders, x, tops)
    {
      var p := folders[x].parent.value;
      var c :| c in tops && Under(folders, p, c);
      var n: nat :| Climb(folders, p, n) == Some(c);
      ClimbFirst(folders, x, p, n);
    }
  }

  lemma {:induction false} ClimbOutside(folders: Folders, hit: set<FolderId>, x: FolderId, n: nat)
    requires Closed(folders, hit) && x in folders && x !in hit
    ensures Climb(folders - hit, x, n) == Climb(folders, x, n)
    ensures Climb(folders, x, n).Some? ==> Climb(folders, x, n).value !in hit || Climb(folders, x, n).value !in folders
  {
    if n > 0 {
      ClimbOutside(folders, hit, x, n - 1);
    }
  }

  /** Removing a closed set leaves the subtree of an outside folder as it was. */
  lemma SubtreeOutside(folders: Folders, hit: set<FolderId>, f: FolderId)
    requires Closed(folders, hit) && Subtree(folders, f) !! hit
    ensures Subtree(folders - hit, f) == Subtree(folders, f)
  {
    forall x | x in folders && x !in hit ensures Under(folders - hit, x, f) <==> Under(folders, x, f) {
      forall n: nat ensures Climb(folders - hit, x, n) == Climb(folders, x, n) {
        ClimbOutside(folders, hit, x, n);
      }
    }
  }

  /** Subtrees of different children of one folder are disjoint, and none contains the folder. */
  lemma SiblingsApart(folders: Folders, ranks: Ranks, f: FolderId, b: FolderId, c: FolderId, x: FolderId)
    requires Ranked(folders, ranks) && b in folders && c in folders && x in folders && b != c
    requires folders[b].parent == Some(f) == folders[c].parent
    requires Under(folders, x, b)
    ensures !Under(folders, x, c)
  {
    if Under(folders, x, c) {
      var m: nat :| Climb(folders, x, m) == Some(b);
      var n: nat :| Climb(folders, x, n) == Some(c);
      assert Climb(folders, b, 1) == Some(f) && Climb(folders, c, 1) == Some(f) by {
        assert Climb(folders, b, 0) == Some(b) && Climb(folders, c, 0) == Some(c);
      }
      if m < n {
        MeetsLater(folders, ranks, f, b, c, x, m, n);
      } else if n < m {
        MeetsLater(folders, ranks, f, c, b, x, n, m);
      }
    }
  }

  /** Having passed child b, the climb is at or above f and cannot come back to another child. */
  lemma {:induction false} MeetsLater(
    folders: Folders, ranks: Ranks, f: FolderId, b: FolderId, c: FolderId, x: FolderId, m: nat, n: nat)
    requires Ranked(folders, ranks) && x in folders && c in folders && m < n
    requires Climb(folders, x, m) == Some(b) && Climb(folders, b, 1) == Some(f) && Climb(folders, c, 1) == Some(f)
    ensures Climb(folders, x, n) != Some(c)
  {
    hide Climb, Ranked;
    var k := n - m - 1;
    ClimbTwice(folders, x, m, 1);
    ClimbTwice(folders, x, m + 1, k);
    assert Climb(folders, x, n) == Climb(folders, f, k);
    ClimbRanks(folders, ranks, x, m + 1);
    ClimbRanks(folders, ranks, c, 1);
    StaysAbove(folders, ranks, f, k);
  }

  lemma {:induction false} StaysAbove(folders: Folders, ranks: Ranks, f: FolderId, k: nat)
    requires Ranked(folders, ranks) && f in folders
    ensures Climb(folders, f, k).Some? ==>
      Climb(folders, f, k).value in folders && ranks[Climb(folders, f, k).value] <= ranks[f]
  {
    if Climb(folders, f, k).Some? {
      ClimbRanks(folders, ranks, f, k);
    }
  }
}
