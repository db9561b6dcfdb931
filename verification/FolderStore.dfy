/** Moving, deleting and locating folders: step-by-step updates of the folder and file tables. */
module FolderStore {
  import opened Basics
  import opened FolderForest

  type FileId = nat
  type Time = nat

  datatype File = File(owner: UserId, parent: Option<FolderId>, deletedAt: Option<Time>)

  type Files = map<FileId, File>

  datatype FolderError = FolderNotFound | IntoItself | TargetNotFound | IntoSubfolder

  predicate Owned(folders: Folders, owner: UserId, f: FolderId) {
    f in folders && folders[f].owner == owner
  }

  /** The one reason, if any, for which a move is refused. */
  ghost function MoveRefusal(folders: Folders, owner: UserId, f: FolderId, parent: Option<FolderId>)
    : Option<FolderError>
  {
    if !Owned(folders, owner, f) then Some(FolderNotFound)
    else if parent.None? then None
    else if parent.value == f then Some(IntoItself)
    else if !Owned(folders, owner, parent.value) then Some(TargetNotFound)
    else if Under(folders, parent.value, f) then Some(IntoSubfolder)
    else None
  }

  predicate InFolders(file: File, hit: set<FolderId>) {
    file.parent.Some? && file.parent.value in hit
  }

  /** Exactly the owner's live files in these folders have been marked, none before `now`. */
  predicate SoftDeletedIn(before: Files, after: Files, hit: set<FolderId>, owner: UserId, now: Time) {
    && after.Keys == before.Keys
    && forall x <- before ::
         if before[x].owner == owner && before[x].deletedAt.None? && InFolders(before[x], hit) then
           after[x].deletedAt.Some? && after[x].deletedAt.value >= now && after[x].(deletedAt := None) == before[x]
         else after[x] == before[x]
  }

  /** Removing a folder row sets the references of its files to null. */
  function Orphaned(files: Files, hit: set<FolderId>): Files {
    map x <- files :: if InFolders(files[x], hit) then files[x].(parent := None) else files[x]
  }

  /** Deleting a folder row sets its children's references to null. */
  function WithoutRow(folders: Folders, f: FolderId): Folders {
    map x <- folders | x != f :: if folders[x].parent == Some(f) then folders[x].(parent := None) else folders[x]
  }

  /** The effect of deleting these folders on one file. */
  predicate FileDeleted(before: File, after: File, hit: set<FolderId>, owner: UserId, now: Time) {
    if !InFolders(before, hit) then after == before
    else
      && after.owner == before.owner && after.parent == None
      && (if before.owner == owner && before.deletedAt.None? then after.deletedAt.Some? && after.deletedAt.value >= now
          else after.deletedAt == before.deletedAt)
  }

  /** A path lists distinct folders of the owner, each above the next, and ends at f. */
  predicate IsPath(folders: Folders, owner: UserId, f: FolderId, path: seq<FolderId>) {
    && (forall k :: 0 <= k < |path| ==>
      Owned(folders, owner, path[k]) && Climb(folders, f, |path| - 1 - k) == Some(path[k]))
    && forall i, j :: 0 <= i < j < |path| ==> path[i] != path[j]
  }

  /** Why a path goes no higher. */
  predicate PathStops(folders: Folders, owner: UserId, f: FolderId, path: seq<FolderId>) {
    var above := Climb(folders, f, |path|);
    above.None? || !Owned(folders, owner, above.value) || above.value in path
  }

  class Store {
    var folders: Folders
    var files: Files
    ghost var ranks: Ranks

    ghost predicate Valid()
      reads this
    {
      Ranked(folders, ranks)
    }

    constructor ()
      ensures Valid() && folders == map[] && files == map[]
    {
      folders, files, ranks := map[], map[], map[];
    }

    method CreateFolder(owner: UserId, id: FolderId, parent: Option<FolderId>)
      returns (r: Result<FolderId, FolderError>)
      requires Valid() && id !in folders
      modifies this
      ensures Valid() && files == old(files)
      ensures parent.Some? && !Owned(old(folders), owner, parent.value) ==>
        r == Err(FolderNotFound) && folders == old(folders)
      ensures parent.None? || Owned(old(folders), owner, parent.value) ==>
        r == Ok(id) && folders == old(folders)[id := Folder(owner, parent)]
    {
      if parent.Some? && (parent.value !in folders || folders[parent.value].owner != owner) {
        return Err(FolderNotFound);
      }
      ranks := ranks[id := if parent.Some? then ranks[parent.value] + 1 else 0];
      folders := folders[id := Folder(owner, parent)];
      r := Ok(id);
    }

    method MoveFolder(owner: UserId, folderId: FolderId, parent: Option<FolderId>)
      returns (r: Result<bool, FolderError>)
      requires Valid()
      modifies this
      ensures Valid() && files == old(files)
      ensures var refusal := MoveRefusal(old(folders), owner, folderId, parent);
        if refusal.Some? then r == Err(refusal.value) && folders == old(folders)
        else r == Ok(true) && folders == Reparented(old(folders), folderId, parent)
    {
      if folderId !in folders || folders[folderId].owner != owner {
        return Err(FolderNotFound);
      }
      if parent == Some(folderId) {
        return Err(IntoItself);
      }
      if parent.Some? {
        var target := parent.value;
        if target !in folders || folders[target].owner != owner {
          return Err(TargetNotFound);
        }
        var below := LiesBelow(owner, target, folderId);
        if below {
          return Err(IntoSubfolder);
        }
        MoveKeepsRanked(folders, ranks, folderId, target);
        ranks := Sunk(folders, ranks, folderId, ranks[target] + 1);
      }
      folders := Reparented(folders, folderId, parent);
      r := Ok(true);
    }

    /** The walk from the target's parent up to the root, looking for the moved folder. */
    method LiesBelow(owner: UserId, target: FolderId, folderId: FolderId) returns (below: bool)
      requires Valid() && Owned(folders, owner, target) && target != folderId
      ensures below <==> Under(folders, target, folderId)
    {
      var cursor := folders[target].parent;
      ghost var n: nat := 1;
      assert Climb(folders, target, 0) == Some(target);
      while cursor.Some?
        invariant n > 0 && Climb(folders, target, n) == cursor
        invariant forall k: nat :: k < n ==> Climb(folders, target, k) != Some(folderId)
        invariant cursor.Some? ==> Owned(folders, owner, cursor.value)
        decreases if cursor.Some? then ranks[cursor.value] + 1 else 0
      {
        if cursor.value == folderId {
          return true;
        }
        var ancestor := cursor.value;
        cursor := if ancestor in folders && folders[ancestor].owner == owner then folders[ancestor].parent else None;
        n := n + 1;
      }
      forall k: nat ensures Climb(folders, target, k) != Some(folderId) {
        if k >= n {
          ClimbEnds(folders, target, n, k);
        }
      }
      below := false;
    }

    method ChildrenOf(owner: UserId, f: FolderId) returns (children: seq<FolderId>)
      requires Valid() && Owned(folders, owner, f)
      ensures AreChildren(folders, f, children) && forall c <- children :: Owned(folders, owner, c)
    {
      children := [];
      var rest := folders.Keys;
      while rest != {}
        invariant rest <= folders.Keys
        invariant forall c <- children :: c !in rest && Owned(folders, owner, c) && folders[c].parent == Some(f)
        invariant forall c <- folders :: c !in rest && folders[c].owner == owner && folders[c].parent == Some(f) ==>
          c in children
        invariant forall i, j :: 0 <= i < j < |children| ==> children[i] != children[j]
        decreases rest
      {
        var c :| c in rest;
        rest := rest - {c};
        if folders[c].owner == owner && folders[c].parent == Some(f) {
          children := children + [c];
        }
      }
    }

    method SoftDeleteFilesInTree(owner: UserId, f: FolderId, now: Time)
      requires Valid() && Owned(folders, owner, f)
      modifies this`files
      ensures SoftDeletedIn(old(files), files, Subtree(folders, f), owner, now)
      decreases Subtree(folders, f)
    {
      var stamp: Time :| stamp >= now;
      files := map x <- files ::
        if files[x].owner == owner && files[x].parent == Some(f) && files[x].deletedAt.None? then
          files[x].(deletedAt := Some(stamp))
        else files[x];
      var children := ChildrenOf(owner, f);
      SubtreeSplits(folders, f, children);
      assert Union(folders, children[..0]) == {};
      for i := 0 to |children|
        invariant SoftDeletedIn(old(files), files, {f} + Union(folders, children[..i]), owner, now)
      {
        UnionSnoc(folders, children, i);
        ChildSmaller(folders, ranks, f, children[i]);
        label Before:
        SoftDeleteFilesInTree(owner, children[i], now);
        SoftDeletedTwice(old(files), old@Before(files), files, {f} + Union(folders, children[..i]),
          Subtree(folders, children[i]), owner, now);
        assert {f} + Union(folders, children[..i]) + Subtree(folders, children[i])
          == {f} + Union(folders, children[..i + 1]);
      }
      assert children[..|children|] == children;
    }

    /** Deletes the row; the database clears the references that pointed to it. */
    method DeleteRow(f: FolderId)
      requires Valid() && f in folders && forall c <- folders :: folders[c].parent != Some(f)
      modifies this`folders, this`files
      ensures Valid() && folders == old(folders) - {f} && files == Orphaned(old(files), {f})
    {
      files := map x <- files :: if files[x].parent == Some(f) then files[x].(parent := None) else files[x];
      folders := WithoutRow(folders, f);
    }

    method DeleteFolderTree(owner: UserId, f: FolderId)
      requires Valid() && Owned(folders, owner, f)
      modifies this`folders, this`files
      ensures Valid()
      ensures folders == old(folders) - Subtree(old(folders), f)
      ensures files == Orphaned(old(files), Subtree(old(folders), f))
      decreases Subtree(folders, f)
    {
      hide Subtree, Union, Orphaned;
      var children := ChildrenOf(owner, f);
      ghost var all, done := folders, Union(folders, children[..0]);
      NothingRemoved(all, files, children);
      for i := 0 to |children|
        invariant Valid() && done == Union(all, children[..i])
        invariant folders == all - done && files == Orphaned(old(files), done)
      {
        NextChild(all, ranks, f, children, i);
        DeleteFolderTree(owner, children[i]);
        OrphanedTwice(old(files), done, Subtree(all, children[i]));
        done := done + Subtree(all, children[i]);
      }
      OnlyTopLeft(all, ranks, f, children);
      DeleteRow(f);
      OrphanedTwice(old(files), done, {f});
    }

    method DeleteFolder(owner: UserId, folderId: FolderId, now: Time) returns (r: Result<bool, FolderError>)
      requires Valid()
      modifies this
      ensures Valid()
      ensures !Owned(old(folders), owner, folderId) ==>
        r == Err(FolderNotFound) && folders == old(folders) && files == old(files)
      ensures Owned(old(folders), owner, folderId) ==>
        && r == Ok(true)
        && folders == old(folders) - Subtree(old(folders), folderId)
        && files.Keys == old(files).Keys
        && forall x <- old(files) :: FileDeleted(old(files)[x], files[x], Subtree(old(folders), folderId), owner, now)
    {
      if folderId !in folders || folders[folderId].owner != owner {
        return Err(FolderNotFound);
      }
      SoftDeleteFilesInTree(owner, folderId, now);
      DeleteFolderTree(owner, folderId);
      r := Ok(true);
    }

    /** Terminates on any data, cyclic or not. */
    method GetFolderPath(owner: UserId, folderId: FolderId) returns (path: seq<FolderId>)
      ensures IsPath(folders, owner, folderId, path) && PathStops(folders, owner, folderId, path)
    {
      path := [];
      var current := Some(folderId);
      var seen: set<FolderId> := {};
      while current.Some?
        invariant IsPath(folders, owner, folderId, path) && Climb(folders, folderId, |path|) == current
        invariant forall x :: x in seen <==> x in path
        decreases folders.Keys - seen, current.Some?
      {
        var id := current.value;
        if id in seen {
          return;
        }
        seen := seen + {id};
        if id !in folders || folders[id].owner != owner {
          return;
        }
        path := [id] + path;
        current := folders[id].parent;
      }
    }
  }

  lemma {:induction false} ClimbEnds(folders: Folders, x: FolderId, n: nat, k: nat)
    requires n <= k && Climb(folders, x, n).None?
    ensures Climb(folders, x, k).None?
    decreases k
  {
    if n < k {
      ClimbEnds(folders, x, n, k - 1);
    }
  }

  lemma UnionSnoc(folders: Folders, tops: seq<FolderId>, i: nat)
    requires i < |tops|
    ensures Union(folders, tops[..i + 1]) == Union(folders, tops[..i]) + Subtree(folders, tops[i])
  {
    assert tops[..i + 1] == tops[..i] + [tops[i]];
    forall x ensures UnderAny(folders, x, tops[..i + 1])
      <==> UnderAny(folders, x, tops[..i]) || Under(folders, x, tops[i])
    {
      assert forall c :: c in tops[..i + 1] <==> c in tops[..i] || c == tops[i];
    }
  }

  lemma ChildSmaller(folders: Folders, ranks: Ranks, f: FolderId, c: FolderId)
    requires Ranked(folders, ranks) && c in folders && folders[c].parent == Some(f)
    ensures Subtree(folders, c) < Subtree(folders, f)
  {
    assert Under(folders, c, f) by { assert Climb(folders, c, 0) == Some(c); assert Climb(folders, c, 1) == Some(f); }
    forall x | x in Subtree(folders, c) ensures x in Subtree(folders, f) {
      UnderTrans(folders, x, c, f);
    }
    assert f in Subtree(folders, f) by { assert Climb(folders, f, 0) == Some(f); }
    forall n: nat ensures Climb(folders, f, n) != Some(c) {
      StaysAbove(folders, ranks, f, n);
    }
  }

  /** The next child is still there with its whole subtree when the earlier ones are gone. */
  lemma ChildApart(folders: Folders, ranks: Ranks, f: FolderId, children: seq<FolderId>, i: nat)
    requires Ranked(folders, ranks) && AreChildren(folders, f, children) && i < |children|
    ensures Subtree(folders, children[i]) !! Union(folders, children[..i])
      && children[i] in Subtree(folders, children[i])
  {
    assert Climb(folders, children[i], 0) == Some(children[i]);
    forall x, j | x in Subtree(folders, children[i]) && 0 <= j < i ensures !Under(folders, x, children[j]) {
      SiblingsApart(folders, ranks, f, children[i], children[j], x);
    }
  }

  lemma NothingRemoved(folders: Folders, files: Files, children: seq<FolderId>)
    ensures Union(folders, children[..0]) == {}
    ensures folders - {} == folders && Orphaned(files, {}) == files
  {
  }

  /** What the recursive call on the next child meets and removes. */
  lemma NextChild(folders: Folders, ranks: Ranks, f: FolderId, children: seq<FolderId>, i: nat)
    requires Ranked(folders, ranks) && AreChildren(folders, f, children) && i < |children|
    ensures var done, c := Union(folders, children[..i]), children[i];
      && c in folders - done && folders - done - Subtree(folders, c) == folders - (done + Subtree(folders, c))
      && Subtree(folders - done, c) == Subtree(folders, c) && Subtree(folders, c) < Subtree(folders, f)
      && Union(folders, children[..i + 1]) == done + Subtree(folders, c)
  {
    UnionClosed(folders, children[..i]);
    ChildApart(folders, ranks, f, children, i);
    SubtreeOutside(folders, Union(folders, children[..i]), children[i]);
    UnionSnoc(folders, children, i);
    ChildSmaller(folders, ranks, f, children[i]);
    hide Under, UnderAny, Climb;
  }

  lemma OnlyTopLeft(folders: Folders, ranks: Ranks, f: FolderId, children: seq<FolderId>)
    requires Ranked(folders, ranks) && f in folders && AreChildren(folders, f, children)
    ensures var done := Union(folders, children[..|children|]);
      && f in folders - done && (forall c <- folders - done :: folders[c].parent != Some(f))
      && folders - done - {f} == folders - Subtree(folders, f) && done + {f} == Subtree(folders, f)
  {
    assert children[..|children|] == children;
    TopAlone(folders, ranks, f, children);
    SubtreeSplits(folders, f, children);
    hide Under, UnderAny, Climb;
  }

  /** With the children's subtrees gone the folder is left without children. */
  lemma TopAlone(folders: Folders, ranks: Ranks, f: FolderId, children: seq<FolderId>)
    requires Ranked(folders, ranks) && f in folders && AreChildren(folders, f, children)
    ensures f !in Union(folders, children)
    ensures forall c <- folders - Union(folders, children) :: folders[c].parent != Some(f)
  {
    forall c, n: nat | c in children ensures Climb(folders, f, n) != Some(c) {
      StaysAbove(folders, ranks, f, n);
    }
    forall c | c in children ensures c in Union(folders, children) {
      assert Climb(folders, c, 0) == Some(c);
    }
  }

  lemma SoftDeletedTwice(a: Files, b: Files, c: Files, one: set<FolderId>, two: set<FolderId>, owner: UserId, now: Time)
    requires SoftDeletedIn(a, b, one, owner, now) && SoftDeletedIn(b, c, two, owner, now)
    ensures SoftDeletedIn(a, c, one + two, owner, now)
  {
  }

  lemma OrphanedTwice(files: Files, one: set<FolderId>, two: set<FolderId>)
    ensures Orphaned(Orphaned(files, one), two) == Orphaned(files, one + two)
  {
  }

  /** In a forest the path of a folder of the owner runs from its root down to it. */
  lemma PathReachesRoot(folders: Folders, owner: UserId, f: FolderId, path: seq<FolderId>)
    requires Forest(folders) && Owned(folders, owner, f)
    requires IsPath(folders, owner, f, path) && PathStops(folders, owner, f, path)
    ensures path != [] && path[|path| - 1] == f && folders[path[0]].parent == None
    ensures forall k :: 0 < k < |path| ==> folders[path[k]].parent == Some(path[k - 1])
  {
    var ranks :| Ranked(folders, ranks);
    assert Climb(folders, f, 0) == Some(f);
    assert path != [];
    forall k | 0 < k < |path| ensures folders[path[k]].parent == Some(path[k - 1]) {
      assert Climb(folders, f, |path| - 1 - k) == Some(path[k]);
      assert Climb(folders, f, |path| - 1 - (k - 1)) == Some(path[k - 1]);
    }
    assert Climb(folders, f, |path| - 1) == Some(path[0]);
    if Climb(folders, f, |path|).Some? {
      AboveIsNew(folders, ranks, owner, f, path);
    }
  }

  lemma {:induction false} AboveIsNew(folders: Folders, ranks: Ranks, owner: UserId, f: FolderId, path: seq<FolderId>)
    requires Ranked(folders, ranks) && Owned(folders, owner, f) && IsPath(folders, owner, f, path)
    requires Climb(folders, f, |path|).Some?
    ensures Owned(folders, owner, Climb(folders, f, |path|).value) && Climb(folders, f, |path|).value !in path
  {
    var above := Climb(folders, f, |path|).value;
    ClimbRanks(folders, ranks, f, |path|);
    forall k | 0 <= k < |path| ensures path[k] != above {
      assert Climb(folders, f, |path| - 1 - k) == Some(path[k]);
      ClimbTwice(folders, f, |path| - 1 - k, k + 1);
      ClimbRanks(folders, ranks, path[k], k + 1);
    }
  }

  // ------------------------------------------------------------ what the rules achieve

  /** A move goes through exactly if folder and target are the owner's and the folders stay a forest. */
  lemma MoveIsAllowedIff(folders: Folders, owner: UserId, f: FolderId, parent: Option<FolderId>)
    requires Forest(folders)
    ensures MoveRefusal(folders, owner, f, parent).None? <==>
      && f in folders && folders[f].owner == owner
      && (parent.Some? ==> parent.value in folders && folders[parent.value].owner == owner)
      && Forest(Reparented(folders, f, parent))
  {
    if f in folders && parent.Some? && parent.value in folders && folders[parent.value].owner == folders[f].owner {
      MoveKeepsForestIff(folders, f, parent.value);
      assert Climb(folders, f, 0) == Some(f);
    } else if f in folders && parent.None? {
      var ranks :| Ranked(folders, ranks);
      assert Ranked(Reparented(folders, f, None), ranks);
    }
  }

  /** Each refusal names what is wrong: the folder, the target, or how the two lie to each other. */
  lemma MoveRefusalNames(folders: Folders, owner: UserId, f: FolderId, parent: Option<FolderId>)
    ensures var refusal, mine := MoveRefusal(folders, owner, f, parent), f in folders && folders[f].owner == owner;
      && (refusal == Some(FolderNotFound) <==> !mine)
      && (refusal == Some(IntoItself) <==> mine && parent == Some(f))
      && (refusal == Some(TargetNotFound) <==>
        mine && parent.Some? && !(parent.value in folders && folders[parent.value].owner == owner))
      && (refusal == Some(IntoSubfolder) <==>
        mine && parent.Some? && parent.value in Subtree(folders, f) - {f} && folders[parent.value].owner == owner)
  {
  }

  /** Whatever is deleted or moved along with a folder of the owner is the owner's. */
  lemma SubtreeIsOwners(folders: Folders, owner: UserId, f: FolderId)
    requires Forest(folders) && Owned(folders, owner, f)
    ensures forall x <- Subtree(folders, f) :: folders[x].owner == owner
  {
    var ranks :| Ranked(folders, ranks);
    forall x | x in Subtree(folders, f) ensures folders[x].owner == owner {
      var n: nat :| Climb(folders, x, n) == Some(f);
      ClimbRanks(folders, ranks, x, n);
    }
  }

  /** Deleting any one row, with or without children, leaves a forest in which its children are roots. */
  lemma RowGoneKeepsForest(folders: Folders, f: FolderId)
    requires Forest(folders)
    ensures var rest := WithoutRow(folders, f);
      && Forest(rest) && rest.Keys == folders.Keys - {f}
      && (forall x <- rest :: rest[x].owner == folders[x].owner)
      && forall x <- rest :: rest[x].parent == (if folders[x].parent == Some(f) then None else folders[x].parent)
  {
    var ranks :| Ranked(folders, ranks);
    assert Ranked(WithoutRow(folders, f), ranks);
  }

  /** Every file lies in a folder that exists, or at the top. */
  predicate Housed(folders: Folders, files: Files) {
    forall x <- files :: files[x].parent.None? || files[x].parent.value in folders
  }

  predicate Live(file: File) { file.deletedAt.None? }

  /**
   Deleting folders leaves every file housed and with its owner, a file outside where it was, and takes the live
   files of the owner inside, and no others, out of view.
   */
  lemma DeletionSpares(folders: Folders, before: Files, after: Files, hit: set<FolderId>, owner: UserId, now: Time)
    requires Housed(folders, before) && before.Keys == after.Keys
    requires forall x <- before :: FileDeleted(before[x], after[x], hit, owner, now)
    ensures Housed(folders - hit, after)
    ensures forall x <- before :: after[x].owner == before[x].owner
    ensures forall x <- before :: before[x].parent.None? || before[x].parent.value !in hit ==> after[x] == before[x]
    ensures forall x <- before :: before[x].parent.Some? && before[x].parent.value in hit ==>
      after[x].parent.None? && (Live(after[x]) <==> Live(before[x]) && before[x].owner != owner)
  {
  }
}
