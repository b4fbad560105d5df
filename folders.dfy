/**
 * The folder forest of a project as the client holds it: a list of folder
 * records linked by `parentId`. Lookups go through `folders.find`, which
 * returns the first folder with the id. The parent chain of a folder is
 * followed one `find` at a time (client/src/components/TreePanel.tsx and
 * client/src/components/GenerateDialog.tsx); it ends when a folder has no
 * parent or its parent is not in the list. Nothing in the client forces the
 * chain to end, so the chains are bounded by a rank on the folder ids,
 * which exists exactly when the forest has no parent cycle.
 */
module Folders {
  import opened Common
  import opened Types

  /** The index of the first folder from `k` on whose id is `id`, or -1. */
  function FindFrom(fs: seq<Folder>, id: string, k: nat): (r: int)
    requires k <= |fs|
    ensures -1 <= r < |fs|
    ensures r >= 0 ==> k <= r && fs[r].id == id && forall j :: k <= j < r ==> fs[j].id != id
    ensures r < 0 ==> forall j :: k <= j < |fs| ==> fs[j].id != id
    decreases |fs| - k
  {
    if k == |fs| then -1 else if fs[k].id == id then k else FindFrom(fs, id, k + 1)
  }

  /** `folders.find((f) => f.id === id)`. */
  function Find(fs: seq<Folder>, id: string): (r: Option<Folder>)
    ensures r.Some? ==> r.value in fs && r.value.id == id
    ensures r.None? <==> forall f :: f in fs ==> f.id != id
  {
    var k := FindFrom(fs, id, 0);
    if k < 0 then None else Some(fs[k])
  }

  /** The folder `find` yields for `f.parentId`: none for a root folder or a parent that is not listed. */
  function Up(fs: seq<Folder>, f: Folder): (r: Option<Folder>)
    ensures r.Some? ==> r.value in fs && f.parentId == Some(r.value.id)
  {
    if f.parentId.None? then None else Find(fs, f.parentId.value)
  }

  /** Where the parent chain from `c` is after `n` steps. */
  function Climb(fs: seq<Folder>, c: Option<Folder>, n: nat): Option<Folder>
    decreases n
  {
    if n == 0 then c
    else match c
      case None => None
      case Some(f) => Climb(fs, Up(fs, f), n - 1)
  }

  /** One step more is one `Up` from where the chain was. */
  lemma {:induction false} ClimbSnoc(fs: seq<Folder>, c: Option<Folder>, n: nat)
    ensures Climb(fs, c, n + 1) == if Climb(fs, c, n).None? then None else Up(fs, Climb(fs, c, n).value)
    decreases n
  {
    if n > 0 && c.Some? {
      ClimbSnoc(fs, Up(fs, c.value), n - 1);
    }
  }

  /** Once the chain has ended it stays ended. */
  lemma {:induction false} ClimbPast(fs: seq<Folder>, c: Option<Folder>, m: nat, n: nat)
    requires m <= n && Climb(fs, c, m).None?
    ensures Climb(fs, c, n).None?
    decreases n - m
  {
    if m < n {
      ClimbSnoc(fs, c, m);
      ClimbPast(fs, c, m + 1, n);
    }
  }

  /** Every listed folder's id is ranked, and a folder's parent ranks below it. */
  predicate RankedBy(fs: seq<Folder>, rank: map<string, nat>) {
    forall f :: f in fs ==>
      f.id in rank && (Up(fs, f).Some? ==> Up(fs, f).value.id in rank && rank[Up(fs, f).value.id] < rank[f.id])
  }

  /** No parent chain runs in a circle. */
  ghost predicate Acyclic(fs: seq<Folder>) {
    exists rank :: RankedBy(fs, rank)
  }

  /** Folder ids are database keys: no two records share one. */
  predicate UniqueIds(fs: seq<Folder>) {
    forall i, j :: 0 <= i < j < |fs| ==> fs[i].id != fs[j].id
  }

  /** Database keys are never empty, so every id is truthy. */
  predicate NonEmptyIds(fs: seq<Folder>) {
    forall f :: f in fs ==> f.id != ""
  }

  /** With unique ids, looking a listed folder up by its id finds that folder. */
  lemma FindMember(fs: seq<Folder>, f: Folder)
    requires UniqueIds(fs) && f in fs
    ensures Find(fs, f.id) == Some(f)
  {
    var i :| 0 <= i < |fs| && fs[i] == f;
    var k := FindFrom(fs, f.id, 0);
    assert k >= 0;
    assert !(k < i) && !(i < k);
  }

  predicate HasParent(c: Option<Folder>, a: string) {
    c.Some? && c.value.parentId == Some(a)
  }

  /** `a` is the `parentId` of some folder on the chain from `f`: `a` is a strict ancestor of `f`. */
  ghost predicate AncestorOf(fs: seq<Folder>, a: string, f: Folder) {
    exists n: nat :: HasParent(Climb(fs, Some(f), n), a)
  }

  /** What `isDescendant(folderId, a)` is meant to answer. */
  ghost predicate IsDescendantOf(fs: seq<Folder>, folderId: string, a: string) {
    Find(fs, folderId).Some? && AncestorOf(fs, a, Find(fs, folderId).value)
  }

  /** The folder and everything below it. */
  ghost predicate InSubtree(fs: seq<Folder>, x: string, f: Folder) {
    f.id == x || AncestorOf(fs, x, f)
  }

  /** A folder whose parent is in the subtree of `x` is in it too. */
  lemma SubtreeClosed(fs: seq<Folder>, x: string, f: Folder)
    requires Up(fs, f).Some? && InSubtree(fs, x, Up(fs, f).value)
    ensures InSubtree(fs, x, f)
  {
    var p := Up(fs, f).value;
    if p.id == x {
      assert HasParent(Climb(fs, Some(f), 0), x);
    } else {
      var n: nat :| HasParent(Climb(fs, Some(p), n), x);
      assert Climb(fs, Some(f), n + 1) == Climb(fs, Some(p), n);
      assert HasParent(Climb(fs, Some(f), n + 1), x);
    }
  }

  /** `api.folders.update(id, { parentId })`, seen in the reloaded list. */
  function MoveFolder(fs: seq<Folder>, id: string, parent: Option<string>): (r: seq<Folder>)
    ensures |r| == |fs|
    ensures forall i :: 0 <= i < |fs| ==> r[i] == if fs[i].id == id then fs[i].(parentId := parent) else fs[i]
  {
    seq(|fs|, i requires 0 <= i < |fs| => if fs[i].id == id then fs[i].(parentId := parent) else fs[i])
  }

  /** Moving a folder changes no id, so a lookup finds the same record, with its new parent if moved. */
  lemma FindMoved(fs: seq<Folder>, id: string, parent: Option<string>, k: string)
    ensures var r := MoveFolder(fs, id, parent);
      Find(r, k).Some? == Find(fs, k).Some? &&
      (Find(fs, k).Some? ==>
        Find(r, k).value == if Find(fs, k).value.id == id then Find(fs, k).value.(parentId := parent) else Find(fs, k).value)
  {
    var r := MoveFolder(fs, id, parent);
    FindFromMoved(fs, r, id, parent, k, 0);
  }

  lemma {:induction false} FindFromMoved(fs: seq<Folder>, r: seq<Folder>, id: string, parent: Option<string>, k: string, j: nat)
    requires r == MoveFolder(fs, id, parent) && j <= |fs|
    ensures FindFrom(r, k, j) == FindFrom(fs, k, j)
    decreases |fs| - j
  {
    if j < |fs| {
      assert r[j].id == fs[j].id;
      FindFromMoved(fs, r, id, parent, k, j + 1);
    }
  }

  /** Ranks for the moved forest: the subtree of `x` is lifted by `d`. */
  ghost function Lifted(fs: seq<Folder>, rank: map<string, nat>, x: string, d: nat): (r: map<string, nat>)
    ensures r.Keys == rank.Keys
    ensures forall k :: k in rank ==>
      r[k] == if Find(fs, k).Some? && InSubtree(fs, x, Find(fs, k).value) then rank[k] + d else rank[k]
  {
    map k | k in rank :: if Find(fs, k).Some? && InSubtree(fs, x, Find(fs, k).value) then rank[k] + d else rank[k]
  }

  /**
   * Re-parenting folder `x` under `t` keeps the forest acyclic when `t` is
   * neither `x` nor inside the subtree of `x`: the guard of the tree's drop
   * handler.
   */
  lemma DropKeepsAcyclic(fs: seq<Folder>, x: string, t: Option<string>)
    requires UniqueIds(fs) && Acyclic(fs)
    requires t != Some(x)
    requires t.Some? ==> !IsDescendantOf(fs, t.value, x)
    ensures Acyclic(MoveFolder(fs, x, t))
  {
    var rank :| RankedBy(fs, rank);
    var r := MoveFolder(fs, x, t);
    if Find(fs, x).None? {
      assert r == fs;
      return;
    }
    var fx := Find(fs, x).value;
    var tRank := if t.Some? && Find(fs, t.value).Some? then rank[Find(fs, t.value).value.id] else 0;
    var d: nat := if tRank + 1 > rank[x] then tRank + 1 - rank[x] else 0;
    var rank' := Lifted(fs, rank, x, d);
    forall g | g in r
      ensures g.id in rank' && (Up(r, g).Some? ==> Up(r, g).value.id in rank' && rank'[Up(r, g).value.id] < rank'[g.id])
    {
      var i :| 0 <= i < |r| && r[i] == g;
      MovedEdge(fs, rank, x, t, d, fs[i]);
    }
    assert RankedBy(r, rank');
  }

  /** One edge of the moved forest, for the folder that was `f`. */
  lemma MovedEdge(fs: seq<Folder>, rank: map<string, nat>, x: string, t: Option<string>, d: nat, f: Folder)
    requires UniqueIds(fs) && RankedBy(fs, rank) && f in fs && Find(fs, x).Some?
    requires t != Some(x)
    requires t.Some? ==> !IsDescendantOf(fs, t.value, x)
    requires t.Some? && Find(fs, t.value).Some? ==> rank[Find(fs, t.value).value.id] < rank[x] + d
    ensures var r := MoveFolder(fs, x, t);
      var g := if f.id == x then f.(parentId := t) else f;
      var rank' := Lifted(fs, rank, x, d);
      g.id in rank' && (Up(r, g).Some? ==> Up(r, g).value.id in rank' && rank'[Up(r, g).value.id] < rank'[g.id])
  {
    var r := MoveFolder(fs, x, t);
    var g := if f.id == x then f.(parentId := t) else f;
    var rank' := Lifted(fs, rank, x, d);
    FindMember(fs, f);
    if g.parentId.Some? {
      var pid := g.parentId.value;
      FindMoved(fs, x, t, pid);
      if Find(fs, pid).Some? {
        var p := Find(fs, pid).value;
        assert p.id in rank;
        FindMember(fs, p);
        if f.id == x {
          assert Find(fs, x).value == f;
          assert pid != x && !InSubtree(fs, x, p);
          assert rank'[pid] == rank[pid];
        } else {
          assert Up(fs, f) == Some(p);
          if InSubtree(fs, x, p) {
            SubtreeClosed(fs, x, f);
          }
        }
      }
    }
  }
}
