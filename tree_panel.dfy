/**
 * The project tree of client/src/components/TreePanel.tsx: which sections
 * and folders are expanded, the ancestor walk that guards a folder drop, the
 * drop handler, the ordering of a folder's children, the grouping of program
 * items by their `folder` label, and the submission of an inline rename.
 */
module TreePanel {
  import opened Common
  import opened Types
  import opened Folders

  /**
   * `isDescendant(folderId, a)`: walk up from `folderId` one `find` at a
   * time and answer whether some folder on the way has `a` as its parent.
   * The walk ends because the forest has no parent cycle.
   */
  method IsDescendant(fs: seq<Folder>, folderId: string, a: string) returns (r: bool)
    requires Acyclic(fs)
    ensures r <==> IsDescendantOf(fs, folderId, a)
  {
    ghost var rank :| RankedBy(fs, rank);
    var current := Find(fs, folderId);
    ghost var start := current;
    ghost var steps: nat := 0;
    while current.Some?
      invariant current == Climb(fs, start, steps)
      invariant current.Some? ==> current.value in fs
      invariant forall n: nat :: n < steps ==> !HasParent(Climb(fs, start, n), a)
      decreases if current.Some? then rank[current.value.id] + 1 else 0
    {
      if current.value.parentId == Some(a) {
        assert HasParent(Climb(fs, start, steps), a);
        return true;
      }
      ClimbSnoc(fs, start, steps);
      current := Up(fs, current.value);
      steps := steps + 1;
    }
    forall n: nat
      ensures !HasParent(Climb(fs, start, n), a)
    {
      if n >= steps {
        ClimbPast(fs, start, steps, n);
      }
    }
    return false;
  }

  /** The JSON payload a drag carries, or `None` when there is none. */
  datatype Dragged = DraggedResource(id: string) | DraggedFolder(id: string)

  /** The store or API call a drop makes. */
  datatype DropAction =
    | NoAction
    | SetResourceFolder(resourceId: string, folderId: Option<string>)
    | SetFolderParent(movedId: string, newParent: Option<string>)

  /**
   * `handleDrop(targetFolderId)`: a resource moves into the target as is; a
   * folder moves unless the target is the folder itself or, when the target
   * is truthy, lies inside the folder's subtree. A folder that does move
   * leaves the forest acyclic.
   */
  method HandleDrop(fs: seq<Folder>, payload: Option<Dragged>, target: Option<string>) returns (action: DropAction)
    requires Acyclic(fs)
    ensures payload.None? ==> action == NoAction
    ensures payload.Some? && payload.value.DraggedResource? ==> action == SetResourceFolder(payload.value.id, target)
    ensures payload.Some? && payload.value.DraggedFolder? ==>
      action == if target == Some(payload.value.id) || (Truthy(target) && IsDescendantOf(fs, target.value, payload.value.id))
        then NoAction else SetFolderParent(payload.value.id, target)
    ensures action.SetFolderParent? && UniqueIds(fs) && NonEmptyIds(fs) ==>
      Acyclic(MoveFolder(fs, action.movedId, action.newParent))
  {
    if payload.None? {
      return NoAction;
    }
    match payload.value
    case DraggedResource(id) =>
      action := SetResourceFolder(id, target);
    case DraggedFolder(id) =>
      if target == Some(id) {
        return NoAction;
      }
      if Truthy(target) {
        var inside := IsDescendant(fs, target.value, id);
        if inside {
          return NoAction;
        }
      }
      action := SetFolderParent(id, target);
      if UniqueIds(fs) && NonEmptyIds(fs) {
        if target.Some? && !Truthy(target) {
          assert Find(fs, target.value).None?;
        }
        DropKeepsAcyclic(fs, id, target);
      }
  }

  /** `folders.filter((f) => f.parentId === parentId)`. */
  function FoldersWithParent(fs: seq<Folder>, parent: Option<string>): (r: seq<Folder>)
    ensures forall f :: f in r <==> f in fs && f.parentId == parent
    ensures |r| <= |fs|
  {
    if fs == [] then []
    else if fs[0].parentId == parent then [fs[0]] + FoldersWithParent(fs[1..], parent)
    else FoldersWithParent(fs[1..], parent)
  }

  predicate SortedByOrder(s: seq<Folder>) {
    forall i, j :: 0 <= i < j < |s| ==> s[i].sortOrder <= s[j].sortOrder
  }

  lemma SortedCons(x: Folder, t: seq<Folder>)
    requires SortedByOrder(t) && (t == [] || x.sortOrder <= t[0].sortOrder)
    ensures SortedByOrder([x] + t)
  {
  }

  /** `f` placed before the first element of `s` whose order is not smaller. */
  function InsertByOrder(f: Folder, s: seq<Folder>): (r: seq<Folder>)
    requires SortedByOrder(s)
    ensures SortedByOrder(r)
    ensures multiset(r) == multiset(s) + multiset{f}
    ensures |r| == |s| + 1 && (r[0] == f || (|s| > 0 && r[0] == s[0]))
  {
    if s == [] then [f]
    else if f.sortOrder <= s[0].sortOrder then SortedCons(f, s); [f] + s
    else
      var rest := InsertByOrder(f, s[1..]);
      assert s == [s[0]] + s[1..];
      SortedCons(s[0], rest);
      [s[0]] + rest
  }

  /** `.sort((a, b) => a.sortOrder - b.sortOrder)`. */
  function SortByOrder(s: seq<Folder>): (r: seq<Folder>)
    ensures SortedByOrder(r)
    ensures multiset(r) == multiset(s)
  {
    if s == [] then []
    else
      assert s == [s[0]] + s[1..];
      InsertByOrder(s[0], SortByOrder(s[1..]))
  }

  /** The sub-folders `renderFolderContents(parentId)` lists, in display order. */
  function ChildFolders(fs: seq<Folder>, parent: Option<string>): seq<Folder> {
    SortByOrder(FoldersWithParent(fs, parent))
  }

  /** A folder's children are exactly the folders with that parent, ascending by `sortOrder`, each as often as listed. */
  lemma ChildFoldersMeaning(fs: seq<Folder>, parent: Option<string>)
    ensures var r := ChildFolders(fs, parent);
      SortedByOrder(r) &&
      multiset(r) == multiset(FoldersWithParent(fs, parent)) &&
      (forall f :: f in r <==> f in fs && f.parentId == parent)
  {
    var r := ChildFolders(fs, parent);
    forall f
      ensures f in r <==> f in FoldersWithParent(fs, parent)
    {
      assert f in r <==> f in multiset(r);
    }
  }

  /** `resources.filter((r) => r.folderId === parentId)`. */
  function ChildResources(rs: seq<Resource>, parent: Option<string>): (r: seq<Resource>)
    ensures forall x :: x in r <==> x in rs && x.folderId == parent
    ensures |r| <= |rs|
  {
    if rs == [] then []
    else if rs[0].folderId == parent then [rs[0]] + ChildResources(rs[1..], parent)
    else ChildResources(rs[1..], parent)
  }

  /** `items.filter((item) => !item.folder)`. */
  function Ungrouped(items: seq<ProgramItem>): (r: seq<ProgramItem>)
    ensures forall it :: it in r <==> it in items && !Truthy(it.folder)
  {
    if items == [] then []
    else if !Truthy(items[0].folder) then [items[0]] + Ungrouped(items[1..])
    else Ungrouped(items[1..])
  }

  /** `items.map((item) => item.folder).filter(Boolean)`. */
  function Labels(items: seq<ProgramItem>): (r: seq<string>)
    ensures forall n :: n in r <==> exists it :: it in items && Truthy(it.folder) && it.folder.value == n
  {
    if items == [] then []
    else
      var rest := Labels(items[1..]);
      assert forall it :: it in items <==> it == items[0] || it in items[1..];
      if Truthy(items[0].folder) then [items[0].folder.value] + rest else rest
  }

  /** `[...new Set(s)]`: the distinct elements of `s`, each where it first occurs. */
  function Dedup(s: seq<string>): (r: seq<string>)
    ensures forall x :: x in r <==> x in s
    ensures forall i, j :: 0 <= i < j < |r| ==> r[i] != r[j]
  {
    if s == [] then []
    else
      var d := Dedup(s[..|s| - 1]);
      assert s == s[..|s| - 1] + [s[|s| - 1]];
      if s[|s| - 1] in d then d else d + [s[|s| - 1]]
  }

  /** The index of the first occurrence of `x` in `s`. */
  function FirstIndex(s: seq<string>, x: string): (k: nat)
    requires x in s
    ensures k < |s| && s[k] == x && forall j :: 0 <= j < k ==> s[j] != x
  {
    if s[0] == x then 0 else FirstIndex(s[1..], x) + 1
  }

  /** Appending keeps the first occurrence of anything already present. */
  lemma {:induction false} FirstIndexAppend(s: seq<string>, y: string, x: string)
    requires x in s
    ensures FirstIndex(s + [y], x) == FirstIndex(s, x)
  {
    if s[0] != x {
      assert (s + [y])[1..] == s[1..] + [y];
      FirstIndexAppend(s[1..], y, x);
    }
  }

  /** Of two distinct elements, the earlier one occurs first. */
  lemma {:induction false} DedupOrderAt(s: seq<string>, i: nat, j: nat)
    requires i < j < |Dedup(s)|
    ensures FirstIndex(s, Dedup(s)[i]) < FirstIndex(s, Dedup(s)[j])
  {
    var p, y := s[..|s| - 1], s[|s| - 1];
    assert s == p + [y];
    var d := Dedup(p);
    var r := Dedup(s);
    assert r == if y in d then d else d + [y];
    assert r[i] == d[i] && d[i] in d;
    FirstIndexAppend(p, y, r[i]);
    if j < |d| {
      assert r[j] == d[j] && d[j] in d;
      FirstIndexAppend(p, y, r[j]);
      DedupOrderAt(p, i, j);
    } else {
      assert r[j] == y && y !in p;
      assert FirstIndex(s, y) == |p|;
    }
  }

  /** The distinct elements come in the order of their first occurrences. */
  lemma DedupOrder(s: seq<string>)
    ensures var r := Dedup(s);
      forall i, j :: 0 <= i < j < |r| ==> FirstIndex(s, r[i]) < FirstIndex(s, r[j])
  {
    forall i: nat, j: nat | i < j < |Dedup(s)|
      ensures FirstIndex(s, Dedup(s)[i]) < FirstIndex(s, Dedup(s)[j])
    {
      DedupOrderAt(s, i, j);
    }
  }

  /** The folder labels `renderGroupedProgramItems` shows, one group each. */
  function FolderNames(items: seq<ProgramItem>): seq<string> {
    Dedup(Labels(items))
  }

  /** `items.filter((item) => item.folder === folderName)`. */
  function FolderItems(items: seq<ProgramItem>, name: string): (r: seq<ProgramItem>)
    ensures forall it :: it in r <==> it in items && it.folder == Some(name)
  {
    if items == [] then []
    else if items[0].folder == Some(name) then [items[0]] + FolderItems(items[1..], name)
    else FolderItems(items[1..], name)
  }

  /**
   * The grouped list shows every item exactly once: an item without a
   * truthy label among the ungrouped ones and in no group, an item with one
   * in the single group of that label, and the groups are distinct labels
   * in order of first use.
   */
  lemma GroupingPartition(items: seq<ProgramItem>)
    ensures var names := FolderNames(items);
      (forall i, j :: 0 <= i < j < |names| ==> names[i] != names[j]) &&
      (forall n :: n in names <==> exists it :: it in items && Truthy(it.folder) && it.folder.value == n) &&
      (forall it :: it in items && !Truthy(it.folder) ==>
        it in Ungrouped(items) && forall n :: n in names ==> it !in FolderItems(items, n)) &&
      (forall it :: it in items && Truthy(it.folder) ==>
        it !in Ungrouped(items) && it.folder.value in names &&
        forall n :: n in names ==> (it in FolderItems(items, n) <==> n == it.folder.value))
  {
    var names := FolderNames(items);
    forall it | it in items && !Truthy(it.folder)
      ensures forall n :: n in names ==> it !in FolderItems(items, n)
    {
      forall n | n in names
        ensures it !in FolderItems(items, n)
      {
        assert n in Labels(items);
      }
    }
  }

  /** The group labels follow the first item that carries each. */
  lemma FolderNamesOrder(items: seq<ProgramItem>)
    ensures var names := FolderNames(items);
      forall i, j :: 0 <= i < j < |names| ==> FirstIndex(Labels(items), names[i]) < FirstIndex(Labels(items), names[j])
  {
    assert FolderNames(items) == Dedup(Labels(items));
    DedupOrder(Labels(items));
  }

  /** The characters `String.prototype.trim` removes: white space and line terminators. */
  predicate IsJsSpace(c: char) {
    c == ' ' || c == '\t' || c == '\n' || c == '\r' || c == '\U{000B}' || c == '\U{000C}' ||
    c == '\U{00A0}' || c == '\U{1680}' || ('\U{2000}' <= c <= '\U{200A}') || c == '\U{2028}' || c == '\U{2029}' ||
    c == '\U{202F}' || c == '\U{205F}' || c == '\U{3000}' || c == '\U{FEFF}'
  }

  predicate AllSpace(s: string) {
    forall k :: 0 <= k < |s| ==> IsJsSpace(s[k])
  }

  /** The end of the run of white space that starts at `i`. */
  function SkipSpace(s: string, i: nat): (r: nat)
    requires i <= |s|
    ensures i <= r <= |s|
    ensures forall k :: i <= k < r ==> IsJsSpace(s[k])
    ensures r < |s| ==> !IsJsSpace(s[r])
    decreases |s| - i
  {
    if i < |s| && IsJsSpace(s[i]) then SkipSpace(s, i + 1) else i
  }

  /** The start of the run of white space that ends at `j`, stopping at `lo`. */
  function SkipSpaceBack(s: string, lo: nat, j: nat): (r: nat)
    requires lo <= j <= |s|
    ensures lo <= r <= j
    ensures forall k :: r <= k < j ==> IsJsSpace(s[k])
    ensures r > lo ==> !IsJsSpace(s[r - 1])
    decreases j
  {
    if j > lo && IsJsSpace(s[j - 1]) then SkipSpaceBack(s, lo, j - 1) else j
  }

  /** `String.prototype.trim`: what lies between the leading and the trailing white space. */
  function Trim(s: string): (r: string)
    ensures r == [] || (!IsJsSpace(r[0]) && !IsJsSpace(r[|r| - 1]))
    ensures |r| <= |s|
  {
    var i := SkipSpace(s, 0);
    s[i..SkipSpaceBack(s, i, |s|)]
  }

  /** The trimmed text is a slice of `s` with only white space cut off either side. */
  lemma TrimBounds(s: string) returns (i: nat, j: nat)
    ensures i <= j <= |s| && Trim(s) == s[i..j]
    ensures forall k :: 0 <= k < i ==> IsJsSpace(s[k])
    ensures forall k :: j <= k < |s| ==> IsJsSpace(s[k])
  {
    i := SkipSpace(s, 0);
    j := SkipSpaceBack(s, i, |s|);
  }

  /** Trimming twice trims nothing more. */
  lemma TrimIdempotent(s: string)
    ensures Trim(Trim(s)) == Trim(s)
  {
    var r := Trim(s);
    if r != [] {
      assert SkipSpace(r, 0) == 0;
      assert SkipSpaceBack(r, 0, |r|) == |r|;
      assert r[0..|r|] == r;
    }
  }

  /** The trimmed text is empty exactly when the text is all white space. */
  lemma TrimBlank(s: string)
    ensures Trim(s) == "" <==> AllSpace(s)
  {
    var i, j := TrimBounds(s);
    if AllSpace(s) {
      assert SkipSpace(s, 0) == |s|;
    }
    if Trim(s) == "" {
      assert i == j;
    }
  }

  /** `programResourceTypes`: the tree-type tags of the four program resources. */
  function ProgramKindOf(t: string): (r: Option<ProgramKind>)
    ensures r.Some? <==> t in {"generation_prompt", "system_prompt", "output_format", "generation_pipeline"}
  {
    if t == "generation_prompt" then Some(GenerationPromptKind)
    else if t == "system_prompt" then Some(SystemPromptKind)
    else if t == "output_format" then Some(OutputFormatKind)
    else if t == "generation_pipeline" then Some(GenerationPipelineKind)
    else None
  }

  /** The update a rename submission makes. */
  datatype RenameCall =
    | NoCall
    | RenameFolderCall(id: string, name: string)
    | UpdateResourceName(id: string, name: string)
    | UpdateProgramName(kind: ProgramKind, id: string, name: string)

  /** Whether the user was asked to confirm, and the update made. */
  datatype RenameOutcome = RenameOutcome(asked: bool, call: RenameCall)

  /**
   * `handleRenameSubmit`, with the answer `confirm` would give as
   * `confirmed`. The edit is dropped when no item is being renamed or the
   * text is blank; renaming one of the four program resources to a new name
   * asks first; the call depends on the item's type.
   */
  function RenameSubmit(renamingId: Option<string>, renamingType: Option<string>, value: string, original: string, confirmed: bool): RenameOutcome {
    if !Truthy(renamingId) || Trim(value) == "" || !Truthy(renamingType) then RenameOutcome(false, NoCall)
    else
      var name := Trim(value);
      var id := renamingId.value;
      var t := renamingType.value;
      var ask := ProgramKindOf(t).Some? && name != original;
      if ask && !confirmed then RenameOutcome(true, NoCall)
      else
        RenameOutcome(ask,
          if t == "folder" then RenameFolderCall(id, name)
          else if t == "resource" then UpdateResourceName(id, name)
          else if ProgramKindOf(t).Some? then UpdateProgramName(ProgramKindOf(t).value, id, name)
          else NoCall)
  }

  /** A blank name, or no item or type being renamed, drops the edit without asking. */
  lemma RenameCancels(renamingId: Option<string>, renamingType: Option<string>, value: string, original: string, confirmed: bool)
    requires AllSpace(value) || !Truthy(renamingId) || !Truthy(renamingType)
    ensures RenameSubmit(renamingId, renamingType, value, original, confirmed) == RenameOutcome(false, NoCall)
  {
    TrimBlank(value);
  }

  /** The user is asked exactly when a program resource gets a name other than its own. */
  lemma RenameAsks(renamingId: Option<string>, renamingType: Option<string>, value: string, original: string, confirmed: bool)
    ensures var o := RenameSubmit(renamingId, renamingType, value, original, confirmed);
      (o.asked <==>
        Truthy(renamingId) && Truthy(renamingType) && !AllSpace(value) &&
        ProgramKindOf(renamingType.value).Some? && Trim(value) != original) &&
      (o.asked && !confirmed ==> o.call == NoCall)
  {
    TrimBlank(value);
  }

  /** A call renames the item being edited to the trimmed text, which is non-empty with no surrounding white space. */
  lemma RenameStoresTrimmed(renamingId: Option<string>, renamingType: Option<string>, value: string, original: string, confirmed: bool)
    ensures var o := RenameSubmit(renamingId, renamingType, value, original, confirmed);
      o.call != NoCall ==>
        renamingId == Some(o.call.id) && o.call.name == Trim(value) && o.call.name != "" &&
        !IsJsSpace(o.call.name[0]) && !IsJsSpace(o.call.name[|o.call.name| - 1]) && Trim(o.call.name) == o.call.name
  {
    TrimIdempotent(value);
  }

  /** The call made is the one for the item's type; an unknown type makes none. */
  lemma RenameDispatch(renamingId: Option<string>, renamingType: Option<string>, value: string, original: string, confirmed: bool)
    requires Truthy(renamingId) && !AllSpace(value) && Truthy(renamingType)
    ensures var o := RenameSubmit(renamingId, renamingType, value, original, confirmed);
      var t := renamingType.value;
      (o.call.RenameFolderCall? <==> t == "folder") &&
      (o.call.UpdateResourceName? <==> t == "resource") &&
      (o.call.UpdateProgramName? <==> ProgramKindOf(t).Some? && (Trim(value) == original || confirmed)) &&
      (o.call.UpdateProgramName? ==> Some(o.call.kind) == ProgramKindOf(t)) &&
      (o.call == NoCall <==>
        (ProgramKindOf(t).Some? && Trim(value) != original && !confirmed) || (t != "folder" && t != "resource" && ProgramKindOf(t).None?))
  {
    TrimBlank(value);
  }
}
