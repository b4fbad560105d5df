/**
 * The block updaters of client/src/components/SlideCanvas.tsx. Every handler
 * of the canvas hands the slide editor an updater `(slide) => slide`; here
 * each updater is named by a `SlideOp` value and `ApplySlideOp` is the
 * function it stands for. Guards the handlers test before building the
 * updater (`slide.blocks.length <= 1`, the target index of a move, the
 * Backspace conditions) are tested on the same slide.
 */
module SlideCanvas {
  import opened Common
  import opened Types
  import opened SeqOps

  function BlockTypeOf(b: Block): BlockType {
    match b
    case Text(_) => TextType
    case Bullets(_) => BulletsType
    case Numbered(_) => NumberedType
    case Table(_, _) => TableType
    case Quote(_) => QuoteType
  }

  predicate IsList(b: Block) {
    b.Bullets? || b.Numbered?
  }

  /** Every row of a table has one cell per header. */
  predicate Rectangular(b: Block) {
    b.Table? ==> forall r :: 0 <= r < |b.rows| ==> |b.rows[r]| == |b.headers|
  }

  /** The block `addBlock` creates for each toolbar type. */
  function DefaultBlock(t: BlockType): Block {
    match t
    case TextType => Text("")
    case BulletsType => Bullets([""])
    case NumberedType => Numbered([""])
    case TableType => Table(["Header 1", "Header 2"], [["", ""]])
    case QuoteType => Quote("")
  }

  /** A new block has the requested type; a new table has two headers and one empty row of two cells. */
  lemma DefaultBlockShape(t: BlockType)
    ensures BlockTypeOf(DefaultBlock(t)) == t
    ensures Rectangular(DefaultBlock(t))
    ensures t == TableType ==> |DefaultBlock(t).headers| == 2 && DefaultBlock(t).rows == [["", ""]]
    ensures IsList(DefaultBlock(t)) ==> DefaultBlock(t).items == [""]
  {
  }

  // ---------------------------------------------------------------------
  // Edits of one block (`updateBlock(blockIndex, updater)`)

  datatype BlockEdit =
    /** `handleContentEditable(e, blockIndex, field, itemIndex, cellCol)` with the element's `innerText`. */
    | EditContent(field: string, itemIndex: Option<int>, cellCol: Option<int>, text: string)
    | AddTableRow
    | AddTableColumn
    | RemoveTableRow
    | RemoveTableColumn

  /** `new Array(n).fill('')`. */
  function Blanks(n: nat): (r: seq<string>)
    ensures |r| == n
    ensures forall i :: 0 <= i < n ==> r[i] == ""
  {
    if n == 0 then [] else Blanks(n - 1) + [""]
  }

  /** `rows.map((r) => [...r, ''])`. */
  function AppendBlankCell(rows: seq<seq<string>>): (r: seq<seq<string>>)
    ensures |r| == |rows|
    ensures forall i :: 0 <= i < |rows| ==> r[i] == rows[i] + [""]
  {
    if rows == [] then [] else [rows[0] + [""]] + AppendBlankCell(rows[1..])
  }

  /** `rows.map((r) => r.slice(0, -1))`: every row loses its last cell, an empty row stays empty. */
  function DropLastCell(rows: seq<seq<string>>): (r: seq<seq<string>>)
    ensures |r| == |rows|
    ensures forall i :: 0 <= i < |rows| ==>
      r[i] == if rows[i] == [] then [] else rows[i][..|rows[i]| - 1]
  {
    if rows == [] then [] else [JsSlice(rows[0], 0, -1)] + DropLastCell(rows[1..])
  }

  /**
   * `items[itemIndex] = text` on a copy. The canvas only passes the index of
   * a rendered item; an index outside the list is taken as no change.
   */
  function SetItem(items: seq<string>, idx: int, text: string): seq<string> {
    if 0 <= idx < |items| then ReplaceAt(items, idx, text) else items
  }

  /** The `handleContentEditable` updater. */
  function EditBlockContent(b: Block, field: string, itemIndex: Option<int>, cellCol: Option<int>, text: string): Block {
    if field == "content" && (b.Text? || b.Quote?) then b.(content := text)
    else if field == "item" && itemIndex.Some? && IsList(b) then b.(items := SetItem(b.items, itemIndex.value, text))
    else if field == "header" && itemIndex.Some? && b.Table? then b.(headers := SetItem(b.headers, itemIndex.value, text))
    else if field == "cell" && itemIndex.Some? && cellCol.Some? && b.Table? then
      (if 0 <= itemIndex.value < |b.rows|
       then b.(rows := ReplaceAt(b.rows, itemIndex.value, SetItem(b.rows[itemIndex.value], cellCol.value, text)))
       else b)
    else b
  }

  function ApplyBlockEdit(b: Block, e: BlockEdit): Block {
    match e
    case EditContent(field, itemIndex, cellCol, text) => EditBlockContent(b, field, itemIndex, cellCol, text)
    case AddTableRow =>
      if !b.Table? then b else b.(rows := b.rows + [Blanks(|b.headers|)])
    case AddTableColumn =>
      if !b.Table? then b
      else b.(headers := b.headers + ["Header " + NatToString(|b.headers| + 1)], rows := AppendBlankCell(b.rows))
    case RemoveTableRow =>
      if !b.Table? || |b.rows| <= 1 then b else b.(rows := JsSlice(b.rows, 0, -1))
    case RemoveTableColumn =>
      if !b.Table? || |b.headers| <= 1 then b
      else b.(headers := JsSlice(b.headers, 0, -1), rows := DropLastCell(b.rows))
  }

  /**
   * A content edit changes at most the named field of a block of the matching
   * type, at the named position; any other combination leaves the block as it is.
   */
  lemma ContentEditEffect(b: Block, field: string, itemIndex: Option<int>, cellCol: Option<int>, text: string)
    ensures var r := EditBlockContent(b, field, itemIndex, cellCol, text);
      BlockTypeOf(r) == BlockTypeOf(b) &&
      (field != "content" && field != "item" && field != "header" && field != "cell" ==> r == b) &&
      (field == "content" ==> r == (if b.Text? || b.Quote? then b.(content := text) else b)) &&
      (field == "item" && IsList(b) && itemIndex.Some? && 0 <= itemIndex.value < |b.items| ==>
        |r.items| == |b.items| && r.items[itemIndex.value] == text &&
        forall i :: 0 <= i < |b.items| && i != itemIndex.value ==> r.items[i] == b.items[i]) &&
      (field == "item" && !IsList(b) ==> r == b) &&
      (field == "header" && !b.Table? ==> r == b) &&
      (field == "cell" && b.Table? && itemIndex.Some? && !(0 <= itemIndex.value < |b.rows|) ==> r == b) &&
      (field == "cell" && b.Table? && itemIndex.Some? && cellCol.Some? && 0 <= itemIndex.value < |b.rows| ==>
        r.headers == b.headers && |r.rows| == |b.rows| &&
        (forall i :: 0 <= i < |b.rows| && i != itemIndex.value ==> r.rows[i] == b.rows[i]) &&
        |r.rows[itemIndex.value]| == |b.rows[itemIndex.value]|)
  {
  }

  /** Adding a row and then removing one gives the table back. */
  lemma TableRowRoundTrip(b: Block)
    requires b.Table? && |b.rows| >= 1
    ensures ApplyBlockEdit(ApplyBlockEdit(b, AddTableRow), RemoveTableRow) == b
  {
    var t := ApplyBlockEdit(b, AddTableRow);
    assert JsSlice(t.rows, 0, -1) == t.rows[..|b.rows|] == b.rows;
  }

  /** Adding a column and then removing one gives the table back. */
  lemma TableColumnRoundTrip(b: Block)
    requires b.Table? && |b.headers| >= 1
    ensures ApplyBlockEdit(ApplyBlockEdit(b, AddTableColumn), RemoveTableColumn) == b
  {
    var t := ApplyBlockEdit(b, AddTableColumn);
    assert JsSlice(t.headers, 0, -1) == t.headers[..|b.headers|] == b.headers;
    var d := DropLastCell(t.rows);
    assert d == b.rows by {
      assert |d| == |b.rows|;
      forall i | 0 <= i < |b.rows|
        ensures d[i] == b.rows[i]
      {
        assert t.rows[i] == b.rows[i] + [""];
        assert t.rows[i][..|t.rows[i]| - 1] == b.rows[i];
      }
    }
  }

  /** The table edits keep a rectangular table rectangular; they never touch another kind of block. */
  lemma TableEditsKeepShape(b: Block, e: BlockEdit)
    requires Rectangular(b)
    ensures Rectangular(ApplyBlockEdit(b, e))
    ensures !b.Table? && !e.EditContent? ==> ApplyBlockEdit(b, e) == b
  {
    var r := ApplyBlockEdit(b, e);
    if b.Table? {
      match e
      case EditContent(field, itemIndex, cellCol, text) =>
        ContentEditEffect(b, field, itemIndex, cellCol, text);
      case AddTableRow =>
      case AddTableColumn =>
      case RemoveTableRow =>
        if |b.rows| > 1 {
          assert r.rows == b.rows[..|b.rows| - 1];
        }
      case RemoveTableColumn =>
        if |b.headers| > 1 {
          assert |r.headers| == |b.headers| - 1;
          forall i | 0 <= i < |r.rows|
            ensures |r.rows[i]| == |r.headers|
          {
            assert |b.rows[i]| == |b.headers| >= 2;
          }
        }
    }
  }

  /** The row and column removals stop at one row and one header column. */
  lemma TableRemovalGuards(b: Block)
    requires b.Table?
    ensures |b.rows| <= 1 ==> ApplyBlockEdit(b, RemoveTableRow) == b
    ensures |b.rows| > 1 ==> ApplyBlockEdit(b, RemoveTableRow).rows == b.rows[..|b.rows| - 1]
    ensures |b.headers| <= 1 ==> ApplyBlockEdit(b, RemoveTableColumn) == b
    ensures |b.headers| > 1 ==> ApplyBlockEdit(b, RemoveTableColumn).headers == b.headers[..|b.headers| - 1]
    ensures ApplyBlockEdit(b, AddTableRow).rows == b.rows + [Blanks(|b.headers|)]
    ensures ApplyBlockEdit(b, AddTableColumn).headers == b.headers + ["Header " + NatToString(|b.headers| + 1)]
  {
  }

  /** `s.blocks.map((b, i) => (i === blockIndex ? updater(b) : b))`. */
  function UpdateBlock(blocks: seq<Block>, k: int, e: BlockEdit): seq<Block> {
    if 0 <= k < |blocks| then ReplaceAt(blocks, k, ApplyBlockEdit(blocks[k], e)) else blocks
  }

  // ---------------------------------------------------------------------
  // Slide updaters

  datatype SlideOp =
    /** The title's `onInput`. */
    | SetTitle(text: string)
    /** `updateBlock(blockIndex, updater)`. */
    | EditBlock(blockIndex: int, edit: BlockEdit)
    /** `addBlock(type, afterIndex)`. */
    | AddBlock(blockType: BlockType, afterIndex: int)
    /** `deleteBlock(index)`. */
    | DeleteBlock(index: int)
    /** `moveBlock(from, to)`; `from` is the focused block. */
    | MoveBlock(from: int, to: int)
    /** Enter in item `itemIndex` of the list block at `blockIndex`. */
    | ListEnter(blockIndex: int, itemIndex: int)
    /** Backspace in item `itemIndex`, whose text is `itemText`. */
    | ListBackspace(blockIndex: int, itemIndex: int, itemText: string)

  /** The operations the canvas can issue on `s`: a move starts at an existing (focused) block. */
  predicate OpAllowed(s: Slide, op: SlideOp) {
    op.MoveBlock? ==> 0 <= op.from < |s.blocks|
  }

  function ApplySlideOp(s: Slide, op: SlideOp): Slide
    requires OpAllowed(s, op)
  {
    match op
    case SetTitle(text) => s.(title := text)
    case EditBlock(k, e) => s.(blocks := UpdateBlock(s.blocks, k, e))
    case AddBlock(t, after) => s.(blocks := InsertAfter(s.blocks, after, DefaultBlock(t)))
    case DeleteBlock(k) => if |s.blocks| <= 1 then s else s.(blocks := RemoveAt(s.blocks, k))
    case MoveBlock(from, to) => if to < 0 || to >= |s.blocks| then s else s.(blocks := Move(s.blocks, from, to))
    case ListEnter(k, i) =>
      if 0 <= k < |s.blocks| && IsList(s.blocks[k])
      then s.(blocks := ReplaceAt(s.blocks, k, s.blocks[k].(items := InsertAfter(s.blocks[k].items, i, ""))))
      else s
    case ListBackspace(k, i, itemText) =>
      if 0 <= k < |s.blocks| && IsList(s.blocks[k]) && itemText == "" && |s.blocks[k].items| > 1
      then s.(blocks := ReplaceAt(s.blocks, k, s.blocks[k].(items := RemoveAt(s.blocks[k].items, i))))
      else s
  }

  /** Every updater keeps the slide's id and notes; only a title edit changes the title. */
  lemma OpsKeepIdentity(s: Slide, op: SlideOp)
    requires OpAllowed(s, op)
    ensures ApplySlideOp(s, op).id == s.id && ApplySlideOp(s, op).notes == s.notes
    ensures !op.SetTitle? ==> ApplySlideOp(s, op).title == s.title
    ensures op.SetTitle? ==> ApplySlideOp(s, op) == s.(title := op.text)
  {
  }

  /** `updateBlock` replaces the block at `blockIndex` by its edited form and keeps every other block. */
  lemma EditBlockEffect(s: Slide, k: int, e: BlockEdit)
    ensures var r := ApplySlideOp(s, EditBlock(k, e)).blocks;
      |r| == |s.blocks| &&
      (forall i :: 0 <= i < |s.blocks| && i != k ==> r[i] == s.blocks[i]) &&
      (0 <= k < |s.blocks| ==> r[k] == ApplyBlockEdit(s.blocks[k], e))
  {
  }

  /** `addBlock` inserts exactly one default block right after `afterIndex`. */
  lemma AddBlockEffect(s: Slide, t: BlockType, after: int)
    requires -1 <= after < |s.blocks|
    ensures var r := ApplySlideOp(s, AddBlock(t, after)).blocks;
      |r| == |s.blocks| + 1 && r == s.blocks[..after + 1] + [DefaultBlock(t)] + s.blocks[after + 1..] &&
      RemoveAt(r, after + 1) == s.blocks
  {
    InsertAfterInRange(s.blocks, after, DefaultBlock(t));
    RemoveAfterInsert(s.blocks, after, DefaultBlock(t));
  }

  /** `deleteBlock` never removes the last block; otherwise it removes exactly the one at `index`. */
  lemma DeleteBlockEffect(s: Slide, k: int)
    ensures var r := ApplySlideOp(s, DeleteBlock(k)).blocks;
      (|s.blocks| <= 1 ==> r == s.blocks) &&
      (|s.blocks| > 1 && 0 <= k < |s.blocks| ==> |r| == |s.blocks| - 1 && r == s.blocks[..k] + s.blocks[k + 1..]) &&
      (|s.blocks| >= 1 ==> |r| >= 1)
  {
  }

  /** `moveBlock` ignores a target outside the slide; otherwise it permutes the blocks, the moved one landing at `to`. */
  lemma MoveBlockEffect(s: Slide, from: int, to: int)
    requires 0 <= from < |s.blocks|
    ensures var r := ApplySlideOp(s, MoveBlock(from, to)).blocks;
      (to < 0 || to >= |s.blocks| ==> r == s.blocks) &&
      (0 <= to < |s.blocks| ==>
        (multiset(r) == multiset(s.blocks) && r[to] == s.blocks[from] &&
         ApplySlideOp(s.(blocks := r), MoveBlock(to, from)).blocks == s.blocks))
  {
    if 0 <= to < |s.blocks| {
      MoveIsPermutation(s.blocks, from, to);
      MoveBack(s.blocks, from, to);
    }
  }

  /** Enter adds one empty item right after the current one; Backspace on that empty item takes it away again. */
  lemma ListEnterThenBackspace(s: Slide, k: int, i: int)
    requires 0 <= k < |s.blocks| && IsList(s.blocks[k]) && |s.blocks[k].items| >= 1
    requires -1 <= i < |s.blocks[k].items|
    ensures var t := ApplySlideOp(s, ListEnter(k, i));
      t.blocks[k].items == s.blocks[k].items[..i + 1] + [""] + s.blocks[k].items[i + 1..] &&
      (forall j :: 0 <= j < |s.blocks| && j != k ==> t.blocks[j] == s.blocks[j]) &&
      ApplySlideOp(t, ListBackspace(k, i + 1, "")) == s
  {
    var items := s.blocks[k].items;
    InsertAfterInRange(items, i, "");
    RemoveAfterInsert(items, i, "");
    var t := ApplySlideOp(s, ListEnter(k, i));
    assert |t.blocks[k].items| > 1;
    var u := ApplySlideOp(t, ListBackspace(k, i + 1, ""));
    assert u.blocks[k] == s.blocks[k];
    assert u.blocks == s.blocks;
  }

  /** Backspace removes an item only from an empty item of a list with more than one: a list never becomes empty. */
  lemma ListBackspaceGuard(s: Slide, k: int, i: int, itemText: string)
    requires 0 <= k < |s.blocks| && IsList(s.blocks[k]) && |s.blocks[k].items| >= 1
    ensures var t := ApplySlideOp(s, ListBackspace(k, i, itemText));
      |t.blocks[k].items| >= 1 &&
      (itemText != "" || |s.blocks[k].items| == 1 ==> t == s)
  {
  }
}
