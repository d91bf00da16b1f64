/**
 * The report builder's editor state (src/components/ReportBuilder.tsx): the ordered block list,
 * the selected block, and the in-progress move and resize gestures. Every edit replaces the
 * block list through one of addBlock, removeBlock and updateBlock.
 */
module ReportEditor {
  import opened Wrappers
  import opened Seqs
  import opened ReportGeometry

  /** `{ ...b, ...upd }`: every field the update carries replaces the block's own. */
  function Merge(b: Block, p: Patch): (r: Block)
    ensures r.id == b.id && r.kind == b.kind
    ensures p.x.Some? ==> r.x == p.x
    ensures p.x.None? ==> r.x == b.x
    ensures p.y.Some? ==> r.y == p.y
    ensures p.y.None? ==> r.y == b.y
    ensures p.width.Some? ==> r.width == p.width
    ensures p.width.None? ==> r.width == b.width
    ensures p.height.Some? ==> r.height == p.height
    ensures p.height.None? ==> r.height == b.height
    ensures p.text.Some? ==> r.text == p.text
    ensures p.text.None? ==> r.text == b.text
  {
    Block(b.id, b.kind,
          if p.text.Some? then p.text else b.text,
          if p.x.Some? then p.x else b.x,
          if p.y.Some? then p.y else b.y,
          if p.width.Some? then p.width else b.width,
          if p.height.Some? then p.height else b.height)
  }

  /** The map inside updateBlock: the patch merged into every block with the id, all others kept. */
  function UpdateById(bs: seq<Block>, id: string, p: Patch): (r: seq<Block>)
    ensures |r| == |bs|
    ensures forall i :: 0 <= i < |bs| && bs[i].id == id ==> r[i] == Merge(bs[i], p)
    ensures forall i :: 0 <= i < |bs| && bs[i].id != id ==> r[i] == bs[i]
  {
    if bs == [] then []
    else
      var rest := UpdateById(bs[1..], id, p);
      assert forall i :: 1 <= i < |bs| ==> bs[i] == bs[1..][i - 1];
      [if bs[0].id == id then Merge(bs[0], p) else bs[0]] + rest
  }

  /** The filter inside removeBlock. */
  function RemoveById(bs: seq<Block>, id: string): (r: seq<Block>) {
    Filter(bs, (b: Block) => b.id != id)
  }

  /** removeBlock keeps, in order, exactly the blocks with another id. */
  lemma RemoveByIdSpec(bs: seq<Block>, id: string)
    ensures IsSubsequence(RemoveById(bs, id), bs)
    ensures forall b :: b in RemoveById(bs, id) <==> b in bs && b.id != id
    ensures (forall i :: 0 <= i < |bs| ==> bs[i].id != id) ==> RemoveById(bs, id) == bs
  {
    FilterIsSubsequence(bs, (b: Block) => b.id != id);
    forall b ensures b in RemoveById(bs, id) <==> b in bs && b.id != id {
      FilterMembership(bs, (b: Block) => b.id != id, b);
    }
    if forall i :: 0 <= i < |bs| ==> bs[i].id != id {
      FilterKeepsAll(bs, (b: Block) => b.id != id);
    }
  }

  /** An update leaves the ids, hence each block's index and auto-flow predecessor, in place. */
  lemma UpdateKeepsIds(bs: seq<Block>, id: string, p: Patch)
    ensures forall i :: 0 <= i < |bs| ==> UpdateById(bs, id, p)[i].id == bs[i].id
    ensures (forall i :: 0 <= i < |bs| ==> bs[i].id != id) ==> UpdateById(bs, id, p) == bs
  {
  }

  /** A move patch changes only x and y; a resize patch changes only width and height. */
  lemma UpdateTouchesOnlyPatchedFields(bs: seq<Block>, id: string, p: Patch, i: int)
    requires 0 <= i < |bs|
    ensures var r := UpdateById(bs, id, p)[i];
      r.id == bs[i].id && r.kind == bs[i].kind &&
      (p.text.None? ==> r.text == bs[i].text) &&
      (p.x.None? ==> r.x == bs[i].x) && (p.y.None? ==> r.y == bs[i].y) &&
      (p.width.None? ==> r.width == bs[i].width) && (p.height.None? ==> r.height == bs[i].height)
  {
  }

  /** Every block carries explicit x and y, so none of them auto-flows. */
  predicate Positioned(bs: seq<Block>) {
    forall i :: 0 <= i < |bs| ==> HasPosition(bs[i])
  }

  /** In a positioned list every layout is the block's own stored position. */
  lemma PositionedLayoutIsStored(bs: seq<Block>, i: int, cw: int, ch: int)
    requires Positioned(bs) && 0 <= i < |bs|
    ensures var l := GetBlockLayout(bs[i], i, bs, cw, ch); l.x == bs[i].x.value && l.y == bs[i].y.value
  {
  }

  /** Adding, removing and updating blocks keep a list positioned: editor-made blocks never auto-flow. */
  lemma {:induction false} EditsKeepPositioned(bs: seq<Block>, kind: BlockType, atCursor: Option<Point>, cw: int, ch: int,
                                              id: string, p: Patch)
    requires Positioned(bs)
    ensures Positioned(bs + [CreateBlock(kind, bs, atCursor, cw, ch, id)])
    ensures Positioned(RemoveById(bs, id))
    ensures Positioned(UpdateById(bs, id, p))
  {
    var r := RemoveById(bs, id);
    forall i | 0 <= i < |r| ensures HasPosition(r[i]) {
      assert r[i] in bs;
    }
  }

  /** The first index holding the id (`find` / `indexOf`). */
  function FindIndex(bs: seq<Block>, id: string): (k: Option<nat>)
    ensures k.None? <==> forall i :: 0 <= i < |bs| ==> bs[i].id != id
    ensures k.Some? ==> k.value < |bs| && bs[k.value].id == id
    ensures k.Some? ==> forall i :: 0 <= i < k.value ==> bs[i].id != id
  {
    if bs == [] then None
    else if bs[0].id == id then Some(0)
    else
      var rest := FindIndex(bs[1..], id);
      assert forall i :: 1 <= i < |bs| ==> bs[i] == bs[1..][i - 1];
      if rest.None? then None else Some(rest.value + 1)
  }

  /** The layout of the first block with the id, if any. */
  function LayoutOf(bs: seq<Block>, id: string, cw: int, ch: int): (l: Option<Box>)
    ensures l.Some? <==> FindIndex(bs, id).Some?
  {
    match FindIndex(bs, id)
    case None => None
    case Some(k) => Some(GetBlockLayout(bs[k], k, bs, cw, ch))
  }

  /** A drag in progress: the block, the pointer's offset from its origin, and its layout at the start. */
  datatype MoveDrag = MoveDrag(blockId: string, offset: Point, layout: Box)

  /** A resize in progress: the block, the pointer at the start, and the block's layout then. */
  datatype ResizeDrag = ResizeDrag(blockId: string, startPointer: Point, start: Box)

  /** The patch a pointer move sends during a drag. */
  function MovePatch(d: MoveDrag, pointer: Point, cw: int, ch: int): (p: Patch)
    ensures p.text.None? && p.width.None? && p.height.None? && p.x.Some? && p.y.Some?
    ensures d.layout.width <= cw && d.layout.height <= ch ==>
              Fits(Box(p.x.value, p.y.value, d.layout.width, d.layout.height), cw, ch)
  {
    var t := MoveTarget(d.layout, pointer, d.offset, cw, ch);
    Patch(None, Some(t.x), Some(t.y), None, None)
  }

  /** The patch a pointer move sends during a resize. */
  function ResizePatch(d: ResizeDrag, pointer: Point, cw: int, ch: int): (p: Patch)
    ensures p.text.None? && p.x.None? && p.y.None? && p.width.Some? && p.height.Some?
    ensures MinBlockWidth <= p.width.value && MinBlockHeight <= p.height.value
    ensures Fits(d.start, cw, ch) && MinBlockWidth <= d.start.width && MinBlockHeight <= d.start.height ==>
              Fits(Box(d.start.x, d.start.y, p.width.value, p.height.value), cw, ch)
  {
    var delta := Point(pointer.x - d.startPointer.x, pointer.y - d.startPointer.y);
    var s := ResizeTarget(d.start, delta, cw, ch);
    Patch(None, None, None, Some(s.width), Some(s.height))
  }

  class Editor {
    /** value.blocks */
    var blocks: seq<Block>
    /** selectedBlockId */
    var selected: Option<string>
    /** blockDrag and the layout its listeners captured */
    var moveDrag: Option<MoveDrag>
    /** resizeRef.current */
    var resizeDrag: Option<ResizeDrag>

    constructor(initial: seq<Block>)
      ensures blocks == initial && selected == None && moveDrag == None && resizeDrag == None
    {
      blocks := initial;
      selected := None;
      moveDrag := None;
      resizeDrag := None;
    }

    /** addBlock: exactly one new block, appended at the end. */
    method AddBlock(kind: BlockType, atCursor: Option<Point>, cw: int, ch: int, id: string)
      modifies this`blocks
      ensures blocks == old(blocks) + [CreateBlock(kind, old(blocks), atCursor, cw, ch, id)]
      ensures |blocks| == |old(blocks)| + 1 && blocks[..|old(blocks)|] == old(blocks)
      ensures Positioned(old(blocks)) ==> Positioned(blocks)
    {
      if Positioned(blocks) {
        EditsKeepPositioned(blocks, kind, atCursor, cw, ch, id, Patch(None, None, None, None, None));
      }
      var b := CreateBlock(kind, blocks, atCursor, cw, ch, id);
      blocks := blocks + [b];
    }

    /** removeBlock: the blocks with the id go; the selection is cleared iff it was that id. */
    method RemoveBlock(id: string)
      modifies this`blocks, this`selected
      ensures blocks == RemoveById(old(blocks), id)
      ensures forall b :: b in blocks <==> b in old(blocks) && b.id != id
      ensures selected == (if old(selected) == Some(id) then None else old(selected))
      ensures Positioned(old(blocks)) ==> Positioned(blocks)
    {
      if Positioned(blocks) {
        EditsKeepPositioned(blocks, Chart, None, 0, 0, id, Patch(None, None, None, None, None));
      }
      RemoveByIdSpec(blocks, id);
      blocks := RemoveById(blocks, id);
      if selected == Some(id) {
        selected := None;
      }
    }

    /** updateBlock: the patch merged into every block with the id; length and order kept. */
    method UpdateBlock(id: string, p: Patch)
      modifies this`blocks
      ensures blocks == UpdateById(old(blocks), id, p)
      ensures |blocks| == |old(blocks)|
      ensures Positioned(old(blocks)) ==> Positioned(blocks)
    {
      if Positioned(blocks) {
        EditsKeepPositioned(blocks, Chart, None, 0, 0, id, p);
      }
      blocks := UpdateById(blocks, id, p);
    }

    /** A click on a block selects it; a click on the empty canvas clears the selection. */
    method Select(id: Option<string>)
      modifies this`selected
      ensures selected == id
    {
      selected := id;
    }

    /** The "+" button of a palette item: added below the others. */
    method PaletteClick(kind: BlockType, cw: int, ch: int, id: string)
      modifies this`blocks
      ensures blocks == old(blocks) + [CreateBlock(kind, old(blocks), None, cw, ch, id)]
    {
      AddBlock(kind, None, cw, ch, id);
    }

    /** Releasing a palette drag: inside the canvas a block is added at the clamped point; outside, nothing. */
    method PaletteDrop(kind: BlockType, inCanvas: bool, at: Point, cw: int, ch: int, id: string)
      modifies this`blocks
      ensures inCanvas ==> blocks == old(blocks) + [CreateBlock(kind, old(blocks), Some(at), cw, ch, id)]
      ensures !inCanvas ==> blocks == old(blocks)
    {
      if inCanvas {
        PaletteClampRedundant(kind, blocks, at, cw, ch, id);
        AddBlock(kind, Some(PaletteDropPoint(at, cw, ch)), cw, ch, id);
      }
    }

    /**
     * A popover input of the block rendered at `index`: the input is clamped against that block's
     * own layout, and the clamped box replaces all four of its geometry fields. One edit on a block
     * whose layout lies inside the canvas keeps it inside.
     */
    method PopoverEdit(index: nat, f: PopoverField, entry: Option<int>, cw: int, ch: int)
      requires index < |blocks|
      modifies this`blocks
      ensures blocks == UpdateById(old(blocks), old(blocks)[index].id,
                BoxPatch(PopoverClamp(GetBlockLayout(old(blocks)[index], index, old(blocks), cw, ch), PopoverPatch(f, entry), cw, ch)))
      ensures var l := GetBlockLayout(old(blocks)[index], index, old(blocks), cw, ch);
              Fits(l, cw, ch) && MinBlockWidth <= l.width && MinBlockHeight <= l.height ==>
                Fits(GetBlockLayout(blocks[index], index, blocks, cw, ch), cw, ch)
    {
      var b := blocks[index];
      var layout := GetBlockLayout(b, index, blocks, cw, ch);
      var clamped := PopoverClamp(layout, PopoverPatch(f, entry), cw, ch);
      if Fits(layout, cw, ch) && MinBlockWidth <= layout.width && MinBlockHeight <= layout.height {
        PopoverSingleEditKeepsFit(layout, f, entry, cw, ch);
      }
      UpdateBlock(b.id, BoxPatch(clamped));
      assert blocks[index] == Merge(b, BoxPatch(clamped));
    }

    /** Typing in a text block replaces its text. */
    method EditText(id: string, text: string)
      modifies this`blocks
      ensures blocks == UpdateById(old(blocks), id, Patch(Some(text), None, None, None, None))
    {
      UpdateBlock(id, Patch(Some(text), None, None, None, None));
    }

    /** Pointer down on a block's handle: records the offset from the block's current layout. */
    method BeginMove(id: string, pointer: Point, cw: int, ch: int)
      modifies this`moveDrag
      ensures LayoutOf(blocks, id, cw, ch).None? ==> moveDrag == old(moveDrag)
      ensures LayoutOf(blocks, id, cw, ch).Some? ==>
                var l := LayoutOf(blocks, id, cw, ch).value;
                moveDrag == Some(MoveDrag(id, Point(pointer.x - l.x, pointer.y - l.y), l))
    {
      var l := LayoutOf(blocks, id, cw, ch);
      if l.Some? {
        moveDrag := Some(MoveDrag(id, Point(pointer.x - l.value.x, pointer.y - l.value.y), l.value));
      }
    }

    /** A pointer move while dragging: only x and y of the dragged block change. */
    method Move(pointer: Point, cw: int, ch: int)
      modifies this`blocks
      ensures moveDrag.None? ==> blocks == old(blocks)
      ensures moveDrag.Some? ==> blocks == UpdateById(old(blocks), moveDrag.value.blockId, MovePatch(moveDrag.value, pointer, cw, ch))
    {
      if moveDrag.Some? {
        UpdateBlock(moveDrag.value.blockId, MovePatch(moveDrag.value, pointer, cw, ch));
      }
    }

    method EndMove()
      modifies this`moveDrag
      ensures moveDrag == None
    {
      moveDrag := None;
    }

    /**
     * Pointer down on the resize handle of the block rendered at `index`: records the pointer and
     * that block's layout, computed at the first index holding its id.
     */
    method BeginResize(index: nat, pointer: Point, cw: int, ch: int)
      requires index < |blocks|
      modifies this`resizeDrag
      ensures var b := blocks[index];
              resizeDrag == Some(ResizeDrag(b.id, pointer, GetBlockLayout(b, FindIndex(blocks, b.id).value, blocks, cw, ch)))
      ensures FindIndex(blocks, blocks[index].id) == Some(index) ==>
                resizeDrag.value.start == GetBlockLayout(blocks[index], index, blocks, cw, ch)
    {
      var b := blocks[index];
      var k := FindIndex(blocks, b.id).value;
      resizeDrag := Some(ResizeDrag(b.id, pointer, GetBlockLayout(b, k, blocks, cw, ch)));
    }

    /** A pointer move while resizing: only width and height of the resized block change. */
    method Resize(pointer: Point, cw: int, ch: int)
      modifies this`blocks
      ensures resizeDrag.None? ==> blocks == old(blocks)
      ensures resizeDrag.Some? ==>
                blocks == UpdateById(old(blocks), resizeDrag.value.blockId, ResizePatch(resizeDrag.value, pointer, cw, ch))
    {
      if resizeDrag.Some? {
        UpdateBlock(resizeDrag.value.blockId, ResizePatch(resizeDrag.value, pointer, cw, ch));
      }
    }

    method EndResize()
      modifies this`resizeDrag
      ensures resizeDrag == None
    {
      resizeDrag := None;
    }
  }

  /**
   * Blocks added by click never auto-flow: after adding a chart and a table and moving the chart
   * to (50, 50), the table stays at y = 110. Only a table without stored x and y would follow the
   * chart's stored bottom to y = 140.
   */
  lemma MovingFirstBlockLeavesSecond()
    ensures
      var chart := CreateBlock(Chart, [], None, 400, 560, "c");
      var table := CreateBlock(Table, [chart], None, 400, 560, "t");
      var moved := UpdateById([chart, table], "c", Patch(None, Some(50), Some(50), None, None));
      GetBlockLayout(chart, 0, [chart, table], 400, 560) == Box(20, 20, 360, 80) &&
      GetBlockLayout(moved[1], 1, moved, 400, 560) == Box(20, 110, 360, 80) &&
      GetBlockLayout(table.(x := None, y := None), 1, moved, 400, 560) == Box(20, 140, 360, 80)
  {
    var chart := CreateBlock(Chart, [], None, 400, 560, "c");
    assert [chart][1..] == [];
    assert MaxStoredBottom([chart]) == 100;
  }
}
