/**
 * Canvas geometry of the report builder (src/components/ReportBuilder.tsx): canvas size per
 * orientation, the layout of a block (explicit or auto-flow), block creation, and the three
 * clamping rules of the editor (position/size popover, drag-to-move, drag-to-resize).
 * Coordinates are integers.
 */
module ReportGeometry {
  import opened Wrappers

  const CanvasPortraitWidth: int := 400
  const CanvasPortraitHeight: int := 560
  const MinBlockWidth: int := 80
  const MinBlockHeight: int := 40
  const DefaultBlockWidth: int := 360
  const DefaultBlockHeight: int := 80
  const Margin: int := 20
  const Gap: int := 10

  datatype Orientation = Portrait | Landscape
  datatype Size = Size(width: int, height: int)
  datatype Point = Point(x: int, y: int)
  datatype Box = Box(x: int, y: int, width: int, height: int)

  datatype BlockType = Chart | Table | Summary | Text

  /** ReportBlock: position and size are optional; a block lacking x or y auto-flows. */
  datatype Block = Block(id: string, kind: BlockType, text: Option<string>,
                         x: Option<int>, y: Option<int>, width: Option<int>, height: Option<int>)

  function Min(a: int, b: int): int { if a <= b then a else b }
  function Max(a: int, b: int): int { if a >= b then a else b }

  /** The box lies inside a canvas of the given size. */
  predicate Fits(b: Box, cw: int, ch: int) {
    0 <= b.x && 0 <= b.y && b.x + b.width <= cw && b.y + b.height <= ch
  }

  /** getCanvasSize: portrait is 400 wide and 560 high; the default block fits either way. */
  function GetCanvasSize(o: Orientation): (s: Size)
    ensures DefaultBlockWidth <= s.width && DefaultBlockHeight <= s.height
    ensures MinBlockWidth <= s.width && MinBlockHeight <= s.height
  {
    if o == Landscape then Size(CanvasPortraitHeight, CanvasPortraitWidth)
    else Size(CanvasPortraitWidth, CanvasPortraitHeight)
  }

  /** Landscape is portrait with width and height swapped. */
  lemma LandscapeIsTransposedPortrait()
    ensures GetCanvasSize(Portrait) == Size(400, 560)
    ensures GetCanvasSize(Landscape) == Size(GetCanvasSize(Portrait).height, GetCanvasSize(Portrait).width)
  {
  }

  predicate HasPosition(b: Block) {
    b.x.Some? && b.y.Some?
  }

  /** The bottom edge a block's stored fields describe, defaults filled in. */
  function StoredBottom(b: Block): int {
    b.y.GetOr(Margin) + b.height.GetOr(DefaultBlockHeight)
  }

  /**
   * getBlockLayout. A block with both x and y keeps them; otherwise it auto-flows at the left
   * margin, at the top margin when first, else one gap below its predecessor's STORED bottom.
   * The source reads `all[index - 1]`, so an auto-flow block needs index 0 or a predecessor.
   */
  function GetBlockLayout(b: Block, index: int, all: seq<Block>, cw: int, ch: int): (l: Box)
    requires HasPosition(b) || 0 <= index <= |all|
    ensures l.width == b.width.GetOr(DefaultBlockWidth) && l.height == b.height.GetOr(DefaultBlockHeight)
    ensures HasPosition(b) ==> l.x == b.x.value && l.y == b.y.value
    ensures !HasPosition(b) ==> l.x == Margin
    ensures !HasPosition(b) && index == 0 ==> l.y == Margin
    ensures !HasPosition(b) && index > 0 ==> l.y == StoredBottom(all[index - 1]) + Gap
  {
    var width := b.width.GetOr(DefaultBlockWidth);
    var height := b.height.GetOr(DefaultBlockHeight);
    if HasPosition(b) then Box(b.x.value, b.y.value, width, height)
    else
      var y := if index == 0 then Margin else StoredBottom(all[index - 1]) + Gap;
      Box(Margin, y, width, height)
  }

  /** The canvas-size arguments never affect the layout. */
  lemma LayoutIgnoresCanvas(b: Block, index: int, all: seq<Block>, cw: int, ch: int, cw': int, ch': int)
    requires HasPosition(b) || 0 <= index <= |all|
    ensures GetBlockLayout(b, index, all, cw, ch) == GetBlockLayout(b, index, all, cw', ch')
  {
  }

  /** A block with only one of x and y set auto-flows: the coordinate it has is ignored. */
  lemma OneCoordinateIgnored(b: Block, index: int, all: seq<Block>, cw: int, ch: int)
    requires b.x.Some? != b.y.Some?
    requires 0 <= index <= |all|
    ensures GetBlockLayout(b, index, all, cw, ch) == GetBlockLayout(b.(x := None, y := None), index, all, cw, ch)
  {
  }

  /**
   * Auto-flow looks back exactly one block: two lists whose predecessors agree on stored y and
   * height give the same layout, whatever else either list holds.
   */
  lemma AutoFlowLooksBackOneBlock(b: Block, index: int, all: seq<Block>, all': seq<Block>, cw: int, ch: int)
    requires !HasPosition(b) && 0 < index <= |all| && index <= |all'|
    requires all[index - 1].y == all'[index - 1].y && all[index - 1].height == all'[index - 1].height
    ensures GetBlockLayout(b, index, all, cw, ch) == GetBlockLayout(b, index, all', cw, ch)
  {
  }

  predicate Overlap(a: Box, b: Box) {
    a.x < b.x + b.width && b.x < a.x + a.width && a.y < b.y + b.height && b.y < a.y + a.height
  }

  /** Three blocks without geometry: the second and third get the same box, one on top of the other. */
  lemma AutoFlowBlocksOverlap(cw: int, ch: int)
    ensures
      var all := [Block("a", Chart, None, None, None, None, None),
                  Block("b", Table, None, None, None, None, None),
                  Block("c", Summary, None, None, None, None, None)];
      var l1 := GetBlockLayout(all[1], 1, all, cw, ch);
      var l2 := GetBlockLayout(all[2], 2, all, cw, ch);
      l1 == l2 == Box(20, 110, 360, 80) && Overlap(l1, l2)
  {
  }

  /** The largest stored bottom of the blocks, and 0 (`Math.max(...bottoms, 0)`). */
  function MaxStoredBottom(bs: seq<Block>): (m: int)
    ensures 0 <= m
    ensures forall i :: 0 <= i < |bs| ==> StoredBottom(bs[i]) <= m
    ensures m == 0 || exists i :: 0 <= i < |bs| && StoredBottom(bs[i]) == m
  {
    if bs == [] then 0
    else
      var rest := MaxStoredBottom(bs[1..]);
      assert forall i :: 1 <= i < |bs| ==> bs[i] == bs[1..][i - 1];
      Max(StoredBottom(bs[0]), rest)
  }

  /** `Math.max(lo, Math.min(hi, v))`: the point of [lo, hi] nearest v, or lo when the range is empty. */
  function Clamp(lo: int, hi: int, v: int): (r: int)
    ensures lo <= r
    ensures lo <= hi ==> r <= hi
    ensures lo <= v <= hi ==> r == v
    ensures v < lo || hi < lo ==> r == lo
    ensures lo <= hi < v ==> r == hi
  {
    Max(lo, Min(hi, v))
  }

  /** Clamping twice into the same range is clamping once. */
  lemma ClampIdempotent(lo: int, hi: int, v: int)
    ensures Clamp(lo, hi, Clamp(lo, hi, v)) == Clamp(lo, hi, v)
  {
  }

  /**
   * createBlock: a default-sized block with explicit x and y, text "" exactly for text blocks.
   * Dropped at a cursor it is clamped into the canvas and sits at the cursor when it can; added
   * by click it goes at the left margin, one gap below the lowest stored bottom, unclamped.
   */
  function CreateBlock(kind: BlockType, existing: seq<Block>, atCursor: Option<Point>, cw: int, ch: int, id: string): (b: Block)
    ensures b.id == id && b.kind == kind
    ensures b.width == Some(DefaultBlockWidth) && b.height == Some(DefaultBlockHeight) && HasPosition(b)
    ensures b.text.Some? <==> kind == Text
    ensures b.text.Some? ==> b.text.value == ""
    ensures atCursor.Some? ==> 0 <= b.x.value && 0 <= b.y.value
    ensures atCursor.Some? && DefaultBlockWidth <= cw ==> b.x.value + DefaultBlockWidth <= cw
    ensures atCursor.Some? && DefaultBlockHeight <= ch ==> b.y.value + DefaultBlockHeight <= ch
    ensures atCursor.Some? && 0 <= atCursor.value.x <= cw - DefaultBlockWidth ==> b.x.value == atCursor.value.x
    ensures atCursor.Some? && 0 <= atCursor.value.y <= ch - DefaultBlockHeight ==> b.y.value == atCursor.value.y
    ensures atCursor.None? ==> b.x.value == Margin
    ensures atCursor.None? && existing == [] ==> b.y.value == Margin
    ensures atCursor.None? ==> forall i :: 0 <= i < |existing| ==> StoredBottom(existing[i]) + Gap <= b.y.value
    ensures atCursor.None? && existing != [] ==>
              b.y.value == Gap || exists i :: 0 <= i < |existing| && b.y.value == StoredBottom(existing[i]) + Gap
  {
    var text := if kind == Text then Some("") else None;
    match atCursor
    case Some(p) =>
      var x := Clamp(0, cw - DefaultBlockWidth, p.x);
      var y := Clamp(0, ch - DefaultBlockHeight, p.y);
      Block(id, kind, text, Some(x), Some(y), Some(DefaultBlockWidth), Some(DefaultBlockHeight))
    case None =>
      var y := if existing == [] then Margin else MaxStoredBottom(existing) + Gap;
      Block(id, kind, text, Some(Margin), Some(y), Some(DefaultBlockWidth), Some(DefaultBlockHeight))
  }

  /** The box of a block whose four fields are set. */
  function StoredBox(b: Block): Box
    requires HasPosition(b) && b.width.Some? && b.height.Some?
  {
    Box(b.x.value, b.y.value, b.width.value, b.height.value)
  }

  /** A block dropped anywhere onto either canvas lies wholly inside it. */
  lemma DroppedBlockFits(kind: BlockType, existing: seq<Block>, p: Point, o: Orientation, id: string)
    ensures
      var s := GetCanvasSize(o);
      Fits(StoredBox(CreateBlock(kind, existing, Some(p), s.width, s.height, id)), s.width, s.height)
  {
  }

  /** Adding by click below a block that touches the canvas bottom leaves the canvas. */
  lemma ClickAddCanLeaveCanvas()
    ensures
      var s := GetCanvasSize(Portrait);
      var below := Block("a", Chart, None, Some(20), Some(480), Some(360), Some(80));
      var b := CreateBlock(Table, [below], None, s.width, s.height, "b");
      Fits(StoredBox(below), s.width, s.height) && !Fits(StoredBox(b), s.width, s.height) && b.y == Some(570)
  {
    var below := Block("a", Chart, None, Some(20), Some(480), Some(360), Some(80));
    assert MaxStoredBottom([below]) == 560 by {
      assert [below][1..] == [];
    }
  }

  /** The palette drop clamps the cursor into the default block's range before createBlock does the same. */
  function PaletteDropPoint(p: Point, cw: int, ch: int): Point {
    Point(Clamp(0, cw - DefaultBlockWidth, p.x), Clamp(0, ch - DefaultBlockHeight, p.y))
  }

  /** So the palette's own clamp changes nothing. */
  lemma PaletteClampRedundant(kind: BlockType, existing: seq<Block>, p: Point, cw: int, ch: int, id: string)
    ensures CreateBlock(kind, existing, Some(PaletteDropPoint(p, cw, ch)), cw, ch, id)
         == CreateBlock(kind, existing, Some(p), cw, ch, id)
  {
    ClampIdempotent(0, cw - DefaultBlockWidth, p.x);
    ClampIdempotent(0, ch - DefaultBlockHeight, p.y);
  }

  /** A start and a length along one axis. */
  datatype Span = Span(start: int, length: int)

  /**
   * One axis of the popover clamp: the position is clamped against the requested length, and
   * the length against the requested position, not against each other's clamped values. The
   * span stays inside the extent whenever the requested length is in [minLength, extent].
   */
  function ClampAxis(pos: int, length: int, extent: int, minLength: int): (s: Span)
    ensures 0 <= s.start && minLength <= s.length
    ensures minLength <= length <= extent ==> s.start + s.length <= extent
    ensures minLength <= length && 0 <= pos && pos + length <= extent ==> s == Span(pos, length)
  {
    Span(Clamp(0, extent - length, pos), Max(minLength, Min(extent - pos, length)))
  }

  /** Conversely, any requested length outside [minLength, extent] overflows for some position. */
  lemma AxisOverflowsOutsideRange(length: int, extent: int, minLength: int)
    requires minLength <= extent
    requires length < minLength || extent < length
    ensures var s := ClampAxis(extent - length, length, extent, minLength); s.start + s.length > extent
  {
  }

  /** From a span inside the extent, editing only the position or only the length keeps it inside. */
  lemma AxisSingleEditKeepsFit(pos: int, length: int, extent: int, minLength: int, v: int)
    requires 0 <= pos && minLength <= length && pos + length <= extent
    ensures var s := ClampAxis(v, length, extent, minLength); s.start + s.length <= extent
    ensures var s := ClampAxis(pos, v, extent, minLength); s.start + s.length <= extent
  {
  }

  /** Partial<ReportBlock> as an update: `None` is a key the update does not carry. */
  datatype Patch = Patch(text: Option<string>, x: Option<int>, y: Option<int>, width: Option<int>, height: Option<int>)

  /** CanvasBlock's clamp: missing fields come from the current layout, then each axis is clamped. */
  function PopoverClamp(layout: Box, upd: Patch, cw: int, ch: int): (r: Box)
    ensures 0 <= r.x && 0 <= r.y && MinBlockWidth <= r.width && MinBlockHeight <= r.height
    ensures MinBlockWidth <= upd.width.GetOr(layout.width) <= cw ==> r.x + r.width <= cw
    ensures MinBlockHeight <= upd.height.GetOr(layout.height) <= ch ==> r.y + r.height <= ch
  {
    var h := ClampAxis(upd.x.GetOr(layout.x), upd.width.GetOr(layout.width), cw, MinBlockWidth);
    var v := ClampAxis(upd.y.GetOr(layout.y), upd.height.GetOr(layout.height), ch, MinBlockHeight);
    Box(h.start, v.start, h.length, v.length)
  }

  /** The update the popover sends: all four fields, from the clamped box. */
  function BoxPatch(b: Box): Patch {
    Patch(None, Some(b.x), Some(b.y), Some(b.width), Some(b.height))
  }

  datatype PopoverField = FieldX | FieldY | FieldWidth | FieldHeight

  /** The update one popover input sends; an emptied input sends 0 for x and y, the minimum for a size. */
  function PopoverPatch(f: PopoverField, entry: Option<int>): (p: Patch)
    ensures p.text.None?
    ensures f == FieldX <==> p.x.Some?
    ensures f == FieldY <==> p.y.Some?
    ensures f == FieldWidth <==> p.width.Some?
    ensures f == FieldHeight <==> p.height.Some?
    ensures entry.None? && p.width.Some? ==> p.width.value == MinBlockWidth
    ensures entry.None? && p.height.Some? ==> p.height.value == MinBlockHeight
  {
    match f
    case FieldX => Patch(None, Some(entry.GetOr(0)), None, None, None)
    case FieldY => Patch(None, None, Some(entry.GetOr(0)), None, None)
    case FieldWidth => Patch(None, None, None, Some(entry.GetOr(MinBlockWidth)), None)
    case FieldHeight => Patch(None, None, None, None, Some(entry.GetOr(MinBlockHeight)))
  }

  /** One popover input edited on a box already inside the canvas keeps it inside. */
  lemma PopoverSingleEditKeepsFit(layout: Box, f: PopoverField, entry: Option<int>, cw: int, ch: int)
    requires Fits(layout, cw, ch) && MinBlockWidth <= layout.width && MinBlockHeight <= layout.height
    ensures Fits(PopoverClamp(layout, PopoverPatch(f, entry), cw, ch), cw, ch)
  {
    var upd := PopoverPatch(f, entry);
    AxisSingleEditKeepsFit(layout.x, layout.width, cw, MinBlockWidth, upd.x.GetOr(layout.x));
    AxisSingleEditKeepsFit(layout.x, layout.width, cw, MinBlockWidth, upd.width.GetOr(layout.width));
    AxisSingleEditKeepsFit(layout.y, layout.height, ch, MinBlockHeight, upd.y.GetOr(layout.y));
    AxisSingleEditKeepsFit(layout.y, layout.height, ch, MinBlockHeight, upd.height.GetOr(layout.height));
  }

  /** x = 340 with a requested width of 50 on a 400-wide canvas gives width 80 and right edge 420. */
  lemma PopoverNarrowWidthOverflows()
    ensures
      var r := PopoverClamp(Box(340, 20, 60, 80), PopoverPatch(FieldWidth, Some(50)), 400, 560);
      r.x == 340 && r.width == 80 && r.x + r.width == 420
  {
  }

  /**
   * Drag-to-move: the pointer position minus the grab offset, clamped so the block's layout
   * size fits. It follows the pointer 1:1 while that stays in range.
   */
  function MoveTarget(layout: Box, pointer: Point, offset: Point, cw: int, ch: int): (p: Point)
    ensures 0 <= p.x && 0 <= p.y
    ensures layout.width <= cw ==> p.x + layout.width <= cw
    ensures layout.height <= ch ==> p.y + layout.height <= ch
    ensures 0 <= pointer.x - offset.x <= cw - layout.width ==> p.x == pointer.x - offset.x
    ensures 0 <= pointer.y - offset.y <= ch - layout.height ==> p.y == pointer.y - offset.y
  {
    Point(Clamp(0, cw - layout.width, pointer.x - offset.x), Clamp(0, ch - layout.height, pointer.y - offset.y))
  }

  /**
   * Drag-to-resize: the start size plus the pointer delta, at least the minimum and at most the
   * room left right of / below the layout origin. When that room is below the minimum, the
   * minimum wins and the block overflows.
   */
  function ResizeTarget(start: Box, delta: Point, cw: int, ch: int): (s: Size)
    ensures MinBlockWidth <= s.width && MinBlockHeight <= s.height
    ensures MinBlockWidth <= cw - start.x ==> s.width <= cw - start.x
    ensures MinBlockHeight <= ch - start.y ==> s.height <= ch - start.y
    ensures MinBlockWidth <= start.width + delta.x <= cw - start.x ==> s.width == start.width + delta.x
    ensures MinBlockHeight <= start.height + delta.y <= ch - start.y ==> s.height == start.height + delta.y
    ensures cw - start.x < MinBlockWidth ==> s.width == MinBlockWidth
    ensures ch - start.y < MinBlockHeight ==> s.height == MinBlockHeight
  {
    Size(Max(MinBlockWidth, Min(cw - start.x, start.width + delta.x)),
         Max(MinBlockHeight, Min(ch - start.y, start.height + delta.y)))
  }

  /** A resize keeps a box that starts inside the canvas inside it. */
  lemma ResizeKeepsFit(start: Box, delta: Point, cw: int, ch: int)
    requires Fits(start, cw, ch) && MinBlockWidth <= start.width && MinBlockHeight <= start.height
    ensures var s := ResizeTarget(start, delta, cw, ch); Fits(Box(start.x, start.y, s.width, s.height), cw, ch)
  {
  }

  /** A move keeps the box inside whenever its size fits the canvas. */
  lemma MoveKeepsFit(layout: Box, pointer: Point, offset: Point, cw: int, ch: int)
    requires layout.width <= cw && layout.height <= ch
    ensures var p := MoveTarget(layout, pointer, offset, cw, ch); Fits(Box(p.x, p.y, layout.width, layout.height), cw, ch)
  {
  }
}
