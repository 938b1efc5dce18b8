/** The brush of the tile editor (src/renderer/src/components/TileEditor.tsx):
 *  eight stencils of pixel offsets, a size clamped to 1..8, and a stroke
 *  that paints the stencil around the selected pixel, skipping what falls
 *  outside the tile. */
module TileEditor {
  import Graphics

  datatype Coordinates = At(x: int, y: int)

  /** `brushLayouts`: the offsets painted by brush sizes 1 to 8. */
  const BrushLayouts: seq<seq<Coordinates>> := [
    [At(0, 0)],
    [At(0, 0), At(1, 0), At(0, 1), At(1, 1)],
    [At(0, 0), At(-1, 0), At(1, 0), At(0, -1), At(0, 1)],
    [At(0, 0), At(1, 0), At(0, 1), At(1, 1), At(-1, 0), At(-1, 1), At(2, 0), At(2, 1), At(0, -1), At(1, -1), At(0, 2),
     At(1, 2)],
    [At(-1, 0), At(0, 0), At(1, 0), At(-1, -1), At(0, -1), At(1, -1), At(-1, 1), At(0, 1), At(1, 1), At(-2, -1),
     At(-2, 0), At(-2, 1), At(2, -1), At(2, 0), At(2, 1), At(-1, -2), At(0, -2), At(1, -2), At(-1, 2), At(0, 2), At(1, 2)],
    [At(0, 0), At(-1, 0), At(1, 0), At(2, 0), At(0, -1), At(-1, -1), At(1, -1), At(2, -1), At(0, 1), At(-1, 1),
     At(1, 1), At(2, 1), At(0, 2), At(-1, 2), At(1, 2), At(2, 2), At(0, -2), At(1, -2), At(0, 3), At(1, 3), At(-2, 0),
     At(-2, 1), At(3, 0), At(3, 1)],
    [At(-2, -2), At(-1, -2), At(0, -2), At(1, -2), At(2, -2), At(-2, -1), At(-1, -1), At(0, -1), At(1, -1), At(2, -1),
     At(-2, 0), At(-1, 0), At(0, 0), At(1, 0), At(2, 0), At(-2, 1), At(-1, 1), At(0, 1), At(1, 1), At(2, 1), At(-2, 2),
     At(-1, 2), At(0, 2), At(1, 2), At(2, 2), At(-1, -3), At(0, -3), At(1, -3), At(-1, 3), At(0, 3), At(1, 3),
     At(-3, -1), At(-3, 0), At(-3, 1), At(3, -1), At(3, 0), At(3, 1)],
    [At(-2, -2), At(-1, -2), At(0, -2), At(1, -2), At(2, -2), At(3, -2), At(-2, -1), At(-1, -1), At(0, -1), At(1, -1),
     At(2, -1), At(3, -1), At(-2, 0), At(-1, 0), At(0, 0), At(1, 0), At(2, 0), At(3, 0), At(-2, 1), At(-1, 1), At(0, 1),
     At(1, 1), At(2, 1), At(3, 1), At(-2, 2), At(-1, 2), At(0, 2), At(1, 2), At(2, 2), At(3, 2), At(-2, 3), At(-1, 3),
     At(0, 3), At(1, 3), At(2, 3), At(3, 3), At(-1, -3), At(0, -3), At(1, -3), At(2, -3), At(-1, 4), At(0, 4), At(1, 4),
     At(2, 4), At(-3, -1), At(-3, 0), At(-3, 1), At(-3, 2), At(4, -1), At(4, 0), At(4, 1), At(4, 2)]
  ]

  /** Where the origin sits in each stencil. */
  const OriginAt: seq<nat> := [0, 0, 0, 0, 1, 0, 12, 14]

  /** There are eight stencils, of 1, 4, 5, 12, 21, 24, 37 and 52 offsets,
   *  and each holds the origin, so a brush always paints the selected
   *  pixel. */
  lemma {:induction false} BrushLayoutsShape()
    ensures |BrushLayouts| == 8
    ensures forall s | 0 <= s < 8 :: OriginAt[s] < |BrushLayouts[s]| && BrushLayouts[s][OriginAt[s]] == At(0, 0)
    ensures forall s | 0 <= s < 8 :: At(0, 0) in BrushLayouts[s]
    ensures |BrushLayouts[0]| == 1 && |BrushLayouts[1]| == 4 && |BrushLayouts[2]| == 5 && |BrushLayouts[3]| == 12
    ensures |BrushLayouts[4]| == 21 && |BrushLayouts[5]| == 24 && |BrushLayouts[6]| == 37 && |BrushLayouts[7]| == 52
  {
  }

  /** The brush size the number input and the renderer use: at least 1 and
   *  at most 8. */
  function ClampBrushSize(size: int): (r: int)
    ensures 1 <= r <= 8
    ensures 1 <= size <= 8 ==> r == size
    ensures size < 1 ==> r == 1
    ensures size > 8 ==> r == 8
  {
    if size < 1 then 1 else if size > 8 then 8 else size
  }

  /** A stencil moved by (x, y). */
  function Shift(layout: seq<Coordinates>, x: int, y: int): (r: seq<Coordinates>)
    ensures |r| == |layout|
  {
    seq(|layout|, i requires 0 <= i < |layout| => At(layout[i].x + x, layout[i].y + y))
  }

  /** Moving a stencil by (x, y) and back gives the stencil. */
  lemma {:induction false} ShiftBack(layout: seq<Coordinates>, x: int, y: int)
    ensures Shift(Shift(layout, x, y), -x, -y) == layout
  {
    var back := Shift(Shift(layout, x, y), -x, -y);
    assert forall i | 0 <= i < |layout| :: back[i] == layout[i];
  }

  /** `generateBrushLayout`: the stencil of the size moved to (x, y), one
   *  point per offset, always covering the selected pixel. */
  function GenerateBrushLayout(size: int, x: int, y: int): (r: seq<Coordinates>)
    requires 1 <= size <= 8
    ensures |r| == |BrushLayouts[size - 1]|
    ensures At(x, y) in r
  {
    OriginCovered(BrushLayouts[size - 1], OriginAt[size - 1], x, y);
    Shift(BrushLayouts[size - 1], x, y)
  }

  /** Each point of a stroke is its stencil's offset moved by (x, y), and
   *  moving the stroke back gives the stencil. */
  lemma {:induction false} BrushLayoutMoves(size: int, x: int, y: int)
    requires 1 <= size <= 8
    ensures var r := GenerateBrushLayout(size, x, y);
      forall i | 0 <= i < |r| :: r[i] == At(BrushLayouts[size - 1][i].x + x, BrushLayouts[size - 1][i].y + y)
    ensures Shift(GenerateBrushLayout(size, x, y), -x, -y) == BrushLayouts[size - 1]
  {
    ShiftBack(BrushLayouts[size - 1], x, y);
  }

  /** A stencil holding the origin at `k` covers (x, y) once moved there. */
  lemma {:induction false} OriginCovered(layout: seq<Coordinates>, k: nat, x: int, y: int)
    requires k < |layout| && layout[k] == At(0, 0)
    ensures At(x, y) in Shift(layout, x, y)
  {
    assert Shift(layout, x, y)[k] == At(x, y);
  }

  /** A pixel of the tile. */
  predicate InTile(p: Coordinates)
  {
    0 <= p.x < Graphics.TileSize && 0 <= p.y < Graphics.TileSize
  }

  /** The points of a stroke that land in the tile, in order. */
  function Clipped(points: seq<Coordinates>): (r: seq<Coordinates>)
    ensures |r| <= |points|
  {
    if points == [] then []
    else
      var last := points[|points| - 1];
      Clipped(points[..|points| - 1]) + (if InTile(last) then [last] else [])
  }

  /** A point is painted exactly when it is in the stroke and in the tile. */
  lemma {:induction false} ClippedMembers(points: seq<Coordinates>, p: Coordinates)
    ensures p in Clipped(points) <==> p in points && InTile(p)
  {
    if points != [] {
      var init := points[..|points| - 1];
      ClippedMembers(init, p);
      assert points == init + [points[|points| - 1]];
    }
  }

  /** `drawBrush`: the pixels handed to `drawPixel`, one at a time, for the
   *  stencil of `size` around `selected`. */
  method DrawBrush(size: int, selected: Coordinates) returns (drawn: seq<Coordinates>)
    requires 1 <= size <= 8
    ensures drawn == Clipped(GenerateBrushLayout(size, selected.x, selected.y))
  {
    var brushPixels := GenerateBrushLayout(size, selected.x, selected.y);
    drawn := [];
    for i := 0 to |brushPixels|
      invariant drawn == Clipped(brushPixels[..i])
    {
      var p := brushPixels[i];
      assert brushPixels[..i + 1][..i] == brushPixels[..i];
      if p.x < 0 || p.x >= Graphics.TileSize || p.y < 0 || p.y >= Graphics.TileSize {
        continue;
      }
      drawn := drawn + [p];
    }
    assert brushPixels[..|brushPixels|] == brushPixels;
  }

  /** A stroke paints only pixels of the tile, paints every pixel of the
   *  tile the stencil covers, and paints the selected pixel when it is in
   *  the tile. */
  lemma {:induction false} DrawnPixels(size: int, selected: Coordinates, drawn: seq<Coordinates>)
    requires 1 <= size <= 8
    requires drawn == Clipped(GenerateBrushLayout(size, selected.x, selected.y))
    ensures forall p | p in drawn :: InTile(p)
    ensures forall p | p in GenerateBrushLayout(size, selected.x, selected.y) && InTile(p) :: p in drawn
    ensures InTile(selected) ==> selected in drawn
  {
    var brush := GenerateBrushLayout(size, selected.x, selected.y);
    forall p | p in drawn
      ensures InTile(p)
    {
      ClippedMembers(brush, p);
    }
    forall p | p in brush && InTile(p)
      ensures p in drawn
    {
      ClippedMembers(brush, p);
    }
    BrushLayoutMoves(size, selected.x, selected.y);
    assert At(selected.x, selected.y) == selected;
  }
}
