/**
 The minimap's pixel buffer: four bytes a cell, row-major, rewritten in place
 by clipped painting.
 */
module Canvases {
  import opened Wrappers
  import opened Segments

  newtype byte = x: int | 0 <= x < 256

  datatype Color = Rgba(r: byte, g: byte, b: byte, a: byte)

  const U32_COUNT: nat := 0x1_0000_0000

  type u32 = n: nat | n < U32_COUNT

  /** How far `to` lies past `from`, counting on from zero after the largest `u32`. */
  function Past(from: u32, to: u32): u32 {
    if from <= to then to - from else to + U32_COUNT - from
  }

  function Wrapped(n: nat): u32
    requires n < 2 * U32_COUNT
  {
    if n < U32_COUNT then n else n - U32_COUNT
  }

  /** Whether the `w` by `h` block anchored at `(x, y)` covers the cell. */
  predicate Covers(x: u32, y: u32, w: nat, h: nat, cx: u32, cy: u32) {
    Past(x, cx) < w && Past(y, cy) < h
  }

  /** A block that does not reach past the largest `u32` covers what it spans. */
  lemma CoversSpan(x: u32, y: u32, w: u32, h: u32, cx: u32, cy: u32)
    requires x + w <= U32_COUNT && y + h <= U32_COUNT
    ensures Covers(x, y, w, h, cx, cy) <==> x <= cx < x + w && y <= cy < y + h
  {
  }

  /** Whether counting `d` on from `x`, back to zero after the largest `u32`, comes to `cx`. */
  predicate CountsTo(x: u32, d: nat, cx: u32) {
    x + d == cx || x + d == cx + U32_COUNT
  }

  /** And any block covers the cells its columns and rows count on to. */
  lemma CoversExactly(x: u32, y: u32, w: u32, h: u32, cx: u32, cy: u32)
    ensures Covers(x, y, w, h, cx, cy) <==>
              (exists dx: nat :: dx < w && CountsTo(x, dx, cx)) && (exists dy: nat :: dy < h && CountsTo(y, dy, cy))
  {
    assert CountsTo(x, Past(x, cx), cx) && CountsTo(y, Past(y, cy), cy);
    assert forall dx: nat | dx < w && CountsTo(x, dx, cx) :: dx == Past(x, cx);
    assert forall dy: nat | dy < h && CountsTo(y, dy, cy) :: dy == Past(y, cy);
  }

  type Corners = s: seq<Point> | |s| == 4
    witness [Point(0, 0), Point(0, 0), Point(0, 0), Point(0, 0)]

  /** Whether the closed outline through the four corners passes the cell. */
  ghost predicate OnOutline(corners: Corners, p: Point) {
    exists i :: 0 <= i < 4 && OnSegment(corners[if i == 0 then 3 else i - 1], corners[i], p)
  }

  /** The outline closes: its four sides join each corner to the next and the last to the first. */
  lemma OutlineCloses(corners: Corners, p: Point)
    ensures OnOutline(corners, p) <==>
              || OnSegment(corners[0], corners[1], p) || OnSegment(corners[1], corners[2], p)
              || OnSegment(corners[2], corners[3], p) || OnSegment(corners[3], corners[0], p)
  {
    hide OnSegment;
  }

  class Canvas {
    const width: u32
    const height: u32
    const bytes: array<byte>

    ghost predicate Valid() {
      bytes.Length == Product(height, width) * 4
    }

    predicate Holds(x: int, y: int) {
      0 <= x < width && 0 <= y < height
    }

    /** Cells a row above keep clear of those a row below. */
    lemma OffsetWithin(x: nat, y: nat)
      requires Valid() && Holds(x, y)
      ensures (Product(y, width) + x) * 4 + 4 <= bytes.Length
    {
      CountsApart(y, height, width);
    }

    /** No two cells share a byte. */
    lemma OffsetsApart(x: nat, y: nat, cx: nat, cy: nat)
      requires Holds(x, y) && Holds(cx, cy)
      requires Product(y, width) + x == Product(cy, width) + cx
      ensures x == cx && y == cy
    {
      if y < cy {
        CountsApart(y, cy, width);
      } else if cy < y {
        CountsApart(cy, y, width);
      }
    }

    /** The index of a cell's first byte, for a cell the canvas has. */
    function Offset(x: nat, y: nat): (at: Option<nat>)
      requires Valid()
      ensures at.Some? <==> Holds(x, y)
      ensures at.Some? ==> at.value + 4 <= bytes.Length
    {
      if x < width && y < height then
        OffsetWithin(x, y);
        Some((Product(y, width) + x) * 4)
      else None
    }

    /** The color of one cell. */
    function At(x: nat, y: nat): Color
      reads bytes
      requires Valid() && Holds(x, y)
    {
      var at := Offset(x, y).value;
      Rgba(bytes[at], bytes[at + 1], bytes[at + 2], bytes[at + 3])
    }

    constructor (width: u32, height: u32, fill: Color)
      ensures Valid() && fresh(bytes)
      ensures this.width == width && this.height == height
      ensures forall x: nat, y: nat | Holds(x, y) :: At(x, y) == fill
    {
      this.width, this.height := width, height;
      var channels := [fill.r, fill.g, fill.b, fill.a];
      bytes := new byte[Product(height, width) * 4](i requires 0 <= i => channels[i % 4]);
    }

    method Get(x: nat, y: nat) returns (color: Option<Color>)
      requires Valid()
      ensures color == if Holds(x, y) then Some(At(x, y)) else None
    {
      var at := Offset(x, y);
      match at
      case None => color := None;
      case Some(i) => color := Some(Rgba(bytes[i], bytes[i + 1], bytes[i + 2], bytes[i + 3]));
    }

    /** Colors a single cell, if the canvas has it. */
    method Put(x: nat, y: nat, color: Color)
      requires Valid()
      modifies bytes
      ensures forall cx: nat, cy: nat | Holds(cx, cy) ::
                At(cx, cy) == if cx == x && cy == y then color else old(At(cx, cy))
      ensures Holds(x, y) ==>
                var i := Offset(x, y).value;
                && i == (Product(y, width) + x) * 4
                && bytes[i] == color.r && bytes[i + 1] == color.g && bytes[i + 2] == color.b && bytes[i + 3] == color.a
    {
      var at := Offset(x, y);
      match at
      case None =>
      case Some(i) =>
        bytes[i], bytes[i + 1], bytes[i + 2], bytes[i + 3] := color.r, color.g, color.b, color.a;
        forall cx: nat, cy: nat | Holds(cx, cy)
          ensures At(cx, cy) == if cx == x && cy == y then color else old(At(cx, cy))
        {
          if cx != x || cy != y {
            if Product(y, width) + x == Product(cy, width) + cx {
              OffsetsApart(x, y, cx, cy);
            }
          }
        }
    }

    /** Paints a block of cells, none past the canvas edge. */
    method Fill(x: u32, y: u32, w: u32, h: u32, color: Color)
      requires Valid()
      modifies bytes
      ensures forall cx: nat, cy: nat | Holds(cx, cy) ::
                At(cx, cy) == if Covers(x, y, w, h, cx, cy) then color else old(At(cx, cy))
    {
      for dy := 0 to h
        invariant forall cx: nat, cy: nat | Holds(cx, cy) ::
            At(cx, cy) == if Covers(x, y, w, dy, cx, cy) then color else old(At(cx, cy))
      {
        for dx := 0 to w
          invariant forall cx: nat, cy: nat | Holds(cx, cy) ::
              At(cx, cy) == if Covers(x, y, w, dy, cx, cy) || Covers(x, Wrapped(y + dy), dx, 1, cx, cy)
                            then color else old(At(cx, cy))
        {
          Put(Wrapped(x + dx), Wrapped(y + dy), color);
        }
      }
    }

    /** One turn of the line's loop: whichever axis is further behind steps. */
    static method Turn(from: Point, to: Point, at: Point, error: int) returns (nextAt: Point, nextError: int)
      ensures Pen(nextAt, nextError) == Advance(from, to, Pen(at, error))
    {
      nextAt, nextError := at, error;
      var doubled := nextError * 2;
      if doubled > 0 - Dy(from, to) {
        nextError := nextError - Dy(from, to);
        nextAt := Point(nextAt.x + Way(from.x, to.x), nextAt.y);
      }
      if doubled < Dx(from, to) {
        nextError := nextError + Dx(from, to);
        nextAt := Point(nextAt.x, nextAt.y + Way(from.y, to.y));
      }
    }

    /**
     Colors the rounded segment from one point to another. What of it lies off
     the canvas is passed over, which leaves the slope of the rest alone.
     */
    method Line(from: Point, to: Point, color: Color)
      requires Valid()
      modifies bytes
      ensures forall cx: nat, cy: nat | Holds(cx, cy) ::
                At(cx, cy) == if OnSegment(from, to, Point(cx, cy)) then color else old(At(cx, cy))
    {
      hide Share, Lead, Product, Rounded;
      var at := from;
      var error := Dx(from, to) - Dy(from, to);
      ghost var k: nat, painted: set<Point> := 0, {};
      SegmentStart(from, to);
      while true
        invariant k <= Longer(from, to) && painted == Gathered(from, to, k)
        invariant Pen(at, error) == PenAt(from, to, k)
        invariant forall cx: nat, cy: nat | Holds(cx, cy) ::
            At(cx, cy) == if Point(cx, cy) in painted then color else old(At(cx, cy))
        decreases Longer(from, to) - k
      {
        if at.x >= 0 && at.y >= 0 {
          Put(at.x, at.y, color);
        }
        painted := painted + {at};
        GatheredNext(from, to, k);
        SegmentEnds(from, to, k);
        if at == to {
          GatheredIsAmong(from, to, k + 1);
          return;
        }
        AdvanceFollows(from, to, k);
        at, error := Turn(from, to, at, error);
        k := k + 1;
      }
    }

    /** Colors the four segments that close the outline. */
    method Outline(corners: Corners, color: Color)
      requires Valid()
      modifies bytes
      ensures forall cx: nat, cy: nat | Holds(cx, cy) ::
                At(cx, cy) == if OnOutline(corners, Point(cx, cy)) then color else old(At(cx, cy))
    {
      var previous := corners[3];
      for i := 0 to 4
        invariant previous == corners[if i == 0 then 3 else i - 1]
        invariant forall cx: nat, cy: nat | Holds(cx, cy) ::
            At(cx, cy) == if exists j :: 0 <= j < i && OnSegment(corners[if j == 0 then 3 else j - 1], corners[j], Point(cx, cy))
                          then color else old(At(cx, cy))
      {
        Line(previous, corners[i], color);
        previous := corners[i];
      }
    }

    /** Makes this canvas a copy of one its own size. */
    method Restore(other: Canvas)
      requires Valid() && other.Valid() && bytes != other.bytes
      requires bytes.Length == other.bytes.Length
      modifies bytes
      ensures bytes[..] == other.bytes[..]
      ensures width == other.width && height == other.height ==>
                forall x: nat, y: nat | Holds(x, y) :: At(x, y) == other.At(x, y)
    {
      forall i | 0 <= i < bytes.Length {
        bytes[i] := other.bytes[i];
      }
    }
  }
}
