/**
 The arithmetic of the minimap's line: which cells a run from one point to
 another covers, in closed form, and the error term the drawing loop keeps.
 */
module Segments {

  const I32_MAX: int := 0x7FFF_FFFF
  const I32_MIN: int := -0x8000_0000

  datatype Point = Point(x: int, y: int)

  /** The state one turn of the drawing loop starts from. */
  datatype Pen = Pen(at: Point, error: int)

  function Abs(a: int): nat {
    if a < 0 then -a else a
  }

  function Max(a: nat, b: nat): nat {
    if a < b then b else a
  }

  predicate InI32(a: int) {
    I32_MIN <= a <= I32_MAX
  }

  function Dx(from: Point, to: Point): nat {
    Abs(to.x - from.x)
  }

  function Dy(from: Point, to: Point): nat {
    Abs(to.y - from.y)
  }

  /** How many steps the longer axis takes. */
  function Longer(from: Point, to: Point): nat {
    Max(Dx(from, to), Dy(from, to))
  }

  function Way(a: int, b: int): int {
    if a < b then 1 else -1
  }

  /** `n` steps from `a` the way `b` lies. */
  function Toward(a: int, b: int, n: nat): int {
    if a < b then a + n else a - n
  }

  /** `a * b`, by repeated addition so that the proofs below stay linear. */
  function Product(a: nat, b: nat): nat {
    if a == 0 then 0 else Product(a - 1, b) + b
  }

  lemma ProductIsTimes(a: nat, b: nat)
    ensures Product(a, b) == a * b
  {
  }

  /** A product moves by at least its unit when its count moves. */
  lemma CountsApart(a: nat, b: nat, d: nat)
    requires a < b
    ensures Product(a, d) + d <= Product(b, d)
  {
  }

  lemma ProductCommutes(a: nat, b: nat)
    ensures Product(a, b) == Product(b, a)
  {
    ProductIsTimes(a, b);
    ProductIsTimes(b, a);
  }

  /** `n / d` rounded to the nearest whole number, a half rounded down. */
  function Rounded(n: int, d: nat): (r: nat)
    requires 0 < d && 0 < 2 * n + d
    ensures 2 * n - d <= 2 * Product(r, d) < 2 * n + d
    decreases n
  {
    if 2 * n <= d then 0 else Rounded(n - d, d) + 1
  }

  /** The bracket `Rounded` promises holds of one number only. */
  lemma RoundedIsUnique(n: int, d: nat, r: nat)
    requires 0 < d && 0 < 2 * n + d
    requires 2 * n - d <= 2 * Product(r, d) < 2 * n + d
    ensures r == Rounded(n, d)
  {
    var s := Rounded(n, d);
    if r < s {
      CountsApart(r, s, d);
    } else if s < r {
      CountsApart(s, r, d);
    }
  }

  /** No whole number lies nearer, and of two as near the lower is taken. */
  lemma RoundedIsNearest(n: int, d: nat, q: nat)
    requires 0 < d && 0 < 2 * n + d
    ensures Abs(Product(Rounded(n, d), d) - n) <= Abs(Product(q, d) - n)
    ensures Abs(Product(Rounded(n, d), d) - n) == Abs(Product(q, d) - n) ==> Rounded(n, d) <= q
  {
    var r := Rounded(n, d);
    if q < r {
      CountsApart(q, r, d);
    } else if r < q {
      CountsApart(r, q, d);
    }
  }

  /** How many of `short` steps fall among the first `k` of `long` ones. */
  function Share(k: nat, short: nat, long: nat): (r: nat)
    requires k <= long
  {
    if long == 0 then 0 else Rounded(Product(k, short), long)
  }

  /** By how much the steps taken run ahead of the exact slope, `long` being one step. */
  function Lead(k: nat, short: nat, long: nat): int
    requires k <= long
  {
    Product(Share(k, short, long), long) - Product(k, short)
  }

  /** The lead never exceeds half a step, and a half is only ever behind. */
  lemma LeadBracket(k: nat, short: nat, long: nat)
    requires k <= long && 0 < long
    ensures 0 <= 2 * Lead(k, short, long) + long < 2 * long
  {
  }

  lemma LeadStart(short: nat, long: nat)
    ensures Lead(0, short, long) == 0 && Share(0, short, long) == 0
  {
  }

  /** On an exact diagonal the steps never part from the slope. */
  lemma LeadNone(k: nat, long: nat)
    requires k <= long && 0 < long
    ensures Lead(k, long, long) == 0
  {
    RoundedIsUnique(Product(k, long), long, k);
  }

  /** A further long step takes a short one exactly when half a step behind. */
  lemma ShareSteps(k: nat, short: nat, long: nat)
    requires k < long && short <= long
    ensures var behind := Lead(k, short, long) - short;
            if 2 * behind + long < 0
            then Share(k + 1, short, long) == Share(k, short, long) + 1
                 && Lead(k + 1, short, long) == behind + long
            else Share(k + 1, short, long) == Share(k, short, long)
                 && Lead(k + 1, short, long) == behind
  {
    var r := Share(k, short, long);
    LeadBracket(k, short, long);
    if 2 * (Lead(k, short, long) - short) + long < 0 {
      RoundedIsUnique(Product(k + 1, short), long, r + 1);
    } else {
      RoundedIsUnique(Product(k + 1, short), long, r);
    }
  }

  /** All short steps are taken by the last long one, and never more. */
  lemma ShareWithin(k: nat, short: nat, long: nat)
    requires k <= long && short <= long
    ensures Share(k, short, long) <= short
    ensures Share(long, short, long) == short
  {
    if 0 < long {
      ProductCommutes(short, long);
      RoundedIsUnique(Product(long, short), long, short);
      if short < Share(k, short, long) {
        if k < long { CountsApart(k, long, short); }
        CountsApart(short, Share(k, short, long), long);
      }
    }
  }

  /** Steps taken along x after `k` steps of the longer axis. */
  function Across(from: Point, to: Point, k: nat): nat
    requires k <= Longer(from, to)
  {
    if Dx(from, to) >= Dy(from, to) then k else Share(k, Dx(from, to), Dy(from, to))
  }

  /** Steps taken along y after `k` steps of the longer axis. */
  function Down(from: Point, to: Point, k: nat): nat
    requires k <= Longer(from, to)
  {
    if Dx(from, to) >= Dy(from, to) then Share(k, Dy(from, to), Dx(from, to)) else k
  }

  /** The `k`-th cell of the rounded segment between the two points. */
  function SegmentCell(from: Point, to: Point, k: nat): Point
    requires k <= Longer(from, to)
  {
    Point(Toward(from.x, to.x, Across(from, to, k)), Toward(from.y, to.y, Down(from, to, k)))
  }

  /** Whether one of the segment's first `n` cells is `p`. */
  ghost predicate Among(from: Point, to: Point, n: nat, p: Point)
    requires n <= Longer(from, to) + 1
  {
    exists k: nat :: k < n && SegmentCell(from, to, k) == p
  }

  ghost predicate OnSegment(from: Point, to: Point, p: Point) {
    Among(from, to, Longer(from, to) + 1, p)
  }

  /** The first `n` cells, gathered. */
  ghost function Gathered(from: Point, to: Point, n: nat): set<Point>
    requires n <= Longer(from, to) + 1
  {
    if n == 0 then {} else Gathered(from, to, n - 1) + {SegmentCell(from, to, n - 1)}
  }

  lemma GatheredNext(from: Point, to: Point, n: nat)
    requires n <= Longer(from, to)
    ensures Gathered(from, to, n + 1) == Gathered(from, to, n) + {PenAt(from, to, n).at}
  {
  }

  lemma GatheredIsAmong(from: Point, to: Point, n: nat)
    requires n <= Longer(from, to) + 1
    ensures forall p :: p in Gathered(from, to, n) <==> Among(from, to, n, p)
  {
  }

  /** One turn of the loop: two independent step tests on one doubled error. */
  function Advance(from: Point, to: Point, pen: Pen): Pen {
    var doubled := pen.error * 2;
    var mid := if doubled > 0 - Dy(from, to)
               then Pen(Point(pen.at.x + Way(from.x, to.x), pen.at.y), pen.error - Dy(from, to))
               else pen;
    if doubled < Dx(from, to)
    then Pen(Point(mid.at.x, mid.at.y + Way(from.y, to.y)), mid.error + Dx(from, to))
    else mid
  }

  /** The loop's state at its `k`-th turn, in closed form. */
  function PenAt(from: Point, to: Point, k: nat): Pen
    requires k <= Longer(from, to)
  {
    var dx, dy := Dx(from, to), Dy(from, to);
    Pen(SegmentCell(from, to, k),
        dx - dy + (if dx >= dy then Lead(k, dy, dx) else -Lead(k, dx, dy)))
  }

  /** The error weighs the steps of one axis still owed against the other's. */
  lemma ErrorWeighsSteps(from: Point, to: Point, k: nat)
    requires k <= Longer(from, to)
    ensures var dx, dy := Dx(from, to), Dy(from, to);
            PenAt(from, to, k).error == (Down(from, to, k) + 1) * dx - (Across(from, to, k) + 1) * dy
  {
    var dx, dy, i, j := Dx(from, to), Dy(from, to), Across(from, to, k), Down(from, to, k);
    ProductIsTimes(j + 1, dx);
    ProductIsTimes(i + 1, dy);
  }

  /** Where the error lies at every turn, against the two axes' lengths. */
  lemma ErrorBracket(from: Point, to: Point, k: nat)
    requires k <= Longer(from, to)
    ensures var dx, dy, e := Dx(from, to), Dy(from, to), PenAt(from, to, k).error;
            && (dx >= dy && dx > 0 ==> dx - 2 * dy <= 2 * e < 3 * dx - 2 * dy)
            && (dy > dx ==> 2 * dx - 3 * dy < 2 * e <= 2 * dx - dy)
            && (dx == 0 && dy == 0 ==> e == 0)
  {
    var dx, dy := Dx(from, to), Dy(from, to);
    if dx >= dy && dx > 0 {
      LeadBracket(k, dy, dx);
    } else if dy > dx {
      LeadBracket(k, dx, dy);
    }
  }

  /** Both step tests, read off the error, agree with rounding the next cell. */
  lemma {:induction false} AdvanceFollows(from: Point, to: Point, k: nat)
    requires k < Longer(from, to)
    ensures Advance(from, to, PenAt(from, to, k)) == PenAt(from, to, k + 1)
  {
    hide Share, Lead;
    var dx, dy := Dx(from, to), Dy(from, to);
    if dx >= dy {
      LeadBracket(k, dy, dx);
      ShareSteps(k, dy, dx);
      if dx == dy {
        LeadNone(k, dx);
      }
    } else {
      LeadBracket(k, dx, dy);
      ShareSteps(k, dx, dy);
    }
  }

  /** The loop starts on the segment's first cell. */
  lemma {:induction false} SegmentStart(from: Point, to: Point)
    ensures PenAt(from, to, 0) == Pen(from, Dx(from, to) - Dy(from, to))
  {
    hide Share, Lead;
    LeadStart(Dy(from, to), Dx(from, to));
    LeadStart(Dx(from, to), Dy(from, to));
  }

  /** The segment meets `to` at its last cell and only there. */
  lemma {:induction false} SegmentEnds(from: Point, to: Point, k: nat)
    requires k <= Longer(from, to)
    ensures SegmentCell(from, to, k) == to <==> k == Longer(from, to)
  {
    hide Share;
    var dx, dy := Dx(from, to), Dy(from, to);
    ShareWithin(k, if dx >= dy then dy else dx, Longer(from, to));
  }

  /** What every value the loop computes stays within, for ends not too far apart. */
  lemma {:induction false} LineStaysInRange(from: Point, to: Point, k: nat)
    requires 3 * Longer(from, to) <= I32_MAX
    requires k <= Longer(from, to)
    ensures var e := PenAt(from, to, k).error;
            InI32(e) && InI32(e * 2) && InI32(e - Dy(from, to))
  {
    ErrorBracket(from, to, k);
  }

  /**
   The cells in plain terms: the longer axis takes `k` whole steps, the shorter
   one `k` times the slope, rounded to the nearest step with a half held back.
   */
  lemma {:induction false} SegmentRounds(from: Point, to: Point, k: nat)
    requires k <= Longer(from, to) && from != to
    ensures var dx, dy := Dx(from, to), Dy(from, to);
            var i, j := Abs(SegmentCell(from, to, k).x - from.x), Abs(SegmentCell(from, to, k).y - from.y);
            if dx >= dy then i == k && 2 * (k * dy) - dx <= 2 * (j * dx) < 2 * (k * dy) + dx
            else j == k && 2 * (k * dx) - dy <= 2 * (i * dy) < 2 * (k * dx) + dy
  {
    var dx, dy := Dx(from, to), Dy(from, to);
    var short, long := if dx >= dy then dy else dx, Longer(from, to);
    ProductIsTimes(k, short);
    ProductIsTimes(Share(k, short, long), long);
    LeadBracket(k, short, long);
    hide Share, Rounded, Product;
  }

  /** Every cell of the segment lies in the box its ends span. */
  lemma {:induction false} SegmentInBox(from: Point, to: Point, k: nat)
    requires k <= Longer(from, to)
    ensures var p := SegmentCell(from, to, k);
            && (from.x <= p.x <= to.x || to.x <= p.x <= from.x)
            && (from.y <= p.y <= to.y || to.y <= p.y <= from.y)
  {
    var dx, dy := Dx(from, to), Dy(from, to);
    ShareWithin(k, if dx >= dy then dy else dx, Longer(from, to));
  }

  /** Neighboring cells of the segment touch, one step apart on the longer axis. */
  lemma {:induction false} SegmentConnected(from: Point, to: Point, k: nat)
    requires k < Longer(from, to)
    ensures var p, q := SegmentCell(from, to, k), SegmentCell(from, to, k + 1);
            && Abs(q.x - p.x) <= 1 && Abs(q.y - p.y) <= 1
            && (Dx(from, to) >= Dy(from, to) ==> Abs(q.x - p.x) == 1)
            && (Dy(from, to) > Dx(from, to) ==> Abs(q.y - p.y) == 1)
  {
    var dx, dy := Dx(from, to), Dy(from, to);
    ShareSteps(k, if dx >= dy then dy else dx, Longer(from, to));
  }

  /**
   The bound on the ends is not idle: a level run of 2^30 cells already doubles
   its error past the largest 32-bit value, at every turn.
   */
  lemma {:induction false} LongLineOverflows(from: Point, to: Point, k: nat)
    requires from.y == to.y
    requires k <= Longer(from, to)
    ensures InI32(PenAt(from, to, k).error * 2) <==> Dx(from, to) < 0x4000_0000
  {
    ShareWithin(k, 0, Dx(from, to));
    ProductIsTimes(k, 0);
  }
}
