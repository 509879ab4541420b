/**
 How far a line's error swings, for any slope: the exact ends for which its
 doubled error stays a 32-bit integer.
 */
module Slopes {
  import opened Segments

  /** `g` divides both numbers, `g * p` and `g * q`, and is `x` of the first and
      `y` of the second. */
  datatype Common = Common(g: nat, p: nat, q: nat, x: int, y: int)

  /** The greatest common step of two lengths, by Euclid. */
  function Euclid(a: nat, b: nat): (e: Common)
    requires 0 < a
    ensures 0 < e.g && a == e.g * e.p && b == e.g * e.q && 0 < e.p
    ensures e.g == a * e.x + b * e.y
    decreases b
  {
    if b == 0 then Common(a, 1, 0, 1, 0)
    else
      var d, r := a / b, a % b;
      var e := Euclid(b, r);
      EuclidStep(a, b, d, r, e);
      Common(e.g, d * e.p + e.q, e.p, e.y, e.x - d * e.y)
  }

  lemma EuclidStep(a: nat, b: nat, d: nat, r: nat, e: Common)
    requires a == d * b + r && 0 < e.g && 0 < e.p && b == e.g * e.p && r == e.g * e.q && e.g == b * e.x + r * e.y && 0 < a
    ensures a == e.g * (d * e.p + e.q) && 0 < d * e.p + e.q
    ensures e.g == a * e.y + b * (e.x - d * e.y)
  {
    calc {
      e.g * (d * e.p + e.q);
      d * (e.g * e.p) + e.g * e.q;
      a;
    }
    calc {
      a * e.y + b * (e.x - d * e.y);
      (d * b + r) * e.y + b * e.x - b * (d * e.y);
      d * b * e.y + r * e.y + b * e.x - d * b * e.y;
      e.g;
    }
    if d * e.p + e.q <= 0 {
      TimesGrows(e.g, d * e.p + e.q, 0);
    }
  }

  /** The most the steps taken ever run ahead of the slope. */
  function MaxLead(short: nat, long: nat): nat
    requires 0 < long
  {
    var e := Euclid(long, short);
    e.g * ((e.p - 1) / 2)
  }

  lemma LeadIs(k: nat, short: nat, long: nat)
    requires k <= long
    ensures Lead(k, short, long) == Share(k, short, long) * long - k * short
  {
    ProductIsTimes(Share(k, short, long), long);
    ProductIsTimes(k, short);
  }

  lemma Factored(g: nat, p: nat, q: nat, s: nat, k: nat)
    ensures s * (g * p) - k * (g * q) == g * (s * p - k * q)
  {
  }

  /** Fewer than half of `p` steps of `g`, when less than half their sum. */
  lemma StepsAtMost(g: nat, p: nat, t: int)
    requires 0 < g && 0 < p && 2 * (g * t) < g * p
    ensures g * t <= g * ((p - 1) / 2)
  {
    assert g * (2 * t) == 2 * (g * t);
    if p <= 2 * t {
      TimesGrows(g, p, 2 * t);
    } else {
      TimesGrows(g, t, (p - 1) / 2);
    }
  }

  /** No turn runs further ahead. */
  lemma LeadAtMost(k: nat, short: nat, long: nat)
    requires k <= long && 0 < long
    ensures Lead(k, short, long) <= MaxLead(short, long)
  {
    hide Lead, Share;
    var e, s := Euclid(long, short), Share(k, short, long);
    LeadIs(k, short, long);
    LeadBracket(k, short, long);
    Factored(e.g, e.p, e.q, s, k);
    StepsAtMost(e.g, e.p, s * e.p - k * e.q);
  }

  lemma TimesGrows(g: nat, a: int, b: int)
    requires a <= b
    ensures g * a <= g * b
  {
    assert g * (b - a) >= 0;
    assert g * (b - a) == g * b - g * a;
  }

  /** And some turn before the last runs that far. */
  lemma LeadAttained(short: nat, long: nat) returns (k: nat)
    requires 0 < long
    ensures k < long && Lead(k, short, long) == MaxLead(short, long)
  {
    hide Lead, Share, Rounded, Product;
    var e := Euclid(long, short);
    HalfSteps(e.g, e.p);
    k := StepsTaken(short, long, (e.p - 1) / 2);
  }

  /** The most the steps taken ever lag behind the slope. */
  function MaxLag(short: nat, long: nat): nat
    requires 0 < long
  {
    var e := Euclid(long, short);
    e.g * (e.p / 2)
  }

  /** No turn lags further. */
  lemma LagAtMost(k: nat, short: nat, long: nat)
    requires k <= long && 0 < long
    ensures 0 - Lead(k, short, long) <= MaxLag(short, long)
  {
    hide Lead, Share;
    var e, s := Euclid(long, short), Share(k, short, long);
    LeadIs(k, short, long);
    LeadBracket(k, short, long);
    Factored(e.g, e.p, e.q, s, k);
    LagAtMostSteps(e.g, e.p, s * e.p - k * e.q);
  }

  lemma LagAtMostSteps(g: nat, p: nat, t: int)
    requires 0 < g && 0 <= 2 * (g * t) + g * p
    ensures 0 - g * t <= g * (p / 2)
  {
    assert g * (2 * t + p) == 2 * (g * t) + g * p;
    if 2 * t + p < 0 {
      TimesGrows(g, 2 * t + p, -1);
    } else {
      TimesGrows(g, 0 - t, p / 2);
      TimesNegates(g, t);
    }
  }

  /** And some turn before the last lags that far. */
  lemma LagAttained(short: nat, long: nat) returns (k: nat)
    requires 0 < long
    ensures k < long && Lead(k, short, long) == 0 - MaxLag(short, long)
  {
    hide Lead, Share, Rounded, Product;
    var e := Euclid(long, short);
    var t := 0 - e.p / 2;
    HalfLags(e.g, e.p);
    TimesNegates(e.g, e.p / 2);
    k := StepsTaken(short, long, t);
  }

  lemma TimesNegates(g: int, n: int)
    ensures g * (0 - n) == 0 - g * n
  {
  }

  lemma HalfSteps(g: nat, p: nat)
    requires 0 < g && 0 < p
    ensures 0 <= 2 * (g * ((p - 1) / 2)) < g * p
  {
    var t := (p - 1) / 2;
    TimesGrows(g, 2 * t, p - 1);
    assert g * (2 * t) == 2 * (g * t) && g * (p - 1) == g * p - g;
  }

  lemma HalfLags(g: nat, p: nat)
    requires 0 < g && 0 < p
    ensures 0 <= 2 * (g * (p / 2)) <= g * p
  {
    var t := p / 2;
    TimesGrows(g, 2 * t, p);
    assert g * (2 * t) == 2 * (g * t);
  }

  /** Every whole number of common steps less than half a step away is where some
      turn before the last stands. */
  lemma StepsTaken(short: nat, long: nat, t: int) returns (k: nat)
    requires 0 < long
    requires var g := Euclid(long, short).g; 0 <= 2 * (g * t) + long < 2 * long
    ensures k < long && Lead(k, short, long) == Euclid(long, short).g * t
  {
    hide Lead, Share, Rounded, Product;
    var e := Euclid(long, short);
    var whole := -e.y * t;
    k := whole % long;
    var s := e.x * t - short * (whole / long);
    StepsMeet(short, long, e, t, whole, k, s);
    LeadFrom(k, short, long, s, e.g * t);
  }

  /** Steps that stand less than half a step away are the steps taken. */
  lemma LeadFrom(k: nat, short: nat, long: nat, s: int, lead: int)
    requires k <= long && s * long - k * short == lead && 0 <= 2 * lead + long < 2 * long
    ensures Lead(k, short, long) == lead
  {
    assert 0 <= k * short && s * long == long * s;
    if s < 0 {
      TimesGrows(long, s, -1);
    } else {
      ProductIsTimes(s, long);
      ProductIsTimes(k, short);
      RoundedIsUnique(Product(k, short), long, s);
    }
  }

  lemma StepsMeet(short: nat, long: nat, e: Common, t: int, whole: int, k: int, s: int)
    requires 0 < long && e.g == long * e.x + short * e.y
    requires whole == -e.y * t && k == whole % long && s == e.x * t - short * (whole / long)
    ensures s * long - k * short == e.g * t
  {
    var turns := whole / long;
    assert whole == turns * long + k;
    calc {
      s * long - k * short;
      e.x * t * long - short * turns * long - k * short;
      e.x * t * long - short * (turns * long + k);
      e.x * t * long - short * whole;
      e.x * t * long + short * (e.y * t);
      (long * e.x + short * e.y) * t;
      e.g * t;
    }
  }

  // ─── The loop's arithmetic ────────────────────────────────────────────────

  /** Whether everything a turn computes is a 32-bit integer: its doubled error, the
      error once the step along x is taken off, and the error it leaves. */
  predicate TurnFits(from: Point, to: Point, k: nat)
    requires k < Longer(from, to)
  {
    var e := PenAt(from, to, k).error;
    && InI32(e) && InI32(e * 2)
    && (e * 2 > 0 - Dy(from, to) ==> InI32(e - Dy(from, to)))
    && InI32(Advance(from, to, PenAt(from, to, k)).error)
  }

  /** What the two ends have to satisfy for that. */
  predicate EndsFit(from: Point, to: Point)
    requires 0 < Longer(from, to)
  {
    var dx, dy := Dx(from, to), Dy(from, to);
    if dx >= dy then 2 * (dx - dy + MaxLead(dy, dx)) <= I32_MAX && I32_MIN <= dx - 2 * dy - MaxLag(dy, dx)
    else I32_MIN <= 0 - 2 * (dy - dx + MaxLead(dx, dy)) && (0 < dx ==> I32_MIN <= 0 - dy - MaxLead(dx, dy))
  }

  /** Along the longer axis x, every turn steps along x. */
  lemma FlatTurn(from: Point, to: Point, k: nat)
    requires k < Longer(from, to) && Dy(from, to) <= Dx(from, to)
    ensures var dx, dy, lead, e := Dx(from, to), Dy(from, to), Lead(k, Dy(from, to), Dx(from, to)), PenAt(from, to, k).error;
            && e == dx - dy + lead && e * 2 > 0 - dy
            && 0 - MaxLag(dy, dx) <= lead <= MaxLead(dy, dx) && 0 <= 2 * lead + dx < 2 * dx
  {
    hide Lead, MaxLead, MaxLag;
    if Dx(from, to) == Dy(from, to) {
      LeadNone(k, Dx(from, to));
    }
    LeadAtMost(k, Dy(from, to), Dx(from, to));
    LagAtMost(k, Dy(from, to), Dx(from, to));
    LeadBracket(k, Dy(from, to), Dx(from, to));
  }

  lemma AdvanceError(from: Point, to: Point, k: nat)
    requires k < Longer(from, to)
    ensures Advance(from, to, PenAt(from, to, k)).error == PenAt(from, to, k + 1).error
  {
    AdvanceFollows(from, to, k);
  }

  /** For a line no steeper than the diagonal. */
  lemma {:induction false} FlatFitsExactly(from: Point, to: Point)
    requires 0 < Longer(from, to) <= I32_MAX && Dy(from, to) <= Dx(from, to)
    ensures (forall k: nat | k < Longer(from, to) :: TurnFits(from, to, k)) <==> EndsFit(from, to)
  {
    hide Lead, MaxLead, MaxLag, PenAt, Advance;
    var dx, dy := Dx(from, to), Dy(from, to);
    forall k: nat | k < dx
      ensures EndsFit(from, to) ==> TurnFits(from, to, k)
    {
      FlatTurn(from, to, k);
      AdvanceError(from, to, k);
      if k + 1 < dx {
        FlatTurn(from, to, k + 1);
      } else {
        LastError(from, to);
        FlatTurn(from, to, 0);
        FirstError(from, to);
      }
    }
    var most := LeadAttained(dy, dx);
    var least := LagAttained(dy, dx);
    FlatTurn(from, to, most);
    FlatTurn(from, to, least);
    assert TurnFits(from, to, most) && TurnFits(from, to, least) ==> EndsFit(from, to);
  }

  lemma FirstError(from: Point, to: Point)
    ensures PenAt(from, to, 0).error == Dx(from, to) - Dy(from, to)
  {
    SegmentStart(from, to);
  }

  lemma LastError(from: Point, to: Point)
    requires 0 < Longer(from, to)
    ensures PenAt(from, to, Longer(from, to)).error == Dx(from, to) - Dy(from, to)
  {
    var short, long := if Dx(from, to) >= Dy(from, to) then Dy(from, to) else Dx(from, to), Longer(from, to);
    LeadEnds(short, long);
  }

  lemma LeadEnds(short: nat, long: nat)
    requires 0 < long && short <= long
    ensures Lead(long, short, long) == 0
  {
    ShareWithin(long, short, long);
    ProductCommutes(short, long);
  }

  /** On a steeper line a turn steps along x exactly when the next turn's lead is no
      longer by the whole step it lagged. */
  lemma SteepTurn(from: Point, to: Point, k: nat)
    requires k < Longer(from, to) && Dx(from, to) < Dy(from, to)
    ensures var dx, dy, e := Dx(from, to), Dy(from, to), PenAt(from, to, k).error;
            var lead, next := Lead(k, dx, dy), Lead(k + 1, dx, dy);
            && e == dx - dy - lead && PenAt(from, to, k + 1).error == dx - dy - next
            && lead <= MaxLead(dx, dy) && next <= MaxLead(dx, dy)
            && 0 <= 2 * lead + dy < 2 * dy && 0 <= 2 * next + dy < 2 * dy
            && (if e * 2 > 0 - dy then next == lead - dx + dy else next == lead - dx)
  {
    var dx, dy := Dx(from, to), Dy(from, to);
    LeadAtMost(k, dx, dy);
    LeadAtMost(k + 1, dx, dy);
    LeadBracket(k, dx, dy);
    LeadBracket(k + 1, dx, dy);
    ShareSteps(k, dx, dy);
    hide Lead, MaxLead;
  }

  /** The turn after which the steps run furthest ahead steps along x. */
  lemma StepsToMost(short: nat, long: nat) returns (k: nat)
    requires 0 < short < long
    ensures k < long && Lead(k + 1, short, long) == MaxLead(short, long)
    ensures Lead(k + 1, short, long) == Lead(k, short, long) - short + long
  {
    var most := LeadAttained(short, long);
    if most == 0 {
      LeadStart(short, long);
      LeadEnds(short, long);
      k := long - 1;
    } else {
      k := most - 1;
    }
    hide Lead, MaxLead;
    LeadAtMost(k, short, long);
    LeadMoves(k, short, long);
  }

  lemma LeadMoves(k: nat, short: nat, long: nat)
    requires k < long && short <= long
    ensures Lead(k + 1, short, long) == Lead(k, short, long) - short
            || Lead(k + 1, short, long) == Lead(k, short, long) - short + long
  {
    ShareSteps(k, short, long);
  }

  /** For a steeper line. */
  lemma {:induction false} SteepFitsExactly(from: Point, to: Point)
    requires 0 < Longer(from, to) <= I32_MAX && Dx(from, to) < Dy(from, to)
    ensures (forall k: nat | k < Longer(from, to) :: TurnFits(from, to, k)) <==> EndsFit(from, to)
  {
    hide Lead, MaxLead, MaxLag, PenAt, Advance;
    var dx, dy := Dx(from, to), Dy(from, to);
    forall k: nat | k < dy
      ensures EndsFit(from, to) ==> TurnFits(from, to, k)
    {
      SteepTurn(from, to, k);
      AdvanceError(from, to, k);
    }
    var most := LeadAttained(dx, dy);
    SteepTurn(from, to, most);
    if 0 < dx {
      var step := StepsToMost(dx, dy);
      SteepTurn(from, to, step);
      assert TurnFits(from, to, most) && TurnFits(from, to, step) ==> EndsFit(from, to);
    } else {
      assert TurnFits(from, to, most) ==> EndsFit(from, to);
    }
  }

  /**
   For any two points whose distances along both axes are 32-bit integers, every
   value every turn of the loop computes is one exactly when the ends fit.
   */
  lemma {:induction false} StaysInRangeExactly(from: Point, to: Point)
    requires 0 < Longer(from, to) <= I32_MAX
    ensures (forall k: nat | k < Longer(from, to) :: TurnFits(from, to, k)) <==> EndsFit(from, to)
  {
    hide TurnFits, EndsFit;
    if Dx(from, to) >= Dy(from, to) {
      FlatFitsExactly(from, to);
    } else {
      SteepFitsExactly(from, to);
    }
  }

  /** A steep line whose doubled error stays in range and whose error, once the step
      along x is taken off, does not. */
  lemma {:induction false} SteepOverflows(from: Point, to: Point)
    requires Dx(from, to) == 0x7FFF_FFFE && Dy(from, to) == 0x7FFF_FFFF
    ensures forall k: nat | k < Longer(from, to) :: InI32(PenAt(from, to, k).error * 2)
    ensures !EndsFit(from, to) && exists k: nat :: k < Longer(from, to) && !TurnFits(from, to, k)
  {
    hide Lead, TurnFits, PenAt;
    var dx, dy := Dx(from, to), Dy(from, to);
    CommonOfNext(Euclid(dy, dx), dx);
    StaysInRangeExactly(from, to);
    forall k: nat | k < Longer(from, to)
      ensures InI32(PenAt(from, to, k).error * 2)
    {
      SteepTurn(from, to, k);
    }
  }

  lemma CommonOfNext(e: Common, n: nat)
    requires 0 < e.g && n + 1 == e.g * e.p && n == e.g * e.q
    ensures e.g == 1
  {
    assert e.g * (e.p - e.q) == e.g * e.p - e.g * e.q;
    if e.p - e.q <= 0 {
      TimesGrows(e.g, e.p - e.q, 0);
    } else if e.g > 1 {
      TimesGrows(e.g, 1, e.p - e.q);
    }
  }
}
