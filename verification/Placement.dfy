/**
 The placement ghost: whether a footprint shows as fitting, judged from what a
 side has explored and made out, against what the simulation itself would take.
 */
module Placement {
  import opened Wrappers

  datatype Cell = Cell(x: nat, y: nat)

  datatype Rect = Rect(x: nat, y: nat, w: nat, h: nat) {
    predicate Holds(c: Cell) {
      x <= c.x < x + w && y <= c.y < y + h
    }

    predicate Intersects(other: Rect) {
      x < other.x + other.w && other.x < x + w && y < other.y + other.h && other.y < y + h
    }
  }

  /** A band across a change of level; `dx` and `dy` say which way it rises. */
  datatype Slope = Ramp(dx: int, dy: int) | Cliff(dx: int, dy: int)

  datatype Ground = Ground(terrain: nat, level: nat, slope: Option<Slope>)

  /** The map's cells on the layer a footprint stands on. */
  datatype Map = Map(width: nat, height: nat, at: Cell -> Ground) {
    predicate Contains(c: Cell) {
      c.x < width && c.y < height
    }
  }

  datatype Crossing = OverRamps | OverCliffs

  datatype OccupancyClass = Static | Claim

  datatype Solidity = Solid | Underfoot | Passable {
    /** Whether a standing footprint as solid as `raised` may not share cells with this. */
    predicate KeepsOff(raised: Solidity) {
      match (this, raised)
      case (Solid, _) => true
      case (Underfoot, _) => true
      case (Passable, Solid) => true
      case (Passable, Underfoot) => true
      case (Passable, Passable) => false
    }
  }

  /** What is being placed: its ground rules, size, layers and how it holds cells. */
  datatype Shape = Shape(
    terrains: set<nat>, w: nat, h: nat, crossing: Option<Crossing>,
    layers: set<nat>, solidity: Solidity, class_: OccupancyClass)
  {
    predicate Sized() {
      w > 0 && h > 0
    }

    function At(c: Cell): Rect {
      Rect(c.x, c.y, w, h)
    }

    function Single(): Shape {
      this.(w := 1, h := 1)
    }
  }

  // ─── The ground ───────────────────────────────────────────────────────────

  predicate StandsOnGround(land: Map, c: Cell, s: Shape) {
    && land.Contains(c)
    && land.at(c).terrain in s.terrains
    && !(land.at(c).slope.Some? && land.at(c).slope.value.Cliff? && s.crossing == Some(OverRamps))
  }

  predicate RisesAcross(slope: Option<Slope>, ex: int, ey: int) {
    && slope.Some? && slope.value.Ramp?
    && ((ex != 0 && slope.value.dx == ex) || (ey != 0 && slope.value.dy == ey))
  }

  function Gap(a: nat, b: nat): nat {
    if a < b then b - a else a - b
  }

  /** Whether the edge between two neighboring cells may be crossed. */
  predicate CanCross(land: Map, from: Cell, to: Cell, s: Shape) {
    && land.Contains(from) && land.Contains(to)
    && var (ex, ey) := (to.x - from.x, to.y - from.y);
    var (a, b) := (land.at(from), land.at(to));
    match s.crossing
    case None => true
    case Some(crossing) =>
      if a.level == b.level then true
      else if Gap(a.level, b.level) != 1 then false
      else match crossing
        case OverCliffs => true
        case OverRamps =>
          if a.level < b.level then RisesAcross(a.slope, ex, ey) else RisesAcross(b.slope, -ex, -ey)
  }

  ghost predicate HoldsTogether(land: Map, anchor: Cell, s: Shape) {
    s.crossing.None? ||
    forall c: Cell | s.At(anchor).Holds(c) ::
      && (c.x + 1 >= anchor.x + s.w || CanCross(land, c, Cell(c.x + 1, c.y), s))
      && (c.y + 1 >= anchor.y + s.h || CanCross(land, c, Cell(c.x, c.y + 1), s))
  }

  ghost predicate IsFlat(land: Map, anchor: Cell, s: Shape) {
    && land.Contains(anchor)
    && forall c: Cell | s.At(anchor).Holds(c) ::
         land.Contains(c) && land.at(c).level == land.at(anchor).level && land.at(c).slope.None?
  }

  /** The simulation's own answer: whether the ground takes the footprint. */
  ghost predicate Takes(land: Map, anchor: Cell, s: Shape) {
    && (forall c: Cell | s.At(anchor).Holds(c) :: StandsOnGround(land, c, s))
    && HoldsTogether(land, anchor, s)
    && (s.class_ == Static && s.crossing.Some? ==> IsFlat(land, anchor, s))
  }

  /** Content gives a shape no crossing exactly on a layer at one level. */
  ghost predicate LayerSuits(land: Map, s: Shape) {
    s.crossing.None? ==>
      forall c, d | land.Contains(c) && land.Contains(d) :: land.at(c).level == land.at(d).level
  }

  // ─── Fields ───────────────────────────────────────────────────────────────

  type Player = nat
  type Field = nat

  /** Whose coverage a rule counts. */
  datatype Affiliation = Own | Allied | Enemy | Anyone

  /** The coverers of a field that show on the overlay. */
  datatype Shown = ToAnyone | OwnAlone | AlliedAlone

  datatype Extent = EveryCell | AnyCell

  /** A rule on where a type may stand. */
  datatype Rule = Requires(field: Field, of: Affiliation, extent: Extent) | Forbids(field: Field)

  /** The player placing, who is on whose side, and what the overlay shows of each field. */
  datatype Side = Side(me: Player, allied: (Player, Player) -> bool, shownTo: Field -> Shown) {
    predicate Counts(of: Affiliation, p: Player) {
      match of
      case Own => p == me
      case Allied => allied(me, p)
      case Enemy => !allied(me, p)
      case Anyone => true
    }

    predicate Admits(field: Field, p: Player) {
      match shownTo(field)
      case ToAnyone => true
      case OwnAlone => p == me
      case AlliedAlone => allied(me, p)
    }

    /** Whether a player's coverage of a field is shown wherever it lies. */
    predicate AlwaysShown(field: Field, p: Player) {
      Admits(field, p) && allied(me, p)
    }
  }

  type Coverage = (Field, Cell) -> set<Player>

  /** Who covers what, on a grid, and the cells the side sees now. */
  datatype Fields = Fields(width: nat, height: nat, covered: Coverage, inSight: Cell -> bool) {
    predicate Contains(c: Cell) {
      c.x < width && c.y < height
    }

    /** The coverage as the overlay shows it: out of sight, the side's own alone. */
    function ShownTo(side: Side): Coverage {
      (field, c) => set p | p in covered(field, c) && side.Admits(field, p) && (inSight(c) || side.allied(side.me, p))
    }
  }

  /** Every player is allied or an enemy, never both, and anyone counts both. */
  lemma AffiliationsPart(side: Side, p: Player)
    ensures side.Counts(Allied, p) != side.Counts(Enemy, p)
    ensures side.Counts(Anyone, p) <==> side.Counts(Allied, p) || side.Counts(Enemy, p)
    ensures side.Counts(Own, p) && side.allied(side.me, side.me) ==> side.Counts(Allied, p)
  {
  }

  ghost predicate Satisfied(side: Side, of: Affiliation, coverers: set<Player>) {
    exists p :: p in coverers && side.Counts(of, p)
  }

  ghost predicate RuleAllows(side: Side, fields: Fields, covered: Coverage, rule: Rule, r: Rect) {
    match rule
    case Requires(field, of, EveryCell) =>
      forall c: Cell | r.Holds(c) :: fields.Contains(c) && Satisfied(side, of, covered(field, c))
    case Requires(field, of, AnyCell) =>
      exists c: Cell :: r.Holds(c) && fields.Contains(c) && Satisfied(side, of, covered(field, c))
    case Forbids(field) =>
      forall c: Cell | r.Holds(c) && fields.Contains(c) :: covered(field, c) == {}
  }

  ghost predicate RulesAllow(side: Side, fields: Fields, covered: Coverage, rules: seq<Rule>, r: Rect) {
    forall i | 0 <= i < |rules| :: RuleAllows(side, fields, covered, rules[i], r)
  }

  /** Whether a rule counts a player's coverage. */
  predicate Reads(side: Side, rule: Rule, p: Player) {
    match rule
    case Requires(_, of, _) => side.Counts(of, p)
    case Forbids(_) => true
  }

  /** Whether nothing a rule counts is hidden from the overlay on a footprint. */
  ghost predicate Told(side: Side, fields: Fields, rule: Rule, r: Rect) {
    forall c: Cell, p: Player | r.Holds(c) && fields.Contains(c) && p in fields.covered(rule.field, c) && Reads(side, rule, p) ::
      p in fields.ShownTo(side)(rule.field, c)
  }

  /** Whether a player a rule counts is among those covering a cell. */
  ghost predicate CountedAt(side: Side, fields: Fields, covered: Coverage, rule: Rule, c: Cell) {
    fields.Contains(c) && exists p: Player :: p in covered(rule.field, c) && Reads(side, rule, p)
  }

  /** A rule asks for a counted coverer on every cell, on some cell, or, as a ban, on none. */
  lemma RuleByCells(side: Side, fields: Fields, covered: Coverage, rule: Rule, r: Rect)
    ensures rule.Requires? && rule.extent == EveryCell ==>
              (RuleAllows(side, fields, covered, rule, r) <==> forall c: Cell | r.Holds(c) :: CountedAt(side, fields, covered, rule, c))
    ensures rule.Requires? && rule.extent == AnyCell ==>
              (RuleAllows(side, fields, covered, rule, r) <==> exists c: Cell :: r.Holds(c) && CountedAt(side, fields, covered, rule, c))
    ensures rule.Forbids? ==>
              (RuleAllows(side, fields, covered, rule, r) <==> forall c: Cell | r.Holds(c) :: !CountedAt(side, fields, covered, rule, c))
  {
    forall c: Cell
      ensures rule.Requires? ==> (CountedAt(side, fields, covered, rule, c)
                                  <==> fields.Contains(c) && Satisfied(side, rule.of, covered(rule.field, c)))
      ensures rule.Forbids? ==> (CountedAt(side, fields, covered, rule, c) <==> fields.Contains(c) && covered(rule.field, c) != {})
    {
    }
  }

  /** The overlay shows no coverage that is not there, so a ghost satisfies no
      requirement the simulation would not, and heeds no ban it would not. */
  lemma ShownDecides(side: Side, fields: Fields, rule: Rule, r: Rect)
    ensures rule.Requires? && RuleAllows(side, fields, fields.ShownTo(side), rule, r) ==> RuleAllows(side, fields, fields.covered, rule, r)
    ensures rule.Forbids? && RuleAllows(side, fields, fields.covered, rule, r) ==> RuleAllows(side, fields, fields.ShownTo(side), rule, r)
  {
    forall c: Cell | rule.Requires? && Satisfied(side, rule.of, fields.ShownTo(side)(rule.field, c))
      ensures Satisfied(side, rule.of, fields.covered(rule.field, c))
    {
      var p :| p in fields.ShownTo(side)(rule.field, c) && side.Counts(rule.of, p);
      assert p in fields.covered(rule.field, c);
    }
  }

  /** Where nothing it counts is hidden, a rule has one verdict. */
  lemma ToldDecides(side: Side, fields: Fields, rule: Rule, r: Rect)
    requires Told(side, fields, rule, r)
    ensures RuleAllows(side, fields, fields.ShownTo(side), rule, r) <==> RuleAllows(side, fields, fields.covered, rule, r)
  {
    ShownDecides(side, fields, rule, r);
    forall c: Cell | r.Holds(c) && fields.Contains(c)
      ensures rule.Requires? && Satisfied(side, rule.of, fields.covered(rule.field, c))
              ==> Satisfied(side, rule.of, fields.ShownTo(side)(rule.field, c))
      ensures rule.Forbids? && fields.ShownTo(side)(rule.field, c) == {} ==> fields.covered(rule.field, c) == {}
    {
      if rule.Requires? && Satisfied(side, rule.of, fields.covered(rule.field, c)) {
        var p :| p in fields.covered(rule.field, c) && side.Counts(rule.of, p);
        assert Reads(side, rule, p);
      }
      if rule.Forbids? && fields.covered(rule.field, c) != {} {
        var p :| p in fields.covered(rule.field, c);
        assert Reads(side, rule, p);
      }
    }
  }

  /** One cell covered by one player, nothing in sight. */
  function Unseen(field: Field, r: Rect, p: Player): Fields {
    Fields(r.x + r.w, r.y + r.h, (f, c) => if f == field && r.Holds(c) then {p} else {}, (_: Cell) => false)
  }

  /** A rule has one verdict whatever is covered and whatever is in sight exactly when
      every player whose coverage it counts is always shown. */
  lemma {:induction false} RuleToldExactly(side: Side, rule: Rule, r: Rect)
    requires 0 < r.w && 0 < r.h
    ensures (forall fields: Fields ::
               RuleAllows(side, fields, fields.ShownTo(side), rule, r) <==> RuleAllows(side, fields, fields.covered, rule, r))
            <==> forall p: Player :: Reads(side, rule, p) ==> side.AlwaysShown(rule.field, p)
  {
    if forall p: Player :: Reads(side, rule, p) ==> side.AlwaysShown(rule.field, p) {
      forall fields: Fields
        ensures RuleAllows(side, fields, fields.ShownTo(side), rule, r) <==> RuleAllows(side, fields, fields.covered, rule, r)
      {
        ToldDecides(side, fields, rule, r);
      }
    } else {
      var p: Player :| Reads(side, rule, p) && !side.AlwaysShown(rule.field, p);
      UnseenIsHidden(side, rule, r, p);
      var fields := Unseen(rule.field, r, p);
      assert !(RuleAllows(side, fields, fields.ShownTo(side), rule, r) <==> RuleAllows(side, fields, fields.covered, rule, r));
    }
  }

  lemma UnseenIsHidden(side: Side, rule: Rule, r: Rect, p: Player)
    requires 0 < r.w && 0 < r.h && Reads(side, rule, p) && !side.AlwaysShown(rule.field, p)
    ensures var fields := Unseen(rule.field, r, p);
            RuleAllows(side, fields, fields.ShownTo(side), rule, r) != RuleAllows(side, fields, fields.covered, rule, r)
  {
    var fields := Unseen(rule.field, r, p);
    var c := Cell(r.x, r.y);
    assert r.Holds(c) && fields.Contains(c) && p in fields.covered(rule.field, c);
    assert forall d: Cell :: fields.ShownTo(side)(rule.field, d) == {};
    assert forall d: Cell | r.Holds(d) :: fields.Contains(d) && p in fields.covered(rule.field, d);
  }

  /** A requirement of one's own coverage always has: the player is on its own side. */
  lemma OwnIsAlwaysShown(side: Side, field: Field, extent: Extent)
    requires side.allied(side.me, side.me)
    ensures forall p: Player :: Reads(side, Requires(field, Own, extent), p) ==> side.AlwaysShown(field, p)
  {
  }

  // ─── The ghost's answer ───────────────────────────────────────────────────

  function Level(land: Map, c: Cell): Option<nat> {
    if land.Contains(c) then Some(land.at(c).level) else None
  }

  /** The ghost's answer about the ground: the simulation's own when no cell of the
      footprint is unknown, and otherwise one answer a known cell, level with the rest. */
  ghost predicate TakesExplored(land: Map, explored: Cell -> bool, anchor: Cell, s: Shape) {
    if forall c: Cell | s.At(anchor).Holds(c) :: explored(c)
    then Takes(land, anchor, s)
    else
      && (s.class_ == Static ==>
            forall c: Cell, d: Cell | s.At(anchor).Holds(c) && explored(c) && s.At(anchor).Holds(d) && explored(d) ::
              Level(land, c) == Level(land, d))
      && (forall c: Cell | s.At(anchor).Holds(c) && explored(c) :: Takes(land, c, s.Single()))
  }

  /** A footprint made out or remembered. */
  datatype MadeOut = MadeOut(layers: set<nat>, rect: Rect, solidity: Solidity, class_: OccupancyClass)

  predicate Share(a: set<nat>, b: set<nat>) {
    a * b != {}
  }

  /** Whether a made-out footprint keeps the placed one off. */
  predicate Blocks(f: MadeOut, anchor: Cell, s: Shape) {
    && Share(f.layers, s.layers)
    && f.rect.Intersects(s.At(anchor))
    && match (f.solidity, f.class_)
       case (Solid, Static) => true
       case (Solid, Claim) => s.solidity == Solid
       case (_, Claim) => s.class_ == Static && s.solidity == Solid
       case (_, Static) => s.class_ == Static && f.solidity.KeepsOff(s.solidity)
  }

  /** What a side knows: the ground it has explored, the footprints it makes out or
      remembers, and the fields as the overlay shows them to it; and the rules the
      placed type stands under. */
  datatype GhostView = GhostView(
    land: Map, explored: Cell -> bool, madeOut: seq<MadeOut>, side: Side, fields: Fields, rules: seq<Rule>)
  {
    ghost predicate Fits(anchor: Cell, s: Shape) {
      && (forall c: Cell | s.At(anchor).Holds(c) :: land.Contains(c))
      && TakesExplored(land, explored, anchor, s)
      && !(exists i | 0 <= i < |madeOut| :: Blocks(madeOut[i], anchor, s))
      && RulesAllow(side, fields, fields.ShownTo(side), rules, s.At(anchor))
    }

    /** What the simulation checks of the fields. */
    ghost predicate FieldsAllow(r: Rect) {
      RulesAllow(side, fields, fields.covered, rules, r)
    }
  }

  // ─── What the ghost refuses ───────────────────────────────────────────────

  /** Only two passables share cells, whichever of them came first. */
  lemma OnlyPassablesShare(standing: Solidity, raised: Solidity)
    ensures standing.KeepsOff(raised) <==> standing != Passable || raised != Passable
    ensures standing.KeepsOff(raised) <==> raised.KeepsOff(standing)
  {
  }

  /** Whether one cell could be built on by itself: on the map, of a terrain of the
      shape, no cliff under what goes over ramps, no slope under what stands. */
  predicate Buildable(land: Map, c: Cell, s: Shape) {
    && c.x < land.width && c.y < land.height
    && land.at(c).terrain in s.terrains
    && (land.at(c).slope.Some? ==> s.crossing.None? || s.class_ == Claim)
    && (land.at(c).slope.Some? && land.at(c).slope.value.Cliff? ==> s.crossing != Some(OverRamps))
  }

  /** An edge between neighbors is crossed the same both ways, and over ramps only
      along one level or up a ramp that rises toward the higher cell. */
  lemma EdgesCrossBothWays(land: Map, a: Cell, b: Cell, s: Shape)
    requires land.Contains(a) && land.Contains(b)
    requires (a.y == b.y && (a.x + 1 == b.x || b.x + 1 == a.x)) || (a.x == b.x && (a.y + 1 == b.y || b.y + 1 == a.y))
    ensures CanCross(land, a, b, s) <==> CanCross(land, b, a, s)
    ensures s.crossing == None ==> CanCross(land, a, b, s)
    ensures s.crossing == Some(OverCliffs) ==>
              (CanCross(land, a, b, s) <==> -1 <= land.at(a).level - land.at(b).level <= 1)
    ensures s.crossing == Some(OverRamps) && land.at(a).level < land.at(b).level ==>
              (CanCross(land, a, b, s) <==>
                && land.at(b).level == land.at(a).level + 1
                && exists dx, dy :: land.at(a).slope == Some(Ramp(dx, dy)) && (if a.y == b.y then a.x + dx == b.x else a.y + dy == b.y))
    ensures land.at(a).level == land.at(b).level ==> CanCross(land, a, b, s)
  {
    if land.at(a).slope.Some? && land.at(a).slope.value.Ramp? {
      var Ramp(dx, dy) := land.at(a).slope.value;
      assert land.at(a).slope == Some(Ramp(dx, dy));
    }
  }

  lemma SingleTakesBuildable(land: Map, c: Cell, s: Shape)
    ensures Takes(land, c, s.Single()) <==> Buildable(land, c, s)
    ensures Buildable(land, c, s) ==> land.Contains(c)
  {
    assert s.Single().At(c).Holds(c);
    assert forall d: Cell | s.Single().At(c).Holds(d) :: d == c;
    if Buildable(land, c, s) {
      assert StandsOnGround(land, c, s.Single());
    }
    if Takes(land, c, s.Single()) {
      assert StandsOnGround(land, c, s.Single());
    }
  }

  /** Whether one cell lies east or south of another, edge to edge. */
  predicate Beside(c: Cell, d: Cell) {
    d == Cell(c.x + 1, c.y) || d == Cell(c.x, c.y + 1)
  }

  ghost predicate EdgesCross(land: Map, anchor: Cell, s: Shape) {
    forall c: Cell, d: Cell | s.At(anchor).Holds(c) && s.At(anchor).Holds(d) && Beside(c, d) :: CanCross(land, c, d, s)
  }

  lemma HeldEdge(land: Map, anchor: Cell, s: Shape, c: Cell, d: Cell)
    requires s.crossing.Some? && HoldsTogether(land, anchor, s)
    requires s.At(anchor).Holds(c) && s.At(anchor).Holds(d) && Beside(c, d)
    ensures CanCross(land, c, d, s)
  {
    hide CanCross;
  }

  lemma HeldCell(land: Map, anchor: Cell, s: Shape, c: Cell)
    requires EdgesCross(land, anchor, s) && s.At(anchor).Holds(c)
    ensures c.x + 1 >= anchor.x + s.w || CanCross(land, c, Cell(c.x + 1, c.y), s)
    ensures c.y + 1 >= anchor.y + s.h || CanCross(land, c, Cell(c.x, c.y + 1), s)
  {
    hide CanCross;
    assert Beside(c, Cell(c.x + 1, c.y)) && Beside(c, Cell(c.x, c.y + 1));
  }

  lemma EdgesHold(land: Map, anchor: Cell, s: Shape)
    requires s.crossing.Some?
    ensures HoldsTogether(land, anchor, s) <==> EdgesCross(land, anchor, s)
  {
    hide CanCross;
    if HoldsTogether(land, anchor, s) {
      hide HoldsTogether;
      forall c: Cell, d: Cell | s.At(anchor).Holds(c) && s.At(anchor).Holds(d) && Beside(c, d) {
        HeldEdge(land, anchor, s, c, d);
      }
    } else if EdgesCross(land, anchor, s) {
      hide EdgesCross;
      forall c: Cell | s.At(anchor).Holds(c) {
        HeldCell(land, anchor, s, c);
      }
    }
  }

  lemma MoverStands(land: Map, c: Cell, s: Shape)
    requires s.class_ == Claim
    ensures StandsOnGround(land, c, s) <==> Buildable(land, c, s)
    ensures Buildable(land, c, s) ==> land.Contains(c)
  {
  }

  /** Ground is taken for what moves exactly when each cell could be built on by
      itself and every two neighbors may be crossed between. */
  lemma MoverGroundExactly(land: Map, anchor: Cell, s: Shape)
    requires s.class_ == Claim
    ensures Takes(land, anchor, s) <==>
              (forall c: Cell | s.At(anchor).Holds(c) :: Buildable(land, c, s)) && EdgesCross(land, anchor, s)
  {
    hide CanCross, StandsOnGround, Buildable, EdgesCross;
    forall c: Cell {
      MoverStands(land, c, s);
    }
    if s.crossing.Some? {
      EdgesHold(land, anchor, s);
    } else if forall c: Cell | s.At(anchor).Holds(c) :: Buildable(land, c, s) {
      AnyEdgeCrosses(land, anchor, s);
    }
  }

  lemma AnyEdgeCrosses(land: Map, anchor: Cell, s: Shape)
    requires s.crossing == None && forall c: Cell | s.At(anchor).Holds(c) :: land.Contains(c)
    ensures EdgesCross(land, anchor, s)
  {
  }

  /** A standing footprint is taken exactly when each cell could be built on by
      itself and all lie on one level: no edge between them needs asking about. */
  lemma StandingGroundExactly(land: Map, anchor: Cell, s: Shape)
    requires s.Sized() && s.class_ == Static && LayerSuits(land, s)
    ensures Takes(land, anchor, s) <==>
              && (forall c: Cell | s.At(anchor).Holds(c) :: Buildable(land, c, s))
              && (forall c: Cell, d: Cell | s.At(anchor).Holds(c) && s.At(anchor).Holds(d) :: land.at(c).level == land.at(d).level)
  {
    assert s.At(anchor).Holds(anchor);
    if Takes(land, anchor, s) {
      forall c: Cell | s.At(anchor).Holds(c)
        ensures Buildable(land, c, s) && land.at(c).level == land.at(anchor).level
      {
        assert StandsOnGround(land, c, s) && StandsOnGround(land, anchor, s);
      }
    } else if (forall c: Cell | s.At(anchor).Holds(c) :: Buildable(land, c, s))
              && forall c: Cell, d: Cell | s.At(anchor).Holds(c) && s.At(anchor).Holds(d) :: land.at(c).level == land.at(d).level {
      forall c: Cell | s.At(anchor).Holds(c)
        ensures StandsOnGround(land, c, s)
        ensures c.x + 1 < anchor.x + s.w ==> CanCross(land, c, Cell(c.x + 1, c.y), s)
        ensures c.y + 1 < anchor.y + s.h ==> CanCross(land, c, Cell(c.x, c.y + 1), s)
      {
        assert c.x + 1 < anchor.x + s.w ==> s.At(anchor).Holds(Cell(c.x + 1, c.y));
        assert c.y + 1 < anchor.y + s.h ==> s.At(anchor).Holds(Cell(c.x, c.y + 1));
      }
    }
  }

  ghost predicate AllExplored(explored: Cell -> bool, r: Rect) {
    forall c: Cell | r.Holds(c) :: explored(c)
  }

  /** The ground verdict on a standing footprint, however much of it is explored: the
      explored cells could each be built on and lie on one level. */
  lemma {:induction false} KnownGroundExactly(land: Map, explored: Cell -> bool, anchor: Cell, s: Shape)
    requires s.Sized() && s.class_ == Static && LayerSuits(land, s)
    ensures TakesExplored(land, explored, anchor, s) <==>
              && (forall c: Cell | s.At(anchor).Holds(c) && explored(c) :: Buildable(land, c, s))
              && (forall c: Cell, d: Cell | s.At(anchor).Holds(c) && explored(c) && s.At(anchor).Holds(d) && explored(d) ::
                    land.at(c).level == land.at(d).level)
  {
    hide Takes, LayerSuits, Buildable;
    if AllExplored(explored, s.At(anchor)) {
      StandingGroundExactly(land, anchor, s);
    } else {
      forall c: Cell {
        SingleTakesBuildable(land, c, s);
      }
    }
  }

  /** And on what moves: each explored cell could be built on, and when none is unknown
      every two neighbors may be crossed between. */
  lemma {:induction false} KnownMoverGroundExactly(land: Map, explored: Cell -> bool, anchor: Cell, s: Shape)
    requires s.class_ == Claim
    ensures TakesExplored(land, explored, anchor, s) <==>
              && (forall c: Cell | s.At(anchor).Holds(c) && explored(c) :: Buildable(land, c, s))
              && (AllExplored(explored, s.At(anchor)) ==> EdgesCross(land, anchor, s))
  {
    hide Takes, Buildable, EdgesCross;
    if AllExplored(explored, s.At(anchor)) {
      MoverGroundExactly(land, anchor, s);
    } else {
      forall c: Cell {
        SingleTakesBuildable(land, c, s);
      }
    }
  }

  /** A standing ghost fits exactly when all its cells are on the map, those explored
      could each be built on and lie on one level, nothing made out blocks it and the
      fields shown allow it. */
  lemma {:induction false} StandingGhostFitsExactly(view: GhostView, anchor: Cell, s: Shape)
    requires s.Sized() && s.class_ == Static && LayerSuits(view.land, s)
    ensures view.Fits(anchor, s) <==>
              && (forall c: Cell | s.At(anchor).Holds(c) :: c.x < view.land.width && c.y < view.land.height)
              && (forall c: Cell | s.At(anchor).Holds(c) && view.explored(c) :: Buildable(view.land, c, s))
              && (forall c: Cell, d: Cell | s.At(anchor).Holds(c) && view.explored(c) && s.At(anchor).Holds(d) && view.explored(d) ::
                    view.land.at(c).level == view.land.at(d).level)
              && (forall f | f in view.madeOut :: !Blocks(f, anchor, s))
              && (forall rule | rule in view.rules :: RuleAllows(view.side, view.fields, view.fields.ShownTo(view.side), rule, s.At(anchor)))
  {
    hide TakesExplored, Blocks, RuleAllows, Buildable, LayerSuits;
    KnownGroundExactly(view.land, view.explored, anchor, s);
    if view.Fits(anchor, s) {
      assert forall f | f in view.madeOut :: exists i :: 0 <= i < |view.madeOut| && view.madeOut[i] == f;
    } else {
      assert forall i | 0 <= i < |view.madeOut| :: view.madeOut[i] in view.madeOut;
      assert forall i | 0 <= i < |view.rules| :: view.rules[i] in view.rules;
    }
  }

  /** One explored cell that cannot be built on refuses the ghost, and so do two
      explored levels under a standing one, whatever else is known. */
  lemma {:induction false} KnownBadCellRefuses(view: GhostView, anchor: Cell, s: Shape, c: Cell, d: Cell)
    requires s.Sized() && LayerSuits(view.land, s)
    requires s.At(anchor).Holds(c) && view.explored(c) && s.At(anchor).Holds(d) && view.explored(d)
    requires !Buildable(view.land, c, s) || (s.class_ == Static && view.land.at(c).level != view.land.at(d).level)
    ensures !view.Fits(anchor, s)
  {
    hide TakesExplored, Buildable, LayerSuits;
    if s.class_ == Static {
      KnownGroundExactly(view.land, view.explored, anchor, s);
    } else {
      KnownMoverGroundExactly(view.land, view.explored, anchor, s);
    }
  }

  // ─── Two worlds, one answer ───────────────────────────────────────────────

  ghost predicate AgreeOnExplored(m: Map, n: Map, explored: Cell -> bool, r: Rect) {
    && m.width == n.width && m.height == n.height
    && forall c: Cell | r.Holds(c) && explored(c) :: m.at(c) == n.at(c)
  }

  lemma TakesReadsFootprint(m: Map, n: Map, anchor: Cell, s: Shape)
    requires s.Sized()
    requires AgreeOnExplored(m, n, (_: Cell) => true, s.At(anchor))
    requires Takes(m, anchor, s)
    ensures Takes(n, anchor, s)
  {
    assert s.At(anchor).Holds(anchor);
    forall c: Cell | s.At(anchor).Holds(c)
      ensures StandsOnGround(n, c, s)
    {
      assert StandsOnGround(m, c, s);
    }
  }

  lemma VerdictCarriesOver(m: Map, n: Map, explored: Cell -> bool, anchor: Cell, s: Shape)
    requires s.Sized()
    requires AgreeOnExplored(m, n, explored, s.At(anchor))
    requires TakesExplored(m, explored, anchor, s)
    ensures TakesExplored(n, explored, anchor, s)
  {
    if forall c: Cell | s.At(anchor).Holds(c) :: explored(c) {
      TakesReadsFootprint(m, n, anchor, s);
    } else {
      forall c: Cell | s.At(anchor).Holds(c) && explored(c)
        ensures Takes(n, c, s.Single()) && Level(m, c) == Level(n, c)
      {
        TakesReadsFootprint(m, n, c, s.Single());
      }
    }
  }

  /** The ground verdict is the same in any two maps that agree on the explored
      cells of the footprint. */
  lemma {:induction false} VerdictReadsExploredAlone(m: Map, n: Map, explored: Cell -> bool, anchor: Cell, s: Shape)
    requires s.Sized()
    requires AgreeOnExplored(m, n, explored, s.At(anchor))
    ensures TakesExplored(m, explored, anchor, s) <==> TakesExplored(n, explored, anchor, s)
  {
    hide TakesExplored;
    if TakesExplored(m, explored, anchor, s) {
      VerdictCarriesOver(m, n, explored, anchor, s);
    }
    if TakesExplored(n, explored, anchor, s) {
      VerdictCarriesOver(n, m, explored, anchor, s);
    }
  }

  // ─── Learning more ────────────────────────────────────────────────────────

  /** Ground that takes a whole footprint takes each cell of it. */
  lemma WholeTakesEach(land: Map, anchor: Cell, s: Shape, c: Cell)
    requires Takes(land, anchor, s) && s.At(anchor).Holds(c)
    ensures Takes(land, c, s.Single()) && land.Contains(c)
  {
    assert StandsOnGround(land, c, s);
    assert forall d: Cell | s.Single().At(c).Holds(d) :: d == c;
  }

  /** And takes a standing one on one level. */
  lemma WholeOnOneLevel(land: Map, anchor: Cell, s: Shape, c: Cell, d: Cell)
    requires LayerSuits(land, s) && s.class_ == Static
    requires Takes(land, anchor, s) && s.At(anchor).Holds(c) && s.At(anchor).Holds(d)
    ensures Level(land, c) == Level(land, d)
  {
    assert StandsOnGround(land, c, s) && StandsOnGround(land, d, s);
  }

  /** Exploring more ground can only turn "fits" into "does not fit". */
  lemma {:induction false} ExploringOnlyRefuses(land: Map, less: Cell -> bool, more: Cell -> bool, anchor: Cell, s: Shape)
    requires LayerSuits(land, s)
    requires forall c :: less(c) ==> more(c)
    requires TakesExplored(land, more, anchor, s)
    ensures TakesExplored(land, less, anchor, s)
  {
    if forall c: Cell | s.At(anchor).Holds(c) :: more(c) {
      forall c: Cell | s.At(anchor).Holds(c)
        ensures Takes(land, c, s.Single())
      {
        WholeTakesEach(land, anchor, s, c);
      }
      if s.class_ == Static {
        forall c: Cell, d: Cell | s.At(anchor).Holds(c) && s.At(anchor).Holds(d)
          ensures Level(land, c) == Level(land, d)
        {
          WholeOnOneLevel(land, anchor, s, c, d);
        }
      }
    }
  }

  /** Knowing more, of the ground or of what stands on it, never makes a ghost fit. */
  lemma {:induction false} KnowledgeOnlyRefuses(less: GhostView, more: GhostView, anchor: Cell, s: Shape)
    requires LayerSuits(less.land, s)
    requires more == less.(explored := more.explored, madeOut := more.madeOut)
    requires forall c :: less.explored(c) ==> more.explored(c)
    requires forall f | f in less.madeOut :: f in more.madeOut
    requires more.Fits(anchor, s)
    ensures less.Fits(anchor, s)
  {
    ExploringOnlyRefuses(less.land, less.explored, more.explored, anchor, s);
    forall i | 0 <= i < |less.madeOut|
      ensures !Blocks(less.madeOut[i], anchor, s)
    {
      assert less.madeOut[i] in more.madeOut;
    }
  }

  // ─── Against the simulation ───────────────────────────────────────────────

  /** Whether a body marks the cell on a layer of the placed footprint, on a
      plane the placed footprint has to find free. */
  ghost predicate MarksCell(body: MadeOut, c: Cell, s: Shape) {
    && body.solidity == Solid && body.rect.Holds(c) && Share(body.layers, s.layers)
    && (s.solidity == Solid || body.class_ == Static)
  }

  /** Whether a body that marks no cells still bars a standing footprint: a mover bars
      solid ones, what never walks bars those its solidity bars. */
  ghost predicate HoldsGround(body: MadeOut, anchor: Cell, s: Shape) {
    && body.solidity != Solid && Share(body.layers, s.layers) && body.rect.Intersects(s.At(anchor))
    && (if body.class_ == Claim then s.solidity == Solid else body.solidity.KeepsOff(s.solidity))
  }

  /** What the simulation checks of the ground and of the bodies standing on it. */
  ghost predicate CanPlace(land: Map, bodies: seq<MadeOut>, anchor: Cell, s: Shape) {
    && Takes(land, anchor, s)
    && (forall c, i | s.At(anchor).Holds(c) && 0 <= i < |bodies| :: !MarksCell(bodies[i], c, s))
    && (s.class_ == Static ==> forall i | 0 <= i < |bodies| :: !HoldsGround(bodies[i], anchor, s))
  }

  /** The ghost's one test on a footprint is the grid's and the ground holders' two. */
  lemma {:induction false} BlocksIsEngineRule(f: MadeOut, anchor: Cell, s: Shape)
    requires s.Sized() && f.rect.w > 0 && f.rect.h > 0
    ensures Blocks(f, anchor, s) <==>
            (exists c :: s.At(anchor).Holds(c) && MarksCell(f, c, s)) || (s.class_ == Static && HoldsGround(f, anchor, s))
  {
    if f.rect.Intersects(s.At(anchor)) {
      var c := Cell(if f.rect.x < anchor.x then anchor.x else f.rect.x, if f.rect.y < anchor.y then anchor.y else f.rect.y);
      assert f.rect.Holds(c) && s.At(anchor).Holds(c);
    }
  }

  lemma ToldRulesDecide(view: GhostView, r: Rect)
    requires forall i | 0 <= i < |view.rules| :: Told(view.side, view.fields, view.rules[i], r)
    ensures RulesAllow(view.side, view.fields, view.fields.ShownTo(view.side), view.rules, r) <==> view.FieldsAllow(r)
  {
    hide RuleAllows, Told;
    forall i | 0 <= i < |view.rules|
      ensures RuleAllows(view.side, view.fields, view.fields.ShownTo(view.side), view.rules[i], r)
              <==> RuleAllows(view.side, view.fields, view.fields.covered, view.rules[i], r)
    {
      ToldDecides(view.side, view.fields, view.rules[i], r);
    }
  }

  /** With everything explored and made out, and no coverage its rules count hidden on
      the footprint, the ghost says what the simulation says. */
  lemma {:induction false} FullKnowledgeIsTheSimulation(view: GhostView, anchor: Cell, s: Shape)
    requires s.Sized() && forall f | f in view.madeOut :: f.rect.w > 0 && f.rect.h > 0
    requires forall c :: view.explored(c)
    requires forall i | 0 <= i < |view.rules| :: Told(view.side, view.fields, view.rules[i], s.At(anchor))
    ensures view.Fits(anchor, s) <==> CanPlace(view.land, view.madeOut, anchor, s) && view.FieldsAllow(s.At(anchor))
  {
    hide Told, RulesAllow;
    ToldRulesDecide(view, s.At(anchor));
    forall i | 0 <= i < |view.madeOut|
      ensures Blocks(view.madeOut[i], anchor, s) <==>
              (exists c :: s.At(anchor).Holds(c) && MarksCell(view.madeOut[i], c, s))
              || (s.class_ == Static && HoldsGround(view.madeOut[i], anchor, s))
    {
      assert view.madeOut[i] in view.madeOut;
      BlocksIsEngineRule(view.madeOut[i], anchor, s);
    }
    if Takes(view.land, anchor, s) {
      forall c: Cell | s.At(anchor).Holds(c)
        ensures view.land.Contains(c)
      {
        assert StandsOnGround(view.land, c, s);
      }
    }
  }

  lemma GroundAndBodiesFit(view: GhostView, bodies: seq<MadeOut>, anchor: Cell, s: Shape)
    requires s.Sized() && LayerSuits(view.land, s)
    requires forall f | f in bodies :: f.rect.w > 0 && f.rect.h > 0
    requires forall f | f in view.madeOut :: f in bodies
    requires CanPlace(view.land, bodies, anchor, s)
    ensures view.(rules := []).Fits(anchor, s)
  {
    var known := view.(rules := []);
    var all := known.(explored := (_: Cell) => true, madeOut := bodies);
    FullKnowledgeIsTheSimulation(all, anchor, s);
    KnowledgeOnlyRefuses(known, all, anchor, s);
  }

  /**
   However little is known, the ghost refuses what the simulation would take only
   over a requirement whose coverage is hidden from the overlay; bans never make it.
   */
  lemma {:induction false} GhostNeverRefusesWhatFits(view: GhostView, bodies: seq<MadeOut>, anchor: Cell, s: Shape)
    requires s.Sized() && LayerSuits(view.land, s)
    requires forall f | f in bodies :: f.rect.w > 0 && f.rect.h > 0
    requires forall f | f in view.madeOut :: f in bodies
    requires CanPlace(view.land, bodies, anchor, s) && view.FieldsAllow(s.At(anchor))
    ensures view.Fits(anchor, s)
            <==> forall i | 0 <= i < |view.rules| && view.rules[i].Requires? ::
                   RuleAllows(view.side, view.fields, view.fields.ShownTo(view.side), view.rules[i], s.At(anchor))
    ensures (forall i | 0 <= i < |view.rules| && view.rules[i].Requires? :: Told(view.side, view.fields, view.rules[i], s.At(anchor)))
            ==> view.Fits(anchor, s)
  {
    hide Told, RuleAllows, TakesExplored;
    GroundAndBodiesFit(view, bodies, anchor, s);
    forall i | 0 <= i < |view.rules|
      ensures view.rules[i].Forbids? ==>
                RuleAllows(view.side, view.fields, view.fields.ShownTo(view.side), view.rules[i], s.At(anchor))
      ensures Told(view.side, view.fields, view.rules[i], s.At(anchor)) ==>
                RuleAllows(view.side, view.fields, view.fields.ShownTo(view.side), view.rules[i], s.At(anchor))
    {
      assert RuleAllows(view.side, view.fields, view.fields.covered, view.rules[i], s.At(anchor));
      ShownDecides(view.side, view.fields, view.rules[i], s.At(anchor));
      if Told(view.side, view.fields, view.rules[i], s.At(anchor)) {
        ToldDecides(view.side, view.fields, view.rules[i], s.At(anchor));
      }
    }
  }
}
