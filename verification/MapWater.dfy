/**
 The demo map's water: the sea, the lake and the rivers, the terrain they
 leave on each cell, and what that means for anything that walks.
 */
module MapWater {

  const WIDTH: nat := 96
  const HEIGHT: nat := 96
  const RIVER_AXIS: nat := 48
  const RIVER_DEEP: nat := 1
  const RIVER_BANK: nat := 1
  const SEA_EAST: nat := RIVER_AXIS
  const SEA_DEEP_TO: nat := 9
  const SEA_COAST_TO: nat := 11
  const LAKE_RADIUS_SQ: int := 81
  const DEEP_RADIUS_SQ: int := 49

  datatype Water = Dry | Shallow | Deep

  datatype Terrain = Land | ShallowWater | DeepWater

  function Rank(w: Water): nat {
    match w
    case Dry => 0
    case Shallow => 1
    case Deep => 2
  }

  function Deeper(a: Water, b: Water): Water {
    if Rank(a) < Rank(b) then b else a
  }

  /** Along a river arm: the near ford's span and the far one's. */
  predicate Ford(along: nat) {
    17 <= along <= 21 || 74 <= along <= 78
  }

  function AbsDiff(a: nat, b: nat): nat {
    if a < b then b - a else a - b
  }

  function SeaWater(x: nat, y: nat): Water {
    if x > SEA_EAST then Dry
    else if y <= SEA_DEEP_TO then Deep
    else if y <= SEA_COAST_TO then Shallow
    else Dry
  }

  function LakeWater(x: nat, y: nat): Water {
    var dx, dy := x - RIVER_AXIS, y - RIVER_AXIS;
    var distance := dx * dx + dy * dy;
    if distance <= DEEP_RADIUS_SQ then Deep
    else if distance <= LAKE_RADIUS_SQ then Shallow
    else Dry
  }

  function ArmWater(across: nat, onFord: bool): Water {
    if across > RIVER_DEEP + RIVER_BANK then Dry
    else if onFord then Shallow
    else if across <= RIVER_DEEP then Deep
    else Shallow
  }

  function RiverWater(x: nat, y: nat): Water {
    Deeper(ArmWater(AbsDiff(x, RIVER_AXIS), Ford(y)), ArmWater(AbsDiff(y, RIVER_AXIS), Ford(x)))
  }

  function WaterAt(x: nat, y: nat): Water {
    Deeper(Deeper(SeaWater(x, y), LakeWater(x, y)), RiverWater(x, y))
  }

  function TerrainAt(x: nat, y: nat): Terrain {
    match WaterAt(x, y)
    case Deep => DeepWater
    case Shallow => ShallowWater
    case Dry => Land
  }

  /** Whether a cell is deep: in the sea's northern strip west of the axis, within seven
      cells of the lake's middle, or on an arm's three middle lines off its two fords. */
  predicate DeepHere(x: int, y: int) {
    || (x <= 48 && y <= 9)
    || (x - 48) * (x - 48) + (y - 48) * (y - 48) <= 49
    || (47 <= x <= 49 && !(17 <= y <= 21 || 74 <= y <= 78))
    || (47 <= y <= 49 && !(17 <= x <= 21 || 74 <= x <= 78))
  }

  /** Whether it is wet at all: on the coast too, within nine cells, or on an arm's banks. */
  predicate WetHere(x: int, y: int) {
    || (x <= 48 && y <= 11)
    || (x - 48) * (x - 48) + (y - 48) * (y - 48) <= 81
    || 46 <= x <= 50 || 46 <= y <= 50
  }

  lemma TerrainIsWater(x: nat, y: nat)
    ensures TerrainAt(x, y) == (match WaterAt(x, y)
                                case Deep => DeepWater
                                case Shallow => ShallowWater
                                case Dry => Land)
  {
  }

  lemma TerrainExactly(x: nat, y: nat)
    ensures TerrainAt(x, y) == if DeepHere(x, y) then DeepWater else if WetHere(x, y) then ShallowWater else Land
  {
  }

  /** Lays the map's terrain cell by cell over a field of land. */
  method LayTerrain() returns (terrain: array2<Terrain>)
    ensures terrain.Length0 == WIDTH && terrain.Length1 == HEIGHT
    ensures forall x, y | 0 <= x < WIDTH && 0 <= y < HEIGHT :: terrain[x, y] == TerrainAt(x, y)
    ensures forall x, y | 0 <= x < WIDTH && 0 <= y < HEIGHT ::
              terrain[x, y] == if DeepHere(x, y) then DeepWater else if WetHere(x, y) then ShallowWater else Land
  {
    hide TerrainAt, DeepHere, WetHere;
    forall x: nat, y: nat {
      TerrainExactly(x, y);
    }
    terrain := new Terrain[WIDTH, HEIGHT]((_, _) => Land);
    for y := 0 to HEIGHT
      invariant forall cx, cy | 0 <= cx < WIDTH && 0 <= cy < HEIGHT ::
          terrain[cx, cy] == if cy < y then TerrainAt(cx, cy) else Land
    {
      for x := 0 to WIDTH
        invariant forall cx, cy | 0 <= cx < WIDTH && 0 <= cy < HEIGHT ::
            terrain[cx, cy] == if cy < y || (cy == y && cx < x) then TerrainAt(cx, cy) else Land
      {
        TerrainIsWater(x, y);
        match WaterAt(x, y)
        case Deep => terrain[x, y] := DeepWater;
        case Shallow => terrain[x, y] := ShallowWater;
        case Dry =>
      }
    }
  }

  // ─── Barriers ─────────────────────────────────────────────────────────────

  datatype Cell = Cell(x: nat, y: nat)

  /** A walk of single steps, diagonals included, never through deep water. */
  ghost predicate Walk(cells: seq<Cell>) {
    && (forall i | 0 <= i < |cells| :: WaterAt(cells[i].x, cells[i].y) != Deep)
    && (forall i | 0 <= i < |cells| - 1 ::
          AbsDiff(cells[i].x, cells[i + 1].x) <= 1 && AbsDiff(cells[i].y, cells[i + 1].y) <= 1)
  }

  /** The three deep columns of the upright arm let a walker through on its fords alone. */
  lemma DeepColumns(x: nat, y: nat)
    requires AbsDiff(x, RIVER_AXIS) <= RIVER_DEEP
    ensures WaterAt(x, y) != Deep <==> Ford(y)
  {
    if Ford(y) {
      FarFromLake(x - RIVER_AXIS, y - RIVER_AXIS);
    }
  }

  /** The three deep rows of the level arm let a walker through on its fords alone. */
  lemma DeepRows(x: nat, y: nat)
    requires AbsDiff(y, RIVER_AXIS) <= RIVER_DEEP
    ensures WaterAt(x, y) != Deep <==> Ford(x)
  {
    if Ford(x) {
      FarFromLake(y - RIVER_AXIS, x - RIVER_AXIS);
    }
  }

  lemma FarFromLake(dx: int, dy: int)
    requires dy <= -10 || 10 <= dy
    ensures dx * dx + dy * dy > LAKE_RADIUS_SQ
  {
    assert dx * dx >= 0;
    if dy >= 10 {
      assert dy * dy >= 10 * dy;
    } else {
      assert (-dy) * (-dy) >= 10 * (-dy);
      assert dy * dy == (-dy) * (-dy);
    }
  }

  /**
   No walk of any length changes sides of the upright arm but over its axis on
   one of the two fords, and it stays on fords wherever the channel is deep.
   */
  lemma {:induction false} WalkCrossesUprightArmOnFord(cells: seq<Cell>)
    requires Walk(cells) && |cells| > 0
    requires cells[0].x < RIVER_AXIS < cells[|cells| - 1].x || cells[|cells| - 1].x < RIVER_AXIS < cells[0].x
    ensures exists i :: 0 <= i < |cells| && cells[i].x == RIVER_AXIS && Ford(cells[i].y)
    ensures forall i | 0 <= i < |cells| && AbsDiff(cells[i].x, RIVER_AXIS) <= RIVER_DEEP :: Ford(cells[i].y)
  {
    forall i | 0 <= i < |cells| && AbsDiff(cells[i].x, RIVER_AXIS) <= RIVER_DEEP
      ensures Ford(cells[i].y)
    {
      DeepColumns(cells[i].x, cells[i].y);
    }
    var i := MeetsAxis(seq(|cells|, i requires 0 <= i < |cells| => cells[i].x));
  }

  /** The same of the level arm. */
  lemma {:induction false} WalkCrossesLevelArmOnFord(cells: seq<Cell>)
    requires Walk(cells) && |cells| > 0
    requires cells[0].y < RIVER_AXIS < cells[|cells| - 1].y || cells[|cells| - 1].y < RIVER_AXIS < cells[0].y
    ensures exists i :: 0 <= i < |cells| && cells[i].y == RIVER_AXIS && Ford(cells[i].x)
    ensures forall i | 0 <= i < |cells| && AbsDiff(cells[i].y, RIVER_AXIS) <= RIVER_DEEP :: Ford(cells[i].x)
  {
    forall i | 0 <= i < |cells| && AbsDiff(cells[i].y, RIVER_AXIS) <= RIVER_DEEP
      ensures Ford(cells[i].x)
    {
      DeepRows(cells[i].x, cells[i].y);
    }
    var i := MeetsAxis(seq(|cells|, i requires 0 <= i < |cells| => cells[i].y));
  }

  /** A coordinate moving by at most one meets every value between its ends. */
  lemma {:induction false} MeetsAxis(along: seq<nat>) returns (i: nat)
    requires |along| > 0
    requires forall i | 0 <= i < |along| - 1 :: AbsDiff(along[i], along[i + 1]) <= 1
    requires along[0] < RIVER_AXIS < along[|along| - 1] || along[|along| - 1] < RIVER_AXIS < along[0]
    ensures i < |along| && along[i] == RIVER_AXIS
  {
    if along[|along| - 2] == RIVER_AXIS {
      i := |along| - 2;
    } else {
      i := MeetsAxis(along[..|along| - 1]);
    }
  }

  /** Along a ford the way is open from edge to edge, but for the sea's deep strip. */
  lemma FordsAreOpen(along: nat, at: nat)
    requires Ford(at)
    ensures WaterAt(along, at) != Deep
    ensures WaterAt(at, along) == Deep <==> at <= SEA_EAST && along <= SEA_DEEP_TO
  {
    FarFromLake(along - RIVER_AXIS, at - RIVER_AXIS);
  }
}
