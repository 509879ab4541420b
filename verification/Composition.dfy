/**
 Recomposing the minimap: seven layers painted over one buffer, and the
 per-cell function that says which of them a cell shows.
 */
module Composition {
  import opened Wrappers
  import opened Fog
  import opened Segments
  import opened Canvases

  const GHOST: Color := Rgba(140, 140, 158, 255)
  const VOID: Color := Rgba(23, 23, 28, 255)
  const CREEP: Color := Rgba(120, 45, 140, 255)
  const POWER: Color := Rgba(70, 130, 255, 255)
  const BLIGHT: Color := Rgba(86, 84, 78, 255)
  const TRUE_SIGHT: Color := Rgba(150, 230, 255, 255)
  const VEIL: Color := Rgba(190, 150, 255, 255)
  const VIEWPORT: Color := Rgba(235, 235, 235, 255)
  const HURT: Color := Rgba(255, 60, 50, 255)
  const SELECTED: Color := Rgba(255, 255, 255, 255)

  const HURT_TICKS: nat := 140
  const HURT_SOLID_TICKS: nat := 20
  const HURT_PHASE_TICKS: nat := 10

  /** The cells of a field's grid and which of them show its color. */
  datatype Coverage = Coverage(width: nat, height: nat, shown: (nat, nat) -> bool) {
    predicate Shows(x: u32, y: u32) {
      x < width && y < height && shown(x, y)
    }
  }

  /** A rectangle of cells, its first corner at `(x, y)`. */
  datatype Block = Block(x: u32, y: u32, w: u32, h: u32) {
    predicate Holds(cx: u32, cy: u32) {
      Covers(x, y, w, h, cx, cy)
    }
  }

  /** A live entity as the compositor reads it; `block` is nothing for a type with no location. */
  datatype Entity = Entity(
    seen: bool, block: Option<Block>, own: bool, team: bool, selected: bool,
    lastHit: Option<nat>, ownerColor: Color)

  datatype Blip = Blip(significance: nat, block: Block, color: Color)

  /** Everything one refresh reads; the two color blends are parameters. */
  datatype Scene = Scene(
    tick: nat,
    creep: Option<Coverage>, blight: Option<Coverage>,
    power: Option<Coverage>, trueSight: Option<Coverage>, veil: Option<Coverage>,
    revealed: bool,
    perspective: (nat, nat) -> CellVisibility,
    ghosts: seq<Block>,
    entities: seq<Entity>,
    viewport: Option<Corners>,
    mix: (Color, Color) -> Color,
    dim: Color -> Color)

  // ─── Blips ────────────────────────────────────────────────────────────────

  predicate HurtRecently(lastHit: Option<nat>, tick: nat) {
    lastHit.Some? &&
    var since := if tick < lastHit.value then 0 else tick - lastHit.value;
    since < HURT_TICKS && (since < HURT_SOLID_TICKS || since / HURT_PHASE_TICKS % 2 == 0)
  }

  function Significance(e: Entity): nat {
    if e.selected then 3 else if e.own then 2 else if e.team then 1 else 0
  }

  function BlipColor(e: Entity, tick: nat): Color {
    if e.selected then SELECTED else if e.own && HurtRecently(e.lastHit, tick) then HURT else e.ownerColor
  }

  /** The blips of what is seen in full and stands somewhere, in iteration order. */
  function Blips(entities: seq<Entity>, tick: nat): seq<Blip> {
    if entities == [] then []
    else
      var rest, e := Blips(entities[..|entities| - 1], tick), entities[|entities| - 1];
      if e.seen && e.block.Some?
      then rest + [Blip(Significance(e), e.block.value, BlipColor(e, tick))]
      else rest
  }

  /** Puts `b` after every blip no more significant than it. */
  function Inserted(sorted: seq<Blip>, b: Blip): seq<Blip> {
    if sorted == [] || sorted[|sorted| - 1].significance <= b.significance then sorted + [b]
    else Inserted(sorted[..|sorted| - 1], b) + [sorted[|sorted| - 1]]
  }

  function StableSorted(blips: seq<Blip>): seq<Blip> {
    if blips == [] then [] else Inserted(StableSorted(blips[..|blips| - 1]), blips[|blips| - 1])
  }

  ghost predicate Ascending(blips: seq<Blip>) {
    forall i, j | 0 <= i < j < |blips| :: blips[i].significance <= blips[j].significance
  }

  /** The blips of one significance, in order. */
  function OfSignificance(blips: seq<Blip>, n: nat): seq<Blip> {
    if blips == [] then []
    else
      var rest, b := OfSignificance(blips[..|blips| - 1], n), blips[|blips| - 1];
      if b.significance == n then rest + [b] else rest
  }

  lemma OfSignificanceNext(blips: seq<Blip>, b: Blip, n: nat)
    ensures OfSignificance(blips + [b], n)
            == OfSignificance(blips, n) + (if b.significance == n then [b] else [])
  {
    assert (blips + [b])[..|blips|] == blips;
  }

  lemma {:induction false} InsertedMembers(sorted: seq<Blip>, b: Blip)
    ensures forall c :: c in Inserted(sorted, b) <==> c in sorted || c == b
  {
    if sorted != [] && sorted[|sorted| - 1].significance > b.significance {
      InsertedMembers(sorted[..|sorted| - 1], b);
      assert sorted == sorted[..|sorted| - 1] + [sorted[|sorted| - 1]];
    }
  }

  lemma {:induction false} InsertedAscends(sorted: seq<Blip>, b: Blip)
    requires Ascending(sorted)
    ensures Ascending(Inserted(sorted, b))
  {
    if sorted != [] && sorted[|sorted| - 1].significance > b.significance {
      var init, last := sorted[..|sorted| - 1], sorted[|sorted| - 1];
      InsertedAscends(init, b);
      InsertedMembers(init, b);
      forall c | c in Inserted(init, b)
        ensures c.significance <= last.significance
      {
      }
    }
  }

  lemma {:induction false} InsertedIsStable(sorted: seq<Blip>, b: Blip, n: nat)
    requires Ascending(sorted)
    ensures OfSignificance(Inserted(sorted, b), n)
            == OfSignificance(sorted, n) + (if b.significance == n then [b] else [])
  {
    if sorted == [] || sorted[|sorted| - 1].significance <= b.significance {
      OfSignificanceNext(sorted, b, n);
    } else {
      var init, last := sorted[..|sorted| - 1], sorted[|sorted| - 1];
      InsertedIsStable(init, b, n);
      OfSignificanceNext(Inserted(init, b), last, n);
    }
  }

  /** The sort orders the blips and leaves equals as they came: it is the stable one. */
  lemma {:induction false} StableSortedIsStable(blips: seq<Blip>)
    ensures Ascending(StableSorted(blips))
    ensures forall n :: OfSignificance(StableSorted(blips), n) == OfSignificance(blips, n)
  {
    if blips != [] {
      var init, last := blips[..|blips| - 1], blips[|blips| - 1];
      StableSortedIsStable(init);
      InsertedAscends(StableSorted(init), last);
      forall n
        ensures OfSignificance(StableSorted(blips), n) == OfSignificance(blips, n)
      {
        InsertedIsStable(StableSorted(init), last, n);
      }
    }
  }

  /** What a cell shows once the blips are painted one over another in order. */
  function LastCovering(blips: seq<Blip>, x: u32, y: u32): (b: Option<Blip>)
    ensures b.Some? ==> b.value in blips && b.value.block.Holds(x, y)
  {
    if blips == [] then None
    else if blips[|blips| - 1].block.Holds(x, y) then Some(blips[|blips| - 1])
    else LastCovering(blips[..|blips| - 1], x, y)
  }

  /** Whether the `i`-th blip is the one a cell should show: the most significant
      covering it, the last in iteration order among equals. */
  ghost predicate Wins(blips: seq<Blip>, i: int, x: u32, y: u32) {
    && 0 <= i < |blips| && blips[i].block.Holds(x, y)
    && forall j | 0 <= j < |blips| && blips[j].block.Holds(x, y) ::
         blips[j].significance < blips[i].significance
         || (blips[j].significance == blips[i].significance && j <= i)
  }

  ghost predicate AnyCovers(blips: seq<Blip>, x: u32, y: u32) {
    exists i :: 0 <= i < |blips| && blips[i].block.Holds(x, y)
  }

  lemma {:induction false} InsertedShows(sorted: seq<Blip>, b: Blip, x: u32, y: u32)
    requires Ascending(sorted)
    ensures var under := LastCovering(sorted, x, y);
            LastCovering(Inserted(sorted, b), x, y)
            == if b.block.Holds(x, y) && (under.None? || under.value.significance <= b.significance)
               then Some(b) else under
  {
    if sorted == [] || sorted[|sorted| - 1].significance <= b.significance {
      assert (sorted + [b])[..|sorted|] == sorted;
    } else {
      var init, last := sorted[..|sorted| - 1], sorted[|sorted| - 1];
      InsertedShows(init, b, x, y);
      assert (Inserted(init, b) + [last])[..|Inserted(init, b)|] == Inserted(init, b);
    }
  }

  /** The winner, found in one pass: a blip yields to a later one no less significant. */
  function Winner(blips: seq<Blip>, x: u32, y: u32): Option<Blip> {
    if blips == [] then None
    else
      var best, b := Winner(blips[..|blips| - 1], x, y), blips[|blips| - 1];
      if b.block.Holds(x, y) && (best.None? || best.value.significance <= b.significance)
      then Some(b) else best
  }

  lemma {:induction false} WinnerWins(blips: seq<Blip>, x: u32, y: u32) returns (i: int)
    ensures Winner(blips, x, y).None? ==> !AnyCovers(blips, x, y)
    ensures Winner(blips, x, y).Some? ==> Wins(blips, i, x, y) && blips[i] == Winner(blips, x, y).value
  {
    i := -1;
    if blips != [] {
      var n := |blips| - 1;
      var init := blips[..n];
      assert forall j | 0 <= j < n :: blips[j] == init[j];
      i := WinnerWins(init, x, y);
      var best, b := Winner(init, x, y), blips[n];
      if b.block.Holds(x, y) && (best.None? || best.value.significance <= b.significance) {
        i := n;
      }
    }
  }

  lemma {:induction false} SortedPaintingIsWinner(blips: seq<Blip>, x: u32, y: u32)
    ensures LastCovering(StableSorted(blips), x, y) == Winner(blips, x, y)
  {
    if blips != [] {
      var init, b := blips[..|blips| - 1], blips[|blips| - 1];
      SortedPaintingIsWinner(init, x, y);
      StableSortedIsStable(init);
      InsertedShows(StableSorted(init), b, x, y);
    }
  }

  /** Painting in sorted order leaves the winner on top, in every cell. */
  lemma {:induction false} SortedPaintingShowsWinner(blips: seq<Blip>, x: u32, y: u32)
    ensures var top := LastCovering(StableSorted(blips), x, y);
            && (top.None? <==> !AnyCovers(blips, x, y))
            && (top.Some? ==> exists i :: Wins(blips, i, x, y) && blips[i] == top.value)
  {
    SortedPaintingIsWinner(blips, x, y);
    var i := WinnerWins(blips, x, y);
  }

  // ─── The entities behind the blips ────────────────────────────────────────

  /** Whether an entity is seen on a cell. */
  predicate Marks(e: Entity, x: u32, y: u32) {
    e.seen && e.block.Some? && e.block.value.Holds(x, y)
  }

  /** Whether an entity matters as much as another: the selected over my own, my own
      over the team's, the team's over strangers'. */
  predicate Matters(e: Entity, other: Entity) {
    if other.selected then e.selected
    else if other.own then e.selected || e.own
    else other.team ==> e.selected || e.own || e.team
  }

  /** Whether a cell shows the `i`-th entity: seen there, none seen there matters
      more, and none that matters as much comes later. */
  ghost predicate ShownAt(entities: seq<Entity>, i: int, x: u32, y: u32) {
    && 0 <= i < |entities| && Marks(entities[i], x, y)
    && forall j | 0 <= j < |entities| && Marks(entities[j], x, y) ::
         Matters(entities[i], entities[j]) && (Matters(entities[j], entities[i]) ==> j <= i)
  }

  /** Whether a tick falls in the `k`-th lit phase after a hit. */
  predicate Lit(hit: nat, k: nat, tick: nat) {
    hit + 20 * k <= tick < hit + 20 * k + 10
  }

  /** Hurt shows for twenty ticks, and then for ten ticks in every twenty, six times over. */
  ghost predicate ShowsHurt(lastHit: Option<nat>, tick: nat) {
    lastHit.Some? && (tick < lastHit.value + 20 || exists k: nat :: 1 <= k <= 6 && Lit(lastHit.value, k, tick))
  }

  /** The color an entity shows in: white while selected, red where my own is hurt,
      and otherwise its owner's. */
  ghost predicate ShowsIn(e: Entity, tick: nat, color: Color) {
    && (e.selected ==> color == Rgba(255, 255, 255, 255))
    && (!e.selected && e.own && ShowsHurt(e.lastHit, tick) ==> color == Rgba(255, 60, 50, 255))
    && (!e.selected && !(e.own && ShowsHurt(e.lastHit, tick)) ==> color == e.ownerColor)
  }

  lemma HurtBlinks(lastHit: Option<nat>, tick: nat)
    ensures HurtRecently(lastHit, tick) <==> ShowsHurt(lastHit, tick)
  {
    if lastHit.Some? && tick >= lastHit.value + 20 {
      var since := tick - lastHit.value;
      var k := since / 20;
      if HurtRecently(lastHit, tick) {
        assert Lit(lastHit.value, k, tick);
      }
      if ShowsHurt(lastHit, tick) {
        var m: nat :| 1 <= m <= 6 && Lit(lastHit.value, m, tick);
        assert since / HURT_PHASE_TICKS == 2 * m;
      }
    }
  }

  lemma BlipShowsIn(e: Entity, tick: nat, color: Color)
    ensures ShowsIn(e, tick, color) <==> color == BlipColor(e, tick)
  {
    hide HurtRecently, ShowsHurt;
    HurtBlinks(e.lastHit, tick);
  }

  /** The blips are those of the entities seen somewhere, in order. */
  ghost predicate Sourced(entities: seq<Entity>, tick: nat, blips: seq<Blip>, source: seq<nat>) {
    && |source| == |blips|
    && (forall k | 0 <= k < |source| ::
          && source[k] < |entities| && entities[source[k]].seen && entities[source[k]].block.Some?
          && var e := entities[source[k]];
          blips[k] == Blip(Significance(e), e.block.value, BlipColor(e, tick)))
    && (forall k, l | 0 <= k < l < |source| :: source[k] < source[l])
    && (forall i: nat | i < |entities| && entities[i].seen && entities[i].block.Some? :: i in source)
  }

  lemma {:induction false} BlipsSourced(entities: seq<Entity>, tick: nat) returns (source: seq<nat>)
    ensures Sourced(entities, tick, Blips(entities, tick), source)
  {
    source := [];
    if entities != [] {
      hide BlipColor, Significance;
      var n := |entities| - 1;
      source := BlipsSourced(entities[..n], tick);
      if entities[n].seen && entities[n].block.Some? {
        source := source + [n];
      }
    }
  }

  /** A blip wins a cell exactly when its entity is the one the cell should show. */
  lemma WinsAreShown(entities: seq<Entity>, tick: nat, blips: seq<Blip>, source: seq<nat>, k: int, x: u32, y: u32)
    requires Sourced(entities, tick, blips, source) && Wins(blips, k, x, y)
    ensures ShownAt(entities, source[k], x, y) && ShowsIn(entities[source[k]], tick, blips[k].color)
  {
    hide BlipColor, ShowsIn;
    BlipShowsIn(entities[source[k]], tick, blips[k].color);
    forall j: nat | j < |entities| && Marks(entities[j], x, y)
      ensures Matters(entities[source[k]], entities[j]) && (Matters(entities[j], entities[source[k]]) ==> j <= source[k])
    {
      var l :| 0 <= l < |source| && source[l] == j;
      assert blips[l].block.Holds(x, y);
    }
  }

  /** Painting the sorted blips leaves each cell the entity it should show, in its
      color, and nothing where none is seen. */
  lemma {:induction false} PaintingShowsEntities(entities: seq<Entity>, tick: nat, x: u32, y: u32)
    ensures var top := LastCovering(StableSorted(Blips(entities, tick)), x, y);
            && (top.None? <==> !exists i :: 0 <= i < |entities| && Marks(entities[i], x, y))
            && (top.Some? ==> exists i :: ShownAt(entities, i, x, y) && ShowsIn(entities[i], tick, top.value.color))
  {
    hide ShowsIn, StableSorted, LastCovering, BlipColor, Significance;
    var blips := Blips(entities, tick);
    var source := BlipsSourced(entities, tick);
    SortedPaintingShowsWinner(blips, x, y);
    var top := LastCovering(StableSorted(blips), x, y);
    if top.Some? {
      var k :| Wins(blips, k, x, y) && blips[k] == top.value;
      WinsAreShown(entities, tick, blips, source, k, x, y);
    }
  }

  // ─── The per-cell picture ─────────────────────────────────────────────────

  function Solid(field: Option<Coverage>, color: Color, under: Color, x: u32, y: u32): Color {
    if field.Some? && field.value.Shows(x, y) then color else under
  }

  function Tint(scene: Scene, field: Option<Coverage>, toward: Color, under: Color, x: u32, y: u32): Color {
    if field.Some? && field.value.Shows(x, y) then scene.mix(under, toward) else under
  }

  /** The terrain with the fields laid over it. */
  function Fielded(scene: Scene, base: Color, x: u32, y: u32): Color {
    var ground := Solid(scene.blight, BLIGHT, Solid(scene.creep, CREEP, base, x, y), x, y);
    Tint(scene, scene.veil, VEIL,
         Tint(scene, scene.trueSight, TRUE_SIGHT,
              Tint(scene, scene.power, POWER, ground, x, y), x, y), x, y)
  }

  function Fogged(scene: Scene, base: Color, fielded: Color, x: u32, y: u32): Color {
    if scene.revealed then fielded
    else match scene.perspective(x, y)
         case Unexplored => VOID
         case Explored => scene.dim(base)
         case Visible => fielded
  }

  ghost predicate Remembered(scene: Scene, x: u32, y: u32) {
    !scene.revealed && exists i :: 0 <= i < |scene.ghosts| && scene.ghosts[i].Holds(x, y)
  }

  /** Who wins a cell: outline, blip, remembered building, then fog or ground. */
  ghost predicate IsPicture(scene: Scene, base: Color, x: u32, y: u32, color: Color) {
    if scene.viewport.Some? && OnOutline(scene.viewport.value, Point(x, y)) then color == VIEWPORT
    else if exists i :: 0 <= i < |scene.entities| && Marks(scene.entities[i], x, y)
    then exists i :: ShownAt(scene.entities, i, x, y) && ShowsIn(scene.entities[i], scene.tick, color)
    else if Remembered(scene, x, y) then color == GHOST
    else color == Fogged(scene, base, Fielded(scene, base, x, y), x, y)
  }

  /** A cell has one winner, so the picture is one picture. */
  lemma PictureIsUnique(scene: Scene, base: Color, x: u32, y: u32, c: Color, d: Color)
    requires IsPicture(scene, base, x, y, c) && IsPicture(scene, base, x, y, d)
    ensures c == d
  {
    if ((exists i :: 0 <= i < |scene.entities| && Marks(scene.entities[i], x, y))
        && !(scene.viewport.Some? && OnOutline(scene.viewport.value, Point(x, y)))) {
      var i :| ShownAt(scene.entities, i, x, y) && ShowsIn(scene.entities[i], scene.tick, c);
      var j :| ShownAt(scene.entities, j, x, y) && ShowsIn(scene.entities[j], scene.tick, d);
      assert i == j;
    }
  }

  predicate ShowsAt(field: Option<Coverage>, x: u32, y: u32) {
    field.Some? && x < field.value.width && y < field.value.height && field.value.shown(x, y)
  }

  /** The fields lie one over another: blight hides creep, creep hides the terrain, and
      power, true sight and veil each tint what would show without them and those above. */
  lemma FieldsLieInOrder(scene: Scene, base: Color, x: u32, y: u32)
    ensures var s := scene;
            Fielded(s, base, x, y) == var under := Fielded(s.(veil := None), base, x, y);
                                      if ShowsAt(s.veil, x, y) then s.mix(under, VEIL) else under
    ensures var s := scene.(veil := None);
            Fielded(s, base, x, y) == var under := Fielded(s.(trueSight := None), base, x, y);
                                      if ShowsAt(s.trueSight, x, y) then s.mix(under, TRUE_SIGHT) else under
    ensures var s := scene.(veil := None, trueSight := None);
            Fielded(s, base, x, y) == var under := Fielded(s.(power := None), base, x, y);
                                      if ShowsAt(s.power, x, y) then s.mix(under, POWER) else under
    ensures var s := scene.(veil := None, trueSight := None, power := None);
            && (ShowsAt(s.blight, x, y) ==> Fielded(s, base, x, y) == BLIGHT)
            && (!ShowsAt(s.blight, x, y) && ShowsAt(s.creep, x, y) ==> Fielded(s, base, x, y) == CREEP)
            && (!ShowsAt(s.blight, x, y) && !ShowsAt(s.creep, x, y) ==> Fielded(s, base, x, y) == base)
  {
  }

  /** Where nothing stands over the ground: unexplored ground is void and explored ground
      the dimmed bare terrain, its fields hidden; seen or revealed, the fields show. */
  lemma BareGroundShows(scene: Scene, base: Color, x: u32, y: u32, color: Color)
    requires IsPicture(scene, base, x, y, color)
    requires !(scene.viewport.Some? && OnOutline(scene.viewport.value, Point(x, y)))
    requires forall e | e in scene.entities :: !Marks(e, x, y)
    requires scene.revealed || forall g | g in scene.ghosts :: !g.Holds(x, y)
    ensures !scene.revealed && scene.perspective(x, y) == Unexplored ==> color == VOID
    ensures !scene.revealed && scene.perspective(x, y) == Explored ==> color == scene.dim(base)
    ensures scene.revealed || scene.perspective(x, y) == Visible ==> color == Fielded(scene, base, x, y)
  {
  }

  /** What is not seen shows nowhere: put another unseen entity in its place, and
      every cell keeps its color. */
  lemma {:induction false} UnseenShowsNowhere(scene: Scene, i: nat, other: Entity, base: Color, x: u32, y: u32, color: Color)
    requires i < |scene.entities| && !scene.entities[i].seen && !other.seen
    ensures IsPicture(scene, base, x, y, color) <==>
            IsPicture(scene.(entities := scene.entities[i := other]), base, x, y, color)
  {
    hide Matters, ShowsIn, Fielded, Fogged;
    var changed := scene.(entities := scene.entities[i := other]);
    assert forall j | 0 <= j < |scene.entities| && Marks(scene.entities[j], x, y) :: changed.entities[j] == scene.entities[j];
    assert forall j | 0 <= j < |scene.entities| && Marks(changed.entities[j], x, y) :: changed.entities[j] == scene.entities[j];
    assert forall j :: ShownAt(scene.entities, j, x, y) <==> ShownAt(changed.entities, j, x, y);
    FieldsAlone(scene, changed, base, x, y);
  }

  lemma FieldsAlone(scene: Scene, other: Scene, base: Color, x: u32, y: u32)
    requires other == scene.(entities := other.entities)
    ensures Fielded(scene, base, x, y) == Fielded(other, base, x, y)
    ensures forall c :: Fogged(scene, base, c, x, y) == Fogged(other, base, c, x, y)
  {
  }

  lemma RememberedByAny(scene: Scene, other: Scene, x: u32, y: u32)
    requires Remembered(scene, x, y) && !other.revealed
    requires forall g | g in scene.ghosts :: g in other.ghosts
    ensures Remembered(other, x, y)
  {
    var i :| 0 <= i < |scene.ghosts| && scene.ghosts[i].Holds(x, y);
    assert scene.ghosts[i] in other.ghosts;
    var j :| 0 <= j < |other.ghosts| && other.ghosts[j] == scene.ghosts[i];
  }

  /** The order remembered buildings are visited in, and how often, shows nowhere. */
  lemma {:induction false} GhostOrderIsIdle(scene: Scene, visited: seq<Block>, base: Color, x: u32, y: u32, color: Color)
    requires forall g :: g in scene.ghosts <==> g in visited
    ensures IsPicture(scene, base, x, y, color) <==> IsPicture(scene.(ghosts := visited), base, x, y, color)
  {
    var other := scene.(ghosts := visited);
    if Remembered(scene, x, y) {
      RememberedByAny(scene, other, x, y);
    }
    if Remembered(other, x, y) {
      RememberedByAny(other, scene, x, y);
    }
    assert Fielded(scene, base, x, y) == Fielded(other, base, x, y);
  }

  // ─── Painting ─────────────────────────────────────────────────────────────

  class Minimap {
    const base: Canvas
    const canvas: Canvas
    var composed: Option<nat>
    var viewport: Option<Corners>
    /** The scene the canvas was last composed from. */
    ghost var scene: Option<Scene>

    ghost predicate Valid()
      reads this, base.bytes, canvas.bytes
    {
      && base.Valid() && canvas.Valid() && base.bytes != canvas.bytes
      && base.width == canvas.width && base.height == canvas.height
      && composed == (if scene.None? then None else Some(scene.value.tick))
      && (scene.Some? ==> viewport == scene.value.viewport && Shows(scene.value))
    }

    /** Whether every cell of the canvas is what the scene says it should be. */
    ghost predicate Shows(scene: Scene)
      reads base.bytes, canvas.bytes
      requires base.Valid() && canvas.Valid()
      requires base.width == canvas.width && base.height == canvas.height
    {
      forall x: u32, y: u32 | canvas.Holds(x, y) ::
        IsPicture(scene, base.At(x, y), x, y, canvas.At(x, y))
    }

    constructor (base: Canvas)
      requires base.Valid()
      ensures Valid() && this.base == base && fresh(canvas) && fresh(canvas.bytes) && scene == None
    {
      this.base := base;
      this.canvas := new Canvas(base.width, base.height, VOID);
      this.composed, this.viewport, this.scene := None, None, None;
    }

    /** Paints a field's cells solid, whatever lies under them. */
    static method PaintSolid(canvas: Canvas, field: Option<Coverage>, color: Color)
      requires canvas.Valid()
      modifies canvas.bytes
      ensures forall cx: u32, cy: u32 | canvas.Holds(cx, cy) ::
                canvas.At(cx, cy) == Solid(field, color, old(canvas.At(cx, cy)), cx, cy)
    {
      if field.None? {
        return;
      }
      var cells := field.value;
      for y := 0 to cells.height
        invariant forall cx: u32, cy: u32 | canvas.Holds(cx, cy) ::
            canvas.At(cx, cy) == if cy < y && cells.Shows(cx, cy) then color else old(canvas.At(cx, cy))
      {
        for x := 0 to cells.width
          invariant forall cx: u32, cy: u32 | canvas.Holds(cx, cy) ::
              canvas.At(cx, cy) == if (cy < y || (cy == y && cx < x)) && cells.Shows(cx, cy)
                                   then color else old(canvas.At(cx, cy))
        {
          if cells.shown(x, y) {
            canvas.Put(x, y, color);
          }
        }
      }
    }

    /** Tints a field's cells once each, over whatever lies under them. */
    static method PaintTint(canvas: Canvas, scene: Scene, field: Option<Coverage>, toward: Color)
      requires canvas.Valid()
      modifies canvas.bytes
      ensures forall cx: u32, cy: u32 | canvas.Holds(cx, cy) ::
                canvas.At(cx, cy) == Tint(scene, field, toward, old(canvas.At(cx, cy)), cx, cy)
    {
      if field.None? {
        return;
      }
      var cells := field.value;
      for y := 0 to cells.height
        invariant forall cx: u32, cy: u32 | canvas.Holds(cx, cy) ::
            canvas.At(cx, cy) == if cy < y then Tint(scene, field, toward, old(canvas.At(cx, cy)), cx, cy)
                                 else old(canvas.At(cx, cy))
      {
        for x := 0 to cells.width
          invariant forall cx: u32, cy: u32 | canvas.Holds(cx, cy) ::
              canvas.At(cx, cy) == if cy < y || (cy == y && cx < x)
                                   then Tint(scene, field, toward, old(canvas.At(cx, cy)), cx, cy)
                                   else old(canvas.At(cx, cy))
        {
          if cells.shown(x, y) {
            var color := canvas.Get(x, y);
            if color.Some? {
              canvas.Put(x, y, scene.mix(color.value, toward));
            }
          }
        }
      }
    }

    /** Lays the fog over the fields, dimming the bare terrain where explored. */
    static method PaintFog(canvas: Canvas, base: Canvas, scene: Scene)
      requires canvas.Valid() && base.Valid() && base.bytes != canvas.bytes
      requires base.width == canvas.width && base.height == canvas.height
      modifies canvas.bytes
      ensures forall cx: u32, cy: u32 | canvas.Holds(cx, cy) ::
                canvas.At(cx, cy) == Fogged(scene, base.At(cx, cy), old(canvas.At(cx, cy)), cx, cy)
    {
      if scene.revealed {
        return;
      }
      for y := 0 to canvas.height
        invariant forall cx: u32, cy: u32 | canvas.Holds(cx, cy) ::
            canvas.At(cx, cy) == if cy < y then Fogged(scene, base.At(cx, cy), old(canvas.At(cx, cy)), cx, cy)
                                 else old(canvas.At(cx, cy))
      {
        for x := 0 to canvas.width
          invariant forall cx: u32, cy: u32 | canvas.Holds(cx, cy) ::
              canvas.At(cx, cy) == if cy < y || (cy == y && cx < x)
                                   then Fogged(scene, base.At(cx, cy), old(canvas.At(cx, cy)), cx, cy)
                                   else old(canvas.At(cx, cy))
        {
          match scene.perspective(x, y)
          case Unexplored => canvas.Put(x, y, VOID);
          case Explored =>
            var color := base.Get(x, y);
            if color.Some? {
              canvas.Put(x, y, scene.dim(color.value));
            }
          case Visible =>
        }
      }
    }

    static method PaintGhosts(canvas: Canvas, scene: Scene)
      requires canvas.Valid()
      modifies canvas.bytes
      ensures forall cx: u32, cy: u32 | canvas.Holds(cx, cy) ::
                canvas.At(cx, cy) == if Remembered(scene, cx, cy) then GHOST else old(canvas.At(cx, cy))
    {
      if scene.revealed {
        return;
      }
      for n := 0 to |scene.ghosts|
        invariant forall cx: u32, cy: u32 | canvas.Holds(cx, cy) ::
            canvas.At(cx, cy) == if exists i :: 0 <= i < n && scene.ghosts[i].Holds(cx, cy)
                                 then GHOST else old(canvas.At(cx, cy))
      {
        var remembered := scene.ghosts[n];
        canvas.Fill(remembered.x, remembered.y, remembered.w, remembered.h, GHOST);
      }
    }

    static method PaintBlips(canvas: Canvas, blips: seq<Blip>)
      requires canvas.Valid()
      modifies canvas.bytes
      ensures forall cx: u32, cy: u32 | canvas.Holds(cx, cy) ::
                var top := LastCovering(blips, cx, cy);
                canvas.At(cx, cy) == if top.Some? then top.value.color else old(canvas.At(cx, cy))
    {
      assert blips[..|blips|] == blips;
      for n := 0 to |blips|
        invariant forall cx: u32, cy: u32 | canvas.Holds(cx, cy) ::
            var top := LastCovering(blips[..n], cx, cy);
            canvas.At(cx, cy) == if top.Some? then top.value.color else old(canvas.At(cx, cy))
      {
        assert blips[..n + 1][..n] == blips[..n];
        var block := blips[n].block;
        canvas.Fill(block.x, block.y, block.w, block.h, blips[n].color);
      }
    }

    /** Paints the blips of what is seen, the most significant last. */
    static method PaintEntities(canvas: Canvas, scene: Scene)
      requires canvas.Valid()
      modifies canvas.bytes
      ensures forall cx: u32, cy: u32 | canvas.Holds(cx, cy) ::
                if exists i :: 0 <= i < |scene.entities| && Marks(scene.entities[i], cx, cy)
                then exists i :: ShownAt(scene.entities, i, cx, cy) && ShowsIn(scene.entities[i], scene.tick, canvas.At(cx, cy))
                else canvas.At(cx, cy) == old(canvas.At(cx, cy))
    {
      hide ShownAt, ShowsIn, Marks, Blips, StableSorted, LastCovering;
      PaintBlips(canvas, StableSorted(Blips(scene.entities, scene.tick)));
      forall x: u32, y: u32 | canvas.Holds(x, y) {
        PaintingShowsEntities(scene.entities, scene.tick, x, y);
      }
    }

    /** Paints the seven layers, bottom to top. */
    method Compose(scene: Scene)
      requires base.Valid() && canvas.Valid() && base.bytes != canvas.bytes
      requires base.width == canvas.width && base.height == canvas.height
      modifies canvas.bytes
      ensures Shows(scene)
    {
      hide ShownAt, ShowsIn, Marks;
      canvas.Restore(base);
      PaintSolid(canvas, scene.creep, CREEP);
      PaintSolid(canvas, scene.blight, BLIGHT);
      PaintTint(canvas, scene, scene.power, POWER);
      PaintTint(canvas, scene, scene.trueSight, TRUE_SIGHT);
      PaintTint(canvas, scene, scene.veil, VEIL);
      assert forall x: u32, y: u32 | canvas.Holds(x, y) ::
          canvas.At(x, y) == Fielded(scene, base.At(x, y), x, y);
      PaintFog(canvas, base, scene);
      PaintGhosts(canvas, scene);
      PaintEntities(canvas, scene);
      if scene.viewport.Some? {
        canvas.Outline(scene.viewport.value, VIEWPORT);
      }
    }

    /**
     Recomposes for a new tick, a changed reveal or a moved camera, and leaves
     the picture alone otherwise. The picture shows the scene whenever a scene
     of the same tick and camera, its reveal untouched, is the scene last shown.
     */
    method Refresh(scene: Scene, revealChanged: bool)
      requires Valid()
      modifies this, canvas.bytes
      ensures Valid()
      ensures var last := old(this.scene);
              var skipped := last.Some? && last.value.tick == scene.tick
                             && last.value.viewport == scene.viewport && !revealChanged;
              && this.scene == (if skipped then last else Some(scene))
              && ((skipped ==> last.value == scene) ==> Shows(scene))
    {
      if composed == Some(scene.tick) && !revealChanged && viewport == scene.viewport {
        return;
      }
      composed := Some(scene.tick);
      viewport := scene.viewport;
      Compose(scene);
      this.scene := Some(scene);
    }
  }
}
