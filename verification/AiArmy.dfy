/**
 What the brains do with what they have trained: waves, garrisons and skills.
 All of it is free: no order here touches the budget.
 */
module AiArmy {
  import opened Wrappers
  import opened AiView
  import opened AiChassis

  const ANY: Entity -> bool := (_: Entity) => true

  // ─── Unit by unit ─────────────────────────────────────────────────────────

  /** What one unit may be told, given what those before it were. */
  type Due = (Entity, seq<Command>, seq<Command>) -> bool

  /** Whether `orders` is what each unit is due, one unit after another. */
  ghost predicate InTurn(units: seq<Entity>, due: Due, orders: seq<Command>) {
    if units == [] then orders == []
    else
      exists n :: 0 <= n <= |orders| && due(units[|units| - 1], orders[..n], orders[n..])
                  && InTurn(units[..|units| - 1], due, orders[..n])
  }

  lemma InTurnNone(due: Due)
    ensures InTurn([], due, [])
  {
  }

  lemma InTurnNext(units: seq<Entity>, due: Due, orders: seq<Command>, u: Entity, next: seq<Command>)
    requires InTurn(units, due, orders) && due(u, orders, next)
    ensures InTurn(units + [u], due, orders + next)
  {
    var more, all := units + [u], orders + next;
    assert more[..|more| - 1] == units && all[..|orders|] == orders && all[|orders|..] == next;
  }

  function Flat(parts: seq<seq<Command>>): seq<Command> {
    if parts == [] then [] else Flat(parts[..|parts| - 1]) + parts[|parts| - 1]
  }

  /** Whether every unit's part of the orders is what it is due after the parts before. */
  ghost predicate EachDue(units: seq<Entity>, due: Due, parts: seq<seq<Command>>) {
    |parts| == |units| && forall k | 0 <= k < |units| :: due(units[k], Flat(parts[..k]), parts[k])
  }

  lemma EachDueNext(units: seq<Entity>, due: Due, parts: seq<seq<Command>>, u: Entity, next: seq<Command>)
    requires EachDue(units, due, parts) && due(u, Flat(parts), next)
    ensures EachDue(units + [u], due, parts + [next]) && Flat(parts + [next]) == Flat(parts) + next
  {
    var more := parts + [next];
    assert more[..|parts|] == parts && forall k | 0 <= k <= |parts| :: more[..k] == parts[..k];
  }

  /** Orders given in turn are one part a unit, each what its unit is due after those
      before it, and nothing over. */
  lemma {:induction false} InTurnParts(units: seq<Entity>, due: Due, orders: seq<Command>) returns (parts: seq<seq<Command>>)
    requires InTurn(units, due, orders)
    ensures EachDue(units, due, parts) && orders == Flat(parts)
  {
    parts := [];
    if units != [] {
      hide EachDue;
      var init, last := units[..|units| - 1], units[|units| - 1];
      var n :| 0 <= n <= |orders| && due(last, orders[..n], orders[n..]) && InTurn(init, due, orders[..n]);
      parts := InTurnParts(init, due, orders[..n]);
      EachDueNext(init, due, parts, last, orders[n..]);
      assert units == init + [last] && orders == orders[..n] + orders[n..];
      parts := parts + [orders[n..]];
    }
  }

  lemma MayName(v: View, group: seq<Entity>, e: Entity)
    requires e in group
    ensures Own(v, group) ==> Mine(v, e.id) && (!e.hidden ==> MineInSight(v, e.id))
    ensures Own(v, group) ==> (!e.rising && |e.passengers| < 4 ==> MayBoard(v, e.id)) && (|e.passengers| > 0 ==> MayUnload(v, e.id))
  {
    if Own(v, group) {
      OwnNames(v, group, e);
    }
  }

  lemma SomeIsNearest(unit: Entity, candidates: seq<Entity>, accept: Entity -> bool, i: nat)
    requires i < |candidates| && accept(candidates[i])
    ensures !IsNearest(unit, candidates, accept, None)
  {
  }

  /** Whether a foe stands inside the circle of so many cells round a unit. */
  ghost predicate FoeWithin(v: View, unit: Entity, reach: int) {
    exists e :: e in v.enemies && (e.x - unit.x) * (e.x - unit.x) + (e.y - unit.y) * (e.y - unit.y) <= reach * reach
  }

  lemma WithinIsInCircle(unit: Entity, e: Entity, reach: int)
    ensures WithinCells(unit, e, reach)
            <==> (e.x - unit.x) * (e.x - unit.x) + (e.y - unit.y) * (e.y - unit.y) <= reach * reach
  {
    SameDistance(unit, e);
  }

  lemma SameDistance(a: Entity, b: Entity)
    ensures Distance(a, b) == Distance(b, a)
  {
  }

  /** A foe is within reach exactly when the nearest one is. */
  method FoeNear(v: View, unit: Entity, reach: int) returns (near: bool)
    ensures near <==> FoeWithin(v, unit, reach)
  {
    hide Distance;
    var foe := Nearest(unit, v.enemies, ANY);
    near := foe.Some? && WithinCells(unit, foe.value, reach);
    forall i | 0 <= i < |v.enemies|
      ensures ANY(v.enemies[i]) && Distance(unit, v.enemies[i]) == Distance(v.enemies[i], unit)
    {
      SameDistance(unit, v.enemies[i]);
    }
    forall e {
      WithinIsInCircle(unit, e, reach);
    }
  }

  // ─── Waves ────────────────────────────────────────────────────────────────

  /** Where a unit of the wave heads: the nearest enemy, else across the map from the hall. */
  ghost predicate HeadsFor(v: View, unit: Entity, hall: Option<Entity>, x: int, y: int) {
    if v.enemies != [] then exists e :: IsNearest(unit, v.enemies, ANY, Some(e)) && x == e.x && y == e.y
    else hall.Some? && x == v.width - 1 - hall.value.x && y == v.height - 1 - hall.value.y
  }

  method Goal(v: View, unit: Entity, hall: Option<Entity>) returns (at: Option<(int, int)>)
    ensures at.Some? <==> v.enemies != [] || hall.Some?
    ensures at.Some? ==> HeadsFor(v, unit, hall, at.value.0, at.value.1)
  {
    var target := Nearest(unit, v.enemies, ANY);
    if target.Some? {
      return Some((target.value.x, target.value.y));
    }
    if v.enemies != [] {
      SomeIsNearest(unit, v.enemies, ANY, 0);
    }
    at := if hall.Some? then Some((v.width - 1 - hall.value.x, v.height - 1 - hall.value.y)) else None;
  }

  /** Whether a unit joins a wave: at ease, in sight, and with somewhere to go. */
  predicate Joins(v: View, hall: Option<Entity>, unit: Entity) {
    AtEase(unit) && (v.enemies != [] || hall.Some?)
  }

  /** A unit that joins is selected and sent where it heads, fighting its way or walking. */
  ghost predicate MarchDue(v: View, hall: Option<Entity>, fighting: bool, unit: Entity, orders: seq<Command>) {
    if Joins(v, hall, unit)
    then exists x, y :: HeadsFor(v, unit, hall, x, y)
                        && orders == [Select(unit.id), if fighting then AttackMove(x, y) else Move(x, y)]
    else orders == []
  }

  ghost function MarchDues(v: View, hall: Option<Entity>, fighting: bool): Due {
    (unit, _, orders) => MarchDue(v, hall, fighting, unit, orders)
  }

  /** One unit heads out, if it joins. */
  method HeadOut(turn: Turn, unit: Entity, hall: Option<Entity>, fighting: bool) returns (joins: bool, ghost orders: seq<Command>)
    modifies turn`commands
    ensures turn.Books() == old(turn.Books()) && turn.commands == old(turn.commands) + orders
    ensures joins == Joins(turn.view, hall, unit) && MarchDue(turn.view, hall, fighting, unit, orders)
    ensures unit in turn.view.mine && Orderly(turn.view, old(turn.commands)) ==> Orderly(turn.view, turn.commands)
  {
    hide Tally, Amount, MorphAmount, HeadsFor, Orderly;
    joins, orders := false, [];
    if unit.idle && !unit.hidden {
      var at := Goal(turn.view, unit, hall);
      if at.Some? {
        var order := if fighting then AttackMove(at.value.0, at.value.1) else Move(at.value.0, at.value.1);
        turn.OrderFree(Select(unit.id));
        turn.OrderFree(order);
        joins, orders := true, [Select(unit.id), order];
      }
    }
  }

  method March(turn: Turn, units: seq<Entity>, hall: Option<Entity>, fighting: bool)
    returns (marched: bool, ghost orders: seq<Command>)
    modifies turn`commands
    ensures turn.Books() == old(turn.Books()) && turn.commands == old(turn.commands) + orders
    ensures InTurn(units, MarchDues(turn.view, hall, fighting), orders)
    ensures marched <==> exists u :: u in units && Joins(turn.view, hall, u)
    ensures Own(turn.view, units) && Orderly(turn.view, old(turn.commands)) ==> Orderly(turn.view, turn.commands)
  {
    hide Tally, InTurn, Orderly, Joins, MarchDue, Turn.Books;
    marched, orders := false, [];
    ghost var due := MarchDues(turn.view, hall, fighting);
    InTurnNone(due);
    assert units[..|units|] == units && units[..0] == [];
    for i := 0 to |units|
      invariant turn.Books() == old(turn.Books()) && turn.commands == old(turn.commands) + orders
      invariant InTurn(units[..i], due, orders)
      invariant marched <==> exists u :: u in units[..i] && Joins(turn.view, hall, u)
      invariant Own(turn.view, units) && Orderly(turn.view, old(turn.commands)) ==> Orderly(turn.view, turn.commands)
    {
      assert units[..i + 1] == units[..i] + [units[i]];
      var joins, next := HeadOut(turn, units[i], hall, fighting);
      InTurnNext(units[..i], due, orders, units[i], next);
      orders := orders + next;
      marched := marched || joins;
    }
  }

  /** What a wave is told: nothing below its size; then its fighters, then its walkers. */
  ghost predicate IsWave(v: View, fighters: seq<Entity>, walkers: seq<Entity>, hall: Option<Entity>, orders: seq<Command>) {
    if |fighters| < 8 then orders == []
    else
      exists n :: 0 <= n <= |orders| && InTurn(fighters, MarchDues(v, hall, true), orders[..n])
                  && InTurn(walkers, MarchDues(v, hall, false), orders[n..])
  }

  /** Sends a wave of enough fighters out and its walkers after them. */
  method AttackWave(turn: Turn, fighters: seq<Entity>, walkers: seq<Entity>, hall: Option<Entity>) returns (marched: bool)
    modifies turn`commands
    ensures turn.Books() == old(turn.Books())
    ensures old(turn.commands) <= turn.commands
    ensures IsWave(turn.view, fighters, walkers, hall, turn.commands[|old(turn.commands)|..])
    ensures marched <==> |fighters| >= ARMY_ATTACK_AT
                         && exists u :: u in fighters + walkers && Joins(turn.view, hall, u)
    ensures Own(turn.view, fighters) && Own(turn.view, walkers) && Orderly(turn.view, old(turn.commands)) ==> Orderly(turn.view, turn.commands)
  {
    hide Tally, Amount, MorphAmount, InTurn, Orderly, Own;
    if |fighters| < ARMY_ATTACK_AT {
      return false;
    }
    var outBound, out := March(turn, fighters, hall, true);
    var inTow, along := March(turn, walkers, hall, false);
    marched := outBound || inTow;
    ghost var orders := turn.commands[|old(turn.commands)|..];
    assert orders == out + along && orders[..|out|] == out && orders[|out|..] == along;
  }

  /** War drums speed a wave out. */
  method BeatDrums(turn: Turn)
    modifies turn`commands
    ensures turn.Books() == old(turn.Books())
    ensures turn.commands == old(turn.commands) + [UseSkill(WarDrums, None, None)]
    ensures Orderly(turn.view, old(turn.commands)) ==> Orderly(turn.view, turn.commands)
  {
    hide Tally, Orderly;
    turn.OrderFree(UseSkill(WarDrums, None, None));
  }

  // ─── Garrisons ────────────────────────────────────────────────────────────

  /** The units at ease in sight, in order. */
  function Resting(units: seq<Entity>): seq<Entity> {
    if units == [] then []
    else
      var rest, u := Resting(units[..|units| - 1]), units[|units| - 1];
      if AtEase(u) then rest + [u] else rest
  }

  /** Each selected and sent aboard. */
  function Boarders(units: seq<Entity>, holder: nat): seq<Command> {
    if units == [] then []
    else Boarders(units[..|units| - 1], holder) + [Select(units[|units| - 1].id), Board(holder)]
  }

  lemma BoardersNext(units: seq<Entity>, u: Entity, holder: nat)
    ensures Boarders(units + [u], holder) == Boarders(units, holder) + [Select(u.id), Board(holder)]
  {
    assert (units + [u])[..|units|] == units;
  }

  lemma RestingNext(units: seq<Entity>, i: nat)
    requires i < |units|
    ensures Resting(units[..i + 1]) == Resting(units[..i]) + (if AtEase(units[i]) then [units[i]] else [])
  {
    assert units[..i + 1][..i] == units[..i];
  }

  lemma {:induction false} RestingPrefix(units: seq<Entity>, i: nat)
    requires i <= |units|
    ensures Resting(units[..i]) <= Resting(units)
    decreases |units| - i
  {
    if i < |units| {
      RestingNext(units, i);
      RestingPrefix(units, i + 1);
    } else {
      assert units[..i] == units;
    }
  }

  /** The archers that man a bunker: the first at ease, until two are aboard,
      once it stands and there are archers to spare. */
  function Manning(bunkers: seq<Entity>, archers: seq<Entity>): seq<Entity> {
    if bunkers == [] || bunkers[0].rising || |archers| <= 2 || |bunkers[0].passengers| >= 2 then []
    else
      var ready, room := Resting(archers), 2 - |bunkers[0].passengers|;
      if |ready| <= room then ready else ready[..room]
  }

  lemma {:induction false} RestingInOrder(units: seq<Entity>) returns (places: seq<nat>)
    ensures PickedAt(units, (u: Entity) => u.idle && !u.hidden, Resting(units), places)
  {
    places := [];
    if units != [] {
      hide PickedAt;
      var n := |units| - 1;
      places := RestingInOrder(units[..n]);
      PickedNext(units[..n], (u: Entity) => u.idle && !u.hidden, Resting(units[..n]), places, units[n]);
      assert units == units[..n] + [units[n]];
      if AtEase(units[n]) {
        places := places + [n];
      }
    }
  }

  /** The archers that board are the first at ease, and as many as bring a standing bunker
      to two aboard; none while there are two archers or fewer, or two aboard already. */
  lemma {:induction false} ManningExactly(bunkers: seq<Entity>, archers: seq<Entity>)
    requires bunkers != []
    ensures Manning(bunkers, archers) <= Resting(archers)
    ensures var (aboard, boarding) := (|bunkers[0].passengers|, |Manning(bunkers, archers)|);
            if bunkers[0].rising || |archers| < 3 || aboard >= 2 then boarding == 0
            else aboard + boarding <= 2 && (aboard + boarding == 2 || boarding == |Resting(archers)|)
  {
  }

  method ManBunker(turn: Turn, bunkers: seq<Entity>, archers: seq<Entity>)
    modifies turn`commands
    ensures turn.Books() == old(turn.Books())
    ensures turn.commands == old(turn.commands)
              + if bunkers == [] then [] else Boarders(Manning(bunkers, archers), bunkers[0].id)
    ensures Own(turn.view, bunkers) && Own(turn.view, archers) && Orderly(turn.view, old(turn.commands)) ==> Orderly(turn.view, turn.commands)
  {
    hide Tally, Amount, MorphAmount, Boarders, Resting, Orderly, Own, Mine, MineInSight, MayBoard, MayUnload;
    if bunkers == [] {
      return;
    }
    var bunker := bunkers[0];
    NoBoarders(bunker.id);
    if bunker.rising || |archers| <= 2 {
      return;
    }
    var manned := |bunker.passengers|;
    var i := 0;
    NoneResting();
    ghost var aboard: seq<Entity> := [];
    assert archers[..0] == [];
    while i < |archers| && manned < 2
      invariant 0 <= i <= |archers| && turn.Books() == old(turn.Books())
      invariant aboard == Resting(archers[..i]) && manned == |bunker.passengers| + |aboard|
      invariant manned <= 2 || aboard == []
      invariant turn.commands == old(turn.commands) + Boarders(aboard, bunker.id)
      invariant Own(turn.view, bunkers) && Own(turn.view, archers) && Orderly(turn.view, old(turn.commands)) ==> Orderly(turn.view, turn.commands)
    {
      RestingNext(archers, i);
      var archer := archers[i];
      if archer.idle && !archer.hidden {
        BoardersNext(aboard, archer, bunker.id);
        MayName(turn.view, archers, archer);
        MayName(turn.view, bunkers, bunker);
        turn.OrderFree(Select(archer.id));
        turn.OrderFree(Board(bunker.id));
        aboard := aboard + [archer];
        manned := manned + 1;
      }
      i := i + 1;
    }
    RestingPrefix(archers, i);
    assert i == |archers| ==> archers[..i] == archers;
    assert aboard == Manning(bunkers, archers);
  }

  lemma NoBoarders(holder: nat)
    ensures Boarders([], holder) == []
  {
  }

  lemma NoneResting()
    ensures Resting([]) == []
  {
  }

  /** Whether a farm has room for one more. */
  predicate HasRoom(farm: Entity) {
    !farm.rising && |farm.passengers| < 4
  }

  /** A worker in sight of a close raider hides in the nearest farm with room. */
  ghost predicate ShelterDue(v: View, farms: seq<Entity>, worker: Entity, orders: seq<Command>) {
    if !worker.hidden && FoeWithin(v, worker, 6) && exists f :: f in farms && !f.rising && |f.passengers| < 4
    then exists f :: IsNearest(worker, farms, HasRoom, Some(f)) && orders == [Select(worker.id), Board(f.id)]
    else orders == []
  }

  ghost function ShelterDues(v: View, farms: seq<Entity>): Due {
    (worker, _, orders) => ShelterDue(v, farms, worker, orders)
  }

  method HideWorkers(turn: Turn, workers: seq<Entity>, farms: seq<Entity>) returns (ghost orders: seq<Command>)
    modifies turn`commands
    ensures turn.Books() == old(turn.Books()) && turn.commands == old(turn.commands) + orders
    ensures InTurn(workers, ShelterDues(turn.view, farms), orders)
    ensures Own(turn.view, workers) && Own(turn.view, farms) && Orderly(turn.view, old(turn.commands)) ==> Orderly(turn.view, turn.commands)
  {
    hide Tally, Amount, MorphAmount, Distance, InTurn, Orderly, Own, Mine, MineInSight, MayBoard, MayUnload, FoeWithin;
    orders := [];
    ghost var due := ShelterDues(turn.view, farms);
    InTurnNone(due);
    assert workers[..|workers|] == workers && workers[..0] == [];
    for i := 0 to |workers|
      invariant turn.Books() == old(turn.Books()) && turn.commands == old(turn.commands) + orders
      invariant InTurn(workers[..i], due, orders)
      invariant Own(turn.view, workers) && Own(turn.view, farms) && Orderly(turn.view, old(turn.commands)) ==> Orderly(turn.view, turn.commands)
    {
      var worker := workers[i];
      ghost var next: seq<Command> := [];
      if !worker.hidden {
        var threat := FoeNear(turn.view, worker, 6);
        if threat {
          var shelter := Nearest(worker, farms, HasRoom);
          if shelter.Some? {
            MayName(turn.view, workers, worker);
            NearestAmong(worker, farms, HasRoom, shelter.value);
            MayName(turn.view, farms, shelter.value);
            turn.OrderFree(Select(worker.id));
            turn.OrderFree(Board(shelter.value.id));
            next := [Select(worker.id), Board(shelter.value.id)];
          }
        }
      }
      assert workers[..i + 1] == workers[..i] + [worker];
      InTurnNext(workers[..i], due, orders, worker, next);
      orders := orders + next;
    }
  }

  /** An occupied farm no raider is near lets everyone out. */
  ghost predicate ReleaseDue(v: View, farm: Entity, orders: seq<Command>) {
    orders == if |farm.passengers| > 0 && !FoeWithin(v, farm, 10) then [Unload(farm.id)] else []
  }

  ghost function ReleaseDues(v: View): Due {
    (farm, _, orders) => ReleaseDue(v, farm, orders)
  }

  method ReleaseWorkers(turn: Turn, farms: seq<Entity>) returns (ghost orders: seq<Command>)
    modifies turn`commands
    ensures turn.Books() == old(turn.Books()) && turn.commands == old(turn.commands) + orders
    ensures InTurn(farms, ReleaseDues(turn.view), orders)
    ensures Own(turn.view, farms) && Orderly(turn.view, old(turn.commands)) ==> Orderly(turn.view, turn.commands)
  {
    hide Tally, Amount, MorphAmount, Distance, InTurn, Orderly, Own, Mine, MineInSight, MayBoard, MayUnload, FoeWithin;
    orders := [];
    ghost var due := ReleaseDues(turn.view);
    InTurnNone(due);
    assert farms[..|farms|] == farms && farms[..0] == [];
    for i := 0 to |farms|
      invariant turn.Books() == old(turn.Books()) && turn.commands == old(turn.commands) + orders
      invariant InTurn(farms[..i], due, orders)
      invariant Own(turn.view, farms) && Orderly(turn.view, old(turn.commands)) ==> Orderly(turn.view, turn.commands)
    {
      var farm := farms[i];
      ghost var next: seq<Command> := [];
      if |farm.passengers| > 0 {
        var threat := FoeNear(turn.view, farm, 10);
        if !threat {
          MayName(turn.view, farms, farm);
          turn.OrderFree(Unload(farm.id));
          next := [Unload(farm.id)];
        }
      }
      assert farms[..i + 1] == farms[..i] + [farm];
      InTurnNext(farms[..i], due, orders, farm, next);
      orders := orders + next;
    }
  }

  // ─── Skills ───────────────────────────────────────────────────────────────

  /** Each unit that `may` casts a skill with a foe within reach. */
  ghost predicate CastDue(v: View, may: Entity -> bool, skill: SkillName, reach: int, unit: Entity, orders: seq<Command>) {
    orders == if may(unit) && FoeWithin(v, unit, reach) then [UseSkill(skill, Some(unit.id), None)] else []
  }

  ghost function CastDues(v: View, may: Entity -> bool, skill: SkillName, reach: int): Due {
    (unit, _, orders) => CastDue(v, may, skill, reach, unit, orders)
  }

  method CastNearFoe(turn: Turn, units: seq<Entity>, may: Entity -> bool, skill: SkillName, reach: int)
    returns (ghost orders: seq<Command>)
    modifies turn`commands
    ensures turn.Books() == old(turn.Books()) && turn.commands == old(turn.commands) + orders
    ensures InTurn(units, CastDues(turn.view, may, skill, reach), orders)
    ensures Own(turn.view, units) && Orderly(turn.view, old(turn.commands)) ==> Orderly(turn.view, turn.commands)
  {
    hide Tally, Amount, MorphAmount, Distance, InTurn, Orderly, Own, Mine, MineInSight, MayBoard, MayUnload, FoeWithin;
    orders := [];
    ghost var due := CastDues(turn.view, may, skill, reach);
    InTurnNone(due);
    assert units[..|units|] == units && units[..0] == [];
    for i := 0 to |units|
      invariant turn.Books() == old(turn.Books()) && turn.commands == old(turn.commands) + orders
      invariant InTurn(units[..i], due, orders)
      invariant Own(turn.view, units) && Orderly(turn.view, old(turn.commands)) ==> Orderly(turn.view, turn.commands)
    {
      var unit := units[i];
      ghost var next: seq<Command> := [];
      if may(unit) {
        var threat := FoeNear(turn.view, unit, reach);
        if threat {
          MayName(turn.view, units, unit);
          turn.OrderFree(UseSkill(skill, Some(unit.id), None));
          next := [UseSkill(skill, Some(unit.id), None)];
        }
      }
      assert units[..i + 1] == units[..i] + [unit];
      InTurnNext(units[..i], due, orders, unit, next);
      orders := orders + next;
    }
  }

  /** Whether an ally other than `s` has lost half its health. */
  predicate Battered(c: Content, s: Entity, e: Entity) {
    e.id != s.id && e.health.Some? && c.maxHealth(e.typeName).Some?
    && e.health.value * 2 < c.maxHealth(e.typeName).value
  }

  /** Whether less than half is left of a health that has a full measure. */
  predicate HalfGone(health: Option<nat>, full: Option<nat>) {
    health.Some? && full.Some? && full.value - health.value > health.value
  }

  /** An ally is battered exactly when it has lost more of its health than is left of it. */
  lemma BatteredIsHalfGone(c: Content, s: Entity, e: Entity)
    ensures Battered(c, s, e) <==> e.id != s.id && HalfGone(e.health, c.maxHealth(e.typeName))
  {
  }

  /** A shaman with the energy mends the nearest battered ally, if there is one. */
  ghost predicate MendDue(c: Content, v: View, s: Entity, orders: seq<Command>) {
    var battered := (e: Entity) => Battered(c, s, e);
    if OrZero(s.energy) >= 20 && exists e :: e in v.mine && Battered(c, s, e)
    then exists e :: IsNearest(s, v.mine, battered, Some(e)) && orders == [UseSkill(SecondWind, Some(s.id), Some(e.id))]
    else orders == []
  }

  ghost function MendDues(c: Content, v: View): Due {
    (s, _, orders) => MendDue(c, v, s, orders)
  }

  method Mend(turn: Turn, shamans: seq<Entity>) returns (ghost orders: seq<Command>)
    modifies turn`commands
    ensures turn.Books() == old(turn.Books()) && turn.commands == old(turn.commands) + orders
    ensures InTurn(shamans, MendDues(turn.content, turn.view), orders)
    ensures Own(turn.view, shamans) && Orderly(turn.view, old(turn.commands)) ==> Orderly(turn.view, turn.commands)
  {
    hide Tally, Amount, MorphAmount, Distance, InTurn, Orderly, Own, Mine, MineInSight, MayBoard, MayUnload, Battered;
    orders := [];
    ghost var due := MendDues(turn.content, turn.view);
    InTurnNone(due);
    assert shamans[..|shamans|] == shamans && shamans[..0] == [];
    for i := 0 to |shamans|
      invariant turn.Books() == old(turn.Books()) && turn.commands == old(turn.commands) + orders
      invariant InTurn(shamans[..i], due, orders)
      invariant Own(turn.view, shamans) && Orderly(turn.view, old(turn.commands)) ==> Orderly(turn.view, turn.commands)
    {
      var s := shamans[i];
      ghost var next: seq<Command> := [];
      if OrZero(s.energy) >= 20 {
        var patient := Nearest(s, turn.view.mine, (e: Entity) => Battered(turn.content, s, e));
        if patient.Some? {
          MayName(turn.view, shamans, s);
          turn.OrderFree(UseSkill(SecondWind, Some(s.id), Some(patient.value.id)));
          next := [UseSkill(SecondWind, Some(s.id), Some(patient.value.id))];
        }
      }
      assert shamans[..i + 1] == shamans[..i] + [s];
      InTurnNext(shamans[..i], due, orders, s, next);
      orders := orders + next;
    }
  }

  // ─── Whom second wind mends ───────────────────────────────────────────────

  /** Whether one battered ally keeps a smaller share of its health than another. */
  predicate WorseHurt(c: Content, a: Entity, b: Entity)
    requires a.health.Some? && b.health.Some? && c.maxHealth(a.typeName).Some? && c.maxHealth(b.typeName).Some?
  {
    a.health.value * c.maxHealth(b.typeName).value < b.health.value * c.maxHealth(a.typeName).value
  }

  /** Whether no battered ally is worse hurt. */
  ghost predicate MostBattered(c: Content, v: View, s: Entity, e: Entity) {
    Battered(c, s, e) && forall o | o in v.mine && Battered(c, s, o) :: !WorseHurt(c, o, e)
  }

  /** Whether a shaman comes to one entity of mine before another: it is nearer, or as
      near and earlier in the view. */
  predicate Before(v: View, s: Entity, i: int, j: int)
    requires 0 <= i < |v.mine| && 0 <= j < |v.mine|
  {
    var a, b := Distance(s, v.mine[i]), Distance(s, v.mine[j]);
    a < b || (a == b && i < j)
  }

  /** The ally a shaman mends is the most battered exactly when no battered ally it
      would come to later is worse hurt. */
  lemma {:induction false} MendsWorstExactly(c: Content, v: View, s: Entity, orders: seq<Command>) returns (k: nat)
    requires MendDue(c, v, s, orders) && OrZero(s.energy) >= 20 && orders != []
    ensures k < |v.mine| && Battered(c, s, v.mine[k]) && orders == [UseSkill(SecondWind, Some(s.id), Some(v.mine[k].id))]
    ensures MostBattered(c, v, s, v.mine[k])
            <==> forall j | 0 <= j < |v.mine| && Battered(c, s, v.mine[j]) && Before(v, s, k, j) ::
                   !WorseHurt(c, v.mine[j], v.mine[k])
  {
    hide Distance, Battered, WorseHurt;
    var battered := (o: Entity) => Battered(c, s, o);
    var near :| IsNearest(s, v.mine, battered, Some(near)) && orders == [UseSkill(SecondWind, Some(s.id), Some(near.id))];
    var i :| 0 <= i < |v.mine| && v.mine[i] == near && Battered(c, s, near)
             && forall j | 0 <= j < |v.mine| && battered(v.mine[j]) ::
                  Distance(s, near) < Distance(s, v.mine[j]) || (Distance(s, near) == Distance(s, v.mine[j]) && i <= j);
    k := i;
    forall j | 0 <= j < |v.mine| && Battered(c, s, v.mine[j])
      ensures j == k || Before(v, s, k, j)
    {
      assert battered(v.mine[j]);
    }
    NotWorseThanItself(c, v.mine[k], Battered(c, s, v.mine[k]), s);
  }

  lemma NotWorseThanItself(c: Content, e: Entity, battered: bool, s: Entity)
    requires battered == Battered(c, s, e)
    ensures battered ==> !WorseHurt(c, e, e)
  {
  }

  /** So it is whenever a single ally is battered. */
  lemma LoneBatteredIsMended(c: Content, v: View, s: Entity, e: Entity)
    requires e in v.mine && Battered(c, s, e) && forall o | o in v.mine && Battered(c, s, o) :: o == e
    ensures MostBattered(c, v, s, e)
  {
  }

  /** A shaman at the origin and two grunts in its sight, one two cells off at two
      fifths of its health, one four cells off at a tenth. */
  function Ward(id: nat, t: TypeName, x: int, health: nat): Entity {
    Entity(id, t, x, 0, false, true, false, false, [], [], false, None, Some(20), Some(health))
  }

  function Camp(): View {
    View(0, None, None, 0, 0, 96, 96, [Ward(1, Shaman, 0, 100), Ward(2, Grunt, 2, 40), Ward(3, Grunt, 4, 10)], [], [], [], [], [])
  }

  function Hardy(): Content {
    Content((_: TypeName) => [], (_: TypeName) => [], (_: TypeName) => Size(1, 1), (_: TypeName) => Some(100),
            (_: ResearchName) => 0, (_: ResearchName) => 0)
  }

  lemma {:induction false} MendsTheNearer(orders: seq<Command>)
    requires MendDue(Hardy(), Camp(), Ward(1, Shaman, 0, 100), orders)
    ensures orders == [UseSkill(SecondWind, Some(1), Some(2))]
    ensures !MostBattered(Hardy(), Camp(), Ward(1, Shaman, 0, 100), Ward(2, Grunt, 2, 40))
  {
    var c, v, s := Hardy(), Camp(), Ward(1, Shaman, 0, 100);
    var battered := (o: Entity) => Battered(c, s, o);
    assert v.mine[1] in v.mine && Battered(c, s, v.mine[1]);
    assert v.mine[2] in v.mine && Battered(c, s, v.mine[2]) && WorseHurt(c, v.mine[2], v.mine[1]);
    var near :| IsNearest(s, v.mine, battered, Some(near)) && orders == [UseSkill(SecondWind, Some(s.id), Some(near.id))];
    assert Distance(s, v.mine[1]) == 4 && Distance(s, v.mine[2]) == 16 && !Battered(c, s, v.mine[0]);
    assert near == v.mine[1];
  }

  lemma CampShamans()
    ensures OfType(Camp().mine, Shaman) == [Ward(1, Shaman, 0, 100)]
  {
    var m := Camp().mine;
    assert m[..2] == [m[0], m[1]] && [m[0], m[1]][..1] == [m[0]] && [m[0]][..0] == [];
    assert OfType([m[0]], Shaman) == [m[0]] by {
      assert OfType([], Shaman) == [];
    }
    assert OfType([m[0], m[1]], Shaman) == [m[0]];
  }

  lemma InTurnOne(u: Entity, due: Due, orders: seq<Command>)
    requires InTurn([u], due, orders)
    ensures due(u, [], orders)
  {
    var n :| 0 <= n <= |orders| && due(u, orders[..n], orders[n..]) && InTurn([u][..0], due, orders[..n]);
    assert [u][..0] == [] && orders[..n] == [] && orders[n..] == orders;
  }

  /** There the shamans of a think mend the nearer, and the other is worse hurt. */
  method MendsNotTheWorst() returns (turn: Turn)
    ensures fresh(turn) && turn.view == Camp() && turn.commands == [UseSkill(SecondWind, Some(1), Some(2))]
    ensures !MostBattered(Hardy(), Camp(), Ward(1, Shaman, 0, 100), Ward(2, Grunt, 2, 40))
  {
    hide InTurn, IsNearest, Camp, Hardy, Ward, MostBattered, Turn.Books, Turn.Left, Spent, Orderly, OfType;
    turn := new Turn(Hardy(), Camp());
    var groups := Muster(turn.view);
    CampShamans();
    ghost var orders := Mend(turn, Group(groups, Shaman));
    InTurnOne(Ward(1, Shaman, 0, 100), MendDues(Hardy(), Camp()), orders);
    MendsTheNearer(orders);
  }

  /** The bodies skills were cast on. */
  ghost function Claimed(orders: seq<Command>): set<nat> {
    if orders == [] then {}
    else
      var last := orders[|orders| - 1];
      Claimed(orders[..|orders| - 1]) + if last.UseSkill? && last.on.Some? then {last.on.value} else {}
  }

  /** An idle necromancer with the energy raises the nearest body no one before it
      was sent for, if there is one. */
  ghost predicate RaiseDue(v: View, n: Entity, before: seq<Command>, orders: seq<Command>) {
    var taken := Claimed(before);
    if OrZero(n.energy) >= 40 && n.idle && exists r :: r in v.remains && r.id !in taken
    then exists body :: IsNearest(n, v.remains, (r: Entity) => r.id !in taken, Some(body))
                        && orders == [UseSkill(RaiseDead, Some(n.id), Some(body.id))]
    else orders == []
  }

  ghost function RaiseDues(v: View): Due {
    (n, before, orders) => RaiseDue(v, n, before, orders)
  }

  /** An account with a set of bodies raised besides. */
  ghost function Raising(a: Account, bodies: set<nat>): Account {
    a.(bill := a.bill.(raised := a.bill.raised + multiset(bodies)))
  }

  lemma RaisingNone(a: Account)
    ensures Raising(a, {}) == a
  {
  }

  lemma RaisingNext(c: Content, a: Account, bodies: set<nat>, caster: nat, body: nat)
    requires body !in bodies
    ensures var before, order := Raising(a, bodies), UseSkill(RaiseDead, Some(caster), Some(body));
            before.(bill := Plus(before.bill, Entry(c, order))) == Raising(a, bodies + {body})
  {
    assert multiset(bodies + {body}) == multiset(bodies) + multiset{body};
  }

  method Raise(turn: Turn, necromancers: seq<Entity>) returns (ghost orders: seq<Command>)
    modifies turn`commands
    ensures turn.commands == old(turn.commands) + orders
    ensures turn.Books() == Raising(old(turn.Books()), Claimed(orders))
    ensures InTurn(necromancers, RaiseDues(turn.view), orders)
    ensures |Claimed(orders)| == |orders|
    ensures Own(turn.view, necromancers) && Orderly(turn.view, old(turn.commands)) ==> Orderly(turn.view, turn.commands)
  {
    hide Tally, Amount, MorphAmount, Distance, InTurn, Claimed, Orderly, Own, Mine, MineInSight, MayBoard, MayUnload, Turn.Books, Raising;
    RaisingNone(turn.Books());
    var claimed: set<nat> := {};
    orders := [];
    ghost var due := RaiseDues(turn.view);
    InTurnNone(due);
    NoneClaimed();
    assert necromancers[..|necromancers|] == necromancers && necromancers[..0] == [];
    for i := 0 to |necromancers|
      invariant turn.commands == old(turn.commands) + orders
      invariant turn.Books() == Raising(old(turn.Books()), claimed)
      invariant Own(turn.view, necromancers) && Orderly(turn.view, old(turn.commands)) ==> Orderly(turn.view, turn.commands)
      invariant InTurn(necromancers[..i], due, orders)
      invariant claimed == Claimed(orders) && |claimed| == |orders|
    {
      var n := necromancers[i];
      ghost var next: seq<Command> := [];
      if OrZero(n.energy) >= 40 && n.idle {
        var taken := claimed;
        var body := Nearest(n, turn.view.remains, (r: Entity) => r.id !in taken);
        if body.Some? {
          AcceptedIsFree(n, turn.view.remains, taken, body.value);
          MayName(turn.view, necromancers, n);
          RaisingNext(turn.content, old(turn.Books()), claimed, n.id, body.value.id);
          claimed := claimed + {body.value.id};
          turn.Order(UseSkill(RaiseDead, Some(n.id), Some(body.value.id)));
          next := [UseSkill(RaiseDead, Some(n.id), Some(body.value.id))];
          ClaimedNext(orders, next[0]);
        }
      }
      assert necromancers[..i + 1] == necromancers[..i] + [n];
      assert orders + [] == orders;
      InTurnNext(necromancers[..i], due, orders, n, next);
      orders := orders + next;
    }
  }

  lemma NoneClaimed()
    ensures Claimed([]) == {}
  {
  }

  lemma ClaimedNext(orders: seq<Command>, cast: Command)
    requires cast.UseSkill? && cast.on.Some?
    ensures Claimed(orders + [cast]) == Claimed(orders) + {cast.on.value}
  {
    assert (orders + [cast])[..|orders|] == orders;
  }

  lemma AcceptedIsFree(n: Entity, remains: seq<Entity>, taken: set<nat>, body: Entity)
    requires IsNearest(n, remains, (r: Entity) => r.id !in taken, Some(body))
    ensures body.id !in taken
  {
  }
}
