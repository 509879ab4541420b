/**
 The account one think runs up, the memory a brain carries from think to think,
 and the spending routines all seven brains share.
 */
module AiChassis {
  import opened Wrappers
  import opened AiView
  import SiteRing

  const MAX_WORKERS: nat := 5
  const ARMY_ATTACK_AT: nat := 8
  const MAX_QUEUE: nat := 2
  const RETRY_TICKS: nat := 200

  /** Where round the hall a structure may go, as offsets from the hall. */
  const OFFSETS: seq<(int, int)> := [(0, 4), (4, 4), (-4, 0), (0, -4), (4, -4)]

  const RING: nat := 5

  /** The dock a structure offers: where, and what stands in it. */
  datatype Annex = Annex(dx: int, dy: int, typeName: TypeName)

  // ─── Reading the view ─────────────────────────────────────────────────────

  function OfType(entities: seq<Entity>, t: TypeName): seq<Entity> {
    if entities == [] then []
    else
      var rest, e := OfType(entities[..|entities| - 1], t), entities[|entities| - 1];
      if e.typeName == t then rest + [e] else rest
  }

  lemma {:induction false} OfTypeMembers(entities: seq<Entity>, t: TypeName)
    ensures forall e :: e in OfType(entities, t) <==> e in entities && e.typeName == t
  {
    if entities != [] {
      OfTypeMembers(entities[..|entities| - 1], t);
      assert entities == entities[..|entities| - 1] + [entities[|entities| - 1]];
    }
  }

  /** Whether `picked` are those of a list a test accepts, in the order they stand. */
  ghost predicate PickedAt(entities: seq<Entity>, accept: Entity -> bool, picked: seq<Entity>, places: seq<nat>) {
    && |places| == |picked|
    && (forall k | 0 <= k < |places| :: places[k] < |entities| && picked[k] == entities[places[k]] && accept(picked[k]))
    && (forall k, l | 0 <= k < l < |places| :: places[k] < places[l])
    && (forall i: nat | i < |entities| && accept(entities[i]) :: i in places)
  }

  lemma PickedNext(entities: seq<Entity>, accept: Entity -> bool, picked: seq<Entity>, places: seq<nat>, e: Entity)
    requires PickedAt(entities, accept, picked, places)
    ensures !accept(e) ==> PickedAt(entities + [e], accept, picked, places)
    ensures accept(e) ==> PickedAt(entities + [e], accept, picked + [e], places + [|entities|])
  {
    if accept(e) {
      var more := places + [|entities|];
      assert more[|places|] == |entities|;
      forall i: nat | i < |entities| + 1 && accept((entities + [e])[i])
        ensures i in more
      {
        if i < |entities| {
          assert accept(entities[i]);
        }
      }
    }
  }

  /** A group is all of its type, in the order they stand. */
  lemma {:induction false} OfTypeInOrder(entities: seq<Entity>, t: TypeName) returns (places: seq<nat>)
    ensures PickedAt(entities, (e: Entity) => e.typeName == t, OfType(entities, t), places)
  {
    places := [];
    if entities != [] {
      hide PickedAt;
      var n := |entities| - 1;
      places := OfTypeInOrder(entities[..n], t);
      PickedNext(entities[..n], (e: Entity) => e.typeName == t, OfType(entities[..n], t), places, entities[n]);
      assert entities == entities[..n] + [entities[n]];
      if entities[n].typeName == t {
        places := places + [n];
      }
    }
  }

  function Group(groups: map<TypeName, seq<Entity>>, t: TypeName): seq<Entity> {
    if t in groups then groups[t] else []
  }

  /** Sorts my entities into groups by type. */
  method Muster(view: View) returns (groups: map<TypeName, seq<Entity>>)
    ensures forall t :: Group(groups, t) == OfType(view.mine, t)
  {
    groups := map[];
    assert view.mine[..|view.mine|] == view.mine;
    for i := 0 to |view.mine|
      invariant forall t :: Group(groups, t) == OfType(view.mine[..i], t)
    {
      var e := view.mine[i];
      assert view.mine[..i + 1][..i] == view.mine[..i];
      groups := groups[e.typeName := Group(groups, e.typeName) + [e]];
    }
  }

  function Count(queue: seq<TypeName>, t: TypeName): nat {
    if queue == [] then 0 else (if queue[0] == t then 1 else 0) + Count(queue[1..], t)
  }

  function CountQueued(entities: seq<Entity>, t: TypeName): nat {
    if entities == [] then 0 else Count(entities[0].trainQueue, t) + CountQueued(entities[1..], t)
  }

  lemma {:induction false} CountCounts(queue: seq<TypeName>, t: TypeName)
    ensures Count(queue, t) == multiset(queue)[t]
  {
    if queue != [] {
      CountCounts(queue[1..], t);
      assert queue == [queue[0]] + queue[1..];
    }
  }

  /** The units of a type queued are those in each queue, whatever the order. */
  lemma {:induction false} QueuedAddUp(entities: seq<Entity>, more: seq<Entity>, e: Entity, t: TypeName)
    ensures CountQueued(entities + more, t) == CountQueued(entities, t) + CountQueued(more, t)
    ensures CountQueued([e], t) == multiset(e.trainQueue)[t]
  {
    CountCounts(e.trainQueue, t);
    if entities == [] {
      assert entities + more == more;
    } else {
      QueuedAddUp(entities[1..], more, e, t);
      assert (entities + more)[1..] == entities[1..] + more;
    }
  }

  predicate AnyStanding(entities: seq<Entity>) {
    exists i | 0 <= i < |entities| :: !entities[i].rising
  }

  predicate AnyRising(entities: seq<Entity>) {
    exists i | 0 <= i < |entities| :: entities[i].rising
  }

  function First(entities: seq<Entity>): Option<Entity> {
    if entities == [] then None else Some(entities[0])
  }

  function Distance(a: Entity, b: Entity): int {
    (b.x - a.x) * (b.x - a.x) + (b.y - a.y) * (b.y - a.y)
  }

  predicate WithinCells(a: Entity, b: Entity, cells: int) {
    Distance(b, a) <= cells * cells
  }

  /** Whether `best` is the nearest of those a test accepts, and the earliest of equals. */
  ghost predicate IsNearest(from: Entity, candidates: seq<Entity>, accept: Entity -> bool, best: Option<Entity>) {
    match best
    case None => forall j | 0 <= j < |candidates| :: !accept(candidates[j])
    case Some(e) =>
      exists k | 0 <= k < |candidates| ::
        && candidates[k] == e && accept(e)
        && forall j | 0 <= j < |candidates| && accept(candidates[j]) ::
             Distance(from, e) < Distance(from, candidates[j])
             || (Distance(from, e) == Distance(from, candidates[j]) && k <= j)
  }

  method Nearest(from: Entity, candidates: seq<Entity>, accept: Entity -> bool) returns (best: Option<Entity>)
    ensures IsNearest(from, candidates, accept, best)
  {
    best := None;
    var bestDistance := 0;
    ghost var at := 0;
    for i := 0 to |candidates|
      invariant best.None? ==> forall j | 0 <= j < i :: !accept(candidates[j])
      invariant best.Some? ==>
          && 0 <= at < i && candidates[at] == best.value && accept(best.value)
          && bestDistance == Distance(from, best.value)
          && forall j | 0 <= j < i && accept(candidates[j]) ::
               bestDistance < Distance(from, candidates[j])
               || (bestDistance == Distance(from, candidates[j]) && at <= j)
    {
      var e := candidates[i];
      if accept(e) {
        var distance := Distance(from, e);
        if best.None? || distance < bestDistance {
          best, bestDistance, at := Some(e), distance, i;
        }
      }
    }
  }

  lemma NearestAmong(from: Entity, candidates: seq<Entity>, accept: Entity -> bool, e: Entity)
    requires IsNearest(from, candidates, accept, Some(e))
    ensures e in candidates && accept(e)
  {
  }

  /** No id stands twice. */
  ghost predicate DistinctIds(entities: seq<Entity>) {
    forall i, j | 0 <= i < j < |entities| :: entities[i].id != entities[j].id
  }

  predicate HasResource(e: Entity, t: TypeName) {
    e.typeName == t && OrZero(e.resourceAmount) > 0
  }

  predicate StandingSource(e: Entity) {
    !e.rising && OrZero(e.resourceAmount) > 0
  }

  // ─── The account ──────────────────────────────────────────────────────────

  /** What the orders so far come to and what the budget has left. */
  datatype Account = Account(bill: Bill, gold: int, wood: int, supply: int)

  /** Spending, and spending plus what is left to spend, within the stockpile
      and the headroom. What is left may go below nothing by earmarks. */
  ghost predicate Sound(v: View, a: Account) {
    && a.bill.gold <= Stock(v, Gold) && a.bill.gold + a.gold <= Stock(v, Gold)
    && a.bill.wood <= Stock(v, Wood) && a.bill.wood + a.wood <= Stock(v, Wood)
    && (a.bill.supply == 0 || a.bill.supply <= Headroom(v)) && a.bill.supply + a.supply <= Headroom(v)
  }

  /** The account a think opens with. */
  function Opening(v: View): Account {
    Account(NOTHING, Stock(v, Gold), Stock(v, Wood), Headroom(v))
  }

  function Owing(c: Content, owed: Option<TypeName>, kind: Kind): nat {
    if owed.Some? then CostOf(c, owed.value, kind) else 0
  }

  /** Spending with the worker-built structure counted in, plus what is left to
      spend, within the stockpile and `owed`, the price of one not put aside yet. */
  ghost predicate Balanced(c: Content, v: View, a: Account, owed: Option<TypeName>) {
    && a.bill.gold + a.bill.buildGold + a.gold <= Stock(v, Gold) + Owing(c, owed, Gold)
    && a.bill.wood + a.bill.buildWood + a.wood <= Stock(v, Wood) + Owing(c, owed, Wood)
  }

  ghost predicate Stands(c: Content, v: View, a: Account, owed: Option<TypeName>) {
    Sound(v, a) && Balanced(c, v, a, owed)
  }

  /** Whether the stockpile covers all of it, the structure sent for counted in. */
  ghost predicate Covered(v: View, a: Account) {
    && a.bill.gold + a.bill.buildGold <= Stock(v, Gold)
    && a.bill.wood + a.bill.buildWood <= Stock(v, Wood)
  }

  /** What no routine but its own moves: the structures sent for, the bodies raised;
      headroom is only taken, and below nothing no larva grows. */
  ghost predicate Steady(a: Account, b: Account) {
    && b.bill.sites == a.bill.sites && b.bill.buildGold == a.bill.buildGold && b.bill.buildWood == a.bill.buildWood
    && b.bill.raised == a.bill.raised
    && b.supply <= a.supply && (a.supply < 0 ==> b.bill.growths == a.bill.growths)
  }

  /** What every spending routine keeps: no price being owed, whether the stockpile
      covers everything is settled. */
  ghost predicate Keeps(c: Content, v: View, a: Account, b: Account) {
    && (Stands(c, v, a, None) ==> Stands(c, v, b, None) && (Covered(v, b) <==> Covered(v, a)))
    && Steady(a, b)
  }

  /** What buying a research, a change of form or an annex keeps while a
      structure's price is still owed. */
  ghost predicate KeepsOwing(c: Content, v: View, a: Account, b: Account) {
    && (forall owed :: Stands(c, v, a, owed) ==> Stands(c, v, b, owed))
    && Steady(a, b)
  }

  lemma KeepsItself(c: Content, v: View, a: Account)
    ensures Keeps(c, v, a, a) && KeepsOwing(c, v, a, a)
  {
  }

  /**
   What choosing a structure and sending for it does to an account and the
   deadline: `sent` goes out exactly when the deadline has passed and it is
   `ready`, its price within what is left, and `wanted` is owed from then on.
   */
  ghost predicate Sited(c: Content, v: View, a: Account, b: Account, before: Option<nat>, after: Option<nat>,
                        wanted: Option<TypeName>, sent: Option<TypeName>, ready: bool)
  {
    && (Stands(c, v, a, None) ==> Stands(c, v, b, wanted) && (Covered(v, a) ==> Covered(v, b)))
    && b.bill == WithSite(c, a.bill, sent) && b.supply == a.supply
    && (sent.Some? <==> DeadlinePassed(v, before) && ready)
    && (sent.Some? ==> BuildClear(v, before))
    && after == if sent.Some? then Some(v.tick + RETRY_TICKS) else before
  }

  lemma SitedNone(c: Content, v: View, a: Account, deadline: Option<nat>, wanted: Option<TypeName>, ready: bool)
    ensures !(DeadlinePassed(v, deadline) && ready) ==> Sited(c, v, a, a, deadline, deadline, wanted, None, ready)
  {
  }

  lemma SitedFound(c: Content, v: View, a: Account, deadline: Option<nat>, order: Command, b: Account)
    requires order.Build? && b == a.(bill := Plus(a.bill, Entry(c, order)))
    requires BuildClear(v, deadline) && Affords(c, a.gold, a.wood, order.typeName)
    ensures Sited(c, v, a, b, deadline, Some(v.tick + RETRY_TICKS), Some(order.typeName), Some(order.typeName), true)
  {
    hide AnyRising, CostOf;
    assert b.bill == WithSite(c, a.bill, Some(order.typeName));
  }

  /** An account with a wanted type's price put aside. */
  function PutAside(c: Content, a: Account, wanted: Option<TypeName>): Account {
    a.(gold := a.gold - Owing(c, wanted, Gold), wood := a.wood - Owing(c, wanted, Wood))
  }

  lemma SitedPutAside(c: Content, v: View, a: Account, b: Account, before: Option<nat>, after: Option<nat>,
                      wanted: Option<TypeName>, sent: Option<TypeName>, ready: bool)
    requires Sited(c, v, a, b, before, after, wanted, sent, ready)
    ensures Sited(c, v, a, PutAside(c, b, wanted), before, after, None, sent, ready)
  {
  }

  lemma KeepsOn(c: Content, v: View, a: Account, b: Account, d: Account)
    requires Keeps(c, v, a, b) && Keeps(c, v, b, d)
    ensures Keeps(c, v, a, d)
  {
    hide Stands, Covered;
  }

  lemma KeepsOwingOn(c: Content, v: View, a: Account, b: Account, d: Account)
    requires KeepsOwing(c, v, a, b) && KeepsOwing(c, v, b, d)
    ensures KeepsOwing(c, v, a, d)
  {
    hide Stands;
  }

  /** An order within the budget, its price paid and its supply counted, keeps the account. */
  lemma PaidKeeps(c: Content, v: View, a: Account, b: Account, e: Bill)
    requires b.bill == Plus(a.bill, e) && b.gold == a.gold - e.gold && b.wood == a.wood - e.wood && b.supply == a.supply - e.supply
    requires a.gold >= e.gold && a.wood >= e.wood && (e.supply > 0 ==> a.supply >= e.supply)
    requires e.buildGold == e.buildWood == 0 && e.sites == multiset{} && e.raised == multiset{} && (e.growths > 0 ==> a.supply >= 0)
    ensures Keeps(c, v, a, b) && KeepsOwing(c, v, a, b)
  {
  }

  /** Whether a think's orders have drawn the stockpile down to `purse`. */
  ghost predicate Spent(v: View, a: Account, purse: Purse) {
    a.bill.gold == Stock(v, Gold) - purse.gold && a.bill.wood == Stock(v, Wood) - purse.wood
  }

  lemma SpentMore(v: View, a: Account, b: Account, purse: Purse, e: Bill)
    requires Spent(v, a, purse) && b.bill == Plus(a.bill, e)
    ensures Spent(v, b, Purse(purse.gold - e.gold, purse.wood - e.wood, purse.supply))
  {
  }

  /** A structure sent for is covered exactly when what the other orders leave of
      the stockpile covers its price. */
  lemma CoveredExactly(c: Content, v: View, a: Account, purse: Purse, sent: Option<TypeName>)
    requires Sound(v, a) && Spent(v, a, purse)
    requires a.bill.buildGold == Owing(c, sent, Gold) && a.bill.buildWood == Owing(c, sent, Wood)
    ensures Covered(v, a) <==> (sent.Some? ==> Affords(c, purse.gold, purse.wood, sent.value))
  {
  }

  predicate Affords(c: Content, gold: int, wood: int, t: TypeName) {
    gold >= CostOf(c, t, Gold) && wood >= CostOf(c, t, Wood)
  }

  /** A budget affords what costs no more of either kind, as the price lists it. */
  lemma AffordsExactly(c: Content, gold: int, wood: int, t: TypeName)
    ensures Affords(c, gold, wood, t) <==>
              && (forall n: nat | IsPriced(c.price(t), Gold, n) :: n <= gold)
              && (forall n: nat | IsPriced(c.price(t), Wood, n) :: n <= wood)
  {
    hide IsPriced, Amount;
    PricedExactly(c.price(t), Gold);
    PricedExactly(c.price(t), Wood);
    assert IsPriced(c.price(t), Gold, CostOf(c, t, Gold)) && IsPriced(c.price(t), Wood, CostOf(c, t, Wood));
  }

  /** Whether a unit in sight could pay for its change of form. */
  predicate CanMorph(c: Content, purse: Purse, unit: Entity, into: TypeName) {
    && !unit.hidden
    && purse.gold >= MorphCostOf(c, unit.typeName, into, Gold)
    && purse.wood >= MorphCostOf(c, unit.typeName, into, Wood)
  }

  /** A unit can pay for a form exactly when it is in sight and the purse holds what the
      first such change its type lists asks of each kind. */
  lemma CanMorphExactly(c: Content, purse: Purse, unit: Entity, into: TypeName)
    ensures CanMorph(c, purse, unit, into) <==>
              && !unit.hidden
              && (forall n: nat | IsMorphPriced(c.morphs(unit.typeName), into, Gold, n) :: n <= purse.gold)
              && (forall n: nat | IsMorphPriced(c.morphs(unit.typeName), into, Wood, n) :: n <= purse.wood)
  {
    hide IsMorphPriced, MorphAmount;
    MorphPricedExactly(c.morphs(unit.typeName), into, Gold);
    MorphPricedExactly(c.morphs(unit.typeName), into, Wood);
    assert IsMorphPriced(c.morphs(unit.typeName), into, Gold, MorphCostOf(c, unit.typeName, into, Gold));
    assert IsMorphPriced(c.morphs(unit.typeName), into, Wood, MorphCostOf(c, unit.typeName, into, Wood));
  }

  // ─── Sites ────────────────────────────────────────────────────────────────

  /** Whether an annex in the candidate's dock would stand on the map, clear of the hall. */
  predicate FitsAnnex(c: Content, v: View, hall: Entity, x: int, y: int, annex: Option<Annex>) {
    annex.None? ||
    var (a, h) := (c.size(annex.value.typeName), c.size(hall.typeName));
    var (ax, ay) := (x + annex.value.dx, y + annex.value.dy);
    && ax >= 0 && ay >= 0 && ax + a.w <= v.width && ay + a.h <= v.height
    && (ax >= hall.x + h.w || hall.x >= ax + a.w || ay >= hall.y + h.h || hall.y >= ay + a.h)
  }

  /** Whether the `i`-th offset gives the structure a place. */
  predicate SiteFits(c: Content, v: View, hall: Entity, annex: Option<Annex>, i: nat) {
    i < RING &&
    var (x, y) := (hall.x + OFFSETS[i].0, hall.y + OFFSETS[i].1);
    x >= 0 && y >= 0 && x + 5 <= v.width && y + 5 <= v.height && FitsAnnex(c, v, hall, x, y, annex)
  }

  predicate InBlock(px: int, py: int, x: int, y: int, w: int, h: int) {
    x <= px < x + w && y <= py < y + h
  }

  predicate OnMap(v: View, px: int, py: int) {
    0 <= px < v.width && 0 <= py < v.height
  }

  /** An offset gives a place exactly when the five cells each way from it are on the
      map and so is the annex, no cell of it the hall's. */
  lemma {:induction false} SiteFitsExactly(c: Content, v: View, hall: Entity, annex: Option<Annex>, i: nat)
    requires i < RING
    requires annex.Some? ==> var (a, h) := (c.size(annex.value.typeName), c.size(hall.typeName));
                             a.w > 0 && a.h > 0 && h.w > 0 && h.h > 0
    ensures var (x, y) := (hall.x + OFFSETS[i].0, hall.y + OFFSETS[i].1);
            SiteFits(c, v, hall, annex, i) <==>
              && (forall px, py | InBlock(px, py, x, y, 5, 5) :: OnMap(v, px, py))
              && (annex.Some? ==>
                    var (a, h) := (c.size(annex.value.typeName), c.size(hall.typeName));
                    forall px, py | InBlock(px, py, x + annex.value.dx, y + annex.value.dy, a.w, a.h) ::
                      OnMap(v, px, py) && !InBlock(px, py, hall.x, hall.y, h.w, h.h))
  {
    var (x, y) := (hall.x + OFFSETS[i].0, hall.y + OFFSETS[i].1);
    BlockOnMap(v, x, y, 5, 5);
    if annex.Some? {
      var (a, h) := (c.size(annex.value.typeName), c.size(hall.typeName));
      var (ax, ay) := (x + annex.value.dx, y + annex.value.dy);
      BlockOnMap(v, ax, ay, a.w, a.h);
      BlocksApart(ax, ay, a.w, a.h, hall.x, hall.y, h.w, h.h);
      assert FitsAnnex(c, v, hall, x, y, annex) <==>
          forall px, py | InBlock(px, py, ax, ay, a.w, a.h) :: OnMap(v, px, py) && !InBlock(px, py, hall.x, hall.y, h.w, h.h);
    }
  }

  lemma BlockOnMap(v: View, x: int, y: int, w: int, h: int)
    requires w > 0 && h > 0
    ensures x >= 0 && y >= 0 && x + w <= v.width && y + h <= v.height <==> forall px, py | InBlock(px, py, x, y, w, h) :: OnMap(v, px, py)
  {
    assert InBlock(x, y, x, y, w, h) && InBlock(x + w - 1, y + h - 1, x, y, w, h);
  }

  lemma BlocksApart(x: int, y: int, w: int, h: int, ox: int, oy: int, ow: int, oh: int)
    requires w > 0 && h > 0 && ow > 0 && oh > 0
    ensures x >= ox + ow || ox >= x + w || y >= oy + oh || oy >= y + h
            <==> forall px, py | InBlock(px, py, x, y, w, h) :: !InBlock(px, py, ox, oy, ow, oh)
  {
    var (px, py) := (if x < ox then ox else x, if y < oy then oy else y);
    assert x < ox + ow && ox < x + w && y < oy + oh && oy < y + h ==> InBlock(px, py, x, y, w, h) && InBlock(px, py, ox, oy, ow, oh);
  }

  /** No offset is tried twice in a lap, and none puts a structure on the hall, both
      four cells each way or less. */
  lemma OffsetsStandClear(i: nat, j: nat)
    requires i < j < RING
    ensures |OFFSETS| == RING && OFFSETS[i] != OFFSETS[j]
    ensures forall px, py :: !(InBlock(px, py, 0, 0, 4, 4) && InBlock(px, py, OFFSETS[i].0, OFFSETS[i].1, 4, 4))
  {
  }

  ghost predicate AnySite(c: Content, v: View, hall: Entity, annex: Option<Annex>) {
    exists i: nat :: i < RING && SiteFits(c, v, hall, annex, i)
  }

  predicate AtEase(unit: Entity) {
    unit.idle && !unit.hidden
  }

  /** The first idle worker in sight, else the first of all. */
  function BuilderAmong(workers: seq<Entity>): (builder: Option<Entity>)
    ensures builder.Some? <==> workers != []
    ensures builder.Some? ==> builder.value in workers
    ensures (exists w :: w in workers && AtEase(w)) ==> builder == FirstAtEase(workers)
    ensures workers != [] && !(exists w :: w in workers && AtEase(w)) ==> builder == Some(workers[0])
  {
    var idle := FirstAtEase(workers);
    if idle.Some? then idle else First(workers)
  }

  function FirstAtEase(workers: seq<Entity>): (idle: Option<Entity>)
    ensures idle.None? ==> forall w | w in workers :: !AtEase(w)
    ensures idle.Some? ==> AtEase(idle.value)
    ensures idle.Some? ==>
              exists i :: 0 <= i < |workers| && workers[i] == idle.value && forall j | 0 <= j < i :: !AtEase(workers[j])
  {
    if workers == [] then None
    else if AtEase(workers[0]) then Some(workers[0])
    else
      var idle := FirstAtEase(workers[1..]);
      assert idle.Some? ==> exists i :: 0 < i < |workers| && workers[i] == idle.value && forall j | 0 <= j < i :: !AtEase(workers[j]) by {
        if idle.Some? {
          var i :| 0 <= i < |workers| - 1 && workers[1..][i] == idle.value && forall j | 0 <= j < i :: !AtEase(workers[1..][j]);
          assert workers[i + 1] == idle.value && forall j | 0 < j < i + 1 :: workers[j] == workers[1..][j - 1];
        }
      }
      idle
  }

  /** What a brain remembers from think to think. */
  class AiState {
    var buildOffset: Option<nat>
    var buildDeadline: Option<nat>
    var builder: Option<nat>
    var woodWorker: Option<nat>

    ghost predicate Valid()
      reads this`buildOffset
    {
      buildOffset.Some? ==> 1 <= buildOffset.value <= RING
    }

    /** Where the ring of offsets stands, counted from zero. */
    function Place(): (i: nat)
      reads this`buildOffset
      requires Valid()
      ensures i < RING
    {
      if buildOffset.Some? then buildOffset.value - 1 else 0
    }

    constructor ()
      ensures Valid() && Place() == 0 && buildDeadline == None && builder == None && woodWorker == None
    {
      buildOffset, buildDeadline, builder, woodWorker := None, None, None, None;
    }
  }

  /** Whether a structure may be sent for: none of mine is rising, none was sent
      for in the last ten seconds. */
  predicate BuildClear(v: View, deadline: Option<nat>) {
    !AnyRising(v.mine) && (deadline.None? || v.tick >= deadline.value)
  }

  predicate DeadlinePassed(v: View, deadline: Option<nat>) {
    deadline.None? || v.tick >= deadline.value
  }

  /** What a budget has left. */
  datatype Purse = Purse(gold: int, wood: int, supply: int)

  /** Whether, the deadline aside, `wanted` is sent for: nothing rises, the purse
      covers it, and hall, worker and a place for it are there. */
  ghost predicate SiteReady(c: Content, v: View, purse: Purse, hall: Option<Entity>, workers: seq<Entity>,
                            wanted: Option<TypeName>, annex: Option<Annex>)
  {
    && !AnyRising(v.mine) && wanted.Some? && hall.Some? && workers != []
    && Affords(c, purse.gold, purse.wood, wanted.value) && AnySite(c, v, hall.value, annex)
  }

  /** Whether the worker line wants one more and can have it. */
  predicate WorkerDue(c: Content, purse: Purse, hall: Option<Entity>, halls: seq<Entity>, workers: seq<Entity>, t: TypeName) {
    && hall.Some? && !hall.value.rising
    && |workers| + CountQueued(halls, t) < MAX_WORKERS && |hall.value.trainQueue| < MAX_QUEUE
    && purse.supply >= 1 && Affords(c, purse.gold, purse.wood, t)
  }

  /** One more worker is due exactly when the hall stands with fewer than two queued, fewer
      than five workers stand or are queued, and the purse has the supply and the price. */
  lemma WorkerDueExactly(c: Content, purse: Purse, hall: Option<Entity>, halls: seq<Entity>, workers: seq<Entity>, t: TypeName)
    ensures WorkerDue(c, purse, hall, halls, workers, t) <==>
              && hall.Some? && !hall.value.rising && |hall.value.trainQueue| < 2
              && |workers| + CountQueued(halls, t) < 5
              && purse.supply > 0
              && (forall n: nat | IsPriced(c.price(t), Gold, n) :: n <= purse.gold)
              && (forall n: nat | IsPriced(c.price(t), Wood, n) :: n <= purse.wood)
  {
    hide IsPriced, Affords;
    AffordsExactly(c, purse.gold, purse.wood, t);
  }

  /** What the worker line leaves of a purse. */
  function AfterWorkers(c: Content, purse: Purse, hall: Option<Entity>, halls: seq<Entity>, workers: seq<Entity>, t: TypeName): Purse {
    if WorkerDue(c, purse, hall, halls, workers, t)
    then AfterTraining(c, purse, t)
    else purse
  }

  function AfterTraining(c: Content, purse: Purse, t: TypeName): Purse {
    AfterPaying(c, purse, t).(supply := purse.supply - 1)
  }

  /** What a think starts with. */
  function Stocked(v: View): Purse {
    Purse(Stock(v, Gold), Stock(v, Wood), Headroom(v))
  }

  function AfterMorph(c: Content, purse: Purse, of: TypeName, into: TypeName): Purse {
    Purse(purse.gold - MorphCostOf(c, of, into, Gold), purse.wood - MorphCostOf(c, of, into, Wood), purse.supply)
  }

  /** Whether an idle unit in sight can pay for its change of form. */
  predicate TakesForm(c: Content, purse: Purse, unit: Entity, into: TypeName) {
    unit.idle && CanMorph(c, purse, unit, into)
  }

  /** Whether a larva is still free to grow and the purse covers it. */
  predicate MayGrow(c: Content, purse: Purse, larva: Entity, taken: set<nat>, into: TypeName) {
    larva.id !in taken && TakesForm(c, purse, larva, into)
  }

  /** The first larva that may grow, if the headroom allows it. */
  function Growing(c: Content, purse: Purse, larvae: seq<Entity>, taken: set<nat>, into: TypeName): (larva: Option<Entity>)
    ensures larva.Some? ==> larva.value in larvae && MayGrow(c, purse, larva.value, taken, into)
    ensures larva.Some? ==> purse.supply >= GrowthSupply(Larva, into)
  {
    if purse.supply < GrowthSupply(Larva, into) || larvae == [] then None
    else if MayGrow(c, purse, larvae[0], taken, into) then Some(larvae[0])
    else Growing(c, purse, larvae[1..], taken, into)
  }

  /** A larva grows exactly when the headroom allows it and one may. */
  lemma {:induction false} GrowingExactly(c: Content, purse: Purse, larvae: seq<Entity>, taken: set<nat>, into: TypeName)
    ensures Growing(c, purse, larvae, taken, into).Some?
            <==> purse.supply >= GrowthSupply(Larva, into) && exists l :: l in larvae && MayGrow(c, purse, l, taken, into)
  {
    hide MayGrow;
    if larvae != [] {
      GrowingExactly(c, purse, larvae[1..], taken, into);
      assert larvae == [larvae[0]] + larvae[1..];
    }
  }

  /** And then the first that may does. */
  lemma {:induction false} GrowingIsFirst(c: Content, purse: Purse, larvae: seq<Entity>, taken: set<nat>, into: TypeName)
    returns (i: nat)
    requires Growing(c, purse, larvae, taken, into).Some?
    ensures i < |larvae| && larvae[i] == Growing(c, purse, larvae, taken, into).value
    ensures forall j | 0 <= j < i :: !MayGrow(c, purse, larvae[j], taken, into)
  {
    hide MayGrow;
    i := 0;
    if !MayGrow(c, purse, larvae[0], taken, into) {
      i := GrowingIsFirst(c, purse, larvae[1..], taken, into);
      assert forall j | 0 < j < i + 1 :: larvae[j] == larvae[1..][j - 1];
      i := i + 1;
    }
  }

  /** What growing a larva leaves of the purse. */
  function AfterGrowth(c: Content, purse: Purse, into: TypeName): Purse {
    AfterMorph(c, purse, Larva, into).(supply := purse.supply - GrowthSupply(Larva, into))
  }

  /** Whether a unit may change form, standing where that is asked. */
  predicate MayChange(c: Content, purse: Purse, unit: Entity, into: TypeName, standing: bool) {
    !(standing && unit.rising) && TakesForm(c, purse, unit, into)
  }

  lemma MayChangeIs(c: Content, purse: Purse, unit: Entity, into: TypeName, standing: bool)
    ensures MayChange(c, purse, unit, into, standing) <==> !(standing && unit.rising) && TakesForm(c, purse, unit, into)
  {
  }

  lemma TakesFormPays(c: Content, purse: Purse, unit: Entity, into: TypeName)
    requires TakesForm(c, purse, unit, into)
    ensures purse.gold >= MorphCostOf(c, unit.typeName, into, Gold) && purse.wood >= MorphCostOf(c, unit.typeName, into, Wood)
  {
  }

  /** Whether a building raises the annex in its dock. */
  predicate AnnexDue(c: Content, purse: Purse, primary: Option<Entity>, t: TypeName) {
    primary.Some? && !primary.value.rising && Affords(c, purse.gold, purse.wood, t)
  }

  lemma NoneGrowing(c: Content, purse: Purse, larvae: seq<Entity>, taken: set<nat>, into: TypeName)
    requires purse.supply < GrowthSupply(Larva, into) || larvae == []
    ensures Growing(c, purse, larvae, taken, into) == None
  {
  }

  lemma GrowingNext(c: Content, purse: Purse, larvae: seq<Entity>, taken: set<nat>, into: TypeName)
    requires purse.supply >= GrowthSupply(Larva, into) && larvae != []
    ensures Growing(c, purse, larvae, taken, into)
            == if MayGrow(c, purse, larvae[0], taken, into) then Some(larvae[0])
               else Growing(c, purse, larvae[1..], taken, into)
  {
  }

  function AfterPaying(c: Content, purse: Purse, t: TypeName): Purse {
    Purse(purse.gold - CostOf(c, t, Gold), purse.wood - CostOf(c, t, Wood), purse.supply)
  }

  /** The worker-built structure counted into a bill. */
  function WithSite(c: Content, bill: Bill, sent: Option<TypeName>): Bill {
    bill.(buildGold := bill.buildGold + Owing(c, sent, Gold), buildWood := bill.buildWood + Owing(c, sent, Wood),
          sites := bill.sites + if sent.Some? then multiset{sent.value} else multiset{})
  }

  /** Whether a research is still wanted, with a host standing for it. */
  predicate ResearchWanted(v: View, research: ResearchName, hosts: seq<Entity>) {
    research !in v.researched && research !in v.researching && AnyStanding(hosts)
  }

  predicate ResearchBought(c: Content, v: View, purse: Purse, research: ResearchName, hosts: seq<Entity>) {
    && ResearchWanted(v, research, hosts)
    && purse.gold >= c.researchGold(research) && purse.wood >= c.researchWood(research)
  }

  /** What a research leaves of the stockpile: its price is drawn only when it is bought. */
  function AfterResearch(c: Content, v: View, purse: Purse, research: ResearchName, hosts: seq<Entity>): Purse {
    if ResearchBought(c, v, purse, research, hosts)
    then Purse(purse.gold - c.researchGold(research), purse.wood - c.researchWood(research), purse.supply)
    else purse
  }

  /** Whether a training of `t` is within the budget. */
  predicate CanTrain(c: Content, purse: Purse, t: TypeName) {
    purse.supply >= 1 && Affords(c, purse.gold, purse.wood, t)
  }

  lemma CanTrainExactly(c: Content, purse: Purse, t: TypeName)
    ensures CanTrain(c, purse, t) <==>
              && purse.supply > 0
              && (forall n: nat | IsPriced(c.price(t), Gold, n) :: n <= purse.gold)
              && (forall n: nat | IsPriced(c.price(t), Wood, n) :: n <= purse.wood)
  {
    hide IsPriced, Affords;
    AffordsExactly(c, purse.gold, purse.wood, t);
  }

  /** Whether a building can queue one more unit. */
  predicate TakesTraining(building: Entity) {
    !building.rising && !building.disabled && |building.trainQueue| < MAX_QUEUE
  }

  /** What a think may do to the deadline: nothing without a structure, and with
      one, started clear, set it two hundred ticks on. */
  ghost predicate Paced(v: View, before: Option<nat>, after: Option<nat>, builds: nat) {
    || (builds == 0 && after == before)
    || (builds == 1 && BuildClear(v, before) && after == Some(v.tick + RETRY_TICKS))
  }

  /** One worker's assignment to a source. */
  datatype Assignment = Assignment(worker: Entity, target: Entity)

  function Sends(assignments: seq<Assignment>): seq<Command> {
    if assignments == [] then []
    else
      var last := assignments[|assignments| - 1];
      Sends(assignments[..|assignments| - 1]) + [Select(last.worker.id), Send(last.target.id)]
  }

  // ─── One think ────────────────────────────────────────────────────────────

  /** The orders of one think and the budget it spends from. */
  class Turn {
    const content: Content
    const view: View
    var commands: seq<Command>
    var gold: int
    var wood: int
    var supply: int

    function Books(): Account
      reads this
    {
      Account(Tally(content, commands), gold, wood, supply)
    }

    function Left(): Purse
      reads this`gold, this`wood, this`supply
    {
      Purse(gold, wood, supply)
    }

    constructor (content: Content, view: View)
      ensures this.content == content && this.view == view
      ensures commands == [] && Left() == Stocked(view) && Books() == Opening(view)
      ensures Spent(view, Books(), Left()) && Orderly(view, commands)
    {
      this.content, this.view := content, view;
      commands, gold, wood, supply := [], Stock(view, Gold), Stock(view, Wood), Headroom(view);
    }

    /** Appends an order. */
    method Order(cmd: Command)
      modifies this`commands
      ensures commands == old(commands) + [cmd]
      ensures Books() == old(Books()).(bill := Plus(old(Books()).bill, Entry(content, cmd)))
      ensures Lawful(view, cmd) && Orderly(view, old(commands)) ==> Orderly(view, commands)
    {
      hide Lawful, Entry, Plus;
      TallyNext(content, commands, cmd);
      commands := commands + [cmd];
    }

    /** Appends an order that costs nothing and raises nothing. */
    method OrderFree(cmd: Command)
      requires Entry(content, cmd) == NOTHING
      modifies this`commands
      ensures commands == old(commands) + [cmd]
      ensures Books() == old(Books())
      ensures Lawful(view, cmd) && Orderly(view, old(commands)) ==> Orderly(view, commands)
    {
      hide Tally, Lawful, Orderly;
      Order(cmd);
    }

    /** Appends a worker's two orders: select it, send it. */
    method SendWorker(w: Entity, target: Entity)
      modifies this`commands
      ensures commands == old(commands) + [Select(w.id), Send(target.id)]
      ensures Books() == old(Books())
      ensures MineInSight(view, w.id) && Lawful(view, Send(target.id)) && Orderly(view, old(commands)) ==> Orderly(view, commands)
    {
      hide Tally, Amount, MorphAmount, Orderly, Mine, MineInSight;
      OrderFree(Select(w.id));
      OrderFree(Send(target.id));
    }

    method Pay(t: TypeName)
      modifies this`gold, this`wood
      ensures Left() == AfterPaying(content, old(Left()), t)
    {
      hide Tally, Amount, MorphAmount;
      gold := gold - CostOf(content, t, Gold);
      wood := wood - CostOf(content, t, Wood);
    }

    /** Orders a training, paid for and counted. */
    method PlaceTraining(trainer: nat, t: TypeName)
      requires CanTrain(content, Left(), t)
      modifies this
      ensures commands == old(commands) + [Train(trainer, t)]
      ensures Left() == AfterTraining(content, old(Left()), t)
      ensures Keeps(content, view, old(Books()), Books())
      ensures Books().bill == Plus(old(Books()).bill, Entry(content, Train(trainer, t)))
      ensures Spent(view, old(Books()), old(Left())) ==> Spent(view, Books(), Left())
      ensures MayTrain(view, trainer) && Orderly(view, old(commands)) ==> Orderly(view, commands)
    {
      hide Tally, Amount, MorphAmount, Stands, Covered, Orderly, MayTrain, Keeps;
      Order(Train(trainer, t));
      Pay(t);
      supply := supply - 1;
      PaidKeeps(content, view, old(Books()), Books(), Entry(content, Train(trainer, t)));
    }

    /** Queues one more worker at the hall while there are too few. */
    method KeepWorkers(hall: Option<Entity>, halls: seq<Entity>, workers: seq<Entity>, workerType: TypeName)
      modifies this
      ensures Keeps(content, view, old(Books()), Books())
      ensures Left() == AfterWorkers(content, old(Left()), hall, halls, workers, workerType)
      ensures Spent(view, old(Books()), old(Left())) ==> Spent(view, Books(), Left())
      ensures if WorkerDue(content, old(Left()), hall, halls, workers, workerType)
              then commands == old(commands) + [Train(hall.value.id, workerType)]
              else commands == old(commands) && Books() == old(Books())
      ensures (hall.Some? ==> hall.value in view.mine) && Orderly(view, old(commands)) ==> Orderly(view, commands)
    {
      hide Tally, Stands, Plus, Entry, Keeps, CountQueued, CostOf, Orderly, Spent, AfterTraining;
      KeepsItself(content, view, Books());
      if hall.Some? && !hall.value.rising
         && |workers| + CountQueued(halls, workerType) < MAX_WORKERS
         && |hall.value.trainQueue| < MAX_QUEUE
         && supply >= 1
         && Affords(content, gold, wood, workerType) {
        PlaceTraining(hall.value.id, workerType);
      }
    }

    /** Queues one unit on a building when the budget allows. */
    method TrainFrom(building: Entity, t: TypeName) returns (placed: bool)
      modifies this
      ensures Keeps(content, view, old(Books()), Books())
      ensures placed == (TakesTraining(building) && CanTrain(content, old(Left()), t))
      ensures if placed
              then commands == old(commands) + [Train(building.id, t)]
                   && Left() == AfterTraining(content, old(Left()), t)
              else commands == old(commands) && Left() == old(Left()) && Books() == old(Books())
      ensures building in view.mine && Orderly(view, old(commands)) ==> Orderly(view, commands)
    {
      hide Tally, Stands, Plus, Entry, Keeps, CostOf, Orderly, Spent, AfterTraining;
      KeepsItself(content, view, Books());
      placed := false;
      if !building.rising && !building.disabled
         && |building.trainQueue| < MAX_QUEUE
         && supply >= 1
         && Affords(content, gold, wood, t) {
        PlaceTraining(building.id, t);
        placed := true;
      }
    }

    /** Trains one unit from the first building that takes the order. */
    method TrainFirst(buildings: seq<Entity>, t: TypeName) returns (placed: bool)
      modifies this
      ensures Keeps(content, view, old(Books()), Books())
      ensures placed == (CanTrain(content, old(Left()), t) && exists b :: b in buildings && TakesTraining(b))
      ensures placed ==>
                && Left() == AfterTraining(content, old(Left()), t)
                && exists i :: 0 <= i < |buildings| && TakesTraining(buildings[i])
                               && (forall j | 0 <= j < i :: !TakesTraining(buildings[j]))
                               && commands == old(commands) + [Train(buildings[i].id, t)]
      ensures !placed ==> Books() == old(Books()) && commands == old(commands)
      ensures Own(view, buildings) && Orderly(view, old(commands)) ==> Orderly(view, commands)
    {
      hide Tally, Plus, Entry, Keeps, Books, Left, CanTrain, Orderly, TakesTraining, AfterTraining;
      KeepsItself(content, view, Books());
      placed := false;
      for i := 0 to |buildings|
        invariant Books() == old(Books()) && commands == old(commands)
        invariant Left() == old(Left())
        invariant CanTrain(content, old(Left()), t) ==> forall j | 0 <= j < i :: !TakesTraining(buildings[j])
      {
        placed := TrainFrom(buildings[i], t);
        if placed {
          return;
        }
      }
    }

    /** Starts a research when the budget covers it; its price is held back either way. */
    method BuyResearch(research: ResearchName, hosts: seq<Entity>)
      modifies this
      ensures Keeps(content, view, old(Books()), Books()) && KeepsOwing(content, view, old(Books()), Books())
      ensures var (g, w) := (content.researchGold(research), content.researchWood(research));
              Left() == if ResearchWanted(view, research, hosts)
                        then Purse(old(gold) - g, old(wood) - w, old(supply)) else old(Left())
      ensures if ResearchBought(content, view, old(Left()), research, hosts)
              then exists i :: 0 <= i < |hosts| && !hosts[i].rising && (forall j | 0 <= j < i :: hosts[j].rising)
                     && commands == old(commands) + [Research(hosts[i].id, research)]
              else commands == old(commands)
      ensures Spent(view, old(Books()), old(Left())) ==>
                Spent(view, Books(), AfterResearch(content, view, old(Left()), research, hosts))
      ensures Own(view, hosts) && Orderly(view, old(commands)) ==> Orderly(view, commands)
    {
      hide Tally, Stands, Covered, Orderly, Keeps, KeepsOwing;
      KeepsItself(content, view, Books());
      if research in view.researched || research in view.researching {
        return;
      }
      if !AnyStanding(hosts) {
        return;
      }
      var g, w := content.researchGold(research), content.researchWood(research);
      if gold >= g && wood >= w {
        var i := 0;
        while hosts[i].rising
          invariant 0 <= i < |hosts| && forall j | 0 <= j < i :: hosts[j].rising
          decreases |hosts| - i
        {
          i := i + 1;
        }
        PlaceResearch(hosts[i].id, research);
      } else {
        HoldBack(g, w);
      }
    }

    /** Orders an affordable research, paid for. */
    method PlaceResearch(host: nat, research: ResearchName)
      requires gold >= content.researchGold(research) && wood >= content.researchWood(research)
      modifies this
      ensures commands == old(commands) + [Research(host, research)]
      ensures Left() == Purse(old(gold) - content.researchGold(research), old(wood) - content.researchWood(research), old(supply))
      ensures Keeps(content, view, old(Books()), Books()) && KeepsOwing(content, view, old(Books()), Books())
      ensures Spent(view, old(Books()), old(Left())) ==> Spent(view, Books(), Left())
      ensures Lawful(view, Research(host, research)) && Orderly(view, old(commands)) ==> Orderly(view, commands)
    {
      hide Tally, Stands, Covered, Orderly, MineStanding, Keeps, KeepsOwing;
      Order(Research(host, research));
      gold := gold - content.researchGold(research);
      wood := wood - content.researchWood(research);
      PaidKeeps(content, view, old(Books()), Books(), Entry(content, Research(host, research)));
    }

    /** Holds a wanted type's price back; nothing wanted holds nothing back. */
    method Reserve(wanted: Option<TypeName>)
      modifies this`gold, this`wood
      ensures Left() == Purse(old(gold) - Owing(content, wanted, Gold), old(wood) - Owing(content, wanted, Wood), old(supply))
      ensures Books() == PutAside(content, old(Books()), wanted)
      ensures Keeps(content, view, old(Books()), Books())
    {
      hide Tally, CostOf;
      if wanted.Some? {
        gold := gold - CostOf(content, wanted.value, Gold);
        wood := wood - CostOf(content, wanted.value, Wood);
      }
    }

    /** Orders an affordable change of form, paid for. The headroom a larva's new
        form takes is the caller's to count. */
    method PlaceMorph(unit: Entity, into: TypeName)
      requires CanMorph(content, Left(), unit, into)
      modifies this
      ensures commands == old(commands) + [Select(unit.id), Morph(unit.typeName, into)]
      ensures Left() == AfterMorph(content, old(Left()), unit.typeName, into)
      ensures Books().bill == Plus(old(Books()).bill, Entry(content, Morph(unit.typeName, into)))
      ensures unit.typeName != Larva ==>
                Keeps(content, view, old(Books()), Books()) && KeepsOwing(content, view, old(Books()), Books())
      ensures Spent(view, old(Books()), old(Left())) ==> Spent(view, Books(), Left())
      ensures unit in view.mine && Orderly(view, old(commands)) ==> Orderly(view, commands)
    {
      hide Tally, Amount, MorphAmount, MorphCostOf, Stands, Covered, Orderly, Keeps, KeepsOwing;
      OrderFree(Select(unit.id));
      Order(Morph(unit.typeName, into));
      gold := gold - MorphCostOf(content, unit.typeName, into, Gold);
      wood := wood - MorphCostOf(content, unit.typeName, into, Wood);
      if unit.typeName != Larva {
        PaidKeeps(content, view, old(Books()), Books(), Entry(content, Morph(unit.typeName, into)));
      }
    }

    /** What ordering a unit to change form comes to: placed or not, and then paid for. */
    twostate predicate Morphed(placed: bool, unit: Entity, into: TypeName)
      reads this
    {
      && (unit.typeName != Larva ==>
            Keeps(content, view, old(Books()), Books()) && KeepsOwing(content, view, old(Books()), Books()))
      && (unit in view.mine && Orderly(view, old(commands)) ==> Orderly(view, commands))
      && (Spent(view, old(Books()), old(Left())) ==> Spent(view, Books(), Left()))
      && if placed
         then && commands == old(commands) + [Select(unit.id), Morph(unit.typeName, into)]
              && Left() == AfterMorph(content, old(Left()), unit.typeName, into)
              && Books().bill == Plus(old(Books()).bill, Entry(content, Morph(unit.typeName, into)))
         else commands == old(commands) && Left() == old(Left()) && Books() == old(Books())
    }

    /** Orders a change of form the purse can pay for, whatever the unit is at. */
    method MorphAny(unit: Entity, into: TypeName) returns (placed: bool)
      modifies this
      ensures placed == CanMorph(content, old(Left()), unit, into)
      ensures Morphed(placed, unit, into)
    {
      hide Tally, MorphCostOf, AfterMorph, Entry, Plus, Keeps, KeepsOwing, Orderly, Spent;
      KeepsItself(content, view, Books());
      placed := false;
      if !unit.hidden
         && gold >= MorphCostOf(content, unit.typeName, into, Gold) && wood >= MorphCostOf(content, unit.typeName, into, Wood) {
        PlaceMorph(unit, into);
        placed := true;
      }
    }

    /** The same of a unit at rest alone. */
    method MorphOne(unit: Entity, into: TypeName) returns (placed: bool)
      modifies this
      ensures placed == TakesForm(content, old(Left()), unit, into)
      ensures Morphed(placed, unit, into)
    {
      hide Tally, MorphCostOf, AfterMorph, Entry, Plus, Keeps, KeepsOwing, Orderly, Spent, CanMorph;
      KeepsItself(content, view, Books());
      if !unit.idle {
        return false;
      }
      placed := MorphAny(unit, into);
    }

    /** Changes the first of the units, all of one form, that takes the order. */
    method MorphFirst(units: seq<Entity>, ghost of: TypeName, into: TypeName, standing: bool) returns (placed: bool)
      requires of != Larva && forall u | u in units :: u.typeName == of
      modifies this
      ensures Keeps(content, view, old(Books()), Books()) && KeepsOwing(content, view, old(Books()), Books())
      ensures placed == exists u :: u in units && MayChange(content, old(Left()), u, into, standing)
      ensures placed ==>
                && Left() == AfterMorph(content, old(Left()), of, into)
                && Books().bill == Plus(old(Books()).bill, Entry(content, Morph(of, into)))
                && exists i :: 0 <= i < |units| && MayChange(content, old(Left()), units[i], into, standing)
                               && (forall j | 0 <= j < i :: !MayChange(content, old(Left()), units[j], into, standing))
                               && commands == old(commands) + [Select(units[i].id), Morph(of, into)]
      ensures Spent(view, old(Books()), old(Left())) ==> Spent(view, Books(), Left())
      ensures !placed ==> commands == old(commands) && Left() == old(Left()) && Books() == old(Books())
      ensures Own(view, units) && Orderly(view, old(commands)) ==> Orderly(view, commands)
    {
      hide Tally, Entry, Plus, Keeps, KeepsOwing, AfterMorph, TakesForm, MayChange, Books, Left, Orderly, Spent;
      KeepsItself(content, view, Books());
      placed := false;
      for i := 0 to |units|
        invariant commands == old(commands) && Books() == old(Books()) && Left() == old(Left())
        invariant forall j | 0 <= j < i :: !MayChange(content, old(Left()), units[j], into, standing)
      {
        MayChangeIs(content, Left(), units[i], into, standing);
        if !(standing && units[i].rising) {
          placed := MorphOne(units[i], into);
          if placed {
            assert units[i] in units;
            return;
          }
        }
      }
    }

    /** Changes the first of the units, all of one form, whose change the purse
        can pay for, whatever they are at. */
    method MorphAnyFirst(units: seq<Entity>, ghost of: TypeName, into: TypeName) returns (placed: bool)
      requires of != Larva && forall u | u in units :: u.typeName == of
      modifies this
      ensures Keeps(content, view, old(Books()), Books())
      ensures placed == exists u :: u in units && CanMorph(content, old(Left()), u, into)
      ensures placed ==>
                && Left() == AfterMorph(content, old(Left()), of, into)
                && exists i :: 0 <= i < |units| && CanMorph(content, old(Left()), units[i], into)
                               && (forall j | 0 <= j < i :: !CanMorph(content, old(Left()), units[j], into))
                               && commands == old(commands) + [Select(units[i].id), Morph(of, into)]
      ensures !placed ==> commands == old(commands) && Left() == old(Left()) && Books() == old(Books())
      ensures Own(view, units) && Orderly(view, old(commands)) ==> Orderly(view, commands)
    {
      hide Tally, Entry, Plus, Keeps, KeepsOwing, CanMorph, AfterMorph, Books, Left, Orderly;
      KeepsItself(content, view, Books());
      placed := false;
      for i := 0 to |units|
        invariant commands == old(commands) && Books() == old(Books()) && Left() == old(Left())
        invariant forall j | 0 <= j < i :: !CanMorph(content, old(Left()), units[j], into)
      {
        placed := MorphAny(units[i], into);
        if placed {
          assert units[i] in units;
          return;
        }
      }
    }

    /** Holds a price back without an order for it. */
    method HoldBack(g: nat, w: nat)
      modifies this`gold, this`wood
      ensures Left() == Purse(old(gold) - g, old(wood) - w, old(supply)) && Books().bill == old(Books()).bill
      ensures Keeps(content, view, old(Books()), Books()) && KeepsOwing(content, view, old(Books()), Books())
    {
      hide Tally, Amount, MorphAmount;
      gold := gold - g;
      wood := wood - w;
    }

    /** Grows a larva and counts the supply it takes. */
    method GrowOne(larva: Entity, into: TypeName, supplied: nat) returns (placed: bool)
      requires larva.typeName == Larva && supplied == GrowthSupply(Larva, into) && supply >= supplied
      modifies this
      ensures Keeps(content, view, old(Books()), Books())
      ensures placed == TakesForm(content, old(Left()), larva, into)
      ensures placed ==> commands == old(commands) + [Select(larva.id), Morph(Larva, into)]
                         && Left() == AfterGrowth(content, old(Left()), into)
      ensures !placed ==> commands == old(commands) && Left() == old(Left()) && Books() == old(Books())
      ensures larva in view.mine && Orderly(view, old(commands)) ==> Orderly(view, commands)
    {
      hide Tally, Amount, MorphAmount, MorphCostOf, Stands, Covered, Orderly, Keeps, KeepsOwing, CanMorph;
      KeepsItself(content, view, Books());
      placed := MorphOne(larva, into);
      if placed {
        supply := supply - supplied;
        assert old(gold) >= MorphCostOf(content, Larva, into, Gold) && old(wood) >= MorphCostOf(content, Larva, into, Wood) by {
          TakesFormPays(content, old(Left()), larva, into);
        }
        PaidKeeps(content, view, old(Books()), Books(), Entry(content, Morph(Larva, into)));
      }
    }

    /**
     Grows the first idle larva not taken yet this think that the budget covers,
     when the headroom allows, and counts the supply it takes.
     */
    method Grow(larvae: seq<Entity>, taken: set<nat>, into: TypeName, supplied: nat) returns (nowTaken: set<nat>)
      requires forall l | l in larvae :: l.typeName == Larva
      requires supplied == GrowthSupply(Larva, into)
      modifies this
      ensures Keeps(content, view, old(Books()), Books())
      ensures match Growing(content, old(Left()), larvae, taken, into)
              case None => nowTaken == taken && commands == old(commands) && Left() == old(Left()) && Books() == old(Books())
              case Some(larva) => nowTaken == taken + {larva.id} && Left() == AfterGrowth(content, old(Left()), into)
                                  && commands == old(commands) + [Select(larva.id), Morph(Larva, into)]
      ensures Own(view, larvae) && Orderly(view, old(commands)) ==> Orderly(view, commands)
    {
      hide Tally, Keeps, Entry, Plus, TakesForm, AfterGrowth, Books, Growing, Orderly;
      KeepsItself(content, view, Books());
      nowTaken := taken;
      if supply < supplied {
        NoneGrowing(content, Left(), larvae, taken, into);
        return;
      }
      hide Left;
      assert larvae[0..] == larvae;
      for i := 0 to |larvae|
        invariant commands == old(commands) && Books() == old(Books()) && Left() == old(Left()) && supply == old(supply)
        invariant Growing(content, old(Left()), larvae, taken, into) == Growing(content, old(Left()), larvae[i..], taken, into)
      {
        assert larvae[i..][0] == larvae[i] && larvae[i..][1..] == larvae[i + 1..];
        GrowingNext(content, old(Left()), larvae[i..], taken, into);
        if larvae[i].id !in taken {
          var placed := GrowOne(larvae[i], into, supplied);
          if placed {
            nowTaken := taken + {larvae[i].id};
            return;
          }
        }
      }
      NoneGrowing(content, old(Left()), [], taken, into);
    }

    /** A standing primary raises the annex in its dock, whose cell the dock gives. */
    method RaiseAnnex(primary: Option<Entity>, annex: Annex) returns (placed: bool)
      modifies this
      ensures Keeps(content, view, old(Books()), Books()) && KeepsOwing(content, view, old(Books()), Books())
      ensures placed <==> AnnexDue(content, old(Left()), primary, annex.typeName)
      ensures placed ==> commands == old(commands) + [Dock(primary.value.id, annex.typeName,
                                                           primary.value.x + annex.dx, primary.value.y + annex.dy)]
                         && Left() == AfterPaying(content, old(Left()), annex.typeName)
                         && Books().bill == Plus(old(Books()).bill, Entry(content, commands[|old(commands)|]))
      ensures !placed ==> commands == old(commands) && Left() == old(Left()) && Books() == old(Books())
      ensures (primary.Some? ==> primary.value in view.mine) && Orderly(view, old(commands)) ==> Orderly(view, commands)
    {
      hide Tally, Amount, MorphAmount, Stands, Covered, Orderly, Keeps, KeepsOwing;
      KeepsItself(content, view, Books());
      if primary.None? || primary.value.rising {
        return false;
      }
      if !Affords(content, gold, wood, annex.typeName) {
        return false;
      }
      ghost var dock := Dock(primary.value.id, annex.typeName, primary.value.x + annex.dx, primary.value.y + annex.dy);
      Order(Dock(primary.value.id, annex.typeName, primary.value.x + annex.dx, primary.value.y + annex.dy));
      Pay(annex.typeName);
      PaidKeeps(content, view, old(Books()), Books(), Entry(content, dock));
      placed := true;
    }

    /** The offset the ring comes to next that gives the structure a place. */
    function NextSite(hall: Entity, annex: Option<Annex>, place: nat, tries: nat): (i: Option<nat>)
      requires place < RING
      ensures i.Some? ==> i.value < RING
    {
      SiteRing.NextValid((i: nat) => SiteFits(content, view, hall, annex, i), RING, place, tries)
    }

    lemma NextSiteStep(hall: Entity, annex: Option<Annex>, place: nat, tries: nat)
      requires place < RING && tries > 0
      ensures NextSite(hall, annex, place, tries)
              == if SiteFits(content, view, hall, annex, place) then Some(place)
                 else NextSite(hall, annex, SiteRing.After(place, RING), tries - 1)
    {
    }

    lemma NextSiteNone(hall: Entity, annex: Option<Annex>, place: nat)
      requires place < RING
      ensures NextSite(hall, annex, place, 0) == None
    {
    }

    lemma NextSiteAny(hall: Entity, annex: Option<Annex>, place: nat)
      requires place < RING
      ensures NextSite(hall, annex, place, RING).Some? <==> AnySite(content, view, hall, annex)
    {
      var fits := (i: nat) => SiteFits(content, view, hall, annex, i);
      SiteRing.NextValidIsNearest(fits, RING, place, RING);
      assert forall i: nat | i < RING && SiteFits(content, view, hall, annex, i) :: fits(i) && SiteRing.Ahead(place, i, RING) < RING;
    }

    /** Tries the ring's offsets in turn; the ring ends up past the one taken, and
        where it stood when none gives a place. */
    method TakeSite(state: AiState, hall: Entity, annex: Option<Annex>) returns (site: Option<(int, int)>)
      requires state.Valid()
      modifies state`buildOffset
      ensures state.Valid() && (site.Some? ==> MayHold(view, site.value.0, site.value.1))
      ensures match NextSite(hall, annex, old(state.Place()), RING)
              case None => site == None && state.Place() == old(state.Place())
              case Some(i) => site == Some((hall.x + OFFSETS[i].0, hall.y + OFFSETS[i].1))
                              && state.Place() == SiteRing.After(i, RING)
    {
      hide NextSite;
      site := None;
      for tries := 0 to RING
        invariant state.Valid()
        invariant NextSite(hall, annex, old(state.Place()), RING)
                  == NextSite(hall, annex, state.Place(), RING - tries)
        invariant state.Place() == (old(state.Place()) + tries) % RING
      {
        var i := state.Place();
        NextSiteStep(hall, annex, i, RING - tries);
        state.buildOffset := Some((i + 1) % RING + 1);
        var x, y := hall.x + OFFSETS[i].0, hall.y + OFFSETS[i].1;
        // The widest structure and its dock reach five cells.
        if x >= 0 && y >= 0 && x + 5 <= view.width && y + 5 <= view.height
           && FitsAnnex(content, view, hall, x, y, annex) {
          return Some((x, y));
        }
      }
      NextSiteNone(hall, annex, state.Place());
    }

    /** Sends a builder for a structure the budget covers, and sets the deadline. */
    method Found(state: AiState, builder: Entity, t: TypeName, x: int, y: int)
      requires BuildClear(view, state.buildDeadline) && Affords(content, gold, wood, t)
      modifies this`commands, state`buildDeadline
      ensures Left() == old(Left())
      ensures Sited(content, view, old(Books()), Books(), old(state.buildDeadline), state.buildDeadline, Some(t), Some(t), true)
      ensures commands == old(commands) + [Build(builder.id, t, x, y)]
      ensures builder in view.mine && MayHold(view, x, y) && Orderly(view, old(commands)) ==> Orderly(view, commands)
    {
      hide Tally, Plus, Entry, Sited, Orderly, BuildClear, Affords, MayHold;
      Order(Build(builder.id, t, x, y));
      state.buildDeadline := Some(view.tick + RETRY_TICKS);
      SitedFound(content, view, old(Books()), old(state.buildDeadline), Build(builder.id, t, x, y), Books());
    }

    /** Where a structure sent for goes: the ring's next place for it, by the builder
        among the workers, the ring then past it; with none sent, nothing moves. */
    twostate predicate AtNextSite(state: AiState, workers: seq<Entity>, hall: Option<Entity>, wanted: Option<TypeName>,
                                  annex: Option<Annex>, new builderId: Option<nat>)
      reads this, state
      requires old(state.Valid()) && state.Valid()
    {
      var ready := BuildClear(view, old(state.buildDeadline)) && wanted.Some? && hall.Some?
                   && Affords(content, old(gold), old(wood), wanted.value) && workers != [];
      match (if ready then NextSite(hall.value, annex, old(state.Place()), RING) else None)
      case None =>
        && builderId == None && commands == old(commands)
        && state.Place() == old(state.Place()) && state.builder == old(state.builder)
      case Some(i) =>
        && builderId == Some(BuilderAmong(workers).value.id)
        && commands == old(commands) + [Build(builderId.value, wanted.value,
                                              hall.value.x + OFFSETS[i].0, hall.value.y + OFFSETS[i].1)]
        && state.Place() == SiteRing.After(i, RING)
        && state.builder == builderId
    }

    /**
     Sends for `wanted` where the ring next gives it a place, unless something rises
     or the deadline still runs.
     */
    method BuildNext(state: AiState, workers: seq<Entity>, hall: Option<Entity>, wanted: Option<TypeName>, annex: Option<Annex>)
      returns (builderId: Option<nat>)
      requires state.Valid()
      modifies this, state
      ensures state.Valid() && state.woodWorker == old(state.woodWorker)
      ensures Left() == old(Left())
      ensures Sited(content, view, old(Books()), Books(), old(state.buildDeadline), state.buildDeadline, wanted,
                    if builderId.Some? then wanted else None,
                    SiteReady(content, view, old(Left()), hall, workers, wanted, annex))
      ensures AtNextSite(state, workers, hall, wanted, annex, builderId)
      ensures Own(view, workers) && Orderly(view, old(commands)) ==> Orderly(view, commands)
    {
      hide Tally, CostOf, NextSite, AnySite, Orderly, Sited, BuilderAmong, MayHold;
      SitedNone(content, view, Books(), state.buildDeadline, wanted, SiteReady(content, view, Left(), hall, workers, wanted, annex));
      builderId := None;
      if AnyRising(view.mine) {
        return;
      }
      if state.buildDeadline.Some? && view.tick < state.buildDeadline.value {
        return;
      }
      if wanted.None? || hall.None? || !Affords(content, gold, wood, wanted.value) {
        return;
      }
      var builder := BuilderAmong(workers);
      if builder.None? {
        return;
      }
      NextSiteAny(hall.value, annex, state.Place());
      var site := TakeSite(state, hall.value, annex);
      if site.Some? {
        Found(state, builder.value, wanted.value, site.value.0, site.value.1);
        assert SiteReady(content, view, old(Left()), hall, workers, wanted, annex);
        state.builder := Some(builder.value.id);
        builderId := state.builder;
      }
    }
  }
}
