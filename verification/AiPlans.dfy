/**
 What each brain wants next, as the list of needs it goes down, read off the
 view's entities by themselves.
 */
module AiPlans {
  import opened Wrappers
  import opened AiView
  import opened AiChassis
  import opened AiEconomy
  import opened Brains
  import opened AiRuns

  /** One line of a brain's list: a type none of mine is of, supply for fewer than two
      more units, or a tower while fewer than two stand, plain or hardened. */
  datatype Need =
    | Missing(typeName: TypeName)
    | Supply(typeName: TypeName)
    | Towers(typeName: TypeName, hardened: TypeName)

  predicate Has(v: View, t: TypeName) {
    exists i | 0 <= i < |v.mine| :: v.mine[i].typeName == t
  }

  predicate IsTower(e: Entity, need: Need)
    requires need.Towers?
  {
    e.typeName == need.typeName || e.typeName == need.hardened
  }

  predicate Unmet(v: View, supply: int, need: Need) {
    match need
    case Missing(t) => !Has(v, t)
    case Supply(_) => supply < 2
    case Towers(_, _) => !exists i, j | 0 <= i < j < |v.mine| :: IsTower(v.mine[i], need) && IsTower(v.mine[j], need)
  }

  /** Whether `wanted` is the first line of a list that is unmet. */
  ghost predicate FirstUnmet(v: View, supply: int, needs: seq<Need>, wanted: Option<TypeName>) {
    match wanted
    case None => forall k | 0 <= k < |needs| :: !Unmet(v, supply, needs[k])
    case Some(t) =>
      exists k | 0 <= k < |needs| ::
        needs[k].typeName == t && Unmet(v, supply, needs[k]) && forall j | 0 <= j < k :: !Unmet(v, supply, needs[j])
  }

  function Needs(brain: Brain): seq<Need> {
    match brain
    case HumanBrain => [Missing(TrainingCamp), Missing(Blacksmith), Supply(Farm), Missing(Bunker)]
    case OrcBrain => [Missing(WarCamp), Missing(PigFarm), Supply(PigFarm), Missing(SiegeWorks), Towers(WatchTower, GuardTower)]
    case SwarmBrain => [Missing(SpawningPit), Missing(Tumor)]
    case ConclaveBrain => [Missing(Gateway), Supply(Pylon), Missing(PhotonCannon)]
    case ElvesBrain => [Missing(EntangledMine), Missing(AncientOfWar), Supply(MoonWell), Missing(AncientProtector)]
    case TerranBrain => [Missing(Refinery), Missing(Barracks), Supply(SupplyDepot), Missing(Factory), Missing(MissileTurret)]
    case UndeadBrain =>
      [Missing(HauntedMine), Missing(Crypt), Supply(Ziggurat), Missing(Graveyard), Missing(TempleOfTheDamned)]
  }

  // ─── Groups and the view ──────────────────────────────────────────────────

  lemma HasGroup(v: View, t: TypeName)
    ensures Has(v, t) <==> |OfType(v.mine, t)| != 0
  {
    OfTypeMembers(v.mine, t);
    if Has(v, t) {
      var i :| 0 <= i < |v.mine| && v.mine[i].typeName == t;
      assert v.mine[i] in v.mine;
    }
    if |OfType(v.mine, t)| != 0 {
      assert OfType(v.mine, t)[0] in OfType(v.mine, t);
    }
  }

  /** How many of the first `n` are of one of two types, by where they stand. */
  lemma {:induction false} TwoTypes(entities: seq<Entity>, need: Need)
    requires need.Towers? && need.typeName != need.hardened
    ensures var n := |OfType(entities, need.typeName)| + |OfType(entities, need.hardened)|;
            && (n == 0 <==> forall i | 0 <= i < |entities| :: !IsTower(entities[i], need))
            && (n < 2 <==> !exists i, j | 0 <= i < j < |entities| :: IsTower(entities[i], need) && IsTower(entities[j], need))
  {
    if entities != [] {
      var m := |entities| - 1;
      var init := entities[..m];
      TwoTypes(init, need);
      assert forall i | 0 <= i < m :: init[i] == entities[i];
      if i, j :| 0 <= i < j < m && IsTower(init[i], need) && IsTower(init[j], need) {
        assert IsTower(entities[i], need) && IsTower(entities[j], need);
      }
      if IsTower(entities[m], need) {
        if i :| 0 <= i < m && IsTower(init[i], need) {
          assert IsTower(entities[i], need) && i < m;
        }
      }
    }
  }

  // ─── What is wanted ───────────────────────────────────────────────────────

  /** Each brain wants the first line of its list that is unmet, of the headroom its
      purse has left. */
  lemma HumanWantsInOrder(v: View, purse: Purse)
    ensures FirstUnmet(v, purse.supply, Needs(HumanBrain), HumanNext(v, purse))
  {
    hide OfType, Has;
    HasGroup(v, TrainingCamp);
    HasGroup(v, Blacksmith);
    HasGroup(v, Bunker);
    var needs := Needs(HumanBrain);
    assert needs[0] == Missing(TrainingCamp) && needs[1] == Missing(Blacksmith) && needs[2] == Supply(Farm);
    assert needs[3] == Missing(Bunker);
    var k := FirstAt(v, purse.supply, needs);
  }

  lemma OrcWantsInOrder(v: View, purse: Purse)
    ensures FirstUnmet(v, purse.supply, Needs(OrcBrain), OrcNext(v, purse))
  {
    hide OfType, Has;
    HasGroup(v, WarCamp);
    HasGroup(v, PigFarm);
    HasGroup(v, SiegeWorks);
    TwoTypes(v.mine, Towers(WatchTower, GuardTower));
    var needs := Needs(OrcBrain);
    assert needs[0] == Missing(WarCamp) && needs[1] == Missing(PigFarm) && needs[2] == Supply(PigFarm);
    assert needs[3] == Missing(SiegeWorks) && needs[4] == Towers(WatchTower, GuardTower);
    var k := FirstAt(v, purse.supply, needs);
  }

  lemma SwarmWantsInOrder(v: View, purse: Purse)
    ensures FirstUnmet(v, purse.supply, Needs(SwarmBrain), SwarmNext(v))
  {
    hide OfType, Has;
    HasGroup(v, SpawningPit);
    HasGroup(v, Tumor);
    var needs := Needs(SwarmBrain);
    assert needs[0] == Missing(SpawningPit) && needs[1] == Missing(Tumor);
    var k := FirstAt(v, purse.supply, needs);
  }

  lemma ConclaveWantsInOrder(v: View, purse: Purse)
    ensures FirstUnmet(v, purse.supply, Needs(ConclaveBrain), ConclaveNext(v, purse))
  {
    hide OfType, Has;
    HasGroup(v, Gateway);
    HasGroup(v, PhotonCannon);
    var needs := Needs(ConclaveBrain);
    assert needs[0] == Missing(Gateway) && needs[1] == Supply(Pylon) && needs[2] == Missing(PhotonCannon);
    var k := FirstAt(v, purse.supply, needs);
  }

  lemma ElvesWantInOrder(v: View, purse: Purse)
    ensures FirstUnmet(v, purse.supply, Needs(ElvesBrain), ElvesNext(v, purse))
  {
    hide OfType, Has;
    HasGroup(v, EntangledMine);
    HasGroup(v, AncientOfWar);
    HasGroup(v, AncientProtector);
    var needs := Needs(ElvesBrain);
    assert needs[0] == Missing(EntangledMine) && needs[1] == Missing(AncientOfWar) && needs[2] == Supply(MoonWell);
    assert needs[3] == Missing(AncientProtector);
    var k := FirstAt(v, purse.supply, needs);
  }

  /** But the terrans, whose missing refinery waits on a free seam, may send for a depot
      before it while headroom runs dry. */
  lemma TerransWantInOrder(c: Content, v: View, purse: Purse)
    requires TerranSiteReady(c, v, purse)
    ensures || FirstUnmet(v, purse.supply, Needs(TerranBrain), TerranSent(c, v, purse))
            || (TerranSent(c, v, purse) == Some(SupplyDepot) && !Has(v, Refinery) && purse.supply < 2)
  {
    hide OfType, Has, RefineryDue;
    HasGroup(v, Refinery);
    HasGroup(v, Barracks);
    HasGroup(v, Factory);
    HasGroup(v, MissileTurret);
    var needs := Needs(TerranBrain);
    assert needs[0] == Missing(Refinery) && needs[1] == Missing(Barracks) && needs[2] == Supply(SupplyDepot);
    assert needs[3] == Missing(Factory) && needs[4] == Missing(MissileTurret);
    var k := FirstAt(v, purse.supply, needs);
  }

  lemma UndeadWantInOrder(v: View, purse: Purse)
    ensures FirstUnmet(v, purse.supply, Needs(UndeadBrain), UndeadNext(v, purse))
  {
    hide OfType, Has;
    HasGroup(v, HauntedMine);
    HasGroup(v, Crypt);
    HasGroup(v, Graveyard);
    HasGroup(v, TempleOfTheDamned);
    var needs := Needs(UndeadBrain);
    assert needs[0] == Missing(HauntedMine) && needs[1] == Missing(Crypt) && needs[2] == Supply(Ziggurat);
    assert needs[3] == Missing(Graveyard) && needs[4] == Missing(TempleOfTheDamned);
    var k := FirstAt(v, purse.supply, needs);
  }

  /** Where a list's first unmet line stands, past its end when there is none. */
  lemma {:induction false} FirstAt(v: View, supply: int, needs: seq<Need>) returns (k: nat)
    ensures k <= |needs| && forall j | 0 <= j < k :: !Unmet(v, supply, needs[j])
    ensures k < |needs| ==> Unmet(v, supply, needs[k])
    ensures FirstUnmet(v, supply, needs, if k < |needs| then Some(needs[k].typeName) else None)
  {
    hide Unmet;
    k := 0;
    while k < |needs| && !Unmet(v, supply, needs[k])
      invariant k <= |needs| && forall j | 0 <= j < k :: !Unmet(v, supply, needs[j])
    {
      k := k + 1;
    }
  }

  // ─── What a plan takes ────────────────────────────────────────────────────

  function Workers(brain: Brain): TypeName {
    match brain
    case HumanBrain => Peasant
    case OrcBrain => Peon
    case SwarmBrain => Drone
    case ConclaveBrain => Probe
    case ElvesBrain => Wisp
    case TerranBrain => Scv
    case UndeadBrain => Acolyte
  }

  function Halls(brain: Brain): seq<TypeName> {
    match brain
    case HumanBrain => [TownHall]
    case OrcBrain => [GreatHall]
    case SwarmBrain => [Hive, HiveCocoon, Hatchery]
    case ConclaveBrain => [Nexus]
    case ElvesBrain => [TreeOfLife]
    case TerranBrain => [CommandCenter]
    case UndeadBrain => [Necropolis, HallsOfTheDead, BlackCitadel]
  }

  /** Whether a purse is the stockpile, or what some spending leaves of it, at most one
      supply of it trained. */
  ghost predicate DrawnFrom(v: View, purse: Purse) {
    && purse.gold <= OrZero(v.gold) && purse.wood <= OrZero(v.wood)
    && (purse.supply == v.provided - v.used || purse.supply == v.provided - v.used - 1)
  }

  lemma WorkersDraw(c: Content, v: View, hall: Option<Entity>, halls: seq<Entity>, workers: seq<Entity>, t: TypeName)
    ensures DrawnFrom(v, AfterWorkers(c, Stocked(v), hall, halls, workers, t))
  {
    hide WorkerDue, CostOf;
  }

  lemma FormDraws(c: Content, v: View, purse: Purse, units: seq<Entity>, of: TypeName, into: TypeName, standing: bool)
    requires DrawnFrom(v, purse)
    ensures DrawnFrom(v, AfterForm(c, purse, units, of, into, standing))
  {
    hide MayChange, MorphCostOf;
  }

  lemma UndeadDraw(c: Content, v: View)
    ensures DrawnFrom(v, UndeadPurse(c, v))
  {
    hide DrawnFrom, AfterForm, AfterWorkers, OfType, MayGrowHall, MayGrowTower, First;
    var halls := UndeadHalls(v);
    var kept := AfterWorkers(c, Stocked(v), First(halls), halls, OfType(v.mine, Acolyte), Acolyte);
    WorkersDraw(c, v, First(halls), halls, OfType(v.mine, Acolyte), Acolyte);
    FormDraws(c, v, kept, OfType(v.mine, Necropolis), Necropolis, HallsOfTheDead, true);
    FormDraws(c, v, AfterHall(c, v, kept), OfType(v.mine, Ziggurat), Ziggurat, SpiritTower, true);
  }

  lemma PricedWithin(c: Content, v: View, purse: Purse, t: TypeName)
    requires DrawnFrom(v, purse) && Affords(c, purse.gold, purse.wood, t)
    ensures InStock(c, v, t)
  {
    hide Amount, IsPriced;
    PricedExactly(c.price(t), Gold);
    PricedExactly(c.price(t), Wood);
  }

  /** Whether the stockpile holds a type's price. */
  ghost predicate InStock(c: Content, v: View, t: TypeName) {
    && (forall n: nat | IsPriced(c.price(t), Gold, n) :: Holds(v.gold, n))
    && (forall n: nat | IsPriced(c.price(t), Wood, n) :: Holds(v.wood, n))
  }

  /** Whether `t` is next for a brain that has `supply` left: the first unmet line of its
      list, or, for the terrans, a depot ahead of a refinery still missing. */
  ghost predicate IsNext(brain: Brain, v: View, supply: int, t: TypeName) {
    || FirstUnmet(v, supply, Needs(brain), Some(t))
    || (brain == TerranBrain && t == SupplyDepot && !Has(v, Refinery) && supply < 2)
  }

  /**
   Whatever a think has in plan is the next line of its list, of the headroom the
   worker line leaves; the stockpile holds its price; nothing of mine rises; and there
   is a hall of the brain's and a worker of it to build.
   */
  ghost predicate PlanStands(brain: Brain, c: Content, v: View, t: TypeName) {
    && (IsNext(brain, v, v.provided - v.used, t) || IsNext(brain, v, v.provided - v.used - 1, t))
    && InStock(c, v, t) && Has(v, Workers(brain))
    && (forall e | e in v.mine :: !e.rising)
    && exists k | 0 <= k < |Halls(brain)| :: Has(v, Halls(brain)[k])
  }

  lemma HallPlanStands(brain: Brain, c: Content, v: View, purse: Purse, t: TypeName)
    requires DrawnFrom(v, purse) && IsNext(brain, v, purse.supply, t) && Affords(c, purse.gold, purse.wood, t)
    requires !AnyRising(v.mine) && OfType(v.mine, Workers(brain)) != []
    requires exists k | 0 <= k < |Halls(brain)| :: Has(v, Halls(brain)[k])
    ensures PlanStands(brain, c, v, t)
  {
    hide IsNext, Affords, InStock, Has, OfType, Halls, Workers;
    PricedWithin(c, v, purse, t);
    HasGroup(v, Workers(brain));
  }

  lemma LarvaeDraw(c: Content, v: View)
    ensures DrawnFrom(v, SwarmPurse(c, v))
  {
    hide Overlording, Droning, MorphCostOf, OfType;
  }

  lemma HumanPlanStands(c: Content, v: View)
    requires HumanPlan(c, v).Some?
    ensures PlanStands(HumanBrain, c, v, HumanPlan(c, v).value)
  {
    hide OfType, FirstUnmet, Has, Affords, PlanStands, AnySite, DrawnFrom, AnyRising, HumanNext, AfterWorkers;
    var purse := HumanPurse(c, v);
    WorkersDraw(c, v, First(OfType(v.mine, TownHall)), OfType(v.mine, TownHall), OfType(v.mine, Peasant), Peasant);
    HumanWantsInOrder(v, purse);
    HasGroup(v, TownHall);
    assert Halls(HumanBrain)[0] == TownHall;
    HallPlanStands(HumanBrain, c, v, purse, HumanPlan(c, v).value);
  }

  lemma OrcPlanStands(c: Content, v: View)
    requires OrcPlan(c, v).Some?
    ensures PlanStands(OrcBrain, c, v, OrcPlan(c, v).value)
  {
    hide OfType, FirstUnmet, Has, Affords, PlanStands, AnySite, DrawnFrom, AnyRising, OrcNext, AfterWorkers;
    var purse := OrcPurse(c, v);
    WorkersDraw(c, v, First(OfType(v.mine, GreatHall)), OfType(v.mine, GreatHall), OfType(v.mine, Peon), Peon);
    OrcWantsInOrder(v, purse);
    HasGroup(v, GreatHall);
    assert Halls(OrcBrain)[0] == GreatHall;
    HallPlanStands(OrcBrain, c, v, purse, OrcPlan(c, v).value);
  }

  lemma SwarmPlanStands(c: Content, v: View)
    requires SwarmPlan(c, v).Some?
    ensures PlanStands(SwarmBrain, c, v, SwarmPlan(c, v).value)
  {
    hide OfType, FirstUnmet, Has, Affords, PlanStands, AnySite, DrawnFrom, AnyRising, SwarmNext, AfterLarvae;
    var purse := SwarmPurse(c, v);
    LarvaeDraw(c, v);
    SwarmWantsInOrder(v, purse);
    HasGroup(v, Hive);
    HasGroup(v, HiveCocoon);
    HasGroup(v, Hatchery);
    assert Halls(SwarmBrain)[0] == Hive && Halls(SwarmBrain)[1] == HiveCocoon && Halls(SwarmBrain)[2] == Hatchery;
    HallPlanStands(SwarmBrain, c, v, purse, SwarmPlan(c, v).value);
  }

  lemma ConclavePlanStands(c: Content, v: View)
    requires ConclavePlan(c, v).Some?
    ensures PlanStands(ConclaveBrain, c, v, ConclavePlan(c, v).value)
  {
    hide OfType, FirstUnmet, Has, Affords, PlanStands, AnySite, DrawnFrom, AnyRising, ConclaveNext, AfterWorkers;
    var purse := ConclavePurse(c, v);
    WorkersDraw(c, v, First(OfType(v.mine, Nexus)), OfType(v.mine, Nexus), OfType(v.mine, Probe), Probe);
    ConclaveWantsInOrder(v, purse);
    HasGroup(v, Nexus);
    assert Halls(ConclaveBrain)[0] == Nexus;
    HallPlanStands(ConclaveBrain, c, v, purse, ConclavePlan(c, v).value);
  }

  lemma ElvesPlanStands(c: Content, v: View)
    requires ElvesPlan(c, v).Some?
    ensures PlanStands(ElvesBrain, c, v, ElvesPlan(c, v).value)
  {
    hide OfType, FirstUnmet, Has, Affords, PlanStands, AnySite, DrawnFrom, AnyRising, ElvesWants, AfterWorkers;
    var purse := ElvesPurse(c, v);
    WorkersDraw(c, v, First(OfType(v.mine, TreeOfLife)), OfType(v.mine, TreeOfLife), OfType(v.mine, Wisp), Wisp);
    ElvesWantInOrder(v, purse);
    HasGroup(v, TreeOfLife);
    assert Halls(ElvesBrain)[0] == TreeOfLife;
    HallPlanStands(ElvesBrain, c, v, purse, ElvesPlan(c, v).value);
  }

  lemma AffordsMore(c: Content, purse: Purse, spent: TypeName, t: TypeName)
    ensures var left := AfterPaying(c, purse, spent);
            Affords(c, left.gold, left.wood, t) ==> Affords(c, purse.gold, purse.wood, t)
  {
  }

  lemma TerranPlanStands(c: Content, v: View)
    requires TerranPlan(c, v).Some?
    ensures PlanStands(TerranBrain, c, v, TerranPlan(c, v).value)
  {
    hide OfType, FirstUnmet, Has, Affords, PlanStands, AnySite, DrawnFrom, AnyRising, TerranWants, AfterPaying, AfterWorkers;
    var purse := TerranPurse(c, v);
    WorkersDraw(c, v, First(OfType(v.mine, CommandCenter)), OfType(v.mine, CommandCenter), OfType(v.mine, Scv), Scv);
    TerransWantInOrder(c, v, purse);
    AffordsMore(c, purse, Refinery, SupplyDepot);
    HasGroup(v, CommandCenter);
    assert Halls(TerranBrain)[0] == CommandCenter;
    HallPlanStands(TerranBrain, c, v, purse, TerranPlan(c, v).value);
  }

  lemma UndeadPlanStands(c: Content, v: View)
    requires UndeadPlan(c, v).Some?
    ensures PlanStands(UndeadBrain, c, v, UndeadPlan(c, v).value)
  {
    hide OfType, FirstUnmet, Has, Affords, PlanStands, AnySite, DrawnFrom, AnyRising, UndeadWants, AfterTower, UndeadPurse;
    var purse := UndeadPurse(c, v);
    UndeadDraw(c, v);
    UndeadWantInOrder(v, purse);
    HasGroup(v, Necropolis);
    HasGroup(v, HallsOfTheDead);
    HasGroup(v, BlackCitadel);
    assert Halls(UndeadBrain)[0] == Necropolis && Halls(UndeadBrain)[1] == HallsOfTheDead && Halls(UndeadBrain)[2] == BlackCitadel;
    HallPlanStands(UndeadBrain, c, v, purse, UndeadPlan(c, v).value);
  }

  /** So it is of every brain. */
  lemma {:induction false} PlansStand(brain: Brain, c: Content, v: View)
    requires Plan(brain, c, v).Some?
    ensures PlanStands(brain, c, v, Plan(brain, c, v).value)
  {
    hide HumanPlan, OrcPlan, SwarmPlan, ConclavePlan, ElvesPlan, TerranPlan, UndeadPlan, PlanStands;
    match brain
    case HumanBrain => HumanPlanStands(c, v);
    case OrcBrain => OrcPlanStands(c, v);
    case SwarmBrain => SwarmPlanStands(c, v);
    case ConclaveBrain => ConclavePlanStands(c, v);
    case ElvesBrain => ElvesPlanStands(c, v);
    case TerranBrain => TerranPlanStands(c, v);
    case UndeadBrain => UndeadPlanStands(c, v);
  }

  /** A tower is hardened only with every watch tower at rest and none hardened yet; a
      necropolis grows only once a crypt stands and no grown hall does, and a ziggurat
      changes only while there is no spirit tower. */
  lemma FormsChangeWhen(c: Content, v: View, purse: Purse)
    ensures AfterTowers(c, v, purse) != purse ==>
              !Has(v, GuardTower) && forall e | e in v.mine && e.typeName == WatchTower :: e.idle
    ensures AfterHall(c, v, purse) != purse ==>
              && !Has(v, HallsOfTheDead) && !Has(v, BlackCitadel)
              && exists e :: e in v.mine && e.typeName == Crypt && !e.rising
    ensures AfterTower(c, v, purse) != purse ==> !Has(v, SpiritTower) && Has(v, Ziggurat)
  {
    hide OfType, Has, AfterForm;
    HasGroup(v, GuardTower);
    HasGroup(v, HallsOfTheDead);
    HasGroup(v, BlackCitadel);
    HasGroup(v, SpiritTower);
    HasGroup(v, Ziggurat);
    OfTypeMembers(v.mine, WatchTower);
    OfTypeMembers(v.mine, Crypt);
    var towers := OfType(v.mine, WatchTower);
    forall e | e in towers && !AnyBusy(towers)
      ensures e.idle
    {
      var i :| 0 <= i < |towers| && towers[i] == e;
    }
    if AnyStanding(OfType(v.mine, Crypt)) {
      var i :| 0 <= i < |OfType(v.mine, Crypt)| && !OfType(v.mine, Crypt)[i].rising;
      assert OfType(v.mine, Crypt)[i] in OfType(v.mine, Crypt);
    }
  }
}
