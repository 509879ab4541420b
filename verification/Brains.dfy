/**
 The seven race brains, each one think long, and what every think of every
 brain stays within.
 */
module Brains {
  import opened Wrappers
  import opened AiView
  import opened AiChassis
  import opened AiEconomy
  import opened AiArmy

  type Groups = map<TypeName, seq<Entity>>

  /**
   What a think answers for. Spending stays within the stockpile and the
   headroom. One structure at most is sent for, the one the think has in `plan`,
   exactly when it has one and the deadline has passed; the deadline keeps pace.
   With the structure counted in the stockpile covers everything, unless one is
   sent for that what the other orders leave no longer `covers`.
   */
  ghost predicate Answers(c: Content, v: View, commands: seq<Command>, before: Option<nat>, after: Option<nat>,
                          plan: Option<TypeName>, covers: bool)
  {
    var sends := DeadlinePassed(v, before) && plan.Some?;
    && WithinStock(c, v, commands)
    && Structures(commands) == (if sends then [plan.value] else [])
    && Paced(v, before, after, |Structures(commands)|)
    && (WithinStockBuilding(c, v, commands) <==> (sends ==> covers))
  }

  /** What every think's orders are: given to entities of mine that may take them,
      and no body raised twice. */
  ghost predicate Proper(v: View, commands: seq<Command>) {
    Orderly(v, commands) && RaisesApart(commands)
  }

  // ─── From the account to the orders ───────────────────────────────────────

  /** What the books of a think answer for, no price being owed. */
  ghost predicate Accounts(c: Content, v: View, a: Account, before: Option<nat>, after: Option<nat>,
                           plan: Option<TypeName>, covers: bool)
  {
    var sends := DeadlinePassed(v, before) && plan.Some?;
    && Stands(c, v, a, None)
    && a.bill.sites == (if sends then multiset{plan.value} else multiset{})
    && Paced(v, before, after, if sends then 1 else 0)
    && (Covered(v, a) <==> (sends ==> covers))
    && a.bill.raised == multiset{} && a.supply <= Headroom(v)
    && (Headroom(v) < 0 ==> a.bill.growths == 0)
  }

  lemma AccountsOn(c: Content, v: View, a: Account, b: Account, before: Option<nat>, after: Option<nat>,
                   plan: Option<TypeName>, covers: bool)
    requires Accounts(c, v, a, before, after, plan, covers) && Keeps(c, v, a, b)
    ensures Accounts(c, v, b, before, after, plan, covers)
  {
    hide Stands, Covered, Paced, DeadlinePassed;
  }

  /** A brain that buys nothing between sending for a structure and putting its
      price aside covers everything. */
  lemma ReservingAccounts(c: Content, v: View, a: Account, b: Account, before: Option<nat>, after: Option<nat>,
                          wanted: Option<TypeName>, sent: Option<TypeName>, next: Option<TypeName>,
                          plan: Option<TypeName>)
    requires Keeps(c, v, Opening(v), a) && Sited(c, v, a, b, before, after, wanted, sent, plan.Some?)
    requires (sent.Some? ==> sent == next) && (plan.Some? ==> plan == next)
    ensures Accounts(c, v, PutAside(c, b, wanted), before, after, plan, true)
  {
    SitedPutAside(c, v, a, b, before, after, wanted, sent, plan.Some?);
  }

  lemma SitedSpends(c: Content, v: View, a: Account, b: Account, before: Option<nat>, after: Option<nat>,
                    wanted: Option<TypeName>, sent: Option<TypeName>, ready: bool, left: Purse)
    requires Sited(c, v, a, b, before, after, wanted, sent, ready) && Spent(v, a, left)
    ensures Spent(v, b, left)
  {
  }

  /** A brain that buys in between covers a structure sent for exactly when what its
      other orders leave of the stockpile does. */
  lemma BuyingAccounts(c: Content, v: View, a: Account, b: Account, d: Account, before: Option<nat>, after: Option<nat>,
                       wanted: Option<TypeName>, sent: Option<TypeName>, next: Option<TypeName>, plan: Option<TypeName>,
                       left: Purse, covers: bool)
    requires Keeps(c, v, Opening(v), a) && Sited(c, v, a, b, before, after, wanted, sent, plan.Some?)
    requires (sent.Some? ==> sent == next) && (plan.Some? ==> plan == next)
    requires KeepsOwing(c, v, b, d) && Spent(v, d, left)
    requires sent.Some? ==> (covers <==> Affords(c, left.gold, left.wood, sent.value))
    ensures Accounts(c, v, PutAside(c, d, wanted), before, after, plan, covers)
  {
    hide BuildClear, DeadlinePassed;
    var end := PutAside(c, d, wanted);
    assert Stands(c, v, b, wanted) && Stands(c, v, d, wanted);
    assert Stands(c, v, end, None);
    CoveredExactly(c, v, end, left, sent);
  }

  /** A think ends: its orders answer for what its books say. */
  lemma ThinkEnds(turn: Turn, a: Account, bodies: set<nat>, before: Option<nat>, after: Option<nat>,
                   plan: Option<TypeName>, covers: bool)
    requires Accounts(turn.content, turn.view, a, before, after, plan, covers)
    requires turn.Books() == Raising(a, bodies) && Orderly(turn.view, turn.commands)
    ensures Answers(turn.content, turn.view, turn.commands, before, after, plan, covers)
    ensures Proper(turn.view, turn.commands)
    ensures Headroom(turn.view) < 0 ==> forall cmd | cmd in turn.commands :: !Grows(cmd)
  {
    hide Orderly, RaisesApart, Paced, DeadlinePassed, Grows, Tally, Structures, WithinStock, WithinStockBuilding;
    BillTells(turn.content, turn.view, turn.commands);
    SitesTell(turn.content, turn.commands);
    assert forall id :: multiset(bodies)[id] <= 1;
    RaisesCounted(turn.content, turn.commands);
    GrowthsCounted(turn.content, turn.commands);
  }

  // ─── Groups ───────────────────────────────────────────────────────────────

  lemma {:induction false} OfTypeDistinct(entities: seq<Entity>, t: TypeName)
    requires DistinctIds(entities)
    ensures DistinctIds(OfType(entities, t))
  {
    if entities != [] {
      var init, last := entities[..|entities| - 1], entities[|entities| - 1];
      OfTypeDistinct(init, t);
      OfTypeMembers(init, t);
      assert forall e | e in init :: e.id != last.id;
    }
  }

  lemma GroupsOwn(v: View, groups: Groups)
    requires forall t :: Group(groups, t) == OfType(v.mine, t)
    ensures forall t :: Own(v, Group(groups, t))
  {
    forall t
      ensures Own(v, Group(groups, t))
    {
      OfTypeMembers(v.mine, t);
    }
  }

  lemma JoinedOwn(v: View, a: seq<Entity>, b: seq<Entity>)
    requires Own(v, a) && Own(v, b)
    ensures Own(v, a + b)
  {
  }

  lemma FirstOwn(v: View, group: seq<Entity>)
    requires Own(v, group)
    ensures First(group).Some? ==> First(group).value in v.mine
  {
  }

  lemma NoneOwn(v: View)
    ensures Own(v, [])
  {
  }

  predicate AnyBusy(entities: seq<Entity>) {
    exists i | 0 <= i < |entities| :: !entities[i].idle
  }

  /** The annex a terran building takes, and the cell beside it where it goes. */
  function DockOf(t: TypeName): Option<Annex> {
    match t
    case Factory => Some(Annex(3, 0, TechLab))
    case CommandCenter => Some(Annex(3, 0, ComsatStation))
    case _ => None
  }

  /** A factory's dock takes a lab and a command center's a station, three cells along. */
  lemma DocksTake(t: TypeName)
    ensures DockOf(t).Some? <==> t == Factory || t == CommandCenter
    ensures DockOf(t).Some? ==> DockOf(t).value == Annex(3, 0, if t == Factory then TechLab else ComsatStation)
  {
  }

  /** What a change of form some unit takes leaves of a purse. */
  ghost function AfterForm(c: Content, purse: Purse, units: seq<Entity>, of: TypeName, into: TypeName, standing: bool): Purse {
    if exists u :: u in units && MayChange(c, purse, u, into, standing) then AfterMorph(c, purse, of, into) else purse
  }

  // ─── Humans ───────────────────────────────────────────────────────────────

  /** The structure the humans want next. */
  function HumanWants(camps: seq<Entity>, smithies: seq<Entity>, bunkers: seq<Entity>, supply: int): Option<TypeName> {
    if |camps| == 0 then Some(TrainingCamp)
    else if |smithies| == 0 then Some(Blacksmith)
    else if supply < 2 then Some(Farm)
    else if |bunkers| == 0 then Some(Bunker)
    else None
  }

  function HumanNext(v: View, purse: Purse): Option<TypeName> {
    HumanWants(OfType(v.mine, TrainingCamp), OfType(v.mine, Blacksmith), OfType(v.mine, Bunker), purse.supply)
  }

  /** What the humans' worker line leaves of the stockpile. */
  function HumanPurse(c: Content, v: View): Purse {
    var halls := OfType(v.mine, TownHall);
    AfterWorkers(c, Stocked(v), First(halls), halls, OfType(v.mine, Peasant), Peasant)
  }

  ghost predicate HumanSiteReady(c: Content, v: View, purse: Purse) {
    SiteReady(c, v, purse, First(OfType(v.mine, TownHall)), OfType(v.mine, Peasant), HumanNext(v, purse), None)
  }

  /** The structure a human think has in plan: the next it wants, when, the deadline
      aside, it would be sent for. */
  ghost function HumanPlan(c: Content, v: View): Option<TypeName> {
    var purse := HumanPurse(c, v);
    if HumanSiteReady(c, v, purse) then HumanNext(v, purse) else None
  }

  /** What is left once the weapons are paid for, if they are bought. */
  function HumanLeft(c: Content, v: View): Purse {
    AfterResearch(c, v, HumanPurse(c, v), IronWeapons, OfType(v.mine, Blacksmith))
  }

  /** Whether that still covers the structure wanted. */
  ghost predicate HumanCovers(c: Content, v: View) {
    var wanted, left := HumanNext(v, HumanPurse(c, v)), HumanLeft(c, v);
    wanted.Some? ==> Affords(c, left.gold, left.wood, wanted.value)
  }

  lemma HumanTerms(c: Content, v: View)
    ensures var halls, purse, left := OfType(v.mine, TownHall), HumanPurse(c, v), HumanLeft(c, v);
            && purse == AfterWorkers(c, Stocked(v), First(halls), halls, OfType(v.mine, Peasant), Peasant)
            && left == AfterResearch(c, v, purse, IronWeapons, OfType(v.mine, Blacksmith))
            && (HumanPlan(c, v).Some? <==> HumanSiteReady(c, v, purse)) && (HumanPlan(c, v).Some? ==> HumanPlan(c, v) == HumanNext(v, purse))
            && (HumanNext(v, purse).Some? ==> (HumanCovers(c, v) <==> Affords(c, left.gold, left.wood, HumanNext(v, purse).value)))
  {
  }

  method HumanSite(turn: Turn, state: AiState, groups: Groups)
    returns (builderId: Option<nat>, wanted: Option<TypeName>, ghost sent: Option<TypeName>)
    requires state.Valid() && forall t :: Group(groups, t) == OfType(turn.view.mine, t)
    modifies turn, state
    ensures state.Valid() && turn.Left() == old(turn.Left())
    ensures wanted == HumanNext(turn.view, old(turn.Left())) && (sent.Some? ==> sent == wanted)
    ensures Sited(turn.content, turn.view, old(turn.Books()), turn.Books(), old(state.buildDeadline), state.buildDeadline,
                  wanted, sent, HumanSiteReady(turn.content, turn.view, old(turn.Left())))
    ensures Own(turn.view, Group(groups, Peasant)) && Orderly(turn.view, old(turn.commands)) ==> Orderly(turn.view, turn.commands)
  {
    hide Sited, SiteReady, OfType, Group, Own, Orderly, HumanWants, Turn.Books, Turn.AtNextSite, Turn.NextSite;
    var hall, workers := First(Group(groups, TownHall)), Group(groups, Peasant);
    var camps, smithies, bunkers := Group(groups, TrainingCamp), Group(groups, Blacksmith), Group(groups, Bunker);
    wanted := HumanWants(camps, smithies, bunkers, turn.supply);
    builderId := turn.BuildNext(state, workers, hall, wanted, None);
    sent := if builderId.Some? then wanted else None;
  }

  /** The worker line, the structure wanted, the harvesters, the weapons; the
      structure's price put aside last. */
  method HumanEconomy(turn: Turn, state: AiState, groups: Groups)
    requires state.Valid() && DistinctIds(turn.view.mine)
    requires forall t :: Group(groups, t) == OfType(turn.view.mine, t)
    requires turn.Books() == Opening(turn.view) && turn.Left() == Stocked(turn.view)
    requires Spent(turn.view, turn.Books(), turn.Left()) && Orderly(turn.view, turn.commands)
    modifies turn, state
    ensures state.Valid() && Orderly(turn.view, turn.commands)
    ensures Accounts(turn.content, turn.view, turn.Books(), old(state.buildDeadline), state.buildDeadline,
                     HumanPlan(turn.content, turn.view), HumanCovers(turn.content, turn.view))
  {
    hide *;
    ghost var c, v, before := turn.content, turn.view, state.buildDeadline;
    GroupsOwn(v, groups);
    HumanTerms(c, v);
    var halls, workers, smithies := Group(groups, TownHall), Group(groups, Peasant), Group(groups, Blacksmith);
    var hall := First(halls);
    FirstOwn(v, halls);
    OfTypeDistinct(v.mine, Peasant);

    turn.KeepWorkers(hall, halls, workers, Peasant);
    ghost var kept := turn.Books();
    var builderId, wanted, sent := HumanSite(turn, state, groups);
    ghost var sited, after := turn.Books(), state.buildDeadline;
    SitedSpends(c, v, kept, sited, before, after, wanted, sent, HumanPlan(c, v).Some?, HumanPurse(c, v));
    var needWood := (wanted.Some? && turn.wood < CostOf(turn.content, wanted.value, Wood))
                    || (IronWeapons !in turn.view.researched && turn.wood < 50);
    ghost var errands := AssignHarvesters(turn, state, workers, needWood, builderId);

    turn.BuyResearch(IronWeapons, smithies);
    ghost var bought := turn.Books();
    turn.Reserve(wanted);
    BuyingAccounts(c, v, kept, sited, bought, before, after, wanted, sent, HumanNext(v, HumanPurse(c, v)),
                   HumanPlan(c, v), HumanLeft(c, v), HumanCovers(c, v));
  }

  /** A medic to four archers, two mortars by the forge, a manned bunker, and the wave. */
  method HumanArmy(turn: Turn, groups: Groups)
    requires forall t :: Group(groups, t) == OfType(turn.view.mine, t)
    modifies turn
    ensures Keeps(turn.content, turn.view, old(turn.Books()), turn.Books())
    ensures Orderly(turn.view, old(turn.commands)) ==> Orderly(turn.view, turn.commands)
  {
    hide *;
    GroupsOwn(turn.view, groups);
    var camps, smithies, bunkers := Group(groups, TrainingCamp), Group(groups, Blacksmith), Group(groups, Bunker);
    var archers, mortars, medics := Group(groups, Archer), Group(groups, Mortar), Group(groups, Medic);
    var hall := First(Group(groups, TownHall));
    JoinedOwn(turn.view, archers, mortars);
    var trained :=
      if (|medics| + CountQueued(camps, Medic)) * 4 < |archers| + CountQueued(camps, Archer) then Medic
      else if AnyStanding(smithies) && |mortars| + CountQueued(camps, Mortar) < 2 then Mortar
      else Archer;
    var _ := turn.TrainFirst(camps, trained);

    ManBunker(turn, bunkers, archers);
    ghost var roused := CastNearFoe(turn, archers, (a: Entity) => OrZero(a.energy) >= 30, BattleFocus, 7);
    var marched := AttackWave(turn, archers + mortars, medics, hall);
    if marched {
      BeatDrums(turn);
    }
  }

  /** Peasants, camps, the forge and its upgrade, mortars, a manned bunker. */
  method HumanThink(content: Content, view: View, state: AiState) returns (commands: seq<Command>)
    requires state.Valid() && DistinctIds(view.mine)
    modifies state
    ensures state.Valid() && Proper(view, commands)
    ensures Answers(content, view, commands, old(state.buildDeadline), state.buildDeadline, HumanPlan(content, view), HumanCovers(content, view))
  {
    hide *;
    ghost var before := state.buildDeadline;
    var turn := new Turn(content, view);
    var groups := Muster(view);
    HumanEconomy(turn, state, groups);
    ghost var economy := turn.Books();
    HumanArmy(turn, groups);
    AccountsOn(content, view, economy, turn.Books(), before, state.buildDeadline, HumanPlan(content, view), HumanCovers(content, view));
    commands := turn.commands;
    RaisingNone(turn.Books());
    ThinkEnds(turn, turn.Books(), {}, before, state.buildDeadline, HumanPlan(content, view), HumanCovers(content, view));
  }

  // ─── Orcs ─────────────────────────────────────────────────────────────────

  /** The structure the orcs want next. */
  function OrcWants(camps: seq<Entity>, farms: seq<Entity>, works: seq<Entity>, towers: nat, supply: int): Option<TypeName> {
    if |camps| == 0 then Some(WarCamp)
    else if |farms| == 0 then Some(PigFarm)
    else if supply < 2 then Some(PigFarm)
    else if |works| == 0 then Some(SiegeWorks)
    else if towers < 2 then Some(WatchTower)
    else None
  }

  function OrcNext(v: View, purse: Purse): Option<TypeName> {
    OrcWants(OfType(v.mine, WarCamp), OfType(v.mine, PigFarm), OfType(v.mine, SiegeWorks),
             |OfType(v.mine, WatchTower)| + |OfType(v.mine, GuardTower)|, purse.supply)
  }

  /** What the orcs' worker line leaves of the stockpile. */
  function OrcPurse(c: Content, v: View): Purse {
    var halls := OfType(v.mine, GreatHall);
    AfterWorkers(c, Stocked(v), First(halls), halls, OfType(v.mine, Peon), Peon)
  }

  ghost predicate OrcSiteReady(c: Content, v: View, purse: Purse) {
    SiteReady(c, v, purse, First(OfType(v.mine, GreatHall)), OfType(v.mine, Peon), OrcNext(v, purse), None)
  }

  /** The structure an orc think has in plan: the next it wants, when, the deadline
      aside, it would be sent for. */
  ghost function OrcPlan(c: Content, v: View): Option<TypeName> {
    var purse := OrcPurse(c, v);
    if OrcSiteReady(c, v, purse) then OrcNext(v, purse) else None
  }

  predicate MayHarden(watchTowers: seq<Entity>, guardTowers: seq<Entity>) {
    |watchTowers| >= 2 && |guardTowers| == 0 && !AnyBusy(watchTowers)
  }

  /** What is left once a tower is hardened, if one is. */
  ghost function AfterTowers(c: Content, v: View, purse: Purse): Purse {
    var towers := OfType(v.mine, WatchTower);
    if MayHarden(towers, OfType(v.mine, GuardTower)) then AfterForm(c, purse, towers, WatchTower, GuardTower, true) else purse
  }

  /** What is left once a tower is hardened and the ritual paid for, if they are. */
  ghost function OrcLeft(c: Content, v: View): Purse {
    AfterResearch(c, v, AfterTowers(c, v, OrcPurse(c, v)), FrenzyRitual, OfType(v.mine, WarCamp))
  }

  /** Whether that still covers the structure wanted. */
  ghost predicate OrcCovers(c: Content, v: View) {
    var wanted, left := OrcNext(v, OrcPurse(c, v)), OrcLeft(c, v);
    wanted.Some? ==> Affords(c, left.gold, left.wood, wanted.value)
  }

  lemma OrcTerms(c: Content, v: View)
    ensures var halls, purse, left := OfType(v.mine, GreatHall), OrcPurse(c, v), OrcLeft(c, v);
            && purse == AfterWorkers(c, Stocked(v), First(halls), halls, OfType(v.mine, Peon), Peon)
            && left == AfterResearch(c, v, AfterTowers(c, v, purse), FrenzyRitual, OfType(v.mine, WarCamp))
            && (OrcPlan(c, v).Some? <==> OrcSiteReady(c, v, purse)) && (OrcPlan(c, v).Some? ==> OrcPlan(c, v) == OrcNext(v, purse))
            && (OrcNext(v, purse).Some? ==> (OrcCovers(c, v) <==> Affords(c, left.gold, left.wood, OrcNext(v, purse).value)))
  {
  }

  method OrcSite(turn: Turn, state: AiState, groups: Groups)
    returns (builderId: Option<nat>, wanted: Option<TypeName>, ghost sent: Option<TypeName>)
    requires state.Valid() && forall t :: Group(groups, t) == OfType(turn.view.mine, t)
    modifies turn, state
    ensures state.Valid() && turn.Left() == old(turn.Left())
    ensures wanted == OrcNext(turn.view, old(turn.Left())) && (sent.Some? ==> sent == wanted)
    ensures Sited(turn.content, turn.view, old(turn.Books()), turn.Books(), old(state.buildDeadline), state.buildDeadline,
                  wanted, sent, OrcSiteReady(turn.content, turn.view, old(turn.Left())))
    ensures Own(turn.view, Group(groups, Peon)) && Orderly(turn.view, old(turn.commands)) ==> Orderly(turn.view, turn.commands)
  {
    hide Sited, SiteReady, OfType, Group, Own, Orderly, OrcWants, Turn.Books, Turn.AtNextSite, Turn.NextSite;
    var hall, workers := First(Group(groups, GreatHall)), Group(groups, Peon);
    var camps, farms, works := Group(groups, WarCamp), Group(groups, PigFarm), Group(groups, SiegeWorks);
    var watchTowers, guardTowers := Group(groups, WatchTower), Group(groups, GuardTower);
    wanted := OrcWants(camps, farms, works, |watchTowers| + |guardTowers|, turn.supply);
    builderId := turn.BuildNext(state, workers, hall, wanted, None);
    sent := if builderId.Some? then wanted else None;
  }

  /** One watch tower of several at rest becomes a guard tower, if there is none yet. */
  method OrcTowers(turn: Turn, groups: Groups)
    requires forall t :: Group(groups, t) == OfType(turn.view.mine, t)
    modifies turn
    ensures KeepsOwing(turn.content, turn.view, old(turn.Books()), turn.Books())
    ensures turn.Left() == AfterTowers(turn.content, turn.view, old(turn.Left()))
    ensures Spent(turn.view, old(turn.Books()), old(turn.Left())) ==> Spent(turn.view, turn.Books(), turn.Left())
    ensures Orderly(turn.view, old(turn.commands)) ==> Orderly(turn.view, turn.commands)
  {
    hide Keeps, KeepsOwing, Spent, Orderly, Own, OfType, Group, AnyBusy, MayChange, AfterMorph, Plus, Entry, Turn.Books, Turn.Left;
    KeepsItself(turn.content, turn.view, turn.Books());
    GroupsOwn(turn.view, groups);
    var watchTowers, guardTowers := Group(groups, WatchTower), Group(groups, GuardTower);
    if |watchTowers| >= 2 && |guardTowers| == 0 && !AnyBusy(watchTowers) {
      OfTypeMembers(turn.view.mine, WatchTower);
      var _ := turn.MorphFirst(watchTowers, WatchTower, GuardTower, true);
    }
  }

  /** The worker line, the structure wanted, a hardened tower, the harvesters, the
      ritual; the structure's price put aside last. */
  method OrcEconomy(turn: Turn, state: AiState, groups: Groups)
    requires state.Valid() && DistinctIds(turn.view.mine)
    requires forall t :: Group(groups, t) == OfType(turn.view.mine, t)
    requires turn.Books() == Opening(turn.view) && turn.Left() == Stocked(turn.view)
    requires Spent(turn.view, turn.Books(), turn.Left()) && Orderly(turn.view, turn.commands)
    modifies turn, state
    ensures state.Valid() && Orderly(turn.view, turn.commands)
    ensures Accounts(turn.content, turn.view, turn.Books(), old(state.buildDeadline), state.buildDeadline,
                     OrcPlan(turn.content, turn.view), OrcCovers(turn.content, turn.view))
  {
    hide *;
    ghost var c, v, before := turn.content, turn.view, state.buildDeadline;
    GroupsOwn(v, groups);
    OrcTerms(c, v);
    var halls, workers, camps := Group(groups, GreatHall), Group(groups, Peon), Group(groups, WarCamp);
    var works, hall := Group(groups, SiegeWorks), First(halls);
    FirstOwn(v, halls);
    OfTypeDistinct(v.mine, Peon);

    turn.KeepWorkers(hall, halls, workers, Peon);
    ghost var kept := turn.Books();
    var builderId, wanted, sent := OrcSite(turn, state, groups);
    ghost var sited, after := turn.Books(), state.buildDeadline;
    SitedSpends(c, v, kept, sited, before, after, wanted, sent, OrcPlan(c, v).Some?, OrcPurse(c, v));

    OrcTowers(turn, groups);
    ghost var hardened := turn.Books();
    var needWood := (wanted.Some? && turn.wood < CostOf(turn.content, wanted.value, Wood))
                    || (|works| > 0 && turn.wood < CostOf(turn.content, WarWagon, Wood));
    ghost var errands := AssignHarvesters(turn, state, workers, needWood, builderId);

    turn.BuyResearch(FrenzyRitual, camps);
    ghost var bought := turn.Books();
    KeepsOwingOn(c, v, sited, hardened, bought);
    turn.Reserve(wanted);
    BuyingAccounts(c, v, kept, sited, bought, before, after, wanted, sent, OrcNext(v, OrcPurse(c, v)),
                   OrcPlan(c, v), OrcLeft(c, v), OrcCovers(c, v));
  }

  /** Wagons and their price held back, grunts and shamans. */
  method OrcTraining(turn: Turn, groups: Groups)
    requires forall t :: Group(groups, t) == OfType(turn.view.mine, t)
    modifies turn
    ensures Keeps(turn.content, turn.view, old(turn.Books()), turn.Books())
    ensures Orderly(turn.view, old(turn.commands)) ==> Orderly(turn.view, turn.commands)
  {
    hide *;
    ghost var c, v, start := turn.content, turn.view, turn.Books();
    GroupsOwn(v, groups);
    KeepsItself(c, v, start);
    var camps, works := Group(groups, WarCamp), Group(groups, SiegeWorks);
    var grunts, shamans, wagons := Group(groups, Grunt), Group(groups, Shaman), Group(groups, WarWagon);
    var wagon: Option<TypeName> := None;
    if AnyStanding(works) && |wagons| + CountQueued(works, WarWagon) < 2 {
      wagon := Some(WarWagon);
      var placed := turn.TrainFirst(works, WarWagon);
      if placed {
        wagon := None;
      }
    }
    ghost var rolled := turn.Books();
    turn.Reserve(wagon);
    ghost var reserved := turn.Books();
    KeepsOn(c, v, start, rolled, reserved);

    var ritualDone := FrenzyRitual in turn.view.researched;
    var trained := if ritualDone && (|shamans| + CountQueued(camps, Shaman)) * 4 < |grunts| + CountQueued(camps, Grunt)
                   then Shaman else Grunt;
    var _ := turn.TrainFirst(camps, trained);
    KeepsOn(c, v, start, reserved, turn.Books());
  }

  /** What the orc army does: shelters, rites, mends and marches. */
  method OrcArmy(turn: Turn, groups: Groups)
    requires forall t :: Group(groups, t) == OfType(turn.view.mine, t)
    modifies turn
    ensures Keeps(turn.content, turn.view, old(turn.Books()), turn.Books())
    ensures Orderly(turn.view, old(turn.commands)) ==> Orderly(turn.view, turn.commands)
  {
    hide *;
    GroupsOwn(turn.view, groups);
    KeepsItself(turn.content, turn.view, turn.Books());
    var workers, farms, grunts := Group(groups, Peon), Group(groups, PigFarm), Group(groups, Grunt);
    var shamans, wagons := Group(groups, Shaman), Group(groups, WarWagon);
    var hall := First(Group(groups, GreatHall));
    JoinedOwn(turn.view, shamans, wagons);
    ghost var sheltered := HideWorkers(turn, workers, farms);
    ghost var released := ReleaseWorkers(turn, farms);
    if FrenzyRitual in turn.view.researched {
      ghost var enraged := CastNearFoe(turn, grunts, (g: Entity) => OrZero(g.health) > 20, BloodRite, 5);
    }
    ghost var mended := Mend(turn, shamans);
    var marched := AttackWave(turn, grunts, shamans + wagons, hall);
    if marched {
      BeatDrums(turn);
    }
  }

  /** Peons, the war camp and its ritual, wagons, watch towers, a sheltered workforce. */
  method OrcThink(content: Content, view: View, state: AiState) returns (commands: seq<Command>)
    requires state.Valid() && DistinctIds(view.mine)
    modifies state
    ensures state.Valid() && Proper(view, commands)
    ensures Answers(content, view, commands, old(state.buildDeadline), state.buildDeadline, OrcPlan(content, view), OrcCovers(content, view))
  {
    hide *;
    ghost var before := state.buildDeadline;
    var turn := new Turn(content, view);
    var groups := Muster(view);
    OrcEconomy(turn, state, groups);
    ghost var economy := turn.Books();
    OrcTraining(turn, groups);
    ghost var training := turn.Books();
    OrcArmy(turn, groups);
    KeepsOn(content, view, economy, training, turn.Books());
    AccountsOn(content, view, economy, turn.Books(), before, state.buildDeadline, OrcPlan(content, view), OrcCovers(content, view));
    commands := turn.commands;
    RaisingNone(turn.Books());
    ThinkEnds(turn, turn.Books(), {}, before, state.buildDeadline, OrcPlan(content, view), OrcCovers(content, view));
  }

  // ─── The swarm ────────────────────────────────────────────────────────────

  /** The structure the swarm wants next. */
  function SwarmWants(pits: seq<Entity>, tumors: seq<Entity>): Option<TypeName> {
    if |pits| == 0 then Some(SpawningPit)
    else if |tumors| == 0 then Some(Tumor)
    else None
  }

  function SwarmNext(v: View): Option<TypeName> {
    SwarmWants(OfType(v.mine, SpawningPit), OfType(v.mine, Tumor))
  }

  /** The larva that grows into an overlord, when headroom runs dry. */
  function Overlording(c: Content, purse: Purse, larvae: seq<Entity>, eggs: nat): Option<Entity> {
    if purse.supply < 2 && eggs == 0 then Growing(c, purse, larvae, {}, Overlord) else None
  }

  /** An overlord grows exactly when headroom runs dry, but not below nothing, no egg
      is on the way, and some idle larva in sight can pay. */
  lemma {:induction false} OverlordingExactly(c: Content, purse: Purse, larvae: seq<Entity>, eggs: nat)
    ensures Overlording(c, purse, larvae, eggs).Some?
            <==> 0 <= purse.supply < 2 && eggs == 0 && exists l :: l in larvae && TakesForm(c, purse, l, Overlord)
  {
    GrowingExactly(c, purse, larvae, {}, Overlord);
    assert forall l :: MayGrow(c, purse, l, {}, Overlord) <==> TakesForm(c, purse, l, Overlord);
  }

  /** The larva that grows into a drone, while they are short. */
  function Droning(c: Content, purse: Purse, larvae: seq<Entity>, taken: set<nat>, young: nat): Option<Entity> {
    if young < MAX_WORKERS then Growing(c, purse, larvae, taken, Drone) else None
  }

  /** What the headroom and the worker line leave of a purse. */
  function AfterLarvae(c: Content, purse: Purse, larvae: seq<Entity>, eggs: nat, drones: nat): Purse {
    var first := Overlording(c, purse, larvae, eggs);
    var left := if first.Some? then AfterGrowth(c, purse, Overlord) else purse;
    var taken := if first.Some? then {first.value.id} else {};
    if Droning(c, left, larvae, taken, drones + eggs).Some? then AfterGrowth(c, left, Drone) else left
  }

  /** The orders that grow a larva. */
  function Growth(larva: Option<Entity>, into: TypeName): seq<Command> {
    if larva.None? then [] else [Select(larva.value.id), Morph(Larva, into)]
  }

  /** What the two order: headroom first, then the worker line. */
  function LarvaOrders(c: Content, purse: Purse, larvae: seq<Entity>, eggs: nat, drones: nat): seq<Command> {
    var first := Overlording(c, purse, larvae, eggs);
    var left := if first.Some? then AfterGrowth(c, purse, Overlord) else purse;
    var taken := if first.Some? then {first.value.id} else {};
    Growth(first, Overlord) + Growth(Droning(c, left, larvae, taken, drones + eggs), Drone)
  }

  function SwarmPurse(c: Content, v: View): Purse {
    AfterLarvae(c, Stocked(v), OfType(v.mine, Larva), |OfType(v.mine, Egg)|, |OfType(v.mine, Drone)|)
  }

  function SwarmHalls(v: View): seq<Entity> {
    OfType(v.mine, Hive) + OfType(v.mine, HiveCocoon) + OfType(v.mine, Hatchery)
  }

  ghost predicate SwarmSiteReady(c: Content, v: View, purse: Purse) {
    SiteReady(c, v, purse, First(SwarmHalls(v)), OfType(v.mine, Drone), SwarmNext(v), None)
  }

  /** The structure a swarm think has in plan: the next it wants, when, the deadline
      aside, it would be sent for. */
  ghost function SwarmPlan(c: Content, v: View): Option<TypeName> {
    var purse := SwarmPurse(c, v);
    if SwarmSiteReady(c, v, purse) then SwarmNext(v) else None
  }

  lemma SwarmTerms(c: Content, v: View)
    ensures SwarmPurse(c, v) == AfterLarvae(c, Stocked(v), OfType(v.mine, Larva), |OfType(v.mine, Egg)|, |OfType(v.mine, Drone)|)
    ensures SwarmPlan(c, v).Some? <==> SwarmSiteReady(c, v, SwarmPurse(c, v))
    ensures SwarmPlan(c, v).Some? ==> SwarmPlan(c, v) == SwarmNext(v)
    ensures SwarmHalls(v) == OfType(v.mine, Hive) + OfType(v.mine, HiveCocoon) + OfType(v.mine, Hatchery)
  {
  }

  /** A larva becomes an overlord when fewer than two supply are left and nothing hatches. */
  method GrowOverlord(turn: Turn, larvae: seq<Entity>, eggs: nat) returns (taken: set<nat>)
    requires forall l | l in larvae :: l.typeName == Larva
    modifies turn
    ensures Keeps(turn.content, turn.view, old(turn.Books()), turn.Books())
    ensures turn.commands == old(turn.commands) + Growth(Overlording(turn.content, old(turn.Left()), larvae, eggs), Overlord)
    ensures match Overlording(turn.content, old(turn.Left()), larvae, eggs)
            case None => taken == {} && turn.Left() == old(turn.Left())
            case Some(larva) => taken == {larva.id} && turn.Left() == AfterGrowth(turn.content, old(turn.Left()), Overlord)
    ensures Own(turn.view, larvae) && Orderly(turn.view, old(turn.commands)) ==> Orderly(turn.view, turn.commands)
  {
    hide Keeps, Growing, AfterGrowth, Own, Orderly, Turn.Books;
    KeepsItself(turn.content, turn.view, turn.Books());
    taken := {};
    if turn.supply < 2 && eggs == 0 {
      taken := turn.Grow(larvae, taken, Overlord, 0);
    }
  }

  /** One becomes a drone while drones are short, every egg taken to be one on the way. */
  method GrowDrone(turn: Turn, larvae: seq<Entity>, taken: set<nat>, young: nat) returns (nowTaken: set<nat>)
    requires forall l | l in larvae :: l.typeName == Larva
    modifies turn
    ensures Keeps(turn.content, turn.view, old(turn.Books()), turn.Books())
    ensures turn.commands == old(turn.commands) + Growth(Droning(turn.content, old(turn.Left()), larvae, taken, young), Drone)
    ensures match Droning(turn.content, old(turn.Left()), larvae, taken, young)
            case None => nowTaken == taken && turn.Left() == old(turn.Left())
            case Some(larva) => nowTaken == taken + {larva.id} && turn.Left() == AfterGrowth(turn.content, old(turn.Left()), Drone)
    ensures Own(turn.view, larvae) && Orderly(turn.view, old(turn.commands)) ==> Orderly(turn.view, turn.commands)
  {
    hide Keeps, Growing, AfterGrowth, Own, Orderly, Turn.Books, Turn.Left;
    KeepsItself(turn.content, turn.view, turn.Books());
    nowTaken := taken;
    if young < MAX_WORKERS {
      nowTaken := turn.Grow(larvae, taken, Drone, 1);
    }
  }

  /** Headroom first, then the worker line. */
  method SwarmLarvae(turn: Turn, groups: Groups) returns (taken: set<nat>)
    requires forall t :: Group(groups, t) == OfType(turn.view.mine, t)
    modifies turn
    ensures Keeps(turn.content, turn.view, old(turn.Books()), turn.Books())
    ensures turn.Left() == AfterLarvae(turn.content, old(turn.Left()), OfType(turn.view.mine, Larva),
                                       |OfType(turn.view.mine, Egg)|, |OfType(turn.view.mine, Drone)|)
    ensures turn.commands == old(turn.commands) + LarvaOrders(turn.content, old(turn.Left()), OfType(turn.view.mine, Larva),
                                                              |OfType(turn.view.mine, Egg)|, |OfType(turn.view.mine, Drone)|)
    ensures Orderly(turn.view, old(turn.commands)) ==> Orderly(turn.view, turn.commands)
  {
    hide Keeps, Growing, Overlording, Droning, AfterGrowth, Growth, Own, Orderly, OfType, Group, Turn.Books, Turn.Left;
    ghost var start := turn.Books();
    GroupsOwn(turn.view, groups);
    OfTypeMembers(turn.view.mine, Larva);
    var larvae, eggs, drones := Group(groups, Larva), Group(groups, Egg), Group(groups, Drone);
    taken := GrowOverlord(turn, larvae, |eggs|);
    ghost var grown := turn.Books();
    taken := GrowDrone(turn, larvae, taken, |drones| + |eggs|);
    KeepsOn(turn.content, turn.view, start, grown, turn.Books());
  }

  method SwarmSite(turn: Turn, state: AiState, groups: Groups)
    returns (builderId: Option<nat>, wanted: Option<TypeName>, ghost sent: Option<TypeName>)
    requires state.Valid() && forall t :: Group(groups, t) == OfType(turn.view.mine, t)
    modifies turn, state
    ensures state.Valid() && turn.Left() == old(turn.Left())
    ensures wanted == SwarmNext(turn.view) && (sent.Some? ==> sent == wanted)
    ensures Sited(turn.content, turn.view, old(turn.Books()), turn.Books(), old(state.buildDeadline), state.buildDeadline,
                  wanted, sent, SwarmSiteReady(turn.content, turn.view, old(turn.Left())))
    ensures Own(turn.view, Group(groups, Drone)) && Orderly(turn.view, old(turn.commands)) ==> Orderly(turn.view, turn.commands)
  {
    hide Sited, SiteReady, OfType, Group, Own, Orderly, SwarmWants, Turn.Books, Turn.AtNextSite, Turn.NextSite;
    var hatcheries, hiveCocoons, hives := Group(groups, Hatchery), Group(groups, HiveCocoon), Group(groups, Hive);
    var hall, workers := First(hives + hiveCocoons + hatcheries), Group(groups, Drone);
    var pits, tumors := Group(groups, SpawningPit), Group(groups, Tumor);
    wanted := SwarmWants(pits, tumors);
    builderId := turn.BuildNext(state, workers, hall, wanted, None);
    sent := if builderId.Some? then wanted else None;
  }

  /** Larvae, the structure wanted and its price put aside, the harvesters between. */
  method SwarmEconomy(turn: Turn, state: AiState, groups: Groups) returns (taken: set<nat>)
    requires state.Valid() && DistinctIds(turn.view.mine)
    requires forall t :: Group(groups, t) == OfType(turn.view.mine, t)
    requires turn.Books() == Opening(turn.view) && turn.Left() == Stocked(turn.view)
    requires Spent(turn.view, turn.Books(), turn.Left()) && Orderly(turn.view, turn.commands)
    modifies turn, state
    ensures state.Valid() && Orderly(turn.view, turn.commands)
    ensures Accounts(turn.content, turn.view, turn.Books(), old(state.buildDeadline), state.buildDeadline,
                     SwarmPlan(turn.content, turn.view), true)
  {
    hide *;
    ghost var c, v, before := turn.content, turn.view, state.buildDeadline;
    GroupsOwn(v, groups);
    SwarmTerms(c, v);
    var hiveCocoons, hives := Group(groups, HiveCocoon), Group(groups, Hive);
    var drones, pits := Group(groups, Drone), Group(groups, SpawningPit);
    OfTypeDistinct(v.mine, Drone);

    taken := SwarmLarvae(turn, groups);
    ghost var kept := turn.Books();

    var builderId, wanted, sent := SwarmSite(turn, state, groups);
    ghost var sited := turn.Books();
    var grows := |hives| == 0 && |hiveCocoons| == 0;
    var woodWanted := (if wanted.Some? then CostOf(turn.content, wanted.value, Wood) else 0)
                      + (if !AnyStanding(pits) then 0
                         else if grows then MorphCostOf(turn.content, Hatchery, Hive, Wood)
                         else MorphCostOf(turn.content, Swarmling, Ravager, Wood));
    ghost var errands := AssignHarvesters(turn, state, drones, turn.wood < woodWanted, builderId);

    turn.Reserve(wanted);
    ReservingAccounts(c, v, kept, sited, before, state.buildDeadline, wanted, sent,
                      SwarmNext(v), SwarmPlan(c, v));
  }

  /** The hive, the ravagers and the swarmlings. */
  method SwarmGrowth(turn: Turn, groups: Groups, taken: set<nat>)
    requires forall t :: Group(groups, t) == OfType(turn.view.mine, t)
    modifies turn
    ensures Keeps(turn.content, turn.view, old(turn.Books()), turn.Books())
    ensures Orderly(turn.view, old(turn.commands)) ==> Orderly(turn.view, turn.commands)
  {
    hide *;
    ghost var c, v, start := turn.content, turn.view, turn.Books();
    GroupsOwn(v, groups);
    KeepsItself(c, v, start);
    var hatcheries, hiveCocoons, hives := Group(groups, Hatchery), Group(groups, HiveCocoon), Group(groups, Hive);
    var larvae, pits, swarmlings := Group(groups, Larva), Group(groups, SpawningPit), Group(groups, Swarmling);
    var cocoons, ravagers := Group(groups, Cocoon), Group(groups, Ravager);
    OfTypeMembers(v.mine, Hatchery);
    OfTypeMembers(v.mine, Swarmling);
    OfTypeMembers(v.mine, Larva);
    // What a hive costs is held back until a hatchery can become one.
    if AnyStanding(pits) && |hives| == 0 && |hiveCocoons| == 0 {
      var grown := turn.MorphFirst(hatcheries, Hatchery, Hive, false);
      if !grown {
        turn.HoldBack(MorphCostOf(turn.content, Hatchery, Hive, Gold), MorphCostOf(turn.content, Hatchery, Hive, Wood));
      }
    }
    ghost var hive := turn.Books();
    KeepsItself(c, v, hive);
    if AnyStanding(hives) && (|ravagers| + |cocoons|) * 4 < |swarmlings| {
      var _ := turn.MorphAnyFirst(swarmlings, Swarmling, Ravager);
    }
    ghost var changed := turn.Books();
    KeepsOn(c, v, start, hive, changed);
    KeepsItself(c, v, changed);
    if AnyStanding(pits) {
      SwarmlingTakesOne();
      var _ := turn.Grow(larvae, taken, Swarmling, 1);
    }
    KeepsOn(c, v, start, changed, turn.Books());
  }

  lemma SwarmlingTakesOne()
    ensures GrowthSupply(Larva, Swarmling) == 1
  {
  }

  /** The swarm's fighters and their wave. */
  method SwarmArmy(turn: Turn, groups: Groups)
    requires forall t :: Group(groups, t) == OfType(turn.view.mine, t)
    modifies turn
    ensures Keeps(turn.content, turn.view, old(turn.Books()), turn.Books())
    ensures Orderly(turn.view, old(turn.commands)) ==> Orderly(turn.view, turn.commands)
  {
    hide *;
    ghost var v := turn.view;
    GroupsOwn(v, groups);
    KeepsItself(turn.content, v, turn.Books());
    NoneOwn(v);
    var swarmlings, ravagers, hatchlings := Group(groups, Swarmling), Group(groups, Ravager), Group(groups, Hatchling);
    var halls := Group(groups, Hive) + Group(groups, HiveCocoon) + Group(groups, Hatchery);
    JoinedOwn(v, swarmlings, ravagers);
    JoinedOwn(v, swarmlings + ravagers, hatchlings);
    var _ := AttackWave(turn, swarmlings + ravagers + hatchlings, [], First(halls));
  }

  /** Larvae grown into drones and overlords, the pit, the hive, ravagers. With
      headroom below nothing no larva grows, an overlord no more than the rest. */
  method SwarmThink(content: Content, view: View, state: AiState) returns (commands: seq<Command>)
    requires state.Valid() && DistinctIds(view.mine)
    modifies state
    ensures state.Valid() && Proper(view, commands)
    ensures Answers(content, view, commands, old(state.buildDeadline), state.buildDeadline, SwarmPlan(content, view), true)
    ensures Headroom(view) < 0 ==> forall cmd | cmd in commands :: !Grows(cmd)
  {
    hide *;
    ghost var before := state.buildDeadline;
    var turn := new Turn(content, view);
    var groups := Muster(view);
    var taken := SwarmEconomy(turn, state, groups);
    ghost var economy := turn.Books();
    SwarmGrowth(turn, groups, taken);
    ghost var growth := turn.Books();
    SwarmArmy(turn, groups);
    KeepsOn(content, view, economy, growth, turn.Books());
    AccountsOn(content, view, economy, turn.Books(), before, state.buildDeadline, SwarmPlan(content, view), true);
    commands := turn.commands;
    RaisingNone(turn.Books());
    ThinkEnds(turn, turn.Books(), {}, before, state.buildDeadline, SwarmPlan(content, view), true);
  }

  // ─── The conclave ─────────────────────────────────────────────────────────

  /** The structure the conclave wants next. */
  function ConclaveWants(gateways: seq<Entity>, cannons: seq<Entity>, supply: int): Option<TypeName> {
    if |gateways| == 0 then Some(Gateway)
    else if supply < 2 then Some(Pylon)
    else if |cannons| == 0 then Some(PhotonCannon)
    else None
  }

  function ConclaveNext(v: View, purse: Purse): Option<TypeName> {
    ConclaveWants(OfType(v.mine, Gateway), OfType(v.mine, PhotonCannon), purse.supply)
  }

  function ConclavePurse(c: Content, v: View): Purse {
    var halls := OfType(v.mine, Nexus);
    AfterWorkers(c, Stocked(v), First(halls), halls, OfType(v.mine, Probe), Probe)
  }

  ghost predicate ConclaveSiteReady(c: Content, v: View, purse: Purse) {
    SiteReady(c, v, purse, First(OfType(v.mine, Nexus)), OfType(v.mine, Probe), ConclaveNext(v, purse), None)
  }

  /** The structure a conclave think has in plan: the next it wants, when, the deadline
      aside, it would be sent for. */
  ghost function ConclavePlan(c: Content, v: View): Option<TypeName> {
    var purse := ConclavePurse(c, v);
    if ConclaveSiteReady(c, v, purse) then ConclaveNext(v, purse) else None
  }

  lemma ConclaveTerms(c: Content, v: View)
    ensures var halls := OfType(v.mine, Nexus);
            ConclavePurse(c, v) == AfterWorkers(c, Stocked(v), First(halls), halls, OfType(v.mine, Probe), Probe)
    ensures ConclavePlan(c, v).Some? <==> ConclaveSiteReady(c, v, ConclavePurse(c, v))
    ensures ConclavePlan(c, v).Some? ==> ConclavePlan(c, v) == ConclaveNext(v, ConclavePurse(c, v))
  {
  }

  method ConclaveSite(turn: Turn, state: AiState, groups: Groups)
    returns (builderId: Option<nat>, wanted: Option<TypeName>, ghost sent: Option<TypeName>)
    requires state.Valid() && forall t :: Group(groups, t) == OfType(turn.view.mine, t)
    modifies turn, state
    ensures state.Valid() && turn.Left() == old(turn.Left())
    ensures wanted == ConclaveNext(turn.view, old(turn.Left())) && (sent.Some? ==> sent == wanted)
    ensures Sited(turn.content, turn.view, old(turn.Books()), turn.Books(), old(state.buildDeadline), state.buildDeadline,
                  wanted, sent, ConclaveSiteReady(turn.content, turn.view, old(turn.Left())))
    ensures Own(turn.view, Group(groups, Probe)) && Orderly(turn.view, old(turn.commands)) ==> Orderly(turn.view, turn.commands)
  {
    hide Sited, SiteReady, OfType, Group, Own, Orderly, ConclaveWants, Turn.Books, Turn.AtNextSite, Turn.NextSite;
    var hall, workers := First(Group(groups, Nexus)), Group(groups, Probe);
    var gateways, cannons := Group(groups, Gateway), Group(groups, PhotonCannon);
    wanted := ConclaveWants(gateways, cannons, turn.supply);
    builderId := turn.BuildNext(state, workers, hall, wanted, None);
    sent := if builderId.Some? then wanted else None;
  }

  method ConclaveEconomy(turn: Turn, state: AiState, groups: Groups)
    requires state.Valid() && DistinctIds(turn.view.mine)
    requires forall t :: Group(groups, t) == OfType(turn.view.mine, t)
    requires turn.Books() == Opening(turn.view) && turn.Left() == Stocked(turn.view)
    requires Spent(turn.view, turn.Books(), turn.Left()) && Orderly(turn.view, turn.commands)
    modifies turn, state
    ensures state.Valid() && Orderly(turn.view, turn.commands)
    ensures Accounts(turn.content, turn.view, turn.Books(), old(state.buildDeadline), state.buildDeadline,
                     ConclavePlan(turn.content, turn.view), true)
  {
    hide *;
    ghost var c, v, before := turn.content, turn.view, state.buildDeadline;
    GroupsOwn(v, groups);
    ConclaveTerms(c, v);
    var halls, probes := Group(groups, Nexus), Group(groups, Probe);
    var hall := First(halls);
    FirstOwn(v, halls);
    OfTypeDistinct(v.mine, Probe);

    turn.KeepWorkers(hall, halls, probes, Probe);
    ghost var kept := turn.Books();
    var builderId, wanted, sent := ConclaveSite(turn, state, groups);
    ghost var sited := turn.Books();
    var needWood := wanted.Some? && turn.wood < CostOf(turn.content, wanted.value, Wood);
    ghost var errands := AssignHarvesters(turn, state, probes, needWood, builderId);

    turn.Reserve(wanted);
    ReservingAccounts(c, v, kept, sited, before, state.buildDeadline, wanted, sent,
                      ConclaveNext(v, ConclavePurse(c, v)), ConclavePlan(c, v));
  }

  /** Zealots, and the observer they march with. */
  method ConclaveArmy(turn: Turn, groups: Groups)
    requires forall t :: Group(groups, t) == OfType(turn.view.mine, t)
    modifies turn
    ensures Keeps(turn.content, turn.view, old(turn.Books()), turn.Books())
    ensures Orderly(turn.view, old(turn.commands)) ==> Orderly(turn.view, turn.commands)
  {
    hide *;
    GroupsOwn(turn.view, groups);
    NoneOwn(turn.view);
    var gateways, zealots, observers := Group(groups, Gateway), Group(groups, Zealot), Group(groups, Observer);
    var _ := turn.TrainFirst(gateways, if |observers| == 0 && |zealots| >= 2 then Observer else Zealot);

    var _ := AttackWave(turn, zealots, [], First(Group(groups, Nexus)));
  }

  /** Probes, gateways, pylons, cannons; zealots and the observer they march with. */
  method ConclaveThink(content: Content, view: View, state: AiState) returns (commands: seq<Command>)
    requires state.Valid() && DistinctIds(view.mine)
    modifies state
    ensures state.Valid() && Proper(view, commands)
    ensures Answers(content, view, commands, old(state.buildDeadline), state.buildDeadline, ConclavePlan(content, view), true)
  {
    hide *;
    ghost var before := state.buildDeadline;
    var turn := new Turn(content, view);
    var groups := Muster(view);
    ConclaveEconomy(turn, state, groups);
    ghost var economy := turn.Books();
    ConclaveArmy(turn, groups);
    AccountsOn(content, view, economy, turn.Books(), before, state.buildDeadline, ConclavePlan(content, view), true);
    commands := turn.commands;
    RaisingNone(turn.Books());
    ThinkEnds(turn, turn.Books(), {}, before, state.buildDeadline, ConclavePlan(content, view), true);
  }

  // ─── Elves ────────────────────────────────────────────────────────────────

  /** The structure the elves want next once their mine is up. */
  function ElvesWants(ancients: seq<Entity>, protectors: seq<Entity>, supply: int): Option<TypeName> {
    if |ancients| == 0 then Some(AncientOfWar)
    else if supply < 2 then Some(MoonWell)
    else if |protectors| == 0 then Some(AncientProtector)
    else None
  }

  function ElvesNext(v: View, purse: Purse): Option<TypeName> {
    if |OfType(v.mine, EntangledMine)| == 0 then Some(EntangledMine)
    else ElvesWants(OfType(v.mine, AncientOfWar), OfType(v.mine, AncientProtector), purse.supply)
  }

  function ElvesPurse(c: Content, v: View): Purse {
    var trees := OfType(v.mine, TreeOfLife);
    AfterWorkers(c, Stocked(v), First(trees), trees, OfType(v.mine, Wisp), Wisp)
  }

  /** Whether a gold seam is there for a hall. */
  ghost predicate SeamFor(v: View, hall: Option<Entity>) {
    hall.Some? && Any(v.neutrals, IsSeam)
  }

  /** The mine first; the structure wanted once it is up. */
  ghost predicate ElvesSiteReady(c: Content, v: View, purse: Purse) {
    var tree, wisps := First(OfType(v.mine, TreeOfLife)), OfType(v.mine, Wisp);
    if |OfType(v.mine, EntangledMine)| == 0 then SeamReady(c, v, purse, SeamFor(v, tree), wisps, EntangledMine)
    else SiteReady(c, v, purse, tree, wisps, ElvesNext(v, purse), None)
  }

  /** The structure an elven think has in plan: the next it wants, when, the deadline
      aside, it would be sent for. */
  ghost function ElvesPlan(c: Content, v: View): Option<TypeName> {
    var purse := ElvesPurse(c, v);
    if ElvesSiteReady(c, v, purse) then ElvesNext(v, purse) else None
  }

  lemma ElvesTerms(c: Content, v: View)
    ensures var trees := OfType(v.mine, TreeOfLife);
            ElvesPurse(c, v) == AfterWorkers(c, Stocked(v), First(trees), trees, OfType(v.mine, Wisp), Wisp)
    ensures ElvesPlan(c, v).Some? <==> ElvesSiteReady(c, v, ElvesPurse(c, v))
    ensures ElvesPlan(c, v).Some? ==> ElvesPlan(c, v) == ElvesNext(v, ElvesPurse(c, v))
  {
  }

  /** A structure raised over a seam, its price put aside in either case. */
  method MineFirst(turn: Turn, state: AiState, workers: seq<Entity>, hall: Option<Entity>, t: TypeName)
    returns (builderId: Option<nat>, ghost sent: Option<TypeName>)
    modifies turn, state
    ensures state.buildOffset == old(state.buildOffset) && turn.Left() == AfterPaying(turn.content, old(turn.Left()), t)
    ensures sent.Some? ==> sent == Some(t)
    ensures Sited(turn.content, turn.view, old(turn.Books()), turn.Books(), old(state.buildDeadline), state.buildDeadline,
                  None, sent, SeamReady(turn.content, turn.view, old(turn.Left()), SeamFor(turn.view, hall), workers, t))
    ensures Own(turn.view, workers) && Orderly(turn.view, old(turn.commands)) ==> Orderly(turn.view, turn.commands)
  {
    hide Sited, SeamReady, Any, Own, Orderly, CostOf, PutAside, MayHold, Turn.Books;
    var seam := SeamNear(turn.view, hall);
    ghost var start, before := turn.Books(), state.buildDeadline;
    ghost var ready := SeamReady(turn.content, turn.view, turn.Left(), SeamFor(turn.view, hall), workers, t);
    builderId := RaiseOverSeam(turn, state, workers, seam, t);
    sent := if builderId.Some? then Some(t) else None;
    SitedPutAside(turn.content, turn.view, start, turn.Books(), before, state.buildDeadline, Some(t), sent, ready);
    turn.Reserve(Some(t));
  }

  method ElvesSite(turn: Turn, state: AiState, groups: Groups)
    returns (builderId: Option<nat>, wanted: Option<TypeName>, ghost sent: Option<TypeName>)
    requires state.Valid() && forall t :: Group(groups, t) == OfType(turn.view.mine, t)
    modifies turn, state
    ensures state.Valid() && (sent.Some? ==> sent == ElvesNext(turn.view, old(turn.Left())))
    ensures Sited(turn.content, turn.view, old(turn.Books()), turn.Books(), old(state.buildDeadline), state.buildDeadline,
                  wanted, sent, ElvesSiteReady(turn.content, turn.view, old(turn.Left())))
    ensures Own(turn.view, Group(groups, Wisp)) && Orderly(turn.view, old(turn.commands)) ==> Orderly(turn.view, turn.commands)
  {
    hide Sited, SeamReady, SiteReady, SeamFor, OfType, Group, Own, Orderly, ElvesWants, Turn.Books, Turn.AtNextSite, Turn.NextSite;
    var tree, wisps, mines := First(Group(groups, TreeOfLife)), Group(groups, Wisp), Group(groups, EntangledMine);
    var ancients, protectors := Group(groups, AncientOfWar), Group(groups, AncientProtector);
    wanted := None;
    if |mines| == 0 {
      builderId, sent := MineFirst(turn, state, wisps, tree, EntangledMine);
    } else {
      wanted := ElvesWants(ancients, protectors, turn.supply);
      builderId := turn.BuildNext(state, wisps, tree, wanted, None);
      sent := if builderId.Some? then wanted else None;
    }
  }

  /** The worker line, the mine or the structure wanted, the wisps sent out. */
  method ElvesEconomy(turn: Turn, state: AiState, groups: Groups)
    requires state.Valid() && DistinctIds(turn.view.mine)
    requires forall t :: Group(groups, t) == OfType(turn.view.mine, t)
    requires turn.Books() == Opening(turn.view) && turn.Left() == Stocked(turn.view)
    requires Spent(turn.view, turn.Books(), turn.Left()) && Orderly(turn.view, turn.commands)
    modifies turn, state
    ensures state.Valid() && Orderly(turn.view, turn.commands)
    ensures Accounts(turn.content, turn.view, turn.Books(), old(state.buildDeadline), state.buildDeadline,
                     ElvesPlan(turn.content, turn.view), true)
  {
    hide *;
    ghost var c, v, before := turn.content, turn.view, state.buildDeadline;
    GroupsOwn(v, groups);
    ElvesTerms(c, v);
    var trees, wisps, mines := Group(groups, TreeOfLife), Group(groups, Wisp), Group(groups, EntangledMine);
    var ancients, tree := Group(groups, AncientOfWar), First(trees);
    FirstOwn(v, trees);
    OfTypeMembers(v.mine, EntangledMine);

    turn.KeepWorkers(tree, trees, wisps, Wisp);
    ghost var kept := turn.Books();
    var builderId, wanted, sent := ElvesSite(turn, state, groups);
    ghost var sited := turn.Books();
    var needWood := (wanted.Some? && turn.wood < CostOf(turn.content, wanted.value, Wood))
                    || (|ancients| > 0 && turn.wood < CostOf(turn.content, Huntress, Wood));
    ghost var errands := SendIdle(turn, wisps, builderId, needWood, false, mines);

    turn.Reserve(wanted);
    ReservingAccounts(c, v, kept, sited, before, state.buildDeadline, wanted, sent,
                      ElvesNext(v, ElvesPurse(c, v)), ElvesPlan(c, v));
  }

  /** Huntresses and their wave. */
  method ElvesArmy(turn: Turn, groups: Groups)
    requires forall t :: Group(groups, t) == OfType(turn.view.mine, t)
    modifies turn
    ensures Keeps(turn.content, turn.view, old(turn.Books()), turn.Books())
    ensures Orderly(turn.view, old(turn.commands)) ==> Orderly(turn.view, turn.commands)
  {
    hide *;
    GroupsOwn(turn.view, groups);
    NoneOwn(turn.view);
    var _ := turn.TrainFirst(Group(groups, AncientOfWar), Huntress);

    var _ := AttackWave(turn, Group(groups, Huntress), [], First(Group(groups, TreeOfLife)));
  }

  /** The entangled mine, wisps round its rim, ancients and huntresses. */
  method ElvesThink(content: Content, view: View, state: AiState) returns (commands: seq<Command>)
    requires state.Valid() && DistinctIds(view.mine)
    modifies state
    ensures state.Valid() && Proper(view, commands)
    ensures Answers(content, view, commands, old(state.buildDeadline), state.buildDeadline, ElvesPlan(content, view), true)
  {
    hide *;
    ghost var before := state.buildDeadline;
    var turn := new Turn(content, view);
    var groups := Muster(view);
    ElvesEconomy(turn, state, groups);
    ghost var economy := turn.Books();
    ElvesArmy(turn, groups);
    AccountsOn(content, view, economy, turn.Books(), before, state.buildDeadline, ElvesPlan(content, view), true);
    commands := turn.commands;
    RaisingNone(turn.Books());
    ThinkEnds(turn, turn.Books(), {}, before, state.buildDeadline, ElvesPlan(content, view), true);
  }

  // ─── Terrans ──────────────────────────────────────────────────────────────

  /** The structure the terrans want next once their refinery is up. */
  function TerranWants(barracks: seq<Entity>, factories: seq<Entity>, turrets: seq<Entity>, supply: int): Option<TypeName> {
    if |barracks| == 0 then Some(Barracks)
    else if supply < 2 then Some(SupplyDepot)
    else if |factories| == 0 then Some(Factory)
    else if |turrets| == 0 then Some(MissileTurret)
    else None
  }

  /** And before it is, a depot while headroom runs dry. */
  function TerranNext(v: View, purse: Purse): Option<TypeName> {
    if |OfType(v.mine, Refinery)| == 0 then DepotWanted(purse)
    else TerranWants(OfType(v.mine, Barracks), OfType(v.mine, Factory), OfType(v.mine, MissileTurret), purse.supply)
  }

  function DepotWanted(purse: Purse): Option<TypeName> {
    if purse.supply < 2 then Some(SupplyDepot) else None
  }

  function TerranPurse(c: Content, v: View): Purse {
    var centers := OfType(v.mine, CommandCenter);
    AfterWorkers(c, Stocked(v), First(centers), centers, OfType(v.mine, Scv), Scv)
  }

  ghost predicate RefineryDue(c: Content, v: View, purse: Purse) {
    SeamReady(c, v, purse, SeamFor(v, First(OfType(v.mine, CommandCenter))), OfType(v.mine, Scv), Refinery)
  }

  /** A depot is sent for from what the refinery's price leaves. */
  ghost predicate DepotReady(c: Content, v: View, purse: Purse) {
    SiteReady(c, v, AfterPaying(c, purse, Refinery), First(OfType(v.mine, CommandCenter)), OfType(v.mine, Scv),
              DepotWanted(purse), DockOf(SupplyDepot))
  }

  ghost predicate TerranSiteReady(c: Content, v: View, purse: Purse) {
    if |OfType(v.mine, Refinery)| == 0 then RefineryDue(c, v, purse) || DepotReady(c, v, purse)
    else
      var wanted := TerranNext(v, purse);
      SiteReady(c, v, purse, First(OfType(v.mine, CommandCenter)), OfType(v.mine, Scv), wanted,
                if wanted.Some? then DockOf(wanted.value) else None)
  }

  /** The structure a terran think has in plan: the next it wants, when, the deadline
      aside, it would be sent for. */
  ghost function TerranPlan(c: Content, v: View): Option<TypeName> {
    var purse := TerranPurse(c, v);
    if TerranSiteReady(c, v, purse) then TerranSent(c, v, purse) else None
  }

  /** What a think that sends for a structure sends for. */
  ghost function TerranSent(c: Content, v: View, purse: Purse): Option<TypeName> {
    if |OfType(v.mine, Refinery)| == 0 && RefineryDue(c, v, purse) then Some(Refinery) else TerranNext(v, purse)
  }

  /** What may be spent once a missing refinery's price is put aside. */
  function TerranAside(c: Content, v: View, purse: Purse): Purse {
    if |OfType(v.mine, Refinery)| == 0 then AfterPaying(c, purse, Refinery) else purse
  }

  /** What an annex raised from `spendable` leaves of `left`. */
  function AfterDock(c: Content, spendable: Purse, left: Purse, primary: Option<Entity>, t: TypeName): Purse {
    if AnnexDue(c, spendable, primary, t) then AfterPaying(c, left, t) else left
  }

  /** What the annexes leave of a purse: the lab first, the station once it stands. */
  function AfterAnnexes(c: Content, v: View, spendable: Purse, left: Purse): Purse {
    var factories, labs, comsats := OfType(v.mine, Factory), OfType(v.mine, TechLab), OfType(v.mine, ComsatStation);
    if |labs| == 0 && |factories| > 0 then AfterDock(c, spendable, left, First(factories), TechLab)
    else if |comsats| == 0 && |labs| > 0 then AfterDock(c, spendable, left, First(OfType(v.mine, CommandCenter)), ComsatStation)
    else left
  }

  function TerranLeft(c: Content, v: View): Purse {
    AfterAnnexes(c, v, TerranAside(c, v, TerranPurse(c, v)), TerranPurse(c, v))
  }

  /** Whether what the annexes leave still covers the structure sent for. A refinery
      it always does, its price being put aside before them. */
  ghost predicate TerranCovers(c: Content, v: View) {
    var purse, left := TerranPurse(c, v), TerranLeft(c, v);
    var wanted := TerranNext(v, purse);
    || (|OfType(v.mine, Refinery)| == 0 && RefineryDue(c, v, purse))
    || (wanted.Some? ==> Affords(c, left.gold, left.wood, wanted.value))
  }

  lemma RefineryLeft(c: Content, v: View)
    requires |OfType(v.mine, Refinery)| == 0 && RefineryDue(c, v, TerranPurse(c, v))
    ensures var left := TerranLeft(c, v); Affords(c, left.gold, left.wood, Refinery)
  {
    hide OfType, AnyRising, AfterWorkers, Stocked, CostOf;
  }

  lemma TerranTerms(c: Content, v: View)
    ensures var centers, purse, left := OfType(v.mine, CommandCenter), TerranPurse(c, v), TerranLeft(c, v);
            && purse == AfterWorkers(c, Stocked(v), First(centers), centers, OfType(v.mine, Scv), Scv)
            && left == AfterAnnexes(c, v, TerranAside(c, v, purse), purse)
            && (TerranPlan(c, v).Some? <==> TerranSiteReady(c, v, purse)) && (TerranPlan(c, v).Some? ==> TerranPlan(c, v) == TerranSent(c, v, purse))
            && (var sent := TerranSent(c, v, purse);
                sent.Some? ==> (TerranCovers(c, v) <==> Affords(c, left.gold, left.wood, sent.value)))
  {
    hide OfType, AfterWorkers, AfterAnnexes, RefineryDue, Affords;
    if |OfType(v.mine, Refinery)| == 0 && RefineryDue(c, v, TerranPurse(c, v)) {
      RefineryLeft(c, v);
    }
  }

  /** Two tries of one think are one: the second finds the deadline set by the first. */
  lemma SitedTwice(c: Content, v: View, a: Account, b: Account, d: Account, before: Option<nat>, between: Option<nat>,
                   after: Option<nat>, wanted: Option<TypeName>, first: Option<TypeName>, second: Option<TypeName>,
                   ready: bool, readyNext: bool)
    requires Sited(c, v, a, b, before, between, None, first, ready)
    requires Sited(c, v, b, d, between, after, wanted, second, readyNext)
    ensures first.Some? ==> second.None?
    ensures Sited(c, v, a, d, before, after, wanted, if first.Some? then first else second, ready || readyNext)
  {
    hide Stands, Covered, BuildClear, CostOf;
  }

  /** With no refinery yet, only a depot may still be wanted. */
  method TerranDepot(turn: Turn, state: AiState, groups: Groups)
    returns (builderId: Option<nat>, wanted: Option<TypeName>, ghost sent: Option<TypeName>)
    requires state.Valid() && forall t :: Group(groups, t) == OfType(turn.view.mine, t)
    modifies turn, state
    ensures state.Valid() && turn.Left() == old(turn.Left())
    ensures wanted == DepotWanted(old(turn.Left())) && (sent.Some? ==> sent == wanted)
    ensures Sited(turn.content, turn.view, old(turn.Books()), turn.Books(), old(state.buildDeadline), state.buildDeadline, wanted, sent,
                  SiteReady(turn.content, turn.view, old(turn.Left()), First(OfType(turn.view.mine, CommandCenter)),
                            OfType(turn.view.mine, Scv), wanted, DockOf(SupplyDepot)))
    ensures Own(turn.view, Group(groups, Scv)) && Orderly(turn.view, old(turn.commands)) ==> Orderly(turn.view, turn.commands)
  {
    hide Sited, OfType, Group, DockOf, Own, Orderly, Turn.Books, Turn.AtNextSite, Turn.NextSite;
    builderId, wanted, sent := None, None, None;
    if turn.supply < 2 {
      wanted := Some(SupplyDepot);
      builderId := turn.BuildNext(state, Group(groups, Scv), First(Group(groups, CommandCenter)), wanted, DockOf(SupplyDepot));
      sent := if builderId.Some? then wanted else None;
    } else {
      SitedNone(turn.content, turn.view, turn.Books(), state.buildDeadline, None, false);
    }
  }

  /** The refinery, or a depot from what its price leaves. */
  method TerranRefinery(turn: Turn, state: AiState, groups: Groups)
    returns (builderId: Option<nat>, wanted: Option<TypeName>, ghost sent: Option<TypeName>)
    requires state.Valid() && forall t :: Group(groups, t) == OfType(turn.view.mine, t)
    requires |OfType(turn.view.mine, Refinery)| == 0
    modifies turn, state
    ensures state.Valid() && turn.Left() == AfterPaying(turn.content, old(turn.Left()), Refinery)
    ensures wanted == TerranNext(turn.view, old(turn.Left()))
    ensures sent.Some? ==> sent == TerranSent(turn.content, turn.view, old(turn.Left()))
    ensures Sited(turn.content, turn.view, old(turn.Books()), turn.Books(), old(state.buildDeadline), state.buildDeadline,
                  wanted, sent, TerranSiteReady(turn.content, turn.view, old(turn.Left())))
    ensures Own(turn.view, Group(groups, Scv)) && Orderly(turn.view, old(turn.commands)) ==> Orderly(turn.view, turn.commands)
  {
    hide Sited, SeamReady, SiteReady, SeamFor, OfType, Group, DockOf, Own, Orderly, CostOf, Turn.Books, Turn.Left;
    ghost var c, v, start, before, purse := turn.content, turn.view, turn.Books(), state.buildDeadline, turn.Left();
    var raiser, first := MineFirst(turn, state, Group(groups, Scv), First(Group(groups, CommandCenter)), Refinery);
    ghost var raised, between := turn.Books(), state.buildDeadline;
    var founder, next, second := TerranDepot(turn, state, groups);
    builderId, wanted := if founder.Some? then founder else raiser, next;
    sent := if first.Some? then first else second;
    SitedTwice(c, v, start, raised, turn.Books(), before, between, state.buildDeadline, wanted, first, second,
               RefineryDue(c, v, purse), DepotReady(c, v, purse));
    SentWhenReady(c, v, start, raised, before, between, None, first, RefineryDue(c, v, purse));
    SentWhenReady(c, v, start, turn.Books(), before, state.buildDeadline, wanted, sent, RefineryDue(c, v, purse) || DepotReady(c, v, purse));
  }

  lemma SentWhenReady(c: Content, v: View, a: Account, b: Account, before: Option<nat>, after: Option<nat>,
                   wanted: Option<TypeName>, sent: Option<TypeName>, ready: bool)
    requires Sited(c, v, a, b, before, after, wanted, sent, ready)
    ensures sent.Some? <==> DeadlinePassed(v, before) && ready
  {
  }

  method TerranSite(turn: Turn, state: AiState, groups: Groups)
    returns (builderId: Option<nat>, wanted: Option<TypeName>, ghost sent: Option<TypeName>)
    requires state.Valid() && forall t :: Group(groups, t) == OfType(turn.view.mine, t)
    modifies turn, state
    ensures state.Valid() && turn.Left() == TerranAside(turn.content, turn.view, old(turn.Left()))
    ensures sent.Some? ==> sent == TerranSent(turn.content, turn.view, old(turn.Left()))
    ensures Sited(turn.content, turn.view, old(turn.Books()), turn.Books(), old(state.buildDeadline), state.buildDeadline,
                  wanted, sent, TerranSiteReady(turn.content, turn.view, old(turn.Left())))
    ensures Own(turn.view, Group(groups, Scv)) && Orderly(turn.view, old(turn.commands)) ==> Orderly(turn.view, turn.commands)
  {
    hide Sited, SiteReady, RefineryDue, DepotReady, OfType, Group, DockOf, TerranWants, AfterPaying, Own, Orderly,
         Turn.Books, Turn.AtNextSite, Turn.NextSite;
    if |Group(groups, Refinery)| == 0 {
      builderId, wanted, sent := TerranRefinery(turn, state, groups);
    } else {
      var barracks, factories, turrets := Group(groups, Barracks), Group(groups, Factory), Group(groups, MissileTurret);
      wanted := TerranWants(barracks, factories, turrets, turn.supply);
      builderId := turn.BuildNext(state, Group(groups, Scv), First(Group(groups, CommandCenter)), wanted,
                                  if wanted.Some? then DockOf(wanted.value) else None);
      sent := if builderId.Some? then wanted else None;
    }
  }

  /** One annex, and what it draws on the stockpile. */
  method TerranDock(turn: Turn, primary: Option<Entity>, annex: Annex, ghost left: Purse)
    modifies turn
    ensures Keeps(turn.content, turn.view, old(turn.Books()), turn.Books())
    ensures KeepsOwing(turn.content, turn.view, old(turn.Books()), turn.Books())
    ensures Spent(turn.view, old(turn.Books()), left)
            ==> Spent(turn.view, turn.Books(), AfterDock(turn.content, old(turn.Left()), left, primary, annex.typeName))
    ensures (primary.Some? ==> primary.value in turn.view.mine) && Orderly(turn.view, old(turn.commands)) ==> Orderly(turn.view, turn.commands)
  {
    hide Keeps, KeepsOwing, Spent, Orderly, Plus, AnnexDue, Turn.Books, Turn.Left;
    ghost var start, orders := turn.Books(), turn.commands;
    var placed := turn.RaiseAnnex(primary, annex);
    if placed && Spent(turn.view, start, left) {
      SpentMore(turn.view, start, turn.Books(), left, Entry(turn.content, turn.commands[|orders|]));
    }
  }

  /** A lab for the factory, or after the lab a station for the center. */
  method TerranAnnexes(turn: Turn, groups: Groups, ghost left: Purse)
    requires forall t :: Group(groups, t) == OfType(turn.view.mine, t)
    modifies turn
    ensures KeepsOwing(turn.content, turn.view, old(turn.Books()), turn.Books())
    ensures Spent(turn.view, old(turn.Books()), left)
            ==> Spent(turn.view, turn.Books(), AfterAnnexes(turn.content, turn.view, old(turn.Left()), left))
    ensures Orderly(turn.view, old(turn.commands)) ==> Orderly(turn.view, turn.commands)
  {
    hide Keeps, KeepsOwing, Spent, Orderly, Own, OfType, Group, AfterDock, First, Turn.Books, Turn.Left;
    KeepsItself(turn.content, turn.view, turn.Books());
    GroupsOwn(turn.view, groups);
    var factories, labs, comsats := Group(groups, Factory), Group(groups, TechLab), Group(groups, ComsatStation);
    var centers := Group(groups, CommandCenter);
    FirstOwn(turn.view, factories);
    FirstOwn(turn.view, centers);
    if |labs| == 0 && |factories| > 0 {
      TerranDock(turn, First(factories), Annex(3, 0, TechLab), left);
    } else if |comsats| == 0 && |labs| > 0 {
      TerranDock(turn, First(centers), Annex(3, 0, ComsatStation), left);
    }
  }

  /** SCVs with nothing to do gather: gold at the refinery, wood as it is needed. */
  method TerranHarvest(turn: Turn, groups: Groups, builderId: Option<nat>, wanted: Option<TypeName>)
    requires forall t :: Group(groups, t) == OfType(turn.view.mine, t)
    modifies turn`commands
    ensures turn.Books() == old(turn.Books())
    ensures Orderly(turn.view, old(turn.commands)) ==> Orderly(turn.view, turn.commands)
  {
    hide *;
    GroupsOwn(turn.view, groups);
    OfTypeMembers(turn.view.mine, Refinery);
    var scvs, refineries := Group(groups, Scv), Group(groups, Refinery);
    var labs, comsats := Group(groups, TechLab), Group(groups, ComsatStation);
    var needWood := (wanted.Some? && turn.wood < CostOf(turn.content, wanted.value, Wood))
                    || (|labs| == 0 && turn.wood < CostOf(turn.content, TechLab, Wood))
                    || (|comsats| == 0 && |labs| > 0 && turn.wood < CostOf(turn.content, ComsatStation, Wood))
                    || (|labs| > 0 && turn.wood < CostOf(turn.content, Tank, Wood))
                    || |refineries| == 0;
    ghost var errands := SendIdle(turn, scvs, builderId, needWood, |refineries| == 0, refineries);
  }

  /** The worker line, the refinery or the structure wanted, the annexes, the
      harvesters; the structure's price put aside last, a refinery's at once. */
  method TerranEconomy(turn: Turn, state: AiState, groups: Groups)
    requires state.Valid() && DistinctIds(turn.view.mine)
    requires forall t :: Group(groups, t) == OfType(turn.view.mine, t)
    requires turn.Books() == Opening(turn.view) && turn.Left() == Stocked(turn.view)
    requires Spent(turn.view, turn.Books(), turn.Left()) && Orderly(turn.view, turn.commands)
    modifies turn, state
    ensures state.Valid() && Orderly(turn.view, turn.commands)
    ensures Accounts(turn.content, turn.view, turn.Books(), old(state.buildDeadline), state.buildDeadline,
                     TerranPlan(turn.content, turn.view), TerranCovers(turn.content, turn.view))
  {
    hide *;
    ghost var c, v, before := turn.content, turn.view, state.buildDeadline;
    GroupsOwn(v, groups);
    TerranTerms(c, v);
    var centers, scvs := Group(groups, CommandCenter), Group(groups, Scv);
    var center := First(centers);
    FirstOwn(v, centers);

    turn.KeepWorkers(center, centers, scvs, Scv);
    ghost var kept := turn.Books();
    var builderId, wanted, sent := TerranSite(turn, state, groups);
    ghost var sited, after := turn.Books(), state.buildDeadline;
    SitedSpends(c, v, kept, sited, before, after, wanted, sent, TerranPlan(c, v).Some?, TerranPurse(c, v));

    TerranAnnexes(turn, groups, TerranPurse(c, v));
    ghost var docked := turn.Books();

    TerranHarvest(turn, groups, builderId, wanted);

    turn.Reserve(wanted);
    BuyingAccounts(c, v, kept, sited, docked, before, after, wanted, sent, TerranSent(c, v, TerranPurse(c, v)),
                   TerranPlan(c, v), TerranLeft(c, v), TerranCovers(c, v));
  }

  /** Marines; with a lab up, one tank to three marines. */
  method TerranArmy(turn: Turn, groups: Groups)
    requires forall t :: Group(groups, t) == OfType(turn.view.mine, t)
    modifies turn
    ensures Keeps(turn.content, turn.view, old(turn.Books()), turn.Books())
    ensures Orderly(turn.view, old(turn.commands)) ==> Orderly(turn.view, turn.commands)
  {
    hide *;
    ghost var c, v, start := turn.content, turn.view, turn.Books();
    GroupsOwn(v, groups);
    var barracks, factories, labs := Group(groups, Barracks), Group(groups, Factory), Group(groups, TechLab);
    var marines, tanks := Group(groups, Marine), Group(groups, Tank);
    var _ := turn.TrainFirst(barracks, Marine);
    ghost var trained := turn.Books();
    KeepsItself(c, v, trained);
    if AnyStanding(labs) && (|tanks| + CountQueued(factories, Tank)) * 3 < |marines| {
      var _ := turn.TrainFirst(factories, Tank);
    }
    KeepsOn(c, v, start, trained, turn.Books());

    var _ := AttackWave(turn, marines, tanks, First(Group(groups, CommandCenter)));
  }

  /** The refinery, barracks and factory, annexes at their docks, marines and tanks. */
  method TerranThink(content: Content, view: View, state: AiState) returns (commands: seq<Command>)
    requires state.Valid() && DistinctIds(view.mine)
    modifies state
    ensures state.Valid() && Proper(view, commands)
    ensures Answers(content, view, commands, old(state.buildDeadline), state.buildDeadline,
                    TerranPlan(content, view), TerranCovers(content, view))
  {
    hide *;
    ghost var before := state.buildDeadline;
    var turn := new Turn(content, view);
    var groups := Muster(view);
    TerranEconomy(turn, state, groups);
    ghost var economy := turn.Books();
    TerranArmy(turn, groups);
    AccountsOn(content, view, economy, turn.Books(), before, state.buildDeadline, TerranPlan(content, view), TerranCovers(content, view));
    commands := turn.commands;
    RaisingNone(turn.Books());
    ThinkEnds(turn, turn.Books(), {}, before, state.buildDeadline, TerranPlan(content, view), TerranCovers(content, view));
  }

  // ─── The undead ───────────────────────────────────────────────────────────

  /** The structure the undead want next once their mine is up. */
  function UndeadWants(crypts: seq<Entity>, graveyards: seq<Entity>, temples: seq<Entity>, supply: int): Option<TypeName> {
    if |crypts| == 0 then Some(Crypt)
    else if supply < 2 then Some(Ziggurat)
    else if |graveyards| == 0 then Some(Graveyard)
    else if |temples| == 0 then Some(TempleOfTheDamned)
    else None
  }

  function UndeadNext(v: View, purse: Purse): Option<TypeName> {
    if |OfType(v.mine, HauntedMine)| == 0 then Some(HauntedMine)
    else UndeadWants(OfType(v.mine, Crypt), OfType(v.mine, Graveyard), OfType(v.mine, TempleOfTheDamned), purse.supply)
  }

  function UndeadHalls(v: View): seq<Entity> {
    OfType(v.mine, Necropolis) + OfType(v.mine, HallsOfTheDead) + OfType(v.mine, BlackCitadel)
  }

  predicate MayGrowHall(crypts: seq<Entity>, grownHalls: seq<Entity>, citadels: seq<Entity>) {
    AnyStanding(crypts) && |grownHalls| == 0 && |citadels| == 0
  }

  ghost function AfterHall(c: Content, v: View, purse: Purse): Purse {
    if MayGrowHall(OfType(v.mine, Crypt), OfType(v.mine, HallsOfTheDead), OfType(v.mine, BlackCitadel))
    then AfterForm(c, purse, OfType(v.mine, Necropolis), Necropolis, HallsOfTheDead, true) else purse
  }

  predicate MayGrowTower(ziggurats: seq<Entity>, spiritTowers: seq<Entity>) {
    |spiritTowers| == 0 && |ziggurats| >= 2
  }

  ghost function AfterTower(c: Content, v: View, purse: Purse): Purse {
    if MayGrowTower(OfType(v.mine, Ziggurat), OfType(v.mine, SpiritTower))
    then AfterForm(c, purse, OfType(v.mine, Ziggurat), Ziggurat, SpiritTower, true) else purse
  }

  ghost function UndeadPurse(c: Content, v: View): Purse {
    var halls := UndeadHalls(v);
    AfterTower(c, v, AfterHall(c, v, AfterWorkers(c, Stocked(v), First(halls), halls, OfType(v.mine, Acolyte), Acolyte)))
  }

  /** The mine first; the structure wanted once it is up. */
  ghost predicate UndeadSiteReady(c: Content, v: View, purse: Purse) {
    var hall, acolytes := First(UndeadHalls(v)), OfType(v.mine, Acolyte);
    if |OfType(v.mine, HauntedMine)| == 0 then SeamReady(c, v, purse, SeamFor(v, hall), acolytes, HauntedMine)
    else SiteReady(c, v, purse, hall, acolytes, UndeadNext(v, purse), None)
  }

  /** The structure an undead think has in plan: the next it wants, when, the deadline
      aside, it would be sent for. */
  ghost function UndeadPlan(c: Content, v: View): Option<TypeName> {
    var purse := UndeadPurse(c, v);
    if UndeadSiteReady(c, v, purse) then UndeadNext(v, purse) else None
  }

  lemma UndeadTerms(c: Content, v: View)
    ensures var halls := UndeadHalls(v);
            && UndeadPurse(c, v)
               == AfterTower(c, v, AfterHall(c, v, AfterWorkers(c, Stocked(v), First(halls), halls, OfType(v.mine, Acolyte), Acolyte)))
            && halls == OfType(v.mine, Necropolis) + OfType(v.mine, HallsOfTheDead) + OfType(v.mine, BlackCitadel)
    ensures UndeadPlan(c, v).Some? <==> UndeadSiteReady(c, v, UndeadPurse(c, v))
    ensures UndeadPlan(c, v).Some? ==> UndeadPlan(c, v) == UndeadNext(v, UndeadPurse(c, v))
  {
  }

  /** The orders that change a unit's form, if one was changed. */
  ghost predicate ChangedOne(purse: Purse, c: Content, units: seq<Entity>, of: TypeName, into: TypeName, orders: seq<Command>) {
    if exists u :: u in units && MayChange(c, purse, u, into, true)
    then exists i :: 0 <= i < |units| && MayChange(c, purse, units[i], into, true)
                     && (forall j | 0 <= j < i :: !MayChange(c, purse, units[j], into, true))
                     && orders == [Select(units[i].id), Morph(of, into)]
    else orders == []
  }

  /** The hall grows past the necropolis once a crypt stands. */
  method GrowHall(turn: Turn, groups: Groups) returns (ghost orders: seq<Command>)
    requires forall t :: Group(groups, t) == OfType(turn.view.mine, t)
    modifies turn
    ensures Keeps(turn.content, turn.view, old(turn.Books()), turn.Books())
    ensures Orderly(turn.view, old(turn.commands)) ==> Orderly(turn.view, turn.commands)
    ensures turn.Left() == AfterHall(turn.content, turn.view, old(turn.Left()))
    ensures turn.commands == old(turn.commands) + orders
    ensures if MayGrowHall(Group(groups, Crypt), Group(groups, HallsOfTheDead), Group(groups, BlackCitadel))
            then ChangedOne(old(turn.Left()), turn.content, Group(groups, Necropolis), Necropolis, HallsOfTheDead, orders)
            else orders == []
  {
    hide Keeps, KeepsOwing, Spent, Orderly, Own, OfType, Group, AnyStanding, MayChange, AfterMorph, Plus, Entry, Turn.Books, Turn.Left;
    KeepsItself(turn.content, turn.view, turn.Books());
    GroupsOwn(turn.view, groups);
    orders := [];
    var necropolises, grownHalls := Group(groups, Necropolis), Group(groups, HallsOfTheDead);
    var citadels, crypts := Group(groups, BlackCitadel), Group(groups, Crypt);
    if AnyStanding(crypts) && |grownHalls| == 0 && |citadels| == 0 {
      OfTypeMembers(turn.view.mine, Necropolis);
      var _ := turn.MorphFirst(necropolises, Necropolis, HallsOfTheDead, true);
      orders := turn.commands[|old(turn.commands)|..];
    }
  }

  /** One ziggurat of two becomes the tower that sees through cloaks. */
  method GrowTower(turn: Turn, groups: Groups) returns (ghost orders: seq<Command>)
    requires forall t :: Group(groups, t) == OfType(turn.view.mine, t)
    modifies turn
    ensures Keeps(turn.content, turn.view, old(turn.Books()), turn.Books())
    ensures Orderly(turn.view, old(turn.commands)) ==> Orderly(turn.view, turn.commands)
    ensures turn.Left() == AfterTower(turn.content, turn.view, old(turn.Left()))
    ensures turn.commands == old(turn.commands) + orders
    ensures if MayGrowTower(Group(groups, Ziggurat), Group(groups, SpiritTower))
            then ChangedOne(old(turn.Left()), turn.content, Group(groups, Ziggurat), Ziggurat, SpiritTower, orders)
            else orders == []
  {
    hide Keeps, KeepsOwing, Spent, Orderly, Own, OfType, Group, MayChange, AfterMorph, Plus, Entry, Turn.Books, Turn.Left;
    KeepsItself(turn.content, turn.view, turn.Books());
    GroupsOwn(turn.view, groups);
    orders := [];
    var ziggurats, spiritTowers := Group(groups, Ziggurat), Group(groups, SpiritTower);
    if |spiritTowers| == 0 && |ziggurats| >= 2 {
      OfTypeMembers(turn.view.mine, Ziggurat);
      var _ := turn.MorphFirst(ziggurats, Ziggurat, SpiritTower, true);
      orders := turn.commands[|old(turn.commands)|..];
    }
  }

  method UndeadSite(turn: Turn, state: AiState, groups: Groups)
    returns (builderId: Option<nat>, wanted: Option<TypeName>, ghost sent: Option<TypeName>)
    requires state.Valid() && forall t :: Group(groups, t) == OfType(turn.view.mine, t)
    modifies turn, state
    ensures state.Valid() && (sent.Some? ==> sent == UndeadNext(turn.view, old(turn.Left())))
    ensures Sited(turn.content, turn.view, old(turn.Books()), turn.Books(), old(state.buildDeadline), state.buildDeadline,
                  wanted, sent, UndeadSiteReady(turn.content, turn.view, old(turn.Left())))
    ensures Own(turn.view, Group(groups, Acolyte)) && Orderly(turn.view, old(turn.commands)) ==> Orderly(turn.view, turn.commands)
  {
    hide Sited, SeamReady, SiteReady, SeamFor, OfType, Group, Own, Orderly, UndeadWants, Turn.Books, Turn.AtNextSite, Turn.NextSite;
    var hall := First(Group(groups, Necropolis) + Group(groups, HallsOfTheDead) + Group(groups, BlackCitadel));
    var acolytes, mines, crypts := Group(groups, Acolyte), Group(groups, HauntedMine), Group(groups, Crypt);
    var graveyards, temples := Group(groups, Graveyard), Group(groups, TempleOfTheDamned);
    wanted := None;
    if |mines| == 0 {
      builderId, sent := MineFirst(turn, state, acolytes, hall, HauntedMine);
    } else {
      wanted := UndeadWants(crypts, graveyards, temples, turn.supply);
      builderId := turn.BuildNext(state, acolytes, hall, wanted, None);
      sent := if builderId.Some? then wanted else None;
    }
  }

  /** The worker line, then the hall and the tower grown. */
  method UndeadOpening(turn: Turn, groups: Groups)
    requires forall t :: Group(groups, t) == OfType(turn.view.mine, t)
    modifies turn
    ensures Keeps(turn.content, turn.view, old(turn.Books()), turn.Books())
    ensures Orderly(turn.view, old(turn.commands)) ==> Orderly(turn.view, turn.commands)
    ensures var v, halls := turn.view, UndeadHalls(turn.view);
            turn.Left() == AfterTower(turn.content, v, AfterHall(turn.content, v,
              AfterWorkers(turn.content, old(turn.Left()), First(halls), halls, OfType(v.mine, Acolyte), Acolyte)))
  {
    hide *;
    ghost var c, v, start := turn.content, turn.view, turn.Books();
    GroupsOwn(v, groups);
    UndeadTerms(c, v);
    var necropolises, grownHalls, citadels := Group(groups, Necropolis), Group(groups, HallsOfTheDead), Group(groups, BlackCitadel);
    var halls := necropolises + grownHalls + citadels;
    var hall := First(halls);
    JoinedOwn(v, necropolises, grownHalls);
    JoinedOwn(v, necropolises + grownHalls, citadels);
    FirstOwn(v, halls);
    turn.KeepWorkers(hall, halls, Group(groups, Acolyte), Acolyte);
    ghost var kept := turn.Books();
    ghost var hallGrown := GrowHall(turn, groups);
    ghost var risen := turn.Books();
    KeepsOn(c, v, start, kept, risen);
    ghost var towerGrown := GrowTower(turn, groups);
    KeepsOn(c, v, start, risen, turn.Books());
  }

  /** The worker line, the hall and the tower grown, the mine or the structure
      wanted, acolytes and ghouls sent out; the ghouls that muster. */
  method UndeadEconomy(turn: Turn, state: AiState, groups: Groups) returns (fighters: seq<Entity>)
    requires state.Valid() && DistinctIds(turn.view.mine)
    requires forall t :: Group(groups, t) == OfType(turn.view.mine, t)
    requires turn.Books() == Opening(turn.view) && turn.Left() == Stocked(turn.view)
    requires Spent(turn.view, turn.Books(), turn.Left()) && Orderly(turn.view, turn.commands)
    modifies turn, state
    ensures state.Valid() && Orderly(turn.view, turn.commands)
    ensures Accounts(turn.content, turn.view, turn.Books(), old(state.buildDeadline), state.buildDeadline,
                     UndeadPlan(turn.content, turn.view), true)
    ensures Own(turn.view, fighters)
  {
    hide *;
    ghost var c, v, before := turn.content, turn.view, state.buildDeadline;
    GroupsOwn(v, groups);
    UndeadTerms(c, v);
    var acolytes, mines, crypts := Group(groups, Acolyte), Group(groups, HauntedMine), Group(groups, Crypt);
    var ghouls := Group(groups, Ghoul);
    OfTypeMembers(v.mine, HauntedMine);

    UndeadOpening(turn, groups);
    ghost var grown := turn.Books();

    var builderId, wanted, sent := UndeadSite(turn, state, groups);
    ghost var sited := turn.Books();
    ghost var errands := SendIdle(turn, acolytes, builderId, false, false, mines);
    var needWood := (wanted.Some? && turn.wood < CostOf(turn.content, wanted.value, Wood))
                    || (|crypts| == 0 && turn.wood < CostOf(turn.content, Crypt, Wood));
    var mustered, cutter := SendGhouls(turn, ghouls, needWood);
    fighters := mustered;
    MusteredAmong(ghouls, needWood, cutter, |ghouls|);
    PartOwn(v, ghouls, fighters);

    turn.Reserve(wanted);
    ReservingAccounts(c, v, grown, sited, before, state.buildDeadline, wanted, sent,
                      UndeadNext(v, UndeadPurse(c, v)), UndeadPlan(c, v));
  }

  lemma PartOwn(v: View, group: seq<Entity>, part: seq<Entity>)
    requires Own(v, group) && forall e | e in part :: e in group
    ensures Own(v, part)
  {
  }

  /** Ghouls, necromancers and their research. */
  method UndeadTraining(turn: Turn, groups: Groups)
    requires forall t :: Group(groups, t) == OfType(turn.view.mine, t)
    modifies turn
    ensures Keeps(turn.content, turn.view, old(turn.Books()), turn.Books())
    ensures Orderly(turn.view, old(turn.commands)) ==> Orderly(turn.view, turn.commands)
  {
    hide *;
    ghost var c, v, start := turn.content, turn.view, turn.Books();
    GroupsOwn(v, groups);
    var crypts, temples := Group(groups, Crypt), Group(groups, TempleOfTheDamned);
    var ghouls, necromancers := Group(groups, Ghoul), Group(groups, Necromancer);
    var _ := turn.TrainFirst(crypts, Ghoul);
    ghost var bred := turn.Books();
    KeepsItself(c, v, bred);
    if AnyStanding(temples) && |necromancers| * 4 < |ghouls| {
      var _ := turn.TrainFirst(temples, Necromancer);
    }
    ghost var trained := turn.Books();
    KeepsOn(c, v, start, bred, trained);
    turn.BuyResearch(SkeletalLongevity, temples);
    KeepsOn(c, v, start, trained, turn.Books());
  }

  /** The raised and the wave. */
  method UndeadArmy(turn: Turn, groups: Groups, fighters: seq<Entity>) returns (ghost bodies: set<nat>)
    requires forall t :: Group(groups, t) == OfType(turn.view.mine, t)
    modifies turn
    ensures turn.Books() == Raising(old(turn.Books()), bodies)
    ensures Own(turn.view, fighters) && Orderly(turn.view, old(turn.commands)) ==> Orderly(turn.view, turn.commands)
  {
    hide *;
    GroupsOwn(turn.view, groups);
    var necromancers, skeletons := Group(groups, Necromancer), Group(groups, Skeleton);
    var halls := Group(groups, Necropolis) + Group(groups, HallsOfTheDead) + Group(groups, BlackCitadel);
    JoinedOwn(turn.view, necromancers, skeletons);
    ghost var raised := Raise(turn, necromancers);
    bodies := Claimed(raised);
    var _ := AttackWave(turn, fighters, necromancers + skeletons, First(halls));
  }

  /** The haunted mine, crypts, temples; ghouls that cut wood and necromancers that raise. */
  method UndeadThink(content: Content, view: View, state: AiState) returns (commands: seq<Command>)
    requires state.Valid() && DistinctIds(view.mine)
    modifies state
    ensures state.Valid() && Proper(view, commands)
    ensures Answers(content, view, commands, old(state.buildDeadline), state.buildDeadline, UndeadPlan(content, view), true)
  {
    hide *;
    ghost var before := state.buildDeadline;
    var turn := new Turn(content, view);
    var groups := Muster(view);
    var fighters := UndeadEconomy(turn, state, groups);
    ghost var economy := turn.Books();
    UndeadTraining(turn, groups);
    ghost var training := turn.Books();
    AccountsOn(content, view, economy, training, before, state.buildDeadline, UndeadPlan(content, view), true);
    ghost var bodies := UndeadArmy(turn, groups, fighters);
    commands := turn.commands;
    ThinkEnds(turn, training, bodies, before, state.buildDeadline, UndeadPlan(content, view), true);
  }
}
