/**
 What a brain thinks over and answers with: the content's price tables, the
 view of one tick, and the orders a think may issue, with what each costs.
 */
module AiView {
  import opened Wrappers

  /** The entity types the brains name. */
  datatype TypeName =
    | TownHall | Peasant | TrainingCamp | Blacksmith | Bunker | Archer | Mortar | Medic | Farm
    | GreatHall | Peon | WarCamp | PigFarm | SiegeWorks | Grunt | Shaman | WarWagon | WatchTower | GuardTower
    | Hatchery | HiveCocoon | Hive | Larva | Egg | Drone | SpawningPit | Tumor | Swarmling | Hatchling
    | Cocoon | Ravager | Overlord
    | Nexus | Probe | Pylon | Gateway | PhotonCannon | Zealot | Observer
    | TreeOfLife | Wisp | EntangledMine | AncientOfWar | MoonWell | AncientProtector | Huntress
    | CommandCenter | Scv | Barracks | Factory | TechLab | ComsatStation | SupplyDepot | Refinery
    | MissileTurret | Marine | Tank
    | Necropolis | HallsOfTheDead | BlackCitadel | Acolyte | HauntedMine | Crypt | Ziggurat | SpiritTower
    | Graveyard | TempleOfTheDamned | Ghoul | Necromancer | Skeleton
    | Tree | GoldMine | OtherType(name: string)

  datatype ResearchName = IronWeapons | FrenzyRitual | SkeletalLongevity | OtherResearch(name: string)

  datatype SkillName = BattleFocus | WarDrums | BloodRite | SecondWind | RaiseDead

  datatype Kind = Gold | Wood | OtherKind(name: string)

  datatype PriceEntry = PriceEntry(kind: Kind, amount: nat)

  datatype Morphing = Morphing(into: TypeName, price: seq<PriceEntry>)

  datatype Size = Size(w: nat, h: nat)

  /** The content tables, any prices and sizes at all. */
  datatype Content = Content(
    price: TypeName -> seq<PriceEntry>,
    morphs: TypeName -> seq<Morphing>,
    size: TypeName -> Size,
    maxHealth: TypeName -> Option<nat>,
    researchGold: ResearchName -> nat,
    researchWood: ResearchName -> nat)

  datatype Entity = Entity(
    id: nat, typeName: TypeName, x: int, y: int,
    rising: bool, idle: bool, hidden: bool, disabled: bool,
    trainQueue: seq<TypeName>, passengers: seq<nat>, carrying: bool,
    resourceAmount: Option<nat>, energy: Option<nat>, health: Option<nat>)

  datatype View = View(
    tick: nat, gold: Option<nat>, wood: Option<nat>, provided: nat, used: nat,
    width: int, height: int,
    mine: seq<Entity>, enemies: seq<Entity>, neutrals: seq<Entity>, remains: seq<Entity>,
    researched: seq<ResearchName>, researching: seq<ResearchName>)

  /**
   One order. `Morph` says which type the unit selected before it has, as the
   simulation reads it; `Dock` is the build order whose builder is the building
   its annex stands against.
   */
  datatype Command =
    | Train(trainer: nat, typeName: TypeName)
    | Build(builder: nat, typeName: TypeName, x: int, y: int)
    | Dock(primary: nat, typeName: TypeName, x: int, y: int)
    | Research(researcher: nat, research: ResearchName)
    | Select(id: nat)
    | Morph(of: TypeName, into: TypeName)
    | Send(target: nat)
    | Board(target: nat)
    | Unload(holder: nat)
    | AttackMove(x: int, y: int)
    | Move(x: int, y: int)
    | UseSkill(skill: SkillName, caster: Option<nat>, on: Option<nat>)

  function OrZero(n: Option<nat>): nat {
    if n.Some? then n.value else 0
  }

  /** The amount of the first entry of a kind. */
  function Amount(price: seq<PriceEntry>, kind: Kind): nat {
    if price == [] then 0 else if price[0].kind == kind then price[0].amount else Amount(price[1..], kind)
  }

  function CostOf(c: Content, t: TypeName, kind: Kind): nat {
    Amount(c.price(t), kind)
  }

  function MorphAmount(morphs: seq<Morphing>, into: TypeName, kind: Kind): nat {
    if morphs == [] then 0
    else if morphs[0].into == into then Amount(morphs[0].price, kind)
    else MorphAmount(morphs[1..], into, kind)
  }

  function MorphCostOf(c: Content, of: TypeName, into: TypeName, kind: Kind): nat {
    MorphAmount(c.morphs(of), into, kind)
  }

  /** Whether an entry is the first of its kind in a price. */
  predicate FirstOfKind(price: seq<PriceEntry>, kind: Kind, k: int) {
    0 <= k < |price| && price[k].kind == kind && forall j | 0 <= j < k :: price[j].kind != kind
  }

  /** What a price asks of a kind: its first entry's amount, or nothing without one. */
  ghost predicate IsPriced(price: seq<PriceEntry>, kind: Kind, n: nat) {
    || (exists k :: FirstOfKind(price, kind, k) && price[k].amount == n)
    || (n == 0 && forall e | e in price :: e.kind != kind)
  }

  lemma {:induction false} AmountIsFirst(price: seq<PriceEntry>, kind: Kind)
    ensures forall k | FirstOfKind(price, kind, k) :: Amount(price, kind) == price[k].amount
    ensures (forall e | e in price :: e.kind != kind) ==> Amount(price, kind) == 0
  {
    if price != [] && price[0].kind != kind {
      AmountIsFirst(price[1..], kind);
      forall k | FirstOfKind(price, kind, k)
        ensures Amount(price, kind) == price[k].amount
      {
        assert forall j | 0 < j < |price| :: price[j] == price[1..][j - 1];
        assert FirstOfKind(price[1..], kind, k - 1);
      }
    }
  }

  lemma {:induction false} SomeIsFirst(price: seq<PriceEntry>, kind: Kind)
    ensures (exists k :: FirstOfKind(price, kind, k)) || forall e | e in price :: e.kind != kind
  {
    if price != [] {
      if price[0].kind == kind {
        assert FirstOfKind(price, kind, 0);
      } else {
        SomeIsFirst(price[1..], kind);
        assert forall j | 0 < j < |price| :: price[j] == price[1..][j - 1];
        if k :| FirstOfKind(price[1..], kind, k) {
          assert FirstOfKind(price, kind, k + 1);
        }
      }
    }
  }

  /** The amount is what the price asks, and nothing else is: it is nothing exactly
      when the price has no entry of the kind or its first is of nothing. */
  lemma {:induction false} PricedExactly(price: seq<PriceEntry>, kind: Kind)
    ensures forall n: nat :: IsPriced(price, kind, n) <==> n == Amount(price, kind)
    ensures Amount(price, kind) == 0 <==> forall k | FirstOfKind(price, kind, k) :: price[k].amount == 0
  {
    AmountIsFirst(price, kind);
    SomeIsFirst(price, kind);
    forall n: nat
      ensures IsPriced(price, kind, n) <==> n == Amount(price, kind)
    {
      if k :| FirstOfKind(price, kind, k) {
        assert IsPriced(price, kind, price[k].amount);
      }
    }
  }

  predicate FirstInto(morphs: seq<Morphing>, into: TypeName, k: int) {
    0 <= k < |morphs| && morphs[k].into == into && forall j | 0 <= j < k :: morphs[j].into != into
  }

  /** What a change of form asks: the price of the first morph into it, or nothing without one. */
  ghost predicate IsMorphPriced(morphs: seq<Morphing>, into: TypeName, kind: Kind, n: nat) {
    || (exists k :: FirstInto(morphs, into, k) && IsPriced(morphs[k].price, kind, n))
    || (n == 0 && forall m | m in morphs :: m.into != into)
  }

  lemma {:induction false} MorphAmountIsFirst(morphs: seq<Morphing>, into: TypeName, kind: Kind) returns (k: int)
    ensures -1 <= k
    ensures if k == -1 then MorphAmount(morphs, into, kind) == 0 && forall m | m in morphs :: m.into != into
            else FirstInto(morphs, into, k) && MorphAmount(morphs, into, kind) == Amount(morphs[k].price, kind)
  {
    hide Amount, FirstInto;
    k := -1;
    if morphs != [] {
      LaterFirst(morphs, into);
      assert morphs == [morphs[0]] + morphs[1..];
      if morphs[0].into == into {
        k := 0;
      } else {
        var rest := MorphAmountIsFirst(morphs[1..], into, kind);
        k := if rest == -1 then -1 else rest + 1;
      }
    }
  }

  lemma LaterFirst(morphs: seq<Morphing>, into: TypeName)
    requires morphs != []
    ensures if morphs[0].into == into then FirstInto(morphs, into, 0)
            else forall k | FirstInto(morphs[1..], into, k) :: FirstInto(morphs, into, k + 1) && morphs[k + 1] == morphs[1..][k]
  {
  }

  lemma {:induction false} MorphPricedExactly(morphs: seq<Morphing>, into: TypeName, kind: Kind)
    ensures forall n: nat :: IsMorphPriced(morphs, into, kind, n) <==> n == MorphAmount(morphs, into, kind)
  {
    hide Amount, IsPriced, MorphAmount;
    var k := MorphAmountIsFirst(morphs, into, kind);
    if k != -1 {
      PricedExactly(morphs[k].price, kind);
      assert morphs[k] in morphs;
      assert forall l | FirstInto(morphs, into, l) :: l == k;
    }
  }

  // ─── What orders add up to ────────────────────────────────────────────────

  /**
   What a list of orders comes to: the gold, wood and supply of its trainings,
   researches, changes of form and annexes; apart, the price and types of its
   worker-built structures; how many larvae it grows; and the bodies it raises.
   */
  datatype Bill = Bill(gold: nat, wood: nat, supply: nat, buildGold: nat, buildWood: nat, sites: multiset<TypeName>,
                       growths: nat, raised: multiset<nat>)

  const NOTHING: Bill := Bill(0, 0, 0, 0, 0, multiset{}, 0, multiset{})

  function Plus(a: Bill, b: Bill): Bill {
    Bill(a.gold + b.gold, a.wood + b.wood, a.supply + b.supply,
         a.buildGold + b.buildGold, a.buildWood + b.buildWood, a.sites + b.sites,
         a.growths + b.growths, a.raised + b.raised)
  }

  /** The supply a larva's change of form takes, as the brain counts it: none for
      an overlord, one for anything else. Other forms change within their supply. */
  function GrowthSupply(of: TypeName, into: TypeName): nat {
    if of == Larva && into != Overlord then 1 else 0
  }

  predicate Grows(cmd: Command) {
    cmd.Morph? && cmd.of == Larva
  }

  predicate Raises(cmd: Command) {
    cmd.UseSkill? && cmd.skill == RaiseDead && cmd.on.Some?
  }

  function Entry(c: Content, cmd: Command): Bill {
    match cmd
    case Train(_, t) => NOTHING.(gold := CostOf(c, t, Gold), wood := CostOf(c, t, Wood), supply := 1)
    case Build(_, t, _, _) => NOTHING.(buildGold := CostOf(c, t, Gold), buildWood := CostOf(c, t, Wood), sites := multiset{t})
    case Dock(_, t, _, _) => NOTHING.(gold := CostOf(c, t, Gold), wood := CostOf(c, t, Wood))
    case Research(_, r) => NOTHING.(gold := c.researchGold(r), wood := c.researchWood(r))
    case Morph(of, into) =>
      NOTHING.(gold := MorphCostOf(c, of, into, Gold), wood := MorphCostOf(c, of, into, Wood),
               supply := GrowthSupply(of, into), growths := if of == Larva then 1 else 0)
    case UseSkill(_, _, _) => if Raises(cmd) then NOTHING.(raised := multiset{cmd.on.value}) else NOTHING
    case _ => NOTHING
  }

  function Tally(c: Content, commands: seq<Command>): Bill {
    if commands == [] then NOTHING
    else Plus(Tally(c, commands[..|commands| - 1]), Entry(c, commands[|commands| - 1]))
  }

  lemma TallyNext(c: Content, commands: seq<Command>, cmd: Command)
    ensures Tally(c, commands + [cmd]) == Plus(Tally(c, commands), Entry(c, cmd))
  {
    hide Entry, Plus;
    assert (commands + [cmd])[..|commands|] == commands;
  }

  lemma EntryCounts(c: Content, cmd: Command)
    ensures Entry(c, cmd).growths == (if Grows(cmd) then 1 else 0)
    ensures Entry(c, cmd).raised == (if Raises(cmd) then multiset{cmd.on.value} else multiset{})
  {
  }

  lemma TallyLast(c: Content, commands: seq<Command>)
    requires commands != []
    ensures var init, last := commands[..|commands| - 1], commands[|commands| - 1];
            commands == init + [last] && Tally(c, commands) == Plus(Tally(c, init), Entry(c, last))
  {
    hide Entry, Plus;
  }

  /** No larva is counted exactly when none is ordered to grow. */
  lemma {:induction false} GrowthsCounted(c: Content, commands: seq<Command>)
    ensures Tally(c, commands).growths == 0 <==> forall cmd | cmd in commands :: !Grows(cmd)
  {
    if commands != [] {
      hide Entry, Tally;
      var init, last := commands[..|commands| - 1], commands[|commands| - 1];
      GrowthsCounted(c, init);
      TallyLast(c, commands);
      EntryCounts(c, last);
    }
  }

  /** No two orders raise one body. */
  ghost predicate RaisesApart(commands: seq<Command>) {
    forall i, j | 0 <= i < j < |commands| && Raises(commands[i]) && Raises(commands[j]) :: commands[i].on != commands[j].on
  }

  lemma {:induction false} RaisedAreCounted(c: Content, commands: seq<Command>)
    ensures forall cmd | cmd in commands && Raises(cmd) :: cmd.on.value in Tally(c, commands).raised
  {
    if commands != [] {
      hide Entry, Tally, Raises;
      var init, last := commands[..|commands| - 1], commands[|commands| - 1];
      RaisedAreCounted(c, init);
      TallyLast(c, commands);
      EntryCounts(c, last);
    }
  }

  /** Bodies counted once each are raised by one order each. */
  lemma {:induction false} RaisesCounted(c: Content, commands: seq<Command>)
    requires forall id :: Tally(c, commands).raised[id] <= 1
    ensures RaisesApart(commands)
  {
    if commands != [] {
      hide Entry, Tally;
      var init, last := commands[..|commands| - 1], commands[|commands| - 1];
      TallyLast(c, commands);
      EntryCounts(c, last);
      RaisedAreCounted(c, init);
      var before := Tally(c, init).raised;
      assert forall id :: before[id] <= Tally(c, commands).raised[id];
      RaisesCounted(c, init);
      assert Raises(last) ==> before[last.on.value] == 0;
      assert forall i | 0 <= i < |init| :: commands[i] == init[i] && init[i] in init;
    }
  }

  // ─── The bounds ───────────────────────────────────────────────────────────

  function Stock(v: View, kind: Kind): nat {
    match kind
    case Gold => OrZero(v.gold)
    case Wood => OrZero(v.wood)
    case OtherKind(_) => 0
  }

  function Headroom(v: View): int {
    v.provided - v.used
  }

  /** A column of what orders come to: what trainings, researches, changes of form and
      annexes draw of the stockpile, what worker-built structures do, and supply. */
  datatype Column = DrawsGold | DrawsWood | BuildsGold | BuildsWood | TakesSupply

  /** What one order draws of a kind, structures that workers build apart. */
  ghost predicate Draws(c: Content, cmd: Command, kind: Kind, n: nat) {
    match cmd
    case Train(_, t) => IsPriced(c.price(t), kind, n)
    case Dock(_, t, _, _) => IsPriced(c.price(t), kind, n)
    case Research(_, r) => n == if kind == Gold then c.researchGold(r) else c.researchWood(r)
    case Morph(of, into) => IsMorphPriced(c.morphs(of), into, kind, n)
    case _ => n == 0
  }

  /** What one order puts in a column. */
  ghost predicate Charges(c: Content, cmd: Command, column: Column, n: nat) {
    match column
    case DrawsGold => Draws(c, cmd, Gold, n)
    case DrawsWood => Draws(c, cmd, Wood, n)
    case BuildsGold => if cmd.Build? then IsPriced(c.price(cmd.typeName), Gold, n) else n == 0
    case BuildsWood => if cmd.Build? then IsPriced(c.price(cmd.typeName), Wood, n) else n == 0
    case TakesSupply => n == if cmd.Train? || (cmd.Morph? && cmd.of == Larva && cmd.into != Overlord) then 1 else 0
  }

  function Sum(amounts: seq<nat>): nat {
    if amounts == [] then 0 else Sum(amounts[..|amounts| - 1]) + amounts[|amounts| - 1]
  }

  ghost predicate Receipts(c: Content, commands: seq<Command>, column: Column, amounts: seq<nat>) {
    |amounts| == |commands| && forall i | 0 <= i < |commands| :: Charges(c, commands[i], column, amounts[i])
  }

  /** Whether orders come to a total in a column, each priced by itself. */
  ghost predicate ComesTo(c: Content, commands: seq<Command>, column: Column, total: nat) {
    exists amounts :: Receipts(c, commands, column, amounts) && Sum(amounts) == total
  }

  function Entered(bill: Bill, column: Column): nat {
    match column
    case DrawsGold => bill.gold
    case DrawsWood => bill.wood
    case BuildsGold => bill.buildGold
    case BuildsWood => bill.buildWood
    case TakesSupply => bill.supply
  }

  lemma EntryCharges(c: Content, cmd: Command, column: Column)
    ensures forall n: nat :: Charges(c, cmd, column, n) <==> n == Entered(Entry(c, cmd), column)
  {
    hide IsPriced, IsMorphPriced, Amount, MorphAmount;
    match cmd
    case Train(_, t) => PricedExactly(c.price(t), Gold); PricedExactly(c.price(t), Wood);
    case Build(_, t, _, _) => PricedExactly(c.price(t), Gold); PricedExactly(c.price(t), Wood);
    case Dock(_, t, _, _) => PricedExactly(c.price(t), Gold); PricedExactly(c.price(t), Wood);
    case Morph(of, into) => MorphPricedExactly(c.morphs(of), into, Gold); MorphPricedExactly(c.morphs(of), into, Wood);
    case _ =>
  }

  lemma EnteredPlus(a: Bill, b: Bill, column: Column)
    ensures Entered(Plus(a, b), column) == Entered(a, column) + Entered(b, column)
  {
  }

  lemma {:induction false} ReceiptsAddUp(c: Content, commands: seq<Command>, column: Column) returns (amounts: seq<nat>)
    ensures Receipts(c, commands, column, amounts) && Sum(amounts) == Entered(Tally(c, commands), column)
    ensures forall others | Receipts(c, commands, column, others) :: others == amounts
  {
    hide Charges, Entered, Plus, Entry;
    amounts := [];
    if commands == [] {
      assert Entered(NOTHING, column) == 0 by {
        NothingEntered(column);
      }
    } else {
      var init, last := commands[..|commands| - 1], commands[|commands| - 1];
      var before := ReceiptsAddUp(c, init, column);
      TallyLast(c, commands);
      EntryCharges(c, last, column);
      EnteredPlus(Tally(c, init), Entry(c, last), column);
      amounts := before + [Entered(Entry(c, last), column)];
      assert amounts[..|init|] == before;
      forall others | Receipts(c, commands, column, others)
        ensures others == amounts
      {
        assert Receipts(c, init, column, others[..|init|]);
        assert others == others[..|init|] + [others[|init|]];
      }
    }
  }

  lemma NothingEntered(column: Column)
    ensures Entered(NOTHING, column) == 0
  {
  }

  /** Orders come to exactly one total in a column: what the bill says. */
  lemma {:induction false} ComesToExactly(c: Content, commands: seq<Command>, column: Column)
    ensures forall n: nat :: ComesTo(c, commands, column, n) <==> n == Entered(Tally(c, commands), column)
  {
    hide Receipts, Entered, Tally, Sum;
    var amounts := ReceiptsAddUp(c, commands, column);
  }

  /** What a stock holds; none listed is none held. */
  predicate Holds(stock: Option<nat>, n: nat) {
    n == 0 || (stock.Some? && n <= stock.value)
  }

  /** Trainings, researches, changes of form and annexes stay within the
      stockpile, and what takes supply within the headroom. */
  ghost predicate WithinStock(c: Content, v: View, commands: seq<Command>) {
    && (forall n: nat | ComesTo(c, commands, DrawsGold, n) :: Holds(v.gold, n))
    && (forall n: nat | ComesTo(c, commands, DrawsWood, n) :: Holds(v.wood, n))
    && (forall n: nat | ComesTo(c, commands, TakesSupply, n) :: n == 0 || v.used + n <= v.provided)
  }

  /** And so does everything with the worker-built structure counted in. */
  ghost predicate WithinStockBuilding(c: Content, v: View, commands: seq<Command>) {
    && (forall m: nat, n: nat | ComesTo(c, commands, DrawsGold, m) && ComesTo(c, commands, BuildsGold, n) :: Holds(v.gold, m + n))
    && (forall m: nat, n: nat | ComesTo(c, commands, DrawsWood, m) && ComesTo(c, commands, BuildsWood, n) :: Holds(v.wood, m + n))
  }

  /** The bill tells whether the stockpile covers the orders. */
  lemma {:induction false} BillTells(c: Content, v: View, commands: seq<Command>)
    ensures var bill := Tally(c, commands);
            && (WithinStock(c, v, commands) <==>
                  && bill.gold <= Stock(v, Gold) && bill.wood <= Stock(v, Wood)
                  && (bill.supply == 0 || bill.supply <= Headroom(v)))
            && (WithinStockBuilding(c, v, commands) <==>
                  bill.gold + bill.buildGold <= Stock(v, Gold) && bill.wood + bill.buildWood <= Stock(v, Wood))
  {
    hide ComesTo, Tally;
    ComesToExactly(c, commands, DrawsGold);
    ComesToExactly(c, commands, DrawsWood);
    ComesToExactly(c, commands, BuildsGold);
    ComesToExactly(c, commands, BuildsWood);
    ComesToExactly(c, commands, TakesSupply);
    var bill := Tally(c, commands);
    assert ComesTo(c, commands, DrawsGold, bill.gold) && ComesTo(c, commands, BuildsGold, bill.buildGold);
    assert ComesTo(c, commands, DrawsWood, bill.wood) && ComesTo(c, commands, BuildsWood, bill.buildWood);
    assert ComesTo(c, commands, TakesSupply, bill.supply);
  }

  /** The types of the structures orders send workers to build, in order. */
  function Structures(commands: seq<Command>): seq<TypeName> {
    if commands == [] then []
    else
      var rest, last := Structures(commands[..|commands| - 1]), commands[|commands| - 1];
      if last.Build? then rest + [last.typeName] else rest
  }

  lemma {:induction false} SitesCounted(c: Content, commands: seq<Command>)
    ensures multiset(Structures(commands)) == Tally(c, commands).sites
  {
    if commands != [] {
      hide Tally;
      var init, last := commands[..|commands| - 1], commands[|commands| - 1];
      SitesCounted(c, init);
      TallyLast(c, commands);
      EntrySites(c, last);
    }
  }

  lemma EntrySites(c: Content, cmd: Command)
    ensures Entry(c, cmd).sites == if cmd.Build? then multiset{cmd.typeName} else multiset{}
  {
  }

  lemma SitesTell(c: Content, commands: seq<Command>)
    ensures Tally(c, commands).sites == multiset{} ==> Structures(commands) == []
    ensures forall t :: Tally(c, commands).sites == multiset{t} ==> Structures(commands) == [t]
    ensures |Structures(commands)| == |Tally(c, commands).sites|
  {
    hide Tally;
    SitesCounted(c, commands);
    var types := Structures(commands);
    assert |types| == |multiset(types)|;
    assert |types| > 0 ==> types[0] in multiset(types);
  }

  // ─── Whom orders name ─────────────────────────────────────────────────────

  predicate Mine(v: View, id: nat) {
    exists e :: e in v.mine && e.id == id
  }

  predicate MineInSight(v: View, id: nat) {
    exists e :: e in v.mine && e.id == id && !e.hidden
  }

  predicate MineStanding(v: View, id: nat) {
    exists e :: e in v.mine && e.id == id && !e.rising
  }

  /** Whether one of mine stands with room in its queue. */
  predicate MayTrain(v: View, id: nat) {
    exists e :: e in v.mine && e.id == id && !e.rising && |e.trainQueue| < 2
  }

  /** Whether one of mine stands with a berth free. */
  predicate MayBoard(v: View, id: nat) {
    exists e :: e in v.mine && e.id == id && !e.rising && |e.passengers| < 4
  }

  predicate MayUnload(v: View, id: nat) {
    exists e :: e in v.mine && e.id == id && |e.passengers| > 0
  }

  predicate HasLeft(e: Entity) {
    e.resourceAmount.Some? && e.resourceAmount.value > 0
  }

  /** Whether a tree, a gold mine or a standing source of mine has something left. */
  predicate MayGather(v: View, id: nat) {
    || (exists e :: e in v.neutrals && e.id == id && (e.typeName == Tree || e.typeName == GoldMine) && HasLeft(e))
    || (exists e :: e in v.mine && e.id == id && !e.rising && HasLeft(e))
  }

  /** Whether five cells each way from a cell are on the map, or it is a gold mine's. */
  predicate MayHold(v: View, x: int, y: int) {
    || (x >= 0 && y >= 0 && x + 5 <= v.width && y + 5 <= v.height)
    || exists e :: e in v.neutrals && e.typeName == GoldMine && HasLeft(e) && e.x == x && e.y == y
  }

  /** Whether an order may be given: what trains stands with room in its queue, what
      researches or docks an annex stands and the research is new, what is selected is
      in sight, builders have a place, sources have something left and holders room. */
  predicate Lawful(v: View, cmd: Command) {
    match cmd
    case Train(trainer, _) => MayTrain(v, trainer)
    case Research(researcher, r) => MineStanding(v, researcher) && r !in v.researched && r !in v.researching
    case Dock(primary, _, _, _) => MineStanding(v, primary)
    case Select(id) => MineInSight(v, id)
    case Build(builder, _, x, y) => Mine(v, builder) && MayHold(v, x, y)
    case Board(holder) => MayBoard(v, holder)
    case Unload(holder) => MayUnload(v, holder)
    case UseSkill(_, caster, _) => caster.None? || Mine(v, caster.value)
    case Send(target) => MayGather(v, target)
    case _ => true
  }

  ghost predicate Orderly(v: View, commands: seq<Command>) {
    forall cmd | cmd in commands :: Lawful(v, cmd)
  }

  /** Whether a group is of my own entities. */
  ghost predicate Own(v: View, group: seq<Entity>) {
    forall e | e in group :: e in v.mine
  }

  lemma OwnNames(v: View, group: seq<Entity>, e: Entity)
    requires Own(v, group) && e in group
    ensures Mine(v, e.id) && (!e.hidden ==> MineInSight(v, e.id)) && (!e.rising ==> MineStanding(v, e.id))
    ensures !e.rising && |e.trainQueue| < 2 ==> MayTrain(v, e.id)
    ensures (!e.rising && |e.passengers| < 4 ==> MayBoard(v, e.id)) && (|e.passengers| > 0 ==> MayUnload(v, e.id))
    ensures !e.rising && HasLeft(e) ==> MayGather(v, e.id)
  {
  }

  lemma OrderlyNext(v: View, commands: seq<Command>, cmd: Command)
    requires Lawful(v, cmd)
    ensures Orderly(v, commands) ==> Orderly(v, commands + [cmd])
  {
  }
}
