/**
 Runs of thinks: what holds over any number of them, for every brain.
 */
module AiRuns {
  import opened Wrappers
  import opened AiView
  import opened AiChassis
  import opened AiEconomy
  import opened Brains
  import SiteRing

  datatype Brain = HumanBrain | OrcBrain | SwarmBrain | ConclaveBrain | ElvesBrain | TerranBrain | UndeadBrain

  /** The structure a brain's think has in plan: the next it wants, when, the deadline
      aside, it would be sent for. */
  ghost function Plan(brain: Brain, c: Content, v: View): Option<TypeName> {
    match brain
    case HumanBrain => HumanPlan(c, v)
    case OrcBrain => OrcPlan(c, v)
    case SwarmBrain => SwarmPlan(c, v)
    case ConclaveBrain => ConclavePlan(c, v)
    case ElvesBrain => ElvesPlan(c, v)
    case TerranBrain => TerranPlan(c, v)
    case UndeadBrain => UndeadPlan(c, v)
  }

  /**
   Whether what a think's other orders leave of the stockpile covers the structure
   it sends for. Four brains put its price aside before they buy anything else, so
   it always does; the other three buy a research, a change of form or an annex first.
   */
  ghost predicate Covers(brain: Brain, c: Content, v: View) {
    match brain
    case HumanBrain => HumanCovers(c, v)
    case OrcBrain => OrcCovers(c, v)
    case TerranBrain => TerranCovers(c, v)
    case SwarmBrain => true
    case ConclaveBrain => true
    case ElvesBrain => true
    case UndeadBrain => true
  }

  method Think(brain: Brain, content: Content, view: View, state: AiState) returns (commands: seq<Command>)
    requires state.Valid() && DistinctIds(view.mine)
    modifies state
    ensures state.Valid() && Proper(view, commands)
    ensures Answers(content, view, commands, old(state.buildDeadline), state.buildDeadline,
                    Plan(brain, content, view), Covers(brain, content, view))
  {
    hide HumanPlan, OrcPlan, SwarmPlan, ConclavePlan, ElvesPlan, TerranPlan, UndeadPlan,
         HumanCovers, OrcCovers, TerranCovers, Answers, Proper;
    match brain
    case HumanBrain => commands := HumanThink(content, view, state);
    case OrcBrain => commands := OrcThink(content, view, state);
    case SwarmBrain => commands := SwarmThink(content, view, state);
    case ConclaveBrain => commands := ConclaveThink(content, view, state);
    case ElvesBrain => commands := ElvesThink(content, view, state);
    case TerranBrain => commands := TerranThink(content, view, state);
    case UndeadBrain => commands := UndeadThink(content, view, state);
  }

  /**
   What every think of a run keeps. It sends for one structure at most, the one in
   its plan, exactly when it `sends`, and never while one rises; its other spending stays within
   stock and headroom, and with the structure counted in exactly when none is sent
   for or the rest of the stockpile covers it.
   */
  ghost predicate KeepsBounds(brain: Brain, c: Content, v: View, commands: seq<Command>, sends: bool) {
    && Proper(v, commands)
    && WithinStock(c, v, commands)
    && (WithinStockBuilding(c, v, commands) <==> (sends ==> Covers(brain, c, v)))
    && (sends ==> Plan(brain, c, v).Some? && !AnyRising(v.mine))
    && Structures(commands) == (if sends then [Plan(brain, c, v).value] else [])
  }

  /** Whether at a tick the first deadline has passed, and two hundred ticks since
      every structure sent for so far. */
  ghost predicate Rested(c: Content, first: Option<nat>, views: seq<View>, log: seq<seq<Command>>, tick: nat)
    requires |log| <= |views|
  {
    && (first.None? || tick >= first.value)
    && forall j | 0 <= j < |log| && Structures(log[j]) != [] :: views[j].tick + 200 <= tick
  }

  ghost predicate Reached(views: seq<View>, n: nat, tick: nat) {
    forall j | 0 <= j < n && j < |views| :: views[j].tick <= tick
  }

  predicate Passed(deadline: Option<nat>, tick: nat) {
    deadline.None? || tick >= deadline.value
  }

  /** The deadline a brain keeps says how long it has rested. */
  ghost predicate KeepsTime(c: Content, first: Option<nat>, views: seq<View>, log: seq<seq<Command>>, deadline: Option<nat>)
    requires |log| <= |views|
  {
    forall tick | Reached(views, |log|, tick) :: Passed(deadline, tick) <==> Rested(c, first, views, log, tick)
  }

  lemma TimeStarts(c: Content, first: Option<nat>, views: seq<View>)
    ensures KeepsTime(c, first, views, [], first)
  {
  }

  lemma TimeGoesOn(c: Content, first: Option<nat>, views: seq<View>, log: seq<seq<Command>>, commands: seq<Command>,
                   before: Option<nat>, after: Option<nat>)
    requires |log| < |views| && Reached(views, |log|, views[|log|].tick)
    requires KeepsTime(c, first, views, log, before)
    requires Paced(views[|log|], before, after, |Structures(commands)|)
    ensures KeepsTime(c, first, views, log + [commands], after)
  {
    hide Structures;
    var n, next := |log|, log + [commands];
    assert next[n] == commands && forall j | 0 <= j < n :: next[j] == log[j];
    forall tick | Reached(views, n + 1, tick)
      ensures Passed(after, tick) <==> Rested(c, first, views, next, tick)
    {
      assert views[n].tick <= tick && Reached(views, n, tick);
      assert Passed(before, tick) <==> Rested(c, first, views, log, tick);
      assert Passed(before, views[n].tick) <==> Rested(c, first, views, log, views[n].tick);
    }
  }

  /** Whether the `i`-th think of a run sends for a structure: the view is ready for
      one, and every earlier one lies two hundred ticks back. */
  ghost predicate SendsAt(brain: Brain, c: Content, first: Option<nat>, views: seq<View>, log: seq<seq<Command>>, i: nat)
    requires i < |log| <= |views|
  {
    Plan(brain, c, views[i]).Some? && Rested(c, first, views, log[..i], views[i].tick)
  }

  /**
   A run of thinks with ticks that never go back: every think keeps its bounds,
   and two that send for a structure lie two hundred ticks apart.
   */
  method Run(brain: Brain, content: Content, views: seq<View>, state: AiState) returns (log: seq<seq<Command>>)
    requires state.Valid()
    requires forall i | 0 <= i < |views| :: DistinctIds(views[i].mine)
    requires forall i, j | 0 <= i < j < |views| :: views[i].tick <= views[j].tick
    modifies state
    ensures state.Valid() && |log| == |views|
    ensures forall i | 0 <= i < |views| ::
              KeepsBounds(brain, content, views[i], log[i], SendsAt(brain, content, old(state.buildDeadline), views, log, i))
    ensures forall i, j | 0 <= i < j < |views| && Structures(log[i]) != [] && Structures(log[j]) != [] ::
              views[i].tick + 200 <= views[j].tick
  {
    hide Tally, DistinctIds, Structures, Plan, Rested, KeepsBounds, KeepsTime, Paced, Answers, SendsAt;
    log := [];
    ghost var first := state.buildDeadline;
    TimeStarts(content, first, views);
    for n := 0 to |views|
      invariant state.Valid() && |log| == n
      invariant forall i | 0 <= i < n ::
          KeepsBounds(brain, content, views[i], log[i], SendsAt(brain, content, first, views, log, i))
      invariant KeepsTime(content, first, views, log, state.buildDeadline)
    {
      ghost var before, past := state.buildDeadline, log;
      var commands := Think(brain, content, views[n], state);
      TimeTells(content, first, views, past, before);
      ThinkKeepsBounds(brain, content, views[n], commands, before, state.buildDeadline);
      TimeGoesOn(content, first, views, past, commands, before, state.buildDeadline);
      log := log + [commands];
      forall i: nat | i <= n
        ensures i < n ==> SendsAt(brain, content, first, views, log, i) == SendsAt(brain, content, first, views, past, i)
        ensures i == n ==> SendsAt(brain, content, first, views, log, n)
                           == (Plan(brain, content, views[n]).Some? && Rested(content, first, views, past, views[n].tick))
      {
        SendsAtPast(brain, content, first, views, past, commands, i);
      }
    }
    forall i, j | 0 <= i < j < |views| && Structures(log[i]) != [] && Structures(log[j]) != []
      ensures views[i].tick + RETRY_TICKS <= views[j].tick
    {
      SentIsRested(brain, content, first, views, log, j);
      RestsApart(content, first, views, log, i, j);
    }
  }

  lemma SendsAtPast(brain: Brain, c: Content, first: Option<nat>, views: seq<View>, past: seq<seq<Command>>,
                    commands: seq<Command>, i: nat)
    requires i <= |past| < |views|
    ensures i < |past| ==> SendsAt(brain, c, first, views, past + [commands], i) == SendsAt(brain, c, first, views, past, i)
    ensures i == |past| ==> SendsAt(brain, c, first, views, past + [commands], i)
                            == (Plan(brain, c, views[i]).Some? && Rested(c, first, views, past, views[i].tick))
  {
    hide Plan, Rested;
    assert (past + [commands])[..i] == past[..i];
    assert past[..|past|] == past;
  }

  lemma SentIsRested(brain: Brain, c: Content, first: Option<nat>, views: seq<View>, log: seq<seq<Command>>, j: nat)
    requires j < |log| == |views|
    requires KeepsBounds(brain, c, views[j], log[j], SendsAt(brain, c, first, views, log, j)) && Structures(log[j]) != []
    ensures Rested(c, first, views, log[..j], views[j].tick)
  {
    hide Plan, Rested, Proper, WithinStock, WithinStockBuilding, Covers, Structures;
  }

  lemma TimeTells(c: Content, first: Option<nat>, views: seq<View>, log: seq<seq<Command>>, deadline: Option<nat>)
    requires |log| < |views| && Reached(views, |log|, views[|log|].tick)
    requires KeepsTime(c, first, views, log, deadline)
    ensures var v := views[|log|]; DeadlinePassed(v, deadline) <==> Rested(c, first, views, log, v.tick)
  {
    hide Rested;
    assert Passed(deadline, views[|log|].tick) <==> DeadlinePassed(views[|log|], deadline);
  }

  lemma ThinkKeepsBounds(brain: Brain, c: Content, v: View, commands: seq<Command>, before: Option<nat>, after: Option<nat>)
    requires Proper(v, commands)
    requires Answers(c, v, commands, before, after, Plan(brain, c, v), Covers(brain, c, v))
    ensures KeepsBounds(brain, c, v, commands, DeadlinePassed(v, before) && Plan(brain, c, v).Some?)
    ensures Paced(v, before, after, |Structures(commands)|)
  {
    hide Proper, WithinStock, WithinStockBuilding, Covers, Plan, Structures;
  }

  /** Two structures of one run are sent for at least two hundred ticks apart. */
  lemma RestsApart(c: Content, first: Option<nat>, views: seq<View>, log: seq<seq<Command>>, i: nat, j: nat)
    requires i < j < |views| == |log|
    requires Structures(log[i]) != [] && Rested(c, first, views, log[..j], views[j].tick)
    ensures views[i].tick + RETRY_TICKS <= views[j].tick
  {
    assert log[..j][i] == log[i];
  }

  // ─── Fair sites ───────────────────────────────────────────────────────────

  lemma {:induction false} SameValidSameNext(f: nat -> bool, g: nat -> bool, n: nat, p: nat, tries: nat)
    requires p < n && forall i :: f(i) == g(i)
    ensures SiteRing.NextValid(f, n, p, tries) == SiteRing.NextValid(g, n, p, tries)
    decreases tries
  {
    if tries > 0 {
      SameValidSameNext(f, g, n, SiteRing.After(p, n), tries - 1);
    }
  }

  /** Where the ring stands after `k` picks. */
  function Standing(valid: nat -> bool, n: nat, p: nat, k: nat): (q: nat)
    requires p < n && SiteRing.ValidPlaces(valid, n) != {}
    ensures q < n
    decreases k
  {
    if k == 0 then p else Standing(valid, n, SiteRing.After(SiteRing.Pick(valid, n, p), n), k - 1)
  }

  lemma {:induction false} PicksNext(valid: nat -> bool, n: nat, p: nat, k: nat)
    requires p < n && SiteRing.ValidPlaces(valid, n) != {}
    ensures var q := Standing(valid, n, p, k);
            && SiteRing.Picks(valid, n, p, k + 1) == SiteRing.Picks(valid, n, p, k) + [SiteRing.Pick(valid, n, q)]
            && Standing(valid, n, p, k + 1) == SiteRing.After(SiteRing.Pick(valid, n, q), n)
    decreases k
  {
    if k > 0 {
      PicksNext(valid, n, SiteRing.After(SiteRing.Pick(valid, n, p), n), k - 1);
    }
  }

  /** Whether an order sends for a structure at the `i`-th offset round the hall. */
  predicate StandsAt(cmd: Command, hall: Entity, i: nat) {
    i < RING && cmd.Build? && cmd.x == hall.x + OFFSETS[i].0 && cmd.y == hall.y + OFFSETS[i].1
  }

  /** What a run of tries has built, and where it has left the ring. */
  ghost predicate Taken(valid: nat -> bool, hall: Entity, p: nat, place: nat, built: seq<Command>, sites: seq<nat>)
    requires p < RING
  {
    && |built| == |sites|
    && (forall k | 0 <= k < |built| :: StandsAt(built[k], hall, sites[k]))
    && if SiteRing.ValidPlaces(valid, RING) == {} then sites == [] && place == p
       else sites == SiteRing.Picks(valid, RING, p, |sites|) && place == Standing(valid, RING, p, |sites|)
  }

  /** One try, on a fresh budget: the next valid offset in ring order, or nothing changes. */
  method TryOnce(content: Content, view: View, state: AiState, workers: seq<Entity>,
                 hall: Entity, wanted: Option<TypeName>, annex: Option<Annex>, ghost valid: nat -> bool)
    returns (built: seq<Command>)
    requires state.Valid()
    requires forall i: nat :: valid(i) == SiteInside(content, view.width, view.height, hall, annex, i)
    modifies state
    ensures state.Valid()
    ensures built == [] ==> state.Place() == old(state.Place())
    ensures built != [] ==>
              && SiteRing.ValidPlaces(valid, RING) != {} && |built| == 1
              && var i := SiteRing.Pick(valid, RING, old(state.Place()));
                 StandsAt(built[0], hall, i) && state.Place() == SiteRing.After(i, RING)
  {
    hide Tally, Amount, BuildClear, Turn.NextSite, SiteRing.ValidPlaces, SiteRing.Pick, SiteInside, Turn.Books, Stands;
    var turn := new Turn(content, view);
    NextSiteIsPick(turn, hall, annex, valid, state.Place());
    var _ := turn.BuildNext(state, workers, Some(hall), wanted, annex);
    built := turn.commands;
  }

  lemma TakenNext(valid: nat -> bool, hall: Entity, p: nat, place: nat, built: seq<Command>, sites: seq<nat>, cmd: Command)
    requires p < RING && place < RING && SiteRing.ValidPlaces(valid, RING) != {}
    requires Taken(valid, hall, p, place, built, sites) && StandsAt(cmd, hall, SiteRing.Pick(valid, RING, place))
    ensures var i := SiteRing.Pick(valid, RING, place);
            Taken(valid, hall, p, SiteRing.After(i, RING), built + [cmd], sites + [i])
  {
    hide SiteRing.ValidPlaces, SiteRing.Pick, SiteRing.Picks, Standing, StandsAt;
    PicksNext(valid, RING, p, |sites|);
  }

  /**
   With the hall, the map and the annex fixed, any run of tries takes the valid
   offsets in ring order, so as many successes as there are valid offsets use
   each of them exactly once; tries that build nothing in between change nothing.
   */
  method FairSites(content: Content, views: seq<View>, state: AiState, workers: seq<seq<Entity>>,
                   hall: Entity, wanted: seq<Option<TypeName>>, annex: Option<Annex>, width: int, height: int)
    returns (built: seq<Command>, ghost sites: seq<nat>)
    requires state.Valid() && |views| == |workers| == |wanted|
    requires forall i | 0 <= i < |views| :: views[i].width == width && views[i].height == height
    modifies state
    ensures state.Valid()
    ensures var valid := (i: nat) => SiteInside(content, width, height, hall, annex, i);
            && Taken(valid, hall, old(state.Place()), state.Place(), built, sites)
            && var places := SiteRing.ValidPlaces(valid, RING);
               |sites| == |places| ==> SiteRing.Lists(sites, places)
  {
    ghost var valid := (i: nat) => SiteInside(content, width, height, hall, annex, i);
    ghost var p := state.Place();
    built, sites := [], [];
    for n := 0 to |views|
      invariant state.Valid() && Taken(valid, hall, p, state.Place(), built, sites)
    {
      hide Taken, SiteRing.ValidPlaces, SiteRing.Pick, StandsAt, SiteInside, AiState.Place, AiState.Valid;
      ghost var place := state.Place();
      var one := TryOnce(content, views[n], state, workers[n], hall, wanted[n], annex, valid);
      if one != [] {
        TakenNext(valid, hall, p, place, built, sites, one[0]);
        built, sites := built + [one[0]], sites + [SiteRing.Pick(valid, RING, place)];
      }
    }
    if SiteRing.ValidPlaces(valid, RING) != {} {
      SiteRing.LapIsFair(valid, RING, p);
    }
  }

  /** `SiteFits`, which of the view reads the map's size alone. */
  predicate SiteInside(c: Content, width: int, height: int, hall: Entity, annex: Option<Annex>, i: nat) {
    SiteFits(c, View(0, None, None, 0, 0, width, height, [], [], [], [], [], []), hall, annex, i)
  }

  lemma NextSiteIsPick(turn: Turn, hall: Entity, annex: Option<Annex>, valid: nat -> bool, place: nat)
    requires place < RING
    requires forall i: nat :: valid(i) == SiteInside(turn.content, turn.view.width, turn.view.height, hall, annex, i)
    ensures turn.NextSite(hall, annex, place, RING)
            == if SiteRing.ValidPlaces(valid, RING) == {} then None else Some(SiteRing.Pick(valid, RING, place))
  {
    var fits := (i: nat) => SiteFits(turn.content, turn.view, hall, annex, i);
    SameValidSameNext(fits, valid, RING, place, RING);
    SiteRing.NextIsPick(valid, RING, place);
  }

  // ─── Where the stockpile is spent twice ───────────────────────────────────

  /** Every price a hundred gold and nothing else. */
  function Dear(): Content {
    Content((_: TypeName) => [PriceEntry(Gold, 100)], (_: TypeName) => [], (_: TypeName) => Size(1, 1), (_: TypeName) => None,
            (_: ResearchName) => 100, (_: ResearchName) => 0)
  }

  function Built(id: nat, t: TypeName, queue: seq<TypeName>): Entity {
    Entity(id, t, 10, 10, false, true, false, false, queue, [], false, None, None, None)
  }

  /** A hundred gold, headroom to spare, and a hall whose queue is full. */
  function Hundred(mine: seq<Entity>): View {
    View(0, Some(100), None, 10, 0, 96, 96, mine, [], [], [], [], [])
  }

  /** A view on which a brain sends for one structure and buys one thing besides. */
  function Cramped(brain: Brain): (v: View)
    ensures |v.mine| == 5
    ensures forall i | 0 <= i < 5 :: v.mine[i].id == i + 1 && !v.mine[i].rising
  {
    match brain
    case OrcBrain =>
      Hundred([Built(1, GreatHall, [Peon, Peon]), Built(2, Peon, []), Built(3, WarCamp, []), Built(4, PigFarm, []), Built(5, Grunt, [])])
    case TerranBrain =>
      Hundred([Built(1, CommandCenter, [Scv, Scv]), Built(2, Scv, []), Built(3, Refinery, []), Built(4, Barracks, []), Built(5, Factory, [])])
    case _ =>
      Hundred([Built(1, TownHall, [Peasant, Peasant]), Built(2, Peasant, []), Built(3, TrainingCamp, []), Built(4, Blacksmith, []),
               Built(5, Archer, [])])
  }

  function Alone(e: Entity, t: TypeName): seq<Entity> {
    if e.typeName == t then [e] else []
  }

  lemma OfTypeFive(a: Entity, b: Entity, d: Entity, e: Entity, f: Entity, t: TypeName)
    ensures OfType([a, b, d, e, f], t) == Alone(a, t) + Alone(b, t) + Alone(d, t) + Alone(e, t) + Alone(f, t)
  {
    var all := [a, b, d, e, f];
    assert all[..4] == [a, b, d, e] && [a, b, d, e][..3] == [a, b, d] && [a, b, d][..2] == [a, b] && [a, b][..1] == [a] && [a][..0] == [];
    assert OfType([], t) == [];
    assert OfType([a], t) == Alone(a, t);
    assert OfType([a, b], t) == Alone(a, t) + Alone(b, t);
    assert OfType([a, b, d], t) == Alone(a, t) + Alone(b, t) + Alone(d, t);
    assert OfType([a, b, d, e], t) == Alone(a, t) + Alone(b, t) + Alone(d, t) + Alone(e, t);
  }

  lemma DearPrices()
    ensures forall t :: CostOf(Dear(), t, Gold) == 100 && CostOf(Dear(), t, Wood) == 0
  {
    forall t
      ensures CostOf(Dear(), t, Gold) == 100 && CostOf(Dear(), t, Wood) == 0
    {
      assert Dear().price(t)[1..] == [];
    }
  }

  lemma RoomByHall(mine: seq<Entity>, hall: Entity)
    requires hall.x == 10 && hall.y == 10
    ensures AnySite(Dear(), Hundred(mine), hall, None)
  {
    assert SiteFits(Dear(), Hundred(mine), hall, None, 0);
  }

  lemma FullQueue(brain: Brain, halls: seq<Entity>, workers: seq<Entity>, t: TypeName)
    requires First(halls).Some? ==> |First(halls).value.trainQueue| >= MAX_QUEUE
    ensures AfterWorkers(Dear(), Stocked(Cramped(brain)), First(halls), halls, workers, t) == Purse(100, 0, 10)
  {
  }

  lemma FiveGroups(m: seq<Entity>)
    requires |m| == 5
    ensures forall t :: OfType(m, t) == Alone(m[0], t) + Alone(m[1], t) + Alone(m[2], t) + Alone(m[3], t) + Alone(m[4], t)
  {
    hide OfType, Alone;
    assert m == [m[0], m[1], m[2], m[3], m[4]];
    forall t
      ensures OfType(m, t) == Alone(m[0], t) + Alone(m[1], t) + Alone(m[2], t) + Alone(m[3], t) + Alone(m[4], t)
    {
      OfTypeFive(m[0], m[1], m[2], m[3], m[4], t);
    }
  }

  lemma IsHundred(brain: Brain)
    ensures Cramped(brain) == Hundred(Cramped(brain).mine) && FreshlyDear(Cramped(brain))
  {
  }

  lemma NothingRises(brain: Brain)
    ensures !AnyRising(Cramped(brain).mine) && DistinctIds(Cramped(brain).mine)
  {
    hide Cramped;
  }

  /** Nothing researched, and every research a hundred gold. */
  ghost predicate FreshlyDear(v: View) {
    && v.researched == [] && v.researching == []
    && forall r :: Dear().researchGold(r) == 100 && Dear().researchWood(r) == 0
  }

  lemma HumansGroups()
    ensures var m := Cramped(HumanBrain).mine;
            && |m| == 5 && m[0].x == 10 && m[0].y == 10 && |m[0].trainQueue| >= MAX_QUEUE && !m[3].rising && !m[2].rising && !m[4].rising
            && OfType(m, TownHall) == [m[0]]
            && OfType(m, Peasant) == [m[1]]
            && OfType(m, TrainingCamp) == [m[2]]
            && OfType(m, Blacksmith) == [m[3]]
            && OfType(m, Bunker) == []
  {
    hide OfType;
    FiveGroups(Cramped(HumanBrain).mine);
  }

  lemma HumansAreShort()
    ensures HumanPlan(Dear(), Cramped(HumanBrain)).Some? && !HumanCovers(Dear(), Cramped(HumanBrain))
  {
    hide OfType, CostOf, AnySite, AnyRising, AfterWorkers, Stocked, Cramped, Hundred, Dear;
    var v := Cramped(HumanBrain);
    HumansGroups();
    FullQueue(HumanBrain, [v.mine[0]], [v.mine[1]], Peasant);
    IsHundred(HumanBrain);
    RoomByHall(v.mine, v.mine[0]);
    DearPrices();
    NothingRises(HumanBrain);
    assert AnyStanding([v.mine[3]]) by {
      assert !([v.mine[3]][0].rising);
    }
  }

  lemma OrcsGroups()
    ensures var m := Cramped(OrcBrain).mine;
            && |m| == 5 && m[0].x == 10 && m[0].y == 10 && |m[0].trainQueue| >= MAX_QUEUE && !m[3].rising && !m[2].rising && !m[4].rising
            && OfType(m, GreatHall) == [m[0]]
            && OfType(m, Peon) == [m[1]]
            && OfType(m, WarCamp) == [m[2]]
            && OfType(m, PigFarm) == [m[3]]
            && OfType(m, SiegeWorks) == []
            && OfType(m, WatchTower) == []
            && OfType(m, GuardTower) == []
  {
    hide OfType;
    FiveGroups(Cramped(OrcBrain).mine);
  }

  lemma OrcsAreShort()
    ensures OrcPlan(Dear(), Cramped(OrcBrain)).Some? && !OrcCovers(Dear(), Cramped(OrcBrain))
  {
    hide OfType, CostOf, AnySite, AnyRising, AfterWorkers, Stocked, Cramped, Hundred, Dear;
    var v := Cramped(OrcBrain);
    OrcsGroups();
    FullQueue(OrcBrain, [v.mine[0]], [v.mine[1]], Peon);
    IsHundred(OrcBrain);
    RoomByHall(v.mine, v.mine[0]);
    DearPrices();
    NothingRises(OrcBrain);
    assert AnyStanding([v.mine[2]]) by {
      assert !([v.mine[2]][0].rising);
    }
  }

  lemma TerransGroups()
    ensures var m := Cramped(TerranBrain).mine;
            && |m| == 5 && m[0].x == 10 && m[0].y == 10 && |m[0].trainQueue| >= MAX_QUEUE && !m[3].rising && !m[2].rising && !m[4].rising
            && OfType(m, CommandCenter) == [m[0]]
            && OfType(m, Scv) == [m[1]]
            && OfType(m, Refinery) == [m[2]]
            && OfType(m, Barracks) == [m[3]]
            && OfType(m, Factory) == [m[4]]
            && OfType(m, MissileTurret) == []
            && OfType(m, TechLab) == []
  {
    hide OfType;
    FiveGroups(Cramped(TerranBrain).mine);
  }

  lemma TerransAreShort()
    ensures TerranPlan(Dear(), Cramped(TerranBrain)).Some? && !TerranCovers(Dear(), Cramped(TerranBrain))
  {
    hide OfType, CostOf, AnySite, AnyRising, AfterWorkers, Stocked, Cramped, Hundred, Dear;
    var v := Cramped(TerranBrain);
    TerransGroups();
    FullQueue(TerranBrain, [v.mine[0]], [v.mine[1]], Scv);
    IsHundred(TerranBrain);
    RoomByHall(v.mine, v.mine[0]);
    DearPrices();
    NothingRises(TerranBrain);
  }

  /** Each of the three brains that buy first spends one hundred gold twice. */
  method SpendsTwice(brain: Brain) returns (commands: seq<Command>)
    requires brain == HumanBrain || brain == OrcBrain || brain == TerranBrain
    ensures WithinStock(Dear(), Cramped(brain), commands) && !WithinStockBuilding(Dear(), Cramped(brain), commands)
  {
    hide Plan, Covers, HumanPlan, HumanCovers, OrcPlan, OrcCovers, TerranPlan, TerranCovers, WithinStock, WithinStockBuilding, Structures;
    ShortOnes(brain);
    var state := new AiState();
    commands := Think(brain, Dear(), Cramped(brain), state);
  }

  lemma ShortOnes(brain: Brain)
    requires brain == HumanBrain || brain == OrcBrain || brain == TerranBrain
    ensures Plan(brain, Dear(), Cramped(brain)).Some? && !Covers(brain, Dear(), Cramped(brain)) && DistinctIds(Cramped(brain).mine)
  {
    hide HumanPlan, HumanCovers, OrcPlan, OrcCovers, TerranPlan, TerranCovers;
    HumansAreShort();
    OrcsAreShort();
    TerransAreShort();
    NothingRises(brain);
    hide Cramped, Dear, DistinctIds;
  }
}
