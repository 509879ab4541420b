# Ferrets demo: a verified model

This project models the parts of the Ferrets real-time strategy demo that carry
state, loops and arithmetic, and proves what they promise:

- **Minimap** (`Segments`, `Slopes`, `Canvases`, `Composition`): the Bresenham line on a
  clipped row-major canvas, and the seven painted layers as a refinement of one
  per-cell rule of who wins.
- **AI** (`AiView`, `SiteRing`, `AiChassis`, `AiEconomy`, `AiArmy`, `Brains`,
  `AiRuns`, `AiPlans`): the chassis every race runs on and the seven thinks, written in the
  order the Lua text spends, with the bounds on spending, supply and structures
  for every view, every state and every run of thinks.
- **Warp-in** (`WarpIn`, `WarpRuns`): clicks given to warpers over commands that
  land ticks later, as a state machine of clicks, flushes, ticks, refusals and
  call-offs.
- **Placement ghost** (`Placement`): the verdict from partial knowledge, related
  across two worlds and to the simulation's own rule.
- **Requirement hints** (`Requirements`, `Readings`): the unmet part in words, and
  a reader that parses the words back.
- **Memory** (`Memory`, `Sightings`): remembered buildings and the sighting
  stamps against their specifications over whole histories of frames.
- **Lobby and map** (`Lobby`, `Rebinding`, `MapWater`): the local lobby's seats,
  the listener's debounce, and the water that walks cannot cross.

Objects the demo updates in place are classes whose methods are proved against
functions of the old state; pure code is functions and lemmas. `Fog` and
`Wrappers` hold two types the modules share. `dafny verify dfyconfig.toml`
checks the whole project.

## What the proofs found

- **Line.** 3*max(dx,dy) within the largest `i32` is enough for the loop's
  arithmetic. For any two ends whose distances are 32-bit integers, everything the
  loop computes stays one exactly when two bounds computed from the ends hold, one on
  the doubled error and one on the error with the x step taken off. Neither is idle: a
  level run breaks the first from 2^30 cells on, and distances of 2^31-2 and 2^31-1
  break the second alone.
- **Spending twice.** The comment at ferrets-demo/src/ai.rs:22-25 says a think never
  over-commits the stockpile. With the structure counted in three brains can: the
  human, orc and terran brains buy a research, a change of form or an annex after
  sending for a structure and before putting its price aside
  (ferrets-demo/src/ai.rs:445-454, 560-585, 1072-1137). The stockpile covers
  everything exactly when no structure is sent for or what those purchases leave
  covers it, a condition on the view that holds of every think of every run; for a
  refinery it always does. `AiRuns.Cramped` gives a view for each brain where it does
  not. The other four brains are always covered.
- **No way back.** The swarm grows an overlord only while the headroom is at least
  nothing (ferrets-demo/src/ai.rs:729-730). Once overlords are lost and the supply used
  exceeds what is provided, its think grows no larva at all, the overlord included.
- **Hints.** A negation prints as "not" before the first factor of what it
  negates, so "not both" reads as "not this one, and that one". The reading is
  right in exactly the worlds where every later factor holds. A tree with an
  empty list prints words that do not parse.
- **Stamps.** A stripped sprite keeps its stamp, so an entity stripped, passed
  over under a new key and reattached under that key is drawn with the old one.
  The render chain's order, with map changes confined to ticks, keeps this from
  arising.
- **Warp-in.** No record ever has a twin, but calling off a unit that still rises
  ends its warper's cooldown while a second command may be on its way, and a click can
  then put two orders for one warper on their way. In runs whose warp-ins all cool
  their warpers for the latency and two ticks at least, some click can do so exactly
  when, in some tick, a call-off has the last word on a warper whose order, given
  under another cooldown end, is still on its way after that tick.
- **Second wind.** The comment at ferrets-demo/src/ai.rs:659-660 promises the most
  battered ally; the code takes the nearest battered one. The two agree exactly when
  no battered ally farther off, or as far and later in the view, is worse hurt.
- **Fields.** The placement ghost reads the coverage the overlay shows, which leaves
  out what lies out of sight. A ban it cannot see makes it fit where the simulation
  refuses; a requirement it cannot see met makes it refuse where the simulation would
  not. A rule is free of both exactly when it counts only players always shown, as a
  requirement of one's own coverage does.

## Model

| member | source | states |
|---|---|---|
| Segments.RoundedIsNearest | ferrets-demo/src/minimap.rs:184-211 | no whole number of steps lies nearer the true height than the rounded one, and a tie goes down |
| Segments.SegmentRounds | ferrets-demo/src/minimap.rs:184-211 | the k-th cell takes k steps of the longer axis and k times the slope of the shorter, rounded to nearest, halves down, whichever axis is longer |
| Segments.AdvanceFollows | ferrets-demo/src/minimap.rs:184-211 | two independent step tests on one doubled error always move to the next rounded cell |
| Segments.ErrorWeighsSteps | ferrets-demo/src/minimap.rs:184-211 | at every turn the error is (j+1)*dx - (i+1)*dy for i steps along x and j along y |
| Segments.ErrorBracket | ferrets-demo/src/minimap.rs:184-211 | where the error lies at every turn, in terms of the two axes' lengths alone |
| Segments.SegmentEnds | ferrets-demo/src/minimap.rs:184-211 | the run meets its end at turn max(dx,dy) and at no other, so the loop stops after max(dx,dy)+1 cells |
| Segments.LineStaysInRange | ferrets-demo/src/minimap.rs:184-211 | with 3*max(dx,dy) within the largest i32, neither the error, its double nor its intermediate value leaves the i32 range |
| Segments.LongLineOverflows | ferrets-demo/src/minimap.rs:184-211 | for a level run the doubled error stays in range exactly when the run is shorter than 2^30 cells, at every turn |
| Segments.SegmentInBox | ferrets-demo/src/minimap.rs:184-211 | every visited point lies in the box the two ends span |
| Segments.SegmentConnected | ferrets-demo/src/minimap.rs:184-211 | consecutive points differ by at most one on each axis and by exactly one on the longer |
| Slopes.LeadAtMost | ferrets-demo/src/minimap.rs:184-211 | no turn's steps run further ahead of the slope than the largest multiple of the common step under half a step |
| Slopes.LeadAttained | ferrets-demo/src/minimap.rs:184-211 | and some turn before the last does |
| Slopes.LagAtMost | ferrets-demo/src/minimap.rs:184-211 | nor does any lag behind it further than the largest multiple not over half a step |
| Slopes.LagAttained | ferrets-demo/src/minimap.rs:184-211 | and some turn does |
| Slopes.StaysInRangeExactly | ferrets-demo/src/minimap.rs:184-211 | for any two ends whose distances are 32-bit integers, every value every turn computes - the error doubled, the error once the x step is taken off, the error it leaves - is one exactly when two bounds computed from the ends hold |
| Slopes.SteepOverflows | ferrets-demo/src/minimap.rs:184-211 | for distances 2^31-2 and 2^31-1 the doubled error stays in range at every turn, and the error less the x step does not |
| Canvases.Canvas.constructor | ferrets-demo/src/minimap.rs:130-136 | every cell starts at the fill color |
| Canvases.Canvas.OffsetsApart | ferrets-demo/src/minimap.rs:231-234 | row-major offsets of two different cells of the canvas are different |
| Canvases.Canvas.Offset | ferrets-demo/src/minimap.rs:231-234 | there is an offset exactly for the cells of the canvas, and its four bytes lie inside the buffer |
| Canvases.Canvas.Get | ferrets-demo/src/minimap.rs:154-162 | reads a cell of the canvas, and nothing past its edge |
| Canvases.Canvas.Put | ferrets-demo/src/minimap.rs:165-169 | exactly the named cell changes, or none past the edge; its four bytes, row-major, are red, green, blue and alpha |
| Canvases.Canvas.Fill | ferrets-demo/src/minimap.rs:173-179 | exactly the cells of the block take the color, its coordinates counting on from zero after the largest u32; none past the edge |
| Canvases.CoversSpan | ferrets-demo/src/minimap.rs:173-179 | a block that does not reach past the largest u32 covers exactly the cells it spans |
| Canvases.CoversExactly | ferrets-demo/src/minimap.rs:173-179 | and any block the cells its columns and rows count on to, back to zero after the largest u32 |
| Canvases.Canvas.Turn | ferrets-demo/src/minimap.rs:200-208 | one turn of the line's loop is one advance of the pen |
| Canvases.Canvas.Line | ferrets-demo/src/minimap.rs:184-211 | terminates, colors exactly the cells of the rounded segment that lie on the canvas, and leaves every other cell as it was |
| Canvases.Canvas.Outline | ferrets-demo/src/minimap.rs:216-222 | exactly the cells of the four closing segments take the color, in the corners' order |
| Canvases.OutlineCloses | ferrets-demo/src/minimap.rs:216-222 | the sides join each corner to the next and the last to the first |
| Canvases.Canvas.Restore | ferrets-demo/src/minimap.rs:225-228 | every byte, and so every cell, becomes the other canvas's |
| Composition.StableSortedIsStable | ferrets-demo/src/minimap.rs:686-694 | the blips end up in ascending significance with the blips of one significance in the order they came |
| Composition.SortedPaintingShowsWinner | ferrets-demo/src/minimap.rs:648-694 | painting in sorted order leaves on each cell the most significant blip covering it, the last in iteration order among equals, and none exactly where none covers |
| Composition.PaintingShowsEntities | ferrets-demo/src/minimap.rs:648-694 | over the entities: painting leaves on a cell the entity seen there that none seen there outranks - the selected over my own, my own over the team's, the team's over strangers' - the last of equals, in its color, and nothing exactly where none is seen |
| Composition.HurtBlinks | ferrets-demo/src/minimap.rs:712-718 | my hurt shows for twenty ticks after a hit and then for ten ticks in every twenty, six times over |
| Composition.UnseenShowsNowhere | ferrets-demo/src/minimap.rs:660-665 | with any other unseen entity in place of an unseen one every cell keeps its color |
| Composition.FieldsLieInOrder | ferrets-demo/src/minimap.rs:582-619 | blight hides creep and creep the terrain, and power, true sight and veil each tint what would show without them and those above |
| Composition.BareGroundShows | ferrets-demo/src/minimap.rs:621-637 | with nothing over the ground, unexplored ground is void, explored ground the dimmed bare terrain, and fields show where seen or revealed |
| Composition.PictureIsUnique | ferrets-demo/src/minimap.rs:573-701 | the per-cell rule admits one color a cell, so it determines the picture |
| Composition.GhostOrderIsIdle | ferrets-demo/src/minimap.rs:639-646 | the order remembered buildings are visited in, and how often, changes no cell |
| Composition.Minimap.PaintSolid | ferrets-demo/src/minimap.rs:582-597 | a field's shown cells take its color and every other cell keeps its own |
| Composition.Minimap.PaintTint | ferrets-demo/src/minimap.rs:598-619 | a field's shown cells are blended from what lay under them and every other cell keeps its own |
| Composition.Minimap.PaintFog | ferrets-demo/src/minimap.rs:621-637 | unexplored cells go dark, explored ones show the dimmed terrain without the fields, visible ones keep what they showed, and nothing changes under a reveal |
| Composition.Minimap.PaintGhosts | ferrets-demo/src/minimap.rs:639-646 | exactly the cells a remembered building covers show as remembered |
| Composition.Minimap.PaintBlips | ferrets-demo/src/minimap.rs:686-694 | each cell shows the last blip painted over it, or what it showed |
| Composition.Minimap.Compose | ferrets-demo/src/minimap.rs:573-701 | every cell shows the outline, else the entity seen there that outranks the others, the last of equals, white when selected, red while my own is hurt and else in its owner's color; else a remembered building, else fog over the terrain, else the fields over the terrain |
| Composition.Minimap.Refresh | ferrets-demo/src/minimap.rs:560-701 | recomposes unless tick, camera and reveal are unchanged; the picture shows the scene asked for whenever a skipped scene is the one last shown |
| AiView.PricedExactly | ferrets-demo/src/ai.rs:34-39 | what a price asks of a kind is its first entry's amount, nothing without one, and nothing else; it is nothing exactly when there is no such entry or the first is of nothing |
| AiView.MorphPricedExactly | ferrets-demo/src/ai.rs:329-339 | the same of a change of form, over the first morph into the form |
| AiView.ComesToExactly | ferrets-demo/src/ai.rs:22-49 | orders priced one by one so come to exactly one total of each kind and of supply: the bill's |
| AiView.BillTells | ferrets-demo/src/ai.rs:22-49 | so the bill tells whether the stockpile covers the orders, with and without the structure |
| AiChassis.Muster | ferrets-demo/src/ai.rs:90-105 | each group is my entities of that type in view order |
| AiChassis.OfTypeInOrder | ferrets-demo/src/ai.rs:90-105 | a group is all of its type and nothing else, in the order they stand |
| AiChassis.QueuedAddUp | ferrets-demo/src/ai.rs:58-66 | the units of a type queued are those in each queue together, whatever the order |
| AiChassis.Nearest | ferrets-demo/src/ai.rs:70-82 | the accepted candidate at the least squared distance, the earliest among equals, and none exactly when none is accepted |
| AiChassis.BuilderAmong | ferrets-demo/src/ai.rs:181-186 | the first idle worker in sight, else the first worker, and none exactly when there is none |
| AiChassis.FirstAtEase | ferrets-demo/src/ai.rs:181-186 | the first idle worker in sight, or none exactly when there is none |
| AiChassis.AffordsExactly | ferrets-demo/src/ai.rs:41-44 | a budget affords a type exactly when it holds what its price lists first of gold and of wood |
| AiChassis.WorkerDueExactly | ferrets-demo/src/ai.rs:123-134 | one more worker is due exactly when the hall stands with fewer than two queued, fewer than five stand or are queued, and supply and price are there |
| AiChassis.CanTrainExactly | ferrets-demo/src/ai.rs:279-291 | a training is within the budget exactly when supply is left and it holds what the price lists first of each kind |
| AiChassis.CanMorphExactly | ferrets-demo/src/ai.rs:344-355 | a unit can pay for a form exactly when it is in sight and the purse holds what the first such change asks of each kind |
| AiChassis.SiteFitsExactly | ferrets-demo/src/ai.rs:144-196 | an offset gives a place exactly when the five cells each way from it are on the map and every cell of the annex is on the map and none of the hall |
| AiChassis.OffsetsStandClear | ferrets-demo/src/ai.rs:32 | the five offsets are different and none puts a structure of four cells each way on a hall as large |
| AiChassis.Turn.constructor | ferrets-demo/src/ai.rs:114-120 | the budget starts at the stockpile and the headroom, which no order has spent yet |
| AiChassis.Turn.KeepWorkers | ferrets-demo/src/ai.rs:123-134 | one worker is ordered exactly under the brain's conditions, its price and supply leave the purse, and otherwise nothing changes |
| AiChassis.Turn.TrainFrom | ferrets-demo/src/ai.rs:279-291 | the training is placed exactly when the building stands enabled with room in its queue and the budget covers it |
| AiChassis.Turn.TrainFirst | ferrets-demo/src/ai.rs:456-468 | one training at most, from the first building that takes it, exactly when the budget covers it and there is one; its price and supply leave the purse |
| AiChassis.Turn.BuyResearch | ferrets-demo/src/ai.rs:298-317 | the research goes to the first standing host exactly when it is wanted and the budget covers it; its price leaves the purse when wanted and the stockpile only when bought |
| AiChassis.Turn.Reserve | ferrets-demo/src/ai.rs:321-326 | exactly the wanted price leaves what may be spent, and whether the stockpile covers everything stays as it was |
| AiChassis.Turn.MorphAny | ferrets-demo/src/ai.rs:344-355 | the change is placed exactly for a unit in sight whose price the budget covers, and keeps the account |
| AiChassis.Turn.MorphOne | ferrets-demo/src/ai.rs:358-361 | the same for idle units alone |
| AiChassis.GrowingExactly | ferrets-demo/src/ai.rs:725-739 | a larva grows exactly when the headroom allows it and one may |
| AiChassis.GrowingIsFirst | ferrets-demo/src/ai.rs:725-739 | and then it is the first that may |
| AiChassis.Turn.MorphFirst | ferrets-demo/src/ai.rs:567-576 | one change at most, of the first idle unit, standing where that is asked, that can pay; its price leaves the purse |
| AiChassis.Turn.MorphAnyFirst | ferrets-demo/src/ai.rs:793-799 | one change at most, of the first unit in sight that can pay; its price leaves the purse |
| AiChassis.Turn.Grow | ferrets-demo/src/ai.rs:725-739 | the first larva that may is selected and grown, exactly when the headroom allows; it is marked taken, its price and supply leave the purse |
| AiChassis.Turn.RaiseAnnex | ferrets-demo/src/ai.rs:1024-1034 | the annex goes up on the dock's own cell exactly when the primary stands and the budget covers it |
| AiChassis.Turn.TakeSite | ferrets-demo/src/ai.rs:187-207 | the next ring offset that gives a place is taken and the ring moves past it; with none the ring stands where it stood |
| AiChassis.Turn.Found | ferrets-demo/src/ai.rs:196-205 | sending for an affordable structure adds its price to the bill, leaves it owed and sets the deadline two hundred ticks on |
| AiChassis.CoveredExactly | ferrets-demo/src/ai.rs:114-120 | a structure sent for is covered exactly when what the other orders leave of the stockpile covers its price |
| AiChassis.Turn.BuildNext | ferrets-demo/src/ai.rs:169-208 | a builder is sent exactly when nothing rises, the deadline has passed, hall, worker and price are there and some offset gives a place; it goes to the next such offset in ring order, and else ring and memory stand as they were |
| AiEconomy.AssignIdle | ferrets-demo/src/ai.rs:228-254 | no worker twice, one at most to a tree, the first free worker to wood while it is needed, none left without gold while there is some |
| AiEconomy.SourcesThere | ferrets-demo/src/ai.rs:217-226 | a tree, a seam or a standing source is there exactly while one of its kind has something left |
| AiEconomy.PulledAmong | ferrets-demo/src/ai.rs:256-266 | the first busy worker other than the builders without a load, else the first of them, none exactly when there is none |
| AiEconomy.PullOne | ferrets-demo/src/ai.rs:256-275 | only when no idle worker was there: the pulled worker goes to its nearest tree and is remembered |
| AiEconomy.AssignHarvesters | ferrets-demo/src/ai.rs:215-275 | needed wood no remembered busy worker covers is fetched whenever a tree has something left and a worker in sight can go; every idle worker in sight but the builder is sent while a gold mine has something left; no worker is sent twice, one at most to a tree; the remembered builder is never pulled; a loaded worker is pulled only when no eligible one is empty |
| AiEconomy.SendIdle | ferrets-demo/src/ai.rs:945-965 | wood that is needed is cut whenever anyone is free, by one or by all as asked, nobody cuts otherwise, and no free worker is left without a standing source while there is one |
| AiEconomy.SeamNear | ferrets-demo/src/ai.rs:908-911 | the seam nearest the hall |
| AiEconomy.RaiseOverSeam | ferrets-demo/src/ai.rs:902-928 | the mine or refinery is sent for exactly when nothing rises, the deadline has passed and seam, worker and price are there, on the seam's own cell, its price owed |
| AiEconomy.SendGhouls | ferrets-demo/src/ai.rs:1283-1302 | the first ghoul at ease goes to its nearest tree while wood is needed and there is one; exactly those that carry no load and that no needed wood holds muster |
| AiArmy.Goal | ferrets-demo/src/ai.rs:367-388 | a unit heads for its nearest enemy, with none in sight for the hall's mirror image across the map |
| AiArmy.March | ferrets-demo/src/ai.rs:374-399 | each unit at ease in sight is selected and sent where it heads, the others told nothing |
| AiArmy.InTurnParts | ferrets-demo/src/ai.rs:374-399 | orders given in turn are one part a unit, each what its unit is due after the parts before it, and nothing over |
| AiArmy.AttackWave | ferrets-demo/src/ai.rs:367-401 | nothing below the wave's size; then the fighters' orders and the walkers'; something marched exactly when some unit of the wave joins |
| AiArmy.ManBunker | ferrets-demo/src/ai.rs:474-485 | the first archers at ease board a standing bunker until two are aboard, once there are more than two archers |
| AiArmy.RestingInOrder | ferrets-demo/src/ai.rs:474-485 | the archers at ease are all idle ones in sight and no others, in the order they stand |
| AiArmy.ManningExactly | ferrets-demo/src/ai.rs:474-485 | those that board are the first of them, as many as bring a standing bunker to two, none with two archers or fewer or two aboard |
| AiArmy.HideWorkers | ferrets-demo/src/ai.rs:621-634 | a worker in sight with a foe within six cells boards the nearest farm with room, exactly when there is one |
| AiArmy.ReleaseWorkers | ferrets-demo/src/ai.rs:635-642 | an occupied farm lets its workers out exactly when no foe is within ten cells |
| AiArmy.CastNearFoe | ferrets-demo/src/ai.rs:488-496 | exactly the units that may cast and have a foe within reach do |
| AiArmy.Mend | ferrets-demo/src/ai.rs:662-674 | each shaman with the energy mends the nearest battered ally, exactly when there is one |
| AiArmy.BatteredIsHalfGone | ferrets-demo/src/ai.rs:662-674 | an ally other than the caster is battered exactly when it has lost more of its health than is left of it |
| AiArmy.MendsWorstExactly | ferrets-demo/src/ai.rs:659-674 | the mended ally is the most battered exactly when no battered ally the shaman would come to later is worse hurt |
| AiArmy.LoneBatteredIsMended | ferrets-demo/src/ai.rs:659-674 | so it is whenever one ally alone is battered |
| AiArmy.MendsNotTheWorst | ferrets-demo/src/ai.rs:659-674 | a view with a shaman and two battered grunts whose think mends the nearer, the other being worse hurt |
| AiArmy.Raise | ferrets-demo/src/ai.rs:1321-1334 | each idle necromancer with the energy raises the nearest body none before it was sent for, exactly when there is one, so no body is raised twice |
| Brains.HumanSite | ferrets-demo/src/ai.rs:434-445 | the structure the humans want is sent for exactly when the deadline has passed and purse, worker, hall and place are there; its price is owed |
| Brains.OrcSite | ferrets-demo/src/ai.rs:546-560 | the same for the orcs |
| Brains.OrcTowers | ferrets-demo/src/ai.rs:564-576 | what hardening a tower draws on the stockpile, when there are two, none is hard or at it and an idle standing one can pay |
| Brains.GrowOverlord | ferrets-demo/src/ai.rs:741-745 | the larva that becomes an overlord is selected and grown, its price leaves the purse; else nothing changes |
| Brains.OverlordingExactly | ferrets-demo/src/ai.rs:729-744 | an overlord grows exactly when headroom is short of two but not below nothing, no egg is on the way and some idle larva in sight can pay |
| Brains.GrowDrone | ferrets-demo/src/ai.rs:741-746 | the larva that becomes a drone is selected and grown while drones are short, its price and supply leave the purse; else nothing changes |
| Brains.SwarmLarvae | ferrets-demo/src/ai.rs:725-746 | exactly the orders of the overlord and of the drone, and what they leave of the purse |
| Brains.SwarmSite | ferrets-demo/src/ai.rs:748-757 | the same for the swarm |
| Brains.ConclaveSite | ferrets-demo/src/ai.rs:838-849 | the same for the conclave |
| Brains.ElvesSite | ferrets-demo/src/ai.rs:899-940 | the same for the elves, whose entangled mine comes first |
| Brains.TerranRefinery | ferrets-demo/src/ai.rs:1042-1074 | without a refinery it is sent for when due, else a depot from what its price leaves, and never both |
| Brains.TerranSite | ferrets-demo/src/ai.rs:1042-1089 | the same for the terrans, whose refinery comes first |
| Brains.TerranAnnexes | ferrets-demo/src/ai.rs:1090-1097 | what the annexes draw on the stockpile: the lab's price or, once it stands, the station's, when its primary stands and the budget covers it |
| Brains.GrowHall | ferrets-demo/src/ai.rs:1196-1206 | the first idle standing necropolis that can pay is selected and grown, exactly when a crypt stands and no grown hall does; its price leaves the purse |
| Brains.GrowTower | ferrets-demo/src/ai.rs:1208-1217 | the first idle standing ziggurat that can pay is selected and changed, exactly when there are two and no tower; its price leaves the purse |
| Brains.UndeadSite | ferrets-demo/src/ai.rs:1225-1265 | the same for the undead, whose haunted mine comes first |
| Brains.DocksTake | ferrets-demo/src/ai.rs:1016-1019 | a factory's dock takes a lab and a command center's a station, three cells along |
| Brains.HumanThink | ferrets-demo/src/ai.rs:409-511 | for every view and state trainings, researches, changes of form and annexes, each priced off the tables' first entries, stay within the stock and what takes supply within the headroom; one structure is sent for at most, the one the plan names, exactly when the deadline has passed and there is a plan; every order may be given - trainers stand with room queued, builders have a place, sources something left, holders room - and no body is raised twice; the stockpile covers the structure too exactly when none is sent for or what the weapons leave, if bought, covers it |
| Brains.OrcThink | ferrets-demo/src/ai.rs:518-692 | the same, the structure covered exactly when what the hardened tower and the ritual leave covers it |
| Brains.SwarmThink | ferrets-demo/src/ai.rs:700-812 | the same, the structure always covered; with headroom below nothing no larva is ordered to grow |
| Brains.ConclaveThink | ferrets-demo/src/ai.rs:818-869 | the same, the structure always covered |
| Brains.ElvesThink | ferrets-demo/src/ai.rs:876-979 | the same, the structure always covered, the entangled mine included |
| Brains.TerranThink | ferrets-demo/src/ai.rs:987-1157 | the same, the structure covered exactly when it is a refinery or what the annex leaves covers it; refinery and depot together are one structure at most |
| Brains.UndeadThink | ferrets-demo/src/ai.rs:1164-1347 | the same, the structure always covered, the haunted mine included; no body is raised twice |
| AiRuns.Think | ferrets-demo/src/ai.rs:409-1347 | all seven brains keep these bounds, each with its exact condition for the structure to be covered |
| AiRuns.Run | ferrets-demo/src/ai.rs:169-208 | over any run of thinks with ticks that never go back every think keeps its bounds, the orders priced off the tables by themselves; it sends for the one structure its plan names exactly when there is a plan, nothing rises and every earlier one lies two hundred ticks back, and covers it exactly when its brain's condition holds of the view |
| AiPlans.HumanWantsInOrder | ferrets-demo/src/ai.rs:434-444 | what the humans want is the first of: a camp while none stands or rises, a smithy so, a farm while fewer than two supply are left, a bunker so; none exactly when no line is unmet |
| AiPlans.OrcWantsInOrder | ferrets-demo/src/ai.rs:546-560 | the same down the orcs' list, the towers counted by pairs, plain or hardened |
| AiPlans.SwarmWantsInOrder | ferrets-demo/src/ai.rs:748-757 | the same down the swarm's list |
| AiPlans.ConclaveWantsInOrder | ferrets-demo/src/ai.rs:838-849 | the same down the conclave's list |
| AiPlans.ElvesWantInOrder | ferrets-demo/src/ai.rs:899-940 | the same down the elves' list, the entangled mine first |
| AiPlans.TerransWantInOrder | ferrets-demo/src/ai.rs:1042-1089 | the same down the terrans' list, the refinery first, but that a depot may go ahead of a missing refinery while supply is short |
| AiPlans.UndeadWantInOrder | ferrets-demo/src/ai.rs:1225-1265 | the same down the undead's list, the haunted mine first |
| AiPlans.PlansStand | ferrets-demo/src/ai.rs:169-208 | whatever any brain has in plan is next on its list, of the headroom its worker line leaves; the stockpile holds its price, nothing rises, and a hall and a worker of the brain's are there |
| AiPlans.FormsChangeWhen | ferrets-demo/src/ai.rs:564-576 | a tower is hardened only with all at rest and none hardened, a necropolis grows only once a crypt stands and no grown hall does, a ziggurat changes only without a spirit tower |
| AiRuns.SpendsTwice | ferrets-demo/src/ai.rs:445-454 | a human, an orc and a terran view on which the think sends for a hundred-gold structure and buys a hundred-gold research or annex from one hundred gold |
| AiRuns.FairSites | ferrets-demo/src/ai.rs:187-207 | over any run of tries with hall, map and annex fixed, the successes take the valid offsets in cyclic order, and as many successes as there are valid offsets use each exactly once |
| SiteRing.NextValidIsNearest | ferrets-demo/src/ai.rs:187-207 | the first valid place tried is the nearest valid one ahead on the ring |
| SiteRing.Pick | ferrets-demo/src/ai.rs:187-207 | a valid place, and none valid lies nearer ahead |
| SiteRing.LapIsFair | ferrets-demo/src/ai.rs:187-207 | as many picks as there are valid places use each exactly once, wherever the ring stands |
| WarpIn.Chosen | ferrets-demo/src/input.rs:1700-1712 | the warper a click is given to is a candidate and ready |
| WarpIn.ClickKeepsApart | ferrets-demo/src/input.rs:1686-1720 | no click ever records one warper twice under one cooldown end |
| WarpIn.ChosenIsFirst | ferrets-demo/src/input.rs:1726-1760 | a click goes to the first ready candidate in the leader-first selection order, and to none exactly when there is none |
| WarpIn.ChosenOverSelection | ferrets-demo/src/input.rs:1700-1760 | over the selection itself: of those that stand on the map, are of the leader's kind, may warp now and have no record of the last latency and a tick under their cooldown end, the click goes to the leader, else to the first selected, and to none exactly when there is none |
| WarpIn.ClickTakesFirst | ferrets-demo/src/input.rs:1675-1760 | after a click, with nothing landed, the ready candidates are the earlier ones without the first |
| WarpIn.ClicksGoRound | ferrets-demo/src/input.rs:1675-1768 | clicks inside one latency window go to the ready candidates one each in candidate order, and the rest to none |
| WarpIn.ClicksApart | ferrets-demo/src/input.rs:1675-1768 | however the worlds change between them, two clicks inside one latency window go to different warpers unless the first one's cooldown has moved |
| WarpIn.NotGivenAgain | ferrets-demo/src/input.rs:1726-1760 | a click goes to no warper whose record stands, nor to one that is not ready |
| WarpIn.OfferedAgain | ferrets-demo/src/input.rs:1675-1681 | while a warper's cooldown stands where its record found it, clicks pass it over for exactly the latency and a tick, and it is offered again after |
| WarpIn.OfferedOnLanding | ferrets-demo/src/input.rs:1763-1768 | once its cooldown has moved past every record of it, a warper is offered at once |
| WarpRuns.Dispatch.IssueWarp | ferrets-demo/src/input.rs:1686-1720 | the command goes to a ready warper whose record is kept with it, or to the leader when every selected warper that is ready has a record in flight; older records stay exactly while in flight |
| WarpRuns.Dispatch.FlushInput | crates/ferrets-bevy-plugin/src/systems/flush_input.rs:27-49 | buffered orders are committed to the frame a latency ahead, once a tick however often the update runs |
| WarpRuns.Dispatch.RunTick | crates/ferrets-simulation/src/game_loop/warp.rs:145-254 | the call-offs, the orders due and the call-offs after them, in order, then the next tick |
| WarpRuns.Dispatch.ExecuteDue | crates/ferrets-simulation/src/game_loop/warp.rs:186-214 | each order due lands or is refused in order; one that lands cools its warper and leaves a unit rising |
| WarpRuns.FirstDueLands | crates/ferrets-simulation/src/game_loop/warp.rs:186-214 | of a ready warper's orders due in a tick the first whose ground takes it lands and cools it, the rest are refused, and a warper still cooling down stands where it stood |
| WarpRuns.OneUnitLandsEach | crates/ferrets-simulation/src/game_loop/warp.rs:186-214 | each warper cooled in a tick has exactly one new unit rising, ready when it is, and no other warper moves |
| WarpRuns.LeftOverInOrder | crates/ferrets-simulation/src/game_loop/warp.rs:145-254 | the orders a tick leaves are those not due in it, in the order they stood |
| WarpRuns.Dispatch.FixedUpdate | crates/ferrets-bevy-plugin/src/systems/flush_input.rs:27-49 | one update is a flush and, unless blocked, one tick |
| WarpRuns.StepKeeps | crates/ferrets-simulation/src/game_loop/warp.rs:145-254 | every click, update and risen unit keeps records and queue apart and every order on time; from a state that keeps each warper to one order, it leaves one exactly when its call-offs are harmless, and then alone no click doubles |
| WarpRuns.Dispatch.CallOffUnit | crates/ferrets-simulation/src/game_loop/warp.rs:220-254 | the rising unit is gone; its warper's cooldown ends now exactly when the warper is still the payer's and cools down from that very warp-in, and is otherwise unchanged, as is every other warper's |
| WarpRuns.CallOffEnds | crates/ferrets-simulation/src/game_loop/warp.rs:244-253 | the same of the state, by warper and cooldown end alone |
| WarpRuns.CoolingEndsExactly | crates/ferrets-simulation/src/game_loop/warp.rs:220-254 | at any call-off of any tick of any run a warper that cools down is made ready exactly by calling off the unit it cools down from, which is its last still rising |
| WarpRuns.OlderCallOffKeepsCooling | crates/ferrets-simulation/src/game_loop/warp.rs:244-253 | so calling an older unit off never makes ready a warper that a later one cools |
| WarpRuns.TickEnds | crates/ferrets-simulation/src/game_loop/warp.rs:145-254 | after a tick a warper stands at it when a call-off has the last word, else where it stood or cooling down past any order on its way |
| WarpRuns.UpdateExactly | crates/ferrets-simulation/src/game_loop/warp.rs:220-254 | after an update some click puts two orders for one warper on their way exactly when a call-off has the last word on a warper whose order, given under another cooldown end, is still on its way |
| WarpRuns.RunExactly | crates/ferrets-simulation/src/game_loop/warp.rs:220-254 | over a run whose warp-ins cool their warpers past the latency no click at any point doubles a warper exactly when all call-offs are harmless |
| WarpRuns.LapsedHasRun | ferrets-demo/src/input.rs:1675-1681 | a record that is no longer in flight has no order on its way any more |
| WarpRuns.RefusedIsOfferedAgain | ferrets-demo/src/input.rs:1675-1768 | in any run a warper given a click, none since, whose cooldown has not moved is passed over for the latency and a tick and offered from then on |
| WarpRuns.Dispatch.Run | ferrets-demo/src/input.rs:1675-1768 | over any run of clicks, updates, blocks, landings, refusals and call-offs no two records are twins; with cooldowns outlasting the latency no click at any point puts two orders for one warper on their way exactly when all call-offs are harmless |
| WarpRuns.CallOffDoubles | crates/ferrets-simulation/src/game_loop/warp.rs:220-254 | a run from the start - click, land, cool down, click, call the first unit off, click - that puts two orders for one warper on their way |
| Placement.VerdictReadsExploredAlone | ferrets-demo/src/input.rs:1916-1949 | the ground verdict is the same in any two maps that agree on the explored cells of the footprint |
| Placement.WholeTakesEach | crates/ferrets-nav-grid/src/nav_grid.rs:454-500 | ground that takes a whole footprint takes each cell of it alone |
| Placement.WholeOnOneLevel | crates/ferrets-nav-grid/src/nav_grid.rs:298-306 | and takes a standing footprint on one level |
| Placement.EdgesCrossBothWays | crates/ferrets-nav-grid/src/nav_grid.rs:173-204 | an edge is crossed the same both ways: over ramps along one level or up a ramp that rises toward the higher cell, over cliffs one level at most |
| Placement.StandingGroundExactly | crates/ferrets-simulation/src/ground.rs:47-56 | a standing footprint is taken exactly when each cell is on the map, of its terrains and on no slope where its layer spans levels, all on one level: no edge needs asking about |
| Placement.MoverGroundExactly | crates/ferrets-simulation/src/ground.rs:47-56 | a mover's exactly when each cell could be built on by itself and every two neighbors may be crossed between |
| Placement.KnownGroundExactly | ferrets-demo/src/input.rs:1916-1949 | however much is explored, the ghost takes a standing footprint's ground exactly when every explored cell could be built on by itself and they lie on one level |
| Placement.KnownMoverGroundExactly | ferrets-demo/src/input.rs:1916-1949 | and a mover's when every explored cell could, its edges asked about only with no cell unknown |
| Placement.StandingGhostFitsExactly | ferrets-demo/src/input.rs:1797-1843 | a standing ghost fits exactly when its cells are on the map, the explored ones could be built on and lie level, nothing made out blocks it and the fields shown allow it |
| Placement.KnownBadCellRefuses | ferrets-demo/src/input.rs:1916-1949 | one explored cell that cannot be built on refuses the ghost, and two explored levels a standing one, whatever else is known |
| Placement.ExploringOnlyRefuses | ferrets-demo/src/input.rs:1916-1949 | exploring more can only turn fits into does not fit |
| Placement.KnowledgeOnlyRefuses | ferrets-demo/src/input.rs:1797-1843 | nor can making out more footprints, or both, make a ghost fit, the fields in sight being the same |
| Placement.BlocksIsEngineRule | ferrets-demo/src/input.rs:1955-1993 | the one test on a made-out footprint is the simulation's two, marked cells and held ground, together |
| Placement.OnlyPassablesShare | crates/ferrets-content/src/location.rs:39-50 | only two passables share cells, whichever came first |
| Placement.ShownDecides | ferrets-demo/src/render.rs:3184-3219 | the overlay shows only coverage that is there, so a ghost meets no requirement the simulation would not and heeds no ban it would not |
| Placement.RuleByCells | crates/ferrets-simulation/src/fields.rs:313-332 | a requirement asks for a counted coverer on every cell or on some cell of the footprint, on the grid, and a ban for none on any |
| Placement.RuleToldExactly | crates/ferrets-simulation/src/fields.rs:313-332 | a rule has one verdict for ghost and simulation whatever is covered and in sight exactly when every player whose coverage it counts is always shown |
| Placement.OwnIsAlwaysShown | ferrets-demo/src/render.rs:3184-3219 | a requirement of the player's own coverage is such a rule |
| Placement.FullKnowledgeIsTheSimulation | crates/ferrets-simulation/src/ground.rs:64-176 | with everything explored and made out, and no coverage its rules count hidden from the overlay on the footprint, the ghost fits exactly when the simulation takes ground, bodies and fields |
| Placement.GhostNeverRefusesWhatFits | ferrets-demo/src/input.rs:1797-1843 | however little is known, what the simulation takes shows as fitting exactly when the requirements hold of the coverage shown, and so whenever none of theirs is hidden |
| Requirements.AnyUnmetWords | ferrets-demo/src/hud.rs:2337-2345 | the loop over alternatives gives nothing as soon as one is met and else the words of all of them |
| Requirements.UnmetWordsAgree | ferrets-demo/src/hud.rs:2323-2367 | the hint is silent exactly when the requirement is met, for every tree |
| Requirements.NeedsAgree | ferrets-demo/src/hud.rs:2133-2139 | the card's line is silent exactly when every entry is met |
| Requirements.NeedsSpeakAsOne | ferrets-demo/src/hud.rs:2133-2139 | and says what a requirement of all the entries says |
| Requirements.HintNamesOnlyUnmet | ferrets-demo/src/hud.rs:2323-2367 | without negations and empty alternatives every leaf named is false now |
| Requirements.HintSuffices | ferrets-demo/src/hud.rs:2323-2367 | and any world with all the named leaves, and every leaf that held, meets the whole tree |
| Readings.WordsReadBack | ferrets-demo/src/hud.rs:2371-2400 | the words read back to the tree's factors exactly when the tree has no empty list, and do not parse otherwise |
| Readings.ReadingKeepsMeaning | ferrets-demo/src/hud.rs:2371-2400 | the reading has the tree's truth value in every world, for trees with no empty list and no negation around several factors |
| Readings.NegationReadsRightExactly | ferrets-demo/src/hud.rs:2371-2400 | a negation reads right in exactly the worlds where every factor after the first holds |
| Readings.NotBothMisreads | ferrets-demo/src/hud.rs:2371-2400 | "not both" prints as words that mean something else wherever the second fails |
| Readings.HintReadsTrue | ferrets-demo/src/hud.rs:2323-2367 | the hint read back holds in any later world where nothing met was lost exactly when the whole requirement is met, for trees with no empty list and no negation around several factors |
| Memory.Ghosts.DrawGhosts | ferrets-demo/src/render.rs:3284-3373 | after a frame exactly what is seen now or was remembered, and is not shown gone, is kept, in its latest form; a view of everything remembers nothing |
| Memory.SightingIsLast | ferrets-demo/src/render.rs:3284-3373 | what a frame leaves of a building is its last row seen as a rival's, of a kind that is remembered, and nothing exactly without one |
| Memory.Ghosts.Reset | ferrets-demo/src/render.rs:382-398 | a new game remembers nothing |
| Memory.Ghosts.Watch | ferrets-demo/src/render.rs:3284-3373 | over any history since a reset the store holds a building exactly when a latest frame saw it on a cell not unexplored and every frame since kept that cell explored and out of sight, with that frame's snapshot |
| Memory.RememberedFromOneFrame | ferrets-demo/src/render.rs:3284-3373 | one frame at most is what is remembered of a building |
| Sightings.Sighter.RefreshChangedSprites | ferrets-demo/src/render.rs:1636-1663 | stripping a sprite takes its entity off the drawn ones and leaves its stamp |
| Sightings.Sighter.AttachSprites | ferrets-demo/src/render.rs:777-795 | everything standing on the map is drawn |
| Sightings.JudgedExactly | ferrets-demo/src/render.rs:2010-2082 | a revealed map and a view of everything see all, a seat with senses what they make out, any other view nothing |
| Sightings.Sighter.RefreshSightings | ferrets-demo/src/render.rs:2010-2042 | drawn entities are judged afresh, but for those stamped under the key still in force |
| Sightings.Sighter.DrawFrame | ferrets-demo/src/lib.rs:268-276 | after a frame every drawn entity's stamp is a fresh judgement exactly when the key moved or no reattached stamp differs from its verdict now |
| Sightings.Sighter.Run | ferrets-demo/src/render.rs:2010-2082 | over any run of frames whose map changes only with the key the stamps are current after every pass |
| Sightings.Sighter.StaleAfterAway | ferrets-demo/src/render.rs:2010-2042 | stripped, passed over under a new key and reattached under that same key, an entity keeps its old stamp |
| Lobby.LobbyConfig.ForMode | ferrets-demo/src/lobby.rs:234-271 | the rows a mode opens with, kind, race and team; a local lobby opens with its human seated |
| Lobby.LobbyConfig.CycleKind | ferrets-demo/src/lobby.rs:651-680 | the human's own slot is fixed, any other toggles between AI and closed, and the seats stay as promised |
| Lobby.LobbyConfig.CycleTeam | ferrets-demo/src/lobby.rs:698-713 | only the slot's team moves, round the map's seats and back to none |
| Lobby.TeamsGoRound | ferrets-demo/src/lobby.rs:175-181 | presses go through the teams of the map's seats in order and then back to none |
| Lobby.LobbyConfig.ClaimLocal | ferrets-demo/src/lobby.rs:715-730 | the human sits in the claimed seat and the one it left is an AI's |
| Lobby.LobbyConfig.ToggleObserve | ferrets-demo/src/lobby.rs:753-791 | out to watching, or back to the first open, AI or closed slot, always possible |
| Lobby.TargetIsFirst | ferrets-demo/src/lobby.rs:774-781 | the seat returned to is the first open one, with none open the first AI's, and with none of those the first closed |
| Lobby.LobbyConfig.Pressed | ferrets-demo/src/lobby.rs:651-791 | no press changes a race; a team press moves its row's team alone, a kind press its row's kind alone, and a change of seat the kinds of the two seats alone |
| Lobby.LobbyConfig.Run | ferrets-demo/src/lobby.rs:651-791 | after any presses the human slots are exactly the local seat, every row keeps its race, and the started game seats that one human or none |
| Lobby.LobbyConfig.RoundTrip | ferrets-demo/src/lobby.rs:753-791 | watching and coming back keeps the closed seats and the count of every kind |
| Lobby.ReturningTwiceIsOnce | ferrets-demo/src/lobby.rs:753-791 | a second round trip changes nothing the first did not |
| Lobby.OneHumanSeated | ferrets-demo/src/lobby.rs:1582-1609 | a lobby so seated starts with one human at the local seat, or none |
| Rebinding.Listener.HostRebind | ferrets-demo/src/lobby.rs:933-984 | a frame moves the wait as the step function says; one that tries a port leaves it bound exactly when the listener opens and nothing otherwise, one that tries none leaves the listener alone, and one that parses is remembered |
| Rebinding.TryLeaves | ferrets-demo/src/lobby.rs:965-984 | over a visit: a try is of the port asked for and leaves it bound exactly when the listener opens, and nothing otherwise; a frame that tries nothing leaves the listener as it was |
| Rebinding.BoundByLastTry | ferrets-demo/src/lobby.rs:965-984 | at any frame the listener stands as the last try left it, and as it was found before any |
| Rebinding.OpenedPortRests | ferrets-demo/src/lobby.rs:951-954 | once a try opens, no frame asking for that port or for nothing that parses tries again, and it stays bound |
| Rebinding.WaitCounts | ferrets-demo/src/lobby.rs:933-984 | the cooldown counts the valid frames since the port was adopted or last tried, all of them asking for it |
| Rebinding.ReopensOnlySettled | ferrets-demo/src/lobby.rs:933-984 | a reopening follows sixty valid frames asking for its port since it was adopted or last tried |
| Rebinding.ReopeningsApart | ferrets-demo/src/lobby.rs:933-984 | two reopenings are at least sixty-one frames apart |
| Rebinding.InvalidFramesAreIdle | ferrets-demo/src/lobby.rs:933-984 | frames whose field does not parse neither count nor restart the wait |
| Rebinding.SteadyPortIsTried | ferrets-demo/src/lobby.rs:933-984 | a valid unbound port is tried by the sixty-second valid frame that asks for it, whatever frames that do not parse lie in between |
| MapWater.LayTerrain | ferrets-demo/src/map.rs:187-200 | the nested loops lay each cell the terrain of the deepest of its three waters |
| MapWater.TerrainExactly | ferrets-demo/src/map.rs:289-350 | a cell is deep in the sea's strip, within seven cells of the lake's middle or on an arm's three middle lines off its fords, shallow on the coast, within nine cells or on the banks, and else land |
| MapWater.DeepColumns | ferrets-demo/src/map.rs:330-350 | in the channel's deep columns a cell is open exactly on a ford |
| MapWater.DeepRows | ferrets-demo/src/map.rs:330-350 | in the channel's deep rows a cell is open exactly on a ford |
| MapWater.WalkCrossesUprightArmOnFord | ferrets-demo/src/map.rs:289-350 | every walk of single steps, diagonals included, that changes sides of the upright arm without deep water passes the axis on a ford and is on a ford wherever the channel is deep |
| MapWater.WalkCrossesLevelArmOnFord | ferrets-demo/src/map.rs:289-350 | the same of the level arm |
| MapWater.FordsAreOpen | ferrets-demo/src/map.rs:289-350 | a ford is open along its whole length, but for the sea's deep strip where it meets it |

## Left out

- The engine's plugins, systems, queries, sprites, sockets, threads, file dialogs
  and replays: framework plumbing and I/O. A bind result is an input of the
  listener's frame.
- Color arithmetic, camera and audio: the two blends of the minimap are
  parameters of the scene, and floating-point rounding is not part of this model.
- Content tables: prices, sizes, health and morphs are arbitrary functions.
- The Lua runtime: a think is a method over the view, with tables as maps and
  sequences. Blocks that several brains repeat are methods of their own
  (`AiEconomy.RaiseOverSeam`, `AiEconomy.SendIdle`, `AiChassis.Turn.TrainFirst`,
  `AiChassis.Turn.MorphFirst`), and a change-of-form order carries the type the
  selected unit has, which the simulation reads from the selection.
- HumanThink: which unit is trained, who gathers and what the army is told are written
  out in its body and pinned by the routines it calls, not by its own contract, which
  states what its orders come to, that each may be given, and which structure it sends
  for and when. The same holds of the other six.
- OrcThink: as HumanThink.
- SwarmThink: as HumanThink.
- ConclaveThink: as HumanThink.
- ElvesThink: as HumanThink.
- TerranThink: as HumanThink.
- UndeadThink: as HumanThink.
- Canvases.Canvas.Fill: coordinates wrap as they do in a release build; a debug build
  stops at the overflow instead.
- Segments.LineStaysInRange: what a wrapped `i32` would do beyond the bound is
  not modelled.
- Composition.Minimap.Refresh: a scene that changes without a new tick, camera or
  reveal is not repainted, in the program as in the model.
- Requirements.UnmetWordsAgree: a leaf is one token with a truth value; its
  rendered text and its own evaluation in the simulation are not part of this model.
- Placement.FullKnowledgeIsTheSimulation: snapping onto a resource to build over, cells
  a mover holds halfway across an edge, and the rules a warper adds to its units' own
  are not part of this model.
- Placement.ExploringOnlyRefuses: takes a footprint without a crossing rule to lie on
  a layer at one level, as content validation requires
  (crates/ferrets-content/src/registry.rs:1261-1273).
- WarpRuns.Dispatch.Run: one local player's commands; a click with no local player
  does nothing and has no step here. Whether the simulation lands or refuses an
  order is an arbitrary answer of each update, bounded by the cooldown alone. The
  call-offs of a tick come before its warp-ins and after them, not among them.
- WarpIn.ClicksGoRound: takes who is ready as fixed within the window and no older
  record to lapse in it; `WarpIn.ClicksApart` asks for neither.
- Lobby.LobbyConfig.Run: presses in a hosted or joined lobby travel over the network
  and are not part of this model; neither is the race button.
- Memory.Ghosts.Watch: the drawing of remembered buildings is left out; the engine's
  visibility answers are inputs of each frame.
- Sightings.Sighter.Run: the engine's verdicts are a function of tick, player and
  entity, which is what the key relies on.
- The map's slopes, levels and starting placements: declarative data.
