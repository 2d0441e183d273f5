# TkTactics rules engine in Dafny

A model of the rules engine of TkTactics, a turn-based grid tactics game. The
player's blue army (a hero, recruited soldiers, a barrack and walls) defends
the middle of a 21 × 13 field. Red waves come in from the corners.

What the model covers:

- **Grid.** Tiles and the two factions' playable areas. Also 4-neighbour walks
  over the landscape cost table, where a tile of cost `-1` consumes a unit's
  whole mobility, and the Manhattan diamond of tiles a soldier can attack.
- **Units.** The stat and multiplier tables of `SoldierModel`, `HeroModel`,
  `InfantryModel`, `BuildingModel` and `WallModel`. Also the capped damage
  formula, the levelling loop of `_learn`, and `restore_health_by`.
- **Occupancy.** The two per-faction dictionaries from tile to unit, with
  their insertion order. `hunt` numbers the hostile units in that order.
- **Search.** The two searches of `SoldierModel`:
  - the cost-bounded Dijkstra of `get_reachable_coordinates`;
  - the A* of `get_approaching_path`, with backtracking and trimming to the
    budget.

  Both are methods over an explicit `heapq` frontier. They are proved against
  a walk-based specification, and their termination is proved.
- **Targeting.** The three-tier heap order by which `Soldier.hunt` chooses a
  target.
- **Rules.** The shared board: the units, both maps, the soldier sets and the
  critical and non-critical building sets. It includes the transitions
  `_register`, `_unregister`, `move_to`, `assault`, healing and a spawned
  wave, each proved to keep the board consistent.
- **Tactics.** What a soldier computes from the board without changing it:
  - its attack targets;
  - one ranked heap entry per hostile unit, for `hunt`.
- **Selection.** What a barrack offers, the placement filter of a
  recruitment, and the affordability rule of a recruitment button.
- **Waves.** The four spawn areas, the twelve-wave schedule, and the
  arithmetic that keeps `sample` from failing.
- **Play.** A `Game` class stands in for the global `GameState`. It holds:
  - the board and the selection stack;
  - the wave, day and coin counters;
  - the state of the day generator.

  Its methods are the click handlers and the end-of-turn flow.

Python object identity is modelled as a `UnitId`; `nextId` hands out fresh
ones. The `Game` holds every unit's state in one `Board` value, which its
methods reassign.

Two Python iteration orders are parameters of the methods that use them:
- the order of the neighbour offset set literal;
- the order of the red soldier set, in which the red soldiers hunt.

The order in which `ResetFlags` and `Heal` visit a set of soldiers is a
nondeterministic choice. Their result does not depend on it, because each
step touches one soldier only.

The insertion order of the occupancy dictionaries is modelled explicitly,
because the `hunt` tie-break depends on it.

## Model

| member | source | states |
|---|---|---|
| Grid.BoxTiles | sources/game/soldiers/base.py:93-95 | the tiles of a search box are exactly those that pass the `x_min <= x <= x_max and y_min <= y <= y_max` test |
| Grid.AdjacentIsShift | sources/game/soldiers/base.py:90-91 | every 4-adjacent tile is reached by one of the four offsets of the neighbour set literal |
| Grid.ShiftIsAdjacent | sources/game/soldiers/base.py:90-91 | each of the four offsets leads to a 4-adjacent tile |
| Grid.StepPositive | sources/game/soldiers/base.py:98-100 | inside a unit's area every tile has a landscape cost, and entering it costs between 1 and the mobility (`-1` is charged as the mobility) |
| Grid.WalkExtend | sources/game/soldiers/base.py:102-106 | extending a walk by a passable neighbour gives a walk whose cost grows by that neighbour's step cost |
| Grid.AttackableCoordinates | sources/game/soldiers/base.py:110-120 | the ring-by-ring loops yield exactly the tiles within Manhattan distance `attack_range`, the unit's own tile included and nothing clipped to the field |
| Units.NewSoldier | sources/game/soldiers/base.py:32-39 | a new soldier has the class's attack, defense and health, no experience, full health equal to its maximum, and both turn flags cleared |
| Units.NewBuilding | sources/game/buildings/base.py:13-16 | a new building starts at its class's health, which is what `get_data` reports as its maximum, and at its class's defense |
| Units.ReportedMaxHealthIgnoresDamage | sources/game/buildings/base.py:18-27 | the reported `max_health` is the class constant whatever damage the building has taken: 100 for a wall, 400 for other buildings |
| Units.HeroStats | sources/game/soldiers/hero.py:11-17 | a hero has range 2, mobility 4, defense 0.30 and cost 65535, and inherits attack 30 and health 100 |
| Units.InfantryStats | sources/game/soldiers/infantry.py:12 | infantry has defense 0.30 and inherits range 1, mobility 2, attack 30, health 100 and cost 10 |
| Units.BuildingStats | sources/game/buildings/wall.py:7-8 | a wall has defense 0.5 and health 100; a plain building and a barrack have defense 0.4 and health 400 |
| Units.Multiplier | sources/game/soldiers/base.py:199 | the multiplier is the table entry for the defender's class name, soldier or building, or 1.0 when the table has no entry for it; it is non-negative for a sane class |
| Units.HeroMultipliers | sources/game/soldiers/hero.py:6-10 | a hero deals 1.5 times damage to archers, cavalry and infantry, and 1.0 times to heroes and buildings |
| Units.InfantryMultipliers | sources/game/soldiers/infantry.py:6-10 | infantry deals 0.7 times damage to archers and heroes, 1.5 times to cavalry, and 1.0 times to infantry and buildings |
| Units.Damage | sources/game/soldiers/base.py:198-200 | the damage is the uncapped blow or the defender's health, whichever is smaller |
| Units.DamageBounds | sources/game/soldiers/base.py:215 | a blow never takes the defender below zero health, and leaves exactly zero iff the uncapped blow reaches its health |
| Units.DamageNonNegative | sources/game/soldiers/base.py:198-200 | with sane stats the damage is never negative, so a blow never raises the defender's health |
| Units.Threshold | sources/game/soldiers/base.py:228 | the level-up table has an entry exactly for levels 1 to 5, each at least 5 |
| Units.Settle | sources/game/soldiers/base.py:229-235 | the levelling loop ends with experience below the current level's threshold, or with the `KeyError` of a level missing from the table; the level never drops; health stays within the maximum; nothing else about the soldier changes |
| Units.Learn | sources/game/soldiers/base.py:225-235 | `_learn` adds the experience and then subtracts thresholds and raises stats in the source's order until the experience is below the threshold, as `Settle` states |
| Units.LearnOne | sources/game/soldiers/base.py:225-235 | one point of experience keeps a settled soldier settled; it levels up exactly when the point completes the threshold; it raises only for a level-5 soldier at 65534 points |
| Units.RestoreHealth | sources/game/soldiers/base.py:219-223 | healing gives `min(health + amount, max_health)`, never lowers health for a non-negative amount, and changes nothing else |
| Occupancy.Put | sources/game/soldiers/base.py:334 | `d[c] = id` maps `c` to the unit; an existing key keeps its place, a new key goes last in the insertion order |
| Occupancy.Del | sources/game/soldiers/base.py:338 | `del d[c]` removes exactly that key and keeps the dictionary well formed |
| Occupancy.PutThenDel | sources/game/soldiers/base.py:334-339 | setting a fresh key and deleting it again restores the dictionary, its order included |
| Occupancy.Values | sources/game/soldiers/base.py:392 | `values()` yields the value of each key in insertion order |
| Occupancy.ValuesAreIds | sources/game/soldiers/base.py:392 | `values()` yields exactly the units the map holds, and nothing iff the map is empty |
| Occupancy.PutFreshValues | sources/game/soldiers/base.py:334 | registering at a free tile appends the unit to the enumeration |
| Occupancy.RekeyValues | sources/game/soldiers/base.py:341-344 | deleting a unit's key and setting the new one moves the unit to the end of the enumeration, even when the tile is unchanged |
| Search.PopMin | sources/game/soldiers/base.py:82 | `heappop` takes an entry that is least under tuple order |
| Search.WalkBounded | sources/game/soldiers/base.py:90-106 | once every tile cheaper than the mobility has been relaxed, the end of every walk within budget is in the cost table at no more than the walk's cost |
| Search.PushFrontier | sources/game/soldiers/base.py:104-106 | pushing an improved neighbour keeps every frontier entry at or above its tile's tabled cost |
| Search.PushWitnessed | sources/game/soldiers/base.py:104-106 | a tabled cost is always at least the cost of some walk from the start |
| Search.RelaxNeighbours | sources/game/soldiers/base.py:90-106 | the neighbour loop relaxes each of the four neighbours: afterwards each passable one is tabled at most at the popped cost plus its step; values only fall; each improvement is pushed |
| Search.SettleSkip | sources/game/soldiers/base.py:84-88 | popping an entry at or past the mobility keeps it (if within budget and off friendly ground) without expanding it |
| Search.SettleRelax | sources/game/soldiers/base.py:84-106 | popping a current entry below the mobility and relaxing its neighbours settles that tile and leaves every other tile pending or settled |
| Search.DijkstraPop | sources/game/soldiers/base.py:81-82 | any popped entry names a tabled tile whose tabled cost is at most the popped cost |
| Search.DijkstraSkip | sources/game/soldiers/base.py:84-88 | a pop that is not expanded keeps the outer loop's invariant |
| Search.DijkstraRelax | sources/game/soldiers/base.py:84-106 | a pop that is expanded keeps the outer loop's invariant |
| Search.DijkstraDone | sources/game/soldiers/base.py:81-108 | when the frontier is empty, the kept tiles are exactly the tiles off friendly ground that some walk within the mobility ends on |
| Search.Reachable | sources/game/soldiers/base.py:72-108 | `get_reachable_coordinates` returns exactly the tiles off friendly ground that a walk ends on, where the walk stays in the unit's area, never enters a hostile tile and costs at most the mobility |
| Search.GoalWalk | sources/game/soldiers/base.py:143-149 | backtracking the parent table from a goal gives a walk from the start that ends on the goal, and just the start when the goal is the start |
| Search.TrimToBudget | sources/game/soldiers/base.py:151-162 | trimming keeps the prefix of the walk that stops before the first step whose running cost would exceed the mobility |
| Search.PrefixCostGrows | sources/game/soldiers/base.py:153-162 | along a walk every step costs at least one, so a longer prefix costs strictly more |
| Search.TrimIsLongest | sources/game/soldiers/base.py:151-162 | the trimmed path is the longest prefix of the walk whose cost is within the mobility |
| Search.PushParents | sources/game/soldiers/base.py:187-193 | recording the popped tile as the parent of an improved neighbour keeps every tabled tile except the start linked to a strictly cheaper tabled neighbour |
| Search.AStarRelax | sources/game/soldiers/base.py:173-193 | the neighbour loop of the A* keeps the table and parents consistent; tabled costs only fall; every tile whose cost it lowers or first sets is a neighbour of the popped tile, costed at the popped tile's cost plus its step and parented to the popped tile; every other tile keeps its parent; it appends to the frontier exactly the improved tiles, each at its cost plus its distance to the target; afterwards every passable neighbour is tabled at most at the popped cost plus its step |
| Search.AStarTrackPushed | sources/game/soldiers/base.py:187-193 | one improving relaxation keeps that record: the neighbour is costed and parented through the popped tile and pushed at its cost plus its distance, and the neighbours relaxed so far stay relaxed |
| Search.PushedExactPushed | sources/game/soldiers/base.py:187-191 | after one more push the entries past the old frontier are still improved tiles at their cost plus their distance |
| Search.PushedAllPushed | sources/game/soldiers/base.py:187-192 | after one more push every improved tile still has its entry past the old frontier |
| Search.ApproachInit | sources/game/soldiers/base.py:131-137 | the initial frontier, cost table, parent table and answer `[start]` satisfy the outer loop's invariant |
| Search.ApproachPop | sources/game/soldiers/base.py:139-142 | a popped entry names a tabled tile; while the start is itself within range, the start is the only tile ever pushed |
| Search.ApproachGoalStep | sources/game/soldiers/base.py:142-171 | a popped goal is not expanded, and whether or not its trimmed walk replaces the answer, the answer stays a valid approach |
| Search.GoalApproaches | sources/game/soldiers/base.py:164-169 | a goal's trimmed walk that ends off friendly ground is a valid approach |
| Search.ApproachRelaxStep | sources/game/soldiers/base.py:173-193 | expanding a popped tile out of range keeps the outer loop's invariant |
| Search.ApproachRound | sources/game/soldiers/base.py:139-193 | one round of the outer loop keeps the invariant, and either strictly lowers some tabled cost or shrinks the frontier, so the loop terminates |
| Search.ApproachPath | sources/game/soldiers/base.py:122-196 | the result starts at the unit's tile, is a walk of 4-adjacent passable tiles inside the area and off hostile tiles, costs at most the mobility, and is either `(start,)` or the trimmed walk to a tile within range ending off friendly ground; it is `(start,)` when the start is already in range |
| Targeting.Rank | sources/game/soldiers/base.py:385-388 | the `IntEnum` numbers MOVE_THEN_KILL 1, MOVE_THEN_HIT 2, MOVE 3 |
| Targeting.Classify | sources/game/soldiers/base.py:397-405 | out of range is MOVE keyed `[distance, -damage, health]`; in range without a kill is MOVE_THEN_HIT keyed `[-damage, health, -distance]`; otherwise MOVE_THEN_KILL keyed `[-damage, -distance]`; the enumeration index is kept |
| Targeting.BeforeOrder | sources/game/soldiers/base.py:407-409 | heap order on entries is irreflexive, transitive and total on entries with distinct indices |
| Targeting.ActionFirst | sources/game/soldiers/base.py:407 | a lower action wins whatever the keys |
| Targeting.SameAction | sources/game/soldiers/base.py:407 | within one action the keys decide and the index breaks ties |
| Targeting.KillTier | sources/game/soldiers/base.py:403-405 | among kills, larger damage wins, then the farther stopping distance, then the earlier unit |
| Targeting.HitTier | sources/game/soldiers/base.py:400-402 | among hits, larger damage wins, then lower health, then the farther stopping distance, then the earlier unit |
| Targeting.MoveTier | sources/game/soldiers/base.py:397-399 | among moves, the closer stopping distance wins, then larger damage, then lower health, then the earlier unit |
| Targeting.SelectBest | sources/game/soldiers/base.py:407-409 | popping the heap gives the entry that beats every other one, or fails exactly when the heap is empty |
| Targeting.BestIsUnique | sources/game/soldiers/base.py:407-409 | the winning entry is unique |
| Rules.SetsOf | sources/game/buildings/barrack.py:17-23 | on a consistent board a unit is in the critical set iff it is a barrack, in the non-critical set iff it is a wall (as `Wall._register` adds it), and in the blue or red soldier set iff it is a soldier of that faction |
| Rules.RegisterValid | sources/game/soldiers/base.py:324-335 | registering a fresh unit on a free tile of its faction's area keeps the maps, positions and sets consistent |
| Rules.RegisterEffect | sources/game/soldiers/base.py:334-335 | registering adds exactly the new unit, maps its tile to it in its faction's map, appends it to that map's enumeration and leaves the other map alone |
| Rules.UnregisterValid | sources/game/soldiers/base.py:337-339 | unregistering removes exactly the unit and its own tile from its faction's map, leaves the other map alone and keeps the board consistent |
| Rules.RegisterThenUnregister | sources/game/buildings/base.py:71-75 | registering a unit and unregistering it again gives back the board, map order included |
| Rules.SpawnNext | sources/game/controls/end_turn.py:194-198 | each soldier of a wave is registered, red and at level 1, on the board the earlier ones left, under the next identity |
| Rules.SpawnBook | sources/game/controls/end_turn.py:194-198 | a wave gives its soldiers consecutive fresh ids, places them exactly on the drawn tiles of the red map, adds them to the red soldier set, and changes nothing blue |
| Rules.SpawnValid | sources/game/controls/end_turn.py:194-198 | a wave on distinct, free tiles of the outer ring keeps the board consistent |
| Rules.MoveValid | sources/game/soldiers/base.py:341-344 | moving to a tile in the unit's area that no hostile unit and no other friendly unit holds keeps the board consistent |
| Rules.MoveEffect | sources/game/soldiers/base.py:341-344 | in the mover's map only the old key goes and the new key comes; the mover stands on the new tile, marked as moved; the hostile map, every other unit and every set are unchanged |
| Rules.MoveEnumeration | sources/game/soldiers/base.py:342-344 | the mover goes last in its map's enumeration, even when it stays on its tile |
| Rules.AssaultValid | sources/game/soldiers/base.py:347-363 | an assault, including a destruction, keeps the board consistent |
| Rules.AssaultEffect | sources/game/soldiers/base.py:211-217 | the target loses exactly the capped damage and never drops below zero; the attacker gains one experience and levels as `_learn` says; it is marked as attacked unless `_learn` raised; the target is destroyed iff `_learn` did not raise and the blow reaches its health; no other unit changes |
| Rules.AssaultKeepsOwnSide | sources/game/soldiers/base.py:347-363 | an assault on a hostile unit never removes the attacker or a soldier of its own side |
| Rules.HealValid | sources/game/controls/end_turn.py:125-126 | healing sets each healed soldier to `min(health + amount, max_health)`, changes no other unit and keeps the board consistent |
| Rules.ResetValid | sources/game/controls/end_turn.py:98-101 | resetting clears both turn flags of each listed soldier, changes no other unit and keeps the board consistent |
| Rules.ReachIsMovable | sources/game/soldiers/base.py:84-85 | every tile `get_reachable_coordinates` offers is a legal move |
| Rules.ApproachIsMovable | sources/game/soldiers/base.py:409-411 | the end of an approach path is a legal move |
| Rules.NotDefeatedHasTargets | sources/game/controls/end_turn.py:104-112 | while blue keeps a soldier or a critical building, the blue map is not empty, so a red `hunt` finds a target |
| Tactics.FactionIds | sources/game/soldiers/base.py:324-335 | a faction's map holds exactly the units of that faction |
| Tactics.SpaceWellFormed | sources/game/soldiers/base.py:41-48 | a soldier's search area lies on the field and contains the soldier's tile |
| Tactics.HostilesOnBoard | sources/game/soldiers/base.py:392 | every unit the hostile map enumerates is a hostile unit on the board |
| Tactics.UnitsOn | sources/game/soldiers/base.py:532-534 | the loop keeps exactly the enumerated units standing on one of the tiles |
| Tactics.AttackTargets | sources/game/soldiers/base.py:530-534 | the attack targets are exactly the hostile units within attack range |
| Tactics.RankLoop | sources/game/soldiers/base.py:392-407 | for each enumerated hostile unit the loop computes a valid approach path and the heap entry ranking that unit, numbered in enumeration order |
| Tactics.RankTargets | sources/game/soldiers/base.py:390-407 | `hunt` ranks exactly the units of the hostile map in its enumeration order |
| Selection.Offers | sources/game/buildings/barrack.py:25-31 | selecting a barrack offers exactly the infantry, archer and cavalry recruitments; other buildings offer none |
| Selection.PlacementCandidates | sources/game/recruitments/base.py:82-93 | the offset loop highlights exactly the neighbours that pass the filter |
| Selection.OffsetsAreNeighbours | sources/game/recruitments/base.py:83-86 | the eight offsets are exactly the neighbours, diagonals included |
| Selection.CandidatesAre | sources/game/recruitments/base.py:87-91 | a candidate is exactly a neighbour of the building, never its own tile, that lies strictly inside the border and is held by no unit of either faction |
| Selection.BoundButtons | sources/game/recruitments/base.py:22-28 | the buttons drawn bound are offered ones whose cost the reserve covers |
| Selection.BoundButtonsGrow | sources/game/recruitments/base.py:22-28 | a button bound with some reserve is bound with any larger one, and ten coins bind a barrack's infantry button |
| Selection.RecruitAffordability | sources/game/recruitments/base.py:23-28 | the button is active iff the coin reserve covers the cost: 10 for infantry, 65535 for a hero |
| Waves.AreaShape | sources/game/controls/end_turn.py:153-168 | each area is eight distinct tiles of the outer ring of the field, where no blue unit may stand |
| Waves.AreasDisjoint | sources/game/controls/end_turn.py:153-168 | no tile belongs to two areas |
| Waves.Pool | sources/game/controls/end_turn.py:171-175 | the pool of `m` areas holds `8 m` tiles |
| Waves.PoolShape | sources/game/controls/end_turn.py:170-176 | the pool of different areas holds distinct outer-ring tiles, exactly those of the chosen areas |
| Waves.Schedule | sources/game/controls/end_turn.py:181-199 | waves 1 to 3 spawn one soldier from one area each; waves 4 to 12 spawn 2, 4, ..., 18 |
| Waves.WaveFits | sources/game/controls/end_turn.py:191-194 | `ceil(n / 6)` is between 1 and 4 areas and gives at least `n` tiles |
| Waves.DrawExists | sources/game/controls/end_turn.py:170-176 | `sample(coordinates, n)` always has a draw of `n` different outer-ring tiles |
| Play.CommonKindsSize | sources/game/controls/end_turn.py:181 | `common_soldiers` starts with three classes |
| Play.DrawAvailable | sources/game/controls/end_turn.py:170-199 | every wave can be drawn while the first three waves still find a class in `common_soldiers` |
| Play.Cleared | sources/play.py:101-105 | the barrack's tile and its eight neighbours cost 1, every other tile keeps the landscape's cost, and a valid landscape stays valid |
| Play.InitialBoard | sources/play.py:97-112 | the barrack in the middle and the hero just below it form a consistent board holding nothing else |
| Play.RedMapHoldsSoldiers | sources/game/buildings/base.py:71-72 | buildings always go to the blue map, so the red map holds red soldiers only and is empty without them |
| Play.SpawnReady | sources/game/controls/end_turn.py:170-176 | a fitting draw, on a board without red soldiers, gives the wave distinct, free outer-ring tiles |
| Play.WaveBoard | sources/game/controls/end_turn.py:191-199 | a fitting wave is non-empty, keeps the board consistent, and leaves the units exactly the old ones plus the fresh ids it hands out, so no unit is removed |
| Play.HuntKeepsOwnSide | sources/game/soldiers/base.py:409-427 | a hunt's move keeps every set, and its assault never removes the hunter or a soldier of the hunter's side |
| Play.Game.constructor | sources/play.py:97-112 | the game starts at day 1 with ten coins, wave 0, all three common classes, no selection, the cleared landscape, a barrack at the middle and the hero below it |
| Play.Game.Register | sources/game/soldiers/base.py:324-335 | the new object gets the next identity and is registered as `RegisterOn` states; nothing else changes |
| Play.Game.Unregister | sources/game/soldiers/base.py:337-339 | the unit is unregistered as `UnregisterOn` states; nothing else changes |
| Play.Game.MoveTo | sources/game/soldiers/base.py:341-345 | the board after `Soldier.move_to` is `MoveOn` of the old one and stays consistent; nothing else changes |
| Play.Game.Strike | sources/game/soldiers/base.py:211-217 | the blow and `_learn` change the units as `Struck` states, and report whether `_learn` raised |
| Play.Game.Assault | sources/game/soldiers/base.py:347-371 | the board is the assault's result; a `KeyError` surfaces as a fault; the selected unit is cleared exactly when it was the destroyed target; the game stays consistent |
| Play.Game.BuildingClick | sources/game/buildings/base.py:81-107 | clicking the selected building empties the selection; any other click leaves exactly this building selected, with its offers shown, the buttons bound that the reserve covers at that moment, and no placement highlights; the board never changes |
| Play.Game.RecruitmentClick | sources/game/recruitments/base.py:66-100 | clicking the open recruitment closes it and clears the highlights; any other click opens it over the building with exactly the placement candidates highlighted |
| Play.Game.PressRecruitment | sources/game/recruitments/base.py:22-28 | a press on a button that was not bound when the barrack was selected does nothing, even if the reserve has grown since; on a bound one it acts as the click handler, and that recruit is affordable |
| Play.Game.PressSoldier | sources/game/soldiers/base.py:437-473 | a press on a blue soldier that has moved and attacked changes nothing, since `refresh` unbinds it; any other press closes every selection and selects the soldier; a blue soldier that has not moved is offered exactly its reachable tiles; one that has not attacked is offered exactly the hostile units in range; a red soldier is offered nothing |
| Play.Game.Release | sources/game/soldiers/base.py:484-506 | a blue soldier dropped on a movement highlight moves there, and dropped on an attack target assaults it; anything else changes nothing; the selected unit is cleared only when the assault destroys it, and is kept otherwise |
| Play.Game.Aim | sources/game/soldiers/base.py:390-409 | `hunt`'s choice is the winning entry among the ranked hostile units, or none exactly when there is no hostile unit; the chosen end tile is a legal move and the target is hostile |
| Play.Game.Pursue | sources/game/soldiers/base.py:411-427 | the hunter moves to the end of its path and assaults only when the action is not a plain move; no soldier of its side is removed; the selected unit is cleared only when the assault destroys it |
| Play.Game.Hunt | sources/game/soldiers/base.py:380-427 | the hunter ranks every hostile unit and pops the winner (an empty heap is a fault), moves to the end of the winner's path, and assaults it unless the action is MOVE; the selected unit is cleared only when that assault destroys it |
| Play.Game.RedHunt | sources/game/controls/end_turn.py:111-112 | a red hunt while blue is not defeated never meets an empty heap and keeps the red soldiers; the selected unit is kept or cleared |
| Play.Game.ExecuteComputerTurn | sources/game/controls/end_turn.py:103-119 | given the red soldiers in an order that names each once, defeat is shown when blue has no soldier and no critical building, before any hunt or after the hunt that causes it; the counters and the red soldiers are kept, the selected unit is kept or cleared, and an empty heap never occurs |
| Play.Game.ResetSide | sources/game/controls/end_turn.py:89-92 | clearing the flags of every soldier of one side keeps the game consistent, clears exactly those flags and keeps the board's sets |
| Play.Game.ResetFlags | sources/game/controls/end_turn.py:89-92 | the flag loop clears the flags of exactly the listed soldiers, as `ResetOn` states |
| Play.Game.Heal | sources/game/controls/end_turn.py:125-126 | the heal loop restores exactly the listed soldiers, as `HealOn` states |
| Play.Game.SpawnWave | sources/game/controls/end_turn.py:183-198 | a wave increments `wave`, pops the drawn class from `common_soldiers` in the first three waves, and registers one red level-1 soldier per drawn tile |
| Play.Game.SpawnSoldiers | sources/game/controls/end_turn.py:194-198 | the loop registers the wave's soldiers in draw order under consecutive fresh identities |
| Play.Game.SpawnSoldier | sources/game/controls/end_turn.py:195-198 | the `i`-th soldier of the wave is registered on the board the first `i` left |
| Play.Game.HealBlue | sources/game/controls/end_turn.py:146-147 | every blue soldier is healed by ten and the game stays consistent |
| Play.Game.WaveStep | sources/game/controls/end_turn.py:129-140 | the second day phase advances the day and spawns the next wave, or shows victory once the twelfth wave is past |
| Play.Game.AdvanceDay | sources/game/controls/end_turn.py:121-148 | each step of the day cycle adds one day: the first heals; the second spawns a wave (popping the first class from `common` in waves one to three) or shows victory with coins, waves, `common` and identities kept; the third pays `8 + 2 * wave` coins and heals; after victory only victory is shown and the day stops |
| Play.Game.EndTurn | sources/game/controls/end_turn.py:83-101 | an open recruitment is closed and the bound buttons stay; with red soldiers the computer plays, the counters and `common` stay and the selected unit is kept or cleared; otherwise the counters, `common`, the banner and the identities advance step by step as the day cycle does, the selected unit stays, and the board is the day's board (`DayBoard`) with every blue soldier's flags cleared; unless a fault ends the turn, every blue soldier's flags are cleared |

## Left out

- The views, widgets, canvas calls, highlights and displays are not modelled. Neither are the `msleep` pauses or the input-blocking overlay. None of them changes the game state.
- Drag-and-drop hit testing in `_handle_drag_event` and `_handle_release_event` is not modelled. `Play.Game.Release` takes where the soldier was dropped as a `Drop` value.
- Randomness is a parameter. Landscape generation becomes a cost table with every field tile costing 1 or -1. `sample` and `choice` in the wave generator become a `Draw` value that `DrawFits` constrains.
- Float rounding is not modelled: attack, defense, health and multipliers are exact reals.
- `get_distance_to` is taken as Manhattan distance. It is defined in `game/base.py`, which is not part of this model. So are `GameObject.create` and `destroy`: creation is modelled as registration under a fresh identity, and destruction as unregistration.
- The stats of `ArcherModel` and `CavalryModel` are not part of this model. They are the `Roster` parameter, assumed to have a mobility of at least one and non-negative attack and multipliers. Their multiplier tables may carry entries for building classes as well as soldier classes.
- `game/configurations` is not part of this model. The constants it supplies are taken from `sources/game/miscellaneous.py:27-30`.
- Python's set and dictionary iteration orders are parameters or explicit sequences: the order of the neighbour offsets, and the order of the red soldier set (a sequence that names each red soldier once). The order in which flags are reset and soldiers healed is a nondeterministic choice, since the result does not depend on it.
- `heappop` is modelled as taking some least entry. Entries of equal priority and coordinates are interchangeable for the searches.
- The `NotImplementedError` branches of the click handlers are not modelled. The selection stack only ever has the shapes `SelectionOk` describes, so those branches are unreachable.
- Creating a soldier on a placement highlight, and spending coin on it, is not modelled. That step is done by the highlight classes, which are outside this model.
- The matchup tests between classes are not modelled. They depend on unseen stats and a full game loop.
- The A* path is not claimed to be optimal. Its heuristic is the distance to the target rather than to the in-range region.
- Search.ApproachPath: states the shape every answer has, and that the answer is `(start,)` when the start is already in range. It does not state that an accepted goal is ever returned: `(start,)` alone meets the contract even when some goal qualifies. Which walk is returned (that of the last goal accepted, each accepted goal strictly cheaper than the ones before) follows from the `(priority, x, y)` pop order, and the contract does not track it.
- Play.Game.ExecuteComputerTurn: does not state the board after the hunts as a composition of hunt results. It states only what every hunt keeps: consistency, the counters and the red soldiers. Each hunt's result is stated by `Play.Game.Hunt`.
- Play.Game.EndTurn: with red soldiers, likewise states only what the computer's turn keeps, not its resulting board.
- Play.Game.SpawnWave: requires only a non-empty draw with one class per tile. The fitting draw, which keeps the board consistent, is required by `Play.Game.WaveStep` and `Play.Game.AdvanceDay`.
