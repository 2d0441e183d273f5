/** The shared board state of `GameState`: the units, the two occupancy
    maps, the soldier sets and the building sets, and the transitions the
    unit classes apply to it (`_register`, `_unregister`, `move_to`,
    `assault`, `restore_health_by`), as functions on one snapshot. */
module Rules {
  import opened Grid
  import opened Wrappers
  import opened Units
  import opened Occupancy
  import opened Search

  datatype Board = Board(units: map<UnitId, Unit>, blue: Occ, red: Occ,
                         blueSoldiers: set<UnitId>, redSoldiers: set<UnitId>,
                         critical: set<UnitId>, noncritical: set<UnitId>)

  /** The map a unit of faction `f` registers in. */
  function Own(b: Board, f: Faction): Occ {
    if f == Blue then b.blue else b.red
  }

  /** The map of the units a unit of faction `f` fights. */
  function Other(b: Board, f: Faction): Occ {
    if f == Blue then b.red else b.blue
  }

  function BoundsOf(f: Faction): Bounds {
    if f == Blue then BlueBounds else RedBounds
  }

  function SoldierIds(units: map<UnitId, Unit>, f: Faction): set<UnitId> {
    set id | id in units && units[id].Soldier? && units[id].faction == f
  }

  function BuildingIds(units: map<UnitId, Unit>, k: BuildingKind): set<UnitId> {
    set id | id in units && units[id].Building? && units[id].bkind == k
  }

  /** The entry of `o` at `c` names a unit of faction `f` standing there,
      inside its faction's area. */
  predicate EntryOk(b: Board, o: Occ, f: Faction, c: Coord)
    requires c in o.at
  {
    o.at[c] in b.units && b.units[o.at[c]].pos == c &&
    FactionOf(b.units[o.at[c]]) == f && InBounds(c, BoundsOf(f))
  }

  predicate MapSound(b: Board, o: Occ, f: Faction) {
    Valid(o) && forall c :: c in o.at ==> EntryOk(b, o, f, c)
  }

  /** A unit the model can keep: health never below zero, and a soldier's
      maximum health and experience never below zero either. */
  predicate UnitOk(u: Unit) {
    u.health >= 0.0 && (u.Soldier? ==> u.maxHealth >= 0.0 && u.experience >= 0)
  }

  /** The unit is registered at its tile in its faction's map, and sane. */
  predicate UnitFine(b: Board, id: UnitId)
    requires id in b.units
  {
    var u := b.units[id];
    u.pos in Own(b, FactionOf(u)).at && Own(b, FactionOf(u)).at[u.pos] == id && UnitOk(u)
  }

  predicate AllRegistered(b: Board) {
    forall id {:trigger UnitFine(b, id)} :: id in b.units ==> UnitFine(b, id)
  }

  /** No tile holds units of both factions. */
  predicate Apart(b: Board) {
    forall c :: c in b.blue.at ==> c !in b.red.at
  }

  /** The sets are exactly the registered units of their class. */
  predicate SetsAgree(b: Board) {
    b.blueSoldiers == SoldierIds(b.units, Blue) && b.redSoldiers == SoldierIds(b.units, Red) &&
    b.critical == BuildingIds(b.units, Barrack) && b.noncritical == BuildingIds(b.units, Wall)
  }

  /** The consistency `_register`, `move_to` and `_unregister` maintain:
      the maps and the unit positions agree, no tile holds units of both
      factions, and the sets are exactly the registered units of their
      class. */
  predicate BoardValid(b: Board) {
    MapSound(b, b.blue, Blue) && MapSound(b, b.red, Red) && AllRegistered(b) && Apart(b) && SetsAgree(b)
  }

  const EmptyBoard: Board := Board(map[], Empty, Empty, {}, {}, {}, {})

  lemma EmptyBoardValid()
    ensures BoardValid(EmptyBoard)
  {
  }

  /** Two unit tables with the same ids, and the same class and faction per id. */
  predicate SameRoles(u1: map<UnitId, Unit>, u2: map<UnitId, Unit>) {
    u1.Keys == u2.Keys &&
    forall id :: id in u1 ==> u1[id].Soldier? == u2[id].Soldier? && FactionOf(u1[id]) == FactionOf(u2[id]) &&
                              (u1[id].Soldier? ==> u1[id].kind == u2[id].kind) &&
                              (u1[id].Building? ==> u1[id].bkind == u2[id].bkind)
  }

  lemma SameRolesSets(u1: map<UnitId, Unit>, u2: map<UnitId, Unit>)
    requires SameRoles(u1, u2)
    ensures SoldierIds(u1, Blue) == SoldierIds(u2, Blue) && SoldierIds(u1, Red) == SoldierIds(u2, Red)
    ensures BuildingIds(u1, Barrack) == BuildingIds(u2, Barrack) && BuildingIds(u1, Wall) == BuildingIds(u2, Wall)
  {
  }

  /** Which sets a unit belongs to, given its class. */
  lemma SetsOf(b: Board, id: UnitId)
    requires BoardValid(b) && id in b.units
    ensures id in b.blueSoldiers <==> b.units[id].Soldier? && b.units[id].faction == Blue
    ensures id in b.redSoldiers <==> b.units[id].Soldier? && b.units[id].faction == Red
    ensures id in b.critical <==> b.units[id].Building? && b.units[id].bkind == Barrack
    ensures id in b.noncritical <==> b.units[id].Building? && b.units[id].bkind == Wall
  {
  }

  lemma SoldierIdsAdd(units: map<UnitId, Unit>, id: UnitId, u: Unit, f: Faction)
    requires id !in units
    ensures SoldierIds(units[id := u], f) == SoldierIds(units, f) + (if u.Soldier? && u.faction == f then {id} else {})
  {
  }

  lemma BuildingIdsAdd(units: map<UnitId, Unit>, id: UnitId, u: Unit, k: BuildingKind)
    requires id !in units
    ensures BuildingIds(units[id := u], k) == BuildingIds(units, k) + (if u.Building? && u.bkind == k then {id} else {})
  {
  }

  lemma SoldierIdsRemove(units: map<UnitId, Unit>, id: UnitId, f: Faction)
    ensures SoldierIds(units - {id}, f) == SoldierIds(units, f) - {id}
  {
  }

  lemma BuildingIdsRemove(units: map<UnitId, Unit>, id: UnitId, k: BuildingKind)
    ensures BuildingIds(units - {id}, k) == BuildingIds(units, k) - {id}
  {
  }

  /** Every unit of the table is sane. */
  predicate AllOk(units: map<UnitId, Unit>) {
    forall id :: id in units ==> UnitOk(units[id])
  }

  lemma RegisteredOk(b: Board)
    requires AllRegistered(b)
    ensures AllOk(b.units)
  {
    forall id | id in b.units ensures UnitOk(b.units[id]) {
      assert UnitFine(b, id);
    }
  }

  // ---------------------------------------------------------------------
  // Registration

  /** Where a new unit may be registered: a fresh id, a free tile of its
      faction's area. */
  predicate CanRegister(b: Board, id: UnitId, u: Unit) {
    id !in b.units && u.pos !in b.blue.at && u.pos !in b.red.at &&
    InBounds(u.pos, BoundsOf(FactionOf(u))) && UnitOk(u)
  }

  /** `Soldier._register`, `Wall._register`, `Barrack._register` and
      `Building._register`: the map entry at its tile, and the set of its
      class. */
  function RegisterOn(b: Board, id: UnitId, u: Unit): (r: Board)
    requires Valid(b.blue) && Valid(b.red)
    ensures Valid(r.blue) && Valid(r.red)
  {
    var f := FactionOf(u);
    Board(b.units[id := u],
          if f == Blue then Put(b.blue, u.pos, id) else b.blue,
          if f == Red then Put(b.red, u.pos, id) else b.red,
          if u.Soldier? && u.faction == Blue then b.blueSoldiers + {id} else b.blueSoldiers,
          if u.Soldier? && u.faction == Red then b.redSoldiers + {id} else b.redSoldiers,
          if u.Building? && u.bkind == Barrack then b.critical + {id} else b.critical,
          if u.Building? && u.bkind == Wall then b.noncritical + {id} else b.noncritical)
  }

  lemma RegisterMaps(b: Board, id: UnitId, u: Unit)
    requires MapSound(b, b.blue, Blue) && MapSound(b, b.red, Red) && Apart(b) && CanRegister(b, id, u)
    ensures var r := RegisterOn(b, id, u); MapSound(r, r.blue, Blue) && MapSound(r, r.red, Red) && Apart(r)
  {
    var r := RegisterOn(b, id, u);
    forall c | c in r.blue.at ensures EntryOk(r, r.blue, Blue, c) {
      if c != u.pos {
        assert EntryOk(b, b.blue, Blue, c);
      }
    }
    forall c | c in r.red.at ensures EntryOk(r, r.red, Red, c) {
      if c != u.pos {
        assert EntryOk(b, b.red, Red, c);
      }
    }
  }

  lemma RegisterUnits(b: Board, id: UnitId, u: Unit)
    requires Valid(b.blue) && Valid(b.red) && AllRegistered(b) && CanRegister(b, id, u)
    ensures AllRegistered(RegisterOn(b, id, u))
  {
    var r := RegisterOn(b, id, u);
    forall id' | id' in r.units ensures UnitFine(r, id') {
      if id' != id {
        assert UnitFine(b, id');
      }
    }
  }

  lemma RegisterSets(b: Board, id: UnitId, u: Unit)
    requires Valid(b.blue) && Valid(b.red) && SetsAgree(b) && id !in b.units
    ensures SetsAgree(RegisterOn(b, id, u))
  {
    SoldierIdsAdd(b.units, id, u, Blue);
    SoldierIdsAdd(b.units, id, u, Red);
    BuildingIdsAdd(b.units, id, u, Barrack);
    BuildingIdsAdd(b.units, id, u, Wall);
  }

  /** Registering keeps the board consistent. */
  lemma RegisterValid(b: Board, id: UnitId, u: Unit)
    requires BoardValid(b) && CanRegister(b, id, u)
    ensures BoardValid(RegisterOn(b, id, u))
  {
    RegisterMaps(b, id, u);
    RegisterUnits(b, id, u);
    RegisterSets(b, id, u);
  }

  /** Registering adds exactly the new unit, sets its tile in its faction's
      map, appends it to that map's enumeration, and leaves the other map
      alone. */
  lemma RegisterEffect(b: Board, id: UnitId, u: Unit)
    requires Valid(b.blue) && Valid(b.red) && CanRegister(b, id, u)
    ensures var r := RegisterOn(b, id, u); var f := FactionOf(u);
      r.units == b.units[id := u] &&
      Own(r, f).at == Own(b, f).at[u.pos := id] && Other(r, f) == Other(b, f) &&
      Values(Own(r, f)) == Values(Own(b, f)) + [id]
  {
    PutFreshValues(Own(b, FactionOf(u)), u.pos, id);
  }

  /** `_unregister` of each class: the map entry at the unit's tile and its
      set membership go; the object itself is gone from the board. */
  function UnregisterOn(b: Board, id: UnitId): Board
    requires Valid(b.blue) && Valid(b.red) && id in b.units
  {
    var u := b.units[id];
    var f := FactionOf(u);
    Board(b.units - {id},
          if f == Blue then Del(b.blue, u.pos) else b.blue,
          if f == Red then Del(b.red, u.pos) else b.red,
          if u.Soldier? && u.faction == Blue then b.blueSoldiers - {id} else b.blueSoldiers,
          if u.Soldier? && u.faction == Red then b.redSoldiers - {id} else b.redSoldiers,
          if u.Building? && u.bkind == Barrack then b.critical - {id} else b.critical,
          if u.Building? && u.bkind == Wall then b.noncritical - {id} else b.noncritical)
  }

  lemma UnregisterMaps(b: Board, id: UnitId)
    requires MapSound(b, b.blue, Blue) && MapSound(b, b.red, Red) && Apart(b) && id in b.units
    ensures var r := UnregisterOn(b, id); MapSound(r, r.blue, Blue) && MapSound(r, r.red, Red) && Apart(r)
  {
    var r := UnregisterOn(b, id);
    forall c | c in r.blue.at ensures EntryOk(r, r.blue, Blue, c) {
      assert EntryOk(b, b.blue, Blue, c);
    }
    forall c | c in r.red.at ensures EntryOk(r, r.red, Red, c) {
      assert EntryOk(b, b.red, Red, c);
    }
  }

  lemma UnregisterUnits(b: Board, id: UnitId)
    requires MapSound(b, b.blue, Blue) && MapSound(b, b.red, Red) && AllRegistered(b) && id in b.units
    ensures AllRegistered(UnregisterOn(b, id))
  {
    var r := UnregisterOn(b, id);
    assert UnitFine(b, id);
    forall id' | id' in r.units ensures UnitFine(r, id') {
      assert UnitFine(b, id');
    }
  }

  lemma UnregisterSets(b: Board, id: UnitId)
    requires Valid(b.blue) && Valid(b.red) && SetsAgree(b) && id in b.units
    ensures SetsAgree(UnregisterOn(b, id))
  {
    SoldierIdsRemove(b.units, id, Blue);
    SoldierIdsRemove(b.units, id, Red);
    BuildingIdsRemove(b.units, id, Barrack);
    BuildingIdsRemove(b.units, id, Wall);
  }

  /** Unregistering removes exactly the unit, deletes exactly its own tile
      from its faction's map, and keeps the board consistent. */
  lemma UnregisterValid(b: Board, id: UnitId)
    requires BoardValid(b) && id in b.units
    ensures var r := UnregisterOn(b, id); var f := FactionOf(b.units[id]);
      BoardValid(r) && r.units == b.units - {id} &&
      Own(r, f).at == Own(b, f).at - {b.units[id].pos} && Other(r, f) == Other(b, f)
  {
    UnregisterMaps(b, id);
    UnregisterUnits(b, id);
    UnregisterSets(b, id);
  }

  /** Registering a unit and unregistering it again gives back the board
      (the order of the map's other keys included). */
  lemma RegisterThenUnregister(b: Board, id: UnitId, u: Unit)
    requires Valid(b.blue) && Valid(b.red) && SetsAgree(b) && CanRegister(b, id, u)
    ensures UnregisterOn(RegisterOn(b, id, u), id) == b
  {
    var r := UnregisterOn(RegisterOn(b, id, u), id);
    assert id !in b.blueSoldiers && id !in b.redSoldiers && id !in b.critical && id !in b.noncritical;
    PutThenDel(Own(b, FactionOf(u)), u.pos, id);
    assert r.units == b.units;
    assert r.blue == b.blue && r.red == b.red;
  }

  /** A wave: the first `n` soldiers of the drawn kinds registered one by
      one, red, at level one, on the drawn tiles, with consecutive fresh ids. */
  function SpawnOn(b: Board, roster: Roster, id: UnitId, tiles: seq<Coord>, kinds: seq<SoldierKind>, n: nat): (r: Board)
    requires Valid(b.blue) && Valid(b.red) && n <= |tiles| == |kinds|
    ensures Valid(r.blue) && Valid(r.red)
  {
    if n == 0 then b
    else RegisterOn(SpawnOn(b, roster, id, tiles, kinds, n - 1), id + n - 1, NewSoldier(roster, kinds[n - 1], Red, tiles[n - 1], 1))
  }

  /** One more soldier of a wave is registered on the board the earlier
      ones left, under the next identity. */
  lemma SpawnNext(b: Board, roster: Roster, id: UnitId, tiles: seq<Coord>, kinds: seq<SoldierKind>, i: nat)
    requires Valid(b.blue) && Valid(b.red) && i < |tiles| == |kinds|
    ensures SpawnOn(b, roster, id, tiles, kinds, i + 1) ==
      RegisterOn(SpawnOn(b, roster, id, tiles, kinds, i), id + i, NewSoldier(roster, kinds[i], Red, tiles[i], 1))
  {
  }

  /** The first `n` tiles of a draw. */
  function TilesUpTo(tiles: seq<Coord>, n: nat): set<Coord>
    requires n <= |tiles|
  {
    set j | 0 <= j < n :: tiles[j]
  }

  /** The ids a wave of `n` soldiers receives. */
  function IdRange(id: UnitId, n: nat): set<UnitId> {
    if n == 0 then {} else IdRange(id, n - 1) + {id + n - 1}
  }

  /** The tiles a wave may be drawn on: distinct, on the outer ring, and not
      held by a red unit. */
  predicate SpawnTiles(b: Board, tiles: seq<Coord>) {
    Distinct(tiles) &&
    forall j :: 0 <= j < |tiles| ==> InBounds(tiles[j], RedBounds) && !InBounds(tiles[j], BlueBounds) && tiles[j] !in b.red.at
  }

  /** What the first `n` soldiers of a wave on `tiles` add to `b`, as seen in `r`. */
  predicate Spawned(b: Board, r: Board, id: UnitId, tiles: seq<Coord>, n: nat)
    requires n <= |tiles|
  {
    r.blue == b.blue &&
    r.units.Keys == b.units.Keys + IdRange(id, n) &&
    r.red.at.Keys == b.red.at.Keys + TilesUpTo(tiles, n) &&
    r.redSoldiers == b.redSoldiers + IdRange(id, n) &&
    r.blueSoldiers == b.blueSoldiers && r.critical == b.critical && r.noncritical == b.noncritical
  }

  /** The `n`-th soldier of a wave finds its id and its tile free. */
  lemma SpawnFree(b: Board, p: Board, roster: Roster, id: UnitId, tiles: seq<Coord>, kinds: seq<SoldierKind>, n: nat)
    requires 0 < n <= |tiles| == |kinds| && MapSound(p, p.blue, Blue) && SaneRoster(roster)
    requires forall u :: u in b.units ==> u < id
    requires SpawnTiles(b, tiles) && Spawned(b, p, id, tiles, n - 1)
    ensures CanRegister(p, id + n - 1, NewSoldier(roster, kinds[n - 1], Red, tiles[n - 1], 1))
  {
    var u := NewSoldier(roster, kinds[n - 1], Red, tiles[n - 1], 1);
    assert UnitOk(u);
    assert tiles[n - 1] !in TilesUpTo(tiles, n - 1) by {
      DistinctPairs(tiles);
      forall j | 0 <= j < n - 1 ensures tiles[j] != tiles[n - 1] {
      }
    }
    IdRangeBelow(id, n - 1);
  }

  lemma {:induction false} IdRangeBelow(id: UnitId, n: nat)
    ensures forall x :: x in IdRange(id, n) <==> id <= x < id + n
  {
    if n > 0 {
      IdRangeBelow(id, n - 1);
    }
  }

  /** What registering a red soldier changes, field by field. */
  lemma RegisterRedSoldier(p: Board, id: UnitId, u: Unit)
    requires Valid(p.blue) && Valid(p.red) && u.Soldier? && u.faction == Red
    ensures var r := RegisterOn(p, id, u);
      r.blue == p.blue && r.red.at.Keys == p.red.at.Keys + {u.pos} &&
      r.units.Keys == p.units.Keys + {id} && r.redSoldiers == p.redSoldiers + {id} &&
      r.blueSoldiers == p.blueSoldiers && r.critical == p.critical && r.noncritical == p.noncritical
  {
  }

  /** The bookkeeping of the `n`-th soldier of a wave, given what it changes. */
  lemma SpawnedSets(b: Board, p: Board, r: Board, id: UnitId, tiles: seq<Coord>, n: nat)
    requires 0 < n <= |tiles| && Spawned(b, p, id, tiles, n - 1)
    requires r.blue == p.blue && r.red.at.Keys == p.red.at.Keys + {tiles[n - 1]} &&
      r.units.Keys == p.units.Keys + {id + n - 1} && r.redSoldiers == p.redSoldiers + {id + n - 1} &&
      r.blueSoldiers == p.blueSoldiers && r.critical == p.critical && r.noncritical == p.noncritical
    ensures Spawned(b, r, id, tiles, n)
  {
    assert TilesUpTo(tiles, n) == TilesUpTo(tiles, n - 1) + {tiles[n - 1]};
  }

  /** The bookkeeping of the `n`-th soldier of a wave. */
  lemma SpawnedStep(b: Board, p: Board, u: Unit, id: UnitId, tiles: seq<Coord>, n: nat)
    requires Valid(p.blue) && Valid(p.red) && 0 < n <= |tiles| && Spawned(b, p, id, tiles, n - 1)
    requires u.Soldier? && u.faction == Red && u.pos == tiles[n - 1]
    ensures Spawned(b, RegisterOn(p, id + n - 1, u), id, tiles, n)
  {
    RegisterRedSoldier(p, id + n - 1, u);
    SpawnedSets(b, p, RegisterOn(p, id + n - 1, u), id, tiles, n);
  }

  /** The bookkeeping of the `n`-th soldier of a wave, on the spawn itself. */
  lemma SpawnBookStep(b: Board, roster: Roster, id: UnitId, tiles: seq<Coord>, kinds: seq<SoldierKind>, n: nat)
    requires Valid(b.blue) && Valid(b.red) && 0 < n <= |tiles| == |kinds|
    requires Spawned(b, SpawnOn(b, roster, id, tiles, kinds, n - 1), id, tiles, n - 1)
    ensures Spawned(b, SpawnOn(b, roster, id, tiles, kinds, n), id, tiles, n)
  {
    var p := SpawnOn(b, roster, id, tiles, kinds, n - 1);
    var u := NewSoldier(roster, kinds[n - 1], Red, tiles[n - 1], 1);
    SpawnedStep(b, p, u, id, tiles, n);
  }

  /** The bookkeeping of a whole wave: the new soldiers receive the next
      ids, hold exactly the drawn tiles of the red map and join the red
      soldiers, and nothing blue changes. */
  lemma {:induction false} SpawnBook(b: Board, roster: Roster, id: UnitId, tiles: seq<Coord>, kinds: seq<SoldierKind>, n: nat)
    requires Valid(b.blue) && Valid(b.red) && n <= |tiles| == |kinds|
    ensures Spawned(b, SpawnOn(b, roster, id, tiles, kinds, n), id, tiles, n)
  {
    if n > 0 {
      SpawnBook(b, roster, id, tiles, kinds, n - 1);
      SpawnBookStep(b, roster, id, tiles, kinds, n);
    } else {
      assert TilesUpTo(tiles, n) == {};
    }
  }

  /** The `n`-th soldier of a wave keeps the board the earlier ones left
      consistent. */
  lemma SpawnValidStep(b: Board, p: Board, roster: Roster, id: UnitId, tiles: seq<Coord>, kinds: seq<SoldierKind>, n: nat)
    requires SaneRoster(roster) && 0 < n <= |tiles| == |kinds|
    requires forall u :: u in b.units ==> u < id
    requires SpawnTiles(b, tiles) && Spawned(b, p, id, tiles, n - 1)
    ensures BoardValid(p) ==>
      BoardValid(RegisterOn(p, id + n - 1, NewSoldier(roster, kinds[n - 1], Red, tiles[n - 1], 1)))
  {
    if BoardValid(p) {
      SpawnFree(b, p, roster, id, tiles, kinds, n);
      RegisterValid(p, id + n - 1, NewSoldier(roster, kinds[n - 1], Red, tiles[n - 1], 1));
    }
  }

  /** Spawning a wave on distinct free tiles of the outer ring keeps the
      board consistent. */
  lemma {:induction false} SpawnValid(b: Board, roster: Roster, id: UnitId, tiles: seq<Coord>, kinds: seq<SoldierKind>, n: nat)
    requires BoardValid(b) && SaneRoster(roster) && n <= |tiles| == |kinds|
    requires forall u :: u in b.units ==> u < id
    requires SpawnTiles(b, tiles)
    ensures BoardValid(SpawnOn(b, roster, id, tiles, kinds, n))
  {
    if n > 0 {
      var p := SpawnOn(b, roster, id, tiles, kinds, n - 1);
      SpawnValid(b, roster, id, tiles, kinds, n - 1);
      SpawnBook(b, roster, id, tiles, kinds, n - 1);
      SpawnValidStep(b, p, roster, id, tiles, kinds, n);
    }
  }

  // ---------------------------------------------------------------------
  // Movement

  /** A tile unit `id` may move to: inside its area, not held by a hostile
      unit, and not held by a friendly one other than itself. */
  predicate CanMove(b: Board, id: UnitId, c: Coord)
    requires id in b.units
  {
    var u := b.units[id];
    u.Soldier? && InBounds(c, BoundsOf(u.faction)) && c !in Other(b, u.faction).at &&
    (c in Own(b, u.faction).at ==> c == u.pos)
  }

  /** `Soldier.move_to`: delete the old key, move the model (which sets
      `moved_this_turn`), and set the new key. */
  function MoveOn(b: Board, id: UnitId, c: Coord): (r: Board)
    requires Valid(b.blue) && Valid(b.red) && id in b.units && b.units[id].Soldier?
    ensures Valid(r.blue) && Valid(r.red)
  {
    var u := b.units[id];
    var units := b.units[id := u.(pos := c, moved := true)];
    if u.faction == Blue then b.(units := units, blue := Put(Del(b.blue, u.pos), c, id))
    else b.(units := units, red := Put(Del(b.red, u.pos), c, id))
  }

  lemma MoveMaps(b: Board, id: UnitId, c: Coord)
    requires MapSound(b, b.blue, Blue) && MapSound(b, b.red, Red) && Apart(b)
    requires id in b.units && UnitFine(b, id) && CanMove(b, id, c)
    ensures var r := MoveOn(b, id, c); MapSound(r, r.blue, Blue) && MapSound(r, r.red, Red) && Apart(r)
  {
    var r := MoveOn(b, id, c);
    var u := b.units[id];
    assert UnitFine(b, id);
    forall c' | c' in r.blue.at ensures EntryOk(r, r.blue, Blue, c') {
      if c' != c || u.faction != Blue {
        assert EntryOk(b, b.blue, Blue, c');
      }
    }
    forall c' | c' in r.red.at ensures EntryOk(r, r.red, Red, c') {
      if c' != c || u.faction != Red {
        assert EntryOk(b, b.red, Red, c');
      }
    }
  }

  lemma MoveUnits(b: Board, id: UnitId, c: Coord)
    requires MapSound(b, b.blue, Blue) && MapSound(b, b.red, Red) && AllRegistered(b)
    requires id in b.units && CanMove(b, id, c)
    ensures AllRegistered(MoveOn(b, id, c))
  {
    var r := MoveOn(b, id, c);
    var u := b.units[id];
    assert UnitFine(b, id);
    forall id' | id' in r.units ensures UnitFine(r, id') {
      if id' != id {
        assert UnitFine(b, id');
      }
    }
  }

  lemma MoveSets(b: Board, id: UnitId, c: Coord)
    requires Valid(b.blue) && Valid(b.red) && SetsAgree(b) && id in b.units && b.units[id].Soldier?
    ensures SetsAgree(MoveOn(b, id, c))
  {
    var r := MoveOn(b, id, c);
    assert SameRoles(b.units, r.units);
    SameRolesSets(b.units, r.units);
  }

  /** Moving keeps the board consistent. */
  lemma MoveValid(b: Board, id: UnitId, c: Coord)
    requires BoardValid(b) && id in b.units && CanMove(b, id, c)
    ensures BoardValid(MoveOn(b, id, c))
  {
    assert UnitFine(b, id);
    MoveMaps(b, id, c);
    MoveUnits(b, id, c);
    MoveSets(b, id, c);
  }

  /** In the mover's map only its old key goes and its new key comes, last
      in the enumeration; the mover stands on the new tile marked as moved;
      the hostile map, every other unit and every set stay. */
  lemma MoveEffect(b: Board, id: UnitId, c: Coord)
    requires Valid(b.blue) && Valid(b.red) && id in b.units && CanMove(b, id, c)
    requires b.units[id].pos in Own(b, b.units[id].faction).at && Own(b, b.units[id].faction).at[b.units[id].pos] == id
    ensures var r := MoveOn(b, id, c); var f := b.units[id].faction;
      r.units == b.units[id := b.units[id].(pos := c, moved := true)] &&
      Own(r, f).at == (Own(b, f).at - {b.units[id].pos})[c := id] && Other(r, f) == Other(b, f) &&
      r.blueSoldiers == b.blueSoldiers && r.redSoldiers == b.redSoldiers &&
      r.critical == b.critical && r.noncritical == b.noncritical
  {
  }

  /** The mover goes last in its map's enumeration, even when it stays on
      its tile: `move_to` deletes the key before setting it again. */
  lemma MoveEnumeration(b: Board, id: UnitId, c: Coord)
    requires Valid(b.blue) && Valid(b.red) && id in b.units && CanMove(b, id, c)
    requires b.units[id].pos in Own(b, b.units[id].faction).at && Own(b, b.units[id].faction).at[b.units[id].pos] == id
    ensures var f := b.units[id].faction;
      Values(Own(MoveOn(b, id, c), f)) == Values(Del(Own(b, f), b.units[id].pos)) + [id]
  {
    var u := b.units[id];
    RekeyValues(Own(b, u.faction), u.pos, c, id);
  }

  // ---------------------------------------------------------------------
  // Combat

  /** The result of an assault: the board, whether `_learn` raised
      `KeyError` (the board is then as the exception left it), and whether
      the target was destroyed. */
  datatype Assaulted = Assaulted(board: Board, raised: bool, destroyed: bool)

  /** `Soldier.assault`: the blow, one point of experience and the level-ups
      it triggers, the `attacked_this_turn` flag, and the destruction of a
      target left with no health. */
  function AssaultOn(b: Board, roster: Roster, a: UnitId, t: UnitId): Assaulted
    requires Valid(b.blue) && Valid(b.red)
    requires a in b.units && t in b.units && a != t && b.units[a].Soldier?
  {
    var attacker := b.units[a];
    var learned := Settle(attacker.(experience := attacker.experience + 1));
    var b1 := b.(units := Struck(b.units, roster, a, t));
    if learned.raised then Assaulted(b1, true, false)
    else if b1.units[t].health == 0.0 then Assaulted(UnregisterOn(b1, t), false, true)
    else Assaulted(b1, false, false)
  }

  /** The unit tables agree on ids, classes, factions and positions. */
  predicate SamePlaces(u1: map<UnitId, Unit>, u2: map<UnitId, Unit>) {
    SameRoles(u1, u2) && forall id :: id in u1 ==> u1[id].pos == u2[id].pos
  }

  lemma ReshuffleMaps(b: Board, units: map<UnitId, Unit>)
    requires MapSound(b, b.blue, Blue) && MapSound(b, b.red, Red) && SamePlaces(b.units, units)
    ensures var r := b.(units := units); MapSound(r, r.blue, Blue) && MapSound(r, r.red, Red)
  {
    var r := b.(units := units);
    forall c | c in r.blue.at ensures EntryOk(r, r.blue, Blue, c) {
      assert EntryOk(b, b.blue, Blue, c);
    }
    forall c | c in r.red.at ensures EntryOk(r, r.red, Red, c) {
      assert EntryOk(b, b.red, Red, c);
    }
  }

  lemma ReshuffleUnits(b: Board, units: map<UnitId, Unit>)
    requires AllRegistered(b) && SamePlaces(b.units, units) && AllOk(units)
    ensures AllRegistered(b.(units := units))
  {
    var r := b.(units := units);
    forall id | id in units ensures UnitFine(r, id) {
      assert UnitFine(b, id);
    }
  }

  /** Changing units in place, without moving them or changing their class,
      keeps the board consistent as long as each unit stays sane. */
  lemma Reshuffle(b: Board, units: map<UnitId, Unit>)
    requires BoardValid(b) && SamePlaces(b.units, units) && AllOk(units)
    ensures BoardValid(b.(units := units))
  {
    ReshuffleMaps(b, units);
    ReshuffleUnits(b, units);
    SameRolesSets(b.units, units);
  }

  /** The units after the blow and the experience, before any destruction. */
  function Struck(units: map<UnitId, Unit>, roster: Roster, a: UnitId, t: UnitId): map<UnitId, Unit>
    requires a in units && t in units && units[a].Soldier?
  {
    var attacker := units[a];
    var learned := Settle(attacker.(experience := attacker.experience + 1));
    units[t := Hit(units[t], Damage(roster, attacker, units[t]))]
         [a := if learned.raised then learned.unit else learned.unit.(attacked := true)]
  }

  lemma StruckPlaces(units: map<UnitId, Unit>, roster: Roster, a: UnitId, t: UnitId)
    requires a in units && t in units && a != t && units[a].Soldier? && AllOk(units)
    ensures SamePlaces(units, Struck(units, roster, a, t)) && AllOk(Struck(units, roster, a, t))
  {
    var attacker := units[a];
    DamageBounds(roster, attacker, units[t]);
    var s := Struck(units, roster, a, t);
    assert UnitOk(units[a]) && UnitOk(units[t]);
    forall id | id in s ensures UnitOk(s[id]) {
      if id != a && id != t {
        assert UnitOk(units[id]);
      }
    }
  }

  /** An assault keeps the board consistent. */
  lemma AssaultValid(b: Board, roster: Roster, a: UnitId, t: UnitId)
    requires BoardValid(b) && a in b.units && t in b.units && a != t && b.units[a].Soldier?
    ensures BoardValid(AssaultOn(b, roster, a, t).board)
  {
    var units := Struck(b.units, roster, a, t);
    RegisteredOk(b);
    StruckPlaces(b.units, roster, a, t);
    Reshuffle(b, units);
    if units[t].health == 0.0 {
      UnregisterValid(b.(units := units), t);
    }
  }

  /** What an assault does. The target loses exactly the capped blow and
      never drops below zero health; the attacker gains one point of
      experience, levels up as `_learn` says, and is marked as having
      attacked unless `_learn` raised; the target is destroyed exactly when
      `_learn` did not raise and the uncapped blow reaches its health; no
      other unit changes. */
  lemma AssaultEffect(b: Board, roster: Roster, a: UnitId, t: UnitId)
    requires Valid(b.blue) && Valid(b.red) && a in b.units && t in b.units && a != t && b.units[a].Soldier?
    requires b.units[t].health >= 0.0
    ensures var r := AssaultOn(b, roster, a, t); var s := Struck(b.units, roster, a, t);
      var attacker := b.units[a]; var target := b.units[t];
      var learned := Settle(attacker.(experience := attacker.experience + 1));
      s.Keys == b.units.Keys &&
      (forall id :: id in b.units && id != a && id != t ==> s[id] == b.units[id]) &&
      s[t] == WithHealth(target, target.health - Damage(roster, attacker, target)) && s[t].health >= 0.0 &&
      s[a] == (if learned.raised then learned.unit else learned.unit.(attacked := true)) &&
      r.raised == learned.raised &&
      (r.destroyed <==> !learned.raised && RawDamage(roster, attacker, target) >= target.health) &&
      (r.destroyed ==> r.board == UnregisterOn(b.(units := s), t)) &&
      (!r.destroyed ==> r.board == b.(units := s))
  {
    DamageBounds(roster, b.units[a], b.units[t]);
  }

  /** A soldier's assault never takes a unit of its own faction out of the
      board, and the attacker stays. */
  lemma AssaultKeepsOwnSide(b: Board, roster: Roster, a: UnitId, t: UnitId)
    requires BoardValid(b) && a in b.units && t in b.units && a != t && b.units[a].Soldier?
    requires FactionOf(b.units[t]) != b.units[a].faction
    ensures var r := AssaultOn(b, roster, a, t).board;
      a in r.units && (if b.units[a].faction == Blue then r.blueSoldiers == b.blueSoldiers
                       else r.redSoldiers == b.redSoldiers)
  {
    AssaultValid(b, roster, a, t);
    RegisteredOk(b);
    assert UnitOk(b.units[t]);
    AssaultEffect(b, roster, a, t);
    SetsOf(b, t);
    SetsOf(b, a);
  }

  // ---------------------------------------------------------------------
  // Turn bookkeeping

  /** Every soldier in `ids` restored by `amount` (`restore_health_by`). */
  function HealOn(b: Board, ids: set<UnitId>, amount: real): (r: Board)
    requires forall id :: id in ids ==> id in b.units && b.units[id].Soldier?
  {
    b.(units := map id | id in b.units :: if id in ids then RestoreHealth(b.units[id], amount) else b.units[id])
  }

  /** Healing changes nothing but the healed soldiers' health, never past
      their maximum, and keeps the board consistent. */
  lemma HealValid(b: Board, ids: set<UnitId>, amount: real)
    requires BoardValid(b) && amount >= 0.0 && forall id :: id in ids ==> id in b.units && b.units[id].Soldier?
    ensures var r := HealOn(b, ids, amount);
      BoardValid(r) && r.units.Keys == b.units.Keys &&
      (forall id :: id in ids ==> r.units[id].health == Min(b.units[id].health + amount, b.units[id].maxHealth)) &&
      (forall id :: id in b.units && id !in ids ==> r.units[id] == b.units[id])
  {
    var r := HealOn(b, ids, amount);
    RegisteredOk(b);
    forall id | id in r.units ensures UnitOk(r.units[id]) {
      assert UnitOk(b.units[id]);
    }
    Reshuffle(b, r.units);
  }

  function Min(x: real, y: real): real { if x < y then x else y }

  /** `moved_this_turn = False; attacked_this_turn = False` for every soldier in `ids`. */
  function ResetOn(b: Board, ids: set<UnitId>): Board
    requires forall id :: id in ids ==> id in b.units && b.units[id].Soldier?
  {
    b.(units := map id | id in b.units :: if id in ids then b.units[id].(moved := false, attacked := false) else b.units[id])
  }

  lemma ResetValid(b: Board, ids: set<UnitId>)
    requires BoardValid(b) && forall id :: id in ids ==> id in b.units && b.units[id].Soldier?
    ensures var r := ResetOn(b, ids);
      BoardValid(r) && r.units.Keys == b.units.Keys &&
      (forall id :: id in ids ==> !r.units[id].moved && !r.units[id].attacked) &&
      (forall id :: id in b.units && id !in ids ==> r.units[id] == b.units[id])
  {
    var r := ResetOn(b, ids);
    RegisteredOk(b);
    forall id | id in r.units ensures UnitOk(r.units[id]) {
      assert UnitOk(b.units[id]);
    }
    Reshuffle(b, r.units);
  }

  /** The search space of soldier `id`: its faction's area and maps, the
      landscape and its class's mobility. */
  function SpaceOf(b: Board, roster: Roster, cost: map<Coord, int>, id: UnitId): Space
    requires id in b.units && b.units[id].Soldier?
  {
    var u := b.units[id];
    Space(BoundsOf(u.faction), Own(b, u.faction).at.Keys, Other(b, u.faction).at.Keys, cost,
          ClassOf(roster, u.kind).mobility)
  }

  /** A tile `get_reachable_coordinates` offers is a legal move. */
  lemma ReachIsMovable(b: Board, roster: Roster, cost: map<Coord, int>, id: UnitId, c: Coord)
    requires BoardValid(b) && id in b.units && b.units[id].Soldier?
    requires c !in SpaceOf(b, roster, cost, id).friendly && CanReach(SpaceOf(b, roster, cost, id), b.units[id].pos, c)
    ensures CanMove(b, id, c)
  {
    var sp := SpaceOf(b, roster, cost, id);
    var u := b.units[id];
    var w :| IsWalk(sp, u.pos, w) && w[|w| - 1] == c && WalkCost(sp, w) <= sp.mobility;
    assert UnitFine(b, id);
    assert |w| > 1;
    assert StepOk(sp, w, |w| - 1);
  }

  /** The end of an approach path is a legal move: the unit's own tile, or
      a passable tile off friendly ground. */
  lemma ApproachIsMovable(b: Board, roster: Roster, cost: map<Coord, int>, id: UnitId,
                          target: Coord, range: int, path: seq<Coord>)
    requires BoardValid(b) && id in b.units && b.units[id].Soldier?
    requires Approaches(SpaceOf(b, roster, cost, id), b.units[id].pos, target, range, path)
    ensures CanMove(b, id, path[|path| - 1])
  {
    var sp := SpaceOf(b, roster, cost, id);
    var u := b.units[id];
    assert UnitFine(b, id);
    assert EntryOk(b, Own(b, u.faction), u.faction, u.pos);
    if |path| > 1 {
      assert StepOk(sp, path, |path| - 1);
    }
  }

  /** Defeat: no blue soldier and no critical building is left. */
  predicate Defeated(b: Board) {
    b.blueSoldiers == {} && b.critical == {}
  }

  /** As long as blue is not defeated, red soldiers have something to hunt. */
  lemma NotDefeatedHasTargets(b: Board)
    requires BoardValid(b) && !Defeated(b)
    ensures |Values(b.blue)| > 0
  {
    var id :| id in b.blueSoldiers || id in b.critical;
    assert UnitFine(b, id);
    ValuesAreIds(b.blue);
  }
}
