/** The game context: what `GameState` and the side-panel displays hold
    between two clicks (the board, the selection stack, the wave, day and
    coin counters and the state of the day generator), and the handlers
    that change it: registration, movement and assault of units, the click
    handlers of buildings and recruitments, a soldier's press and release,
    `hunt`, and the end of a turn with its day cycle. */
module Play {
  import opened Grid
  import opened Wrappers
  import opened Units
  import opened Occupancy
  import opened Search
  import opened Rules
  import opened Targeting
  import opened Selection
  import opened Tactics
  import opened Waves

  /** Where the day generator stands: before its first, second or third
      phase, or past the last wave, where it only shows victory. */
  datatype Phase = Muster | Spawn | Payday | Won

  /** The outcome the `DisplayOutcomeControl` shows. */
  datatype Banner = Defeat | Victory

  /** The exceptions a handler can raise: `heappop` on an empty heap in
      `hunt`, and the `KeyError` of `_learn` past level 5. */
  datatype Fault = EmptyHeap | LevelOverflow

  /** The random choices of one wave: the areas `sample` picks, the tiles
      it draws from them, and the class of each new soldier. */
  datatype Draw = Draw(areas: seq<nat>, tiles: seq<Coord>, kinds: seq<SoldierKind>)

  /** Where a dragged soldier is released: on nothing it can use, on one
      of its movement highlights, or on one of its attack targets. */
  datatype Drop = NoDrop | OnTile(tile: Coord) | OnUnit(target: UnitId)

  /** The board one step of the day generator leaves from phase `p`: the
      blue soldiers healed by ten on the first and third steps, the next
      wave spawned on the second (nothing once twelve waves are out), and
      nothing changed after victory. */
  function DayBoard(b: Board, roster: Roster, p: Phase, wave: int, id: UnitId, draw: Draw): Board
    requires BoardValid(b)
    requires p == Spawn && wave < 12 ==> |draw.tiles| == |draw.kinds|
  {
    match p
    case Muster => HealOn(b, b.blueSoldiers, 10.0)
    case Spawn => if wave < 12 then SpawnOn(b, roster, id, draw.tiles, draw.kinds, |draw.tiles|) else b
    case Payday => HealOn(b, b.blueSoldiers, 10.0)
    case Won => b
  }

  /** `{Archer, Cavalry, Infantry}`, the classes red waves are made of. */
  const CommonKinds: set<SoldierKind> := {Archer, Cavalry, Infantry}

  lemma CommonKindsSize()
    ensures |CommonKinds| == 3
  {
    assert CommonKinds == {Archer} + {Cavalry} + {Infantry};
  }

  /** The choices wave `k` can make: `WaveAreas(k)` different areas, the
      scheduled number of different tiles from them, and as many classes,
      the first three waves each taking a class still in `common`. */
  predicate DrawFits(k: int, common: set<SoldierKind>, d: Draw)
    requires 1 <= k <= 12
  {
    ValidAreas(d.areas, WaveAreas(k)) && ValidDraw(d.tiles, d.areas, WaveSize(k)) &&
    |d.kinds| == WaveSize(k) && (k <= 3 ==> d.kinds[0] in common) &&
    forall i :: 0 <= i < |d.kinds| ==> d.kinds[i] in CommonKinds
  }

  /** Every wave can be drawn: as long as the first three waves still find
      a class in `common`, some choice of areas, tiles and classes fits. */
  lemma DrawAvailable(k: int, common: set<SoldierKind>)
    requires 1 <= k <= 12 && common <= CommonKinds && (k <= 3 ==> common != {})
    ensures exists d :: DrawFits(k, common, d)
  {
    var areas := seq(WaveAreas(k), i => i);
    WaveFits(k);
    assert ValidAreas(areas, WaveAreas(k));
    DrawExists(k, areas);
    var x :| x in (if k <= 3 then common else CommonKinds);
    var d := Draw(areas, Pool(areas)[..WaveSize(k)], seq(WaveSize(k), i => x));
    assert DrawFits(k, common, d);
  }

  /** Two tiles at most one step apart in each direction. */
  predicate Near(c: Coord, mid: Coord) {
    Abs(c.x - mid.x) <= 1 && Abs(c.y - mid.y) <= 1
  }

  /** `_create_initial_buildings` turns the tile of the barrack and its
      eight neighbours into grass: they cost 1, every other tile keeps the
      landscape's cost. */
  function Cleared(landscape: map<Coord, int>, mid: Coord): (cost: map<Coord, int>)
    ensures forall c :: c in cost <==> c in landscape || Near(c, mid)
    ensures forall c :: c in cost ==> cost[c] == if Near(c, mid) then 1 else landscape[c]
    ensures ValidCosts(landscape) ==> ValidCosts(cost)
  {
    var block := {Coord(mid.x - 1, mid.y - 1), Coord(mid.x, mid.y - 1), Coord(mid.x + 1, mid.y - 1),
                  Coord(mid.x - 1, mid.y), mid, Coord(mid.x + 1, mid.y),
                  Coord(mid.x - 1, mid.y + 1), Coord(mid.x, mid.y + 1), Coord(mid.x + 1, mid.y + 1)};
    assert forall c :: Near(c, mid) ==> c in block by {
      forall c | Near(c, mid) ensures c in block {
        assert c.x - mid.x in {-1, 0, 1} && c.y - mid.y in {-1, 0, 1};
      }
    }
    map c | c in landscape.Keys + block :: if Near(c, mid) then 1 else landscape[c]
  }

  /** The board `Program.__init__` builds, a barrack in the middle of the
      field and the hero just below it, is consistent and holds nothing
      else. */
  lemma InitialBoard(roster: Roster)
    ensures var b := RegisterOn(RegisterOn(EmptyBoard, 0, NewBuilding(Barrack, Coord(10, 6))),
                                1, NewSoldier(roster, Hero, Blue, Coord(10, 7), 1));
      BoardValid(b) && b.units.Keys == {0, 1}
  {
    EmptyBoardValid();
    var b1 := RegisterOn(EmptyBoard, 0, NewBuilding(Barrack, Coord(10, 6)));
    RegisterValid(EmptyBoard, 0, NewBuilding(Barrack, Coord(10, 6)));
    RegisterValid(b1, 1, NewSoldier(roster, Hero, Blue, Coord(10, 7), 1));
  }

  /** The red map holds red soldiers only, since every building is blue;
      so without red soldiers it is empty. */
  lemma RedMapHoldsSoldiers(b: Board)
    requires BoardValid(b)
    ensures forall c :: c in b.red.at ==> b.red.at[c] in b.redSoldiers
    ensures b.redSoldiers == {} ==> b.red.at == map[]
  {
    forall c | c in b.red.at ensures b.red.at[c] in b.redSoldiers {
      assert EntryOk(b, b.red, Red, c);
    }
  }

  /** A fitting draw, on a board without red soldiers, gives a wave the
      tiles it needs: distinct, on the outer ring, and free. */
  lemma SpawnReady(b: Board, k: int, common: set<SoldierKind>, d: Draw)
    requires BoardValid(b) && b.redSoldiers == {} && 1 <= k <= 12 && DrawFits(k, common, d)
    ensures SpawnTiles(b, d.tiles) && |d.tiles| == |d.kinds|
  {
    RedMapHoldsSoldiers(b);
    PoolShape(d.areas);
    forall j | 0 <= j < |d.tiles| ensures InBounds(d.tiles[j], RedBounds) && !InBounds(d.tiles[j], BlueBounds) {
      assert d.tiles[j] in Pool(d.areas);
    }
  }

  /** A fitting wave keeps the board consistent, gives its soldiers the
      identities from `id` on, and removes no unit. */
  lemma WaveBoard(b: Board, roster: Roster, id: UnitId, k: int, common: set<SoldierKind>, d: Draw, sel: Option<UnitId>)
    requires BoardValid(b) && SaneRoster(roster) && b.redSoldiers == {} && 1 <= k <= 12 && DrawFits(k, common, d)
    requires (forall u :: u in b.units ==> u < id) && (sel.Some? ==> sel.value in b.units)
    ensures |d.tiles| == |d.kinds| == WaveSize(k) > 0
    ensures var r := SpawnOn(b, roster, id, d.tiles, d.kinds, |d.tiles|);
      BoardValid(r) && (forall u :: u in r.units ==> u < id + |d.tiles|) && (sel.Some? ==> sel.value in r.units) &&
      r.units.Keys == b.units.Keys + IdRange(id, |d.tiles|) && b.units.Keys <= r.units.Keys
  {
    SpawnReady(b, k, common, d);
    SpawnValid(b, roster, id, d.tiles, d.kinds, |d.tiles|);
    SpawnBook(b, roster, id, d.tiles, d.kinds, |d.tiles|);
    IdRangeBelow(id, |d.tiles|);
  }

  /** A soldier's hunt never takes a unit of its own side out of the board:
      moving keeps every set, and the assault that may follow destroys at
      most its hostile target. */
  lemma HuntKeepsOwnSide(b: Board, roster: Roster, id: UnitId, c: Coord, t: UnitId)
    requires BoardValid(b) && id in b.units && CanMove(b, id, c)
    requires t in b.units && FactionOf(b.units[t]) != b.units[id].faction
    ensures var m := MoveOn(b, id, c); var f := b.units[id].faction;
      BoardValid(m) && m.redSoldiers == b.redSoldiers && m.blueSoldiers == b.blueSoldiers &&
      var r := AssaultOn(m, roster, id, t).board;
      BoardValid(r) && id in r.units &&
      (if f == Blue then r.blueSoldiers == b.blueSoldiers else r.redSoldiers == b.redSoldiers)
  {
    assert UnitFine(b, id);
    MoveValid(b, id, c);
    MoveEffect(b, id, c);
    var m := MoveOn(b, id, c);
    AssaultValid(m, roster, id, t);
    AssaultKeepsOwnSide(m, roster, id, t);
  }

  /** Whether `SoldierView.refresh` leaves a soldier's press bound: every
      soldier but a blue one that has both moved and attacked this turn. */
  predicate Pressable(u: Unit)
    requires u.Soldier?
  {
    !(u.faction == Blue && u.moved && u.attacked)
  }

  class Game {
    /** The unseen classes, the landscape and the neighbour order of the searches. */
    const roster: Roster
    const cost: map<Coord, int>
    const dirs: seq<(int, int)>

    /** The units, the occupancy maps and the unit sets; `nextId` is the
        identity the next created object receives. */
    var board: Board
    var nextId: nat

    /** `selected_game_objects`, `selected_unit`, the barrack recruitments
        shown and the placement highlights. */
    var selection: seq<Selectable>
    var selectedUnit: Option<UnitId>
    var recruitments: set<SoldierKind>
    var placements: set<Coord>

    /** The recruitment buttons whose command `refresh` bound to the click
        handler when the barrack's selection created them; nothing redraws
        them while the barrack stays selected. */
    var enabled: set<SoldierKind>

    /** `GameState.wave`, the day and coin displays, the day generator and
        the `common_soldiers` of the wave generator, and the outcome shown. */
    var wave: int
    var day: int
    var coin: int
    var phase: Phase
    var common: set<SoldierKind>
    var banner: Option<Banner>

    ghost predicate Setup() {
      ValidCosts(cost) && IsDirections(dirs) && SaneRoster(roster)
    }

    /** The board is consistent, identities are below `nextId`, and the
        selected unit is on the board. */
    ghost predicate BoardOk()
      reads this
    {
      BoardValid(board) && (forall id :: id in board.units ==> id < nextId) &&
      (selectedUnit.Some? ==> selectedUnit.value in board.units)
    }

    /** The counters: at most twelve waves, one class of `common` popped by
        each of the first three, and the generator exhausted only after the
        twelfth. */
    predicate ClockOk()
      reads this
    {
      0 <= wave <= 12 && day >= 1 && common <= CommonKinds &&
      |common| == (if wave <= 3 then 3 - wave else 0) && (phase == Won ==> wave == 12)
    }

    /** Only shown buttons are bound, and each of them is affordable: the
        reserve has not fallen since they were drawn. */
    ghost predicate ButtonsOk()
      reads this
    {
      enabled <= recruitments && forall k :: k in enabled ==> RecruitButtonActive(roster, coin, k)
    }

    ghost predicate Valid()
      reads this
    {
      Setup() && BoardOk() && SelectionOk(selection, recruitments, placements) && ButtonsOk() && ClockOk()
    }

    /** The selection state, as one value. */
    function Pick(): (seq<Selectable>, Option<UnitId>, set<SoldierKind>, set<Coord>, set<SoldierKind>)
      reads this
    {
      (selection, selectedUnit, recruitments, placements, enabled)
    }

    /** The counters, as one value. */
    function Clock(): (int, int, int, Phase, set<SoldierKind>, Option<Banner>)
      reads this
    {
      (wave, day, coin, phase, common, banner)
    }

    /** `s` names a building standing on the board. */
    ghost predicate Names(s: Selectable)
      reads this
    {
      s.SelBuilding? && s.id in board.units && board.units[s.id].Building? &&
      board.units[s.id].bkind == s.kind && board.units[s.id].pos == s.pos
    }

    /** `Program.__init__`: the displays at day 1 and ten coins, the
        generators before their first step, grass around the middle of the
        field, a barrack there and the hero just below it. */
    constructor (roster: Roster, landscape: map<Coord, int>, dirs: seq<(int, int)>)
      requires SaneRoster(roster) && ValidCosts(landscape) && IsDirections(dirs)
      ensures Valid()
      ensures this.roster == roster && this.dirs == dirs
      ensures this.cost == Cleared(landscape, Coord(FieldWidth / 2, FieldHeight / 2))
      ensures board == RegisterOn(RegisterOn(EmptyBoard, 0, NewBuilding(Barrack, Coord(10, 6))),
                                  1, NewSoldier(roster, Hero, Blue, Coord(10, 7), 1))
      ensures nextId == 2
      ensures Pick() == ([], None, {}, {}, {})
      ensures Clock() == (0, 1, 10, Muster, CommonKinds, None)
    {
      this.roster, this.dirs := roster, dirs;
      this.cost := Cleared(landscape, Coord(FieldWidth / 2, FieldHeight / 2));
      board, nextId := EmptyBoard, 0;
      selection, selectedUnit, recruitments, placements, enabled := [], None, {}, {}, {};
      wave, day, coin, phase, common, banner := 0, 1, 10, Muster, CommonKinds, None;
      new;
      var _ := Register(NewBuilding(Barrack, Coord(10, 6)));
      var _ := Register(NewSoldier(roster, Hero, Blue, Coord(10, 7), 1));
      InitialBoard(roster);
      assert board.units.Keys == {0, 1} && nextId == 2;
      assert BoardOk();
      CommonKindsSize();
    }

    // -------------------------------------------------------------------
    // Units

    /** `_register` of a new object's class: its entry in its faction's map
        and its place in the set of its class, under the next identity. */
    method Register(u: Unit) returns (id: UnitId)
      requires Occupancy.Valid(board.blue) && Occupancy.Valid(board.red)
      modifies this
      ensures id == old(nextId) && nextId == id + 1
      ensures board == RegisterOn(old(board), id, u)
      ensures Pick() == old(Pick()) && Clock() == old(Clock())
    {
      id := nextId;
      board := board.(units := board.units[id := u]);
      if FactionOf(u) == Blue {
        board := board.(blue := Put(board.blue, u.pos, id));
      } else {
        board := board.(red := Put(board.red, u.pos, id));
      }
      if u.Soldier? && u.faction == Blue {
        board := board.(blueSoldiers := board.blueSoldiers + {id});
      } else if u.Soldier? {
        board := board.(redSoldiers := board.redSoldiers + {id});
      } else if u.bkind == Barrack {
        board := board.(critical := board.critical + {id});
      } else if u.bkind == Wall {
        board := board.(noncritical := board.noncritical + {id});
      }
      nextId := nextId + 1;
    }

    /** `_unregister` of the unit's class, as `destroy` runs it. */
    method Unregister(id: UnitId)
      requires Occupancy.Valid(board.blue) && Occupancy.Valid(board.red) && id in board.units
      modifies this
      ensures board == UnregisterOn(old(board), id)
      ensures nextId == old(nextId) && Pick() == old(Pick()) && Clock() == old(Clock())
    {
      var u := board.units[id];
      if FactionOf(u) == Blue {
        board := board.(blue := Del(board.blue, u.pos));
      } else {
        board := board.(red := Del(board.red, u.pos));
      }
      if u.Soldier? && u.faction == Blue {
        board := board.(blueSoldiers := board.blueSoldiers - {id});
      } else if u.Soldier? {
        board := board.(redSoldiers := board.redSoldiers - {id});
      } else if u.bkind == Barrack {
        board := board.(critical := board.critical - {id});
      } else if u.bkind == Wall {
        board := board.(noncritical := board.noncritical - {id});
      }
      board := board.(units := board.units - {id});
    }

    /** `Soldier.move_to`: delete the old key, move the model, set the new
        key. */
    method MoveTo(id: UnitId, c: Coord)
      requires Valid() && id in board.units && CanMove(board, id, c)
      modifies this
      ensures Valid()
      ensures board == MoveOn(old(board), id, c)
      ensures nextId == old(nextId) && Pick() == old(Pick()) && Clock() == old(Clock())
    {
      ghost var b0 := board;
      var u := board.units[id];
      if u.faction == Blue {
        board := board.(blue := Del(board.blue, u.pos));
      } else {
        board := board.(red := Del(board.red, u.pos));
      }
      board := board.(units := board.units[id := u.(pos := c, moved := true)]);
      if u.faction == Blue {
        board := board.(blue := Put(board.blue, c, id));
      } else {
        board := board.(red := Put(board.red, c, id));
      }
      MoveValid(b0, id, c);
    }

    /** `SoldierModel.assault`: the blow, then `_learn` (whose `KeyError`
        leaves the attacker as the loop left it), then the
        `attacked_this_turn` flag. */
    method Strike(a: UnitId, t: UnitId) returns (raised: bool)
      requires a in board.units && t in board.units && a != t && board.units[a].Soldier?
      modifies this
      ensures board == old(board).(units := Struck(old(board).units, roster, a, t))
      ensures raised == Settle(old(board).units[a].(experience := old(board).units[a].experience + 1)).raised
      ensures nextId == old(nextId) && Pick() == old(Pick()) && Clock() == old(Clock())
    {
      var attacker := board.units[a];
      var learned := Learn(attacker, 1);
      var units := board.units;
      var target := units[t];
      units := units[t := Hit(target, Damage(roster, attacker, target))];
      raised := learned.raised;
      if raised {
        units := units[a := learned.unit];
      } else {
        units := units[a := learned.unit.(attacked := true)];
      }
      board := board.(units := units);
    }

    /** `Soldier.assault`: the model's assault, the destruction of a target
        left with no health, and the selected unit cleared when it was the
        destroyed target. A `KeyError` of `_learn` ends the handler before
        either. */
    method Assault(a: UnitId, t: UnitId) returns (fault: Option<Fault>)
      requires Valid() && a in board.units && t in board.units && a != t && board.units[a].Soldier?
      modifies this
      ensures Valid()
      ensures var r := AssaultOn(old(board), roster, a, t);
        board == r.board && (fault.Some? <==> r.raised) && (fault.Some? ==> fault.value == LevelOverflow) &&
        selectedUnit == (if r.destroyed && old(selectedUnit) == Some(t) then None else old(selectedUnit))
      ensures nextId == old(nextId) && Clock() == old(Clock())
      ensures selection == old(selection) && recruitments == old(recruitments) && placements == old(placements) &&
        enabled == old(enabled)
    {
      ghost var b0 := board;
      ghost var r := AssaultOn(b0, roster, a, t);
      AssaultValid(b0, roster, a, t);
      assert r.board.units.Keys <= b0.units.Keys;
      var raised := Strike(a, t);
      assert board == b0.(units := Struck(b0.units, roster, a, t));
      if raised {
        assert board == r.board;
        return Some(LevelOverflow);
      }
      fault := None;
      if board.units[t].health == 0.0 {
        Unregister(t);
        assert board == r.board && board.units.Keys == b0.units.Keys - {t};
        if selectedUnit == Some(t) {
          selectedUnit := None;
        }
      } else {
        assert board == r.board;
      }
    }

    // -------------------------------------------------------------------
    // Selection

    /** `Building.handle_click_event` of building `s`: select it on an empty
        stack; deselect it when it is the selected building; otherwise
        close what is open first (the other building, or the open
        recruitment and then its building) and click again. */
    method BuildingClick(s: Selectable)
      requires Valid() && s.SelBuilding?
      requires Names(s) || (selection != [] && selection[0] == s)
      modifies this
      ensures Valid() && board == old(board) && nextId == old(nextId) && Clock() == old(Clock())
      ensures old(selection) != [] && old(selection)[0] == s ==> Pick() == ([], None, {}, {}, {})
      ensures !(old(selection) != [] && old(selection)[0] == s) ==>
        Pick() == ([s], Some(s.id), Offers(s.kind), {}, BoundButtons(roster, coin, s.kind))
      decreases if |selection| == 2 then 3 else if |selection| == 1 && selection[0] != s then 2
                else if |selection| == 1 then 1 else 0
    {
      if selection == [] {
        selectedUnit := Some(s.id);
        if s.kind == Barrack {
          recruitments := recruitments + {Infantry, Archer, Cavalry};
          enabled := BoundButtons(roster, coin, s.kind);
        }
        selection := selection + [s];
        assert selection == [s] && recruitments == Offers(s.kind) && enabled == BoundButtons(roster, coin, s.kind);
      } else if |selection| == 1 {
        if selection[0] == s {
          selection := selection[..0];
          selectedUnit := None;
          if s.kind == Barrack {
            recruitments, enabled := {}, {};
          } else {
            assert enabled == {};
          }
        } else {
          BuildingClick(selection[0]);
          BuildingClick(s);
        }
      } else {
        RecruitmentClick(selection[1].recruit);
        BuildingClick(s);
      }
    }

    /** `SoldierRecruitment.handle_click_event` of the recruitment of class
        `k`: open it over the selected building, with a placement highlight
        on each free neighbour; close it when it is the open one; otherwise
        close the open one and click again. */
    method RecruitmentClick(k: SoldierKind)
      requires Valid() && k in recruitments
      modifies this
      ensures Valid() && board == old(board) && nextId == old(nextId) && Clock() == old(Clock())
      ensures recruitments == old(recruitments) && selectedUnit == old(selectedUnit) && enabled == old(enabled)
      ensures |old(selection)| == 2 && old(selection)[1] == SelRecruitment(k) ==>
        selection == old(selection)[..1] && placements == {}
      ensures !(|old(selection)| == 2 && old(selection)[1] == SelRecruitment(k)) ==>
        selection == [old(selection)[0], SelRecruitment(k)] &&
        placements == Candidates(old(selection)[0].pos, board.blue.at, board.red.at)
      decreases if |selection| == 2 && selection[1] != SelRecruitment(k) then 1 else 0
    {
      if |selection| == 1 {
        var tiles := PlacementCandidates(selection[0].pos, board.blue.at, board.red.at);
        placements := placements + tiles;
        selection := selection + [SelRecruitment(k)];
      } else if selection[1] == SelRecruitment(k) {
        selection := selection[..1];
        placements := {};
      } else {
        RecruitmentClick(selection[1].recruit);
        RecruitmentClick(k);
      }
    }

    /** A press on the recruitment button of class `k`: it runs the click
        handler only when `refresh` bound it as the barrack was selected, so
        a button drawn unaffordable stays inert even once the reserve has
        grown. A bound button's recruit is affordable. */
    method PressRecruitment(k: SoldierKind)
      requires Valid() && k in recruitments
      modifies this
      ensures Valid() && board == old(board) && nextId == old(nextId) && Clock() == old(Clock())
      ensures recruitments == old(recruitments) && selectedUnit == old(selectedUnit) && enabled == old(enabled)
      ensures k !in enabled ==> Pick() == old(Pick())
      ensures k in enabled ==> RecruitButtonActive(roster, coin, k)
      ensures k in enabled && |old(selection)| == 2 && old(selection)[1] == SelRecruitment(k) ==>
        selection == old(selection)[..1] && placements == {}
      ensures k in enabled && !(|old(selection)| == 2 && old(selection)[1] == SelRecruitment(k)) ==>
        selection == [old(selection)[0], SelRecruitment(k)] &&
        placements == Candidates(old(selection)[0].pos, board.blue.at, board.red.at)
    {
      if k in enabled {
        RecruitmentClick(k);
      }
    }

    // -------------------------------------------------------------------
    // A soldier's press and release

    /** A press on a soldier. `refresh` unbinds the press of a blue soldier
        that has moved and attacked, so such a press changes nothing.
        Otherwise `Soldier._handle_press_event` clicks every selected object
        from the top of the stack down, which closes every selection;
        selects the soldier; and offers a blue soldier the tiles it can
        reach unless it has moved, and the hostile units in its range unless
        it has attacked. A red soldier is selected but offers nothing. */
    method PressSoldier(id: UnitId) returns (moves: set<Coord>, targets: set<UnitId>)
      requires Valid() && id in board.units && board.units[id].Soldier?
      modifies this
      ensures Valid() && board == old(board) && nextId == old(nextId) && Clock() == old(Clock())
      ensures !Pressable(board.units[id]) ==> Pick() == old(Pick()) && moves == {} && targets == {}
      ensures Pressable(board.units[id]) ==> Pick() == ([], Some(id), {}, {}, {})
      ensures var u := board.units[id]; var sp := SpaceOf(board, roster, cost, id);
        (u.faction == Blue && !u.moved ==> forall c :: c in moves <==> c !in sp.friendly && CanReach(sp, u.pos, c)) &&
        (u.faction == Red || u.moved ==> moves == {})
      ensures var u := board.units[id];
        (u.faction == Blue && !u.attacked ==> forall t :: t in targets <==>
           t in board.units && FactionOf(board.units[t]) != u.faction &&
           Distance(u.pos, board.units[t].pos) <= ClassOf(roster, u.kind).range) &&
        (u.faction == Red || u.attacked ==> targets == {})
      ensures forall c :: c in moves ==> CanMove(board, id, c)
    {
      if !Pressable(board.units[id]) {
        return {}, {};
      }
      var objs := selection;
      var i := |objs|;
      while i > 0
        invariant 0 <= i <= |objs| && selection == objs[..i]
        invariant Valid() && board == old(board) && nextId == old(nextId) && Clock() == old(Clock())
      {
        i := i - 1;
        if objs[i].SelBuilding? {
          BuildingClick(objs[i]);
        } else {
          RecruitmentClick(objs[i].recruit);
        }
      }
      assert enabled == {};
      selectedUnit := Some(id);
      var u := board.units[id];
      moves, targets := {}, {};
      if u.faction == Blue {
        SpaceWellFormed(board, roster, cost, id);
        if !u.moved {
          moves := Reachable(SpaceOf(board, roster, cost, id), u.pos, dirs);
          forall c | c in moves ensures CanMove(board, id, c) {
            ReachIsMovable(board, roster, cost, id, c);
          }
        }
        if !u.attacked {
          targets := AttackTargets(board, roster, id);
        }
      }
    }

    /** `Soldier._handle_release_event`: a blue soldier dropped on one of
        its movement highlights moves there; dropped on one of its attack
        targets it assaults it; anything else changes nothing. */
    method Release(id: UnitId, moves: set<Coord>, targets: set<UnitId>, drop: Drop) returns (fault: Option<Fault>)
      requires Valid() && id in board.units && board.units[id].Soldier?
      requires forall c :: c in moves ==> CanMove(board, id, c)
      requires forall t :: t in targets ==> t in board.units && t != id && FactionOf(board.units[t]) != board.units[id].faction
      modifies this
      ensures Valid() && nextId == old(nextId) && Clock() == old(Clock())
      ensures selection == old(selection) && recruitments == old(recruitments) && placements == old(placements) &&
        enabled == old(enabled)
      ensures var blue := old(board).units[id].faction == Blue;
        if blue && drop.OnTile? && drop.tile in moves then
          board == MoveOn(old(board), id, drop.tile) && fault == None && selectedUnit == old(selectedUnit)
        else if blue && drop.OnUnit? && drop.target in targets then
          var r := AssaultOn(old(board), roster, id, drop.target);
          board == r.board && (fault.Some? <==> r.raised) &&
          selectedUnit == (if r.destroyed && old(selectedUnit) == Some(drop.target) then None else old(selectedUnit))
        else
          board == old(board) && fault == None && selectedUnit == old(selectedUnit)
    {
      fault := None;
      if board.units[id].faction == Blue {
        match drop
        case OnTile(c) =>
          if c in moves {
            MoveTo(id, c);
          }
        case OnUnit(t) =>
          if t in targets {
            fault := Assault(id, t);
          }
        case NoDrop =>
      }
    }

    // -------------------------------------------------------------------
    // The computer's turn

    /** The choice of `hunt`, before anything moves: rank every hostile
        unit and pop the least entry, which names the target, the end of
        the approach path to it and whether the soldier then assaults it. */
    method Aim(id: UnitId)
      returns (choice: Option<(UnitId, Coord, bool)>, ghost hs: seq<UnitId>, ghost paths: seq<seq<Coord>>,
               ghost cs: seq<Candidate>, ghost best: nat)
      requires Valid() && id in board.units && board.units[id].Soldier?
      ensures var u := board.units[id];
        hs == Values(Other(board, u.faction)) &&
        (forall k :: 0 <= k < |hs| ==> hs[k] in board.units && FactionOf(board.units[hs[k]]) != u.faction) &&
        Ranked(roster, u, SpaceOf(board, roster, cost, id), board.units, hs, paths, cs)
      ensures choice.None? <==> |hs| == 0
      ensures choice.Some? ==>
        best < |hs| && (forall k :: 0 <= k < |hs| && k != best ==> Before(cs[best], cs[k])) &&
        choice.value == (hs[best], paths[best][|paths[best]| - 1], cs[best].action != Move)
      ensures choice.Some? ==>
        CanMove(board, id, choice.value.1) && choice.value.0 in board.units &&
        FactionOf(board.units[choice.value.0]) != board.units[id].faction
    {
      var targets, approaches, entries := RankTargets(board, roster, cost, dirs, id);
      hs, paths, cs := targets, approaches, entries;
      var pick := SelectBest(entries);
      if pick.None? {
        return None, hs, paths, cs, 0;
      }
      best := pick.value;
      var path := approaches[pick.value];
      ApproachIsMovable(board, roster, cost, id, board.units[targets[pick.value]].pos,
                        ClassOf(roster, board.units[id].kind).range, path);
      choice := Some((targets[pick.value], path[|path| - 1], entries[pick.value].action != Move));
    }

    /** What `hunt` does with its choice: move to `end`, then assault
        `target` when `strike` is set. Neither step takes a unit of the
        hunter's own side off the board. */
    method Pursue(id: UnitId, end: Coord, target: UnitId, strike: bool) returns (fault: Option<Fault>)
      requires Valid() && id in board.units && CanMove(board, id, end)
      requires target in board.units && FactionOf(board.units[target]) != board.units[id].faction
      modifies this
      ensures Valid() && nextId == old(nextId) && Clock() == old(Clock())
      ensures selection == old(selection) && recruitments == old(recruitments) && placements == old(placements) &&
        enabled == old(enabled)
      ensures var m := MoveOn(old(board), id, end);
        (!strike ==> board == m && fault == None && selectedUnit == old(selectedUnit)) &&
        (strike ==> var r := AssaultOn(m, roster, id, target);
                    board == r.board && (fault.Some? <==> r.raised) &&
                    selectedUnit == (if r.destroyed && old(selectedUnit) == Some(target) then None else old(selectedUnit)))
      ensures fault.Some? ==> fault.value == LevelOverflow
      ensures var f := old(board).units[id].faction;
        id in board.units && if f == Blue then board.blueSoldiers == old(board).blueSoldiers
                             else board.redSoldiers == old(board).redSoldiers
    {
      HuntKeepsOwnSide(board, roster, id, end, target);
      MoveTo(id, end);
      fault := None;
      if strike {
        fault := Assault(id, target);
      }
    }

    /** `Soldier.hunt`: rank every hostile unit, pop the least entry (an
        empty heap raises), move to the end of its approach path, and
        assault the unit unless the action is a plain move. */
    method Hunt(id: UnitId)
      returns (fault: Option<Fault>, ghost hs: seq<UnitId>, ghost paths: seq<seq<Coord>>,
               ghost cs: seq<Candidate>, ghost best: nat)
      requires Valid() && id in board.units && board.units[id].Soldier?
      modifies this
      ensures Valid() && nextId == old(nextId) && Clock() == old(Clock())
      ensures selection == old(selection) && recruitments == old(recruitments) && placements == old(placements) &&
        enabled == old(enabled)
      ensures var u := old(board).units[id];
        hs == Values(Other(old(board), u.faction)) &&
        (forall k :: 0 <= k < |hs| ==> hs[k] in old(board).units && FactionOf(old(board).units[hs[k]]) != u.faction) &&
        Ranked(roster, u, SpaceOf(old(board), roster, cost, id), old(board).units, hs, paths, cs)
      ensures fault == Some(EmptyHeap) <==> |hs| == 0
      ensures |hs| == 0 ==> board == old(board) && selectedUnit == old(selectedUnit)
      ensures |hs| > 0 ==> best < |hs| && forall k :: 0 <= k < |hs| && k != best ==> Before(cs[best], cs[k])
      ensures |hs| > 0 ==>
        var m := MoveOn(old(board), id, paths[best][|paths[best]| - 1]);
        (cs[best].action == Move ==> board == m && fault == None && selectedUnit == old(selectedUnit)) &&
        (cs[best].action != Move ==>
          var r := AssaultOn(m, roster, id, hs[best]);
          board == r.board && (fault.Some? <==> r.raised) &&
          selectedUnit == (if r.destroyed && old(selectedUnit) == Some(hs[best]) then None else old(selectedUnit)))
      ensures var f := old(board).units[id].faction;
        id in board.units && if f == Blue then board.blueSoldiers == old(board).blueSoldiers
                             else board.redSoldiers == old(board).redSoldiers
    {
      var choice;
      choice, hs, paths, cs, best := Aim(id);
      if choice.None? {
        return Some(EmptyHeap), hs, paths, cs, best;
      }
      var (target, end, strike) := choice.value;
      fault := Pursue(id, end, target, strike);
    }

    /** A red soldier's hunt while blue still has a soldier or a critical
        building: the heap is never empty, the red side keeps its soldiers,
        and the only fault left is an overflowing level. */
    method RedHunt(id: UnitId) returns (fault: Option<Fault>)
      requires Valid() && id in board.redSoldiers && !Defeated(board)
      modifies this
      ensures Valid() && nextId == old(nextId) && Clock() == old(Clock())
      ensures selection == old(selection) && recruitments == old(recruitments) && placements == old(placements) &&
        enabled == old(enabled)
      ensures board.redSoldiers == old(board).redSoldiers
      ensures selectedUnit == old(selectedUnit) || selectedUnit == None
      ensures fault.Some? ==> fault.value == LevelOverflow
    {
      SetsOf(board, id);
      NotDefeatedHasTargets(board);
      ghost var hs, paths, cs, best;
      fault, hs, paths, cs, best := Hunt(id);
    }

    /** `_execute_computer_turn`: show defeat and stop when blue has no
        soldier and no critical building left, before the first hunt and
        after each one; otherwise every red soldier hunts in turn. */
    method ExecuteComputerTurn(order: seq<UnitId>) returns (fault: Option<Fault>)
      requires Valid() && forall id :: id in order <==> id in board.redSoldiers
      requires forall i, j :: 0 <= i < j < |order| ==> order[i] != order[j]
      modifies this
      ensures Valid() && nextId == old(nextId)
      ensures wave == old(wave) && day == old(day) && coin == old(coin) && phase == old(phase) && common == old(common)
      ensures selection == old(selection) && recruitments == old(recruitments) && placements == old(placements) &&
        enabled == old(enabled)
      ensures board.redSoldiers == old(board).redSoldiers
      ensures selectedUnit == old(selectedUnit) || selectedUnit == None
      ensures fault != Some(EmptyHeap)
      ensures fault.None? ==> (Defeated(board) ==> banner == Some(Defeat)) && (!Defeated(board) ==> banner == old(banner))
    {
      if Defeated(board) {
        banner := Some(Defeat);
        return None;
      }
      var i := 0;
      while i < |order|
        invariant 0 <= i <= |order| && Valid() && nextId == old(nextId) && !Defeated(board)
        invariant wave == old(wave) && day == old(day) && coin == old(coin) && phase == old(phase)
        invariant common == old(common) && banner == old(banner)
        invariant selection == old(selection) && recruitments == old(recruitments) && placements == old(placements) &&
        enabled == old(enabled)
        invariant board.redSoldiers == old(board).redSoldiers
        invariant selectedUnit == old(selectedUnit) || selectedUnit == None
      {
        fault := RedHunt(order[i]);
        if fault.Some? {
          return;
        }
        if Defeated(board) {
          banner := Some(Defeat);
          break;
        }
        i := i + 1;
      }
      fault := None;
    }

    /** `moved_this_turn = False; attacked_this_turn = False` for every
        soldier of `ids`, one at a time in the set's order. */
    method ResetFlags(ids: set<UnitId>)
      requires forall id :: id in ids ==> id in board.units && board.units[id].Soldier?
      modifies this
      ensures board == ResetOn(old(board), ids)
      ensures nextId == old(nextId) && Pick() == old(Pick()) && Clock() == old(Clock())
    {
      var units := board.units;
      var todo := ids;
      while todo != {}
        invariant todo <= ids
        invariant units == ResetOn(board, ids - todo).units
        decreases todo
      {
        var id :| id in todo;
        units := units[id := units[id].(moved := false, attacked := false)];
        todo := todo - {id};
      }
      board := board.(units := units);
    }

    /** The flag loop over every soldier of one side: their flags are
        cleared, the game stays consistent and the sets of the board are
        kept. */
    method ResetSide(f: Faction)
      requires Valid()
      modifies this
      ensures Valid() && nextId == old(nextId) && Pick() == old(Pick()) && Clock() == old(Clock())
      ensures var ids := if f == Blue then old(board).blueSoldiers else old(board).redSoldiers;
        board == ResetOn(old(board), ids) &&
        board.blueSoldiers == old(board).blueSoldiers && board.redSoldiers == old(board).redSoldiers &&
        forall id :: id in ids ==> !board.units[id].moved && !board.units[id].attacked
    {
      var ids := if f == Blue then board.blueSoldiers else board.redSoldiers;
      forall id | id in ids ensures id in board.units && board.units[id].Soldier? {
        SetsOf(board, id);
      }
      ResetValid(board, ids);
      ResetFlags(ids);
    }

    /** `restore_health_by(amount)` for every soldier of `ids`, one at a
        time in the set's order. */
    method Heal(ids: set<UnitId>, amount: real)
      requires forall id :: id in ids ==> id in board.units && board.units[id].Soldier?
      modifies this
      ensures board == HealOn(old(board), ids, amount)
      ensures nextId == old(nextId) && Pick() == old(Pick()) && Clock() == old(Clock())
    {
      var units := board.units;
      var todo := ids;
      while todo != {}
        invariant todo <= ids
        invariant units == HealOn(board, ids - todo, amount).units
        decreases todo
      {
        var id :| id in todo;
        units := units[id := RestoreHealth(units[id], amount)];
        todo := todo - {id};
      }
      board := board.(units := units);
    }

    // -------------------------------------------------------------------
    // The day cycle

    /** One step of `_wave_generator_function` before it is exhausted: the
        wave counter, the class popped from `common_soldiers` in the first
        three waves, and one red level-1 soldier per drawn tile. */
    method SpawnWave(draw: Draw)
      requires Occupancy.Valid(board.blue) && Occupancy.Valid(board.red)
      requires 0 <= wave < 12 && |draw.tiles| == |draw.kinds| > 0
      modifies this
      ensures wave == old(wave) + 1
      ensures common == if wave <= 3 then old(common) - {draw.kinds[0]} else old(common)
      ensures board == SpawnOn(old(board), roster, old(nextId), draw.tiles, draw.kinds, |draw.tiles|)
      ensures nextId == old(nextId) + |draw.tiles|
      ensures Pick() == old(Pick()) && day == old(day) && coin == old(coin) && phase == old(phase) && banner == old(banner)
    {
      wave := wave + 1;
      if wave <= 3 {
        common := common - {draw.kinds[0]};
      }
      SpawnSoldiers(draw);
    }

    /** The loop of the wave generator over the sampled tiles: a red
        soldier of the drawn class on each, in the order drawn. */
    method SpawnSoldiers(draw: Draw)
      requires Occupancy.Valid(board.blue) && Occupancy.Valid(board.red) && |draw.tiles| == |draw.kinds|
      modifies this
      ensures board == SpawnOn(old(board), roster, old(nextId), draw.tiles, draw.kinds, |draw.tiles|)
      ensures nextId == old(nextId) + |draw.tiles|
      ensures Pick() == old(Pick()) && Clock() == old(Clock())
    {
      ghost var b0 := board;
      ghost var id0 := nextId;
      var i := 0;
      while i < |draw.tiles|
        invariant 0 <= i <= |draw.tiles|
        invariant board == SpawnOn(b0, roster, id0, draw.tiles, draw.kinds, i) && nextId == id0 + i
        invariant Pick() == old(Pick()) && Clock() == old(Clock())
      {
        SpawnSoldier(b0, id0, draw, i);
        i := i + 1;
      }
    }

    /** The `i`-th soldier of a wave: a red soldier of the drawn class at
        level one on the drawn tile, registered under the next identity. */
    method SpawnSoldier(ghost b0: Board, ghost id0: UnitId, draw: Draw, i: nat)
      requires Occupancy.Valid(b0.blue) && Occupancy.Valid(b0.red) && i < |draw.tiles| == |draw.kinds|
      requires board == SpawnOn(b0, roster, id0, draw.tiles, draw.kinds, i) && nextId == id0 + i
      modifies this
      ensures board == SpawnOn(b0, roster, id0, draw.tiles, draw.kinds, i + 1) && nextId == id0 + i + 1
      ensures Pick() == old(Pick()) && Clock() == old(Clock())
    {
      var u := NewSoldier(roster, draw.kinds[i], Red, draw.tiles[i], 1);
      SpawnNext(b0, roster, id0, draw.tiles, draw.kinds, i);
      var _ := Register(u);
    }

    /** The first and third steps of the day generator heal every blue
        soldier by ten. */
    method HealBlue()
      requires Valid()
      modifies this
      ensures Valid() && board == HealOn(old(board), old(board).blueSoldiers, 10.0)
      ensures nextId == old(nextId) && Pick() == old(Pick()) && Clock() == old(Clock())
    {
      forall id | id in board.blueSoldiers ensures id in board.units && board.units[id].Soldier? {
        SetsOf(board, id);
      }
      HealValid(board, board.blueSoldiers, 10.0);
      Heal(board.blueSoldiers, 10.0);
    }

    /** The second step of the day generator: the next wave, or victory
        once the wave generator is exhausted. */
    method WaveStep(draw: Draw)
      requires Valid() && phase == Spawn && board.redSoldiers == {}
      requires wave < 12 ==> DrawFits(wave + 1, common, draw)
      modifies this
      ensures Valid() && Pick() == old(Pick()) && day == old(day) + 1 && coin == old(coin)
      ensures old(wave) < 12 ==>
        phase == Payday && banner == old(banner) && wave == old(wave) + 1 &&
        common == (if wave <= 3 then old(common) - {draw.kinds[0]} else old(common)) &&
        board == SpawnOn(old(board), roster, old(nextId), draw.tiles, draw.kinds, |draw.tiles|) &&
        nextId == old(nextId) + WaveSize(wave)
      ensures old(wave) == 12 ==>
        phase == Won && banner == Some(Victory) && wave == 12 && common == old(common) &&
        board == old(board) && nextId == old(nextId)
    {
      day := day + 1;
      if wave == 12 {
        banner := Some(Victory);
        phase := Won;
        return;
      }
      WaveBoard(board, roster, nextId, wave + 1, common, draw, selectedUnit);
      SpawnWave(draw);
      phase := Payday;
    }

    /** `next(self._day_generator_iterator)`: one day passes with healing;
        then a day with the next wave (or victory); then a day with the
        pay of `8 + 2 * wave` coins and healing; and after victory only
        the outcome is shown again. */
    method AdvanceDay(draw: Draw)
      requires Valid() && board.redSoldiers == {}
      requires phase == Spawn && wave < 12 ==> DrawFits(wave + 1, common, draw)
      modifies this
      ensures Valid() && Pick() == old(Pick())
      ensures old(phase) == Muster ==>
        phase == Spawn && day == old(day) + 1 && board == HealOn(old(board), old(board).blueSoldiers, 10.0) &&
        wave == old(wave) && coin == old(coin) && common == old(common) && banner == old(banner) && nextId == old(nextId)
      ensures old(phase) == Spawn && old(wave) < 12 ==>
        phase == Payday && day == old(day) + 1 && wave == old(wave) + 1 &&
        board == SpawnOn(old(board), roster, old(nextId), draw.tiles, draw.kinds, |draw.tiles|) &&
        common == (if wave <= 3 then old(common) - {draw.kinds[0]} else old(common)) &&
        nextId == old(nextId) + WaveSize(wave) && coin == old(coin) && banner == old(banner)
      ensures old(phase) == Spawn && old(wave) == 12 ==>
        phase == Won && day == old(day) + 1 && banner == Some(Victory) && board == old(board) &&
        wave == old(wave) && coin == old(coin) && common == old(common) && nextId == old(nextId)
      ensures old(phase) == Payday ==>
        phase == Muster && day == old(day) + 1 && coin == old(coin) + 8 + 2 * wave &&
        board == HealOn(old(board), old(board).blueSoldiers, 10.0) &&
        wave == old(wave) && common == old(common) && banner == old(banner) && nextId == old(nextId)
      ensures old(phase) == Won ==>
        phase == Won && day == old(day) && banner == Some(Victory) && board == old(board) &&
        wave == old(wave) && coin == old(coin) && common == old(common) && nextId == old(nextId)
    {
      match phase
      case Muster =>
        day := day + 1;
        HealBlue();
        phase := Spawn;
      case Spawn =>
        WaveStep(draw);
      case Payday =>
        day := day + 1;
        coin := coin + 8 + wave * 2;
        HealBlue();
        phase := Muster;
      case Won =>
        banner := Some(Victory);
    }

    /** `EndTurnControl.handle_click_event`: close an open recruitment;
        with red soldiers on the board, clear their flags and play the
        computer's turn, otherwise advance the day generator; then clear
        the flags of every blue soldier. An exception skips the rest. */
    method EndTurn(order: seq<UnitId>, draw: Draw) returns (fault: Option<Fault>)
      requires Valid()
      requires forall id :: id in order <==> id in board.redSoldiers
      requires forall i, j :: 0 <= i < j < |order| ==> order[i] != order[j]
      requires board.redSoldiers == {} && phase == Spawn && wave < 12 ==> DrawFits(wave + 1, common, draw)
      modifies this
      ensures Valid()
      ensures |old(selection)| == 2 ==> selection == old(selection)[..1] && placements == {}
      ensures |old(selection)| < 2 ==> selection == old(selection) && placements == old(placements)
      ensures fault != Some(EmptyHeap) && enabled == old(enabled)
      ensures old(board).redSoldiers != {} ==>
        board.redSoldiers == old(board).redSoldiers && nextId == old(nextId) && common == old(common) &&
        wave == old(wave) && day == old(day) && coin == old(coin) && phase == old(phase) &&
        (selectedUnit == old(selectedUnit) || selectedUnit == None)
      ensures old(board).redSoldiers == {} ==>
        fault == None && selectedUnit == old(selectedUnit) &&
        var d := DayBoard(old(board), roster, old(phase), old(wave), old(nextId), draw);
        BoardValid(d) && board == ResetOn(d, d.blueSoldiers)
      ensures old(board).redSoldiers == {} && old(phase) == Muster ==>
        phase == Spawn && day == old(day) + 1 && wave == old(wave) && coin == old(coin) &&
        common == old(common) && banner == old(banner) && nextId == old(nextId)
      ensures old(board).redSoldiers == {} && old(phase) == Spawn && old(wave) < 12 ==>
        phase == Payday && day == old(day) + 1 && wave == old(wave) + 1 && coin == old(coin) &&
        common == (if wave <= 3 then old(common) - {draw.kinds[0]} else old(common)) &&
        banner == old(banner) && nextId == old(nextId) + WaveSize(wave)
      ensures old(board).redSoldiers == {} && old(phase) == Spawn && old(wave) == 12 ==>
        phase == Won && day == old(day) + 1 && wave == old(wave) && coin == old(coin) &&
        common == old(common) && banner == Some(Victory) && nextId == old(nextId)
      ensures old(board).redSoldiers == {} && old(phase) == Payday ==>
        phase == Muster && day == old(day) + 1 && wave == old(wave) && coin == old(coin) + 8 + 2 * wave &&
        common == old(common) && banner == old(banner) && nextId == old(nextId)
      ensures old(board).redSoldiers == {} && old(phase) == Won ==>
        phase == Won && day == old(day) && wave == old(wave) && coin == old(coin) &&
        common == old(common) && banner == Some(Victory) && nextId == old(nextId)
      ensures fault.None? ==> forall id :: id in board.blueSoldiers ==> !board.units[id].moved && !board.units[id].attacked
    {
      if |selection| == 2 {
        RecruitmentClick(selection[1].recruit);
      }
      fault := None;
      if board.redSoldiers != {} {
        ResetSide(Red);
        fault := ExecuteComputerTurn(order);
        if fault.Some? {
          return;
        }
      } else {
        ghost var d := DayBoard(board, roster, phase, wave, nextId, draw);
        AdvanceDay(draw);
        assert board == d;
      }
      ResetSide(Blue);
    }
  }
}
