/** The pure rules behind the selection stack `selected_game_objects`: what
    can be selected, the recruitments a selected building offers, the
    affordability of a recruitment, and the tiles a recruitment may place a
    soldier on. */
module Selection {
  import opened Grid
  import opened Units
  import opened Occupancy

  /** An object on the selection stack: a building (by identity, with its
      class and tile) or one of the recruitment buttons of a barrack. */
  datatype Selectable =
    | SelBuilding(id: UnitId, kind: BuildingKind, pos: Coord)
    | SelRecruitment(recruit: SoldierKind)

  /** `Barrack._handle_selection` creates the Infantry, Archer and Cavalry
      recruitments; other buildings offer none. */
  function Offers(kind: BuildingKind): (r: set<SoldierKind>)
    ensures kind == Barrack ==> r == {Infantry, Archer, Cavalry}
    ensures kind != Barrack ==> r == {}
    ensures Hero !in r
  {
    if kind == Barrack then {Infantry, Archer, Cavalry} else {}
  }

  /** The eight offsets of the set literal in `_handle_selection`. */
  const Offsets: seq<(int, int)> := [(1, 0), (1, 1), (0, 1), (-1, 1), (-1, 0), (-1, -1), (0, -1), (1, -1)]

  /** The filter of `_handle_selection`: strictly inside the border, and
      held by no unit of either faction. */
  predicate Placeable(c: Coord, blue: map<Coord, UnitId>, red: map<Coord, UnitId>) {
    0 < c.x < FieldWidth - 1 && 0 < c.y < FieldHeight - 1 && c !in blue && c !in red
  }

  /** The placement highlights a recruitment creates around `anchor`. */
  function Candidates(anchor: Coord, blue: map<Coord, UnitId>, red: map<Coord, UnitId>): set<Coord> {
    set k | 0 <= k < |Offsets| && Placeable(Shift(anchor, Offsets[k]), blue, red) :: Shift(anchor, Offsets[k])
  }

  /** The loop of `_handle_selection` over the offsets: a placement
      highlight on each neighbour of `anchor` that passes the filter. */
  method PlacementCandidates(anchor: Coord, blue: map<Coord, UnitId>, red: map<Coord, UnitId>)
    returns (tiles: set<Coord>)
    ensures tiles == Candidates(anchor, blue, red)
  {
    tiles := {};
    var k := 0;
    while k < |Offsets|
      invariant 0 <= k <= |Offsets|
      invariant forall c :: c in tiles <==>
        exists j :: 0 <= j < k && Placeable(Shift(anchor, Offsets[j]), blue, red) && c == Shift(anchor, Offsets[j])
    {
      var c := Shift(anchor, Offsets[k]);
      if Placeable(c, blue, red) {
        tiles := tiles + {c};
      }
      k := k + 1;
    }
  }

  /** The offsets are exactly the eight neighbours, diagonals included. */
  lemma OffsetsAreNeighbours(d: (int, int))
    ensures d in Offsets <==> Abs(d.0) <= 1 && Abs(d.1) <= 1 && d != (0, 0)
  {
    if Abs(d.0) <= 1 && Abs(d.1) <= 1 && d != (0, 0) {
      assert d.0 == -1 || d.0 == 0 || d.0 == 1;
      assert d.1 == -1 || d.1 == 0 || d.1 == 1;
      if d == (1, 0) { assert Offsets[0] == d; }
      else if d == (1, 1) { assert Offsets[1] == d; }
      else if d == (0, 1) { assert Offsets[2] == d; }
      else if d == (-1, 1) { assert Offsets[3] == d; }
      else if d == (-1, 0) { assert Offsets[4] == d; }
      else if d == (-1, -1) { assert Offsets[5] == d; }
      else if d == (0, -1) { assert Offsets[6] == d; }
      else { assert Offsets[7] == d; }
    }
  }

  /** A placement candidate is exactly a free neighbour of the anchor
      strictly inside the border: never the anchor itself, always inside the
      blue area, and never a tile any unit holds. */
  lemma CandidatesAre(anchor: Coord, blue: map<Coord, UnitId>, red: map<Coord, UnitId>, c: Coord)
    ensures c in Candidates(anchor, blue, red) <==>
      Abs(c.x - anchor.x) <= 1 && Abs(c.y - anchor.y) <= 1 && c != anchor && Placeable(c, blue, red)
    ensures c in Candidates(anchor, blue, red) ==> InBounds(c, BlueBounds) && c !in blue && c !in red
  {
    var d := (c.x - anchor.x, c.y - anchor.y);
    assert Shift(anchor, d) == c;
    OffsetsAreNeighbours(d);
    if c in Candidates(anchor, blue, red) {
      var k :| 0 <= k < |Offsets| && Placeable(Shift(anchor, Offsets[k]), blue, red) && c == Shift(anchor, Offsets[k]);
      OffsetsAreNeighbours(Offsets[k]);
    }
  }

  /** `SoldierRecruitmentView.refresh`: the button is blue and clickable
      exactly when the coin reserve covers the recruit's cost. */
  predicate RecruitButtonActive(roster: Roster, coin: int, kind: SoldierKind) {
    coin >= ClassOf(roster, kind).cost
  }

  /** An infantry recruit costs ten coins, so the starting reserve of ten
      affords it and nine does not; a hero costs 65535. */
  lemma RecruitAffordability(roster: Roster, coin: int)
    ensures RecruitButtonActive(roster, coin, Infantry) <==> coin >= 10
    ensures RecruitButtonActive(roster, coin, Hero) <==> coin >= 65535
  {
  }

  /** The recruitment buttons of a building of `kind` that `refresh` binds to
      their click handler when it draws them with `coin` in reserve. */
  function BoundButtons(roster: Roster, coin: int, kind: BuildingKind): (r: set<SoldierKind>)
    ensures r <= Offers(kind)
    ensures forall k :: k in r ==> RecruitButtonActive(roster, coin, k)
  {
    set k | k in Offers(kind) && RecruitButtonActive(roster, coin, k)
  }

  /** A button drawn bound stays affordable as the reserve grows, and with
      ten coins a barrack binds its infantry button. */
  lemma BoundButtonsGrow(roster: Roster, coin: int, more: int, kind: BuildingKind)
    requires coin <= more
    ensures BoundButtons(roster, coin, kind) <= BoundButtons(roster, more, kind)
    ensures kind == Barrack && coin >= 10 ==> Infantry in BoundButtons(roster, coin, kind)
  {
  }

  /** The shapes of the selection stack the click handlers keep, with the
      recruitments shown and the placement highlights: nothing selected
      and nothing shown; one building with its offers and no highlights;
      or a barrack and one of its recruitments. */
  predicate SelectionOk(selection: seq<Selectable>, recruitments: set<SoldierKind>, placements: set<Coord>) {
    (selection == [] && recruitments == {} && placements == {}) ||
    (|selection| == 1 && selection[0].SelBuilding? &&
     recruitments == Offers(selection[0].kind) && placements == {}) ||
    (|selection| == 2 && selection[0].SelBuilding? && selection[1].SelRecruitment? &&
     recruitments == Offers(selection[0].kind) && selection[1].recruit in recruitments)
  }
}
