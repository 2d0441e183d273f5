/** The decisions a `Soldier` takes on a board without changing it: the
    hostile units its attack diamond covers (`_create_attack_range_highlight`)
    and the heap entries `hunt` ranks its targets by. */
module Tactics {
  import opened Grid
  import opened Wrappers
  import opened Units
  import opened Occupancy
  import opened Search
  import opened Rules
  import opened Targeting

  /** The units a faction's map holds are exactly the units of that faction. */
  lemma FactionIds(b: Board, f: Faction)
    requires BoardValid(b)
    ensures forall t :: t in Ids(Own(b, f)) <==> t in b.units && FactionOf(b.units[t]) == f
  {
    var o := Own(b, f);
    forall t | t in b.units && FactionOf(b.units[t]) == f ensures t in Ids(o) {
      assert UnitFine(b, t);
    }
    forall t | t in Ids(o) ensures t in b.units && FactionOf(b.units[t]) == f {
      var c :| c in o.at && o.at[c] == t;
      assert EntryOk(b, o, f, c);
    }
  }

  /** The search space of a soldier on a consistent board is one the
      searches accept, and the soldier stands inside its area. */
  lemma SpaceWellFormed(b: Board, roster: Roster, cost: map<Coord, int>, id: UnitId)
    requires BoardValid(b) && ValidCosts(cost) && SaneRoster(roster)
    requires id in b.units && b.units[id].Soldier?
    ensures WellFormed(SpaceOf(b, roster, cost, id))
    ensures InBounds(b.units[id].pos, SpaceOf(b, roster, cost, id).bounds)
  {
    var u := b.units[id];
    assert UnitFine(b, id);
    assert EntryOk(b, Own(b, u.faction), u.faction, u.pos);
    assert SaneClass(ClassOf(roster, u.kind));
  }

  /** Every id the hostile map enumerates names a hostile unit on the board. */
  lemma HostilesOnBoard(b: Board, f: Faction)
    requires BoardValid(b)
    ensures forall k :: 0 <= k < |Values(Other(b, f))| ==>
      Values(Other(b, f))[k] in b.units && FactionOf(b.units[Values(Other(b, f))[k]]) != f
  {
    var o := Other(b, f);
    var g := if f == Blue then Red else Blue;
    forall k | 0 <= k < |Values(o)|
      ensures Values(o)[k] in b.units && FactionOf(b.units[Values(o)[k]]) != f
    {
      assert o.order[k] in o.at;
      assert EntryOk(b, o, g, o.order[k]);
    }
  }

  /** The loop of `_create_attack_range_highlight` over the enumerated
      units: those standing on one of `tiles`. */
  method UnitsOn(units: map<UnitId, Unit>, hs: seq<UnitId>, tiles: set<Coord>) returns (targets: set<UnitId>)
    requires forall k :: 0 <= k < |hs| ==> hs[k] in units
    ensures forall t :: t in targets <==> t in hs && t in units && units[t].pos in tiles
  {
    targets := {};
    var i := 0;
    while i < |hs|
      invariant 0 <= i <= |hs|
      invariant forall t :: t in targets <==> t in hs[..i] && t in units && units[t].pos in tiles
    {
      assert hs[..i + 1] == hs[..i] + [hs[i]];
      if units[hs[i]].pos in tiles {
        targets := targets + {hs[i]};
      }
      i := i + 1;
    }
    assert hs[..i] == hs;
  }

  /** The attack targets a blue soldier's press offers: each unit of the
      hostile map whose tile lies in the attack diamond. These are exactly
      the hostile units within attack range. */
  method AttackTargets(b: Board, roster: Roster, id: UnitId) returns (targets: set<UnitId>)
    requires BoardValid(b) && id in b.units && b.units[id].Soldier?
    ensures forall t :: t in targets <==>
      t in b.units && FactionOf(b.units[t]) != b.units[id].faction &&
      Distance(b.units[id].pos, b.units[t].pos) <= ClassOf(roster, b.units[id].kind).range
  {
    var u := b.units[id];
    var tiles := AttackableCoordinates(u.pos, ClassOf(roster, u.kind).range);
    var hs := Values(Other(b, u.faction));
    HostilesOnBoard(b, u.faction);
    targets := UnitsOn(b.units, hs, tiles);
    ValuesAreIds(Other(b, u.faction));
    FactionIds(b, if u.faction == Blue then Red else Blue);
  }

  /** The heap entry of the `k`-th hostile unit for hunter `u` whose
      approach to it ends on `end`. */
  function EntryFor(roster: Roster, u: Unit, target: Unit, end: Coord, k: nat): Candidate
    requires u.Soldier?
  {
    Classify(Damage(roster, u, target), Distance(target.pos, end), target.health,
             ClassOf(roster, u.kind).range, k)
  }

  /** What `hunt` pushes for hostile units `hs`: for each, the approach
      path of hunter `u` in `sp` and the entry ranking it. */
  ghost predicate Ranked(roster: Roster, u: Unit, sp: Space, units: map<UnitId, Unit>, hs: seq<UnitId>,
                         paths: seq<seq<Coord>>, cs: seq<Candidate>)
    requires u.Soldier?
  {
    |paths| == |hs| && |cs| == |hs| && Numbered(cs) &&
    forall k :: 0 <= k < |hs| ==>
      hs[k] in units &&
      Approaches(sp, u.pos, units[hs[k]].pos, ClassOf(roster, u.kind).range, paths[k]) &&
      cs[k] == EntryFor(roster, u, units[hs[k]], paths[k][|paths[k]| - 1], k)
  }

  /** The loop of `hunt` over the enumerated hostile units. */
  method RankLoop(roster: Roster, u: Unit, sp: Space, dirs: seq<(int, int)>, units: map<UnitId, Unit>, hs: seq<UnitId>)
    returns (paths: seq<seq<Coord>>, cs: seq<Candidate>)
    requires u.Soldier? && WellFormed(sp) && IsDirections(dirs) && InBounds(u.pos, sp.bounds)
    requires forall k :: 0 <= k < |hs| ==> hs[k] in units
    ensures Ranked(roster, u, sp, units, hs, paths, cs)
  {
    var range := ClassOf(roster, u.kind).range;
    paths, cs := [], [];
    var i := 0;
    while i < |hs|
      invariant 0 <= i <= |hs| && Ranked(roster, u, sp, units, hs[..i], paths, cs)
    {
      var target := units[hs[i]];
      var path := ApproachPath(sp, u.pos, dirs, target.pos, range);
      paths := paths + [path];
      cs := cs + [EntryFor(roster, u, target, path[|path| - 1], i)];
      i := i + 1;
    }
    assert hs[..i] == hs;
  }

  /** The loop of `hunt` that pushes one heap entry per hostile unit, in
      the order the hostile map enumerates them: the approach path to the
      unit, and the entry ranking it by action, keys and index. */
  method RankTargets(b: Board, roster: Roster, cost: map<Coord, int>, dirs: seq<(int, int)>, id: UnitId)
    returns (hs: seq<UnitId>, paths: seq<seq<Coord>>, cs: seq<Candidate>)
    requires BoardValid(b) && ValidCosts(cost) && IsDirections(dirs) && SaneRoster(roster)
    requires id in b.units && b.units[id].Soldier?
    ensures hs == Values(Other(b, b.units[id].faction))
    ensures forall k :: 0 <= k < |hs| ==> hs[k] in b.units && FactionOf(b.units[hs[k]]) != b.units[id].faction
    ensures Ranked(roster, b.units[id], SpaceOf(b, roster, cost, id), b.units, hs, paths, cs)
  {
    var u := b.units[id];
    SpaceWellFormed(b, roster, cost, id);
    hs := Values(Other(b, u.faction));
    HostilesOnBoard(b, u.faction);
    paths, cs := RankLoop(roster, u, SpaceOf(b, roster, cost, id), dirs, b.units, hs);
  }
}
