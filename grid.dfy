/** Board geometry: coordinates, the playable areas of the two factions,
    the landscape cost table, 4-neighbour walks and the Manhattan diamond
    of tiles a unit can attack. */
module Grid {

  /** A tile coordinate; Python compares `(x, y)` tuples lexicographically. */
  datatype Coord = Coord(x: int, y: int)

  /** Horizontal and vertical tile counts of the playing field
      (sources/game/miscellaneous.py:27-30). */
  const FieldWidth: int := 21
  const FieldHeight: int := 13

  /** Inclusive limits `(x_min, x_max, y_min, y_max)` of a search. */
  datatype Bounds = Bounds(xMin: int, xMax: int, yMin: int, yMax: int)

  /** Blue units stay off the outermost ring; red units may use all of it. */
  const BlueBounds: Bounds := Bounds(1, FieldWidth - 2, 1, FieldHeight - 2)
  const RedBounds: Bounds := Bounds(0, FieldWidth - 1, 0, FieldHeight - 1)

  predicate InBounds(c: Coord, b: Bounds) {
    b.xMin <= c.x <= b.xMax && b.yMin <= c.y <= b.yMax
  }

  /** The finite set of tiles inside `b`. */
  function BoxTiles(b: Bounds): (tiles: set<Coord>)
    ensures forall c :: c in tiles <==> InBounds(c, b)
  {
    set x, y | b.xMin <= x <= b.xMax && b.yMin <= y <= b.yMax :: Coord(x, y)
  }

  /** No tile occurs twice: the first one not again later, and so on. */
  predicate Distinct(s: seq<Coord>) {
    |s| == 0 || (s[0] !in s[1..] && Distinct(s[1..]))
  }

  /** Distinct tiles are tiles at different positions that differ. */
  lemma {:induction false} DistinctPairs(s: seq<Coord>)
    ensures Distinct(s) <==> forall i, j :: 0 <= i < j < |s| ==> s[i] != s[j]
  {
    if |s| > 0 {
      var t := s[1..];
      DistinctPairs(t);
      if Distinct(s) {
        forall i, j | 0 <= i < j < |s| ensures s[i] != s[j] {
          assert s[j] == t[j - 1];
          if i > 0 {
            assert s[i] == t[i - 1];
          }
        }
      }
      if forall i, j :: 0 <= i < j < |s| ==> s[i] != s[j] {
        forall k | 0 <= k < |t| ensures t[k] != s[0] {
          assert t[k] == s[k + 1];
        }
        forall i, j | 0 <= i < j < |t| ensures t[i] != t[j] {
          assert t[i] == s[i + 1] && t[j] == s[j + 1];
        }
      }
    }
  }

  function Abs(n: int): nat { if n < 0 then -n else n }

  /** Manhattan distance, the metric of `get_distance_to`. */
  function Distance(a: Coord, b: Coord): nat {
    Abs(a.x - b.x) + Abs(a.y - b.y)
  }

  predicate Adjacent(a: Coord, b: Coord) { Distance(a, b) == 1 }

  /** The four neighbour offsets of the searches' set literal. */
  predicate IsDirections(dirs: seq<(int, int)>) {
    |dirs| == 4 &&
    (set k | 0 <= k < 4 :: dirs[k]) == {(1, 0), (0, 1), (-1, 0), (0, -1)}
  }

  function Shift(c: Coord, d: (int, int)): Coord { Coord(c.x + d.0, c.y + d.1) }

  /** Every adjacent tile is reached by one of the four offsets. */
  lemma AdjacentIsShift(dirs: seq<(int, int)>, a: Coord, b: Coord)
    requires IsDirections(dirs) && Adjacent(a, b)
    ensures exists k :: 0 <= k < 4 && b == Shift(a, dirs[k])
  {
    var d := (b.x - a.x, b.y - a.y);
    assert d in {(1, 0), (0, 1), (-1, 0), (0, -1)};
    assert d in (set k | 0 <= k < 4 :: dirs[k]);
    var k :| 0 <= k < 4 && dirs[k] == d;
    assert b == Shift(a, dirs[k]);
  }

  lemma ShiftIsAdjacent(dirs: seq<(int, int)>, a: Coord, k: int)
    requires IsDirections(dirs) && 0 <= k < 4
    ensures Adjacent(a, Shift(a, dirs[k]))
  {
    assert dirs[k] in (set j | 0 <= j < 4 :: dirs[j]);
  }

  /** The landscape as produced by map generation: every field tile costs
      1 or -1, and -1 consumes the whole mobility of the unit. */
  ghost predicate ValidCosts(cost: map<Coord, int>) {
    forall c :: InBounds(c, RedBounds) ==> c in cost && (cost[c] == 1 || cost[c] == -1)
  }

  /** What entering a tile charges a unit with the given mobility. */
  function StepCost(tileCost: int, mobility: nat): int {
    if tileCost == -1 then mobility else tileCost
  }

  /** The search space of one unit: its playable area, the tiles held by its
      own faction (passable, never a final tile) and by the hostile faction
      (never entered), the cost table and its mobility. */
  datatype Space = Space(bounds: Bounds, friendly: set<Coord>, hostile: set<Coord>,
                         cost: map<Coord, int>, mobility: nat)

  /** Every unit class has a mobility of at least one, and its area lies
      on the field. */
  ghost predicate WellFormed(sp: Space) {
    ValidCosts(sp.cost) && sp.mobility >= 1 &&
    (sp.bounds == BlueBounds || sp.bounds == RedBounds)
  }

  /** A tile the search may step onto. */
  predicate Passable(sp: Space, c: Coord) {
    InBounds(c, sp.bounds) && c !in sp.hostile && c in sp.cost
  }

  /** The charge for entering `c`; tiles off the cost table are never
      passable, so their charge is immaterial and taken as the mobility. */
  function Step(sp: Space, c: Coord): int {
    if c in sp.cost then StepCost(sp.cost[c], sp.mobility) else sp.mobility
  }

  lemma StepPositive(sp: Space, c: Coord)
    requires WellFormed(sp) && InBounds(c, sp.bounds)
    ensures c in sp.cost && 1 <= Step(sp, c) <= sp.mobility
  {
    assert InBounds(c, RedBounds);
  }

  /** The `k`-th tile of `w` is a passable neighbour of the one before. */
  predicate StepOk(sp: Space, w: seq<Coord>, k: int)
    requires 1 <= k < |w|
  {
    Adjacent(w[k - 1], w[k]) && Passable(sp, w[k])
  }

  /** A walk from `start`: 4-adjacent tiles, each after the first passable. */
  ghost predicate IsWalk(sp: Space, start: Coord, w: seq<Coord>) {
    |w| >= 1 && w[0] == start &&
    forall k :: 1 <= k < |w| ==> StepOk(sp, w, k)
  }

  /** Cost of the steps after the first tile, accumulated from the front. */
  function WalkCost(sp: Space, w: seq<Coord>): int {
    if |w| <= 1 then 0 else WalkCost(sp, w[..|w| - 1]) + Step(sp, w[|w| - 1])
  }

  lemma WalkExtend(sp: Space, start: Coord, w: seq<Coord>, c: Coord)
    requires IsWalk(sp, start, w) && Adjacent(w[|w| - 1], c) && Passable(sp, c)
    ensures IsWalk(sp, start, w + [c])
    ensures WalkCost(sp, w + [c]) == WalkCost(sp, w) + Step(sp, c)
  {
    var w' := w + [c];
    assert w'[..|w|] == w;
    forall k | 1 <= k < |w'| ensures StepOk(sp, w', k) {
      if k < |w| { assert StepOk(sp, w, k); }
    }
  }

  /** Dropping the last tile of a longer walk leaves a walk, one step cheaper. */
  lemma WalkPrefix(sp: Space, start: Coord, w: seq<Coord>)
    requires IsWalk(sp, start, w) && |w| > 1
    ensures IsWalk(sp, start, w[..|w| - 1]) && StepOk(sp, w, |w| - 1)
    ensures WalkCost(sp, w) == WalkCost(sp, w[..|w| - 1]) + Step(sp, w[|w| - 1])
  {
    var w' := w[..|w| - 1];
    forall k | 1 <= k < |w'| ensures StepOk(sp, w', k) {
      assert StepOk(sp, w, k);
    }
  }

  /** Every tile a walk enters is on the cost table. */
  lemma WalkCostedTiles(sp: Space, start: Coord, w: seq<Coord>)
    requires IsWalk(sp, start, w)
    ensures forall k :: 1 <= k < |w| ==> w[k] in sp.cost
  {
    forall k | 1 <= k < |w| ensures w[k] in sp.cost {
      assert StepOk(sp, w, k);
    }
  }

  /** `c` can be the last tile of a walk from `start` within the budget. */
  ghost predicate CanReach(sp: Space, start: Coord, c: Coord) {
    exists w :: IsWalk(sp, start, w) && w[|w| - 1] == c && WalkCost(sp, w) <= sp.mobility
  }

  /** The attack diamond of `get_attackable_coordinates`, filled ring by ring:
      every `(x + i, y + j)` with `|i| + |j| <= radius`. */
  method AttackableCoordinates(origin: Coord, radius: nat) returns (tiles: set<Coord>)
    ensures forall c :: c in tiles <==> Distance(origin, c) <= radius
  {
    tiles := {};
    var offset := 0;
    while offset < radius + 1
      invariant 0 <= offset <= radius + 1
      invariant forall c :: c in tiles <==> Distance(origin, c) < offset
    {
      var i := -offset;
      while i < offset + 1
        invariant -offset <= i <= offset + 1
        invariant forall c :: c in tiles <==>
          Distance(origin, c) < offset || (Distance(origin, c) == offset && c.x - origin.x < i)
      {
        var j := offset - Abs(i);
        tiles := tiles + {Coord(origin.x + i, origin.y + j)};
        if j != 0 {
          tiles := tiles + {Coord(origin.x + i, origin.y - j)};
        }
        i := i + 1;
      }
      offset := offset + 1;
    }
  }
}
