/** The wave schedule of `_wave_generator_function`: four spawn areas of
    eight edge tiles each, the number of soldiers of every wave, and the
    arithmetic that keeps `sample(coordinates, n)` from failing. */
module Waves {
  import opened Grid

  /** The tiles `(x, y)` for `x` in `range(x0, x1)`. */
  function Row(y: int, x0: int, x1: int): (r: seq<Coord>)
    requires x0 <= x1
    ensures |r| == x1 - x0
    ensures forall i :: 0 <= i < |r| ==> r[i] == Coord(x0 + i, y)
  {
    seq(x1 - x0, i => Coord(x0 + i, y))
  }

  /** The tiles `(x, y)` for `y` in `range(y0, y1)`. */
  function Column(x: int, y0: int, y1: int): (r: seq<Coord>)
    requires y0 <= y1
    ensures |r| == y1 - y0
    ensures forall i :: 0 <= i < |r| ==> r[i] == Coord(x, y0 + i)
  {
    seq(y1 - y0, i => Coord(x, y0 + i))
  }

  /** The areas in the order of the list `sample` draws from: north-east,
      north-west, south-east, south-west. */
  function Area(a: nat): seq<Coord>
    requires a < 4
  {
    var h := FieldWidth;
    var v := FieldHeight;
    if a == 0 then Row(0, h - 3, h - 1) + Column(h - 1, 0, 6)
    else if a == 1 then Row(0, 1, 3) + Column(0, 0, 6)
    else if a == 2 then Column(h - 1, v - 6, v) + Row(v - 1, h - 3, h - 1)
    else Column(0, v - 6, v) + Row(v - 1, 1, 3)
  }

  /** Where the tiles of each area lie. */
  predicate InArea(a: nat, c: Coord) {
    if a == 0 then (c.y == 0 && 18 <= c.x <= 19) || (c.x == 20 && 0 <= c.y <= 5)
    else if a == 1 then (c.y == 0 && 1 <= c.x <= 2) || (c.x == 0 && 0 <= c.y <= 5)
    else if a == 2 then (c.x == 20 && 7 <= c.y <= 12) || (c.y == 12 && 18 <= c.x <= 19)
    else (c.x == 0 && 7 <= c.y <= 12) || (c.y == 12 && 1 <= c.x <= 2)
  }

  /** Each area is eight distinct tiles of the outer ring of the field, where
      no blue unit may stand. */
  lemma AreaShape(a: nat)
    requires a < 4
    ensures |Area(a)| == 8 && Distinct(Area(a))
    ensures forall c :: c in Area(a) <==> InArea(a, c)
    ensures forall c :: c in Area(a) ==> InBounds(c, RedBounds) && !InBounds(c, BlueBounds)
  {
    var s := Area(a);
    DistinctPairs(s);
    forall c | InArea(a, c) ensures c in s {
      if a == 0 {
        if c.y == 0 && 18 <= c.x <= 19 { assert s[c.x - 18] == c; } else { assert s[2 + c.y] == c; }
      } else if a == 1 {
        if c.y == 0 && 1 <= c.x <= 2 { assert s[c.x - 1] == c; } else { assert s[2 + c.y] == c; }
      } else if a == 2 {
        if c.x == 20 && 7 <= c.y <= 12 { assert s[c.y - 7] == c; } else { assert s[6 + c.x - 18] == c; }
      } else {
        if c.x == 0 && 7 <= c.y <= 12 { assert s[c.y - 7] == c; } else { assert s[6 + c.x - 1] == c; }
      }
    }
  }

  /** No tile belongs to two areas. */
  lemma AreasDisjoint(a: nat, b: nat, c: Coord)
    requires a < 4 && b < 4 && a != b
    ensures !(c in Area(a) && c in Area(b))
  {
    AreaShape(a);
    AreaShape(b);
  }

  /** `coordinates.extend(area)` for every area `sample` picked. */
  function Pool(areas: seq<nat>): (p: seq<Coord>)
    requires forall i :: 0 <= i < |areas| ==> areas[i] < 4
    ensures |p| == 8 * |areas|
  {
    if |areas| == 0 then [] else AreaShape(areas[|areas| - 1]); Pool(areas[..|areas| - 1]) + Area(areas[|areas| - 1])
  }

  /** `sample(list_of_areas, m)`: `m` different areas. */
  predicate ValidAreas(areas: seq<nat>, m: nat) {
    |areas| == m && (forall i :: 0 <= i < |areas| ==> areas[i] < 4) &&
    forall i, j :: 0 <= i < j < |areas| ==> areas[i] != areas[j]
  }

  /** The pool of different areas holds `8 m` distinct edge tiles. */
  lemma {:induction false} PoolShape(areas: seq<nat>)
    requires ValidAreas(areas, |areas|)
    ensures Distinct(Pool(areas))
    ensures forall c :: c in Pool(areas) <==> exists i :: 0 <= i < |areas| && c in Area(areas[i])
    ensures forall c :: c in Pool(areas) ==> InBounds(c, RedBounds) && !InBounds(c, BlueBounds)
  {
    if |areas| > 0 {
      var init := areas[..|areas| - 1];
      var last := areas[|areas| - 1];
      assert ValidAreas(init, |init|);
      PoolShape(init);
      AreaShape(last);
      var p := Pool(init);
      var q := Area(last);
      assert Pool(areas) == p + q;
      DistinctPairs(p);
      DistinctPairs(q);
      DistinctPairs(p + q);
      forall c | c in p ensures c !in q {
        var i :| 0 <= i < |init| && c in Area(init[i]);
        AreasDisjoint(init[i], last, c);
      }
      forall i, j | 0 <= i < j < |p + q| ensures (p + q)[i] != (p + q)[j] {
        if j >= |p| && i < |p| {
          assert (p + q)[i] in p && (p + q)[j] in q;
        } else if i >= |p| {
          assert (p + q)[i] == q[i - |p|] && (p + q)[j] == q[j - |p|];
        }
      }
      forall c | c in Pool(areas) && !(c in p)
        ensures exists i :: 0 <= i < |areas| && c in Area(areas[i])
      {
        assert c in Area(areas[|areas| - 1]);
      }
      forall c | (exists i :: 0 <= i < |areas| && c in Area(areas[i])) ensures c in Pool(areas) {
        var i :| 0 <= i < |areas| && c in Area(areas[i]);
        if i < |init| {
          assert c in Area(init[i]);
        }
      }
      forall c | c in Pool(areas) ensures InBounds(c, RedBounds) && !InBounds(c, BlueBounds) {
        if c in p {
        } else {
          assert c in q;
        }
      }
    }
  }

  /** `m = ceil(n / 6)`. */
  function AreaCount(n: nat): nat {
    (n + 5) / 6
  }

  /** The number of soldiers of the `k`-th wave (`GameState.wave` after its
      increment): one soldier in each of the first three waves, then
      `n = 2, 4, ..., 18`. There is no wave after the twelfth. */
  function WaveSize(k: int): nat
    requires 1 <= k <= 12
  {
    if k <= 3 then 1 else 2 * (k - 3)
  }

  /** The areas one wave samples from. */
  function WaveAreas(k: int): nat
    requires 1 <= k <= 12
  {
    if k <= 3 then 1 else AreaCount(WaveSize(k))
  }

  /** The schedule: twelve waves, the later ones growing by two. */
  lemma Schedule()
    ensures forall k :: 1 <= k <= 3 ==> WaveSize(k) == 1 && WaveAreas(k) == 1
    ensures WaveSize(4) == 2 && WaveSize(12) == 18
    ensures forall k :: 4 <= k < 12 ==> WaveSize(k + 1) == WaveSize(k) + 2
  {
  }

  /** Every wave finds enough tiles: `m` is at most the four areas and the
      pool of `8 m` tiles holds at least `n`, so `sample` never raises. */
  lemma WaveFits(k: int)
    requires 1 <= k <= 12
    ensures 1 <= WaveAreas(k) <= 4
    ensures WaveSize(k) <= 8 * WaveAreas(k)
  {
  }

  /** `sample(coordinates, n)`: `n` entries taken from different positions
      of the pool. */
  predicate ValidDraw(draw: seq<Coord>, areas: seq<nat>, n: nat)
    requires ValidAreas(areas, |areas|)
  {
    |draw| == n && Distinct(draw) && forall i :: 0 <= i < |draw| ==> draw[i] in Pool(areas)
  }

  /** A wave can always be drawn: for any choice of areas the scheduled
      number of distinct tiles exists, and every drawn tile lies on the
      outer ring. */
  lemma DrawExists(k: int, areas: seq<nat>)
    requires 1 <= k <= 12 && ValidAreas(areas, WaveAreas(k))
    ensures ValidDraw(Pool(areas)[..WaveSize(k)], areas, WaveSize(k))
    ensures forall c :: c in Pool(areas)[..WaveSize(k)] ==> InBounds(c, RedBounds) && !InBounds(c, BlueBounds)
  {
    WaveFits(k);
    PoolShape(areas);
    var p := Pool(areas);
    var d := p[..WaveSize(k)];
    DistinctPairs(p);
    DistinctPairs(d);
    forall i, j | 0 <= i < j < |d| ensures d[i] != d[j] {
      assert d[i] == p[i] && d[j] == p[j];
    }
  }
}
