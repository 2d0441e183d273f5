/** The two searches of `SoldierModel`: the cost-bounded Dijkstra of
    `get_reachable_coordinates` and the A* of `get_approaching_path`,
    both over a `heapq` frontier of `(priority, (x, y))` entries. */
module Search {
  import opened Grid
  import opened Wrappers

  /** A frontier entry: `heapq` orders `(priority, (x, y))` tuples
      lexicographically. */
  type Entry = (int, Coord)

  predicate EntryLeq(a: Entry, b: Entry) {
    a.0 < b.0 || (a.0 == b.0 && (a.1.x < b.1.x || (a.1.x == b.1.x && a.1.y <= b.1.y)))
  }

  /** `heapq.heappop`: the position of a least entry of the frontier. */
  method PopMin(frontier: seq<Entry>) returns (k: nat)
    requires |frontier| > 0
    ensures k < |frontier|
    ensures forall j :: 0 <= j < |frontier| ==> EntryLeq(frontier[k], frontier[j])
  {
    k := 0;
    var i := 1;
    while i < |frontier|
      invariant 1 <= i <= |frontier| && k < i
      invariant forall j :: 0 <= j < i ==> EntryLeq(frontier[k], frontier[j])
    {
      if !EntryLeq(frontier[k], frontier[i]) {
        k := i;
      }
      i := i + 1;
    }
  }

  function RemoveAt(s: seq<Entry>, k: nat): (r: seq<Entry>)
    requires k < |s|
    ensures |r| == |s| - 1
    ensures forall e :: e in s && e != s[k] ==> e in r
    ensures forall e :: e in r ==> e in s
  {
    assert s == s[..k] + [s[k]] + s[k + 1..];
    s[..k] + s[k + 1..]
  }

  lemma SubsetCard(a: set<Coord>, b: set<Coord>)
    requires a <= b
    ensures |a| <= |b|
  {
    if a != {} {
      var x :| x in a;
      SubsetCard(a - {x}, b - {x});
    }
  }

  /** The value a cost table holds for `c`, or the cap `cap` when it holds none. */
  function Val(t: map<Coord, int>, c: Coord, cap: int): int {
    if c in t then t[c] else cap
  }

  /** The improvements still open to a cost table over `box`: every
      `(tile, value)` below the tile's current value. Each relaxation removes
      at least one pair, which bounds the number of pushes. */
  ghost function Potential(box: set<Coord>, cap: nat, t: map<Coord, int>): set<(Coord, int)> {
    set c, v | c in box && 0 <= v < cap && v < Val(t, c, cap) :: (c, v)
  }

  lemma PotentialShrinks(box: set<Coord>, cap: nat, t: map<Coord, int>, c: Coord, v: int)
    requires c in box && 0 <= v < Val(t, c, cap) && v < cap
    ensures Potential(box, cap, t[c := v]) < Potential(box, cap, t)
  {
    assert (c, v) in Potential(box, cap, t);
    assert (c, v) !in Potential(box, cap, t[c := v]);
  }

  lemma PotentialTrans(a: set<(Coord, int)>, b: set<(Coord, int)>, c: set<(Coord, int)>)
    requires a <= b <= c && (a < b || b < c)
    ensures a < c
  {
  }

  /** Every value of a cost table is a cost, hence non-negative. */
  ghost predicate NonNeg(t: map<Coord, int>) {
    forall c :: c in t ==> 0 <= t[c]
  }

  /** Relaxing `nb` from `cost` has taken effect in `t`: a passable `nb` is
      tabled at `cost` plus its step, or less. */
  ghost predicate NeighbourDone(sp: Space, cost: int, t: map<Coord, int>, nb: Coord) {
    Passable(sp, nb) ==> nb in t && t[nb] <= cost + Step(sp, nb)
  }

  /** Every neighbour of `c` has been relaxed from `cost`. */
  ghost predicate NeighboursDone(sp: Space, c: Coord, cost: int, t: map<Coord, int>) {
    forall nb :: Adjacent(c, nb) ==> NeighbourDone(sp, cost, t, nb)
  }

  /** Every passable neighbour of `c` holds a value no worse than through `c`. */
  ghost predicate Relaxed(sp: Space, t: map<Coord, int>, c: Coord)
    requires c in t
  {
    NeighboursDone(sp, c, t[c], t)
  }

  /** The tile a table entry names is reached by a walk from `start` costing
      at most the entry. */
  ghost predicate WitnessOk(sp: Space, start: Coord, t: map<Coord, int>, wit: map<Coord, seq<Coord>>, c: Coord)
    requires c in t && c in wit
  {
    IsWalk(sp, start, wit[c]) && wit[c][|wit[c]| - 1] == c && WalkCost(sp, wit[c]) <= t[c]
  }

  /** Each table value is the cost of some walk from `start`, or more. */
  ghost predicate Witnessed(sp: Space, start: Coord, t: map<Coord, int>, wit: map<Coord, seq<Coord>>) {
    wit.Keys == t.Keys && forall c :: c in t ==> WitnessOk(sp, start, t, wit, c)
  }

  /** The tile `c` reached through `w`, or nowhere closer than `t[c]`. */
  lemma {:induction false} WalkBounded(sp: Space, start: Coord, t: map<Coord, int>, w: seq<Coord>)
    requires WellFormed(sp) && start in t && t[start] == 0
    requires forall c :: c in t && t[c] < sp.mobility ==> Relaxed(sp, t, c)
    requires IsWalk(sp, start, w) && WalkCost(sp, w) <= sp.mobility
    ensures w[|w| - 1] in t && t[w[|w| - 1]] <= WalkCost(sp, w)
  {
    if |w| > 1 {
      var w' := w[..|w| - 1];
      var last := w[|w| - 1];
      WalkPrefix(sp, start, w);
      StepPositive(sp, last);
      WalkBounded(sp, start, t, w');
      assert w'[|w'| - 1] == w[|w| - 2];
      assert NeighbourDone(sp, t[w'[|w'| - 1]], t, last);
    }
  }

  /** Dijkstra's frontier: each entry names a tabled tile, at or above its
      tabled cost. */
  ghost predicate CostFrontier(t: map<Coord, int>, f: seq<Entry>) {
    forall k :: 0 <= k < |f| ==> f[k].1 in t && t[f[k].1] <= f[k].0
  }

  /** How relaxations leave the table `t0` and frontier `f0`: keys are kept,
      values only fall, the potential shrinks exactly when the table changes,
      and the frontier is untouched when the table is. */
  ghost predicate Shrinks(box: set<Coord>, cap: nat, t0: map<Coord, int>, f0: seq<Entry>,
                          t: map<Coord, int>, f: seq<Entry>)
  {
    t0.Keys <= t.Keys && (forall c :: c in t0 ==> t[c] <= t0[c]) &&
    Potential(box, cap, t) <= Potential(box, cap, t0) &&
    (t != t0 ==> Potential(box, cap, t) < Potential(box, cap, t0)) &&
    (t == t0 ==> f == f0)
  }

  lemma ShrinksStep(box: set<Coord>, cap: nat, t0: map<Coord, int>, f0: seq<Entry>,
                    t: map<Coord, int>, f: seq<Entry>, nb: Coord, newCost: int, e: Entry)
    requires Shrinks(box, cap, t0, f0, t, f)
    requires nb in box && 0 <= newCost < Val(t, nb, cap) && newCost < cap
    ensures Shrinks(box, cap, t0, f0, t[nb := newCost], f + [e])
  {
    var t' := t[nb := newCost];
    PotentialShrinks(box, cap, t, nb, newCost);
    assert t' != t0 by {
      if t == t0 {
        assert nb !in t0 || t'[nb] != t0[nb];
      } else {
        assert Potential(box, cap, t') < Potential(box, cap, t0);
      }
    }
  }

  /** Dijkstra's relaxations also extend the frontier and push every
      improved tile with its new value. */
  ghost predicate Improves(box: set<Coord>, cap: nat, t0: map<Coord, int>, f0: seq<Entry>,
                           t: map<Coord, int>, f: seq<Entry>)
  {
    Shrinks(box, cap, t0, f0, t, f) &&
    |f| >= |f0| && f[..|f0|] == f0 &&
    (forall c :: c in t && (c !in t0 || t[c] < t0[c]) ==> (t[c], c) in f)
  }

  lemma ImprovesStep(box: set<Coord>, cap: nat, t0: map<Coord, int>, f0: seq<Entry>,
                     t: map<Coord, int>, f: seq<Entry>, nb: Coord, newCost: int)
    requires Improves(box, cap, t0, f0, t, f)
    requires nb in box && 0 <= newCost < Val(t, nb, cap) && newCost < cap
    ensures Improves(box, cap, t0, f0, t[nb := newCost], f + [(newCost, nb)])
  {
    var t' := t[nb := newCost];
    var f' := f + [(newCost, nb)];
    ShrinksStep(box, cap, t0, f0, t, f, nb, newCost, (newCost, nb));
    assert f'[..|f0|] == f[..|f0|];
    forall c | c in t' && (c !in t0 || t'[c] < t0[c]) ensures (t'[c], c) in f' {
      if c != nb {
        assert (t[c], c) in f;
      } else {
        assert f'[|f|] == (newCost, nb);
      }
    }
  }

  lemma PushFrontier(t: map<Coord, int>, f: seq<Entry>, nb: Coord, newCost: int)
    requires CostFrontier(t, f) && (nb !in t || newCost < t[nb])
    ensures CostFrontier(t[nb := newCost], f + [(newCost, nb)])
  {
    var t' := t[nb := newCost];
    var f' := f + [(newCost, nb)];
    forall k | 0 <= k < |f'| ensures f'[k].1 in t' && t'[f'[k].1] <= f'[k].0 {
      if k < |f| { assert f'[k] == f[k]; }
    }
  }

  lemma PushWitnessed(sp: Space, start: Coord, table: map<Coord, int>, wit: map<Coord, seq<Coord>>,
                      current: Coord, nb: Coord, newCost: int)
    requires Witnessed(sp, start, table, wit)
    requires current in table && Adjacent(current, nb) && Passable(sp, nb)
    requires table[current] + Step(sp, nb) <= newCost
    ensures Witnessed(sp, start, table[nb := newCost], wit[nb := wit[current] + [nb]])
  {
    var t := table[nb := newCost];
    var w := wit[nb := wit[current] + [nb]];
    assert WitnessOk(sp, start, table, wit, current);
    WalkExtend(sp, start, wit[current], nb);
    forall c | c in t ensures WitnessOk(sp, start, t, w, c) {
      if c != nb {
        assert WitnessOk(sp, start, table, wit, c);
      }
    }
  }

  /** The neighbours `dirs[..i]` of `c` have been relaxed from `cost`. */
  ghost predicate DoneUpTo(sp: Space, dirs: seq<(int, int)>, c: Coord, cost: int, t: map<Coord, int>, i: int)
    requires 0 <= i <= |dirs|
  {
    forall j :: 0 <= j < i ==> NeighbourDone(sp, cost, t, Shift(c, dirs[j]))
  }

  lemma DoneUpToLower(sp: Space, dirs: seq<(int, int)>, c: Coord, cost: int,
                      t: map<Coord, int>, t': map<Coord, int>, i: int)
    requires 0 <= i <= |dirs| && DoneUpTo(sp, dirs, c, cost, t, i)
    requires t.Keys <= t'.Keys && forall d :: d in t ==> t'[d] <= t[d]
    ensures DoneUpTo(sp, dirs, c, cost, t', i)
  {
    forall j | 0 <= j < i ensures NeighbourDone(sp, cost, t', Shift(c, dirs[j])) {
      assert NeighbourDone(sp, cost, t, Shift(c, dirs[j]));
    }
  }

  lemma DoneAll(sp: Space, dirs: seq<(int, int)>, c: Coord, cost: int, t: map<Coord, int>)
    requires IsDirections(dirs) && DoneUpTo(sp, dirs, c, cost, t, 4)
    ensures NeighboursDone(sp, c, cost, t)
  {
    forall nb | Adjacent(c, nb) ensures NeighbourDone(sp, cost, t, nb) {
      AdjacentIsShift(dirs, c, nb);
    }
  }

  /** The state of the inner loop after relaxing the neighbours `dirs[..i]`
      of `current` from `cost`, starting from table `t0` and frontier `f0`. */
  ghost predicate RelaxInv(sp: Space, start: Coord, dirs: seq<(int, int)>, box: set<Coord>, cap: nat,
                           current: Coord, cost: int, t0: map<Coord, int>, f0: seq<Entry>,
                           t: map<Coord, int>, f: seq<Entry>, wit: map<Coord, seq<Coord>>, i: int)
  {
    0 <= i <= 4 && |dirs| == 4 &&
    NonNeg(t) && Witnessed(sp, start, t, wit) && CostFrontier(t, f) &&
    Improves(box, cap, t0, f0, t, f) && DoneUpTo(sp, dirs, current, cost, t, i)
  }

  /** The bounds under which the inner loop runs: a well-formed space, the
      four offsets, and a popped tile cheaper than the mobility. */
  ghost predicate RelaxPre(sp: Space, dirs: seq<(int, int)>, box: set<Coord>, cap: nat,
                           current: Coord, cost: int, t0: map<Coord, int>)
  {
    WellFormed(sp) && IsDirections(dirs) && box == BoxTiles(sp.bounds) && cap == 2 * sp.mobility &&
    current in t0 && t0[current] <= cost < sp.mobility
  }

  /** What the inner loop leaves behind: the table's bookkeeping kept, the
      improvements recorded, and every neighbour of `current` relaxed. */
  ghost predicate RelaxResult(sp: Space, start: Coord, box: set<Coord>, cap: nat, current: Coord, cost: int,
                              t0: map<Coord, int>, f0: seq<Entry>,
                              t: map<Coord, int>, f: seq<Entry>, wit: map<Coord, seq<Coord>>)
  {
    NonNeg(t) && Witnessed(sp, start, t, wit) && CostFrontier(t, f) &&
    Improves(box, cap, t0, f0, t, f) && NeighboursDone(sp, current, cost, t)
  }

  /** Relaxing `dirs[i]` with an improvement keeps the inner loop's state. */
  lemma RelaxPushed(sp: Space, start: Coord, dirs: seq<(int, int)>, box: set<Coord>, cap: nat,
                    current: Coord, cost: int, t0: map<Coord, int>, f0: seq<Entry>,
                    t: map<Coord, int>, f: seq<Entry>, wit: map<Coord, seq<Coord>>, i: int, newCost: int)
    requires RelaxPre(sp, dirs, box, cap, current, cost, t0)
    requires RelaxInv(sp, start, dirs, box, cap, current, cost, t0, f0, t, f, wit, i) && i < 4
    requires Passable(sp, Shift(current, dirs[i])) && newCost == cost + Step(sp, Shift(current, dirs[i]))
    requires Shift(current, dirs[i]) !in t || newCost < t[Shift(current, dirs[i])]
    ensures var nb := Shift(current, dirs[i]);
      RelaxInv(sp, start, dirs, box, cap, current, cost, t0, f0,
               t[nb := newCost], f + [(newCost, nb)], wit[nb := wit[current] + [nb]], i + 1)
  {
    var nb := Shift(current, dirs[i]);
    var t' := t[nb := newCost];
    ShiftIsAdjacent(dirs, current, i);
    StepPositive(sp, nb);
    assert current in t && t[current] <= cost;
    PushWitnessed(sp, start, t, wit, current, nb, newCost);
    PushFrontier(t, f, nb, newCost);
    assert nb in box;
    ImprovesStep(box, cap, t0, f0, t, f, nb, newCost);
    DoneUpToLower(sp, dirs, current, cost, t, t', i);
    assert NeighbourDone(sp, cost, t', nb);
    assert NonNeg(t');
  }

  /** Relaxing `dirs[i]` without an improvement keeps the inner loop's state. */
  lemma RelaxKept(sp: Space, start: Coord, dirs: seq<(int, int)>, box: set<Coord>, cap: nat,
                  current: Coord, cost: int, t0: map<Coord, int>, f0: seq<Entry>,
                  t: map<Coord, int>, f: seq<Entry>, wit: map<Coord, seq<Coord>>, i: int)
    requires RelaxInv(sp, start, dirs, box, cap, current, cost, t0, f0, t, f, wit, i) && i < 4
    requires NeighbourDone(sp, cost, t, Shift(current, dirs[i]))
    ensures RelaxInv(sp, start, dirs, box, cap, current, cost, t0, f0, t, f, wit, i + 1)
  {
  }

  /** The inner loop of `get_reachable_coordinates`: relax the four
      neighbours of `current` from the popped cost, pushing every tile whose
      tabled cost improves. */
  method RelaxNeighbours(sp: Space, start: Coord, dirs: seq<(int, int)>, current: Coord,
                         costSoFar: int, table: map<Coord, int>, frontier: seq<Entry>,
                         ghost wit: map<Coord, seq<Coord>>, ghost box: set<Coord>, ghost cap: nat)
    returns (table': map<Coord, int>, frontier': seq<Entry>, ghost wit': map<Coord, seq<Coord>>)
    requires RelaxPre(sp, dirs, box, cap, current, costSoFar, table)
    requires NonNeg(table) && Witnessed(sp, start, table, wit) && CostFrontier(table, frontier)
    ensures RelaxResult(sp, start, box, cap, current, costSoFar, table, frontier, table', frontier', wit')
  {
    table', frontier', wit' := table, frontier, wit;
    var i := 0;
    while i < 4
      invariant RelaxInv(sp, start, dirs, box, cap, current, costSoFar, table, frontier, table', frontier', wit', i)
    {
      var nb := Shift(current, dirs[i]);
      if InBounds(nb, sp.bounds) && nb !in sp.hostile {
        StepPositive(sp, nb);
        var stepCost := sp.cost[nb];
        if stepCost == -1 {
          stepCost := sp.mobility;
        }
        var newCost := costSoFar + stepCost;
        if nb !in table' || newCost < table'[nb] {
          RelaxPushed(sp, start, dirs, box, cap, current, costSoFar, table, frontier,
                      table', frontier', wit', i, newCost);
          table' := table'[nb := newCost];
          frontier' := frontier' + [(newCost, nb)];
          wit' := wit'[nb := wit'[current] + [nb]];
        } else {
          RelaxKept(sp, start, dirs, box, cap, current, costSoFar, table, frontier, table', frontier', wit', i);
        }
      } else {
        RelaxKept(sp, start, dirs, box, cap, current, costSoFar, table, frontier, table', frontier', wit', i);
      }
      i := i + 1;
    }
    DoneAll(sp, dirs, current, costSoFar, table');
  }

  /** A tile whose final cost has been popped: kept if affordable and not
      friendly, and relaxed if cheaper than the mobility. */
  ghost predicate Settled(sp: Space, t: map<Coord, int>, reach: set<Coord>, c: Coord)
    requires c in t
  {
    (t[c] <= sp.mobility && c !in sp.friendly ==> c in reach) &&
    (t[c] < sp.mobility ==> Relaxed(sp, t, c))
  }

  /** Every tabled tile is either waiting in the frontier at its current
      value or settled. */
  ghost predicate PendingOrSettled(sp: Space, t: map<Coord, int>, f: seq<Entry>, reach: set<Coord>) {
    forall c :: c in t ==> (t[c], c) in f || Settled(sp, t, reach, c)
  }

  /** Every kept tile is tabled within the budget and off friendly ground. */
  ghost predicate ReachSound(sp: Space, t: map<Coord, int>, reach: set<Coord>) {
    forall c :: c in reach ==> c in t && t[c] <= sp.mobility && c !in sp.friendly
  }

  /** Popping an entry that is not expanded settles its tile. */
  lemma SettleSkip(sp: Space, t: map<Coord, int>, f: seq<Entry>, k: nat,
                   reach: set<Coord>, reach': set<Coord>)
    requires k < |f| && f[k].1 in t && PendingOrSettled(sp, t, f, reach)
    requires f[k].0 >= sp.mobility
    requires reach' == if f[k].0 <= sp.mobility && f[k].1 !in sp.friendly then reach + {f[k].1} else reach
    ensures PendingOrSettled(sp, t, RemoveAt(f, k), reach')
  {
    var f' := RemoveAt(f, k);
    forall c | c in t && (t[c], c) !in f' ensures Settled(sp, t, reach', c) {
      if (t[c], c) != f[k] {
        assert Settled(sp, t, reach, c);
      }
    }
  }

  /** Popping an entry and relaxing its neighbours settles its tile when the
      entry is current, and keeps every other tile pending or settled. */
  lemma SettleRelax(sp: Space, box: set<Coord>, cap: nat, t0: map<Coord, int>, f: seq<Entry>, k: nat,
                    t: map<Coord, int>, f': seq<Entry>, reach: set<Coord>, reach': set<Coord>)
    requires k < |f| && f[k].1 in t0 && PendingOrSettled(sp, t0, f, reach)
    requires f[k].0 < sp.mobility && f[k].1 in t
    requires reach' == if f[k].1 !in sp.friendly then reach + {f[k].1} else reach
    requires Improves(box, cap, t0, RemoveAt(f, k), t, f')
    requires NeighboursDone(sp, f[k].1, f[k].0, t)
    ensures PendingOrSettled(sp, t, f', reach')
  {
    var f0 := RemoveAt(f, k);
    forall c | c in t && (t[c], c) !in f' ensures Settled(sp, t, reach', c) {
      assert c in t0 && t[c] == t0[c];
      assert (t0[c], c) !in f0;
      if (t0[c], c) != f[k] {
        assert Settled(sp, t0, reach, c);
      }
    }
  }

  /** The state of the outer loop of `get_reachable_coordinates`. */
  ghost predicate DijkstraInv(sp: Space, start: Coord, t: map<Coord, int>, f: seq<Entry>,
                              wit: map<Coord, seq<Coord>>, reach: set<Coord>)
  {
    start in t && t[start] == 0 &&
    NonNeg(t) && Witnessed(sp, start, t, wit) && CostFrontier(t, f) &&
    ReachSound(sp, t, reach) && PendingOrSettled(sp, t, f, reach)
  }

  /** Popping any entry leaves a frontier of tabled tiles at or above their
      costs, and the popped tile tabled at or below the popped cost. */
  lemma DijkstraPop(sp: Space, start: Coord, t: map<Coord, int>, f: seq<Entry>, k: nat,
                    wit: map<Coord, seq<Coord>>, reach: set<Coord>)
    requires DijkstraInv(sp, start, t, f, wit, reach) && k < |f|
    ensures NonNeg(t) && Witnessed(sp, start, t, wit) && CostFrontier(t, RemoveAt(f, k))
    ensures f[k].1 in t && 0 <= t[f[k].1] <= f[k].0
  {
    var f' := RemoveAt(f, k);
    forall j | 0 <= j < |f'| ensures f'[j].1 in t && t[f'[j].1] <= f'[j].0 {
      assert f'[j] in f;
    }
  }

  /** Popping the least entry and skipping its expansion keeps the state. */
  lemma DijkstraSkip(sp: Space, start: Coord, t: map<Coord, int>, f: seq<Entry>, k: nat,
                     wit: map<Coord, seq<Coord>>, reach: set<Coord>, reach': set<Coord>)
    requires DijkstraInv(sp, start, t, f, wit, reach) && k < |f| && f[k].0 >= sp.mobility
    requires reach' == if f[k].0 <= sp.mobility && f[k].1 !in sp.friendly then reach + {f[k].1} else reach
    ensures DijkstraInv(sp, start, t, RemoveAt(f, k), wit, reach')
  {
    SettleSkip(sp, t, f, k, reach, reach');
    DijkstraPop(sp, start, t, f, k, wit, reach);
  }

  /** Popping the least entry, keeping it, and relaxing its neighbours
      keeps the state. */
  lemma DijkstraRelax(sp: Space, start: Coord, box: set<Coord>, cap: nat, t0: map<Coord, int>,
                      f: seq<Entry>, k: nat, wit0: map<Coord, seq<Coord>>, reach: set<Coord>,
                      t: map<Coord, int>, f': seq<Entry>, wit: map<Coord, seq<Coord>>, reach': set<Coord>)
    requires DijkstraInv(sp, start, t0, f, wit0, reach) && k < |f| && f[k].0 < sp.mobility
    requires reach' == if f[k].1 !in sp.friendly then reach + {f[k].1} else reach
    requires RelaxResult(sp, start, box, cap, f[k].1, f[k].0, t0, RemoveAt(f, k), t, f', wit)
    ensures DijkstraInv(sp, start, t, f', wit, reach')
  {
    SettleRelax(sp, box, cap, t0, f, k, t, f', reach, reach');
  }

  /** When the frontier runs dry, the kept tiles are exactly the reachable
      ones off friendly ground. */
  lemma DijkstraDone(sp: Space, start: Coord, t: map<Coord, int>, wit: map<Coord, seq<Coord>>, reach: set<Coord>)
    requires WellFormed(sp) && DijkstraInv(sp, start, t, [], wit, reach)
    ensures forall c :: c in reach <==> c !in sp.friendly && CanReach(sp, start, c)
  {
    forall c | c !in sp.friendly && CanReach(sp, start, c)
      ensures c in reach
    {
      var w :| IsWalk(sp, start, w) && w[|w| - 1] == c && WalkCost(sp, w) <= sp.mobility;
      WalkBounded(sp, start, t, w);
      assert Settled(sp, t, reach, c);
    }
    forall c | c in reach
      ensures CanReach(sp, start, c)
    {
      assert WitnessOk(sp, start, t, wit, c);
    }
  }

  /** `get_reachable_coordinates`: Dijkstra from `start`, never entering a
      hostile tile, expanding only tiles cheaper than the mobility, and
      keeping every popped tile within budget that no friendly unit holds.
      The result is exactly the tiles off friendly ground that some walk
      within the mobility ends on. */
  method Reachable(sp: Space, start: Coord, dirs: seq<(int, int)>) returns (reach: set<Coord>)
    requires WellFormed(sp) && IsDirections(dirs) && InBounds(start, sp.bounds)
    ensures forall c :: c in reach <==> c !in sp.friendly && CanReach(sp, start, c)
  {
    ghost var box := BoxTiles(sp.bounds);
    ghost var cap: nat := 2 * sp.mobility;
    var frontier: seq<Entry> := [(0, start)];
    var table := map[start := 0];
    ghost var wit := map[start := [start]];
    reach := {};
    assert WitnessOk(sp, start, table, wit, start);
    while frontier != []
      invariant DijkstraInv(sp, start, table, frontier, wit, reach)
      decreases Potential(box, cap, table), |frontier|
    {
      var k := PopMin(frontier);
      var (costSoFar, current) := frontier[k];
      ghost var f := frontier;
      ghost var reach0 := reach;
      DijkstraPop(sp, start, table, f, k, wit, reach);
      frontier := RemoveAt(frontier, k);
      if costSoFar <= sp.mobility && current !in sp.friendly {
        reach := reach + {current};
      }
      if costSoFar >= sp.mobility {
        DijkstraSkip(sp, start, table, f, k, wit, reach0, reach);
        continue;
      }
      ghost var t0, wit0 := table, wit;
      table, frontier, wit := RelaxNeighbours(sp, start, dirs, current, costSoFar, table, frontier, wit, box, cap);
      DijkstraRelax(sp, start, box, cap, t0, f, k, wit0, reach0, table, frontier, wit, reach);
    }
    DijkstraDone(sp, start, table, wit, reach);
  }

  // ---------------------------------------------------------------------
  // get_approaching_path

  /** The cost `get_approaching_path` starts its best goal cost from. */
  const NoGoalCost: int := 65535

  /** The steps of `w` after the first form a walk, wherever it starts. */
  ghost predicate Linked(sp: Space, w: seq<Coord>) {
    forall k :: 1 <= k < |w| ==> StepOk(sp, w, k)
  }

  lemma LinkedPrepend(sp: Space, c: Coord, w: seq<Coord>)
    requires Linked(sp, w) && |w| >= 1 && Adjacent(c, w[0]) && Passable(sp, w[0])
    ensures Linked(sp, [c] + w)
  {
    var w' := [c] + w;
    forall k | 1 <= k < |w'| ensures StepOk(sp, w', k) {
      if k > 1 { assert StepOk(sp, w, k - 1); }
    }
  }

  /** The parent of a tabled tile other than the start: a tabled neighbour,
      strictly cheaper, from which the tile was entered. */
  ghost predicate ParentOk(sp: Space, t: map<Coord, int>, parent: map<Coord, Option<Coord>>, c: Coord)
    requires c in t && c in parent
  {
    parent[c].Some? && parent[c].value in t &&
    Adjacent(parent[c].value, c) && Passable(sp, c) && t[parent[c].value] < t[c]
  }

  /** `parent_table`: the start has no parent, every other tabled tile has one. */
  ghost predicate Parents(sp: Space, start: Coord, t: map<Coord, int>, parent: map<Coord, Option<Coord>>) {
    parent.Keys == t.Keys && start in t && parent[start] == None &&
    forall c :: c in t && c != start ==> ParentOk(sp, t, parent, c)
  }

  /** The backtracking loop of `get_approaching_path`: follow parents from
      `goal` back to the start. Tiles are prepended rather than appended and
      reversed, which yields the same list. */
  method GoalWalk(sp: Space, start: Coord, t: map<Coord, int>, parent: map<Coord, Option<Coord>>, goal: Coord)
    returns (walk: seq<Coord>)
    requires Parents(sp, start, t, parent) && NonNeg(t) && goal in t
    ensures IsWalk(sp, start, walk) && walk[|walk| - 1] == goal
    ensures goal == start ==> walk == [start]
  {
    walk := [];
    var c: Option<Coord> := Some(goal);
    while c.Some?
      invariant c.Some? ==> c.value in t
      invariant walk == [] ==> c == Some(goal)
      invariant walk != [] ==> walk[|walk| - 1] == goal && walk[0] in t && c == parent[walk[0]]
      invariant Linked(sp, walk)
      invariant goal == start ==> walk == [] || walk == [start]
      decreases if c.Some? then t[c.value] + 1 else 0
    {
      var x := c.value;
      if walk != [] {
        assert ParentOk(sp, t, parent, walk[0]);
        LinkedPrepend(sp, x, walk);
      }
      walk := [x] + walk;
      if x != start {
        assert ParentOk(sp, t, parent, x);
      }
      c := parent[x];
    }
  }

  /** `p` is what trimming `walk` to the budget leaves: the prefix that
      stops before the first step whose cumulative cost would exceed the
      mobility. */
  ghost predicate TrimOf(sp: Space, walk: seq<Coord>, p: seq<Coord>) {
    1 <= |p| <= |walk| && p == walk[..|p|] && WalkCost(sp, p) <= sp.mobility &&
    (|p| < |walk| ==> WalkCost(sp, walk[..|p| + 1]) > sp.mobility)
  }

  /** The trimming loop of `get_approaching_path`. */
  method TrimToBudget(sp: Space, walk: seq<Coord>) returns (trimmed: seq<Coord>)
    requires |walk| >= 1 && forall k :: 1 <= k < |walk| ==> walk[k] in sp.cost
    ensures TrimOf(sp, walk, trimmed)
  {
    trimmed := [walk[0]];
    var cost := 0;
    var i := 1;
    while i < |walk|
      invariant 1 <= i <= |walk| && trimmed == walk[..i]
      invariant cost == WalkCost(sp, trimmed) <= sp.mobility
    {
      var stepCost := sp.cost[walk[i]];
      if stepCost == -1 {
        stepCost := sp.mobility;
      }
      assert walk[..i + 1][..i] == walk[..i];
      if cost + stepCost > sp.mobility {
        break;
      }
      trimmed := trimmed + [walk[i]];
      cost := cost + stepCost;
      i := i + 1;
    }
  }

  /** Along a walk in a well-formed space every step costs at least one, so
      a longer prefix costs strictly more. */
  lemma {:induction false} PrefixCostGrows(sp: Space, start: Coord, w: seq<Coord>, m: nat, n: nat)
    requires WellFormed(sp) && IsWalk(sp, start, w) && 1 <= m < n <= |w|
    ensures WalkCost(sp, w[..m]) < WalkCost(sp, w[..n])
  {
    var p := w[..n];
    WalkPrefixOf(sp, start, w, n);
    WalkPrefix(sp, start, p);
    StepPositive(sp, p[n - 1]);
    assert p[..n - 1] == w[..n - 1];
    if m < n - 1 {
      PrefixCostGrows(sp, start, w, m, n - 1);
    }
  }

  lemma WalkPrefixOf(sp: Space, start: Coord, w: seq<Coord>, n: nat)
    requires IsWalk(sp, start, w) && 1 <= n <= |w|
    ensures IsWalk(sp, start, w[..n])
  {
    forall k | 1 <= k < n ensures StepOk(sp, w[..n], k) {
      assert StepOk(sp, w, k);
    }
  }

  /** The trimmed path is the longest affordable prefix of the walk. */
  lemma TrimIsLongest(sp: Space, start: Coord, walk: seq<Coord>, p: seq<Coord>, n: nat)
    requires WellFormed(sp) && IsWalk(sp, start, walk) && TrimOf(sp, walk, p)
    requires 1 <= n <= |walk| && WalkCost(sp, walk[..n]) <= sp.mobility
    ensures n <= |p|
  {
    if n > |p| {
      if n > |p| + 1 {
        PrefixCostGrows(sp, start, walk, |p| + 1, n);
      }
    }
  }

  /** What `get_approaching_path` may return: the start alone, or the
      trimmed prefix, ending off friendly ground, of a walk to a tile within
      `range` of `target`. */
  ghost predicate Approaches(sp: Space, start: Coord, target: Coord, range: int, path: seq<Coord>) {
    IsWalk(sp, start, path) && WalkCost(sp, path) <= sp.mobility &&
    (path == [start] ||
     (path[|path| - 1] !in sp.friendly &&
      exists g {:trigger TrimOf(sp, g, path)} :: IsWalk(sp, start, g) && Distance(target, g[|g| - 1]) <= range && TrimOf(sp, g, path)))
  }

  /** A table bounded by `hi`, over the box, with `start` at 0 and parents. */
  ghost predicate TableState(sp: Space, start: Coord, box: set<Coord>, t: map<Coord, int>,
                             parent: map<Coord, Option<Coord>>, hi: int)
  {
    start in t && t[start] == 0 && NonNeg(t) && t.Keys <= box && Bounded(t, hi) &&
    Parents(sp, start, t, parent)
  }

  /** A table with every value between 0 and `hi`. */
  ghost predicate Bounded(t: map<Coord, int>, hi: int) {
    forall c :: c in t ==> t[c] <= hi
  }

  /** `hi` obeys the first-insertion bound: a tile enters the table at most
      one full mobility above a tabled tile, so no value exceeds
      `mobility * (|t| - 1)`, which stays below `cap`. */
  ghost predicate HiInv(sp: Space, box: set<Coord>, cap: int, t: map<Coord, int>, hi: int) {
    box == BoxTiles(sp.bounds) && cap == sp.mobility * |box| + 1 &&
    0 <= hi <= sp.mobility * (|t| - 1)
  }

  /** Every frontier entry names a tabled tile. */
  ghost predicate TabledFrontier(t: map<Coord, int>, f: seq<Entry>) {
    forall k :: 0 <= k < |f| ==> f[k].1 in t
  }

  function NextHi(sp: Space, t: map<Coord, int>, nb: Coord, hi: int): int {
    if nb in t then hi else hi + sp.mobility
  }

  lemma MulMono(m: nat, a: int, b: int)
    requires a <= b
    ensures m * a <= m * b
  {
  }

  /** A new or improved entry keeps the first-insertion bound. */
  lemma PushBounded(sp: Space, box: set<Coord>, cap: nat, t: map<Coord, int>, hi: int,
                    nb: Coord, newCost: int)
    requires HiInv(sp, box, cap, t, hi) && Bounded(t, hi) && t.Keys <= box
    requires InBounds(nb, sp.bounds) && newCost <= hi + sp.mobility
    requires nb !in t || newCost < t[nb]
    ensures var hi' := NextHi(sp, t, nb, hi);
      var t' := t[nb := newCost];
      Bounded(t', hi') && HiInv(sp, box, cap, t', hi') && t'.Keys <= box && newCost < cap
  {
    var t' := t[nb := newCost];
    var m := sp.mobility;
    var hi' := NextHi(sp, t, nb, hi);
    assert nb in box;
    SubsetCard(t'.Keys, box);
    if nb !in t {
      assert |t'| == |t| + 1;
      assert m * (|t| - 1) + m == m * (|t'| - 1);
    } else {
      assert |t'| == |t|;
    }
    MulMono(m, |t'| - 1, |box| - 1);
    assert m * (|box| - 1) + m == m * |box|;
  }

  lemma PushParents(sp: Space, start: Coord, t: map<Coord, int>, parent: map<Coord, Option<Coord>>,
                    current: Coord, nb: Coord, newCost: int)
    requires Parents(sp, start, t, parent) && NonNeg(t) && t[start] == 0
    requires current in t && Adjacent(current, nb) && Passable(sp, nb)
    requires newCost > t[current] && (nb !in t || newCost < t[nb])
    ensures Parents(sp, start, t[nb := newCost], parent[nb := Some(current)])
  {
    var t' := t[nb := newCost];
    var p' := parent[nb := Some(current)];
    assert nb != start;
    forall c | c in t' && c != start ensures ParentOk(sp, t', p', c) {
      if c != nb {
        assert ParentOk(sp, t, parent, c);
      }
    }
  }

  /** The state of the inner loop of `get_approaching_path`, started from
      table `t0` and frontier `f0`. */
  ghost predicate AStarInv(sp: Space, start: Coord, box: set<Coord>, cap: nat, current: Coord,
                           t0: map<Coord, int>, f0: seq<Entry>, t: map<Coord, int>, f: seq<Entry>,
                           parent: map<Coord, Option<Coord>>, hi: int)
  {
    TableState(sp, start, box, t, parent, hi) && HiInv(sp, box, cap, t, hi) &&
    TabledFrontier(t, f) && Shrinks(box, cap, t0, f0, t, f) && current in t
  }

  /** Relaxing a neighbour with an improvement keeps the inner loop's state. */
  lemma AStarPushed(sp: Space, start: Coord, box: set<Coord>, cap: nat, current: Coord,
                    t0: map<Coord, int>, f0: seq<Entry>, t: map<Coord, int>, f: seq<Entry>,
                    parent: map<Coord, Option<Coord>>, hi: int, nb: Coord, newCost: int, priority: int)
    requires WellFormed(sp) && AStarInv(sp, start, box, cap, current, t0, f0, t, f, parent, hi)
    requires Adjacent(current, nb) && Passable(sp, nb) && newCost == t[current] + Step(sp, nb)
    requires nb !in t || newCost < t[nb]
    ensures AStarInv(sp, start, box, cap, current, t0, f0, t[nb := newCost], f + [(priority, nb)],
                     parent[nb := Some(current)], NextHi(sp, t, nb, hi))
  {
    var t' := t[nb := newCost];
    StepPositive(sp, nb);
    PushBounded(sp, box, cap, t, hi, nb, newCost);
    PushParents(sp, start, t, parent, current, nb, newCost);
    ShrinksStep(box, cap, t0, f0, t, f, nb, newCost, (priority, nb));
    assert nb != start;
    assert NonNeg(t');
    assert Bounded(t', NextHi(sp, t, nb, hi));
    var f' := f + [(priority, nb)];
    forall k | 0 <= k < |f'| ensures f'[k].1 in t' {
      if k < |f| { assert f'[k] == f[k]; }
    }
  }

  /** A tile whose tabled cost the inner loop has lowered or first set. */
  ghost predicate Improved(t0: map<Coord, int>, t: map<Coord, int>, c: Coord) {
    c in t && (c !in t0 || t[c] < t0[c])
  }

  /** Every tile the inner loop improved is a neighbour of `current`,
      costed and parented through it. */
  ghost predicate CostedThrough(sp: Space, current: Coord, t0: map<Coord, int>, t: map<Coord, int>,
                                p: map<Coord, Option<Coord>>)
  {
    current in t0 && p.Keys == t.Keys &&
    forall c :: Improved(t0, t, c) ==>
      Adjacent(current, c) && t[c] == t0[current] + Step(sp, c) && p[c] == Some(current)
  }

  /** Every tile the inner loop did not improve keeps its parent. */
  ghost predicate ParentsKept(t0: map<Coord, int>, p0: map<Coord, Option<Coord>>,
                              t: map<Coord, int>, p: map<Coord, Option<Coord>>)
  {
    t0.Keys <= t.Keys && p0.Keys == t0.Keys && p.Keys == t.Keys &&
    forall c :: c in t0 && !Improved(t0, t, c) ==> p[c] == p0[c]
  }

  /** The inner loop appended to `f0` only improved tiles, each with its
      cost plus its distance to `target` as priority. */
  ghost predicate PushedExact(target: Coord, t0: map<Coord, int>, f0: seq<Entry>, t: map<Coord, int>, f: seq<Entry>) {
    |f0| <= |f| && f[..|f0|] == f0 &&
    forall k :: |f0| <= k < |f| ==> Improved(t0, t, f[k].1) && f[k].0 == t[f[k].1] + Distance(target, f[k].1)
  }

  /** Every improved tile was appended to `f0`. */
  ghost predicate PushedAll(target: Coord, t0: map<Coord, int>, f0: seq<Entry>, t: map<Coord, int>, f: seq<Entry>)
    requires |f0| <= |f|
  {
    forall c :: Improved(t0, t, c) ==> (t[c] + Distance(target, c), c) in f[|f0|..]
  }

  /** The inner loop appended to `f0` exactly the improved tiles, each with
      its cost plus its distance to `target` as priority. */
  ghost predicate PushedImproved(target: Coord, t0: map<Coord, int>, f0: seq<Entry>, t: map<Coord, int>, f: seq<Entry>) {
    PushedExact(target, t0, f0, t, f) && PushedAll(target, t0, f0, t, f)
  }

  lemma CostedThroughPushed(sp: Space, current: Coord, t0: map<Coord, int>, t: map<Coord, int>,
                            p: map<Coord, Option<Coord>>, nb: Coord, newCost: int)
    requires CostedThrough(sp, current, t0, t, p)
    requires Adjacent(current, nb) && newCost == t0[current] + Step(sp, nb)
    ensures CostedThrough(sp, current, t0, t[nb := newCost], p[nb := Some(current)])
  {
  }

  lemma ParentsKeptPushed(t0: map<Coord, int>, p0: map<Coord, Option<Coord>>,
                          t: map<Coord, int>, p: map<Coord, Option<Coord>>, nb: Coord, newCost: int, q: Option<Coord>)
    requires ParentsKept(t0, p0, t, p) && (nb in t0 ==> newCost < t0[nb])
    ensures ParentsKept(t0, p0, t[nb := newCost], p[nb := q])
  {
  }

  lemma PushedExactPushed(target: Coord, t0: map<Coord, int>, f0: seq<Entry>, t: map<Coord, int>, f: seq<Entry>,
                          nb: Coord, newCost: int, priority: int)
    requires PushedExact(target, t0, f0, t, f) && !Improved(t0, t, nb) && (nb in t0 ==> newCost < t0[nb])
    requires priority == newCost + Distance(target, nb)
    ensures PushedExact(target, t0, f0, t[nb := newCost], f + [(priority, nb)])
  {
  }

  lemma PushedAllPushed(target: Coord, t0: map<Coord, int>, f0: seq<Entry>, t: map<Coord, int>, f: seq<Entry>,
                        nb: Coord, newCost: int, priority: int)
    requires |f0| <= |f| && PushedAll(target, t0, f0, t, f)
    requires priority == newCost + Distance(target, nb)
    ensures PushedAll(target, t0, f0, t[nb := newCost], f + [(priority, nb)])
  {
    var t', f' := t[nb := newCost], f + [(priority, nb)];
    assert f'[|f0|..] == f[|f0|..] + [f'[|f|]];
    forall c | Improved(t0, t', c) ensures (t'[c] + Distance(target, c), c) in f'[|f0|..] {
      if c != nb {
        assert Improved(t0, t, c);
      }
    }
  }

  /** What the inner loop of `get_approaching_path` has done after the
      neighbours `dirs[..i]` of `current`, started from table `t0`, frontier
      `f0` and parents `p0`: `current` keeps its cost, every improvement runs
      through `current` and is pushed, and those neighbours are relaxed. */
  ghost predicate AStarTrack(sp: Space, dirs: seq<(int, int)>, target: Coord, current: Coord,
                             t0: map<Coord, int>, f0: seq<Entry>, p0: map<Coord, Option<Coord>>,
                             t: map<Coord, int>, f: seq<Entry>, p: map<Coord, Option<Coord>>, i: int)
  {
    0 <= i <= 4 && |dirs| == 4 && current in t0 && current in t && t[current] == t0[current] &&
    CostedThrough(sp, current, t0, t, p) && ParentsKept(t0, p0, t, p) &&
    PushedImproved(target, t0, f0, t, f) && DoneUpTo(sp, dirs, current, t0[current], t, i)
  }

  /** Relaxing `dirs[i]` with an improvement keeps the inner loop's record. */
  lemma AStarTrackPushed(sp: Space, dirs: seq<(int, int)>, target: Coord, current: Coord,
                         t0: map<Coord, int>, f0: seq<Entry>, p0: map<Coord, Option<Coord>>,
                         t: map<Coord, int>, f: seq<Entry>, p: map<Coord, Option<Coord>>, i: int,
                         newCost: int, priority: int)
    requires IsDirections(dirs) && AStarTrack(sp, dirs, target, current, t0, f0, p0, t, f, p, i) && i < 4
    requires t0.Keys <= t.Keys && forall c :: c in t0 ==> t[c] <= t0[c]
    requires newCost == t0[current] + Step(sp, Shift(current, dirs[i]))
    requires Shift(current, dirs[i]) !in t || newCost < t[Shift(current, dirs[i])]
    requires priority == newCost + Distance(target, Shift(current, dirs[i]))
    ensures var nb := Shift(current, dirs[i]);
      AStarTrack(sp, dirs, target, current, t0, f0, p0, t[nb := newCost], f + [(priority, nb)],
                 p[nb := Some(current)], i + 1)
  {
    var nb := Shift(current, dirs[i]);
    var t', f', p' := t[nb := newCost], f + [(priority, nb)], p[nb := Some(current)];
    ShiftIsAdjacent(dirs, current, i);
    assert CostedThrough(sp, current, t0, t', p') by {
      CostedThroughPushed(sp, current, t0, t, p, nb, newCost);
    }
    assert ParentsKept(t0, p0, t', p') by {
      ParentsKeptPushed(t0, p0, t, p, nb, newCost, Some(current));
    }
    assert PushedImproved(target, t0, f0, t', f') by {
      PushedExactPushed(target, t0, f0, t, f, nb, newCost, priority);
      PushedAllPushed(target, t0, f0, t, f, nb, newCost, priority);
    }
    assert DoneUpTo(sp, dirs, current, t0[current], t', i + 1) by {
      DoneUpToLower(sp, dirs, current, t0[current], t, t', i);
    }
  }

  /** Relaxing `dirs[i]` without an improvement keeps the inner loop's record. */
  lemma AStarTrackKept(sp: Space, dirs: seq<(int, int)>, target: Coord, current: Coord,
                       t0: map<Coord, int>, f0: seq<Entry>, p0: map<Coord, Option<Coord>>,
                       t: map<Coord, int>, f: seq<Entry>, p: map<Coord, Option<Coord>>, i: int)
    requires AStarTrack(sp, dirs, target, current, t0, f0, p0, t, f, p, i) && i < 4
    requires NeighbourDone(sp, t0[current], t, Shift(current, dirs[i]))
    ensures AStarTrack(sp, dirs, target, current, t0, f0, p0, t, f, p, i + 1)
  {
  }

  /** The inner loop of `get_approaching_path`: relax the four neighbours of
      `current` from its tabled cost, pushing each improved neighbour with
      its cost plus its distance to `target` as priority and recording
      `current` as its parent. */
  method AStarRelax(sp: Space, start: Coord, dirs: seq<(int, int)>, target: Coord, current: Coord,
                    table: map<Coord, int>, frontier: seq<Entry>, parent: map<Coord, Option<Coord>>,
                    ghost hi: int, ghost box: set<Coord>, ghost cap: nat)
    returns (table': map<Coord, int>, frontier': seq<Entry>, parent': map<Coord, Option<Coord>>, ghost hi': int)
    requires WellFormed(sp) && IsDirections(dirs)
    requires AStarInv(sp, start, box, cap, current, table, frontier, table, frontier, parent, hi)
    ensures AStarInv(sp, start, box, cap, current, table, frontier, table', frontier', parent', hi')
    ensures table.Keys <= table'.Keys && forall c :: c in table ==> table'[c] <= table[c]
    ensures CostedThrough(sp, current, table, table', parent') && ParentsKept(table, parent, table', parent')
    ensures PushedImproved(target, table, frontier, table', frontier')
    ensures NeighboursDone(sp, current, table[current], table')
  {
    table', frontier', parent', hi' := table, frontier, parent, hi;
    assert frontier[..|frontier|] == frontier;
    for i := 0 to 4
      invariant AStarInv(sp, start, box, cap, current, table, frontier, table', frontier', parent', hi')
      invariant AStarTrack(sp, dirs, target, current, table, frontier, parent, table', frontier', parent', i)
    {
      var nb := Shift(current, dirs[i]);
      if InBounds(nb, sp.bounds) && nb !in sp.hostile {
        StepPositive(sp, nb);
        var stepCost := sp.cost[nb];
        if stepCost == -1 {
          stepCost := sp.mobility;
        }
        var newCost := table'[current] + stepCost;
        if nb !in table' || newCost < table'[nb] {
          var priority := newCost + Distance(target, nb);
          ShiftIsAdjacent(dirs, current, i);
          AStarPushed(sp, start, box, cap, current, table, frontier, table', frontier', parent', hi',
                      nb, newCost, priority);
          AStarTrackPushed(sp, dirs, target, current, table, frontier, parent, table', frontier', parent',
                           i, newCost, priority);
          hi' := NextHi(sp, table', nb, hi');
          frontier' := frontier' + [(priority, nb)];
          table' := table'[nb := newCost];
          parent' := parent'[nb := Some(current)];
        } else {
          AStarTrackKept(sp, dirs, target, current, table, frontier, parent, table', frontier', parent', i);
        }
      } else {
        AStarTrackKept(sp, dirs, target, current, table, frontier, parent, table', frontier', parent', i);
      }
    }
    DoneAll(sp, dirs, current, table[current], table');
  }

  /** The state of the outer loop of `get_approaching_path`. */
  ghost predicate ApproachInv(sp: Space, start: Coord, target: Coord, range: int, box: set<Coord>, cap: nat,
                              t: map<Coord, int>, f: seq<Entry>, parent: map<Coord, Option<Coord>>, hi: int,
                              path: seq<Coord>)
  {
    TableState(sp, start, box, t, parent, hi) && HiInv(sp, box, cap, t, hi) && TabledFrontier(t, f) &&
    Approaches(sp, start, target, range, path) &&
    (Distance(target, start) <= range ==>
       path == [start] && t.Keys == {start} && forall k :: 0 <= k < |f| ==> f[k].1 == start)
  }

  /** Popping any entry keeps the frontier tabled; while the start is
      itself within range it is the only tile ever pushed. */
  lemma ApproachPop(sp: Space, start: Coord, target: Coord, range: int, box: set<Coord>, cap: nat,
                    t: map<Coord, int>, f: seq<Entry>, parent: map<Coord, Option<Coord>>, hi: int,
                    path: seq<Coord>, k: nat)
    requires ApproachInv(sp, start, target, range, box, cap, t, f, parent, hi, path) && k < |f|
    ensures f[k].1 in t && TabledFrontier(t, RemoveAt(f, k))
    ensures AStarInv(sp, start, box, cap, f[k].1, t, RemoveAt(f, k), t, RemoveAt(f, k), parent, hi)
    ensures Distance(target, start) <= range ==>
      f[k].1 == start && forall j :: 0 <= j < |RemoveAt(f, k)| ==> RemoveAt(f, k)[j].1 == start
  {
    var f' := RemoveAt(f, k);
    forall j | 0 <= j < |f'| ensures f'[j].1 in t && (Distance(target, start) <= range ==> f'[j].1 == start) {
      assert f'[j] in f;
    }
  }

  /** Popping a goal keeps the outer loop's state, whether or not its
      trimmed walk replaces the answer. */
  lemma ApproachGoalStep(sp: Space, start: Coord, target: Coord, range: int, box: set<Coord>, cap: nat,
                         t: map<Coord, int>, f: seq<Entry>, parent: map<Coord, Option<Coord>>, hi: int,
                         path: seq<Coord>, k: nat, path': seq<Coord>)
    requires ApproachInv(sp, start, target, range, box, cap, t, f, parent, hi, path) && k < |f|
    requires path' == path || (Approaches(sp, start, target, range, path') && (f[k].1 == start ==> path' == [start]))
    ensures ApproachInv(sp, start, target, range, box, cap, t, RemoveAt(f, k), parent, hi, path')
  {
    ApproachPop(sp, start, target, range, box, cap, t, f, parent, hi, path, k);
  }

  /** Popping a tile out of range and relaxing its neighbours keeps the
      outer loop's state. */
  lemma ApproachRelaxStep(sp: Space, start: Coord, target: Coord, range: int, box: set<Coord>, cap: nat,
                          t0: map<Coord, int>, f: seq<Entry>, parent0: map<Coord, Option<Coord>>, hi0: int,
                          path: seq<Coord>, k: nat,
                          t: map<Coord, int>, f': seq<Entry>, parent: map<Coord, Option<Coord>>, hi: int)
    requires ApproachInv(sp, start, target, range, box, cap, t0, f, parent0, hi0, path) && k < |f|
    requires Distance(target, f[k].1) > range
    requires AStarInv(sp, start, box, cap, f[k].1, t0, RemoveAt(f, k), t, f', parent, hi)
    ensures ApproachInv(sp, start, target, range, box, cap, t, f', parent, hi, path)
  {
    ApproachPop(sp, start, target, range, box, cap, t0, f, parent0, hi0, path, k);
  }

  /** A goal tile's trimmed walk, when it is chosen, is a valid answer. */
  lemma GoalApproaches(sp: Space, start: Coord, target: Coord, range: int, goal: seq<Coord>, p: seq<Coord>)
    requires IsWalk(sp, start, goal) && Distance(target, goal[|goal| - 1]) <= range
    requires TrimOf(sp, goal, p) && p[|p| - 1] !in sp.friendly
    ensures Approaches(sp, start, target, range, p)
  {
    WalkPrefixOf(sp, start, goal, |p|);
  }

  lemma ApproachInit(sp: Space, start: Coord, target: Coord, range: int, box: set<Coord>, cap: nat)
    requires WellFormed(sp) && InBounds(start, sp.bounds)
    requires box == BoxTiles(sp.bounds) && cap == sp.mobility * |box| + 1
    ensures ApproachInv(sp, start, target, range, box, cap, map[start := 0], [(0, start)],
                        map[start := None], 0, [start])
  {
    assert InBounds(start, RedBounds) && start in box;
    assert (map[start := 0]).Keys == {start};
  }

  /** One round of the outer loop of `get_approaching_path`: pop the least
      entry; a goal is backtracked, trimmed and compared against the best
      goal so far, any other tile has its neighbours relaxed. */
  method ApproachRound(sp: Space, start: Coord, dirs: seq<(int, int)>, target: Coord, range: int,
                       table: map<Coord, int>, frontier: seq<Entry>, parent: map<Coord, Option<Coord>>,
                       path: seq<Coord>, goalCost: int, ghost hi: int, ghost box: set<Coord>, ghost cap: nat)
    returns (table': map<Coord, int>, frontier': seq<Entry>, parent': map<Coord, Option<Coord>>,
             path': seq<Coord>, goalCost': int, ghost hi': int)
    requires WellFormed(sp) && IsDirections(dirs) && frontier != []
    requires ApproachInv(sp, start, target, range, box, cap, table, frontier, parent, hi, path)
    ensures ApproachInv(sp, start, target, range, box, cap, table', frontier', parent', hi', path')
    ensures Potential(box, cap, table') < Potential(box, cap, table) ||
      (Potential(box, cap, table') == Potential(box, cap, table) && |frontier'| < |frontier|)
  {
    var k := PopMin(frontier);
    var current := frontier[k].1;
    ApproachPop(sp, start, target, range, box, cap, table, frontier, parent, hi, path, k);
    frontier' := RemoveAt(frontier, k);
    table', parent', path', goalCost', hi' := table, parent, path, goalCost, hi;
    if Distance(target, current) <= range {
      var goal := GoalWalk(sp, start, table, parent, current);
      WalkCostedTiles(sp, start, goal);
      var trimmed := TrimToBudget(sp, goal);
      if table[current] < goalCost && trimmed[|trimmed| - 1] !in sp.friendly {
        GoalApproaches(sp, start, target, range, goal, trimmed);
        path' := trimmed;
        goalCost' := table[current];
      }
      ApproachGoalStep(sp, start, target, range, box, cap, table, frontier, parent, hi, path, k, path');
    } else {
      table', frontier', parent', hi' := AStarRelax(sp, start, dirs, target, current, table, frontier', parent, hi, box, cap);
      ApproachRelaxStep(sp, start, target, range, box, cap, table, frontier, parent, hi, path, k,
                        table', frontier', parent', hi');
    }
  }

  /** `get_approaching_path`: A* from the unit's tile towards `target`,
      entering no hostile tile; every popped tile within `range` of the
      target is a goal, never expanded, whose walk trimmed to the mobility
      replaces the answer when its cost beats the best goal so far and it
      ends off friendly ground. */
  method ApproachPath(sp: Space, start: Coord, dirs: seq<(int, int)>, target: Coord, range: int)
    returns (path: seq<Coord>)
    requires WellFormed(sp) && IsDirections(dirs) && InBounds(start, sp.bounds)
    ensures Approaches(sp, start, target, range, path)
    ensures Distance(target, start) <= range ==> path == [start]
  {
    ghost var box := BoxTiles(sp.bounds);
    ghost var cap: nat := sp.mobility * |box| + 1;
    ghost var hi := 0;
    var frontier: seq<Entry> := [(0, start)];
    var table := map[start := 0];
    var parent: map<Coord, Option<Coord>> := map[start := None];
    path := [start];
    var goalCost := NoGoalCost;
    ApproachInit(sp, start, target, range, box, cap);
    while frontier != []
      invariant ApproachInv(sp, start, target, range, box, cap, table, frontier, parent, hi, path)
      decreases Potential(box, cap, table), |frontier|
    {
      table, frontier, parent, path, goalCost, hi :=
        ApproachRound(sp, start, dirs, target, range, table, frontier, parent, path, goalCost, hi, box, cap);
    }
  }
}
