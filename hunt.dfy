/** The target choice of `Soldier.hunt`: every hostile unit becomes a heap
    entry `(action, *order_by, i, path, unit)`, and the least entry under
    Python's tuple order wins. */
module Targeting {
  import opened Wrappers

  /** `Action`, an `IntEnum` numbered from 1. */
  datatype Action = MoveThenKill | MoveThenHit | Move

  function Rank(a: Action): (r: int)
    ensures 1 <= r <= 3
    ensures a == MoveThenKill <==> r == 1
    ensures a == MoveThenHit <==> r == 2
  {
    match a
    case MoveThenKill => 1
    case MoveThenHit => 2
    case Move => 3
  }

  /** The comparable part of a heap entry: the action, the ordering keys and
      the enumeration index. */
  datatype Candidate = Candidate(action: Action, keys: seq<real>, index: nat)

  /** The branch of `hunt` for one hostile unit, given the damage the hunter
      deals it, the distance from the end of the approach path to it, its
      health and the hunter's attack range. */
  function Classify(damage: real, distance: int, health: real, range: int, index: nat): (c: Candidate)
    ensures c.index == index
    ensures c.action == Move <==> distance > range
    ensures c.action == MoveThenHit <==> distance <= range && damage < health
    ensures c.action == MoveThenKill <==> distance <= range && damage >= health
    ensures c.action == Move ==> c.keys == [distance as real, -damage, health]
    ensures c.action == MoveThenHit ==> c.keys == [-damage, health, -(distance as real)]
    ensures c.action == MoveThenKill ==> c.keys == [-damage, -(distance as real)]
  {
    if distance > range then Candidate(Move, [distance as real, -damage, health], index)
    else if damage < health then Candidate(MoveThenHit, [-damage, health, -(distance as real)], index)
    else Candidate(MoveThenKill, [-damage, -(distance as real)], index)
  }

  /** Python's `<` on sequences of numbers: the first differing element
      decides, and a proper prefix is smaller. */
  predicate LexLess(s: seq<real>, t: seq<real>) {
    if |s| == 0 then |t| > 0
    else if |t| == 0 then false
    else s[0] < t[0] || (s[0] == t[0] && LexLess(s[1..], t[1..]))
  }

  /** The compared prefix of the heap entry. */
  function Entry(c: Candidate): seq<real> {
    [Rank(c.action) as real] + c.keys + [c.index as real]
  }

  /** `heappop` returns an entry `c` with `Entry(c) < Entry(d)` for every other `d`. */
  predicate Before(c: Candidate, d: Candidate) {
    LexLess(Entry(c), Entry(d))
  }

  lemma {:induction false} LexIrreflexive(s: seq<real>)
    ensures !LexLess(s, s)
    decreases |s|
  {
    if |s| > 0 {
      LexIrreflexive(s[1..]);
    }
  }

  lemma {:induction false} LexTransitive(s: seq<real>, t: seq<real>, u: seq<real>)
    requires LexLess(s, t) && LexLess(t, u)
    ensures LexLess(s, u)
    decreases |s|
  {
    if |s| > 0 && s[0] == t[0] && t[0] == u[0] {
      LexTransitive(s[1..], t[1..], u[1..]);
    }
  }

  /** Two different sequences are ordered one way or the other. */
  lemma {:induction false} LexTotal(s: seq<real>, t: seq<real>)
    requires s != t
    ensures LexLess(s, t) || LexLess(t, s)
    decreases |s|
  {
    if |s| > 0 && |t| > 0 && s[0] == t[0] {
      assert s == [s[0]] + s[1..] && t == [t[0]] + t[1..];
      LexTotal(s[1..], t[1..]);
    }
  }

  /** Comparing two sequences after a common first element. */
  lemma LexCons(x: real, s: seq<real>, y: real, t: seq<real>)
    ensures LexLess([x] + s, [y] + t) <==> x < y || (x == y && LexLess(s, t))
  {
    assert ([x] + s)[1..] == s && ([y] + t)[1..] == t;
  }

  /** Comparing the entries of two candidates of one action reduces to their
      keys and indices. */
  lemma {:induction false} LexAppend(s: seq<real>, a: real, t: seq<real>, b: real)
    requires |s| == |t|
    ensures LexLess(s + [a], t + [b]) <==> LexLess(s, t) || (s == t && a < b)
    decreases |s|
  {
    if |s| == 0 {
      assert s + [a] == [a] + [] && t + [b] == [b] + [];
      LexCons(a, [], b, []);
    } else {
      assert s + [a] == [s[0]] + (s[1..] + [a]) && t + [b] == [t[0]] + (t[1..] + [b]);
      LexCons(s[0], s[1..] + [a], t[0], t[1..] + [b]);
      LexAppend(s[1..], a, t[1..], b);
      LexCons(s[0], s[1..], t[0], t[1..]);
      assert s == [s[0]] + s[1..] && t == [t[0]] + t[1..];
    }
  }

  /** `Before` is a strict order on candidates with distinct indices. */
  lemma BeforeOrder(c: Candidate, d: Candidate, e: Candidate)
    ensures !Before(c, c)
    ensures Before(c, d) && Before(d, e) ==> Before(c, e)
    ensures c.index != d.index ==> Before(c, d) || Before(d, c)
  {
    LexIrreflexive(Entry(c));
    if Before(c, d) && Before(d, e) {
      LexTransitive(Entry(c), Entry(d), Entry(e));
    }
    if c.index != d.index {
      assert Entry(c)[|Entry(c)| - 1] != Entry(d)[|Entry(d)| - 1];
      LexTotal(Entry(c), Entry(d));
    }
  }

  /** A lower action always wins, whatever the keys: killing beats hitting,
      and hitting beats only moving. */
  lemma ActionFirst(c: Candidate, d: Candidate)
    requires Rank(c.action) < Rank(d.action)
    ensures Before(c, d)
  {
    LexCons(Rank(c.action) as real, c.keys + [c.index as real], Rank(d.action) as real, d.keys + [d.index as real]);
    assert Entry(c) == [Rank(c.action) as real] + (c.keys + [c.index as real]);
    assert Entry(d) == [Rank(d.action) as real] + (d.keys + [d.index as real]);
  }

  /** Within one action the keys decide, and the index breaks ties. */
  lemma SameAction(c: Candidate, d: Candidate)
    requires c.action == d.action && |c.keys| == |d.keys|
    ensures Before(c, d) <==> LexLess(c.keys, d.keys) || (c.keys == d.keys && c.index < d.index)
  {
    var r := Rank(c.action) as real;
    assert Entry(c) == [r] + (c.keys + [c.index as real]);
    assert Entry(d) == [r] + (d.keys + [d.index as real]);
    LexCons(r, c.keys + [c.index as real], r, d.keys + [d.index as real]);
    LexAppend(c.keys, c.index as real, d.keys, d.index as real);
  }

  lemma Lex2(a: real, b: real, x: real, y: real)
    ensures LexLess([a, b], [x, y]) <==> a < x || (a == x && b < y)
  {
    assert [a, b] == [a] + [b] && [x, y] == [x] + [y];
    LexCons(a, [b], x, [y]);
    LexCons(b, [], y, []);
    assert [b] == [b] + [] && [y] == [y] + [];
  }

  lemma Lex3(a: real, b: real, c: real, x: real, y: real, z: real)
    ensures LexLess([a, b, c], [x, y, z]) <==> a < x || (a == x && (b < y || (b == y && c < z)))
  {
    assert [a, b, c] == [a] + [b, c] && [x, y, z] == [x] + [y, z];
    LexCons(a, [b, c], x, [y, z]);
    Lex2(b, c, y, z);
  }

  /** Among hostile units the hunter can kill from where it stops, it prefers
      the larger damage, then the FARTHER stopping distance, then the earlier
      unit. */
  lemma KillTier(d1: real, r1: int, h1: real, d2: real, r2: int, h2: real, range: int, i: nat, j: nat)
    requires r1 <= range && d1 >= h1 && r2 <= range && d2 >= h2
    ensures Before(Classify(d1, r1, h1, range, i), Classify(d2, r2, h2, range, j)) <==>
      d1 > d2 || (d1 == d2 && (r1 > r2 || (r1 == r2 && i < j)))
  {
    var c := Classify(d1, r1, h1, range, i);
    var e := Classify(d2, r2, h2, range, j);
    SameAction(c, e);
    Lex2(-d1, -(r1 as real), -d2, -(r2 as real));
  }

  /** Among hostile units it can hit without killing, it prefers the larger
      damage, then the weaker unit, then the FARTHER stopping distance, then
      the earlier unit. */
  lemma HitTier(d1: real, r1: int, h1: real, d2: real, r2: int, h2: real, range: int, i: nat, j: nat)
    requires r1 <= range && d1 < h1 && r2 <= range && d2 < h2
    ensures Before(Classify(d1, r1, h1, range, i), Classify(d2, r2, h2, range, j)) <==>
      d1 > d2 || (d1 == d2 && (h1 < h2 || (h1 == h2 && (r1 > r2 || (r1 == r2 && i < j)))))
  {
    var c := Classify(d1, r1, h1, range, i);
    var e := Classify(d2, r2, h2, range, j);
    SameAction(c, e);
    assert c.keys == [-d1] + [h1, -(r1 as real)] && e.keys == [-d2] + [h2, -(r2 as real)];
    LexCons(-d1, [h1, -(r1 as real)], -d2, [h2, -(r2 as real)]);
    Lex2(h1, -(r1 as real), h2, -(r2 as real));
  }

  /** Among hostile units out of reach, it prefers the closer stopping
      distance, then the larger damage, then the weaker unit, then the
      earlier unit. */
  lemma MoveTier(d1: real, r1: int, h1: real, d2: real, r2: int, h2: real, range: int, i: nat, j: nat)
    requires r1 > range && r2 > range
    ensures Before(Classify(d1, r1, h1, range, i), Classify(d2, r2, h2, range, j)) <==>
      r1 < r2 || (r1 == r2 && (d1 > d2 || (d1 == d2 && (h1 < h2 || (h1 == h2 && i < j)))))
  {
    var c := Classify(d1, r1, h1, range, i);
    var e := Classify(d2, r2, h2, range, j);
    SameAction(c, e);
    Lex3(r1 as real, -d1, h1, r2 as real, -d2, h2);
  }

  /** The candidates are numbered by their position. */
  predicate Numbered(cs: seq<Candidate>) {
    forall k :: 0 <= k < |cs| ==> cs[k].index == k
  }

  /** `heappop` after pushing every candidate: the least entry, or nothing
      (the `IndexError` of an empty heap). */
  method SelectBest(cs: seq<Candidate>) returns (best: Option<nat>)
    requires Numbered(cs)
    ensures best.None? <==> |cs| == 0
    ensures best.Some? ==> (best.value < |cs| &&
      forall k :: 0 <= k < |cs| && k != best.value ==> Before(cs[best.value], cs[k]))
  {
    if |cs| == 0 {
      return None;
    }
    var b := 0;
    var k := 1;
    while k < |cs|
      invariant 0 <= b < k <= |cs|
      invariant forall j :: 0 <= j < k && j != b ==> Before(cs[b], cs[j])
    {
      BeforeOrder(cs[k], cs[b], cs[b]);
      if Before(cs[k], cs[b]) {
        forall j | 0 <= j < k && j != b ensures Before(cs[k], cs[j]) {
          BeforeOrder(cs[k], cs[b], cs[j]);
        }
        b := k;
      }
      k := k + 1;
    }
    return Some(b);
  }

  /** The least candidate is unique: no other one beats it. */
  lemma BestIsUnique(cs: seq<Candidate>, b: nat, b': nat)
    requires Numbered(cs) && b < |cs| && b' < |cs|
    requires forall k :: 0 <= k < |cs| && k != b ==> Before(cs[b], cs[k])
    requires forall k :: 0 <= k < |cs| && k != b' ==> Before(cs[b'], cs[k])
    ensures b == b'
  {
    if b != b' {
      assert Before(cs[b], cs[b']) && Before(cs[b'], cs[b]);
      BeforeOrder(cs[b], cs[b'], cs[b]);
    }
  }
}
