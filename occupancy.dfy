/** The per-faction occupancy maps `blue_unit_by_coordinate` and
    `red_unit_by_coordinate`: Python dictionaries from a tile to the unit
    standing on it. Their insertion order matters, because `hunt` numbers
    the hostile units in the order `values()` yields them. */
module Occupancy {
  import opened Grid

  /** The identity of a unit object. */
  type UnitId = nat

  /** A dictionary: the mapping and the order in which its keys were inserted. */
  datatype Occ = Occ(at: map<Coord, UnitId>, order: seq<Coord>)

  const Empty: Occ := Occ(map[], [])

  /** The order lists every key exactly once. */
  predicate Valid(o: Occ) {
    (forall c {:trigger c in o.order} :: c in o.at ==> c in o.order) && (forall c :: c in o.order ==> c in o.at) && Distinct(o.order)
  }

  lemma EmptyValid()
    ensures Valid(Empty) && Empty.at == map[]
  {
  }

  /** `d[c] = id`: an existing key keeps its place, a new key goes last. */
  function Put(o: Occ, c: Coord, id: UnitId): (r: Occ)
    requires Valid(o)
    ensures Valid(r) && r.at == o.at[c := id]
    ensures c in o.at ==> r.order == o.order
    ensures c !in o.at ==> r.order == o.order + [c]
  {
    if c in o.at then Occ(o.at[c := id], o.order)
    else DistinctAppend(o.order, c); Occ(o.at[c := id], o.order + [c])
  }

  lemma {:induction false} DistinctAppend(s: seq<Coord>, c: Coord)
    requires Distinct(s) && c !in s
    ensures Distinct(s + [c])
  {
    if |s| > 0 {
      assert (s + [c])[1..] == s[1..] + [c];
      DistinctAppend(s[1..], c);
    } else {
      assert (s + [c])[1..] == [];
    }
  }

  /** The order without `c`. */
  function Without(s: seq<Coord>, c: Coord): (r: seq<Coord>)
    ensures forall x :: x in r <==> x in s && x != c
    ensures Distinct(s) ==> Distinct(r)
    ensures c !in s ==> r == s
  {
    if |s| == 0 then []
    else if s[0] == c then Without(s[1..], c)
    else
      var rest := Without(s[1..], c);
      assert ([s[0]] + rest)[1..] == rest;
      [s[0]] + rest
  }

  lemma {:induction false} WithoutAppend(s: seq<Coord>, x: Coord, c: Coord)
    ensures Without(s + [x], c) == Without(s, c) + (if x == c then [] else [x])
  {
    if |s| > 0 {
      assert (s + [x])[1..] == s[1..] + [x];
      WithoutAppend(s[1..], x, c);
    } else {
      assert s + [x] == [x];
    }
  }

  /** `del d[c]`: the other keys keep their relative order. */
  function Del(o: Occ, c: Coord): (r: Occ)
    requires Valid(o)
    ensures Valid(r) && r.at == o.at - {c}
    ensures c !in o.at ==> r == o
  {
    Occ(o.at - {c}, Without(o.order, c))
  }

  /** Setting a new key and deleting it again gives back the dictionary,
      order included. */
  lemma PutThenDel(o: Occ, c: Coord, id: UnitId)
    requires Valid(o) && c !in o.at
    ensures Del(Put(o, c, id), c) == o
  {
    WithoutAppend(o.order, c, c);
    assert o.at[c := id] - {c} == o.at;
  }

  /** `d.values()`, in insertion order. */
  function Values(o: Occ): (vs: seq<UnitId>)
    requires Valid(o)
    ensures |vs| == |o.order|
    ensures forall i :: 0 <= i < |vs| ==> vs[i] == o.at[o.order[i]]
  {
    ValuesOf(o.at, o.order)
  }

  function ValuesOf(at: map<Coord, UnitId>, keys: seq<Coord>): (vs: seq<UnitId>)
    requires forall k :: k in keys ==> k in at
    ensures |vs| == |keys|
    ensures forall i :: 0 <= i < |vs| ==> vs[i] == at[keys[i]]
  {
    if |keys| == 0 then [] else ValuesOf(at, keys[..|keys| - 1]) + [at[keys[|keys| - 1]]]
  }

  /** The ids the map holds. */
  function Ids(o: Occ): set<UnitId> {
    set c | c in o.at :: o.at[c]
  }

  /** `values()` yields exactly the ids the map holds, and an empty map
      yields nothing. */
  lemma ValuesAreIds(o: Occ)
    requires Valid(o)
    ensures forall id :: id in Values(o) <==> id in Ids(o)
    ensures |Values(o)| == 0 <==> o.at == map[]
  {
    var vs := Values(o);
    forall id | id in Ids(o) ensures id in vs {
      var c :| c in o.at && o.at[c] == id;
      assert c in o.order;
      var i :| 0 <= i < |o.order| && o.order[i] == c;
      assert vs[i] == id;
    }
    if o.at != map[] {
      var c :| c in o.at;
      assert c in o.order;
    }
    if |vs| != 0 {
      assert o.order[0] in o.at;
    }
  }

  /** Registering at a free tile appends the unit to the enumeration. */
  lemma PutFreshValues(o: Occ, c: Coord, id: UnitId)
    requires Valid(o) && c !in o.at
    ensures Values(Put(o, c, id)) == Values(o) + [id]
  {
  }

  /** Deleting a key and setting another one moves the unit to the end of
      the enumeration, as `Soldier.move_to` does even when it stays put. */
  lemma RekeyValues(o: Occ, c: Coord, c': Coord, id: UnitId)
    requires Valid(o) && c in o.at && o.at[c] == id && (c' == c || c' !in o.at)
    ensures Put(Del(o, c), c', id).order == Without(o.order, c) + [c']
    ensures Values(Put(Del(o, c), c', id)) == Values(Del(o, c)) + [id]
  {
    PutFreshValues(Del(o, c), c', id);
  }
}
