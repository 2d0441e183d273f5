/** Units of the board: the stat tables of the soldier and building
    classes, the unit records the models keep, the damage formula, the
    experience loop of `_learn` and healing. Attack, defense, health and
    multipliers are exact reals. */
module Units {
  import opened Grid
  import opened Wrappers

  datatype Faction = Blue | Red

  /** The soldier classes; `Archer` and `Cavalry` are defined outside this model. */
  datatype SoldierKind = Hero | Infantry | Archer | Cavalry

  datatype BuildingKind = PlainBuilding | Wall | Barrack

  /** The class of a unit, by which `attack_multipliers` is keyed: the
      table's keys are class names, so a building class may carry an entry
      as well as a soldier class. */
  datatype UnitClass = OfSoldier(soldier: SoldierKind) | OfBuilding(building: BuildingKind)

  /** The class-level attributes of a `SoldierModel` subclass. The
      multiplier table is keyed by the defender's class. */
  datatype SoldierClass = SoldierClass(attack: real, multipliers: map<UnitClass, real>, range: nat,
                                       defense: real, health: real, mobility: nat, cost: nat)

  /** `SoldierModel`'s own defaults. */
  const BaseSoldierClass: SoldierClass := SoldierClass(30.0, map[], 1, 0.15, 100.0, 2, 10)

  /** `HeroModel`: 1.5 against the three common classes, reach 2, mobility 4,
      a cost no coin reserve meets. */
  const HeroClass: SoldierClass :=
    BaseSoldierClass.(multipliers := map[OfSoldier(Archer) := 1.5, OfSoldier(Cavalry) := 1.5, OfSoldier(Infantry) := 1.5],
                      range := 2, defense := 0.30, mobility := 4, cost := 65535)

  /** `InfantryModel`: weak against archers and heroes, strong against cavalry. */
  const InfantryClass: SoldierClass :=
    BaseSoldierClass.(multipliers := map[OfSoldier(Archer) := 0.7, OfSoldier(Cavalry) := 1.5, OfSoldier(Hero) := 0.7], defense := 0.30)

  /** The classes whose definitions this model does not see. */
  datatype Roster = Roster(archer: SoldierClass, cavalry: SoldierClass)

  function ClassOf(roster: Roster, kind: SoldierKind): SoldierClass {
    match kind
    case Hero => HeroClass
    case Infantry => InfantryClass
    case Archer => roster.archer
    case Cavalry => roster.cavalry
  }

  /** What the board needs of a soldier class: it moves at least one tile
      and neither its attack nor its multipliers are negative. */
  predicate SaneClass(c: SoldierClass) {
    c.mobility >= 1 && c.attack >= 0.0 && c.health >= 0.0 &&
    forall k :: k in c.multipliers ==> c.multipliers[k] >= 0.0
  }

  predicate SaneRoster(roster: Roster) {
    SaneClass(roster.archer) && SaneClass(roster.cavalry)
  }

  /** The class-level attributes of a `BuildingModel` subclass. */
  datatype BuildingClass = BuildingClass(defense: real, health: real)

  const PlainBuildingClass: BuildingClass := BuildingClass(0.4, 400.0)
  const WallClass: BuildingClass := BuildingClass(0.5, 100.0)

  /** `BarrackModel` adds nothing to `BuildingModel`. */
  function BuildingClassOf(kind: BuildingKind): BuildingClass {
    match kind
    case Wall => WallClass
    case _ => PlainBuildingClass
  }

  /** The mutable state of a unit model. A soldier's attack and defense start
      at its class values and grow with its level. */
  datatype Unit =
    | Soldier(kind: SoldierKind, faction: Faction, pos: Coord, level: int, experience: int,
              attack: real, defense: real, health: real, maxHealth: real, moved: bool, attacked: bool)
    | Building(bkind: BuildingKind, pos: Coord, defense: real, health: real)

  /** `type(unit).__name__`, as a class. */
  function ClassName(u: Unit): UnitClass {
    if u.Soldier? then OfSoldier(u.kind) else OfBuilding(u.bkind)
  }

  /** Buildings belong to the blue faction. */
  function FactionOf(u: Unit): Faction {
    if u.Soldier? then u.faction else Blue
  }

  /** `SoldierModel.__init__`: class stats, no experience, full health, fresh flags. */
  function NewSoldier(roster: Roster, kind: SoldierKind, faction: Faction, pos: Coord, level: int): (u: Unit)
    ensures u.Soldier? && u.kind == kind && u.faction == faction && u.pos == pos && u.level == level
    ensures u.experience == 0 && !u.moved && !u.attacked
    ensures u.health == u.maxHealth == ClassOf(roster, kind).health
    ensures u.attack == ClassOf(roster, kind).attack && u.defense == ClassOf(roster, kind).defense
  {
    var c := ClassOf(roster, kind);
    Soldier(kind, faction, pos, level, 0, c.attack, c.defense, c.health, c.health, false, false)
  }

  function NewBuilding(kind: BuildingKind, pos: Coord): (u: Unit)
    ensures u.Building? && u.bkind == kind && u.pos == pos
    ensures u.health == ReportedMaxHealth(u) && u.defense == BuildingClassOf(kind).defense
  {
    var c := BuildingClassOf(kind);
    Building(kind, pos, c.defense, c.health)
  }

  /** `BuildingModel.get_data` reports the class health as the maximum. */
  function ReportedMaxHealth(u: Unit): real
    requires u.Building?
  {
    BuildingClassOf(u.bkind).health
  }

  /** The reported maximum of a building depends on its class alone, never
      on the damage it has taken. */
  lemma ReportedMaxHealthIgnoresDamage(u: Unit, h: real)
    requires u.Building?
    ensures ReportedMaxHealth(WithHealth(u, h)) == ReportedMaxHealth(u) == BuildingClassOf(u.bkind).health
    ensures u.bkind == Wall ==> ReportedMaxHealth(u) == 100.0
    ensures u.bkind != Wall ==> ReportedMaxHealth(u) == 400.0
  {
  }

  // ---------------------------------------------------------------------
  // Stat tables

  lemma HeroStats(roster: Roster)
    ensures ClassOf(roster, Hero).range == 2 && ClassOf(roster, Hero).mobility == 4
    ensures ClassOf(roster, Hero).defense == 0.30 && ClassOf(roster, Hero).cost == 65535
    ensures ClassOf(roster, Hero).attack == 30.0 && ClassOf(roster, Hero).health == 100.0
    ensures SaneClass(ClassOf(roster, Hero))
  {
  }

  lemma InfantryStats(roster: Roster)
    ensures ClassOf(roster, Infantry).defense == 0.30
    ensures ClassOf(roster, Infantry).range == 1 && ClassOf(roster, Infantry).mobility == 2
    ensures ClassOf(roster, Infantry).attack == 30.0 && ClassOf(roster, Infantry).health == 100.0
    ensures ClassOf(roster, Infantry).cost == 10
    ensures SaneClass(ClassOf(roster, Infantry))
  {
  }

  lemma BuildingStats()
    ensures BuildingClassOf(PlainBuilding) == BuildingClassOf(Barrack) == BuildingClass(0.4, 400.0)
    ensures BuildingClassOf(Wall) == BuildingClass(0.5, 100.0)
  {
  }

  // ---------------------------------------------------------------------
  // Damage

  /** `attack_multipliers.get(type(hostile).__name__, 1.0)`: a class
      missing from the table, soldier or building, takes the default. */
  function Multiplier(c: SoldierClass, target: Unit): (m: real)
    ensures ClassName(target) in c.multipliers ==> m == c.multipliers[ClassName(target)]
    ensures ClassName(target) !in c.multipliers ==> m == 1.0
    ensures SaneClass(c) ==> m >= 0.0
  {
    var k := ClassName(target);
    if k in c.multipliers then c.multipliers[k] else 1.0
  }

  lemma HeroMultipliers(roster: Roster, target: Unit)
    ensures target.Soldier? && target.kind != Hero ==> Multiplier(ClassOf(roster, Hero), target) == 1.5
    ensures target.Building? || target.kind == Hero ==> Multiplier(ClassOf(roster, Hero), target) == 1.0
  {
  }

  lemma InfantryMultipliers(roster: Roster, target: Unit)
    ensures target.Soldier? && target.kind in {Archer, Hero} ==> Multiplier(ClassOf(roster, Infantry), target) == 0.7
    ensures target.Soldier? && target.kind == Cavalry ==> Multiplier(ClassOf(roster, Infantry), target) == 1.5
    ensures target.Building? || target.kind == Infantry ==> Multiplier(ClassOf(roster, Infantry), target) == 1.0
  {
  }

  /** The blow before it is capped by the defender's health. */
  function RawDamage(roster: Roster, attacker: Unit, target: Unit): real
    requires attacker.Soldier?
  {
    attacker.attack * Multiplier(ClassOf(roster, attacker.kind), target) * (1.0 - target.defense)
  }

  /** `get_damage_output_against`: the blow, capped at the defender's health. */
  function Damage(roster: Roster, attacker: Unit, target: Unit): (d: real)
    requires attacker.Soldier?
    ensures d <= target.health && d <= RawDamage(roster, attacker, target)
    ensures d == target.health || d == RawDamage(roster, attacker, target)
  {
    var raw := RawDamage(roster, attacker, target);
    if raw < target.health then raw else target.health
  }

  /** The same unit with its health set to `h`. */
  function WithHealth(u: Unit, h: real): (v: Unit)
    ensures v.health == h && v.pos == u.pos && v.Soldier? == u.Soldier? && FactionOf(v) == FactionOf(u)
    ensures v.Soldier? ==> v.kind == u.kind && v.level == u.level && v.experience == u.experience &&
                           v.maxHealth == u.maxHealth && v.moved == u.moved && v.attacked == u.attacked
    ensures v.Building? ==> v.bkind == u.bkind && v.defense == u.defense
  {
    match u
    case Soldier(k, f, p, l, e, a, d, _, mh, mv, at) => Soldier(k, f, p, l, e, a, d, h, mh, mv, at)
    case Building(b, p, d, _) => Building(b, p, d, h)
  }

  /** The defender after a blow of `d`. */
  function Hit(target: Unit, d: real): Unit {
    WithHealth(target, target.health - d)
  }

  /** A blow never drives health below zero, and it leaves zero exactly
      when the uncapped blow reaches the defender's health. */
  lemma DamageBounds(roster: Roster, attacker: Unit, target: Unit)
    requires attacker.Soldier?
    ensures var h := Hit(target, Damage(roster, attacker, target)).health;
      0.0 <= h && (h == 0.0 <==> RawDamage(roster, attacker, target) >= target.health)
  {
  }

  lemma DamageNonNegative(roster: Roster, attacker: Unit, target: Unit)
    requires attacker.Soldier? && attacker.attack >= 0.0 && SaneClass(ClassOf(roster, attacker.kind))
    requires target.defense <= 1.0 && target.health >= 0.0
    ensures 0.0 <= Damage(roster, attacker, target)
    ensures Hit(target, Damage(roster, attacker, target)).health <= target.health
  {
    var m := Multiplier(ClassOf(roster, attacker.kind), target);
    assert m >= 0.0;
    var a := attacker.attack * m;
    assert a >= 0.0 by { MulNonNeg(attacker.attack, m); }
    MulNonNeg(a, 1.0 - target.defense);
  }

  lemma MulNonNeg(a: real, b: real)
    requires a >= 0.0 && b >= 0.0
    ensures a * b >= 0.0
  {
  }

  // ---------------------------------------------------------------------
  // Experience

  /** `LEVEL_UP_EXPERIENCE_BY_LEVEL`; any other level is missing from it. */
  function Threshold(level: int): (t: Option<int>)
    ensures t.Some? <==> 1 <= level <= 5
    ensures t.Some? ==> t.value >= 5
  {
    if level == 1 then Some(5)
    else if level == 2 then Some(7)
    else if level == 3 then Some(9)
    else if level == 4 then Some(11)
    else if level == 5 then Some(65535)
    else None
  }

  /** A soldier whose experience sits below the threshold of its level. */
  predicate Settled(u: Unit) {
    u.Soldier? && Threshold(u.level).Some? && 0 <= u.experience < Threshold(u.level).value
  }

  /** One crossing of the threshold `t`, applied in the order of the source:
      experience, level, attack, defense, health from the old maximum, and
      the maximum last. */
  function LevelUp(u: Unit, t: int): Unit
    requires u.Soldier?
  {
    u.(experience := u.experience - t, level := u.level + 1, attack := u.attack * 1.2,
       defense := u.defense + 0.05, health := u.health + u.maxHealth * 0.1,
       maxHealth := u.maxHealth * 1.1)
  }

  /** Where the levelling loop stops: the soldier, and whether the lookup
      of its level's threshold raised `KeyError` (a level outside 1..5). */
  datatype Learned = Learned(unit: Unit, raised: bool)

  /** Two units that differ at most in experience, level and the stats a
      level-up raises. */
  predicate SameSoldier(u: Unit, v: Unit) {
    u.Soldier? && v.Soldier? && u.kind == v.kind && u.faction == v.faction && u.pos == v.pos &&
    u.moved == v.moved && u.attacked == v.attacked
  }

  /** The `while` of `_learn`, as a function of the soldier after it gained
      its experience. */
  function Settle(u: Unit): (r: Learned)
    requires u.Soldier?
    ensures SameSoldier(u, r.unit) && r.unit.level >= u.level
    ensures r.raised <==> Threshold(r.unit.level).None?
    ensures !r.raised ==> r.unit.experience < Threshold(r.unit.level).value
    ensures u.experience >= 0 ==> r.unit.experience >= 0
    ensures u.health <= u.maxHealth ==> r.unit.health <= r.unit.maxHealth
    ensures 0.0 <= u.health && 0.0 <= u.maxHealth ==> 0.0 <= r.unit.health && 0.0 <= r.unit.maxHealth
    ensures r.unit.level == u.level ==> r.unit == u
    decreases u.experience
  {
    match Threshold(u.level)
    case None => Learned(u, true)
    case Some(t) => if u.experience >= t then Settle(LevelUp(u, t)) else Learned(u, false)
  }

  /** `_learn`: add the experience, then level up while the threshold of
      the current level is met. */
  method Learn(u: Unit, gained: int) returns (r: Learned)
    requires u.Soldier?
    ensures r == Settle(u.(experience := u.experience + gained))
  {
    var v := u.(experience := u.experience + gained);
    while Threshold(v.level).Some? && v.experience >= Threshold(v.level).value
      invariant v.Soldier? && Settle(v) == Settle(u.(experience := u.experience + gained))
      decreases v.experience
    {
      v := LevelUp(v, Threshold(v.level).value);
    }
    r := Learned(v, Threshold(v.level).None?);
  }

  /** One point of experience keeps a settled soldier settled, raising one
      level exactly when it completes the threshold; only a level 5 soldier
      at 65534 points runs past the table. */
  lemma LearnOne(u: Unit)
    requires Settled(u)
    ensures var r := Settle(u.(experience := u.experience + 1));
      (r.raised <==> u.level == 5 && u.experience == 65534) &&
      (!r.raised ==> Settled(r.unit)) &&
      (u.experience + 1 < Threshold(u.level).value ==> r.unit == u.(experience := u.experience + 1)) &&
      (u.experience + 1 == Threshold(u.level).value ==>
         r.unit == LevelUp(u.(experience := u.experience + 1), Threshold(u.level).value))
  {
    var v := u.(experience := u.experience + 1);
    var t := Threshold(u.level).value;
    if v.experience == t {
      var w := LevelUp(v, t);
      assert w.experience == 0;
      assert Settle(v) == Settle(w);
      if u.level < 5 {
        assert Threshold(w.level).Some?;
        assert Settle(w) == Learned(w, false);
      } else {
        assert Settle(w) == Learned(w, true);
      }
    } else {
      assert Settle(v) == Learned(v, false);
    }
  }

  // ---------------------------------------------------------------------
  // Healing

  /** `restore_health_by`: heal by `amount`, never past the maximum. */
  function RestoreHealth(u: Unit, amount: real): (v: Unit)
    requires u.Soldier?
    ensures v == WithHealth(u, v.health)
    ensures u.health + amount <= u.maxHealth ==> v.health == u.health + amount
    ensures u.health + amount >= u.maxHealth ==> v.health == u.maxHealth
    ensures amount >= 0.0 && u.health <= u.maxHealth ==> u.health <= v.health
  {
    var h := u.health + amount;
    WithHealth(u, if h < u.maxHealth then h else u.maxHealth)
  }
}
