/** Species, owned monsters and their stats: src/types.ts, src/stats.ts and src/power.ts. */
module Monsters {
  import opened Numbers
  import opened Wrappers

  datatype Element =
    | Normal | Fire | Water | Grass | Electric | Ice | Fighting | Poison | Ground
    | Flying | Psychic | Bug | Rock | Ghost | Dragon | Dark | Steel

  datatype Rarity = Common | Rare | Legendary

  datatype Stats = Stats(hp: int, atk: int, def: int, spd: int)

  datatype Move = Move(id: int, element: Element, power: int, acc: int, status: Option<string>, effChance: int)

  /** A species. The evolution levels `ev1` and `ev2` are 0 where the source has null, undefined or 0. */
  datatype Template = Template(
    id: int, element: Element, base: Stats, stage1: Option<Stats>, stage2: Option<Stats>,
    ev1: nat, ev2: nat, rarity: Option<Rarity>)

  /** The value of an owned or wild monster. `moves` is the cache that battles fill lazily. */
  datatype Mon = Mon(
    templateId: int, element: Element, level: nat, xp: int, stage: nat, stats: Stats, currentHP: int,
    ev1: nat, ev2: nat, rarity: Option<Rarity>, affection: real, moves: Option<seq<Move>>)

  const MAX_LEVEL: nat := 55
  const GROWTH_SPAN := 49
  const POWER_LEVEL_WEIGHT := 3

  // ---- Stats ---------------------------------------------------------------------------------

  function InterpStat(base: int, target: int, level: nat): int {
    base + ((target - base) * Min(GROWTH_SPAN, Max(0, level - 1))) / GROWTH_SPAN
  }

  function TargetStatsFor(t: Template): Stats {
    if t.stage2.Some? then t.stage2.value else if t.stage1.Some? then t.stage1.value else t.base
  }

  function StatsAtLevel(t: Template, level: nat): Stats {
    var target := TargetStatsFor(t);
    Stats(InterpStat(t.base.hp, target.hp, level), InterpStat(t.base.atk, target.atk, level),
          InterpStat(t.base.def, target.def, level), InterpStat(t.base.spd, target.spd, level))
  }

  function StageForLevel(t: Template, level: nat): nat {
    if t.ev2 > 0 && level >= t.ev2 then 2 else if t.ev1 > 0 && level >= t.ev1 then 1 else 0
  }

  function StatAtLevel(base: int, level: nat, isHP: bool): int {
    var b, l := Max(1, base), Max(1, level);
    var core := (2 * b * l) / 100;
    if isHP then core + l + 10 else core + 5
  }

  function FromTemplate(t: Template, level: nat, stats: Stats): Mon {
    Mon(t.id, t.element, level, 0, StageForLevel(t, level), stats, stats.hp, t.ev1, t.ev2, t.rarity, 0.0, None)
  }

  /** A fresh, full-HP monster on the interpolation model. */
  function CreateMonster(t: Template, level: nat): Mon {
    FromTemplate(t, level, StatsAtLevel(t, level))
  }

  /** A gym leader's monster, on the other stat model. */
  function MakeCombatant(t: Template, level: nat): (m: Mon)
    ensures m.stats.hp >= 11 && m.level == level
  {
    CombatantHP(t.base.hp, level);
    FromTemplate(t, level, Stats(
                   StatAtLevel(t.base.hp, level, true), StatAtLevel(t.base.atk, level, false),
                   StatAtLevel(t.base.def, level, false), StatAtLevel(t.base.spd, level, false)))
  }

  lemma CombatantHP(base: int, level: nat)
    ensures StatAtLevel(base, level, true) >= 11
  {
    var b, l := Max(1, base), Max(1, level);
    MulMono(0, b, 0, l);
    assert 2 * b * l == 2 * (b * l);
  }

  /** A leader's stat: a fiftieth of base times level, both at least 1, rounded down, and a bonus. */
  predicate LeaderStat(base: int, level: nat, bonus: nat, s: int) {
    100 * (s - bonus) <= 2 * Max(1, base) * Max(1, level) < 100 * (s - bonus + 1)
  }

  /** A leader's monster has each stat of its own base, HP with level and ten on top and the others with five. */
  lemma CombatantStats(t: Template, level: nat)
    ensures var m := MakeCombatant(t, level);
            && m.templateId == t.id && m.element == t.element && m.level == level && m.currentHP == m.stats.hp
            && LeaderStat(t.base.hp, level, Max(1, level) + 10, m.stats.hp)
            && LeaderStat(t.base.atk, level, 5, m.stats.atk)
            && LeaderStat(t.base.def, level, 5, m.stats.def)
            && LeaderStat(t.base.spd, level, 5, m.stats.spd)
  {
    StatIsLeader(t.base.hp, level, true);
    StatIsLeader(t.base.atk, level, false);
    StatIsLeader(t.base.def, level, false);
    StatIsLeader(t.base.spd, level, false);
    hide StatAtLevel, LeaderStat;
  }

  lemma StatIsLeader(base: int, level: nat, isHP: bool)
    ensures LeaderStat(base, level, if isHP then Max(1, level) + 10 else 5, StatAtLevel(base, level, isHP))
  {
  }

  /** Every stat target is at least the base stat, as in a roster whose evolutions never weaken. */
  predicate Growing(t: Template) {
    var target := TargetStatsFor(t);
    && t.base.hp >= 0
    && target.hp >= t.base.hp
    && target.atk >= t.base.atk
    && target.def >= t.base.def
    && target.spd >= t.base.spd
  }

  lemma InterpMono(base: int, target: int, low: nat, high: nat)
    requires low <= high && base <= target
    ensures base <= InterpStat(base, target, low) <= InterpStat(base, target, high) <= target
  {
    var d := target - base;
    var p, q := Min(GROWTH_SPAN, Max(0, low - 1)), Min(GROWTH_SPAN, Max(0, high - 1));
    MulMono(d, d, p, q);
    MulMono(d, d, q, GROWTH_SPAN);
    assert (d * GROWTH_SPAN) / GROWTH_SPAN == d;
  }

  lemma StatsGrow(t: Template, low: nat, high: nat)
    requires Growing(t) && low <= high
    ensures var s, s' := StatsAtLevel(t, low), StatsAtLevel(t, high);
            0 <= s.hp <= s'.hp && s.atk <= s'.atk && s.def <= s'.def && s.spd <= s'.spd
  {
    var target := TargetStatsFor(t);
    InterpMono(t.base.hp, target.hp, low, high);
    InterpMono(t.base.atk, target.atk, low, high);
    InterpMono(t.base.def, target.def, low, high);
    InterpMono(t.base.spd, target.spd, low, high);
  }

  // ---- Power ---------------------------------------------------------------------------------

  function RarityBonus(r: Option<Rarity>): int {
    match r
    case None => 0
    case Some(Common) => 0
    case Some(Rare) => 100
    case Some(Legendary) => 200
  }

  function Power(m: Mon): int {
    m.stats.hp + m.stats.atk + m.stats.def + m.stats.spd
    + (if m.level == 0 then 1 else m.level) * POWER_LEVEL_WEIGHT + RarityBonus(m.rarity)
  }

  /** The four stats, three per level and 100 or 200 for rarity. */
  lemma PowerIs(m: Mon)
    ensures var stats := m.stats.hp + m.stats.atk + m.stats.def + m.stats.spd + 3 * Max(1, m.level);
            && (m.rarity == Some(Rare) ==> Power(m) == stats + 100)
            && (m.rarity == Some(Legendary) ==> Power(m) == stats + 200)
            && (m.rarity == None || m.rarity == Some(Common) ==> Power(m) == stats)
  {
  }

  // ---- The mutable monster -------------------------------------------------------------------

  class MonsterInstance {
    const templateId: int
    const element: Element
    const ev1: nat
    const ev2: nat
    var level: nat
    var xp: int
    var stage: nat
    var stats: Stats
    var currentHP: int
    var rarity: Option<Rarity>
    var affection: real
    var moves: Option<seq<Move>>

    constructor (m: Mon)
      ensures Value() == m
    {
      templateId, element, ev1, ev2 := m.templateId, m.element, m.ev1, m.ev2;
      level, xp, stage, stats, currentHP := m.level, m.xp, m.stage, m.stats, m.currentHP;
      rarity, affection, moves := m.rarity, m.affection, m.moves;
    }

    function Value(): Mon
      reads this
    {
      Mon(templateId, element, level, xp, stage, stats, currentHP, ev1, ev2, rarity, affection, moves)
    }
  }

  /** The values of a list of monsters, in order. */
  function Values(ms: seq<MonsterInstance>): (vs: seq<Mon>)
    reads ms
    ensures |vs| == |ms|
    ensures forall i | 0 <= i < |ms| :: vs[i] == ms[i].Value()
  {
    seq(|ms|, i requires 0 <= i < |ms| reads ms => ms[i].Value())
  }

  ghost predicate Distinct<T>(s: seq<T>) {
    forall i, j | 0 <= i < j < |s| :: s[i] != s[j]
  }

  /** Where an element of a list stands last. */
  function LastIndex<T(==)>(s: seq<T>, x: T): (i: nat)
    requires x in s
    ensures i < |s| && s[i] == x
    ensures forall j | i < j < |s| :: s[j] != x
  {
    var last := |s| - 1;
    if s[last] == x then last
    else
      assert s == s[..last] + [s[last]];
      LastIndex(s[..last], x)
  }
}
