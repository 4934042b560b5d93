/** Experience, levelling and evolution: src/progression.ts. */
module Progression {
  import opened Numbers
  import opened Monsters

  const XP_CURVE_SPLIT: nat := 10

  /** `Math.floor(50 * level^1.5)` up to the split and `Math.floor(80 * level^1.7)` beyond it. */
  function GetXpForLevel(level: nat): nat {
    if level <= XP_CURVE_SPLIT then ScaledPower(50, 3, 2, level) else ScaledPower(80, 17, 10, level)
  }

  function Cumulative(level: nat): nat {
    if level <= 1 then 0 else Cumulative(level - 1) + GetXpForLevel(level - 1)
  }

  method CumulativeXp(level: nat) returns (total: nat)
    ensures total == Cumulative(level)
  {
    total := 0;
    var l := 1;
    while l < level
      invariant 1 <= l <= Max(1, level)
      invariant total == Cumulative(l)
    {
      total := total + GetXpForLevel(l);
      l := l + 1;
    }
  }

  datatype ProgressEvent = LevelUp(level: nat) | Evolve(stage: nat)

  datatype Progress = Progress(mon: Mon, events: seq<ProgressEvent>)

  /** The stage after reaching `level`: at most one evolution per level. */
  function NextStage(m: Mon, level: nat): nat {
    if m.ev1 > 0 && m.stage == 0 && level >= m.ev1 then 1
    else if m.ev2 > 0 && m.stage == 1 && level >= m.ev2 then 2
    else m.stage
  }

  /** One turn of the levelling loop. */
  function Raised(m: Mon, t: Template): Mon {
    var stats := StatsAtLevel(t, m.level + 1);
    m.(xp := m.xp - GetXpForLevel(m.level), level := m.level + 1, stats := stats,
       currentHP := Min(stats.hp, m.currentHP + (stats.hp - m.stats.hp)), stage := NextStage(m, m.level + 1))
  }

  function EvolveEvents(before: nat, after: nat): seq<ProgressEvent> {
    if before == after then [] else [Evolve(after)]
  }

  predicate CanLevel(m: Mon) {
    m.level < MAX_LEVEL && m.xp >= GetXpForLevel(m.level)
  }

  function LevelUps(m: Mon, t: Template): Progress
    decreases MAX_LEVEL - m.level
  {
    if CanLevel(m) then
      var up := Raised(m, t);
      var rest := LevelUps(up, t);
      Progress(rest.mon, ([LevelUp(up.level)] + EvolveEvents(m.stage, up.stage)) + rest.events)
    else Progress(m, [])
  }

  function Grant(m: Mon, amount: int, t: Template): Progress {
    LevelUps(m.(xp := m.xp + amount), t)
  }

  method GrantXp(mon: MonsterInstance, amount: int, t: Template) returns (events: seq<ProgressEvent>)
    modifies mon
    ensures Progress(mon.Value(), events) == Grant(old(mon.Value()), amount, t)
  {
    mon.xp := mon.xp + amount;
    events := [];
    ghost var goal := LevelUps(mon.Value(), t);
    while mon.xp >= GetXpForLevel(mon.level) && mon.level < MAX_LEVEL
      invariant LevelUps(mon.Value(), t).mon == goal.mon
      invariant events + LevelUps(mon.Value(), t).events == goal.events
      decreases MAX_LEVEL - mon.level
    {
      ghost var before := mon.Value();
      var raised := RaiseLevel(mon, t);
      ghost var rest := LevelUps(mon.Value(), t).events;
      assert events + (raised + rest) == (events + raised) + rest;
      events := events + raised;
    }
  }

  /** The body of the levelling loop. */
  method RaiseLevel(mon: MonsterInstance, t: Template) returns (events: seq<ProgressEvent>)
    modifies mon
    ensures mon.Value() == Raised(old(mon.Value()), t)
    ensures events == [LevelUp(mon.level)] + EvolveEvents(old(mon.stage), mon.stage)
  {
    hide StatsAtLevel, GetXpForLevel;
    mon.xp := mon.xp - GetXpForLevel(mon.level);
    mon.level := mon.level + 1;
    var oldHp := mon.stats.hp;
    mon.stats := StatsAtLevel(t, mon.level);
    mon.currentHP := Min(mon.stats.hp, mon.currentHP + (mon.stats.hp - oldHp));
    events := [LevelUp(mon.level)];
    if mon.ev1 > 0 && mon.stage == 0 && mon.level >= mon.ev1 {
      mon.stage := 1;
      events := events + [Evolve(1)];
    } else if mon.ev2 > 0 && mon.stage == 1 && mon.level >= mon.ev2 {
      mon.stage := 2;
      events := events + [Evolve(2)];
    }
  }

  // ---- Rewards -------------------------------------------------------------------------------

  function RookieMultiplier(level: nat): real {
    if level < 30 then 4.0 else if level < 45 then 2.5 else 1.8
  }

  function WildXpReward(leadLevel: nat, wildLevel: nat, buff: real): (xp: int)
    ensures xp >= 12
  {
    var slope := 1.0 - (leadLevel - wildLevel) as real * 0.02;
    var levelDiff := if slope < 0.4 then 0.4 else slope;
    Max(12, ((5.0 + wildLevel as real * 2.5) * levelDiff * RookieMultiplier(leadLevel) * buff).Floor)
  }

  function GymXpReward(memberLevel: nat, teamSize: nat, buff: real): (xp: int)
    ensures buff >= 0.0 ==> xp >= 0
  {
    var base := (15 + teamSize * 8) as real * RookieMultiplier(memberLevel);
    (base * buff).Floor
  }
}
