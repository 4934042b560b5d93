/** What levelling promises: the curve, the bookkeeping of XP and HP, and when stages stay in step. */
module ProgressionLaws {
  import opened Numbers
  import opened Monsters
  import opened Progression

  // ---- The curve -----------------------------------------------------------------------------

  /** The two floors, without powers of fractions. */
  lemma CurveIsExact(level: nat)
    ensures var n := GetXpForLevel(level);
            if level <= 10 then n * n <= 2500 * (level * level * level) < (n + 1) * (n + 1)
            else Pow(n, 10) <= Pow(80, 10) * Pow(level, 17) < Pow(n + 1, 10)
  {
    var n := GetXpForLevel(level);
    if level <= 10 {
      Square(n);
      Square(n + 1);
      Cube(level);
      assert Pow(50, 2) == 2500;
    }
  }

  lemma Square(n: nat)
    ensures Pow(n, 2) == n * n
  {
    assert Pow(n, 2) == n * Pow(n, 1) && Pow(n, 1) == n * Pow(n, 0);
  }

  lemma Cube(n: nat)
    ensures Pow(n, 3) == n * n * n
  {
    Square(n);
    assert n * (n * n) == n * n * n;
  }

  /** The curve is positive and strictly increasing at every level, also across the split. */
  lemma CurveIncreases(level: nat)
    requires level >= 1
    ensures 0 < GetXpForLevel(level) < GetXpForLevel(level + 1)
  {
    if level <= XP_CURVE_SPLIT {
      ScaledPowerAtLeastLevel(50, 3, 2, level);
      ScaledPowerIncreases(50, 3, 2, level);
      if level == XP_CURVE_SPLIT {
        AcrossTheSplit();
      }
    } else {
      ScaledPowerAtLeastLevel(80, 17, 10, level);
      ScaledPowerIncreases(80, 17, 10, level);
    }
  }

  /** 50 * 10^1.5 < 1600 and 80 * 11^1.7 >= 80 * 33. */
  lemma AcrossTheSplit()
    ensures GetXpForLevel(10) < GetXpForLevel(11)
  {
    Square(50);
    Cube(10);
    Square(1600);
    if ScaledPower(50, 3, 2, 10) >= 1600 {
      PowMono(1600, ScaledPower(50, 3, 2, 10), 2);
    }
    Square(33);
    Cube(11);
    PowOfPower(33, 2, 5);
    PowOfPower(11, 3, 5);
    PowMono(1089, 1331, 5);
    PowOfSum(11, 15, 2);
    Square(11);
    MulMono(Pow(11, 15), Pow(11, 15), 1, 121);
    MulMono(Pow(80, 10), Pow(80, 10), Pow(33, 10), Pow(11, 17));
    PowOfProduct(80, 33, 10);
    RootAtLeast(10, Pow(80, 10) * Pow(11, 17), 80 * 33);
  }

  lemma {:induction false} PowOfPower(b: nat, d: nat, e: nat)
    ensures Pow(Pow(b, d), e) == Pow(b, d * e)
  {
    if e > 0 {
      PowOfPower(b, d, e - 1);
      PowOfSum(b, d, d * (e - 1));
      assert d + d * (e - 1) == d * e;
    }
  }

  lemma {:induction false} CumulativeIncreases(low: nat, high: nat)
    requires 1 <= low < high
    ensures Cumulative(low) < Cumulative(high)
  {
    CurveIncreases(high - 1);
    hide GetXpForLevel;
    if low < high - 1 {
      CumulativeIncreases(low, high - 1);
    }
  }

  // ---- Stats ---------------------------------------------------------------------------------

  /** `s` is `k` 49ths of the way from `base` to `target`, rounded down; `k` counts the levels above 1 up to 49. */
  predicate OnLine(base: int, target: int, level: nat, s: int) {
    var k := Min(49, Max(0, level - 1));
    49 * (s - base) <= (target - base) * k < 49 * (s - base + 1)
  }

  /** Each stat is on the line from its own base to its own target: the last stage's stats. */
  predicate StatsOnLine(t: Template, level: nat, s: Stats) {
    var target := match t.stage2
                  case Some(last) => last
                  case None => match t.stage1 case Some(only) => only case None => t.base;
    && OnLine(t.base.hp, target.hp, level, s.hp)
    && OnLine(t.base.atk, target.atk, level, s.atk)
    && OnLine(t.base.def, target.def, level, s.def)
    && OnLine(t.base.spd, target.spd, level, s.spd)
  }

  lemma StatsAreOnLine(t: Template, level: nat)
    ensures StatsOnLine(t, level, StatsAtLevel(t, level))
  {
    var target := TargetStatsFor(t);
    InterpOnLine(t.base.hp, target.hp, level);
    InterpOnLine(t.base.atk, target.atk, level);
    InterpOnLine(t.base.def, target.def, level);
    InterpOnLine(t.base.spd, target.spd, level);
    hide InterpStat, OnLine;
  }

  lemma InterpOnLine(base: int, target: int, level: nat)
    ensures OnLine(base, target, level, InterpStat(base, target, level))
  {
  }

  /** The line starts at the base and ends at the target, and has one stat for each level. */
  lemma LineEnds(base: int, target: int, level: nat, s: int)
    requires OnLine(base, target, level, s)
    ensures level <= 1 ==> s == base
    ensures level >= 50 ==> s == target
    ensures forall s' | OnLine(base, target, level, s') :: s' == s
  {
  }

  lemma {:induction false} LevelUpsRestat(m: Mon, t: Template)
    ensures var r := LevelUps(m, t).mon;
            r.level >= m.level && r.stats == if r.level > m.level then StatsAtLevel(t, r.level) else m.stats
    decreases MAX_LEVEL - m.level
  {
    hide StatsAtLevel, GetXpForLevel;
    if CanLevel(m) {
      LevelUpsRestat(Raised(m, t), t);
    }
  }

  /** A grant that gains a level puts every stat on its line, whatever it was before; one that gains none keeps all. */
  lemma GrantOnLine(m: Mon, amount: int, t: Template)
    ensures var r := Grant(m, amount, t).mon;
            if r.level > m.level then StatsOnLine(t, r.level, r.stats) else r.stats == m.stats
  {
    hide StatsAtLevel, LevelUps, StatsOnLine;
    LevelUpsRestat(m.(xp := m.xp + amount), t);
    StatsAreOnLine(t, Grant(m, amount, t).mon.level);
  }

  // ---- One grant -----------------------------------------------------------------------------

  ghost function TotalXp(m: Mon): int {
    Cumulative(m.level) + m.xp
  }

  /** Total XP rises by the grant, and the loop stops only when no level can be bought. */
  lemma {:induction false} LevelUpsSettles(m: Mon, t: Template)
    requires m.level >= 1
    ensures var r := LevelUps(m, t).mon;
            && m.level <= r.level <= Max(m.level, MAX_LEVEL)
            && TotalXp(r) == TotalXp(m)
            && (m.xp >= 0 ==> r.xp >= 0)
            && (r.level >= MAX_LEVEL || r.xp < GetXpForLevel(r.level))
    decreases MAX_LEVEL - m.level
  {
    hide StatsAtLevel, GetXpForLevel;
    if CanLevel(m) {
      LevelUpsSettles(Raised(m, t), t);
    }
  }

  lemma GrantSettles(m: Mon, amount: nat, t: Template)
    requires m.level >= 1 && m.xp >= 0
    ensures var r := Grant(m, amount, t).mon;
            && m.level <= r.level <= Max(m.level, MAX_LEVEL)
            && TotalXp(r) == TotalXp(m) + amount
            && r.xp >= 0
            && (r.level >= MAX_LEVEL || r.xp < GetXpForLevel(r.level))
  {
    hide StatsAtLevel, LevelUps, Raised, GetXpForLevel, Cumulative;
    LevelUpsSettles(m.(xp := m.xp + amount), t);
  }

  /** Nothing is levelled past 55. */
  lemma LevelCapIs(m: Mon, amount: nat, t: Template)
    requires m.level >= 1 && m.xp >= 0
    ensures var r := Grant(m, amount, t).mon;
            r.level <= Max(m.level, 55) && (r.level < 55 ==> r.xp < GetXpForLevel(r.level))
  {
    hide Grant, GetXpForLevel;
    GrantSettles(m, amount, t);
  }

  /** The level reached is the largest one, up to the cap, that the total XP pays for. */
  lemma LevelIsLargestPaidFor(m: Mon, amount: nat, t: Template, level: nat)
    requires 1 <= m.level <= MAX_LEVEL && m.xp >= 0
    requires 1 <= level <= MAX_LEVEL
    ensures Cumulative(level) <= TotalXp(m) + amount <==> level <= Grant(m, amount, t).mon.level
  {
    hide GetXpForLevel, Grant;
    GrantSettles(m, amount, t);
    var r := Grant(m, amount, t).mon;
    if level < r.level {
      CumulativeIncreases(level, r.level);
    } else if level > r.level {
      if level > r.level + 1 {
        CumulativeIncreases(r.level + 1, level);
      }
    }
  }

  /** Levelling touches five fields; in particular the cached moves stay those of the level that cached them. */
  lemma {:induction false} LevelUpsKeepsRest(m: Mon, t: Template)
    ensures var r := LevelUps(m, t).mon;
            r == m.(level := r.level, xp := r.xp, stats := r.stats, currentHP := r.currentHP, stage := r.stage)
    decreases MAX_LEVEL - m.level
  {
    hide StatsAtLevel, GetXpForLevel;
    if CanLevel(m) {
      LevelUpsKeepsRest(Raised(m, t), t);
    }
  }

  lemma GrantKeepsRest(m: Mon, amount: int, t: Template)
    ensures var r := Grant(m, amount, t).mon;
            r == m.(level := r.level, xp := r.xp, stats := r.stats, currentHP := r.currentHP, stage := r.stage)
  {
    hide LevelUps;
    LevelUpsKeepsRest(m.(xp := m.xp + amount), t);
  }

  // ---- Two grants ----------------------------------------------------------------------------

  lemma RaisedBanked(m: Mon, b: nat, t: Template)
    ensures Raised(m.(xp := m.xp + b), t) == Raised(m, t).(xp := Raised(m, t).xp + b)
    ensures Raised(m, t).level == m.level + 1
  {
    hide StatsAtLevel, GetXpForLevel;
  }

  lemma EventsRegroup(a: seq<ProgressEvent>, b: seq<ProgressEvent>, c: seq<ProgressEvent>)
    ensures a + (b + c) == (a + b) + c
  {
  }

  /** Banking `b` more XP before the loop only postpones it: the levels bought come first, in the same order. */
  lemma {:induction false} LevelUpsBanked(m: Mon, b: nat, t: Template)
    ensures var first := LevelUps(m, t);
            var second := LevelUps(first.mon.(xp := first.mon.xp + b), t);
            LevelUps(m.(xp := m.xp + b), t) == Progress(second.mon, first.events + second.events)
    decreases MAX_LEVEL - m.level
  {
    hide Raised, GetXpForLevel, EvolveEvents;
    var richer := m.(xp := m.xp + b);
    RaisedBanked(m, b, t);
    if CanLevel(m) {
      LevelUpsBanked(Raised(m, t), b, t);
      var step := [LevelUp(Raised(m, t).level)] + EvolveEvents(m.stage, Raised(m, t).stage);
      var first := LevelUps(Raised(m, t), t);
      var second := LevelUps(first.mon.(xp := first.mon.xp + b), t);
      assert LevelUps(m, t) == Progress(first.mon, step + first.events);
      assert LevelUps(richer, t) == Progress(second.mon, step + (first.events + second.events));
      hide LevelUps;
      EventsRegroup(step, first.events, second.events);
    } else {
      var events := LevelUps(richer, t).events;
      assert [] + events == events;
    }
  }

  /** Granting acts as addition: `a` then `b` is `a + b`, events included. */
  lemma GrantAdds(m: Mon, a: int, b: nat, t: Template)
    ensures var first := Grant(m, a, t);
            var second := Grant(first.mon, b, t);
            Grant(m, a + b, t) == Progress(second.mon, first.events + second.events)
  {
    hide LevelUps;
    LevelUpsBanked(m.(xp := m.xp + a), b, t);
    assert m.(xp := m.xp + (a + b)) == m.(xp := m.xp + a).(xp := m.xp + a + b);
  }

  // ---- HP and stats --------------------------------------------------------------------------

  function MissingHP(m: Mon): int {
    m.stats.hp - m.currentHP
  }

  /** Levelling recomputes the stats and carries the wounds over unchanged. */
  lemma {:induction false} LevelUpsKeepsWounds(m: Mon, t: Template)
    requires m.currentHP <= m.stats.hp
    ensures var r := LevelUps(m, t).mon;
            && MissingHP(r) == MissingHP(m)
            && (r.level > m.level || m.stats == StatsAtLevel(t, m.level) ==> r.stats == StatsAtLevel(t, r.level))
    decreases MAX_LEVEL - m.level
  {
    if CanLevel(m) {
      LevelUpsKeepsWounds(Raised(m, t), t);
    }
  }

  lemma GrantKeepsWounds(m: Mon, amount: int, t: Template)
    requires m.currentHP <= m.stats.hp && m.stats == StatsAtLevel(t, m.level)
    ensures var r := Grant(m, amount, t).mon;
            r.stats == StatsAtLevel(t, r.level) && MissingHP(r) == MissingHP(m)
  {
    LevelUpsKeepsWounds(m.(xp := m.xp + amount), t);
  }

  /** A monster with the stats of its level and no more HP than those allow. */
  ghost predicate Tracked(m: Mon, t: Template) {
    m.level >= 1 && m.xp >= 0 && m.stats == StatsAtLevel(t, m.level) && m.currentHP <= m.stats.hp
  }

  ghost predicate InRange(m: Mon, t: Template) {
    Tracked(m, t) && m.currentHP >= 0
  }

  /** HP can go negative through levelling only when the species' HP target is below its base. */
  lemma HpStaysInRange(t: Template)
    requires t.base.hp >= 0
    ensures TargetStatsFor(t).hp >= t.base.hp
        <==> forall m: Mon, amount: nat | InRange(m, t) :: Grant(m, amount, t).mon.currentHP >= 0
  {
    if TargetStatsFor(t).hp >= t.base.hp {
      forall m: Mon, amount: nat | InRange(m, t) ensures Grant(m, amount, t).mon.currentHP >= 0 {
        GrantKeepsWounds(m, amount, t);
        GrantSettles(m, amount, t);
        InterpMono(t.base.hp, TargetStatsFor(t).hp, m.level, Grant(m, amount, t).mon.level);
      }
    } else {
      var m := CreateMonster(t, 1).(currentHP := 0);
      var amount := Cumulative(50);
      BaseAndTarget(t.base.hp, TargetStatsFor(t).hp);
      assert InRange(m, t);
      GrantKeepsWounds(m, amount, t);
      GrantSettles(m, amount, t);
      LevelIsLargestPaidFor(m, amount, t, 50);
      var r := Grant(m, amount, t).mon;
      AtTarget(t.base.hp, TargetStatsFor(t).hp, r.level);
      assert r.currentHP < 0;
    }
  }

  lemma BaseAndTarget(base: int, target: int)
    ensures InterpStat(base, target, 1) == base
  {
    assert Min(GROWTH_SPAN, Max(0, 1 - 1)) == 0;
    assert (target - base) * 0 == 0;
  }

  lemma AtTarget(base: int, target: int, level: nat)
    requires level >= 50
    ensures InterpStat(base, target, level) == target
  {
    assert ((target - base) * 49) / 49 == target - base;
  }

  // ---- Power ---------------------------------------------------------------------------------

  /** The power of a level, up to the bonus of rarity. */
  function PowerAt(t: Template, level: nat): int {
    var s := StatsAtLevel(t, level);
    s.hp + s.atk + s.def + s.spd + (if level == 0 then 1 else level) * POWER_LEVEL_WEIGHT
  }

  predicate PowerNeverFalls(t: Template) {
    forall level | 1 <= level < MAX_LEVEL :: PowerAt(t, level) <= PowerAt(t, level + 1)
  }

  lemma {:induction false} PowerRises(t: Template, low: nat, high: nat)
    requires PowerNeverFalls(t) && 1 <= low <= high <= MAX_LEVEL
    ensures PowerAt(t, low) <= PowerAt(t, high)
  {
    hide PowerAt;
    if low < high {
      PowerRises(t, low, high - 1);
    }
  }

  lemma LevelPowerIs(m: Mon, t: Template)
    requires m.stats == StatsAtLevel(t, m.level)
    ensures Power(m) == PowerAt(t, m.level) + RarityBonus(m.rarity)
  {
    hide StatsAtLevel, RarityBonus;
  }

  lemma GrantPower(m: Mon, amount: nat, t: Template)
    requires Tracked(m, t)
    ensures var r := Grant(m, amount, t).mon;
            Power(r) - Power(m) == PowerAt(t, r.level) - PowerAt(t, m.level)
  {
    hide StatsAtLevel, LevelUps, PowerAt, Power;
    GrantKeepsWounds(m, amount, t);
    GrantKeepsRest(m, amount, t);
    LevelPowerIs(m, t);
    LevelPowerIs(Grant(m, amount, t).mon, t);
  }

  /** No grant lowers the power of any monster of a species exactly when no single level does. */
  lemma GrantsNeverWeaken(t: Template)
    ensures PowerNeverFalls(t)
        <==> forall m: Mon, amount: nat | Tracked(m, t) :: Power(Grant(m, amount, t).mon) >= Power(m)
  {
    hide StatsAtLevel, GetXpForLevel, LevelUps, PowerAt, Power;
    if PowerNeverFalls(t) {
      forall m: Mon, amount: nat | Tracked(m, t) ensures Power(Grant(m, amount, t).mon) >= Power(m) {
        GrantPower(m, amount, t);
        GrantSettles(m, amount, t);
        var r := Grant(m, amount, t).mon;
        if r.level <= MAX_LEVEL {
          PowerRises(t, m.level, r.level);
        }
      }
    } else {
      var level :| 1 <= level < MAX_LEVEL && PowerAt(t, level) > PowerAt(t, level + 1);
      var m := CreateMonster(t, level);
      GrantOneLevel(m, t);
      GrantPower(m, GetXpForLevel(level), t);
    }
  }

  lemma GrantOneLevel(m: Mon, t: Template)
    requires 1 <= m.level < MAX_LEVEL && m.xp == 0
    ensures Grant(m, GetXpForLevel(m.level), t).mon.level == m.level + 1
  {
    hide StatsAtLevel, GetXpForLevel;
    CurveIncreases(m.level);
    var banked := m.(xp := GetXpForLevel(m.level));
    assert CanLevel(banked) && !CanLevel(Raised(banked, t));
    assert LevelUps(banked, t).mon == Raised(banked, t);
  }

  /** Stat targets at least the bases are enough. */
  lemma GrowingNeverFalls(t: Template)
    requires Growing(t)
    ensures PowerNeverFalls(t)
  {
    hide StatsAtLevel;
    forall level | 1 <= level < MAX_LEVEL ensures PowerAt(t, level) <= PowerAt(t, level + 1) {
      StatsGrow(t, level, level + 1);
    }
  }

  // ---- Evolution -----------------------------------------------------------------------------

  ghost predicate InStep(m: Mon, t: Template) {
    m.stage == StageForLevel(t, m.level) && m.ev1 == t.ev1 && m.ev2 == t.ev2
  }

  /** The second evolution is absent, out of reach, already passed, or strictly after a first one. */
  predicate EvolvesInStep(t: Template) {
    t.ev2 <= 1 || t.ev2 > MAX_LEVEL || 0 < t.ev1 < t.ev2
  }

  lemma {:induction false} LevelUpsInStep(m: Mon, t: Template)
    requires EvolvesInStep(t) && InStep(m, t) && m.level >= 1
    ensures InStep(LevelUps(m, t).mon, t)
    decreases MAX_LEVEL - m.level
  {
    hide StatsAtLevel, GetXpForLevel;
    if CanLevel(m) {
      LevelUpsInStep(Raised(m, t), t);
    }
  }

  /** Levelled monsters have the stage a fresh one of their level would have, for exactly these species. */
  lemma StageInStep(t: Template)
    ensures EvolvesInStep(t)
        <==> forall m: Mon, amount: nat | m.level >= 1 && InStep(m, t) :: InStep(Grant(m, amount, t).mon, t)
  {
    if EvolvesInStep(t) {
      forall m: Mon, amount: nat | m.level >= 1 && InStep(m, t) ensures InStep(Grant(m, amount, t).mon, t) {
        LevelUpsInStep(m.(xp := m.xp + amount), t);
      }
    } else {
      var m := CreateMonster(t, t.ev2 - 1);
      var amount := GetXpForLevel(m.level);
      StepsPastSecond(m, amount, t);
      assert InStep(m, t);
    }
  }

  lemma StepsPastSecond(m: Mon, amount: nat, t: Template)
    requires !EvolvesInStep(t) && m == CreateMonster(t, t.ev2 - 1) && amount == GetXpForLevel(m.level)
    ensures !InStep(Grant(m, amount, t).mon, t)
  {
    hide StatsAtLevel, GetXpForLevel;
    CurveIncreases(t.ev2);
    var banked := m.(xp := m.xp + amount);
    var up := Raised(banked, t);
    assert CanLevel(banked) && !CanLevel(up);
    assert LevelUps(banked, t).mon == up;
  }

  /** An unevolved monster evolves in the loop exactly when it is levelled to its first evolution level or past it. */
  lemma {:induction false} EvolvesByLevel(m: Mon, t: Template)
    requires m.stage == 0
    ensures var r := LevelUps(m, t).mon;
            r.level >= m.level && (r.stage > 0 <==> m.ev1 > 0 && r.level > m.level && r.level >= m.ev1)
    decreases MAX_LEVEL - m.level
  {
    hide StatsAtLevel, GetXpForLevel;
    if CanLevel(m) {
      var up := Raised(m, t);
      if up.stage == 0 { EvolvesByLevel(up, t); } else { StageNeverFalls(up, t); }
    }
  }

  lemma {:induction false} StageNeverFalls(m: Mon, t: Template)
    ensures var r := LevelUps(m, t).mon; r.level >= m.level && r.stage >= m.stage
    decreases MAX_LEVEL - m.level
  {
    hide StatsAtLevel, GetXpForLevel;
    if CanLevel(m) {
      StageNeverFalls(Raised(m, t), t);
    }
  }

  /** No grant ever evolves it exactly when it has no first evolution, none within the cap, or no level left. */
  lemma NeverEvolves(m: Mon, t: Template)
    requires m.level >= 1 && m.xp >= 0 && m.stage == 0
    ensures (forall amount: nat :: Grant(m, amount, t).mon.stage == 0)
        <==> m.ev1 == 0 || m.ev1 > MAX_LEVEL || m.level >= MAX_LEVEL
  {
    hide LevelUps, GetXpForLevel, Cumulative;
    forall amount: nat
      ensures var r := Grant(m, amount, t).mon;
              && r.level <= Max(m.level, MAX_LEVEL)
              && (r.stage > 0 <==> m.ev1 > 0 && r.level > m.level && r.level >= m.ev1)
    {
      GrantSettles(m, amount, t);
      EvolvesByLevel(m.(xp := m.xp + amount), t);
    }
    if m.level < MAX_LEVEL {
      LevelIsLargestPaidFor(m, Cumulative(MAX_LEVEL), t, MAX_LEVEL);
      assert Grant(m, Cumulative(MAX_LEVEL), t).mon.level == MAX_LEVEL;
    }
  }

  // ---- Rewards -------------------------------------------------------------------------------

  /** The catch-up multiplier of a level: 4 below 30, 2.5 below 45 and 1.8 from there on. */
  predicate IsRookie(level: nat, f: real) {
    (level < 30 && f == 4.0) || (30 <= level < 45 && f == 2.5) || (level >= 45 && f == 1.8)
  }

  lemma RookieIs(level: nat)
    ensures IsRookie(level, RookieMultiplier(level))
  {
  }

  /** 2 percent less for each level that the lead is above the wild, down to 40 percent. */
  function Fit(lead: int, wild: int): real {
    if lead - wild > 30 then 0.4 else 1.0 - 0.02 * (lead - wild) as real
  }

  function RawWild(lead: nat, wild: nat, rookie: real, buff: real): real {
    (5.0 + wild as real * 2.5) * Fit(lead, wild) * rookie * buff
  }

  /** A wild win gives 5 and two and a half per level, times fit, catch-up and buff, rounded down and at least 12. */
  lemma WildRewardIs(lead: nat, wild: nat, buff: real) returns (rookie: real, n: int)
    ensures IsRookie(lead, rookie)
    ensures FloorOf(RawWild(lead, wild, rookie, buff), n)
    ensures WildXpReward(lead, wild, buff) == Max(12, n)
  {
    rookie := RookieMultiplier(lead);
    RookieIs(lead);
    n := RawWild(lead, wild, rookie, buff).Floor;
    hide RookieMultiplier;
  }

  /** A gym win gives 15 and 8 per leader's monster, times catch-up and buff, rounded down. */
  lemma GymRewardIs(level: nat, leaders: nat, buff: real) returns (rookie: real)
    ensures IsRookie(level, rookie)
    ensures FloorOf((15 + 8 * leaders) as real * rookie * buff, GymXpReward(level, leaders, buff))
  {
    rookie := RookieMultiplier(level);
  }

  /** For one lead, beating a higher wild is never worth less. */
  lemma HigherWildIsWorthMore(lead: nat, wild: nat, higher: nat, buff: real)
    requires wild <= higher && buff >= 0.0
    ensures WildXpReward(lead, wild, buff) <= WildXpReward(lead, higher, buff)
  {
    var r, n := WildRewardIs(lead, wild, buff);
    var r', n' := WildRewardIs(lead, higher, buff);
    assert r' == r;
    RawMono(lead, wild, higher, r, buff);
    hide WildXpReward, RawWild;
    FloorsOrder(RawWild(lead, wild, r, buff), RawWild(lead, higher, r, buff), n, n');
  }

  lemma RawMono(lead: nat, wild: nat, higher: nat, r: real, buff: real)
    requires wild <= higher && r >= 0.0 && buff >= 0.0
    ensures RawWild(lead, wild, r, buff) <= RawWild(lead, higher, r, buff)
  {
    var b, b' := 5.0 + wild as real * 2.5, 5.0 + higher as real * 2.5;
    var f, f' := Fit(lead, wild), Fit(lead, higher);
    assert 0.0 <= f <= f';
    hide Fit;
    RealMulMono(b, b', f, f');
    RealMulMono(b * f, b' * f', r, r);
    RealMulMono(b * f * r, b' * f' * r, buff, buff);
  }

  lemma FloorsOrder(x: real, y: real, n: int, k: int)
    requires x <= y && FloorOf(x, n) && FloorOf(y, k)
    ensures n <= k
  {
  }
}
