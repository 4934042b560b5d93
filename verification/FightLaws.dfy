/** What a hit costs whom, in the automatic fights and in the logged one, and what being stronger is worth. */
module FightLaws {
  import opened Numbers
  import opened Wrappers
  import opened Random
  import opened Monsters
  import opened Battle
  import opened BattleLog

  // ---- Light hits ----------------------------------------------------------------------------

  /** How a matchup scales damage. */
  function Matchup(e: Effect): real {
    if e == Strong then 2.0 else if e == Neutral then 1.0 else if e == Weak then 0.5 else 0.0
  }

  /** `a` hits `d` for `loss` at variance `v`: attack less half the defence, scaled and rounded down, at least 1. */
  ghost predicate LightHit(effect: Chart, a: Mon, d: Mon, v: real, loss: int) {
    var edge := Max(1, a.stats.atk - d.stats.def / 2) as real;
    var raw := edge * Matchup(effect(a.element, d.element)) * v * (1.0 + 0.02 * (a.level - 1) as real);
    (raw < 1.0 && loss == 1) || (1 <= loss && loss as real <= raw < (loss + 1) as real)
  }

  lemma DamageIsLightHit(effect: Chart, a: Mon, d: Mon, v: real)
    ensures LightHit(effect, a, d, v, SimpleDamage(effect, a, d, v))
  {
  }

  /**
    * Who hurts whom: the faster side, `me` on a tie, takes its hit off the other's HP, and the other answers with its
    * own unless that felled it.
    */
  lemma ExchangeHurts(rules: Rules, me: Mon, foe: Mon, d: Duel) returns (v: real, w: real, hit: int, back: int)
    ensures 0.85 <= v < 1.15 && 0.85 <= w < 1.15
    ensures var e := Exchange(rules, me, foe, d);
            if me.stats.spd >= foe.stats.spd then
              && LightHit(rules.effect, me, foe, v, hit) && LightHit(rules.effect, foe, me, w, back)
              && e.theirs == d.theirs - hit
              && e.mine == d.mine - (if e.theirs <= 0 then 0 else back)
            else
              && LightHit(rules.effect, foe, me, v, hit) && LightHit(rules.effect, me, foe, w, back)
              && e.mine == d.mine - hit
              && e.theirs == d.theirs - (if e.mine <= 0 then 0 else back)
  {
    var order := if me.stats.spd >= foe.stats.spd then (me, foe) else (foe, me);
    var roll := RollFloat(rules.mix, d.next, 0.85, 1.15);
    v, hit := roll.value, SimpleDamage(rules.effect, order.0, order.1, roll.value);
    var answer := RollFloat(rules.mix, roll.next, 0.85, 1.15);
    w, back := answer.value, SimpleDamage(rules.effect, order.1, order.0, answer.value);
    DamageIsLightHit(rules.effect, order.0, order.1, v);
    DamageIsLightHit(rules.effect, order.1, order.0, w);
    hide SimpleDamage, LightHit;
  }

  /** `n` exchanges in a row. */
  function Exchanges(rules: Rules, me: Mon, foe: Mon, d: Duel, n: nat): Duel {
    if n == 0 then d else Exchange(rules, me, foe, Exchanges(rules, me, foe, d, n - 1))
  }

  lemma {:induction false} FirstExchange(rules: Rules, me: Mon, foe: Mon, d: Duel, n: nat)
    ensures Exchanges(rules, me, foe, Exchange(rules, me, foe, d), n) == Exchanges(rules, me, foe, d, n + 1)
  {
    hide Exchange;
    if n > 0 {
      FirstExchange(rules, me, foe, d, n - 1);
    }
  }

  lemma {:induction false} RoundsAreExchanges(rules: Rules, me: Mon, foe: Mon, d: Duel, turns: nat)
    requires turns <= AUTO_TURN_CAP
    ensures var (end, last) := AutoRounds(rules, me, foe, d, turns);
            && end == Exchanges(rules, me, foe, d, last - turns)
            && (forall i | 0 <= i < last - turns :: Exchanges(rules, me, foe, d, i).Ongoing())
            && (last < 20 ==> !end.Ongoing())
    decreases AUTO_TURN_CAP - turns
  {
    hide Exchange;
    if d.Ongoing() && turns < AUTO_TURN_CAP {
      var e := Exchange(rules, me, foe, d);
      RoundsAreExchanges(rules, me, foe, e, turns + 1);
      var last := AutoRounds(rules, me, foe, d, turns).1;
      forall i | 0 <= i < last - turns ensures Exchanges(rules, me, foe, d, i).Ongoing() {
        if i > 0 {
          FirstExchange(rules, me, foe, d, i - 1);
          assert Exchanges(rules, me, foe, e, i - 1).Ongoing();
        }
      }
      FirstExchange(rules, me, foe, d, last - turns - 1);
    }
  }

  /**
    * The automatic fight exchanges while both stand, at most 20 times; it is won exactly if the foe is down then, and
    * reports the HP left and the number of exchanges.
    */
  lemma AutoFightIs(rules: Rules, me: Mon, foe: Mon, s: Word)
    ensures var fight, start := AutoFight(rules, me, foe, s), Duel(me.currentHP, foe.currentHP, s);
            var r := fight.value;
            && 0 <= r.turnsUsed <= 20
            && (forall i | 0 <= i < r.turnsUsed :: Exchanges(rules, me, foe, start, i).Ongoing())
            && (var end := Exchanges(rules, me, foe, start, r.turnsUsed);
                && (r.turnsUsed < 20 ==> !end.Ongoing())
                && (r.won <==> end.theirs <= 0) && r.hpRemaining == Max(0, end.mine) && fight.next == end.next)
  {
    hide Exchange;
    RoundsAreExchanges(rules, me, foe, Duel(me.currentHP, foe.currentHP, s), 0);
  }

  // ---- The gym chain -------------------------------------------------------------------------

  /** A duel is as many exchanges as it takes until a side is down. */
  lemma {:induction false} DuelIsExchanges(rules: Rules, me: Mon, foe: Mon, d: Duel) returns (n: nat)
    ensures DuelToTheEnd(rules, me, foe, d) == Exchanges(rules, me, foe, d, n)
    ensures forall i | 0 <= i < n :: Exchanges(rules, me, foe, d, i).Ongoing()
    ensures !Exchanges(rules, me, foe, d, n).Ongoing()
    decreases d.Left()
  {
    hide Exchange;
    n := 0;
    if d.Ongoing() {
      var e := Exchange(rules, me, foe, d);
      var rest := DuelIsExchanges(rules, me, foe, e);
      n := rest + 1;
      forall i | 0 <= i < n ensures Exchanges(rules, me, foe, d, i).Ongoing() {
        if i > 0 {
          FirstExchange(rules, me, foe, d, i - 1);
          assert Exchanges(rules, me, foe, e, i - 1).Ongoing();
        }
      }
      FirstExchange(rules, me, foe, d, rest);
    }
  }

  /**
    * A round pits the member whose turn it is, at the HP it has left, against the leader's monster whose turn it is,
    * always at full HP, until one is down; whoever is down makes room for the next, and the member's HP is kept.
    */
  lemma RoundIs(g: Gauntlet, c: Chain) returns (n: nat)
    requires g.Fits(c) && g.Running(c) && g.tplOf(g.gym[c.gymIdx].monsterId).Some?
    ensures var i, foe := c.partyIdx,
                          MakeCombatant(g.tplOf(g.gym[c.gymIdx].monsterId).value, g.gym[c.gymIdx].level);
            var start := Duel(c.hp[i], foe.stats.hp, c.next);
            var end, c' := Exchanges(g.rules, g.party[i], foe, start, n), g.Round(c);
            && (forall k | 0 <= k < n :: Exchanges(g.rules, g.party[i], foe, start, k).Ongoing()) && !end.Ongoing()
            && c'.hp == c.hp[i := Max(0, end.mine)] && c'.next == end.next
            && c'.partyIdx == (if end.mine <= 0 then i + 1 else i)
            && c'.gymIdx == (if end.theirs <= 0 then c.gymIdx + 1 else c.gymIdx)
  {
    hide MakeCombatant, Exchanges, DuelToTheEnd;
    var i := c.partyIdx;
    var foe := MakeCombatant(g.tplOf(g.gym[c.gymIdx].monsterId).value, g.gym[c.gymIdx].level);
    n := DuelIsExchanges(g.rules, g.party[i], foe, Duel(c.hp[i], foe.stats.hp, c.next));
  }

  // ---- Being stronger ------------------------------------------------------------------------

  lemma DamageMono(atk: int, atk': int, level: nat, level': nat, def: int, def': int, f: real, v: real, v': real)
    requires atk <= atk' && level <= level' && def' <= def && 0.0 <= f && 0.0 <= v <= v'
    ensures DamageFrom(atk, level, def, f, v) <= DamageFrom(atk', level', def', f, v')
  {
    var base, base' := Max(1, atk - def / 2) as real, Max(1, atk' - def' / 2) as real;
    var mod, mod' := 1.0 + (level - 1) as real * 0.02, 1.0 + (level' - 1) as real * 0.02;
    RealMulMono(base, base', f, f);
    RealMulMono(base * f, base' * f, v, v');
    RealMulMono(base * f * v, base' * f * v', mod, mod');
  }

  /** At least as strong in attack, defence and level, as fast and of the same type. */
  predicate AtLeast(m': Mon, m: Mon) {
    && m'.stats.atk >= m.stats.atk && m'.stats.def >= m.stats.def && m'.level >= m.level
    && m'.stats.spd == m.stats.spd && m'.element == m.element
  }

  lemma StrongerHits(effect: Chart, m: Mon, m': Mon, foe: Mon, v: real)
    requires AtLeast(m', m) && v >= 0.0
    ensures SimpleDamage(effect, m', foe, v) >= SimpleDamage(effect, m, foe, v)
    ensures SimpleDamage(effect, foe, m', v) <= SimpleDamage(effect, foe, m, v)
  {
    hide DamageFrom;
    DamageMono(m.stats.atk, m'.stats.atk, m.level, m'.level, foe.stats.def, foe.stats.def,
               Factor(effect(m.element, foe.element)), v, v);
    DamageMono(foe.stats.atk, foe.stats.atk, foe.level, foe.level, m'.stats.def, m.stats.def,
               Factor(effect(foe.element, m.element)), v, v);
  }

  /** `d'` is at least as good for `me` as `d`, with the same draws to come while both fights go on. */
  ghost predicate Better(d': Duel, d: Duel) {
    && d'.mine >= d.mine && d'.theirs <= d.theirs
    && (d'.Ongoing() && d.Ongoing() ==> d'.next == d.next)
  }

  /** With the same draws, a stronger monster is nowhere worse off after an exchange. */
  lemma StrongerExchange(rules: Rules, m: Mon, m': Mon, foe: Mon, d: Duel, d': Duel)
    requires AtLeast(m', m) && Better(d', d) && d.Ongoing() && d'.Ongoing()
    ensures Better(Exchange(rules, m', foe, d'), Exchange(rules, m, foe, d))
  {
    hide SimpleDamage;
    var roll := RollFloat(rules.mix, d.next, 0.85, 1.15);
    var answer := RollFloat(rules.mix, roll.next, 0.85, 1.15);
    StrongerHits(rules.effect, m, m', foe, roll.value);
    StrongerHits(rules.effect, m, m', foe, answer.value);
    hide RollFloat;
  }

  lemma {:induction false} StrongerRounds(
      rules: Rules, m: Mon, m': Mon, foe: Mon, d: Duel, d': Duel, turns: nat)
    requires turns <= AUTO_TURN_CAP && AtLeast(m', m) && Better(d', d)
    requires d.Ongoing() || d.Decided()
    ensures var end, end' := AutoRounds(rules, m, foe, d, turns).0, AutoRounds(rules, m', foe, d', turns).0;
            && (end.theirs <= 0 ==> end'.theirs <= 0)
            && Max(0, end.mine) <= Max(0, end'.mine)
    decreases AUTO_TURN_CAP - turns
  {
    hide Exchange;
    if d.Ongoing() && d'.Ongoing() && turns < AUTO_TURN_CAP {
      StrongerExchange(rules, m, m', foe, d, d');
      StrongerRounds(rules, m, m', foe, Exchange(rules, m, foe, d), Exchange(rules, m', foe, d'), turns + 1);
    }
  }

  /** On every seed, a stronger monster wins whatever a weaker one does, and with no fewer HP left. */
  lemma StrongerWins(rules: Rules, m: Mon, m': Mon, foe: Mon, s: Word)
    requires AtLeast(m', m) && m'.currentHP >= m.currentHP > 0 && foe.currentHP > 0
    ensures var r, r' := AutoFight(rules, m, foe, s).value, AutoFight(rules, m', foe, s).value;
            (r.won ==> r'.won) && r.hpRemaining <= r'.hpRemaining
  {
    hide AutoRounds;
    StrongerRounds(rules, m, m', foe, Duel(m.currentHP, foe.currentHP, s), Duel(m'.currentHP, foe.currentHP, s), 0);
  }

  /** The same of the uncapped duels of a gym. */
  lemma {:induction false} StrongerDuels(rules: Rules, m: Mon, m': Mon, foe: Mon, d: Duel, d': Duel)
    requires AtLeast(m', m) && Better(d', d) && (d.Ongoing() || d.Decided())
    ensures var end, end' := DuelToTheEnd(rules, m, foe, d), DuelToTheEnd(rules, m', foe, d');
            && (end.theirs <= 0 ==> end'.theirs <= 0)
            && Max(0, end.mine) <= Max(0, end'.mine)
    decreases d.Left()
  {
    hide Exchange;
    if d.Ongoing() && d'.Ongoing() {
      StrongerExchange(rules, m, m', foe, d, d');
      StrongerDuels(rules, m, m', foe, Exchange(rules, m, foe, d), Exchange(rules, m', foe, d'));
    }
  }

  /** One hit of the least variance that covers the slower side's HP decides the fight in the first turn. */
  lemma OneHitDecides(rules: Rules, me: Mon, foe: Mon, s: Word, n: int)
    requires me.currentHP > 0 && foe.currentHP > 0
    ensures me.stats.spd >= foe.stats.spd && LightHit(rules.effect, me, foe, 0.85, n) && n >= foe.currentHP ==>
              AutoFight(rules, me, foe, s).value == AutoResult(true, me.currentHP, 1)
    ensures me.stats.spd < foe.stats.spd && LightHit(rules.effect, foe, me, 0.85, n) && n >= me.currentHP ==>
              AutoFight(rules, me, foe, s).value == AutoResult(false, 0, 1)
  {
    var v := RollFloat(rules.mix, s, 0.85, 1.15).value;
    var d := Duel(me.currentHP, foe.currentHP, s);
    var e := Exchange(rules, me, foe, d);
    if me.stats.spd >= foe.stats.spd {
      LeastVariance(rules.effect, me, foe, v, n);
    } else {
      LeastVariance(rules.effect, foe, me, v, n);
    }
    hide SimpleDamage, LightHit;
    assert e.Ongoing() || AutoRounds(rules, me, foe, d, 0) == AutoRounds(rules, me, foe, e, 1) == (e, 1);
  }

  lemma LeastVariance(effect: Chart, a: Mon, d: Mon, v: real, n: int)
    requires v >= 0.85
    ensures LightHit(effect, a, d, 0.85, n) ==> SimpleDamage(effect, a, d, v) >= n
  {
    DamageIsLightHit(effect, a, d, 0.85);
    assert LightHit(effect, a, d, 0.85, n) ==> n == SimpleDamage(effect, a, d, 0.85);
    hide DamageFrom, LightHit;
    DamageMono(a.stats.atk, a.stats.atk, a.level, a.level, d.stats.def, d.stats.def,
               Factor(effect(a.element, d.element)), 0.85, v);
  }

  // ---- Logged hits ---------------------------------------------------------------------------

  /** The standard formula at variance `v`, before the bonuses: nothing against an immune defender, else at least 1. */
  ghost predicate StandardHit(e: Effect, a: Mon, d: Mon, power: int, v: real, base: int) {
    if e == Immune then base == 0
    else
      var level := (if a.level == 0 then 5 else a.level) as real;
      var might := (if power == 0 then 50 else power) as real;
      var ratio := Max(1, a.stats.atk) as real / Max(1, d.stats.def) as real;
      var raw := (((2.0 * level / 5.0 + 2.0) * might * ratio) / 50.0 + 2.0) * Matchup(e) * v;
      (raw < 1.0 && base == 1) || (1 <= base && base as real <= raw < (base + 1) as real)
  }

  /** Half as much again for a move of the attacker's type, and for a critical hit, rounded down. */
  ghost predicate WithBonuses(base: int, stab: bool, crit: bool, landed: int) {
    var quarters := base * (if stab then 3 else 2) * (if crit then 3 else 2);
    4 * landed <= quarters < 4 * (landed + 1)
  }

  /** 40 percent of the maximum against a weakness, 30 percent otherwise, rounded up. */
  ghost predicate IsCap(maxHP: int, e: Effect, cap: int) {
    if e == Strong then 5 * (cap - 1) < 2 * maxHP <= 5 * cap else 10 * (cap - 1) < 3 * maxHP <= 10 * cap
  }

  /** What a landed attack of `a` on `d` with `mv` costs. */
  ghost predicate Dealt(e: Effect, a: Mon, d: Mon, mv: Move, crit: bool, maxHP: int, v: real,
                        base: int, landed: int, cap: int, dmg: int)
  {
    && 0.85 <= v <= 1.0
    && StandardHit(e, a, d, mv.power, v, base)
    && WithBonuses(base, mv.element == a.element, crit, landed)
    && IsCap(maxHP, e, cap)
    && dmg == Max(1, Min(landed, cap))
  }

  lemma StandardIsHit(e: Effect, a: Mon, d: Mon, power: int, v: real)
    requires e != Immune
    ensures StandardHit(e, a, d, power, v, StandardDamage(e, a, d, power, v))
  {
  }

  lemma BoostedIsHit(base: int, stab: bool, crit: bool)
    ensures WithBonuses(base, stab, crit, Boosted(base, stab, crit))
  {
    var q := base * (if stab then 3 else 2) * (if crit then 3 else 2);
    var x := base as real * (if stab then 1.5 else 1.0) * (if crit then 1.5 else 1.0);
    assert x == q as real / 4.0;
  }

  lemma StrikeDeals(rules: Rules, mv: Move, a: Mon, d: Mon, maxHP: int, s: Word)
    returns (v: real, base: int, landed: int, cap: int)
    ensures var h, e := Strike(rules, mv, a, d, maxHP, s), rules.effect(a.element, d.element);
            if h.miss then h.dmg == 0 else Dealt(e, a, d, mv, h.crit, maxHP, v, base, landed, cap, h.dmg)
  {
    var e := rules.effect(a.element, d.element);
    var roll := RollFloat(rules.mix, Advance(s), 0.85, 1.0);
    var dmg := RollStandard(rules, a, d, mv.power, Advance(s));
    v, base, cap := if e == Immune then 1.0 else roll.value, dmg.value, HitCap(maxHP, e);
    landed := Boosted(base, mv.element == a.element, Strike(rules, mv, a, d, maxHP, s).crit);
    if e != Immune {
      StandardIsHit(e, a, d, mv.power, v);
    }
    BoostedIsHit(base, mv.element == a.element, Strike(rules, mv, a, d, maxHP, s).crit);
    hide StandardDamage, StandardHit, WithBonuses, Boosted;
  }

  /** The maximum HP that caps refer to. */
  function FullHP(d: Mon): int {
    if d.stats.hp != 0 then d.stats.hp else if d.currentHP != 0 then d.currentHP else 1
  }

  /** An event of the log is an attack of its side on the other one, with a move its side knows. */
  ghost predicate RightEvent(m: Match, e: BattleEvent) {
    var a, d := if e.who == Me then m.me else m.foe, if e.who == Me then m.foe else m.me;
    && e.effect == m.rules.effect(a.element, d.element)
    && e.move == Choose(m.Known(a), e.effect)
    && Explained(e, a, d)
  }

  ghost predicate Explained(e: BattleEvent, a: Mon, d: Mon) {
    if e.miss then e.dmg == 0
    else exists v: real, base, landed, cap ::
           Dealt(e.effect, a, d, e.move, e.crit, FullHP(d), v, base, landed, cap, e.dmg)
  }

  ghost predicate AllRight(m: Match, events: seq<BattleEvent>) {
    forall e | e in events :: RightEvent(m, e)
  }

  lemma ActRight(m: Match, b: Bout, who: Side)
    requires AllRight(m, b.events)
    ensures AllRight(m, m.Act(b, who).events)
  {
    if b.myHP > 0 && b.foeHP > 0 {
      var a, d := if who == Me then m.me else m.foe, if who == Me then m.foe else m.me;
      var mv := Choose(m.Known(a), m.rules.effect(a.element, d.element));
      assert m.MaxOf(d) == FullHP(d);
      hide Match.MaxOf, FullHP;
      var v, base, landed, cap := StrikeDeals(m.rules, mv, a, d, FullHP(d), b.next);
      hide Strike, Dealt, Choose, Match.Known;
      var events := m.Act(b, who).events;
      var last := events[|b.events|];
      assert last.miss || Dealt(last.effect, a, d, last.move, last.crit, FullHP(d), v, base, landed, cap, last.dmg);
      assert Explained(last, a, d);
      hide Explained;
      assert RightEvent(m, last);
    }
  }

  lemma {:induction false} TurnsRight(m: Match, b: Bout)
    requires AllRight(m, b.events)
    ensures AllRight(m, m.Turns(b).events)
    decreases BATTLE_TURN_CAP - b.turns
  {
    hide Match.Act, AllRight;
    if b.myHP > 0 && b.foeHP > 0 && b.turns < BATTLE_TURN_CAP {
      var t := b.(turns := b.turns + 1);
      ActRight(m, t, m.First());
      ActRight(m, m.Act(t, m.First()), m.Second());
      TurnsRight(m, m.Turn(b));
    }
  }

  /** Over every fight, each event of the log is such an attack. */
  lemma LogIsRight(m: Match, s: Word)
    ensures AllRight(m, m.Final(s).events)
  {
    TurnsRight(m, m.Opening(s));
  }

  /** Which draw decides what: accuracy first, then the variance unless immune, then the critical, then the status. */
  lemma StrikeDraws(rules: Rules, mv: Move, a: Mon, d: Mon, maxHP: int, s: Word)
    ensures var h, acc := Strike(rules, mv, a, d, maxHP, s), if mv.acc == 0 then 100 else mv.acc;
            var s1 := Advance(s);
            var s2 := if rules.effect(a.element, d.element) == Immune then s1 else Advance(s1);
            var s3 := Advance(s2);
            var rolls := mv.status.Some? && mv.status.value != "" && mv.effChance > 0;
            && (h.miss <==> rules.mix(s1) * 100.0 > acc as real)
            && (h.miss ==> h.next == s1 && !h.crit && h.status == None)
            && (!h.miss ==>
                  && (h.crit <==> rules.mix(s3) * 16.0 < 1.0)
                  && h.status == (if rolls && rules.mix(Advance(s3)) * 100.0 < mv.effChance as real
                                  then mv.status else None)
                  && h.next == if rolls then Advance(s3) else s3)
  {
    hide StandardDamage, Boosted, HitCap;
  }

  /** A move of full accuracy never misses. */
  lemma FullAccuracyLands(rules: Rules, mv: Move, a: Mon, d: Mon, maxHP: int, s: Word)
    requires mv.acc == 0 || mv.acc >= 100
    ensures !Strike(rules, mv, a, d, maxHP, s).miss
  {
    StrikeDraws(rules, mv, a, d, maxHP, s);
    hide Strike;
  }

  /** Who won: a knock-out decides, else the larger fraction of the maximum HP, a tie going to `me`. */
  lemma WonIsFair(m: Match, b: Bout)
    requires FullHP(m.me) > 0 && FullHP(m.foe) > 0
    ensures m.Won(b) <==> b.foeHP <= 0 || (b.myHP > 0 && b.myHP * FullHP(m.foe) >= b.foeHP * FullHP(m.me))
  {
    var x, y := FullHP(m.me), FullHP(m.foe);
    CrossMultiply(b.myHP, x, b.foeHP, y);
  }

  lemma CrossMultiply(p: int, x: int, q: int, y: int)
    requires x > 0 && y > 0
    ensures p as real / x as real >= q as real / y as real <==> p * y >= q * x
  {
    var a, b := p as real / x as real, q as real / y as real;
    assert a * x as real == p as real && b * y as real == q as real;
    assert (p * y) as real == a * (x as real * y as real);
    assert (q * x) as real == b * (x as real * y as real);
    RealOrder(a, b, x as real * y as real);
  }

  lemma RealOrder(a: real, b: real, k: real)
    requires k > 0.0
    ensures a >= b <==> a * k >= b * k
  {
    if a < b {
      assert (b - a) * k > 0.0;
    }
  }

  /** A logged fight goes on while both stand, for at most 24 turns. */
  lemma {:induction false} TurnsStop(m: Match, b: Bout)
    requires b.turns <= BATTLE_TURN_CAP
    ensures var end := m.Turns(b); b.turns <= end.turns <= 24 && (end.turns < 24 ==> end.myHP <= 0 || end.foeHP <= 0)
    decreases BATTLE_TURN_CAP - b.turns
  {
    hide Match.Act;
    if b.myHP > 0 && b.foeHP > 0 && b.turns < BATTLE_TURN_CAP {
      TurnsStop(m, m.Turn(b));
    }
  }

  lemma FightStops(m: Match, s: Word)
    ensures var end := m.Final(s); end.turns <= 24 && (end.turns < 24 ==> end.myHP <= 0 || end.foeHP <= 0)
  {
    TurnsStop(m, m.Opening(s));
  }

  /** An attack records what its strike from the current state was, and goes on from the state that leaves. */
  lemma ActStrikes(m: Match, b: Bout, who: Side)
    requires b.myHP > 0 && b.foeHP > 0
    ensures var a, d := if who == Me then m.me else m.foe, if who == Me then m.foe else m.me;
            var after := m.Act(b, who);
            var h := Strike(m.rules, Choose(m.Known(a), m.rules.effect(a.element, d.element)), a, d, FullHP(d), b.next);
            && |after.events| == |b.events| + 1 && after.events[..|b.events|] == b.events && after.next == h.next
            && (var e := after.events[|b.events|];
                && e.who == who && e.dmg == h.dmg && e.crit == h.crit && e.miss == h.miss && e.status == h.status
                && e.myHP == after.myHP == (if who == Me then b.myHP else Max(0, b.myHP - h.dmg))
                && e.foeHP == after.foeHP == (if who == Me then Max(0, b.foeHP - h.dmg) else b.foeHP))
  {
    hide Strike, Choose, Match.Known;
  }

  /** The faster side goes first, and `me` on a tie. */
  lemma FasterGoesFirst(m: Match)
    ensures m.First() == if m.foe.stats.spd > m.me.stats.spd then Foe else Me
    ensures m.Second() == if m.foe.stats.spd > m.me.stats.spd then Me else Foe
  {
  }

  /** A side that attacks with nothing cached caches the moves of its own type and level; nothing else changes. */
  lemma CacheIs(m: Match, before: Mon, events: seq<BattleEvent>, asMe: bool, asFoe: bool)
    ensures var after := AfterFight(m, before, asMe, asFoe, events);
            var attacked := || (asMe && exists e | e in events :: e.who == Me)
                            || (asFoe && exists e | e in events :: e.who == Foe);
            && after == before.(moves := after.moves)
            && (!attacked || before.moves.Some? ==> after.moves == before.moves)
            && (attacked && before.moves.None? ==> after.moves == Some(m.learn(before.element, before.level)))
  {
  }
}
