/** The full one-on-one fight of src/battle.ts with its replayable event log. */
module BattleLog {
  import opened Numbers
  import opened Wrappers
  import opened Random
  import opened Monsters
  import opened Battle

  datatype Side = Me | Foe

  datatype BattleEvent = BattleEvent(
    who: Side, move: Move, dmg: int, effect: Effect, crit: bool, miss: bool, status: Option<string>,
    myHP: int, foeHP: int)

  /** The moves a monster of a type and level knows. */
  type Learnset = (Element, nat) -> seq<Move>

  const BATTLE_TURN_CAP: nat := 24
  const FALLBACK_MOVE := Move(0, Normal, 40, 100, None, 0)

  // ---- The choice of a move ------------------------------------------------------------------

  /** By falling power; moves of equal power keep their places. */
  function ByPower(moves: seq<Move>): (sorted: seq<Move>)
    ensures |sorted| == |moves|
  {
    if moves == [] then [] else InsertMove(ByPower(moves[..|moves| - 1]), moves[|moves| - 1])
  }

  function InsertMove(sorted: seq<Move>, mv: Move): (r: seq<Move>)
    ensures |r| == |sorted| + 1
  {
    var last := |sorted| - 1;
    if sorted == [] || sorted[last].power >= mv.power then sorted + [mv]
    else InsertMove(sorted[..last], mv) + [sorted[last]]
  }

  /** The strongest move against a weakness, the second strongest otherwise. */
  function Choose(moves: seq<Move>, e: Effect): Move {
    var pool := ByPower(moves);
    if pool == [] then FALLBACK_MOVE
    else if e == Strong || |pool| == 1 then pool[0]
    else pool[1]
  }

  ghost predicate Falling(moves: seq<Move>) {
    forall i, j | 0 <= i < j < |moves| :: moves[i].power >= moves[j].power
  }

  lemma {:induction false} InsertFalls(sorted: seq<Move>, mv: Move)
    requires Falling(sorted)
    ensures Falling(InsertMove(sorted, mv))
    ensures forall x :: x in InsertMove(sorted, mv) <==> x == mv || x in sorted
  {
    var last := |sorted| - 1;
    if sorted != [] && sorted[last].power < mv.power {
      InsertFalls(sorted[..last], mv);
      assert sorted == sorted[..last] + [sorted[last]];
      var r := InsertMove(sorted[..last], mv);
      forall i | 0 <= i < |r| ensures r[i].power >= sorted[last].power {
        assert r[i] in r;
      }
    }
  }

  lemma {:induction false} ByPowerFalls(moves: seq<Move>)
    ensures Falling(ByPower(moves))
    ensures forall x :: x in ByPower(moves) <==> x in moves
  {
    if moves != [] {
      ByPowerFalls(moves[..|moves| - 1]);
      InsertFalls(ByPower(moves[..|moves| - 1]), moves[|moves| - 1]);
      assert moves == moves[..|moves| - 1] + [moves[|moves| - 1]];
    }
  }

  /** How many of the moves are stronger than `power`. */
  function Stronger(moves: seq<Move>, power: int): nat {
    if moves == [] then 0
    else Stronger(moves[..|moves| - 1], power) + (if moves[|moves| - 1].power > power then 1 else 0)
  }

  lemma {:induction false} InsertCounts(sorted: seq<Move>, mv: Move, power: int)
    ensures Stronger(InsertMove(sorted, mv), power) == Stronger(sorted, power) + (if mv.power > power then 1 else 0)
  {
    var last := |sorted| - 1;
    var r := InsertMove(sorted, mv);
    if sorted == [] || sorted[last].power >= mv.power {
      assert r[..|r| - 1] == sorted;
    } else {
      InsertCounts(sorted[..last], mv, power);
      assert r[..|r| - 1] == InsertMove(sorted[..last], mv);
    }
  }

  lemma {:induction false} ByPowerCounts(moves: seq<Move>, power: int)
    ensures Stronger(ByPower(moves), power) == Stronger(moves, power)
  {
    if moves != [] {
      ByPowerCounts(moves[..|moves| - 1], power);
      InsertCounts(ByPower(moves[..|moves| - 1]), moves[|moves| - 1], power);
    }
  }

  lemma {:induction false} FewStronger(pool: seq<Move>, n: nat, k: nat)
    requires Falling(pool) && k < |pool| && n <= |pool|
    ensures Stronger(pool[..n], pool[k].power) <= k
  {
    if n > 0 {
      assert pool[..n][..n - 1] == pool[..n - 1];
      if n <= k {
        AtMostAll(pool[..n], pool[k].power);
      } else {
        FewStronger(pool, n - 1, k);
      }
    }
  }

  lemma {:induction false} AtMostAll(moves: seq<Move>, power: int)
    ensures Stronger(moves, power) <= |moves|
  {
    if moves != [] {
      AtMostAll(moves[..|moves| - 1], power);
    }
  }

  /** The chosen move is a known one; none is stronger against a weakness, and at most one is otherwise. */
  lemma ChoiceIsStrong(moves: seq<Move>, e: Effect)
    requires moves != []
    ensures Choose(moves, e) in moves
    ensures Stronger(moves, Choose(moves, e).power) <= if e == Strong then 0 else 1
  {
    var pool := ByPower(moves);
    hide ByPower, Stronger;
    ByPowerFalls(moves);
    ByPowerCounts(moves, Choose(moves, e).power);
    assert pool[..|pool|] == pool;
    FewStronger(pool, |pool|, if e == Strong || |pool| == 1 then 0 else 1);
  }

  /** Without a weakness, and with two moves known, another one is at least as strong. */
  lemma ChoiceIsSecond(moves: seq<Move>, e: Effect)
    requires |moves| >= 2 && e != Strong
    ensures Stronger(moves, Choose(moves, e).power - 1) >= 2
  {
    var pool := ByPower(moves);
    hide ByPower, Stronger;
    ByPowerFalls(moves);
    ByPowerCounts(moves, pool[1].power - 1);
    TwoStronger(pool, pool[1].power - 1);
  }

  lemma {:induction false} TwoStronger(pool: seq<Move>, power: int)
    requires |pool| >= 2 && pool[0].power > power && pool[1].power > power
    ensures Stronger(pool, power) >= 2
  {
    if |pool| > 2 {
      TwoStronger(pool[..|pool| - 1], power);
    } else {
      assert pool[..1][..0] == [];
      assert Stronger(pool[..1], power) == 1;
    }
  }

  /** The moves of one power, as listed. */
  function OfPower(moves: seq<Move>, power: int): seq<Move> {
    if moves == [] then []
    else
      var last := |moves| - 1;
      var front := OfPower(moves[..last], power);
      if moves[last].power == power then front + [moves[last]] else front
  }

  lemma {:induction false} InsertKeepsOrder(sorted: seq<Move>, mv: Move, power: int)
    requires Falling(sorted)
    ensures OfPower(InsertMove(sorted, mv), power) == OfPower(sorted + [mv], power)
  {
    var last := |sorted| - 1;
    assert (sorted + [mv])[..|sorted|] == sorted;
    if sorted != [] && sorted[last].power < mv.power {
      InsertKeepsOrder(sorted[..last], mv, power);
      assert (sorted[..last] + [mv])[..last] == sorted[..last];
      var r := InsertMove(sorted[..last], mv);
      assert (r + [sorted[last]])[..|r|] == r;
    }
  }

  /** The sort is stable: moves of equal power keep their places. */
  lemma {:induction false} ByPowerIsStable(moves: seq<Move>, power: int)
    ensures OfPower(ByPower(moves), power) == OfPower(moves, power)
  {
    if moves != [] {
      var last := |moves| - 1;
      var sorted := ByPower(moves[..last]);
      ByPowerIsStable(moves[..last], power);
      ByPowerFalls(moves[..last]);
      InsertKeepsOrder(sorted, moves[last], power);
      assert (sorted + [moves[last]])[..|sorted|] == sorted;
    }
  }

  // ---- One attack ----------------------------------------------------------------------------

  function OrElse(n: int, fallback: int): int {
    if n == 0 then fallback else n
  }

  /** The standard formula; `variance` lies between 0.85 and 1. */
  function StandardDamage(e: Effect, attacker: Mon, defender: Mon, movePower: int, variance: real): int {
    var level, power := OrElse(attacker.level, 5) as real, OrElse(movePower, 50) as real;
    var ratio := Max(1, attacker.stats.atk) as real / Max(1, defender.stats.def) as real;
    var raw := ((2.0 * level / 5.0 + 2.0) * power * ratio) / 50.0 + 2.0;
    Max(1, (raw * Factor(e) * variance).Floor)
  }

  /** An immune defender costs no draw. */
  function RollStandard(rules: Rules, attacker: Mon, defender: Mon, power: int, s: Word): Draw<int> {
    var e := rules.effect(attacker.element, defender.element);
    if e == Immune then Draw(0, s)
    else
      var v := RollFloat(rules.mix, s, 0.85, 1.0);
      Draw(StandardDamage(e, attacker, defender, power, v.value), v.next)
  }

  /** The largest hit: 30 percent of the defender's maximum, 40 percent when super effective, rounded up. */
  function HitCap(maxHP: int, e: Effect): int {
    if e == Strong then (2 * maxHP + 4) / 5 else (3 * maxHP + 9) / 10
  }

  function Boosted(dmg: int, stab: bool, crit: bool): int {
    (dmg as real * (if stab then 1.5 else 1.0) * (if crit then 1.5 else 1.0)).Floor
  }

  datatype Hit = Hit(dmg: int, crit: bool, miss: bool, status: Option<string>, next: Word)

  /** Accuracy, damage, critical, cap and status, in the order the generator is asked. */
  function Strike(rules: Rules, mv: Move, attacker: Mon, defender: Mon, maxHP: int, s: Word): (h: Hit)
    ensures h.miss ==> h.dmg == 0
    ensures !h.miss ==> 1 <= h.dmg <= Max(1, HitCap(maxHP, rules.effect(attacker.element, defender.element)))
  {
    var e := rules.effect(attacker.element, defender.element);
    var accuracy := Roll(rules.mix, s);
    if accuracy.value * 100.0 > OrElse(mv.acc, 100) as real then Hit(0, false, true, None, accuracy.next)
    else
      var dmg := RollStandard(rules, attacker, defender, mv.power, accuracy.next);
      var crit := RollChance(rules.mix, dmg.next, 0.0625);
      var boosted := Boosted(dmg.value, mv.element == attacker.element, crit.value);
      var capped := Max(1, Min(boosted, HitCap(maxHP, e)));
      if mv.status.Some? && mv.status.value != "" && mv.effChance > 0 then
        var effect := Roll(rules.mix, crit.next);
        var status := if effect.value * 100.0 < mv.effChance as real then mv.status else None;
        Hit(capped, crit.value, false, status, effect.next)
      else Hit(capped, crit.value, false, None, crit.next)
  }

  // ---- The fight as a function ---------------------------------------------------------------

  datatype Bout = Bout(myHP: int, foeHP: int, turns: nat, next: Word, events: seq<BattleEvent>)

  datatype Match = Match(rules: Rules, learn: Learnset, me: Mon, foe: Mon) {

    /** The cached moves, or those that the first use caches. */
    function Known(m: Mon): seq<Move> {
      if m.moves.Some? then m.moves.value else learn(m.element, m.level)
    }

    function MaxOf(m: Mon): (hp: int)
      ensures hp != 0
    {
      OrElse(m.stats.hp, OrElse(m.currentHP, 1))
    }

    /** The attack of one side; nothing happens once either side is down. */
    function Act(b: Bout, who: Side): (b': Bout)
      ensures b'.turns == b.turns
    {
      if b.myHP <= 0 || b.foeHP <= 0 then b
      else
        var atk, def := if who == Me then me else foe, if who == Me then foe else me;
        var e := rules.effect(atk.element, def.element);
        var mv := Choose(Known(atk), e);
        var h := Strike(rules, mv, atk, def, MaxOf(def), b.next);
        var (my, their) := Hurt((b.myHP, b.foeHP), who, h.dmg);
        b.(myHP := my, foeHP := their, next := h.next,
           events := b.events + [BattleEvent(who, mv, h.dmg, e, h.crit, h.miss, h.status, my, their)])
    }

    predicate MeFirst() {
      me.stats.spd >= foe.stats.spd
    }

    /** Who attacks first, and who second. */
    function First(): Side {
      if MeFirst() then Me else Foe
    }

    function Second(): Side {
      if MeFirst() then Foe else Me
    }

    function Turn(b: Bout): Bout {
      var b := b.(turns := b.turns + 1);
      if MeFirst() then Act(Act(b, Me), Foe) else Act(Act(b, Foe), Me)
    }

    function Turns(b: Bout): Bout
      decreases BATTLE_TURN_CAP - b.turns
    {
      if b.myHP > 0 && b.foeHP > 0 && b.turns < BATTLE_TURN_CAP then Turns(Turn(b)) else b
    }

    function Opening(s: Word): Bout {
      Bout(me.currentHP, foe.currentHP, 0, s, [])
    }

    function Final(s: Word): Bout {
      Turns(Opening(s))
    }

    /** The fight after its first attack. */
    function FirstBlow(s: Word): Bout {
      Act(Opening(s).(turns := 1), First())
    }

    function Fighter(who: Side): Mon {
      if who == Me then me else foe
    }

    /** Nobody attacks, or each one that does has its moves cached beforehand. */
    predicate LeavesInputs(s: Word) {
      var blow := FirstBlow(s);
      || me.currentHP <= 0 || foe.currentHP <= 0
      || (&& Fighter(First()).moves.Some?
          && (Fighter(Second()).moves.Some? || blow.myHP <= 0 || blow.foeHP <= 0))
    }

    /** A knock-out decides; at the turn cap the larger HP fraction does, and a tie goes to `me`. */
    function Won(b: Bout): bool {
      if b.foeHP <= 0 then true
      else if b.myHP <= 0 then false
      else b.myHP as real / MaxOf(me) as real >= b.foeHP as real / MaxOf(foe) as real
    }
  }

  /** Damage lands on the other side and stops at zero. */
  function Hurt(hp: (int, int), who: Side, dmg: int): (int, int) {
    if who == Me then (hp.0, Max(0, hp.1 - dmg)) else (Max(0, hp.0 - dmg), hp.1)
  }

  datatype BattleResult = BattleResult(won: bool, myHP: int, foeHP: int, turnsUsed: nat, events: seq<BattleEvent>)

  /** Whether a side has attacked. */
  predicate Attacked(events: seq<BattleEvent>, who: Side) {
    exists e | e in events :: e.who == who
  }

  /** A monster after a fight: its moves are cached once it has attacked, as either side. */
  function AfterFight(m: Match, before: Mon, asMe: bool, asFoe: bool, events: seq<BattleEvent>): Mon {
    if (asMe && Attacked(events, Me)) || (asFoe && Attacked(events, Foe)) then before.(moves := Some(m.Known(before)))
    else before
  }

  method SimulateBattle(effect: Chart, learn: Learnset, me: MonsterInstance, foe: MonsterInstance, rng: Rng)
    returns (r: BattleResult)
    modifies rng, me`moves, foe`moves
    ensures var m := Match(Rules(rng.mix, effect), learn, old(me.Value()), old(foe.Value()));
            var b := m.Final(old(rng.state));
            && rng.state == b.next
            && r == BattleResult(m.Won(b), b.myHP, b.foeHP, b.turns, b.events)
            && me.Value() == AfterFight(m, m.me, true, me == foe, b.events)
            && foe.Value() == AfterFight(m, m.foe, me == foe, true, b.events)
            && (me.Value() == m.me && foe.Value() == m.foe <==> m.LeavesInputs(old(rng.state)))
  {
    hide Match.Act, Match.Known, Match.LeavesInputs;
    ghost var m := Match(Rules(rng.mix, effect), learn, me.Value(), foe.Value());
    var fight := Match(Rules(rng.mix, effect), learn, me.Value(), foe.Value());
    var b := fight.Opening(rng.state);
    ghost var goal := m.Final(rng.state);
    while b.myHP > 0 && b.foeHP > 0 && b.turns < BATTLE_TURN_CAP
      invariant m.Turns(b) == goal
      invariant rng.state == b.next
      invariant me.Value() == AfterFight(m, m.me, true, me == foe, b.events)
      invariant foe.Value() == AfterFight(m, m.foe, me == foe, true, b.events)
      decreases BATTLE_TURN_CAP - b.turns
    {
      b := b.(turns := b.turns + 1);
      var order := if me.stats.spd >= foe.stats.spd then [Me, Foe] else [Foe, Me];
      b := PlayAct(fight, b, order[0], me, foe, rng);
      b := PlayAct(fight, b, order[1], me, foe, rng);
    }
    LeavesInputsIff(m, old(rng.state), me == foe);
    var won := fight.Won(b);
    r := BattleResult(won, b.myHP, b.foeHP, b.turns, b.events);
  }

  /** The body of the inner loop over the two sides. */
  method PlayAct(m: Match, b: Bout, who: Side, me: MonsterInstance, foe: MonsterInstance, rng: Rng) returns (b': Bout)
    requires rng.mix == m.rules.mix && rng.state == b.next
    requires me == foe ==> m.me == m.foe
    requires me.Value() == AfterFight(m, m.me, true, me == foe, b.events)
    requires foe.Value() == AfterFight(m, m.foe, me == foe, true, b.events)
    modifies rng, me`moves, foe`moves
    ensures b' == m.Act(b, who)
    ensures rng.state == b'.next
    ensures me.Value() == AfterFight(m, m.me, true, me == foe, b'.events)
    ensures foe.Value() == AfterFight(m, m.foe, me == foe, true, b'.events)
  {
    hide Choose, Strike, Match.MaxOf;
    if b.myHP <= 0 || b.foeHP <= 0 { return b; }
    var atk, def := if who == Me then m.me else m.foe, if who == Me then m.foe else m.me;
    var e := m.rules.effect(atk.element, def.element);
    var mv := PickMove(m.learn, if who == Me then me else foe, e);
    var h := PlayStrike(m.rules, mv, atk, def, m.MaxOf(def), rng);
    var (my, their) := Hurt((b.myHP, b.foeHP), who, h.dmg);
    b' := b.(myHP := my, foeHP := their, next := h.next,
             events := b.events + [BattleEvent(who, mv, h.dmg, e, h.crit, h.miss, h.status, my, their)]);
    OneMoreAttack(b.events, b'.events[|b.events|]);
  }

  lemma OneMoreAttack(events: seq<BattleEvent>, e: BattleEvent)
    ensures forall who :: Attacked(events + [e], who) <==> Attacked(events, who) || who == e.who
  {
    forall who ensures Attacked(events + [e], who) <==> Attacked(events, who) || who == e.who {
      assert e in events + [e];
      if Attacked(events, who) {
        var x :| x in events && x.who == who;
        assert x in events + [e];
      }
    }
  }

  /** The first use fills the cache. */
  method PickMove(learn: Learnset, attacker: MonsterInstance, e: Effect) returns (mv: Move)
    modifies attacker`moves
    ensures var known := if old(attacker.moves).Some? then old(attacker.moves).value
                         else learn(attacker.element, attacker.level);
            && mv == Choose(known, e)
            && attacker.moves == Some(known)
  {
    if attacker.moves.None? {
      attacker.moves := Some(learn(attacker.element, attacker.level));
    }
    mv := Choose(attacker.moves.value, e);
  }

  method PlayStrike(rules: Rules, mv: Move, attacker: Mon, defender: Mon, maxHP: int, rng: Rng) returns (h: Hit)
    requires rng.mix == rules.mix
    modifies rng
    ensures h == Strike(rules, mv, attacker, defender, maxHP, old(rng.state))
    ensures rng.state == h.next
  {
    var e := rules.effect(attacker.element, defender.element);
    var accuracy := rng.Next();
    if accuracy * 100.0 > OrElse(mv.acc, 100) as real {
      return Hit(0, false, true, None, rng.state);
    }
    var dmg := 0;
    if e != Immune {
      var variance := rng.Float(0.85, 1.0);
      dmg := StandardDamage(e, attacker, defender, mv.power, variance);
    }
    var crit := rng.Chance(0.0625);
    dmg := Boosted(dmg, mv.element == attacker.element, crit);
    dmg := Max(1, Min(dmg, HitCap(maxHP, e)));
    var status := None;
    if mv.status.Some? && mv.status.value != "" && mv.effChance > 0 {
      var effect := rng.Next();
      if effect * 100.0 < mv.effChance as real {
        status := mv.status;
      }
    }
    h := Hit(dmg, crit, false, status, rng.state);
  }

  // ---- Replaying the log ---------------------------------------------------------------------

  /** The HPs after replaying the damage of `events` from `start`. */
  function Replay(start: (int, int), events: seq<BattleEvent>): (int, int) {
    if events == [] then start
    else
      var last := events[|events| - 1];
      Hurt(Replay(start, events[..|events| - 1]), last.who, last.dmg)
  }

  /** Every event was made with both sides standing, and records what the replay gives. */
  ghost predicate Faithful(start: (int, int), events: seq<BattleEvent>) {
    events == [] ||
    (var front, last := events[..|events| - 1], events[|events| - 1];
     var before := Replay(start, front);
     && Faithful(start, front)
     && before.0 > 0 && before.1 > 0
     && (last.myHP, last.foeHP) == Hurt(before, last.who, last.dmg))
  }

  ghost predicate Logged(m: Match, b: Bout) {
    var start := (m.me.currentHP, m.foe.currentHP);
    Faithful(start, b.events) && Replay(start, b.events) == (b.myHP, b.foeHP)
  }

  lemma ActLogged(m: Match, b: Bout, who: Side)
    requires Logged(m, b)
    ensures Logged(m, m.Act(b, who))
  {
    hide Strike, Match.MaxOf;
    if b.myHP > 0 && b.foeHP > 0 {
      var events := m.Act(b, who).events;
      assert events[..|events| - 1] == b.events;
    }
  }

  lemma {:induction false} TurnsLogged(m: Match, b: Bout)
    requires Logged(m, b)
    ensures Logged(m, m.Turns(b))
    decreases BATTLE_TURN_CAP - b.turns
  {
    hide Match.Act, Logged;
    if b.myHP > 0 && b.foeHP > 0 && b.turns < BATTLE_TURN_CAP {
      var t := b.(turns := b.turns + 1);
      assert Logged(m, t) by { LoggedIgnoresTurns(m, b, t); }
      var first, second := m.First(), m.Second();
      ActLogged(m, t, first);
      ActLogged(m, m.Act(t, first), second);
      TurnsLogged(m, m.Turn(b));
    }
  }

  lemma LoggedIgnoresTurns(m: Match, b: Bout, t: Bout)
    requires Logged(m, b) && t == b.(turns := t.turns)
    ensures Logged(m, t)
  {
  }

  /** Replaying the log gives every recorded HP and the final ones, and no fainted monster ever acts. */
  lemma LogReplays(m: Match, s: Word)
    ensures Logged(m, m.Final(s))
  {
    TurnsLogged(m, m.Opening(s));
  }

  // ---- Counting events -----------------------------------------------------------------------

  /** Two events a turn, but for a last turn whose first attack knocked the other side out. */
  ghost predicate Paced(b: Bout) {
    && 2 * b.turns - 1 <= |b.events| <= 2 * b.turns
    && (b.myHP > 0 && b.foeHP > 0 ==> |b.events| == 2 * b.turns)
  }

  lemma ActPace(m: Match, b: Bout, who: Side)
    ensures var a := m.Act(b, who);
            && a.turns == b.turns
            && (if b.myHP > 0 && b.foeHP > 0 then |a.events| == |b.events| + 1 else a == b)
  {
    hide Strike, Match.MaxOf;
  }

  lemma {:induction false} TurnsPaced(m: Match, b: Bout)
    requires Paced(b) && b.turns <= BATTLE_TURN_CAP
    ensures Paced(m.Turns(b)) && m.Turns(b).turns <= BATTLE_TURN_CAP
    decreases BATTLE_TURN_CAP - b.turns
  {
    hide Match.Act;
    if b.myHP > 0 && b.foeHP > 0 && b.turns < BATTLE_TURN_CAP {
      var t := b.(turns := b.turns + 1);
      var first, second := m.First(), m.Second();
      ActPace(m, t, first);
      ActPace(m, m.Act(t, first), second);
      TurnsPaced(m, m.Turn(b));
    }
  }

  lemma LogIsPaced(m: Match, s: Word)
    ensures Paced(m.Final(s)) && m.Final(s).turns <= BATTLE_TURN_CAP
  {
    TurnsPaced(m, m.Opening(s));
  }

  // ---- Whether the inputs are mutated --------------------------------------------------------

  lemma ActAttacks(m: Match, b: Bout, who: Side)
    ensures b.events <= m.Act(b, who).events
    ensures forall x :: Attacked(m.Act(b, who).events, x)
                   <==> Attacked(b.events, x) || (x == who && b.myHP > 0 && b.foeHP > 0)
  {
    hide Attacked, Strike, Choose, Match.MaxOf, Match.Known;
    if b.myHP > 0 && b.foeHP > 0 {
      OneMoreAttack(b.events, m.Act(b, who).events[|b.events|]);
    }
  }

  lemma AttackedStays(events: seq<BattleEvent>, more: seq<BattleEvent>, who: Side)
    requires Attacked(events, who) && events <= more
    ensures Attacked(more, who)
  {
    var e :| e in events && e.who == who;
    assert e in more;
  }

  lemma {:induction false} TurnsExtend(m: Match, b: Bout)
    ensures b.events <= m.Turns(b).events
    decreases BATTLE_TURN_CAP - b.turns
  {
    hide Match.Act, Attacked;
    if b.myHP > 0 && b.foeHP > 0 && b.turns < BATTLE_TURN_CAP {
      var t := b.(turns := b.turns + 1);
      ActAttacks(m, t, m.First());
      ActAttacks(m, m.Act(t, m.First()), m.Second());
      TurnsExtend(m, m.Turn(b));
    }
  }

  /** The faster side attacks if both stand at the start, and the other if both still stand after the first blow. */
  lemma WhoAttacks(m: Match, s: Word)
    ensures var b, blow, standing := m.Final(s), m.FirstBlow(s), m.me.currentHP > 0 && m.foe.currentHP > 0;
            && (Attacked(b.events, m.First()) <==> standing)
            && (Attacked(b.events, m.Second()) <==> standing && blow.myHP > 0 && blow.foeHP > 0)
  {
    hide Match.Act;
    if m.me.currentHP > 0 && m.foe.currentHP > 0 {
      var start, blow := m.Opening(s), m.FirstBlow(s);
      var turn := m.Act(blow, m.Second());
      ActAttacks(m, start.(turns := 1), m.First());
      ActAttacks(m, blow, m.Second());
      assert m.Final(s) == m.Turns(turn);
      if blow.myHP > 0 && blow.foeHP > 0 {
        TurnsExtend(m, turn);
        AttackedStays(turn.events, m.Final(s).events, Me);
        AttackedStays(turn.events, m.Final(s).events, Foe);
      } else {
        ActPace(m, start.(turns := 1), m.First());
        ActPace(m, blow, m.Second());
        assert m.Turns(turn) == blow;
      }
    }
  }

  /**
    * A fight leaves both monsters as they were exactly when nobody attacks, or each one that does has its moves cached
    * beforehand; `same` is for one object on both sides.
    */
  lemma LeavesInputsIff(m: Match, s: Word, same: bool)
    requires same ==> m.me == m.foe
    ensures var events := m.Final(s).events;
            AfterFight(m, m.me, true, same, events) == m.me && AfterFight(m, m.foe, same, true, events) == m.foe
            <==> m.LeavesInputs(s)
  {
    WhoAttacks(m, s);
    hide Match.Final, Match.FirstBlow, Attacked;
  }

  // ---- The per-hit cap -----------------------------------------------------------------------

  /** The attacks of one side that landed. */
  function Landed(events: seq<BattleEvent>, who: Side): nat {
    if events == [] then 0
    else Landed(events[..|events| - 1], who)
         + (if events[|events| - 1].who == who && !events[|events| - 1].miss then 1 else 0)
  }

  function HPAgainst(b: Bout, who: Side): int {
    if who == Me then b.foeHP else b.myHP
  }

  /** A side's HP is short by at most one cap for each hit it took. */
  ghost predicate Capped(m: Match, b: Bout, who: Side) {
    var atk, def := if who == Me then m.me else m.foe, if who == Me then m.foe else m.me;
    HPAgainst(b, who) >= def.currentHP - Landed(b.events, who) * HitCost(m, atk, def)
  }

  function HitCost(m: Match, atk: Mon, def: Mon): nat {
    Max(1, HitCap(m.MaxOf(def), m.rules.effect(atk.element, def.element)))
  }

  lemma ActCapped(m: Match, b: Bout, who: Side, actor: Side)
    requires Capped(m, b, who)
    ensures Capped(m, m.Act(b, actor), who)
  {
    hide HitCap, Strike, Match.MaxOf;
    if b.myHP > 0 && b.foeHP > 0 {
      var events := m.Act(b, actor).events;
      assert events[..|events| - 1] == b.events;
      var atk, def := if who == Me then m.me else m.foe, if who == Me then m.foe else m.me;
      OneMore(Landed(b.events, who), HitCost(m, atk, def));
    }
  }

  lemma OneMore(n: nat, cost: nat)
    ensures (n + 1) * cost == n * cost + cost
  {
  }

  lemma {:induction false} TurnsCapped(m: Match, b: Bout, who: Side)
    requires Capped(m, b, who)
    ensures Capped(m, m.Turns(b), who)
    decreases BATTLE_TURN_CAP - b.turns
  {
    hide Match.Act, HitCost;
    if b.myHP > 0 && b.foeHP > 0 && b.turns < BATTLE_TURN_CAP {
      var t := b.(turns := b.turns + 1);
      var first, second := m.First(), m.Second();
      ActCapped(m, t, who, first);
      ActCapped(m, m.Act(t, first), who, second);
      TurnsCapped(m, m.Turn(b), who);
    }
  }

  lemma FinalCapped(m: Match, s: Word, who: Side)
    ensures Capped(m, m.Final(s), who)
  {
    TurnsCapped(m, m.Opening(s), who);
  }

  /** From full HP, nobody falls to two hits with nine HP, nor to three that are not super effective with 28. */
  lemma CapGuarantees(m: Match, s: Word, who: Side)
    ensures var atk, def := if who == Me then m.me else m.foe, if who == Me then m.foe else m.me;
            var b, hp := m.Final(s), def.stats.hp;
            var e := m.rules.effect(atk.element, def.element);
            def.currentHP == hp
            && ((hp >= 9 && Landed(b.events, who) <= 2)
                || (hp >= 28 && e != Strong && Landed(b.events, who) <= 3))
            ==> HPAgainst(b, who) > 0
  {
    FinalCapped(m, s, who);
    var atk, def := if who == Me then m.me else m.foe, if who == Me then m.foe else m.me;
    hide Match.Turns, Match.Final, Landed;
    var hits := Landed(m.Final(s).events, who);
    MulMono(Min(hits, 3), if hits <= 2 then 2 else 3, HitCost(m, atk, def), HitCost(m, atk, def));
  }

  // ---- The bounds are the least possible -----------------------------------------------------

  function Unlearned(e: Element, level: nat): seq<Move> { [] }

  /** A giant against a monster of `hp` HP that is slower, with every roll the lowest and one effect for all. */
  function Trial(hp: int, e: Effect): Match {
    Match(Rules(Lowest, (a: Element, d: Element) => e), Unlearned,
          Mon(1, Fire, 50, 0, 0, Stats(1000, 1000, 1, 10), 1000, 0, 0, None, 0.0, None),
          Mon(2, Fire, 50, 0, 0, Stats(hp, 1, 1, 0), hp, 0, 0, None, 0.0, None))
  }

  /** Each of the giant's hits lands and takes the whole cap. */
  lemma GiantHits(hp: int, e: Effect, s: Word)
    requires 1 <= hp <= 27 && (e == Neutral || e == Strong)
    ensures var m := Trial(hp, e);
            var h := Strike(m.rules, FALLBACK_MOVE, m.me, m.foe, hp, s);
            !h.miss && h.dmg == HitCap(hp, e)
  {
    var m := Trial(hp, e);
    var v := RollFloat(Lowest, Advance(s), 0.85, 1.0);
    assert v.value == 0.85;
    var dmg := StandardDamage(e, m.me, m.foe, 40, 0.85);
    assert dmg >= 1000 by { GiantDamage(hp, e); }
    assert Boosted(dmg, false, true) >= dmg by { BoostGrows(dmg); }
    hide StandardDamage, Boosted;
  }

  lemma GiantDamage(hp: int, e: Effect)
    requires e == Neutral || e == Strong
    ensures StandardDamage(e, Trial(hp, e).me, Trial(hp, e).foe, 40, 0.85) >= 1000
  {
    assert ((2.0 * 50.0 / 5.0 + 2.0) * 40.0 * (1000.0 / 1.0)) / 50.0 + 2.0 == 17602.0;
  }

  lemma BoostGrows(dmg: int)
    requires dmg >= 0
    ensures Boosted(dmg, false, true) >= dmg
  {
  }

  /** A turn of the trial: the cap comes off, one more hit has landed, and the giant can stand what comes back. */
  lemma TrialTurn(hp: int, e: Effect, b: Bout)
    requires 1 <= hp <= 27 && (e == Neutral || e == Strong)
    requires b.myHP > 0 && b.foeHP > 0
    ensures var t := Trial(hp, e).Turn(b);
            && t.turns == b.turns + 1
            && t.foeHP == Max(0, b.foeHP - HitCap(hp, e))
            && Landed(t.events, Me) == Landed(b.events, Me) + 1
            && t.myHP >= b.myHP - 400
  {
    hide Strike, HitCap;
    var m := Trial(hp, e);
    var t := b.(turns := b.turns + 1);
    GiantHits(hp, e, t.next);
    assert Choose([], e) == FALLBACK_MOVE;
    assert m.MaxOf(m.foe) == hp && m.MaxOf(m.me) == 1000;
    var first := m.Act(t, Me);
    assert first.events[..|first.events| - 1] == b.events;
    var second := m.Act(first, Foe);
    GiantCap(e);
    if first.foeHP > 0 {
      assert second.events[..|second.events| - 1] == first.events;
    }
  }

  lemma GiantCap(e: Effect)
    ensures Max(1, HitCap(1000, e)) <= 400
  {
  }

  /** The bounds are sharp: 8 HP fall to two super-effective hits, and 27 HP to three others. */
  lemma CapBoundsSharp(s: Word)
    ensures var b := Trial(8, Strong).Final(s); b.foeHP == 0 && Landed(b.events, Me) == 2
    ensures var b := Trial(27, Neutral).Final(s); b.foeHP == 0 && Landed(b.events, Me) == 3
  {
    hide Match.Turn, Match.Act;
    var m := Trial(8, Strong);
    var b0 := m.Opening(s);
    TrialTurn(8, Strong, b0);
    var b1 := m.Turn(b0);
    TrialTurn(8, Strong, b1);
    assert m.Turns(b0) == m.Turns(b1) == m.Turns(m.Turn(b1)) == m.Turn(b1);
    var n := Trial(27, Neutral);
    var c0 := n.Opening(s);
    TrialTurn(27, Neutral, c0);
    var c1 := n.Turn(c0);
    TrialTurn(27, Neutral, c1);
    var c2 := n.Turn(c1);
    TrialTurn(27, Neutral, c2);
    assert n.Turns(c0) == n.Turns(c1) == n.Turns(c2) == n.Turns(n.Turn(c2)) == n.Turn(c2);
  }

  /** The trial fight as run mutates an input: the giant attacks with nothing cached. */
  lemma TrialMutates(hp: int, e: Effect, s: Word)
    requires hp > 0
    ensures var m := Trial(hp, e); AfterFight(m, m.me, true, false, m.Final(s).events) != m.me
  {
    hide Match.FirstBlow, Match.Final;
    WhoAttacks(Trial(hp, e), s);
  }

  /** A hit on an immune defender costs exactly one HP, here and in the light formula. */
  lemma ImmuneLosesOne(rules: Rules, mv: Move, attacker: Mon, defender: Mon, maxHP: int, s: Word, variance: real)
    requires rules.effect(attacker.element, defender.element) == Immune
    ensures var h := Strike(rules, mv, attacker, defender, maxHP, s); !h.miss ==> h.dmg == 1
    ensures SimpleDamage(rules.effect, attacker, defender, variance) == 1
  {
  }
}
