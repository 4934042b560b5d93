/** The automatic fights of src/battle.ts and the light damage formula of src/damage.ts. */
module Battle {
  import opened Numbers
  import opened Wrappers
  import opened Random
  import opened Monsters

  datatype Effect = Immune | Weak | Neutral | Strong

  type Chart = (Element, Element) -> Effect

  type Resolver = int -> Option<Template>

  /** What chance and the type chart decide. */
  datatype Rules = Rules(mix: Mixer, effect: Chart)

  function Factor(e: Effect): real {
    match e
    case Immune => 0.0
    case Weak => 0.5
    case Neutral => 1.0
    case Strong => 2.0
  }

  /** No type stands out, for examples. */
  function Even(a: Element, b: Element): Effect { Neutral }

  // ---- Light damage --------------------------------------------------------------------------

  function DamageFrom(atk: int, level: nat, def: int, factor: real, variance: real): (dmg: int)
    ensures dmg >= 1
  {
    var base := Max(1, atk - def / 2);
    var levelMod := 1.0 + (level - 1) as real * 0.02;
    Max(1, (base as real * factor * variance * levelMod).Floor)
  }

  function SimpleDamage(effect: Chart, attacker: Mon, defender: Mon, variance: real): (dmg: int)
    ensures dmg >= 1
  {
    DamageFrom(attacker.stats.atk, attacker.level, defender.stats.def,
               Factor(effect(attacker.element, defender.element)), variance)
  }

  function RollDamage(rules: Rules, attacker: Mon, defender: Mon, s: Word): (d: Draw<int>)
    ensures d.value >= 1
  {
    var v := RollFloat(rules.mix, s, 0.85, 1.15);
    Draw(SimpleDamage(rules.effect, attacker, defender, v.value), v.next)
  }

  method CalcDamageSimple(effect: Chart, attacker: Mon, defender: Mon, rng: Rng) returns (dmg: int)
    modifies rng
    ensures Draw(dmg, rng.state) == RollDamage(Rules(rng.mix, effect), attacker, defender, old(rng.state))
  {
    var variance := rng.Float(0.85, 1.15);
    dmg := SimpleDamage(effect, attacker, defender, variance);
  }

  // ---- One exchange --------------------------------------------------------------------------

  /** The HP of both sides and the generator state. */
  datatype Duel = Duel(mine: int, theirs: int, next: Word) {
    ghost predicate Ongoing() { mine > 0 && theirs > 0 }

    /** Exactly one side is down. */
    ghost predicate Decided() { (mine <= 0) != (theirs <= 0) }

    ghost function Left(): nat { Max(0, mine) + Max(0, theirs) }
  }

  /** The faster side hits, and the other answers if it still stands. */
  function Exchange(rules: Rules, me: Mon, foe: Mon, d: Duel): (e: Duel)
    ensures e.mine <= d.mine && e.theirs <= d.theirs
    ensures d.Ongoing() ==> (e.Ongoing() || e.Decided()) && e.Left() < d.Left()
  {
    if me.stats.spd >= foe.stats.spd then
      var hit := RollDamage(rules, me, foe, d.next);
      if d.theirs - hit.value <= 0 then Duel(d.mine, d.theirs - hit.value, hit.next)
      else
        var back := RollDamage(rules, foe, me, hit.next);
        Duel(d.mine - back.value, d.theirs - hit.value, back.next)
    else
      var hit := RollDamage(rules, foe, me, d.next);
      if d.mine - hit.value <= 0 then Duel(d.mine - hit.value, d.theirs, hit.next)
      else
        var back := RollDamage(rules, me, foe, hit.next);
        Duel(d.mine - hit.value, d.theirs - back.value, back.next)
  }

  // ---- The capped fight ----------------------------------------------------------------------

  const AUTO_TURN_CAP: nat := 20

  datatype AutoResult = AutoResult(won: bool, hpRemaining: int, turnsUsed: nat)

  function AutoRounds(rules: Rules, me: Mon, foe: Mon, d: Duel, turns: nat): (r: (Duel, nat))
    requires turns <= AUTO_TURN_CAP
    ensures turns <= r.1 <= AUTO_TURN_CAP
    ensures r.0.mine <= d.mine
    ensures r.0.mine <= 0 || r.0.theirs <= 0 || r.1 == AUTO_TURN_CAP
    decreases AUTO_TURN_CAP - turns
  {
    if d.mine > 0 && d.theirs > 0 && turns < AUTO_TURN_CAP
    then AutoRounds(rules, me, foe, Exchange(rules, me, foe, d), turns + 1)
    else (d, turns)
  }

  function AutoFight(rules: Rules, me: Mon, foe: Mon, s: Word): (d: Draw<AutoResult>)
    ensures 0 <= d.value.hpRemaining <= Max(0, me.currentHP)
  {
    var (end, turns) := AutoRounds(rules, me, foe, Duel(me.currentHP, foe.currentHP, s), 0);
    Draw(AutoResult(end.theirs <= 0, Max(0, end.mine), turns), end.next)
  }

  method SimulateAuto(effect: Chart, party: MonsterInstance, wild: MonsterInstance, rng: Rng)
    returns (r: AutoResult)
    modifies rng
    ensures Draw(r, rng.state) == AutoFight(Rules(rng.mix, effect), party.Value(), wild.Value(), old(rng.state))
  {
    hide Exchange;
    var me, foe := party.Value(), wild.Value();
    var partyHP, wildHP, turns: nat := party.currentHP, wild.currentHP, 0;
    ghost var rules := Rules(rng.mix, effect);
    ghost var goal := AutoRounds(rules, me, foe, Duel(partyHP, wildHP, rng.state), 0);
    while partyHP > 0 && wildHP > 0 && turns < AUTO_TURN_CAP
      invariant turns <= AUTO_TURN_CAP
      invariant AutoRounds(rules, me, foe, Duel(partyHP, wildHP, rng.state), turns) == goal
    {
      turns := turns + 1;
      partyHP, wildHP := PlayExchange(effect, me, foe, partyHP, wildHP, rng);
    }
    r := AutoResult(wildHP <= 0, Max(0, partyHP), turns);
  }

  /** The loop body that the two fights share. */
  method PlayExchange(effect: Chart, me: Mon, foe: Mon, mine: int, theirs: int, rng: Rng)
    returns (mine': int, theirs': int)
    modifies rng
    ensures Duel(mine', theirs', rng.state)
         == Exchange(Rules(rng.mix, effect), me, foe, Duel(mine, theirs, old(rng.state)))
  {
    mine', theirs' := mine, theirs;
    if me.stats.spd >= foe.stats.spd {
      var hit := CalcDamageSimple(effect, me, foe, rng);
      theirs' := theirs' - hit;
      if theirs' <= 0 { return; }
      var back := CalcDamageSimple(effect, foe, me, rng);
      mine' := mine' - back;
    } else {
      var hit := CalcDamageSimple(effect, foe, me, rng);
      mine' := mine' - hit;
      if mine' <= 0 { return; }
      var back := CalcDamageSimple(effect, me, foe, rng);
      theirs' := theirs' - back;
    }
  }

  // ---- The gym chain -------------------------------------------------------------------------

  datatype GymEntry = GymEntry(monsterId: int, level: nat)

  datatype KO = KO(myMon: int, gymMon: int, gymLv: nat)

  /** The uncapped duel; it ends because every hit takes at least one HP. */
  function DuelToTheEnd(rules: Rules, me: Mon, foe: Mon, d: Duel): (e: Duel)
    ensures e.mine <= d.mine && e.theirs <= d.theirs
    ensures d.theirs > 0 ==> e.Decided()
    ensures d.mine <= 0 ==> e == d
    decreases d.Left()
  {
    if d.mine > 0 && d.theirs > 0 then DuelToTheEnd(rules, me, foe, Exchange(rules, me, foe, d)) else d
  }

  /** Where the chain stands: the party's HP, the two indices, the generator and the knock-outs so far. */
  datatype Chain = Chain(hp: seq<int>, partyIdx: nat, gymIdx: nat, next: Word, results: seq<KO>)

  datatype Gauntlet = Gauntlet(rules: Rules, tplOf: Resolver, party: seq<Mon>, gym: seq<GymEntry>) {
    ghost predicate Fits(c: Chain) {
      |c.hp| == |party| && c.partyIdx <= |party| && c.gymIdx <= |gym|
    }

    predicate Running(c: Chain) {
      c.partyIdx < |party| && c.gymIdx < |gym|
    }

    function Start(s: Word): (c: Chain)
      ensures Fits(c)
    {
      Chain(HPs(party), 0, 0, s, [])
    }

    /** One turn of the outer loop moves exactly one of the two indices. */
    function Round(c: Chain): (c': Chain)
      requires Fits(c) && Running(c)
      ensures Fits(c')
      ensures c.partyIdx <= c'.partyIdx && c.gymIdx <= c'.gymIdx
      ensures c'.partyIdx + c'.gymIdx == c.partyIdx + c.gymIdx + 1
    {
      var i, entry := c.partyIdx, gym[c.gymIdx];
      match tplOf(entry.monsterId)
      case None => c.(gymIdx := c.gymIdx + 1)
      case Some(tpl) =>
        var foe := MakeCombatant(tpl, entry.level);
        var end := DuelToTheEnd(rules, party[i], foe, Duel(c.hp[i], foe.stats.hp, c.next));
        var won := end.theirs <= 0;
        Chain(c.hp[i := Max(0, end.mine)],
              if end.mine <= 0 then i + 1 else i,
              if won then c.gymIdx + 1 else c.gymIdx,
              end.next,
              if won then c.results + [KO(party[i].templateId, tpl.id, entry.level)] else c.results)
    }

    function Rounds(c: Chain): (end: Chain)
      requires Fits(c)
      ensures Fits(end) && !Running(end)
      decreases |party| + |gym| - c.partyIdx - c.gymIdx
    {
      if Running(c) then Rounds(Round(c)) else c
    }

    function Outcome(s: Word): (end: Chain)
      ensures Fits(end) && !Running(end)
    {
      Rounds(Start(s))
    }
  }

  function HPs(ms: seq<Mon>): seq<int> {
    seq(|ms|, i requires 0 <= i < |ms| => ms[i].currentHP)
  }

  datatype GymResult = GymResult(won: bool, gymDefeated: nat, partyFainted: nat, results: seq<KO>)

  method SimulateGym(
      effect: Chart, tplOf: Resolver, party: seq<MonsterInstance>, gymTeam: seq<GymEntry>, rng: Rng,
      ghost g: Gauntlet)
    returns (r: GymResult)
    requires g == Gauntlet(Rules(rng.mix, effect), tplOf, Values(party), gymTeam)
    modifies party, rng
    ensures var end := g.Outcome(old(rng.state));
            && rng.state == end.next
            && r == GymResult(end.gymIdx == |gymTeam|, end.gymIdx, end.partyIdx, end.results)
            && (forall i | 0 <= i < |party| ::
                  party[i].Value() == old(party[i].Value()).(currentHP := Max(0, end.hp[LastIndex(party, party[i])])))
  {
    hide DuelToTheEnd, MakeCombatant;
    var partyIdx, gymIdx, results: seq<KO> := 0, 0, [];
    var partyHP := HPs(Values(party));
    ghost var goal := g.Outcome(rng.state);
    while partyIdx < |party| && gymIdx < |gymTeam|
      invariant 0 <= partyIdx <= |party| && 0 <= gymIdx <= |gymTeam| && |partyHP| == |party|
      invariant g.Rounds(Chain(partyHP, partyIdx, gymIdx, rng.state, results)) == goal
      decreases |party| + |gymTeam| - partyIdx - gymIdx
      modifies rng
    {
      ghost var c := Chain(partyHP, partyIdx, gymIdx, rng.state, results);
      var entry := gymTeam[gymIdx];
      var tpl := tplOf(entry.monsterId);
      if tpl.None? {
        gymIdx := gymIdx + 1;
        continue;
      }
      var myMon, gymMon := party[partyIdx].Value(), MakeCombatant(tpl.value, entry.level);
      var myHP, gymHP := partyHP[partyIdx], gymMon.stats.hp;
      myHP, gymHP := PlayDuel(effect, myMon, gymMon, myHP, gymHP, rng);
      partyHP := partyHP[partyIdx := Max(0, myHP)];
      if gymHP <= 0 {
        results := results + [KO(myMon.templateId, tpl.value.id, entry.level)];
        gymIdx := gymIdx + 1;
      }
      if myHP <= 0 {
        partyIdx := partyIdx + 1;
      }
      assert Chain(partyHP, partyIdx, gymIdx, rng.state, results) == g.Round(c);
    }
    StoreHP(party, partyHP);
    r := GymResult(gymIdx >= |gymTeam|, gymIdx, partyIdx, results);
  }

  /** Writes the HP left by the fight through to the party; a member listed twice keeps what is written last. */
  method StoreHP(party: seq<MonsterInstance>, hp: seq<int>)
    requires |hp| == |party|
    modifies party
    ensures forall i | 0 <= i < |party| ::
              party[i].Value() == old(party[i].Value()).(currentHP := Max(0, hp[LastIndex(party, party[i])]))
  {
    hide Stored;
    StoredEnds(party, hp);
    for i := 0 to |party|
      invariant forall j | 0 <= j < |party| ::
          party[j].Value()
          == old(party[j].Value()).(currentHP := Stored(party, hp, i, party[j], old(party[j].currentHP)))
    {
      party[i].currentHP := Max(0, hp[i]);
      StoredStep(party, hp, i);
    }
  }

  /** The HP of `m` after the first `n` writes. */
  ghost function Stored<T>(party: seq<T>, hp: seq<int>, n: nat, m: T, before: int): int
    requires n <= |party| == |hp|
  {
    if m in party[..n] then Max(0, hp[LastIndex(party[..n], m)]) else before
  }

  lemma StoredStep<T>(party: seq<T>, hp: seq<int>, n: nat)
    requires n < |party| == |hp|
    ensures forall m, before :: Stored(party, hp, n + 1, m, before)
                             == if m == party[n] then Max(0, hp[n]) else Stored(party, hp, n, m, before)
  {
    var front, next := party[..n], party[..n + 1];
    assert next == front + [party[n]] && next[..n] == front && next[n] == party[n];
    forall m, before
      ensures Stored(party, hp, n + 1, m, before)
           == if m == party[n] then Max(0, hp[n]) else Stored(party, hp, n, m, before)
    {
      assert m in next <==> m in front || m == party[n];
      if m in next {
        assert LastIndex(next, m) == if m == next[n] then n else LastIndex(next[..n], m);
      }
    }
  }

  lemma StoredEnds<T>(party: seq<T>, hp: seq<int>)
    requires |party| == |hp|
    ensures forall m, before :: Stored(party, hp, 0, m, before) == before
    ensures forall m, before | m in party ::
              Stored(party, hp, |party|, m, before) == Max(0, hp[LastIndex(party, m)])
  {
    assert party[..|party|] == party;
  }

  /** The inner loop of the gym fight. */
  method PlayDuel(effect: Chart, me: Mon, foe: Mon, mine: int, theirs: int, rng: Rng)
    returns (myHP: int, gymHP: int)
    modifies rng
    ensures Duel(myHP, gymHP, rng.state)
         == DuelToTheEnd(Rules(rng.mix, effect), me, foe, Duel(mine, theirs, old(rng.state)))
  {
    myHP, gymHP := mine, theirs;
    ghost var rules := Rules(rng.mix, effect);
    ghost var goal := DuelToTheEnd(rules, me, foe, Duel(mine, theirs, rng.state));
    while myHP > 0 && gymHP > 0
      invariant DuelToTheEnd(rules, me, foe, Duel(myHP, gymHP, rng.state)) == goal
      decreases Duel(myHP, gymHP, rng.state).Left()
    {
      myHP, gymHP := PlayExchange(effect, me, foe, myHP, gymHP, rng);
    }
  }

  // ---- What a gym fight leaves behind --------------------------------------------------------

  /** Members before the current one are down, later ones are untouched, and the current one has not gained. */
  ghost predicate Sequential(party: seq<Mon>, c: Chain) {
    && |c.hp| == |party|
    && (forall i | 0 <= i < |party| && i < c.partyIdx :: c.hp[i] == 0)
    && (forall i | 0 <= i < |party| && i == c.partyIdx :: c.hp[i] <= Max(0, party[i].currentHP))
    && (forall i | 0 <= i < |party| && i > c.partyIdx :: c.hp[i] == party[i].currentHP)
  }

  ghost predicate FrontStands(party: seq<Mon>, c: Chain) {
    |c.hp| == |party| && forall i | 0 <= i < |party| && i >= c.partyIdx :: c.hp[i] > 0
  }

  lemma {:induction false} RoundsSequential(g: Gauntlet, c: Chain)
    requires g.Fits(c) && Sequential(g.party, c)
    ensures Sequential(g.party, g.Rounds(c))
    decreases |g.party| + |g.gym| - c.partyIdx - c.gymIdx
  {
    if g.Running(c) {
      RoundsSequential(g, g.Round(c));
    }
  }

  lemma {:induction false} RoundsFrontStands(g: Gauntlet, c: Chain)
    requires g.Fits(c) && FrontStands(g.party, c)
    ensures FrontStands(g.party, g.Rounds(c))
    decreases |g.party| + |g.gym| - c.partyIdx - c.gymIdx
  {
    if g.Running(c) {
      RoundsFrontStands(g, g.Round(c));
    }
  }

  /** A loss wipes the party out; a win from a standing party leaves the current member and all later ones standing. */
  lemma GymOutcome(g: Gauntlet, s: Word)
    ensures var end := g.Outcome(s);
            && Sequential(g.party, end)
            && (end.gymIdx < |g.gym| ==> forall i | 0 <= i < |g.party| :: end.hp[i] == 0)
            && ((forall m | m in g.party :: m.currentHP > 0) ==> FrontStands(g.party, end))
  {
    var c := g.Start(s);
    RoundsSequential(g, c);
    if forall m | m in g.party :: m.currentHP > 0 {
      RoundsFrontStands(g, c);
    }
  }

  /** The leader's monsters that resolve, among the first `n`. */
  function Beaten(tplOf: Resolver, gym: seq<GymEntry>, n: nat): seq<(int, nat)>
    requires n <= |gym|
  {
    if n == 0 then [] else
      match tplOf(gym[n - 1].monsterId)
      case None => Beaten(tplOf, gym, n - 1)
      case Some(t) => Beaten(tplOf, gym, n - 1) + [(t.id, gym[n - 1].level)]
  }

  function Foes(results: seq<KO>): (fs: seq<(int, nat)>)
    ensures |fs| == |results|
  {
    seq(|results|, i requires 0 <= i < |results| => (results[i].gymMon, results[i].gymLv))
  }

  /** The result log names, in order, exactly the leader's monsters that fell. */
  lemma {:induction false} RoundsLogFoes(g: Gauntlet, c: Chain)
    requires g.Fits(c) && Foes(c.results) == Beaten(g.tplOf, g.gym, c.gymIdx)
    ensures var end := g.Rounds(c); Foes(end.results) == Beaten(g.tplOf, g.gym, end.gymIdx)
    decreases |g.party| + |g.gym| - c.partyIdx - c.gymIdx
  {
    hide DuelToTheEnd, MakeCombatant;
    if g.Running(c) {
      RoundsLogFoes(g, g.Round(c));
    }
  }

  lemma GymLogsFoes(g: Gauntlet, s: Word)
    ensures var end := g.Outcome(s); Foes(end.results) == Beaten(g.tplOf, g.gym, end.gymIdx)
  {
    RoundsLogFoes(g, g.Start(s));
  }
}
