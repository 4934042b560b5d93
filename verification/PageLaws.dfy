/** The token side over every run: charges are burned or kept, seventy to thirty, and players' records earn it. */
module PageLaws {
  import opened Wrappers
  import opened Balances
  import opened Economy
  import opened Handlers
  import opened Footprints

  /** The price of a token instruction; the others are free. */
  function Price(ix: Instruction): nat {
    match ix
    case DeployAgentIx(_, _) => DEPLOY_COST
    case CatchAttemptIx(_, _, rarity) => var cost := CatchCostForRarity(rarity); if cost.Ok? then cost.value else 0
    case GymChallengeIx(_, _, _) => GYM_COST
    case ForceEvolveIx(_, _) => FORCE_EVOLVE_COST
    case _ => 0
  }

  /** In units of a millionth of a PAGE: 1000 to deploy, 10, 100 or 1000 to catch, 50 for a gym, 75000 to evolve. */
  lemma PricesAre(payerToken: Key, poolToken: Key)
    ensures Price(DeployAgentIx(payerToken, poolToken)) == 1_000_000_000
    ensures Price(CatchAttemptIx(payerToken, poolToken, 0)) == 10_000_000
    ensures Price(CatchAttemptIx(payerToken, poolToken, 1)) == 100_000_000
    ensures Price(CatchAttemptIx(payerToken, poolToken, 2)) == 1_000_000_000
    ensures forall badge: U8 :: Price(GymChallengeIx(payerToken, poolToken, badge)) == 50_000_000
    ensures Price(ForceEvolveIx(payerToken, poolToken)) == 75_000_000_000
  {
  }

  /** What a run charges: the prices of its transactions that succeed. */
  function Charged(l: Ledger, txs: seq<Tx>): nat {
    if txs == [] then 0
    else
      var before := ApplyAll(l, txs[..|txs| - 1]);
      Charged(l, txs[..|txs| - 1])
      + (if Handle(before, txs[|txs| - 1]).Ok? then Price(txs[|txs| - 1].ix) else 0)
  }

  // ---- One sink --------------------------------------------------------------------------------

  /** Every price in the program is a whole number of tens, so seven tenths of it is exact. */
  lemma PricesSplitExactly(ix: Instruction)
    ensures ComputeSplit(Price(ix)).Ok?
    ensures 10 * ComputeSplit(Price(ix)).value.burned == 7 * Price(ix)
    ensures ComputeSplit(Price(ix)).value.burned + ComputeSplit(Price(ix)).value.toPool == Price(ix)
  {
  }

  /**
    * The sink takes the burn share out of existence and moves the rest, whoever owns the pool's token account; it
    * fails exactly when the payer cannot cover the whole amount.
    */
  lemma SinkConserves(page: Book<Key>, payerToken: Key, poolToken: Key, total: U64)
    ensures ApplySink(page, payerToken, poolToken, total).Ok? <==> total <= Bal(page, payerToken)
    ensures total > Bal(page, payerToken) ==> ApplySink(page, payerToken, poolToken, total) == Err(InsufficientFunds)
    ensures total <= Bal(page, payerToken) ==>
              var r := ApplySink(page, payerToken, poolToken, total).value;
              && ComputeSplit(total) == Ok(r.1)
              && Sum(r.0) + r.1.burned == Sum(page)
              && Bal(r.0, payerToken) == Bal(page, payerToken) - (if payerToken == poolToken then r.1.burned else total)
              && (payerToken != poolToken ==> Bal(r.0, poolToken) == Bal(page, poolToken) + r.1.toPool)
  {
    SinkSplitAddsUp(total);
    var split := ComputeSplit(total).value;
    if total <= Bal(page, payerToken) {
      BurnRemoves(page, payerToken, split.burned);
      var burnt := Burn(page, payerToken, split.burned).value;
      if poolToken != payerToken {
        BurnLeaves(page, payerToken, split.burned, poolToken);
      }
      MoveIsFair(burnt, payerToken, poolToken, split.toPool);
    }
    hide ComputeSplit, Burn, Move, Sum;
  }

  /** No third account is touched. */
  lemma SinkLeavesOthers(page: Book<Key>, payerToken: Key, poolToken: Key, total: U64, k: Key)
    requires ApplySink(page, payerToken, poolToken, total).Ok?
    requires k != payerToken
    ensures var after := ApplySink(page, payerToken, poolToken, total).value.0;
            if k == poolToken then Bal(after, k) >= Bal(page, k) else Bal(after, k) == Bal(page, k)
  {
    SinkSplitAddsUp(total);
    var split := ComputeSplit(total).value;
    var burnt := Burn(page, payerToken, split.burned).value;
    BurnLeaves(page, payerToken, split.burned, k);
    MoveIsFair(burnt, payerToken, poolToken, split.toPool);
    hide ComputeSplit, Burn, Move, Sum;
  }

  lemma BurnLeaves(m: Book<Key>, source: Key, amount: nat, other: Key)
    requires amount <= Bal(m, source) && other != source
    ensures Bal(Burn(m, source, amount).value, other) == Bal(m, other)
  {
  }

  // ---- Players' records ------------------------------------------------------------------------

  /** The least that a player's record has burned: 700, 7 and 35 PAGE for a deploy, a catch and a gym win. */
  function Earned(p: Player): nat {
    (if p.agentDeployed then 700_000_000 else 0) + 7_000_000 * p.totalCaught + 35_000_000 * p.gymWins
  }

  function EarnedBook(players: map<Key, Player>): Book<Key> {
    map k | k in players :: Earned(players[k])
  }

  /** A record belongs to its key, was deployed, has only real badges, and at most one per win. */
  predicate RecordOk(p: Player, key: Key) {
    && p.owner == key
    && p.agentDeployed
    && p.badges & 0xf000 == 0
    && CountBadges(p.badges, BADGE_COUNT) <= p.gymWins
  }

  ghost predicate PageSound(l: Ledger) {
    && (forall k | k in l.players :: RecordOk(l.players[k], k))
    && Sum(EarnedBook(l.players)) <= Burned(l)
  }

  /** What a step that charges `price` keeps. */
  ghost predicate PageKept(l: Ledger, after: Ledger, price: nat) {
    && Sum(after.page) + Burned(after) == Sum(l.page) + Burned(l)
    && 10 * (Burned(after) - Burned(l)) == 7 * price
    && (PageSound(l) ==> PageSound(after))
  }

  /** The end of a token instruction, after one player's record was replaced. */
  lemma ChargeKeeps(l: Ledger, key: Key, p: Player, c: Config, payerToken: Key, poolToken: Key, ix: Instruction)
    requires l.config == Some(c)
    requires Charge(l.(players := l.players[key := p]), c, payerToken, poolToken, Price(ix)).Ok?
    requires PageSound(l) ==>
               && RecordOk(p, key)
               && 10 * (Earned(p) - Bal(EarnedBook(l.players), key)) <= 7 * Price(ix)
    ensures var after := Charge(l.(players := l.players[key := p]), c, payerToken, poolToken, Price(ix)).value;
            PageKept(l, after, Price(ix))
  {
    hide ApplySink, ComputeSplit, Price, RecordOk, Earned, Sum, CatchCostForRarity;
    PricesSplitExactly(ix);
    assert Price(ix) <= U64_MAX by { PricesFit(ix); }
    SinkConserves(l.page, payerToken, poolToken, Price(ix));
    SumUpdate(EarnedBook(l.players), key, Earned(p));
    assert EarnedBook(l.players[key := p]) == EarnedBook(l.players)[key := Earned(p)];
  }

  lemma PricesFit(ix: Instruction)
    ensures Price(ix) <= U64_MAX
  {
  }

  // ---- The token instructions ------------------------------------------------------------------

  lemma DeployKeeps(l: Ledger, player: Key, payerToken: Key, poolToken: Key, now: int)
    requires DeployAgent(l, player, payerToken, poolToken, now).Ok?
    ensures PageKept(l, DeployAgent(l, player, payerToken, poolToken, now).value, DEPLOY_COST)
  {
    hide Charge, PageKept, Sum;
    NoBadges(BADGE_COUNT);
    var was := if player in l.players then l.players[player] else Player(player, false, 0, 0, 0, 0);
    ChargeKeeps(l, player, was.(owner := player, agentDeployed := true, lastAction := now), l.config.value,
                payerToken, poolToken, DeployAgentIx(payerToken, poolToken));
  }

  lemma {:induction false} NoBadges(n: nat)
    ensures CountBadges(0, n) == 0
  {
    if n > 0 {
      NoBadges(n - 1);
    }
  }

  lemma CatchKeeps(l: Ledger, player: Key, payerToken: Key, poolToken: Key, rarity: U8, now: int)
    requires CatchAttempt(l, player, payerToken, poolToken, rarity, now).Ok?
    ensures PageKept(l, CatchAttempt(l, player, payerToken, poolToken, rarity, now).value,
                     Price(CatchAttemptIx(payerToken, poolToken, rarity)))
  {
    hide Charge, PageKept, Sum, CountBadges, IsPaused;
    var p := l.players[player];
    ChargeKeeps(l, player, p.(totalCaught := p.totalCaught + 1, lastAction := now), l.config.value,
                payerToken, poolToken, CatchAttemptIx(payerToken, poolToken, rarity));
  }

  lemma GymKeeps(l: Ledger, player: Key, payerToken: Key, poolToken: Key, badge: U8, now: int)
    requires GymChallenge(l, player, payerToken, poolToken, badge, now).Ok?
    ensures PageKept(l, GymChallenge(l, player, payerToken, poolToken, badge, now).value, GYM_COST)
  {
    hide Charge, PageKept, Sum, CountBadges, SetBadge, HasBadge;
    var p := l.players[player];
    if PageSound(l) {
      SetBadgeInMask(p.badges, badge);
      SetBadgeCounts(p.badges, badge, BADGE_COUNT);
    }
    ChargeKeeps(l, player,
                p.(badges := SetBadge(p.badges, badge), gymWins := p.gymWins + 1, lastAction := now),
                l.config.value, payerToken, poolToken, GymChallengeIx(payerToken, poolToken, badge));
  }

  lemma EvolveKeeps(l: Ledger, player: Key, payerToken: Key, poolToken: Key, now: int)
    requires ForceEvolve(l, player, payerToken, poolToken, now).Ok?
    ensures PageKept(l, ForceEvolve(l, player, payerToken, poolToken, now).value, FORCE_EVOLVE_COST)
  {
    hide Charge, PageKept, Sum, CountBadges;
    ChargeKeeps(l, player, l.players[player].(lastAction := now), l.config.value, payerToken, poolToken,
                ForceEvolveIx(payerToken, poolToken));
  }

  // ---- Every instruction, every run ------------------------------------------------------------

  ghost predicate PageUntouched(l: Ledger, after: Ledger) {
    after.page == l.page && after.players == l.players && Burned(after) == Burned(l)
  }

  lemma OthersLeavePage(l: Ledger, tx: Tx)
    requires Handle(l, tx).Ok?
    requires !IsSink(tx.ix)
    ensures PageUntouched(l, Handle(l, tx).value)
  {
    hide Handle;
    HandleTouches(l, tx);
  }

  lemma StepKeepsPage(l: Ledger, tx: Tx)
    requires Handle(l, tx).Ok?
    ensures PageKept(l, Handle(l, tx).value, Price(tx.ix))
  {
    hide PageSound, Sum;
    hide Handlers.Initialize, Handlers.DeployAgent, Handlers.CatchAttempt, Handlers.GymChallenge, ForceEvolve;
    hide MintCard, ListCard, CancelListing, BuyCard, InstantSell;
    hide UpdateFloor, SetInstantSell, WithdrawTreasury, SetPause;
    match tx.ix
    case DeployAgentIx(payerToken, poolToken) => DeployKeeps(l, tx.signer, payerToken, poolToken, tx.now);
    case CatchAttemptIx(payerToken, poolToken, rarity) =>
      CatchKeeps(l, tx.signer, payerToken, poolToken, rarity, tx.now);
    case GymChallengeIx(payerToken, poolToken, badge) => GymKeeps(l, tx.signer, payerToken, poolToken, badge, tx.now);
    case ForceEvolveIx(payerToken, poolToken) => EvolveKeeps(l, tx.signer, payerToken, poolToken, tx.now);
    case _ =>
      OthersLeavePage(l, tx);
      SamePage(l, Handle(l, tx).value);
  }

  lemma SamePage(l: Ledger, after: Ledger)
    requires PageUntouched(l, after)
    ensures PageKept(l, after, 0)
  {
    hide Sum, RecordOk;
  }

  /**
    * Over every run: balances plus burned is constant, exactly seven tenths of everything charged is burned, and
    * the burn covers every deploy, catch and gym win on record.
    */
  lemma {:induction false} RunKeepsPage(l: Ledger, txs: seq<Tx>)
    ensures PageKept(l, ApplyAll(l, txs), Charged(l, txs))
  {
    hide PageSound, Sum, Handle;
    if txs != [] {
      RunKeepsPage(l, txs[..|txs| - 1]);
      var before, tx := ApplyAll(l, txs[..|txs| - 1]), txs[|txs| - 1];
      if Handle(before, tx).Ok? {
        StepKeepsPage(before, tx);
      }
    }
  }

  /** From nothing: no burn yet and no players. */
  lemma RunFromScratch(l: Ledger, txs: seq<Tx>)
    requires l.config.None? && l.players == map[]
    ensures var after := ApplyAll(l, txs);
            && Sum(after.page) + Burned(after) == Sum(l.page)
            && 10 * Burned(after) == 7 * Charged(l, txs)
            && Sum(EarnedBook(after.players)) <= Burned(after)
            && (forall k | k in after.players :: RecordOk(after.players[k], k))
  {
    hide RecordOk, ApplyAll, Charged;
    assert EarnedBook(l.players) == map[];
    RunKeepsPage(l, txs);
  }

  // ---- What can still fail ---------------------------------------------------------------------

  /** All tokens there ever were fit in 64 bits, as a token mint guarantees. */
  ghost predicate SupplyFits(l: Ledger) {
    Sum(l.page) + Burned(l) <= U64_MAX
  }

  lemma ChargeNeedsFunds(l: Ledger, c: Config, payerToken: Key, poolToken: Key, cost: U64)
    requires l.config == Some(c) && SupplyFits(l)
    ensures Charge(l, c, payerToken, poolToken, cost).Ok? <==> cost <= Bal(l.page, payerToken)
  {
    hide ApplySink, ComputeSplit;
    SinkConserves(l.page, payerToken, poolToken, cost);
    hide Sum;
  }

  /**
    * The caught counter cannot overflow, since each catch burned seven whole tokens: a catch attempt succeeds
    * exactly when it is recorded, unpaused, of a known rarity and paid for.
    */
  lemma CatchSucceeds(l: Ledger, player: Key, payerToken: Key, poolToken: Key, rarity: U8, now: int)
    requires PageSound(l) && SupplyFits(l)
    ensures CatchAttempt(l, player, payerToken, poolToken, rarity, now).Ok? <==>
              && player in l.players
              && l.config.Some? && !IsPaused(l.config.value, PAUSE_CATCH)
              && l.SinkAccounts(player, payerToken, poolToken)
              && rarity <= 2
              && CatchCostForRarity(rarity).value <= Bal(l.page, payerToken)
  {
    hide Charge, Sum, CountBadges, IsPaused;
    if player in l.players && l.config.Some? && rarity <= 2 {
      EarnedAtMost(l, player);
      var p := l.players[player].(totalCaught := l.players[player].totalCaught + 1, lastAction := now);
      ChargeNeedsFunds(l.(players := l.players[player := p]), l.config.value, payerToken, poolToken,
                       CatchCostForRarity(rarity).value);
    }
  }

  /** Only the 32-bit win counter can overflow. */
  lemma GymSucceeds(l: Ledger, player: Key, payerToken: Key, poolToken: Key, badge: U8, now: int)
    requires PageSound(l) && SupplyFits(l)
    ensures GymChallenge(l, player, payerToken, poolToken, badge, now).Ok? <==>
              && player in l.players && l.players[player].gymWins < U32_MAX
              && l.config.Some?
              && l.SinkAccounts(player, payerToken, poolToken)
              && badge < BADGE_COUNT
              && GYM_COST <= Bal(l.page, payerToken)
  {
    hide Charge, Sum, CountBadges, SetBadge, HasBadge;
    if player in l.players && l.config.Some? && l.players[player].gymWins < U32_MAX {
      var p := l.players[player];
      var won := p.(badges := SetBadge(p.badges, badge), gymWins := p.gymWins + 1, lastAction := now);
      ChargeNeedsFunds(l.(players := l.players[player := won]), l.config.value, payerToken, poolToken, GYM_COST);
    }
  }

  lemma EarnedAtMost(l: Ledger, player: Key)
    requires PageSound(l) && SupplyFits(l) && player in l.players
    ensures 7_000_000 * l.players[player].totalCaught <= U64_MAX
  {
    hide Sum, RecordOk;
    SumAtLeast(EarnedBook(l.players), player);
  }

  // ---- Counters only increase ------------------------------------------------------------------

  /** The same owner's record, later. */
  ghost predicate NoLess(p: Player, later: Player) {
    && p.totalCaught <= later.totalCaught
    && p.gymWins <= later.gymWins
    && (p.agentDeployed ==> later.agentDeployed)
    && (forall i: nat :: HasBadge(p.badges, i) ==> HasBadge(later.badges, i))
  }

  ghost predicate RecordsGrow(l: Ledger, after: Ledger) {
    forall k | k in l.players :: k in after.players && NoLess(l.players[k], after.players[k])
  }

  lemma MoreWins(p: Player, badge: nat, now: int)
    requires badge < BADGE_COUNT && p.gymWins < U32_MAX
    ensures NoLess(p, p.(badges := SetBadge(p.badges, badge), gymWins := p.gymWins + 1, lastAction := now))
  {
    hide HasBadge, SetBadge;
    forall i: nat ensures HasBadge(p.badges, i) ==> HasBadge(SetBadge(p.badges, badge), i) {
      SetBadgeSetsOne(p.badges, badge, i);
    }
  }

  /** What the sinks do to the records: one of them is replaced, by one that is no less. */
  lemma SinkRaises(l: Ledger, tx: Tx)
    requires IsSink(tx.ix) && Handle(l, tx).Ok?
    ensures RecordsGrow(l, Handle(l, tx).value)
  {
    hide ApplySink, SetBadge, IsPaused, CatchCostForRarity, HasBadge;
    hide Handlers.Initialize, MintCard, ListCard, CancelListing, BuyCard, InstantSell;
    hide UpdateFloor, SetInstantSell, WithdrawTreasury, SetPause;
    if tx.ix.GymChallengeIx? {
      MoreWins(l.players[tx.signer], tx.ix.badgeIndex, tx.now);
    }
  }

  lemma SameRecords(l: Ledger)
    ensures forall k | k in l.players :: NoLess(l.players[k], l.players[k])
  {
  }

  lemma StepRaises(l: Ledger, tx: Tx)
    ensures RecordsGrow(l, Apply(l, tx))
  {
    SameRecords(l);
    if Handle(l, tx).Ok? {
      if IsSink(tx.ix) {
        SinkRaises(l, tx);
      } else {
        HandleTouches(l, tx);
      }
    }
    hide Handle, NoLess;
  }

  /** Over every run no record disappears, and its counters, deployment and badges and the burn only ever increase. */
  lemma {:induction false} CountersNeverFall(l: Ledger, txs: seq<Tx>)
    ensures RecordsGrow(l, ApplyAll(l, txs))
    ensures Burned(l) <= Burned(ApplyAll(l, txs))
  {
    hide Apply, NoLess, Sum, PageSound;
    RunKeepsPage(l, txs);
    if txs == [] {
      SameRecords(l);
    } else {
      var before := ApplyAll(l, txs[..|txs| - 1]);
      CountersNeverFall(l, txs[..|txs| - 1]);
      StepRaises(before, txs[|txs| - 1]);
      forall k | k in l.players ensures NoLess(l.players[k], ApplyAll(l, txs).players[k]) {
        NoLessTrans(l.players[k], before.players[k], ApplyAll(l, txs).players[k]);
      }
    }
  }

  lemma NoLessTrans(a: Player, b: Player, c: Player)
    requires NoLess(a, b) && NoLess(b, c)
    ensures NoLess(a, c)
  {
    hide HasBadge;
  }

  /** A player's agent is deployed once: every later attempt fails, whatever happens in between. */
  lemma DeployedForGood(l: Ledger, txs: seq<Tx>, player: Key, payerToken: Key, poolToken: Key, now: int)
    requires player in l.players && l.players[player].agentDeployed
    ensures !DeployAgent(ApplyAll(l, txs), player, payerToken, poolToken, now).Ok?
  {
    hide ApplyAll, Charge, HasBadge;
    CountersNeverFall(l, txs);
  }

  // ---- Stored rates ----------------------------------------------------------------------------

  /** The rates as initialisation accepts them. */
  predicate RatesOk(c: Config) {
    c.burnBps + c.poolBps == BPS_DENOM && c.marketFeeBps <= 2000 && c.instantSellBps == INSTANT_SELL_BPS
  }

  /** Every run stores rates that add up, and the instant-sell rate that payouts use. */
  lemma {:induction false} RunKeepsRates(l: Ledger, txs: seq<Tx>)
    requires l.config.Some? ==> RatesOk(l.config.value)
    ensures ApplyAll(l, txs).config.Some? ==> RatesOk(ApplyAll(l, txs).config.value)
  {
    hide Handle;
    if txs != [] {
      var before, tx := ApplyAll(l, txs[..|txs| - 1]), txs[|txs| - 1];
      RunKeepsRates(l, txs[..|txs| - 1]);
      if Handle(before, tx).Ok? {
        HandleTouches(before, tx);
        if tx.ix.InitializeIx? {
          InitializeStoresRates(before, tx);
        }
      }
    }
  }

  lemma InitializeStoresRates(l: Ledger, tx: Tx)
    requires tx.ix.InitializeIx? && Handle(l, tx).Ok?
    ensures Handle(l, tx).value.config.Some? && RatesOk(Handle(l, tx).value.config.value)
  {
  }

  /** Every price is a positive number of times the basis-point denominator, or nothing. */
  lemma PricesAreWhole(ix: Instruction)
    ensures Price(ix) % BPS_DENOM == 0
  {
  }

  lemma ShareTellsRate(cost: U64, a: nat, b: nat)
    requires cost > 0 && cost % BPS_DENOM == 0 && a <= BPS_DENOM && b <= BPS_DENOM
    ensures BpsOf(cost, a).Ok? && BpsOf(cost, b).Ok?
    ensures BpsOf(cost, a) == BpsOf(cost, b) <==> a == b
  {
    BpsOfShare(cost, a);
    BpsOfShare(cost, b);
    var k := cost / BPS_DENOM;
    assert cost == BPS_DENOM * k;
    assert cost * a == BPS_DENOM * (k * a) && cost * b == BPS_DENOM * (k * b);
    if a != b {
      DifferentMultiples(k, a, b);
    }
  }

  lemma DifferentMultiples(k: nat, a: nat, b: nat)
    requires k > 0 && a != b
    ensures k * a != k * b
  {
    assert k * (a - b) != 0;
    assert k * a - k * b == k * (a - b);
  }

  /** The split charged is the one the config stores, for every price, exactly when it stores 70 percent. */
  lemma StoredSplitIsUsed(c: Config, ix: Instruction)
    requires RatesOk(c) && Price(ix) > 0
    ensures BpsOf(Price(ix), c.burnBps).Ok? && BpsOf(Price(ix), c.poolBps).Ok? && ComputeSplit(Price(ix)).Ok?
    ensures var split := ComputeSplit(Price(ix)).value;
            && (split.burned == BpsOf(Price(ix), c.burnBps).value <==> c.burnBps == BURN_BPS)
            && (split.toPool == BpsOf(Price(ix), c.poolBps).value <==> c.burnBps == BURN_BPS)
  {
    hide BpsOf, Price;
    PricesAreWhole(ix);
    PricesFit(ix);
    SinkSplitAddsUp(Price(ix));
    ShareTellsRate(Price(ix), c.burnBps, BURN_BPS);
    ShareTellsRate(Price(ix), c.poolBps, 3_000);
    PoolShareIsRest(Price(ix));
  }

  lemma PoolShareIsRest(cost: U64)
    requires cost % BPS_DENOM == 0
    ensures BpsOf(cost, 3_000).Ok? && ComputeSplit(cost).Ok?
    ensures ComputeSplit(cost).value.toPool == BpsOf(cost, 3_000).value
  {
    var k := cost / BPS_DENOM;
    assert cost * 3_000 == BPS_DENOM * (k * 3_000) && cost * BURN_BPS == BPS_DENOM * (k * BURN_BPS);
  }

  /** A config of half and half is accepted, and a deployment still burns 700 PAGE, not 500. */
  lemma StoredSplitCanDiffer(l: Ledger, authority: Key, treasury: Key, vault: Key)
    requires l.config.None? && l.pool.None?
    ensures var r := Initialize(l, authority, treasury, vault, 5_000, 5_000, 500, 0);
            && r.Ok? && r.value.config.Some?
            && BpsOf(DEPLOY_COST, r.value.config.value.burnBps) == Ok(500_000_000)
    ensures ComputeSplit(DEPLOY_COST) == Ok(SinkSplit(700_000_000, 300_000_000))
  {
  }
}
