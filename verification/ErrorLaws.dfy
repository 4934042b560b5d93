/** Which error each instruction fails with, and that it succeeds when none of the conditions holds. */
module ErrorLaws {
  import opened Wrappers
  import opened Balances
  import opened Economy
  import opened Handlers
  import opened PageLaws
  import opened PoolLaws

  predicate Fails(r: Result<Ledger, Error>, e: Error) {
    r == Err(e)
  }

  // ---- Setting up and administration -----------------------------------------------------------

  lemma InitializeOutcome(l: Ledger, authority: Key, treasury: Key, vault: Key,
                          burn: U16, pool: U16, market: U16, fee: U64)
    ensures var r := Initialize(l, authority, treasury, vault, burn, pool, market, fee);
            if l.config.Some? || l.pool.Some? then Fails(r, AccountExists)
            else if burn + pool != 10_000 || market > 2_000 then Fails(r, InvalidFeeConfig)
            else r.Ok?
  {
  }

  lemma AdminOutcome(l: Ledger, signer: Key, floor: U64, enabled: bool, amount: U64, flags: bv8)
    requires PoolSound(l) && Sum(l.lamports) <= U64_MAX
    ensures l.config.None? ==>
              && Fails(UpdateFloor(l, signer, floor), AccountMissing)
              && Fails(SetInstantSell(l, signer, enabled), AccountMissing)
              && Fails(WithdrawTreasury(l, signer, amount), AccountMissing)
              && Fails(SetPause(l, signer, flags), AccountMissing)
    ensures l.config.Some? && l.config.value.authority != signer ==>
              && Fails(UpdateFloor(l, signer, floor), Unauthorized)
              && Fails(SetInstantSell(l, signer, enabled), Unauthorized)
              && Fails(WithdrawTreasury(l, signer, amount), Unauthorized)
              && Fails(SetPause(l, signer, flags), Unauthorized)
    ensures l.config.Some? && l.config.value.authority == signer ==>
              && UpdateFloor(l, signer, floor).Ok?
              && (if enabled && l.pool.value.floorPrice == 0 then Fails(SetInstantSell(l, signer, enabled), FloorNotSet)
                  else SetInstantSell(l, signer, enabled).Ok?)
              && (if amount > Bal(l.lamports, l.config.value.treasury)
                  then Fails(WithdrawTreasury(l, signer, amount), InsufficientFunds)
                  else WithdrawTreasury(l, signer, amount).Ok?)
              && SetPause(l, signer, flags).Ok?
  {
    hide MoveLamportsPda, Sum, Bal;
    WithdrawSettles(l, signer, amount);
    HalfFits(floor);
    hide BpsOf;
  }

  lemma HalfFits(amount: U64)
    ensures BpsOf(amount, 5_000) == Ok(amount / 2)
  {
  }

  // ---- Token instructions ----------------------------------------------------------------------

  lemma DeployOutcome(l: Ledger, player: Key, payerToken: Key, poolToken: Key, now: int)
    requires PageSound(l) && SupplyFits(l)
    ensures var r := DeployAgent(l, player, payerToken, poolToken, now);
            if l.config.None? || !l.SinkAccounts(player, payerToken, poolToken) then Fails(r, AccountMissing)
            else if player in l.players then Fails(r, AgentAlreadyDeployed)
            else if Bal(l.page, payerToken) < 1_000_000_000 then Fails(r, InsufficientFunds)
            else r.Ok?
  {
    hide Charge, Sum, CountBadges;
    if l.config.Some? && player !in l.players {
      var p := Player(player, true, 0, 0, 0, now);
      ChargeOutcome(l.(players := l.players[player := p]), l.config.value, payerToken, poolToken, DEPLOY_COST);
    }
  }

  lemma ChargeOutcome(l: Ledger, c: Config, payerToken: Key, poolToken: Key, cost: U64)
    requires l.config == Some(c) && SupplyFits(l)
    ensures if Bal(l.page, payerToken) < cost then Fails(Charge(l, c, payerToken, poolToken, cost), InsufficientFunds)
            else Charge(l, c, payerToken, poolToken, cost).Ok?
  {
    ChargeNeedsFunds(l, c, payerToken, poolToken, cost);
    SinkConserves(l.page, payerToken, poolToken, cost);
    hide ApplySink, Sum, ComputeSplit;
  }

  lemma CatchOutcome(l: Ledger, player: Key, payerToken: Key, poolToken: Key, rarity: U8, now: int)
    requires PageSound(l) && SupplyFits(l)
    ensures var r := CatchAttempt(l, player, payerToken, poolToken, rarity, now);
            if player !in l.players || l.config.None? || !l.SinkAccounts(player, payerToken, poolToken)
            then Fails(r, AccountMissing)
            else if l.config.value.paused & 1 != 0 then Fails(r, FeaturePaused)
            else if rarity > 2 then Fails(r, InvalidRarity)
            else if Bal(l.page, payerToken) < Price(CatchAttemptIx(payerToken, poolToken, rarity))
            then Fails(r, InsufficientFunds)
            else r.Ok?
  {
    CatchSucceeds(l, player, payerToken, poolToken, rarity, now);
    hide Charge, Sum, CountBadges;
    if player in l.players && l.config.Some? && rarity <= 2 {
      EarnedAtMost(l, player);
      var p := l.players[player].(totalCaught := l.players[player].totalCaught + 1, lastAction := now);
      ChargeOutcome(l.(players := l.players[player := p]), l.config.value, payerToken, poolToken,
                    CatchCostForRarity(rarity).value);
    }
  }

  lemma GymOutcome(l: Ledger, player: Key, payerToken: Key, poolToken: Key, badge: U8, now: int)
    requires PageSound(l) && SupplyFits(l)
    ensures var r := GymChallenge(l, player, payerToken, poolToken, badge, now);
            if player !in l.players || l.config.None? || !l.SinkAccounts(player, payerToken, poolToken)
            then Fails(r, AccountMissing)
            else if badge >= 12 then Fails(r, InvalidBadgeIndex)
            else if l.players[player].gymWins == 0xffff_ffff then Fails(r, MathOverflow)
            else if Bal(l.page, payerToken) < 50_000_000 then Fails(r, InsufficientFunds)
            else r.Ok?
  {
    hide Charge, Sum, CountBadges, SetBadge;
    if player in l.players && l.config.Some? && l.players[player].gymWins < U32_MAX {
      var p := l.players[player];
      var won := p.(badges := SetBadge(p.badges, badge), gymWins := p.gymWins + 1, lastAction := now);
      ChargeOutcome(l.(players := l.players[player := won]), l.config.value, payerToken, poolToken, GYM_COST);
    }
  }

  lemma EvolveOutcome(l: Ledger, player: Key, payerToken: Key, poolToken: Key, now: int)
    requires PageSound(l) && SupplyFits(l)
    ensures var r := ForceEvolve(l, player, payerToken, poolToken, now);
            if player !in l.players || l.config.None? || !l.SinkAccounts(player, payerToken, poolToken)
            then Fails(r, AccountMissing)
            else if Bal(l.page, payerToken) < 75_000_000_000 then Fails(r, InsufficientFunds)
            else r.Ok?
  {
    hide Charge, Sum, CountBadges;
    if player in l.players && l.config.Some? {
      ChargeOutcome(l.(players := l.players[player := l.players[player].(lastAction := now)]), l.config.value,
                    payerToken, poolToken, FORCE_EVOLVE_COST);
    }
  }

  // ---- Cards -----------------------------------------------------------------------------------

  lemma MintOutcome(l: Ledger, payer: Key, mint: Key, tier: U8, stage: U8, level: U8, now: int)
    requires PoolSound(l) && Sum(l.lamports) <= U64_MAX
    ensures var r := MintCard(l, payer, mint, tier, stage, level, now);
            if l.config.None? then Fails(r, AccountMissing)
            else if mint in l.cards then Fails(r, AccountExists)
            else if l.config.value.paused & 2 != 0 then Fails(r, FeaturePaused)
            else if tier > 5 then Fails(r, InvalidTier)
            else if l.config.value.totalCardsMinted == U64_MAX || l.pool.value.lifetimeIn + FeeOf(tier) / 2 > U64_MAX
            then Fails(r, MathOverflow)
            else if FeeParts(l.config.value, tier).Needed(payer) > Bal(l.lamports, payer) then Fails(r, TransferFailed)
            else r.Ok?
  {
    if l.config.Some? {
      MintCardSettles(l, payer, mint, tier, stage, level, now);
      if tier <= 5 {
        FeeSplits(tier);
        CreditNeedsHeadroom(l.pool.value, FeeOf(tier) / 2);
      }
    }
    hide Pay, Sum, Bal, MintFeeForTier, BpsOf, Payees.Needed, FeeOf;
  }

  lemma ListOutcome(l: Ledger, seller: Key, mint: Key, price: U64, tier: U8, level: U8, stage: U8, now: int)
    requires PoolSound(l) && Sum(l.lamports) <= U64_MAX
    ensures var r := ListCard(l, seller, mint, price, tier, level, stage, now);
            if l.config.None? then Fails(r, AccountMissing)
            else if mint in l.listings then Fails(r, AccountExists)
            else if l.config.value.paused & 4 != 0 then Fails(r, FeaturePaused)
            else if price == 0 then Fails(r, InvalidPrice)
            else if l.pool.value.lifetimeIn + l.config.value.listingFee > U64_MAX then Fails(r, MathOverflow)
            else if l.config.value.listingFee > Bal(l.lamports, seller)
                    || Bal(CardBook(l.tokens, mint), Wallet(seller)) == 0 then Fails(r, TransferFailed)
            else r.Ok?
  {
    ListCardSucceeds(l, seller, mint, price, tier, level, stage, now);
    if l.config.Some? {
      CreditNeedsHeadroom(l.pool.value, l.config.value.listingFee);
    }
    hide Pay, Sum, Bal, Move;
  }

  lemma CancelOutcome(l: Ledger, seller: Key, mint: Key)
    ensures var r := CancelListing(l, seller, mint);
            if mint !in l.listings then Fails(r, AccountMissing)
            else if l.listings[mint].seller != seller then Fails(r, NotListingOwner)
            else if !l.listings[mint].active then Fails(r, ListingInactive)
            else if Bal(CardBook(l.tokens, mint), Escrow(mint)) != 1 then Fails(r, TransferFailed)
            else r.Ok?
  {
    ReleaseNeedsOne(l.tokens, mint, seller);
    hide Bal;
  }

  lemma BuyOutcome(l: Ledger, buyer: Key, mint: Key)
    requires PoolSound(l) && Sum(l.lamports) <= U64_MAX
    ensures var r := BuyCard(l, buyer, mint);
            if l.config.None? || mint !in l.listings then Fails(r, AccountMissing)
            else if !l.listings[mint].active then Fails(r, ListingInactive)
            else if l.config.value.paused & 4 != 0 then Fails(r, FeaturePaused)
            else
              var p := SaleParts(l.config.value, l.listings[mint]);
              if l.pool.value.lifetimeIn + p.y > U64_MAX then Fails(r, MathOverflow)
              else if p.Needed(buyer) > Bal(l.lamports, buyer)
                      || Bal(CardBook(l.tokens, mint), Escrow(mint)) != 1 then Fails(r, TransferFailed)
              else r.Ok?
  {
    if l.config.Some? {
      BuyCardSettles(l, buyer, mint);
      if mint in l.listings {
        SaleSplitAddsUp(l.listings[mint].price, l.config.value.marketFeeBps);
        CreditNeedsHeadroom(l.pool.value, SaleParts(l.config.value, l.listings[mint]).y);
      }
    }
    hide SplitSale, Sum, Bal, Payees.Needed, Move;
  }

  lemma SellOutcome(l: Ledger, seller: Key, mint: Key)
    requires PoolSound(l) && Sum(l.lamports) <= U64_MAX
    ensures var r := InstantSell(l, seller, mint);
            if l.config.None? then Fails(r, AccountMissing)
            else if l.config.value.paused & 8 != 0 then Fails(r, FeaturePaused)
            else if !l.pool.value.instantSellEnabled then Fails(r, InstantSellDisabled)
            else if l.pool.value.totalLamports < l.pool.value.floorPrice / 2 then Fails(r, PoolInsufficient)
            else if Bal(CardBook(l.tokens, mint), Wallet(seller)) == 0 then Fails(r, TransferFailed)
            else if Bal(l.lamports, l.config.value.buybackVault) < l.pool.value.floorPrice / 2
            then Fails(r, InsufficientFunds)
            else r.Ok?
  {
    if l.config.Some? {
      HalfFits(l.pool.value.floorPrice);
      PayNeedsFunds(l.lamports, l.config.value.buybackVault, seller, l.pool.value.floorPrice / 2);
    }
    hide BpsOf, Sum, Bal, Pay;
  }
}
