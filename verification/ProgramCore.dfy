/** The program as code that writes its accounts step by step, and the runtime that undoes a failing transaction. */
module ProgramCore {
  import opened Wrappers
  import opened Balances
  import opened Economy
  import opened Handlers

  type Status = Result<(), Error>

  /** A handler that succeeds leaves what its specification says; one that fails gives the specified error. */
  ghost predicate Agrees(r: Status, spec: Result<Ledger, Error>, after: Ledger) {
    if r.Ok? then spec == Ok(after) else spec == Err(r.error)
  }

  class Program {
    var config: Option<Config>
    var pool: Option<Pool>
    var players: map<Key, Player>
    var listings: map<Key, Listing>
    var cards: map<Key, CardMeta>
    var tokens: map<Key, Book<Holder>>
    var lamports: Book<Key>
    var page: Book<Key>
    const pageOwner: map<Key, Key>

    constructor (l: Ledger)
      ensures View() == l
    {
      config, pool, players, listings, cards := l.config, l.pool, l.players, l.listings, l.cards;
      tokens, lamports, page, pageOwner := l.tokens, l.lamports, l.page, l.pageOwner;
    }

    function View(): Ledger
      reads this
    {
      Ledger(config, pool, players, listings, cards, tokens, lamports, page, pageOwner)
    }

    // ---- Moving value ------------------------------------------------------------------------

    /** A system transfer. */
    method Transfer(payer: Key, to: Key, amount: nat) returns (r: Status)
      modifies this`lamports
      ensures r.Ok? ==> Pay(old(lamports), payer, to, amount) == Ok(lamports)
      ensures r.Err? ==> Pay(old(lamports), payer, to, amount) == Err(r.error)
    {
      if amount > 0 {
        :- Need(Bal(lamports, payer) >= amount, TransferFailed);
        lamports := lamports[payer := Bal(lamports, payer) - amount];
        lamports := lamports[to := Bal(lamports, to) + amount];
      }
      :- Need(Bal(lamports, to) <= U64_MAX, TransferFailed);
      return Ok(());
    }

    /** The balance check comes first; the target is read after the debit. */
    method MoveLamports(source: Key, to: Key, amount: nat) returns (r: Status)
      modifies this`lamports
      ensures r.Ok? ==> MoveLamportsPda(old(lamports), source, to, amount) == Ok(lamports)
      ensures r.Err? ==> MoveLamportsPda(old(lamports), source, to, amount) == Err(r.error)
    {
      var sourceBalance := Bal(lamports, source);
      :- Need(sourceBalance >= amount, InsufficientFunds);
      if amount > 0 {
        lamports := lamports[source := sourceBalance - amount];
        lamports := lamports[to := Bal(lamports, to) + amount];
      }
      :- Need(Bal(lamports, to) <= U64_MAX, MathOverflow);
      return Ok(());
    }

    method TransferCard(mint: Key, source: Holder, to: Holder) returns (r: Status)
      modifies this`tokens
      ensures r.Ok? ==> MoveCard(old(tokens), mint, source, to) == Ok(tokens)
      ensures r.Err? ==> MoveCard(old(tokens), mint, source, to) == Err(r.error)
    {
      var book := CardBook(tokens, mint);
      :- Need(Bal(book, source) >= 1, TransferFailed);
      book := book[source := Bal(book, source) - 1];
      book := book[to := Bal(book, to) + 1];
      tokens := tokens[mint := book];
      return Ok(());
    }

    /** Closing takes the escrow account off the books; nobody's holding and no supply changes by it. */
    method CloseEscrow(mint: Key) returns (r: Status)
      modifies this`tokens
      ensures r.Ok? <==> Bal(CardBook(old(tokens), mint), Escrow(mint)) == 0
      ensures r.Err? ==> r.error == TransferFailed
      ensures r.Ok? ==> tokens == old(tokens)[mint := CardBook(tokens, mint)] && Escrow(mint) !in CardBook(tokens, mint)
      ensures r.Ok? ==> forall h :: Bal(CardBook(tokens, mint), h) == Bal(CardBook(old(tokens), mint), h)
      ensures r.Ok? ==> Sum(CardBook(tokens, mint)) == Sum(CardBook(old(tokens), mint))
      ensures r.Ok? ==> Handlers.CloseEscrow(old(tokens), mint) == Ok(tokens)
    {
      var book := CardBook(tokens, mint);
      :- Need(Bal(book, Escrow(mint)) == 0, TransferFailed);
      CloseKeeps(book, Escrow(mint));
      tokens := tokens[mint := book - {Escrow(mint)}];
      return Ok(());
    }

    /** The burn, then the transfer of the rest; past the first check neither can lack funds. */
    method Sink(payerToken: Key, poolToken: Key, total: nat) returns (r: Result<SinkSplit, Error>)
      modifies this`page
      ensures r.Ok? ==> ApplySink(old(page), payerToken, poolToken, total) == Ok((page, r.value))
      ensures r.Err? ==> ApplySink(old(page), payerToken, poolToken, total) == Err(r.error)
    {
      var held := Bal(page, payerToken);
      :- Need(held >= total, InsufficientFunds);
      var split :- ComputeSplit(total);
      if split.burned > 0 {
        page := page[payerToken := held - split.burned];
      }
      if split.toPool > 0 {
        page := page[payerToken := Bal(page, payerToken) - split.toPool];
        page := page[poolToken := Bal(page, poolToken) + split.toPool];
      }
      return Ok(split);
    }

    method AddBurned(burned: nat) returns (r: Status)
      requires config.Some?
      modifies this`config
      ensures var sum := CheckedAdd(old(config.value.totalBurned), burned);
              if sum.Ok? then r.Ok? && config == Some(old(config.value).(totalBurned := sum.value))
              else r == Err(sum.error)
    {
      var total :- CheckedAdd(config.value.totalBurned, burned);
      config := Some(config.value.(totalBurned := total));
      return Ok(());
    }

    /** Both pool counters, one after the other. */
    method CreditPool(amount: nat) returns (r: Status)
      requires pool.Some?
      modifies this`pool
      ensures var after := Credit(old(pool.value), amount);
              if after.Ok? then r.Ok? && pool == Some(after.value) else r == Err(after.error)
    {
      var total :- CheckedAdd(pool.value.totalLamports, amount);
      pool := Some(pool.value.(totalLamports := total));
      var lifetime :- CheckedAdd(pool.value.lifetimeIn, amount);
      pool := Some(pool.value.(lifetimeIn := lifetime));
      return Ok(());
    }

    // ---- Handlers ----------------------------------------------------------------------------

    method Initialize(authority: Key, treasury: Key, vault: Key,
                      burnBps: U16, poolBps: U16, marketFeeBps: U16, listingFee: U64) returns (r: Status)
      modifies this
      ensures Agrees(r, Handlers.Initialize(old(View()), authority, treasury, vault, burnBps, poolBps, marketFeeBps,
                                            listingFee), View())
    {
      var unset := config.None? && pool.None?;
      :- Need(unset, AccountExists);
      :- Need(burnBps + poolBps == BPS_DENOM, InvalidFeeConfig);
      :- Need(marketFeeBps <= 2000, InvalidFeeConfig);
      config := Some(Config(authority, treasury, vault, burnBps, poolBps, marketFeeBps, INSTANT_SELL_BPS,
                            listingFee, 0, 0, 0));
      pool := Some(Pool(0, 0, 0, 0, false));
      return Ok(());
    }

    /** How every token instruction ends: the sink, then the burn counter. */
    method Collect(payerToken: Key, poolToken: Key, cost: nat) returns (r: Status)
      requires config.Some?
      modifies this`page, this`config
      ensures Agrees(r, Charge(old(View()), old(config.value), payerToken, poolToken, cost), View())
    {
      hide ApplySink;
      var split :- Sink(payerToken, poolToken, cost);
      r := AddBurned(split.burned);
    }

    method DeployAgent(player: Key, payerToken: Key, poolToken: Key, now: int) returns (r: Status)
      modifies this
      ensures Agrees(r, Handlers.DeployAgent(old(View()), player, payerToken, poolToken, now), View())
    {
      hide Charge;
      :- Need(config.Some?, AccountMissing);
      :- Need(View().SinkAccounts(player, payerToken, poolToken), AccountMissing);
      var ps := if player in players then players[player] else Player(player, false, 0, 0, 0, 0);
      :- Need(!ps.agentDeployed, AgentAlreadyDeployed);
      players := players[player := ps.(owner := player, agentDeployed := true, lastAction := now)];
      r := Collect(payerToken, poolToken, DEPLOY_COST);
    }

    method CatchAttempt(player: Key, payerToken: Key, poolToken: Key, rarity: U8, now: int) returns (r: Status)
      modifies this
      ensures Agrees(r, Handlers.CatchAttempt(old(View()), player, payerToken, poolToken, rarity, now), View())
    {
      hide Charge, IsPaused, CatchCostForRarity;
      var ps :- View().PlayerOf(player);
      :- Need(config.Some?, AccountMissing);
      :- Need(View().SinkAccounts(player, payerToken, poolToken), AccountMissing);
      :- Need(!IsPaused(config.value, PAUSE_CATCH), FeaturePaused);
      :- Need(ps.agentDeployed, AgentNotDeployed);
      var cost :- CatchCostForRarity(rarity);
      var caught :- CheckedAdd(ps.totalCaught, 1);
      players := players[player := ps.(totalCaught := caught, lastAction := now)];
      r := Collect(payerToken, poolToken, cost);
    }

    /** The badge bit is set before the win counter is checked. */
    method GymChallenge(player: Key, payerToken: Key, poolToken: Key, badgeIndex: U8, now: int) returns (r: Status)
      modifies this
      ensures Agrees(r, Handlers.GymChallenge(old(View()), player, payerToken, poolToken, badgeIndex, now), View())
    {
      hide Charge, SetBadge;
      var ps :- View().PlayerOf(player);
      :- Need(config.Some?, AccountMissing);
      :- Need(View().SinkAccounts(player, payerToken, poolToken), AccountMissing);
      :- Need(ps.agentDeployed, AgentNotDeployed);
      :- Need(badgeIndex < BADGE_COUNT, InvalidBadgeIndex);
      ps := ps.(badges := SetBadge(ps.badges, badgeIndex));
      :- Need(ps.gymWins + 1 <= U32_MAX, MathOverflow);
      players := players[player := ps.(gymWins := ps.gymWins + 1, lastAction := now)];
      r := Collect(payerToken, poolToken, GYM_COST);
    }

    method ForceEvolve(player: Key, payerToken: Key, poolToken: Key, now: int) returns (r: Status)
      modifies this
      ensures Agrees(r, Handlers.ForceEvolve(old(View()), player, payerToken, poolToken, now), View())
    {
      hide Charge;
      var ps :- View().PlayerOf(player);
      :- Need(config.Some?, AccountMissing);
      :- Need(View().SinkAccounts(player, payerToken, poolToken), AccountMissing);
      :- Need(ps.agentDeployed, AgentNotDeployed);
      players := players[player := ps.(lastAction := now)];
      r := Collect(payerToken, poolToken, FORCE_EVOLVE_COST);
    }

    /** The card record and all counters are written before any lamport moves. */
    method MintCard(payer: Key, mint: Key, tier: U8, stage: U8, level: U8, now: int) returns (r: Status)
      modifies this
      ensures Agrees(r, Handlers.MintCard(old(View()), payer, mint, tier, stage, level, now), View())
    {
      hide IsPaused, Pay, MintFeeForTier, BpsOf;
      :- Need(config.Some? && pool.Some?, AccountMissing);
      :- Need(mint !in cards, AccountExists);
      :- Need(!IsPaused(config.value, PAUSE_MINT), FeaturePaused);
      :- Need(tier <= MAX_TIER, InvalidTier);
      var fee :- MintFeeForTier(tier);
      var poolCut :- BpsOf(fee, 5_000);
      var treasuryCut :- CheckedSub(fee, poolCut);
      cards := cards[mint := CardMeta(payer, tier, stage, level, now)];
      var minted :- CheckedAdd(config.value.totalCardsMinted, 1);
      config := Some(config.value.(totalCardsMinted := minted));
      var _ :- CreditPool(poolCut);
      var _ :- Transfer(payer, config.value.buybackVault, poolCut);
      r := Transfer(payer, config.value.treasury, treasuryCut);
    }

    /** The listing and the pool are written first, then the fee and the card move. */
    method ListCard(seller: Key, mint: Key, price: U64, tier: U8, level: U8, stage: U8, now: int) returns (r: Status)
      modifies this
      ensures Agrees(r, Handlers.ListCard(old(View()), seller, mint, price, tier, level, stage, now), View())
    {
      hide IsPaused, Pay, MoveCard;
      :- Need(config.Some? && pool.Some?, AccountMissing);
      :- Need(mint !in listings, AccountExists);
      :- Need(!IsPaused(config.value, PAUSE_MARKET), FeaturePaused);
      :- Need(price > 0, InvalidPrice);
      listings := listings[mint := Listing(seller, price, tier, level, stage, now, true)];
      var _ :- CreditPool(config.value.listingFee);
      var _ :- Transfer(seller, config.value.buybackVault, config.value.listingFee);
      r := TransferCard(mint, Wallet(seller), Escrow(mint));
    }

    method CancelListing(seller: Key, mint: Key) returns (r: Status)
      modifies this
      ensures Agrees(r, Handlers.CancelListing(old(View()), seller, mint), View())
    {
      hide MoveCard;
      var listing :- View().ListingOf(mint);
      :- Need(listing.seller == seller, NotListingOwner);
      :- Need(listing.active, ListingInactive);
      listings := listings[mint := listing.(active := false)];
      var _ :- TransferCard(mint, Escrow(mint), Wallet(seller));
      var _ :- CloseEscrow(mint);
      listings := listings - {mint};
      assert listings == old(listings) - {mint};
      return Ok(());
    }

    /** The pool credit and the flag come before the three payments, the card and the close after them. */
    method BuyCard(buyer: Key, mint: Key) returns (r: Status)
      modifies this
      ensures Agrees(r, Handlers.BuyCard(old(View()), buyer, mint), View())
    {
      hide IsPaused, Pay, MoveCard, SplitSale, Credit;
      :- Need(config.Some? && pool.Some?, AccountMissing);
      var listing :- View().ListingOf(mint);
      :- Need(listing.active, ListingInactive);
      :- Need(!IsPaused(config.value, PAUSE_MARKET), FeaturePaused);
      var split :- SplitSale(listing.price, config.value.marketFeeBps);
      var _ :- CreditPool(split.poolCut);
      listings := listings[mint := listing.(active := false)];
      var _ :- Transfer(buyer, listing.seller, split.sellerNet);
      var _ :- Transfer(buyer, config.value.buybackVault, split.poolCut);
      var _ :- Transfer(buyer, config.value.treasury, split.burnCut);
      var _ :- TransferCard(mint, Escrow(mint), Wallet(buyer));
      var _ :- CloseEscrow(mint);
      listings := listings - {mint};
      assert listings == old(listings) - {mint};
      return Ok(());
    }

    /** The pool is debited before the card and the payout move. */
    method InstantSell(seller: Key, mint: Key) returns (r: Status)
      modifies this
      ensures Agrees(r, Handlers.InstantSell(old(View()), seller, mint), View())
    {
      hide IsPaused, MoveLamportsPda, MoveCard, BpsOf;
      :- Need(config.Some? && pool.Some?, AccountMissing);
      :- Need(!IsPaused(config.value, PAUSE_INSTANT_SELL), FeaturePaused);
      :- Need(pool.value.instantSellEnabled, InstantSellDisabled);
      :- Need(pool.value.floorPrice > 0, FloorNotSet);
      var payout :- BpsOf(pool.value.floorPrice, INSTANT_SELL_BPS);
      :- Need(pool.value.totalLamports >= payout, PoolInsufficient);
      pool := Some(pool.value.(totalLamports := pool.value.totalLamports - payout));
      var out :- CheckedAdd(pool.value.lifetimeOut, payout);
      pool := Some(pool.value.(lifetimeOut := out));
      var _ :- TransferCard(mint, Wallet(seller), Wallet(config.value.buybackVault));
      r := MoveLamports(config.value.buybackVault, seller, payout);
    }

    /** The floor is stored before the toggle is reconsidered. */
    method UpdateFloor(authority: Key, floorPrice: U64) returns (r: Status)
      modifies this
      ensures Agrees(r, Handlers.UpdateFloor(old(View()), authority, floorPrice), View())
    {
      hide BpsOf;
      var _ :- View().Admin(authority);
      :- Need(pool.Some?, AccountMissing);
      pool := Some(pool.value.(floorPrice := floorPrice));
      if floorPrice == 0 {
        pool := Some(pool.value.(instantSellEnabled := false));
      } else {
        var onePayout :- BpsOf(floorPrice, INSTANT_SELL_BPS);
        if pool.value.totalLamports < onePayout {
          pool := Some(pool.value.(instantSellEnabled := false));
        }
      }
      return Ok(());
    }

    method SetInstantSell(authority: Key, enabled: bool) returns (r: Status)
      modifies this
      ensures Agrees(r, Handlers.SetInstantSell(old(View()), authority, enabled), View())
    {
      var _ :- View().Admin(authority);
      :- Need(pool.Some?, AccountMissing);
      if enabled {
        :- Need(pool.value.floorPrice > 0, FloorNotSet);
      }
      pool := Some(pool.value.(instantSellEnabled := enabled));
      return Ok(());
    }

    method WithdrawTreasury(authority: Key, amount: U64) returns (r: Status)
      modifies this
      ensures Agrees(r, Handlers.WithdrawTreasury(old(View()), authority, amount), View())
    {
      hide MoveLamportsPda;
      var c :- View().Admin(authority);
      :- Need(Bal(lamports, c.treasury) >= amount, InsufficientFunds);
      r := MoveLamports(c.treasury, authority, amount);
    }

    method SetPause(authority: Key, flags: bv8) returns (r: Status)
      modifies this
      ensures Agrees(r, Handlers.SetPause(old(View()), authority, flags), View())
    {
      var c :- View().Admin(authority);
      config := Some(c.(paused := flags));
      return Ok(());
    }

    // ---- The runtime -------------------------------------------------------------------------

    method Dispatch(tx: Tx) returns (r: Status)
      modifies this
      ensures Agrees(r, Handle(old(View()), tx), View())
    {
      hide Handlers.Initialize, Handlers.DeployAgent, Handlers.CatchAttempt, Handlers.GymChallenge;
      hide Handlers.ForceEvolve;
      hide Handlers.MintCard, Handlers.ListCard, Handlers.CancelListing, Handlers.BuyCard, Handlers.InstantSell;
      hide Handlers.UpdateFloor, Handlers.SetInstantSell, Handlers.WithdrawTreasury, Handlers.SetPause;
      match tx.ix
      case InitializeIx(treasury, vault, burn, pool, market, fee) =>
        r := Initialize(tx.signer, treasury, vault, burn, pool, market, fee);
      case DeployAgentIx(payerToken, poolToken) => r := DeployAgent(tx.signer, payerToken, poolToken, tx.now);
      case CatchAttemptIx(payerToken, poolToken, rarity) =>
        r := CatchAttempt(tx.signer, payerToken, poolToken, rarity, tx.now);
      case GymChallengeIx(payerToken, poolToken, badge) =>
        r := GymChallenge(tx.signer, payerToken, poolToken, badge, tx.now);
      case ForceEvolveIx(payerToken, poolToken) => r := ForceEvolve(tx.signer, payerToken, poolToken, tx.now);
      case MintCardIx(mint, tier, stage, level) => r := MintCard(tx.signer, mint, tier, stage, level, tx.now);
      case ListCardIx(mint, price, tier, level, stage) =>
        r := ListCard(tx.signer, mint, price, tier, level, stage, tx.now);
      case CancelListingIx(mint) => r := CancelListing(tx.signer, mint);
      case BuyCardIx(mint) => r := BuyCard(tx.signer, mint);
      case InstantSellIx(mint) => r := InstantSell(tx.signer, mint);
      case UpdateFloorIx(floor) => r := UpdateFloor(tx.signer, floor);
      case SetInstantSellIx(enabled) => r := SetInstantSell(tx.signer, enabled);
      case WithdrawTreasuryIx(amount) => r := WithdrawTreasury(tx.signer, amount);
      case SetPauseIx(flags) => r := SetPause(tx.signer, flags);
    }

    method Restore(l: Ledger)
      requires l.pageOwner == pageOwner
      modifies this
      ensures View() == l
    {
      config, pool, players, listings, cards := l.config, l.pool, l.players, l.listings, l.cards;
      tokens, lamports, page := l.tokens, l.lamports, l.page;
    }

    /** One transaction: everything its handler wrote before failing is undone. */
    method Execute(tx: Tx) returns (r: Status)
      modifies this
      ensures View() == Apply(old(View()), tx)
      ensures r.Err? ==> View() == old(View())
    {
      hide Handle;
      var before := View();
      r := Dispatch(tx);
      if r.Err? {
        Restore(before);
      }
    }

    method Run(txs: seq<Tx>)
      modifies this
      ensures View() == ApplyAll(old(View()), txs)
    {
      hide Apply;
      for i := 0 to |txs|
        invariant View() == ApplyAll(old(View()), txs[..i])
      {
        var _ := Execute(txs[i]);
        assert txs[..i + 1][..i] == txs[..i];
      }
      assert txs[..|txs|] == txs;
    }
  }
}
