/** What each instruction can change, and that it changes nothing else. */
module Footprints {
  import opened Wrappers
  import opened Balances
  import opened Economy
  import opened Handlers

  predicate IsSink(ix: Instruction) {
    ix.DeployAgentIx? || ix.CatchAttemptIx? || ix.GymChallengeIx? || ix.ForceEvolveIx?
  }

  predicate MovesCards(ix: Instruction) {
    ix.ListCardIx? || ix.CancelListingIx? || ix.BuyCardIx? || ix.InstantSellIx?
  }

  predicate MovesSol(ix: Instruction) {
    ix.MintCardIx? || ix.ListCardIx? || ix.BuyCardIx? || ix.InstantSellIx? || ix.WithdrawTreasuryIx?
  }

  predicate WritesPool(ix: Instruction) {
    || ix.InitializeIx? || ix.UpdateFloorIx? || ix.SetInstantSellIx?
    || ix.MintCardIx? || ix.ListCardIx? || ix.BuyCardIx? || ix.InstantSellIx?
  }

  /** The config stays, up to counters and the pause flags. */
  ghost predicate SameSettings(l: Ledger, after: Ledger) {
    && l.config.Some? && after.config.Some?
    && after.config.value == l.config.value.(
         totalBurned := after.config.value.totalBurned,
         totalCardsMinted := after.config.value.totalCardsMinted,
         paused := after.config.value.paused)
  }

  predicate IsAdmin(ix: Instruction) {
    ix.UpdateFloorIx? || ix.SetInstantSellIx? || ix.WithdrawTreasuryIx? || ix.SetPauseIx?
  }

  /** What opens and closes the market and the floor. */
  ghost predicate SameGates(l: Ledger, after: Ledger) {
    && (l.config.Some? ==> after.config.Some? && after.config.value.paused == l.config.value.paused)
    && (l.pool.Some? ==>
          && after.pool.Some?
          && after.pool.value.floorPrice == l.pool.value.floorPrice
          && after.pool.value.instantSellEnabled == l.pool.value.instantSellEnabled)
  }

  ghost function Burned(l: Ledger): nat {
    if l.config.Some? then l.config.value.totalBurned else 0
  }

  ghost function Minted(l: Ledger): nat {
    if l.config.Some? then l.config.value.totalCardsMinted else 0
  }

  /** Each part of the ledger, unless the instruction is one that may write it, is as before. */
  ghost predicate Touches(l: Ledger, ix: Instruction, after: Ledger) {
    && after.pageOwner == l.pageOwner
    && (IsSink(ix) || (after.players == l.players && after.page == l.page && Burned(after) == Burned(l)))
    && (ix.MintCardIx? || (after.cards == l.cards && Minted(after) == Minted(l)))
    && (MovesCards(ix) || (after.tokens == l.tokens && after.listings == l.listings))
    && (MovesSol(ix) || after.lamports == l.lamports)
    && (WritesPool(ix) || after.pool == l.pool)
    && (ix.InitializeIx? || after.config == l.config || SameSettings(l, after))
    && (IsAdmin(ix) || SameGates(l, after))
  }

  lemma SinksTouch(l: Ledger, tx: Tx)
    requires IsSink(tx.ix)
    requires Handle(l, tx).Ok?
    ensures Touches(l, tx.ix, Handle(l, tx).value)
  {
    hide ApplySink, CheckedAdd, SetBadge, IsPaused, CatchCostForRarity;
    hide Handlers.Initialize, MintCard, ListCard, CancelListing, BuyCard, InstantSell;
    hide UpdateFloor, SetInstantSell, WithdrawTreasury, SetPause;
  }

  lemma MintCardTouches(l: Ledger, payer: Key, mint: Key, tier: U8, stage: U8, level: U8, now: int)
    ensures var r := MintCard(l, payer, mint, tier, stage, level, now);
            r.Ok? ==> Touches(l, MintCardIx(mint, tier, stage, level), r.value)
  {
    hide IsPaused, Pay, BpsOf, MintFeeForTier;
  }

  lemma ListCardTouches(l: Ledger, seller: Key, mint: Key, price: U64, tier: U8, level: U8, stage: U8, now: int)
    ensures var r := ListCard(l, seller, mint, price, tier, level, stage, now);
            r.Ok? ==> Touches(l, ListCardIx(mint, price, tier, level, stage), r.value)
  {
    hide IsPaused, Pay, MoveCard;
  }

  lemma CancelListingTouches(l: Ledger, seller: Key, mint: Key)
    ensures var r := CancelListing(l, seller, mint); r.Ok? ==> Touches(l, CancelListingIx(mint), r.value)
  {
    hide ReleaseCard;
  }

  lemma BuyCardTouches(l: Ledger, buyer: Key, mint: Key)
    ensures var r := BuyCard(l, buyer, mint); r.Ok? ==> Touches(l, BuyCardIx(mint), r.value)
  {
    hide IsPaused, Pay, ReleaseCard, SplitSale;
  }

  lemma InstantSellTouches(l: Ledger, seller: Key, mint: Key)
    ensures var r := InstantSell(l, seller, mint); r.Ok? ==> Touches(l, InstantSellIx(mint), r.value)
  {
    hide IsPaused, MoveCard, MoveLamportsPda, BpsOf;
  }

  lemma InitializeTouches(l: Ledger, authority: Key, treasury: Key, vault: Key,
                          burn: U16, pool: U16, market: U16, fee: U64)
    ensures var r := Initialize(l, authority, treasury, vault, burn, pool, market, fee);
            r.Ok? ==> Touches(l, InitializeIx(treasury, vault, burn, pool, market, fee), r.value)
  {
  }

  lemma UpdateFloorTouches(l: Ledger, authority: Key, floor: U64)
    ensures var r := UpdateFloor(l, authority, floor); r.Ok? ==> Touches(l, UpdateFloorIx(floor), r.value)
  {
    hide BpsOf;
  }

  lemma SetInstantSellTouches(l: Ledger, authority: Key, enabled: bool)
    ensures var r := SetInstantSell(l, authority, enabled); r.Ok? ==> Touches(l, SetInstantSellIx(enabled), r.value)
  {
  }

  lemma WithdrawTouches(l: Ledger, authority: Key, amount: U64)
    ensures var r := WithdrawTreasury(l, authority, amount); r.Ok? ==> Touches(l, WithdrawTreasuryIx(amount), r.value)
  {
    hide MoveLamportsPda, Bal;
  }

  lemma SetPauseTouches(l: Ledger, authority: Key, flags: bv8)
    ensures var r := SetPause(l, authority, flags); r.Ok? ==> Touches(l, SetPauseIx(flags), r.value)
  {
  }

  /** Every instruction stays within its footprint. */
  lemma HandleTouches(l: Ledger, tx: Tx)
    requires Handle(l, tx).Ok?
    ensures Touches(l, tx.ix, Handle(l, tx).value)
  {
    hide Touches;
    hide Handlers.Initialize, Handlers.DeployAgent, Handlers.CatchAttempt, Handlers.GymChallenge, ForceEvolve;
    hide MintCard, ListCard, CancelListing, BuyCard, InstantSell;
    hide UpdateFloor, SetInstantSell, WithdrawTreasury, SetPause;
    match tx.ix
    case InitializeIx(treasury, vault, burn, pool, market, fee) =>
      InitializeTouches(l, tx.signer, treasury, vault, burn, pool, market, fee);
    case MintCardIx(mint, tier, stage, level) => MintCardTouches(l, tx.signer, mint, tier, stage, level, tx.now);
    case ListCardIx(mint, price, tier, level, stage) =>
      ListCardTouches(l, tx.signer, mint, price, tier, level, stage, tx.now);
    case CancelListingIx(mint) => CancelListingTouches(l, tx.signer, mint);
    case BuyCardIx(mint) => BuyCardTouches(l, tx.signer, mint);
    case InstantSellIx(mint) => InstantSellTouches(l, tx.signer, mint);
    case UpdateFloorIx(floor) => UpdateFloorTouches(l, tx.signer, floor);
    case SetInstantSellIx(enabled) => SetInstantSellTouches(l, tx.signer, enabled);
    case WithdrawTreasuryIx(amount) => WithdrawTouches(l, tx.signer, amount);
    case SetPauseIx(flags) => SetPauseTouches(l, tx.signer, flags);
    case _ => SinksTouch(l, tx);
  }

  // ---- Authority -------------------------------------------------------------------------------

  lemma AdminIsSigned(l: Ledger, tx: Tx)
    requires IsAdmin(tx.ix) && Handle(l, tx).Ok?
    ensures l.config.Some? && tx.signer == l.config.value.authority
  {
    hide MoveLamportsPda, BpsOf, Bal;
    hide Handlers.Initialize, Handlers.DeployAgent, Handlers.CatchAttempt, Handlers.GymChallenge, ForceEvolve;
    hide MintCard, ListCard, CancelListing, BuyCard, InstantSell;
  }

  lemma InitializeOnce(l: Ledger, tx: Tx)
    requires tx.ix.InitializeIx? && Handle(l, tx).Ok?
    ensures l.config.None? && l.pool.None?
  {
  }

  /** Once initialised, the authority, the vault, the treasury and every rate are fixed for good. */
  lemma {:induction false} SettingsNeverChange(l: Ledger, txs: seq<Tx>)
    requires l.config.Some?
    ensures SameSettings(l, ApplyAll(l, txs))
  {
    hide Handle;
    if txs != [] {
      var before, tx := ApplyAll(l, txs[..|txs| - 1]), txs[|txs| - 1];
      SettingsNeverChange(l, txs[..|txs| - 1]);
      if Handle(before, tx).Ok? {
        HandleTouches(before, tx);
        if tx.ix.InitializeIx? {
          InitializeOnce(before, tx);
        }
      }
    }
  }

  /** Without the authority's signature no run opens, closes or reprices anything. */
  lemma {:induction false} OnlyAuthorityMovesGates(l: Ledger, txs: seq<Tx>)
    requires l.config.Some?
    requires forall tx | tx in txs :: tx.signer != l.config.value.authority
    ensures SameGates(l, ApplyAll(l, txs))
  {
    hide Handle;
    if txs != [] {
      var before, tx := ApplyAll(l, txs[..|txs| - 1]), txs[|txs| - 1];
      OnlyAuthorityMovesGates(l, txs[..|txs| - 1]);
      SettingsNeverChange(l, txs[..|txs| - 1]);
      if Handle(before, tx).Ok? {
        HandleTouches(before, tx);
        if IsAdmin(tx.ix) {
          AdminIsSigned(before, tx);
        }
      }
    }
  }
}
