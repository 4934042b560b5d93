/** The fourteen instructions of programs/pokeage/src/instructions/ as functions of the ledger. */
module Handlers {
  import opened Wrappers
  import opened Balances
  import opened Economy

  type Key = nat

  /** Who a card token account belongs to: a wallet, or the listing account of a card. */
  datatype Holder = Wallet(owner: Key) | Escrow(mint: Key)

  datatype Config = Config(
    authority: Key, treasury: Key, buybackVault: Key, burnBps: U16, poolBps: U16, marketFeeBps: U16,
    instantSellBps: U16, listingFee: U64, totalBurned: U64, totalCardsMinted: U64, paused: bv8)

  datatype Pool = Pool(
    totalLamports: U64, lifetimeIn: U64, lifetimeOut: U64, floorPrice: U64, instantSellEnabled: bool)

  datatype Player = Player(
    owner: Key, agentDeployed: bool, totalCaught: U64, gymWins: U32, badges: bv16, lastAction: int)

  datatype Listing = Listing(
    seller: Key, price: U64, tier: U8, level: U8, stage: U8, createdAt: int, active: bool)

  datatype CardMeta = CardMeta(owner: Key, tier: U8, stage: U8, level: U8, mintedAt: int)

  /** All accounts the program reads or writes. `page` holds the token accounts of the PAGE mint. */
  datatype Ledger = Ledger(
    config: Option<Config>, pool: Option<Pool>, players: map<Key, Player>, listings: map<Key, Listing>,
    cards: map<Key, CardMeta>, tokens: map<Key, Book<Holder>>, lamports: Book<Key>, page: Book<Key>,
    pageOwner: map<Key, Key>)
  {
    function Cfg(): Result<Config, Error> {
      if config.None? then Err(AccountMissing) else Ok(config.value)
    }

    function Pl(): Result<Pool, Error> {
      if pool.None? then Err(AccountMissing) else Ok(pool.value)
    }

    /** The authority of an admin instruction. */
    function Admin(signer: Key): Result<Config, Error> {
      var c :- Cfg();
      :- Need(c.authority == signer, Unauthorized);
      Ok(c)
    }

    function ListingOf(mint: Key): Result<Listing, Error> {
      if mint !in listings then Err(AccountMissing) else Ok(listings[mint])
    }

    function PlayerOf(player: Key): Result<Player, Error> {
      if player !in players then Err(AccountMissing)
      else if players[player].owner != player then Err(Unauthorized)
      else Ok(players[player])
    }

    /** The payer's token account is the player's, and the pool's is some account of the same mint. */
    predicate SinkAccounts(player: Key, payerToken: Key, poolToken: Key) {
      payerToken in pageOwner && pageOwner[payerToken] == player && poolToken in pageOwner
    }
  }

  predicate IsPaused(c: Config, flag: bv8) {
    c.paused & flag != 0
  }

  // ---- Moving value --------------------------------------------------------------------------

  /** A system transfer of lamports. */
  function Pay(lamports: Book<Key>, payer: Key, to: Key, amount: nat): Result<Book<Key>, Error> {
    var moved := Move(lamports, payer, to, amount);
    if moved.None? || Bal(moved.value, to) > U64_MAX then Err(TransferFailed) else Ok(moved.value)
  }

  /** A direct balance adjustment, used when the source is an account of the program. */
  function MoveLamportsPda(lamports: Book<Key>, source: Key, to: Key, amount: nat): Result<Book<Key>, Error> {
    var moved := Move(lamports, source, to, amount);
    if moved.None? then Err(InsufficientFunds)
    else if Bal(moved.value, to) > U64_MAX then Err(MathOverflow)
    else Ok(moved.value)
  }

  function CardBook(tokens: map<Key, Book<Holder>>, mint: Key): Book<Holder> {
    if mint in tokens then tokens[mint] else map[]
  }

  /** One unit of a card token. */
  function MoveCard(tokens: map<Key, Book<Holder>>, mint: Key, source: Holder, to: Holder)
    : Result<map<Key, Book<Holder>>, Error>
  {
    var moved := Move(CardBook(tokens, mint), source, to, 1);
    if moved.None? then Err(TransferFailed) else Ok(tokens[mint := moved.value])
  }

  /** The escrow account disappears, which it may only when it is empty. */
  function CloseEscrow(tokens: map<Key, Book<Holder>>, mint: Key): Result<map<Key, Book<Holder>>, Error> {
    var left := Bal(CardBook(tokens, mint), Escrow(mint));
    :- Need(left == 0, TransferFailed);
    Ok(tokens[mint := CardBook(tokens, mint) - {Escrow(mint)}])
  }

  /** Moves the card out of escrow and closes the escrow account. */
  function ReleaseCard(tokens: map<Key, Book<Holder>>, mint: Key, to: Key): Result<map<Key, Book<Holder>>, Error> {
    var moved :- MoveCard(tokens, mint, Escrow(mint), Wallet(to));
    CloseEscrow(moved, mint)
  }

  /** Burns the burn share of `total` from the payer and transfers the rest to the pool's token account. */
  function ApplySink(page: Book<Key>, payerToken: Key, poolToken: Key, total: nat)
    : Result<(Book<Key>, SinkSplit), Error>
  {
    var held := Bal(page, payerToken);
    :- Need(held >= total, InsufficientFunds);
    var split :- ComputeSplit(total);
    var burnt := Burn(page, payerToken, split.burned);
    :- Need(burnt.Some?, TransferFailed);
    var moved := Move(burnt.value, payerToken, poolToken, split.toPool);
    :- Need(moved.Some?, TransferFailed);
    Ok((moved.value, split))
  }

  /** The sink and the burn counter, as every token instruction ends. */
  function Charge(l: Ledger, c: Config, payerToken: Key, poolToken: Key, cost: nat): Result<Ledger, Error> {
    var sunk :- ApplySink(l.page, payerToken, poolToken, cost);
    var burned :- CheckedAdd(c.totalBurned, sunk.1.burned);
    Ok(l.(page := sunk.0, config := Some(c.(totalBurned := burned))))
  }

  /** Inflow to the buyback pool. */
  function Credit(p: Pool, amount: nat): Result<Pool, Error> {
    var total :- CheckedAdd(p.totalLamports, amount);
    var lifetime :- CheckedAdd(p.lifetimeIn, amount);
    Ok(p.(totalLamports := total, lifetimeIn := lifetime))
  }

  // ---- Setting up ----------------------------------------------------------------------------

  function Initialize(
      l: Ledger, authority: Key, treasury: Key, vault: Key,
      burnBps: U16, poolBps: U16, marketFeeBps: U16, listingFee: U64): Result<Ledger, Error>
  {
    var unset := l.config.None? && l.pool.None?;
    :- Need(unset, AccountExists);
    :- Need(burnBps + poolBps == BPS_DENOM, InvalidFeeConfig);
    :- Need(marketFeeBps <= 2000, InvalidFeeConfig);
    Ok(l.(config := Some(Config(authority, treasury, vault, burnBps, poolBps, marketFeeBps, INSTANT_SELL_BPS,
                                listingFee, 0, 0, 0)),
          pool := Some(Pool(0, 0, 0, 0, false))))
  }

  // ---- Token sinks ---------------------------------------------------------------------------

  function DeployAgent(l: Ledger, player: Key, payerToken: Key, poolToken: Key, now: int): Result<Ledger, Error> {
    var c :- l.Cfg();
    :- Need(l.SinkAccounts(player, payerToken, poolToken), AccountMissing);
    var ps := if player in l.players then l.players[player] else Player(player, false, 0, 0, 0, 0);
    :- Need(!ps.agentDeployed, AgentAlreadyDeployed);
    var ps := ps.(owner := player, agentDeployed := true, lastAction := now);
    Charge(l.(players := l.players[player := ps]), c, payerToken, poolToken, DEPLOY_COST)
  }

  function CatchAttempt(
      l: Ledger, player: Key, payerToken: Key, poolToken: Key, rarity: U8, now: int): Result<Ledger, Error>
  {
    var ps :- l.PlayerOf(player);
    var c :- l.Cfg();
    :- Need(l.SinkAccounts(player, payerToken, poolToken), AccountMissing);
    :- Need(!IsPaused(c, PAUSE_CATCH), FeaturePaused);
    :- Need(ps.agentDeployed, AgentNotDeployed);
    var cost :- CatchCostForRarity(rarity);
    var caught :- CheckedAdd(ps.totalCaught, 1);
    var ps := ps.(totalCaught := caught, lastAction := now);
    Charge(l.(players := l.players[player := ps]), c, payerToken, poolToken, cost)
  }

  function GymChallenge(
      l: Ledger, player: Key, payerToken: Key, poolToken: Key, badgeIndex: U8, now: int): Result<Ledger, Error>
  {
    var ps :- l.PlayerOf(player);
    var c :- l.Cfg();
    :- Need(l.SinkAccounts(player, payerToken, poolToken), AccountMissing);
    :- Need(ps.agentDeployed, AgentNotDeployed);
    :- Need(badgeIndex < BADGE_COUNT, InvalidBadgeIndex);
    :- Need(ps.gymWins + 1 <= U32_MAX, MathOverflow);
    var ps := ps.(badges := SetBadge(ps.badges, badgeIndex), gymWins := ps.gymWins + 1, lastAction := now);
    Charge(l.(players := l.players[player := ps]), c, payerToken, poolToken, GYM_COST)
  }

  function ForceEvolve(l: Ledger, player: Key, payerToken: Key, poolToken: Key, now: int): Result<Ledger, Error> {
    var ps :- l.PlayerOf(player);
    var c :- l.Cfg();
    :- Need(l.SinkAccounts(player, payerToken, poolToken), AccountMissing);
    :- Need(ps.agentDeployed, AgentNotDeployed);
    var ps := ps.(lastAction := now);
    Charge(l.(players := l.players[player := ps]), c, payerToken, poolToken, FORCE_EVOLVE_COST)
  }

  // ---- Cards ---------------------------------------------------------------------------------

  function MintCard(l: Ledger, payer: Key, mint: Key, tier: U8, stage: U8, level: U8, now: int): Result<Ledger, Error> {
    var c :- l.Cfg();
    var p :- l.Pl();
    :- Need(mint !in l.cards, AccountExists);
    :- Need(!IsPaused(c, PAUSE_MINT), FeaturePaused);
    :- Need(tier <= MAX_TIER, InvalidTier);
    var fee :- MintFeeForTier(tier);
    var poolCut :- BpsOf(fee, 5_000);
    var treasuryCut :- CheckedSub(fee, poolCut);
    var minted :- CheckedAdd(c.totalCardsMinted, 1);
    var p :- Credit(p, poolCut);
    var lamports :- Pay(l.lamports, payer, c.buybackVault, poolCut);
    var lamports :- Pay(lamports, payer, c.treasury, treasuryCut);
    Ok(l.(cards := l.cards[mint := CardMeta(payer, tier, stage, level, now)],
          config := Some(c.(totalCardsMinted := minted)), pool := Some(p), lamports := lamports))
  }

  function ListCard(
      l: Ledger, seller: Key, mint: Key, price: U64, tier: U8, level: U8, stage: U8, now: int): Result<Ledger, Error>
  {
    var c :- l.Cfg();
    var p :- l.Pl();
    :- Need(mint !in l.listings, AccountExists);
    :- Need(!IsPaused(c, PAUSE_MARKET), FeaturePaused);
    :- Need(price > 0, InvalidPrice);
    var p :- Credit(p, c.listingFee);
    var lamports :- Pay(l.lamports, seller, c.buybackVault, c.listingFee);
    var tokens :- MoveCard(l.tokens, mint, Wallet(seller), Escrow(mint));
    Ok(l.(listings := l.listings[mint := Listing(seller, price, tier, level, stage, now, true)],
          pool := Some(p), lamports := lamports, tokens := tokens))
  }

  /** Neither the config nor a pause flag is consulted. */
  function CancelListing(l: Ledger, seller: Key, mint: Key): Result<Ledger, Error> {
    var listing :- l.ListingOf(mint);
    :- Need(listing.seller == seller, NotListingOwner);
    :- Need(listing.active, ListingInactive);
    var tokens :- ReleaseCard(l.tokens, mint, seller);
    Ok(l.(listings := l.listings - {mint}, tokens := tokens))
  }

  function BuyCard(l: Ledger, buyer: Key, mint: Key): Result<Ledger, Error> {
    var c :- l.Cfg();
    var p :- l.Pl();
    var listing :- l.ListingOf(mint);
    :- Need(listing.active, ListingInactive);
    :- Need(!IsPaused(c, PAUSE_MARKET), FeaturePaused);
    var split :- SplitSale(listing.price, c.marketFeeBps);
    var p :- Credit(p, split.poolCut);
    var lamports :- Pay(l.lamports, buyer, listing.seller, split.sellerNet);
    var lamports :- Pay(lamports, buyer, c.buybackVault, split.poolCut);
    var lamports :- Pay(lamports, buyer, c.treasury, split.burnCut);
    var tokens :- ReleaseCard(l.tokens, mint, buyer);
    Ok(l.(listings := l.listings - {mint}, pool := Some(p), lamports := lamports, tokens := tokens))
  }

  function InstantSell(l: Ledger, seller: Key, mint: Key): Result<Ledger, Error> {
    var c :- l.Cfg();
    var p :- l.Pl();
    :- Need(!IsPaused(c, PAUSE_INSTANT_SELL), FeaturePaused);
    :- Need(p.instantSellEnabled, InstantSellDisabled);
    :- Need(p.floorPrice > 0, FloorNotSet);
    var payout :- BpsOf(p.floorPrice, INSTANT_SELL_BPS);
    :- Need(p.totalLamports >= payout, PoolInsufficient);
    var total :- CheckedSub(p.totalLamports, payout);
    var out :- CheckedAdd(p.lifetimeOut, payout);
    var tokens :- MoveCard(l.tokens, mint, Wallet(seller), Wallet(c.buybackVault));
    var lamports :- MoveLamportsPda(l.lamports, c.buybackVault, seller, payout);
    Ok(l.(pool := Some(p.(totalLamports := total, lifetimeOut := out)), tokens := tokens, lamports := lamports))
  }

  // ---- Administration ------------------------------------------------------------------------

  function UpdateFloor(l: Ledger, authority: Key, floorPrice: U64): Result<Ledger, Error> {
    var c :- l.Admin(authority);
    var p :- l.Pl();
    if floorPrice == 0 then Ok(l.(pool := Some(p.(floorPrice := 0, instantSellEnabled := false))))
    else
      var onePayout :- BpsOf(floorPrice, INSTANT_SELL_BPS);
      var enabled := p.instantSellEnabled && p.totalLamports >= onePayout;
      Ok(l.(pool := Some(p.(floorPrice := floorPrice, instantSellEnabled := enabled))))
  }

  function SetInstantSell(l: Ledger, authority: Key, enabled: bool): Result<Ledger, Error> {
    var c :- l.Admin(authority);
    var p :- l.Pl();
    :- Need(enabled ==> p.floorPrice > 0, FloorNotSet);
    Ok(l.(pool := Some(p.(instantSellEnabled := enabled))))
  }

  function WithdrawTreasury(l: Ledger, authority: Key, amount: U64): Result<Ledger, Error> {
    var c :- l.Admin(authority);
    :- Need(Bal(l.lamports, c.treasury) >= amount, InsufficientFunds);
    var lamports :- MoveLamportsPda(l.lamports, c.treasury, authority, amount);
    Ok(l.(lamports := lamports))
  }

  function SetPause(l: Ledger, authority: Key, flags: bv8): Result<Ledger, Error> {
    var c :- l.Admin(authority);
    Ok(l.(config := Some(c.(paused := flags))))
  }

  // ---- Instructions and runs -----------------------------------------------------------------

  datatype Instruction =
    | InitializeIx(treasury: Key, vault: Key, burnBps: U16, poolBps: U16, marketFeeBps: U16, listingFee: U64)
    | DeployAgentIx(payerToken: Key, poolToken: Key)
    | CatchAttemptIx(payerToken: Key, poolToken: Key, rarity: U8)
    | GymChallengeIx(payerToken: Key, poolToken: Key, badgeIndex: U8)
    | ForceEvolveIx(payerToken: Key, poolToken: Key)
    | MintCardIx(mint: Key, tier: U8, stage: U8, level: U8)
    | ListCardIx(mint: Key, price: U64, tier: U8, level: U8, stage: U8)
    | CancelListingIx(mint: Key)
    | BuyCardIx(mint: Key)
    | InstantSellIx(mint: Key)
    | UpdateFloorIx(floorPrice: U64)
    | SetInstantSellIx(enabled: bool)
    | WithdrawTreasuryIx(amount: U64)
    | SetPauseIx(flags: bv8)

  /** A signed instruction and the clock it sees. */
  datatype Tx = Tx(signer: Key, ix: Instruction, now: int)

  function Handle(l: Ledger, tx: Tx): Result<Ledger, Error> {
    match tx.ix
    case InitializeIx(treasury, vault, burn, pool, market, fee) =>
      Initialize(l, tx.signer, treasury, vault, burn, pool, market, fee)
    case DeployAgentIx(payerToken, poolToken) => DeployAgent(l, tx.signer, payerToken, poolToken, tx.now)
    case CatchAttemptIx(payerToken, poolToken, rarity) =>
      CatchAttempt(l, tx.signer, payerToken, poolToken, rarity, tx.now)
    case GymChallengeIx(payerToken, poolToken, badge) =>
      GymChallenge(l, tx.signer, payerToken, poolToken, badge, tx.now)
    case ForceEvolveIx(payerToken, poolToken) => ForceEvolve(l, tx.signer, payerToken, poolToken, tx.now)
    case MintCardIx(mint, tier, stage, level) => MintCard(l, tx.signer, mint, tier, stage, level, tx.now)
    case ListCardIx(mint, price, tier, level, stage) => ListCard(l, tx.signer, mint, price, tier, level, stage, tx.now)
    case CancelListingIx(mint) => CancelListing(l, tx.signer, mint)
    case BuyCardIx(mint) => BuyCard(l, tx.signer, mint)
    case InstantSellIx(mint) => InstantSell(l, tx.signer, mint)
    case UpdateFloorIx(floor) => UpdateFloor(l, tx.signer, floor)
    case SetInstantSellIx(enabled) => SetInstantSell(l, tx.signer, enabled)
    case WithdrawTreasuryIx(amount) => WithdrawTreasury(l, tx.signer, amount)
    case SetPauseIx(flags) => SetPause(l, tx.signer, flags)
  }

  /** A transaction is atomic: a failing one leaves every account as it was. */
  function Apply(l: Ledger, tx: Tx): Ledger {
    var r := Handle(l, tx);
    if r.Ok? then r.value else l
  }

  function ApplyAll(l: Ledger, txs: seq<Tx>): Ledger {
    if txs == [] then l else Apply(ApplyAll(l, txs[..|txs| - 1]), txs[|txs| - 1])
  }
}
