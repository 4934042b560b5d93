/** The SOL side over every run: nothing is created, the pool's books balance, and the vault can always pay. */
module PoolLaws {
  import opened Wrappers
  import opened Numbers
  import opened Balances
  import opened Economy
  import opened Handlers
  import opened Footprints

  /** The pool's books, and the two settings that guard payouts and fees. */
  ghost predicate PoolSound(l: Ledger) {
    && (l.config.Some? <==> l.pool.Some?)
    && (l.pool.Some? ==> PoolOk(l.pool.value) && l.config.value.marketFeeBps <= 2000)
  }

  predicate PoolOk(p: Pool) {
    && p.lifetimeIn == p.totalLamports + p.lifetimeOut
    && (p.instantSellEnabled ==> p.floorPrice > 0)
  }

  /** The vault is not the treasury and holds at least what the pool says it holds. */
  ghost predicate Backed(l: Ledger, vault: Key) {
    l.config.Some? ==>
      && l.config.value.buybackVault == vault
      && l.config.value.treasury != vault
      && l.pool.Some?
      && l.pool.value.totalLamports <= Bal(l.lamports, vault)
  }

  /** The vault pays no fee or price itself, and the program is set up with it and with another treasury. */
  predicate Honest(tx: Tx, vault: Key) {
    && !(tx.signer == vault && (tx.ix.MintCardIx? || tx.ix.ListCardIx? || tx.ix.BuyCardIx?))
    && (tx.ix.InitializeIx? ==> tx.ix.vault == vault && tx.ix.treasury != vault)
  }

  /** What a step keeps: always the books and the sum, and the backing when it is honest. */
  ghost predicate PoolKept(l: Ledger, after: Ledger, vault: Key, honest: bool) {
    && PoolSound(after)
    && Sum(after.lamports) == Sum(l.lamports)
    && (honest && Backed(l, vault) ==> Backed(after, vault))
  }

  // ---- One payment ---------------------------------------------------------------------------

  lemma PayIsFair(m: Book<Key>, payer: Key, to: Key, amount: nat)
    requires Pay(m, payer, to, amount).Ok?
    ensures var r := Pay(m, payer, to, amount).value;
            && Sum(r) == Sum(m)
            && (payer != to ==> Bal(r, payer) == Bal(m, payer) - amount && Bal(r, to) == Bal(m, to) + amount)
            && (payer == to ==> Bal(r, payer) == Bal(m, payer))
            && (forall k | k != payer && k != to :: Bal(r, k) == Bal(m, k))
  {
    MoveIsFair(m, payer, to, amount);
    hide *;
    hide Pay;
  }

  /** While all lamports together fit in 64 bits, a system transfer fails exactly for lack of funds. */
  lemma PayNeedsFunds(m: Book<Key>, payer: Key, to: Key, amount: nat)
    requires Sum(m) <= U64_MAX
    ensures Pay(m, payer, to, amount).Ok? <==> amount <= Bal(m, payer)
    ensures MoveLamportsPda(m, payer, to, amount).Ok? <==> amount <= Bal(m, payer)
    ensures amount <= Bal(m, payer) ==> Pay(m, payer, to, amount) == MoveLamportsPda(m, payer, to, amount)
  {
    if amount <= Bal(m, payer) {
      MoveIsFair(m, payer, to, amount);
      SumAtLeast(Move(m, payer, to, amount).value, to);
    }
    hide Move, Sum;
  }

  // ---- The instructions that move lamports -----------------------------------------------------

  lemma MintCardKeepsPool(l: Ledger, payer: Key, mint: Key, tier: U8, stage: U8, level: U8, now: int, vault: Key)
    requires PoolSound(l)
    requires MintCard(l, payer, mint, tier, stage, level, now).Ok?
    ensures PoolKept(l, MintCard(l, payer, mint, tier, stage, level, now).value, vault, payer != vault)
  {
    hide Pay, BpsOf, MintFeeForTier, IsPaused;
    var c := l.config.value;
    var fee := MintFeeForTier(tier).value;
    var cut := BpsOf(fee, 5_000).value;
    var paid := Pay(l.lamports, payer, c.buybackVault, cut).value;
    PayIsFair(l.lamports, payer, c.buybackVault, cut);
    PayIsFair(paid, payer, c.treasury, fee - cut);
  }

  lemma ListCardKeepsPool(
      l: Ledger, seller: Key, mint: Key, price: U64, tier: U8, level: U8, stage: U8, now: int, vault: Key)
    requires PoolSound(l)
    requires ListCard(l, seller, mint, price, tier, level, stage, now).Ok?
    ensures PoolKept(l, ListCard(l, seller, mint, price, tier, level, stage, now).value, vault, seller != vault)
  {
    hide Pay, MoveCard, IsPaused;
    PayIsFair(l.lamports, seller, l.config.value.buybackVault, l.config.value.listingFee);
  }

  lemma BuyCardKeepsPool(l: Ledger, buyer: Key, mint: Key, vault: Key)
    requires PoolSound(l)
    requires BuyCard(l, buyer, mint).Ok?
    ensures PoolKept(l, BuyCard(l, buyer, mint).value, vault, buyer != vault)
  {
    hide Pay, ReleaseCard, SplitSale, IsPaused;
    var c, listing := l.config.value, l.listings[mint];
    var split := SplitSale(listing.price, c.marketFeeBps).value;
    var m1 := Pay(l.lamports, buyer, listing.seller, split.sellerNet).value;
    var m2 := Pay(m1, buyer, c.buybackVault, split.poolCut).value;
    PayIsFair(l.lamports, buyer, listing.seller, split.sellerNet);
    PayIsFair(m1, buyer, c.buybackVault, split.poolCut);
    PayIsFair(m2, buyer, c.treasury, split.burnCut);
  }

  lemma InstantSellKeepsPool(l: Ledger, seller: Key, mint: Key, vault: Key)
    requires PoolSound(l)
    requires InstantSell(l, seller, mint).Ok?
    ensures PoolKept(l, InstantSell(l, seller, mint).value, vault, true)
  {
    hide MoveCard, BpsOf, IsPaused;
    var c := l.config.value;
    MoveIsFair(l.lamports, c.buybackVault, seller, BpsOf(l.pool.value.floorPrice, INSTANT_SELL_BPS).value);
    hide Move, Sum;
  }

  lemma WithdrawKeepsPool(l: Ledger, authority: Key, amount: U64, vault: Key)
    requires PoolSound(l)
    requires WithdrawTreasury(l, authority, amount).Ok?
    ensures PoolKept(l, WithdrawTreasury(l, authority, amount).value, vault, true)
  {
    MoveIsFair(l.lamports, l.config.value.treasury, authority, amount);
    hide Move, Sum;
  }

  // ---- Every instruction, every run ------------------------------------------------------------

  /** No lamport and no pool counter changes, and the settings stay. */
  ghost predicate SolUntouched(l: Ledger, after: Ledger) {
    && after.lamports == l.lamports
    && after.pool == l.pool
    && (after.config == l.config || SameSettings(l, after))
  }

  lemma OthersLeaveSol(l: Ledger, tx: Tx)
    requires IsSink(tx.ix) || tx.ix.CancelListingIx? || tx.ix.SetPauseIx?
    requires Handle(l, tx).Ok?
    ensures SolUntouched(l, Handle(l, tx).value)
  {
    hide Handle, SameSettings;
    HandleTouches(l, tx);
  }

  lemma InitializeKeepsPool(l: Ledger, authority: Key, treasury: Key, home: Key,
                            burn: U16, pool: U16, market: U16, fee: U64, vault: Key)
    requires PoolSound(l)
    requires Initialize(l, authority, treasury, home, burn, pool, market, fee).Ok?
    ensures PoolKept(l, Initialize(l, authority, treasury, home, burn, pool, market, fee).value, vault,
                     home == vault != treasury)
  {
    hide Sum;
  }

  lemma UpdateFloorKeepsPool(l: Ledger, authority: Key, floor: U64, vault: Key)
    requires PoolSound(l) && UpdateFloor(l, authority, floor).Ok?
    ensures PoolKept(l, UpdateFloor(l, authority, floor).value, vault, true)
  {
    hide BpsOf, Sum, Bal;
  }

  lemma SetInstantSellKeepsPool(l: Ledger, authority: Key, enabled: bool, vault: Key)
    requires PoolSound(l) && SetInstantSell(l, authority, enabled).Ok?
    ensures PoolKept(l, SetInstantSell(l, authority, enabled).value, vault, true)
  {
    hide Sum, Bal;
  }

  lemma StepKeepsPool(l: Ledger, tx: Tx, vault: Key)
    requires PoolSound(l)
    ensures PoolKept(l, Apply(l, tx), vault, Honest(tx, vault))
  {
    hide PoolSound, Backed, SolUntouched;
    hide Handlers.Initialize, Handlers.DeployAgent, Handlers.CatchAttempt, Handlers.GymChallenge, ForceEvolve;
    hide MintCard, ListCard, CancelListing, BuyCard, InstantSell;
    hide UpdateFloor, SetInstantSell, WithdrawTreasury, SetPause;
    if Handle(l, tx).Ok? {
      match tx.ix
      case MintCardIx(mint, tier, stage, level) =>
        MintCardKeepsPool(l, tx.signer, mint, tier, stage, level, tx.now, vault);
      case ListCardIx(mint, price, tier, level, stage) =>
        ListCardKeepsPool(l, tx.signer, mint, price, tier, level, stage, tx.now, vault);
      case BuyCardIx(mint) => BuyCardKeepsPool(l, tx.signer, mint, vault);
      case InstantSellIx(mint) => InstantSellKeepsPool(l, tx.signer, mint, vault);
      case WithdrawTreasuryIx(amount) => WithdrawKeepsPool(l, tx.signer, amount, vault);
      case InitializeIx(treasury, home, burn, pool, market, fee) =>
        InitializeKeepsPool(l, tx.signer, treasury, home, burn, pool, market, fee, vault);
      case UpdateFloorIx(floor) => UpdateFloorKeepsPool(l, tx.signer, floor, vault);
      case SetInstantSellIx(enabled) => SetInstantSellKeepsPool(l, tx.signer, enabled, vault);
      case _ =>
        OthersLeaveSol(l, tx);
        UntouchedIsKept(l, Handle(l, tx).value, vault);
    }
  }

  lemma UntouchedIsKept(l: Ledger, after: Ledger, vault: Key)
    requires PoolSound(l) && SolUntouched(l, after)
    ensures PoolKept(l, after, vault, true)
  {
    hide Sum;
  }

  /**
    * Over every run, whoever signs: the sum of all lamports is constant, lifetime_in = total_lamports + lifetime_out,
    * and instant sell is never enabled without a floor. Over every honest run the vault holds the pool's total.
    */
  lemma {:induction false} RunKeepsPool(l: Ledger, txs: seq<Tx>, vault: Key)
    requires PoolSound(l)
    ensures PoolKept(l, ApplyAll(l, txs), vault, forall tx | tx in txs :: Honest(tx, vault))
  {
    hide PoolSound, Backed, Honest, Apply;
    if txs != [] {
      RunKeepsPool(l, txs[..|txs| - 1], vault);
      StepKeepsPool(ApplyAll(l, txs[..|txs| - 1]), txs[|txs| - 1], vault);
    } else {
      hide Sum;
    }
  }

  // ---- Why the vault must stand apart ----------------------------------------------------------

  /** If the treasury is the vault, a withdrawal takes what the pool still counts on. */
  lemma SharedTreasuryUnbacks(l: Ledger, amount: U64)
    requires l.config.Some? && l.pool.Some? && Sum(l.lamports) <= U64_MAX
    requires l.config.value.treasury == l.config.value.buybackVault != l.config.value.authority
    requires Bal(l.lamports, l.config.value.buybackVault) == l.pool.value.totalLamports >= amount > 0
    ensures var r := WithdrawTreasury(l, l.config.value.authority, amount);
            && r.Ok?
            && Bal(r.value.lamports, l.config.value.buybackVault) < r.value.pool.value.totalLamports
  {
    PayNeedsFunds(l.lamports, l.config.value.treasury, l.config.value.authority, amount);
    PayIsFair(l.lamports, l.config.value.treasury, l.config.value.authority, amount);
    hide Pay, MoveLamportsPda, Sum;
  }

  /** If the vault itself mints, the pool credits a payment that never arrives. */
  lemma SigningVaultUnbacks(l: Ledger, mint: Key, tier: U8, stage: U8, level: U8, now: int)
    requires l.config.Some? && l.pool.Some? && l.config.value.treasury != l.config.value.buybackVault
    requires Bal(l.lamports, l.config.value.buybackVault) == l.pool.value.totalLamports
    requires MintCard(l, l.config.value.buybackVault, mint, tier, stage, level, now).Ok?
    ensures var after := MintCard(l, l.config.value.buybackVault, mint, tier, stage, level, now).value;
            Bal(after.lamports, l.config.value.buybackVault) < after.pool.value.totalLamports
  {
    hide Pay, IsPaused;
    var c := l.config.value;
    var cut := BpsOf(MintFeeForTier(tier).value, 5_000).value;
    PayIsFair(l.lamports, c.buybackVault, c.buybackVault, cut);
    var paid := Pay(l.lamports, c.buybackVault, c.buybackVault, cut).value;
    PayIsFair(paid, c.buybackVault, c.treasury, MintFeeForTier(tier).value - cut);
  }

  // ---- What can still fail ---------------------------------------------------------------------

  /** Only the lifetime counter can refuse an inflow: the pool's total never exceeds it. */
  lemma CreditNeedsHeadroom(p: Pool, amount: nat)
    requires PoolOk(p)
    ensures Credit(p, amount).Ok? <==> p.lifetimeIn + amount <= U64_MAX
  {
  }

  function Part(counts: bool, amount: nat): nat {
    if counts then amount else 0
  }

  /** A payment as the change of every balance at once, also when payer and payee are one. */
  lemma PayShifts(m: Book<Key>, payer: Key, to: Key, amount: nat)
    requires Pay(m, payer, to, amount).Ok?
    ensures forall k :: Bal(Pay(m, payer, to, amount).value, k)
                     == Bal(m, k) - Part(k == payer, amount) + Part(k == to, amount)
  {
    hide Pay, Sum, Bal;
    PayIsFair(m, payer, to, amount);
  }

  /** A price in three parts, and who receives each. */
  datatype Payees = Payees(a: Key, x: nat, b: Key, y: nat, c: Key, z: nat) {
    function Price(): nat { x + y + z }

    function Receives(k: Key): nat {
      Part(k == a, x) + Part(k == b, y) + Part(k == c, z)
    }

    /** What the payer must hold to get through the three payments in order; what comes back to it counts again. */
    function Needed(payer: Key): nat {
      var first, second := Part(a != payer, x), Part(b != payer, y);
      Max(x, Max(first + y, first + second + z))
    }
  }

  /** A payer who is none of the payees needs exactly the price; anyone needs at most the price. */
  lemma NeededIsPrice(p: Payees, payer: Key)
    ensures p.Needed(payer) <= p.Price()
    ensures payer != p.a && payer != p.b && payer != p.c ==> p.Needed(payer) == p.Price()
  {
  }

  function PayBoth(m: Book<Key>, payer: Key, a: Key, x: nat, b: Key, y: nat): Result<Book<Key>, Error> {
    var m1 :- Pay(m, payer, a, x);
    Pay(m1, payer, b, y)
  }

  function PayAll(m: Book<Key>, payer: Key, p: Payees): Result<Book<Key>, Error> {
    var m2 :- PayBoth(m, payer, p.a, p.x, p.b, p.y);
    Pay(m2, payer, p.c, p.z)
  }

  lemma TwoPayments(m: Book<Key>, payer: Key, a: Key, x: nat, b: Key, y: nat)
    requires Sum(m) <= U64_MAX
    ensures PayBoth(m, payer, a, x, b, y).Ok? <==> x <= Bal(m, payer) && Part(a != payer, x) + y <= Bal(m, payer)
    ensures PayBoth(m, payer, a, x, b, y).Ok? ==>
              var r := PayBoth(m, payer, a, x, b, y).value;
              && Sum(r) == Sum(m)
              && forall k :: Bal(r, k) == Bal(m, k) - Part(k == payer, x + y) + Part(k == a, x) + Part(k == b, y)
  {
    hide Pay, Sum, MoveLamportsPda, Bal;
    PayNeedsFunds(m, payer, a, x);
    if x <= Bal(m, payer) {
      PayShifts(m, payer, a, x);
      PayIsFair(m, payer, a, x);
      var m1 := Pay(m, payer, a, x).value;
      PayNeedsFunds(m1, payer, b, y);
      if y <= Bal(m1, payer) {
        PayShifts(m1, payer, b, y);
        PayIsFair(m1, payer, b, y);
      }
    }
  }

  /** Whoever coincides with whom, the payments succeed exactly with the needed funds and shift what they should. */
  lemma ThreePayments(m: Book<Key>, payer: Key, p: Payees)
    requires Sum(m) <= U64_MAX
    ensures PayAll(m, payer, p).Ok? <==> p.Needed(payer) <= Bal(m, payer)
    ensures PayAll(m, payer, p).Ok? ==>
              forall k :: Bal(PayAll(m, payer, p).value, k) == Bal(m, k) - Part(k == payer, p.Price()) + p.Receives(k)
  {
    hide Pay, PayBoth, Sum, MoveLamportsPda, Bal;
    TwoPayments(m, payer, p.a, p.x, p.b, p.y);
    if PayBoth(m, payer, p.a, p.x, p.b, p.y).Ok? {
      var m2 := PayBoth(m, payer, p.a, p.x, p.b, p.y).value;
      PayNeedsFunds(m2, payer, p.c, p.z);
      if p.z <= Bal(m2, payer) {
        PayShifts(m2, payer, p.c, p.z);
      }
    }
  }

  /** The parts of a sale at the market fee: seller, vault and treasury. */
  function SaleParts(c: Config, listing: Listing): Payees
    requires c.marketFeeBps <= 2000
  {
    SaleSplitAddsUp(listing.price, c.marketFeeBps);
    var s := SplitSale(listing.price, c.marketFeeBps).value;
    Payees(listing.seller, s.sellerNet, c.buybackVault, s.poolCut, c.treasury, s.burnCut)
  }

  /** The parts are the whole price, and at least four fifths of it are the seller's. */
  lemma SalePartsAddUp(c: Config, listing: Listing)
    requires c.marketFeeBps <= 2000
    ensures var p := SaleParts(c, listing); p.Price() == listing.price && 5 * p.x >= 4 * listing.price
  {
    hide SplitSale;
    SaleSplitAddsUp(listing.price, c.marketFeeBps);
  }

  /** What a purchase needs; under the fee cap none of it is about arithmetic going well except the lifetime counter. */
  ghost predicate SaleOpen(l: Ledger, buyer: Key, mint: Key)
    requires PoolSound(l) && l.config.Some?
  {
    && mint in l.listings && l.listings[mint].active
    && !IsPaused(l.config.value, PAUSE_MARKET)
    && Bal(CardBook(l.tokens, mint), Escrow(mint)) == 1
    && SaleParts(l.config.value, l.listings[mint]).Needed(buyer) <= Bal(l.lamports, buyer)
    && l.pool.value.lifetimeIn + SaleParts(l.config.value, l.listings[mint]).y <= U64_MAX
  }

  /**
    * In a sound state a purchase succeeds exactly when the listing is open, the card is in escrow, the buyer has the
    * funds and the lifetime counter has room; and then the price is split to the last lamport, whoever the parties are.
    */
  lemma BuyCardSettles(l: Ledger, buyer: Key, mint: Key)
    requires PoolSound(l) && Sum(l.lamports) <= U64_MAX && l.config.Some?
    ensures BuyCard(l, buyer, mint).Ok? <==> SaleOpen(l, buyer, mint)
    ensures SaleOpen(l, buyer, mint) ==>
              SaleSettled(l, BuyCard(l, buyer, mint).value, buyer, mint, SaleParts(l.config.value, l.listings[mint]))
  {
    hide SplitSale, Sum, Pay, IsPaused, Credit, ReleaseCard, Payees.Needed, Bal;
    if mint in l.listings {
      var c, listing := l.config.value, l.listings[mint];
      SaleSplitAddsUp(listing.price, c.marketFeeBps);
      var p := SaleParts(c, listing);
      CreditNeedsHeadroom(l.pool.value, p.y);
      CreditAdds(l.pool.value, p.y);
      ThreePayments(l.lamports, buyer, p);
      ReleaseNeedsOne(l.tokens, mint, buyer);
      SalePartsAddUp(c, listing);
    }
  }

  /**
    * The shares of a purchase: the market's fee on the price, rounded down; three fifths of the fee, rounded down, to
    * the vault and both counters of the pool; the rest of it to the treasury; the price less the fee to the seller.
    */
  ghost predicate SharedOut(l: Ledger, after: Ledger, buyer: Key, mint: Key, fee: nat, cut: nat) {
    && l.config.Some? && l.pool.Some? && mint in l.listings
    && (var c, r := l.config.value, l.listings[mint];
        && 10_000 * fee <= r.price * c.marketFeeBps < 10_000 * (fee + 1)
        && 10 * cut <= 6 * fee < 10 * (cut + 1)
        && fee <= r.price
        && (forall k :: Bal(after.lamports, k)
                     == Bal(l.lamports, k) - Part(k == buyer, r.price) + Part(k == r.seller, r.price - fee)
                        + Part(k == c.buybackVault, cut) + Part(k == c.treasury, fee - cut)))
    && after.pool.Some?
    && after.pool.value.totalLamports == l.pool.value.totalLamports + cut
    && after.pool.value.lifetimeIn == l.pool.value.lifetimeIn + cut
    && after.pool.value.lifetimeOut == l.pool.value.lifetimeOut
  }

  /** Every purchase is shared out so, whichever parties coincide. */
  lemma BuyCardShares(l: Ledger, buyer: Key, mint: Key) returns (fee: nat, cut: nat)
    requires PoolSound(l) && Sum(l.lamports) <= U64_MAX && BuyCard(l, buyer, mint).Ok?
    ensures SharedOut(l, BuyCard(l, buyer, mint).value, buyer, mint, fee, cut)
  {
    BuyCardNeeds(l, buyer, mint);
    BuyCardSettles(l, buyer, mint);
    BuyCardKeepsPool(l, buyer, mint, buyer);
    fee, cut := SaleSharesAre(l.config.value, l.listings[mint]);
    hide *;
    SettledIsShared(l, BuyCard(l, buyer, mint).value, buyer, mint, fee, cut);
  }

  lemma SettledIsShared(l: Ledger, after: Ledger, buyer: Key, mint: Key, fee: nat, cut: nat)
    requires PoolSound(l) && PoolSound(after) && l.config.Some? && mint in l.listings
    requires SaleSettled(l, after, buyer, mint, SaleParts(l.config.value, l.listings[mint]))
    requires var c, r := l.config.value, l.listings[mint];
             && 10_000 * fee <= r.price * c.marketFeeBps < 10_000 * (fee + 1)
             && 10 * cut <= 6 * fee < 10 * (cut + 1) && fee <= r.price
             && SaleParts(c, r) == Payees(r.seller, r.price - fee, c.buybackVault, cut, c.treasury, fee - cut)
    requires after.pool.Some? && after.pool.value.lifetimeOut == l.pool.value.lifetimeOut
    ensures SharedOut(l, after, buyer, mint, fee, cut)
  {
    hide SaleParts, Bal;
  }

  lemma BuyCardNeeds(l: Ledger, buyer: Key, mint: Key)
    requires BuyCard(l, buyer, mint).Ok?
    ensures l.config.Some? && l.pool.Some? && mint in l.listings
    ensures var after := BuyCard(l, buyer, mint).value;
            after.pool.Some? && after.pool.value.lifetimeOut == l.pool.value.lifetimeOut
  {
    hide Pay, ReleaseCard, SplitSale, IsPaused;
  }

  lemma SaleSharesAre(c: Config, r: Listing) returns (fee: nat, cut: nat)
    requires c.marketFeeBps <= 2000
    ensures 10_000 * fee <= r.price * c.marketFeeBps < 10_000 * (fee + 1) && 10 * cut <= 6 * fee < 10 * (cut + 1)
    ensures fee <= r.price
    ensures SaleParts(c, r) == Payees(r.seller, r.price - fee, c.buybackVault, cut, c.treasury, fee - cut)
    ensures SplitSale(r.price, c.marketFeeBps) == Ok(SaleSplit(r.price - fee, cut, fee - cut))
  {
    BpsOfShare(r.price, c.marketFeeBps);
    fee := BpsOf(r.price, c.marketFeeBps).value;
    BpsOfShare(fee, POOL_SHARE_BPS);
    cut := BpsOf(fee, POOL_SHARE_BPS).value;
    hide BpsOf;
  }

  /** Whichever parties coincide, an open sale goes through for a buyer who holds the price. */
  lemma PriceSuffices(l: Ledger, buyer: Key, mint: Key)
    requires PoolSound(l) && Sum(l.lamports) <= U64_MAX && l.config.Some?
    requires mint in l.listings && l.listings[mint].price <= Bal(l.lamports, buyer)
    ensures BuyCard(l, buyer, mint).Ok? <==>
              && l.listings[mint].active
              && !IsPaused(l.config.value, PAUSE_MARKET)
              && Bal(CardBook(l.tokens, mint), Escrow(mint)) == 1
              && l.pool.value.lifetimeIn + SaleParts(l.config.value, l.listings[mint]).y <= U64_MAX
  {
    hide BuyCard, Sum, SaleParts, Payees.Needed, Bal, IsPaused;
    BuyCardSettles(l, buyer, mint);
    SalePartsAddUp(l.config.value, l.listings[mint]);
    NeededIsPrice(SaleParts(l.config.value, l.listings[mint]), buyer);
  }

  lemma CreditAdds(p: Pool, amount: nat)
    ensures Credit(p, amount).Ok? ==>
              Credit(p, amount).value
              == p.(totalLamports := p.totalLamports + amount, lifetimeIn := p.lifetimeIn + amount)
  {
  }

  /** Releasing a card needs exactly one unit in escrow, because the escrow account is closed afterwards. */
  lemma ReleaseNeedsOne(tokens: map<Key, Book<Holder>>, mint: Key, to: Key)
    ensures ReleaseCard(tokens, mint, to).Ok? <==> Bal(CardBook(tokens, mint), Escrow(mint)) == 1
    ensures ReleaseCard(tokens, mint, to).Ok? ==>
              Bal(CardBook(ReleaseCard(tokens, mint, to).value, mint), Wallet(to))
              == Bal(CardBook(tokens, mint), Wallet(to)) + 1
  {
    if Bal(CardBook(tokens, mint), Escrow(mint)) >= 1 {
      MoveIsFair(CardBook(tokens, mint), Escrow(mint), Wallet(to), 1);
    }
    hide Sum, Move;
  }

  /** Every balance moves by what its owner pays and receives; the buyer has the card and the listing is gone. */
  ghost predicate SaleSettled(l: Ledger, after: Ledger, buyer: Key, mint: Key, p: Payees)
    requires l.config.Some? && l.pool.Some? && mint in l.listings
  {
    && p.Price() == l.listings[mint].price
    && (forall k :: Bal(after.lamports, k) == Bal(l.lamports, k) - Part(k == buyer, p.Price()) + p.Receives(k))
    && after.pool.Some? && after.pool.value.totalLamports == l.pool.value.totalLamports + p.y
    && after.listings == l.listings - {mint}
    && Bal(CardBook(after.tokens, mint), Wallet(buyer)) == Bal(CardBook(l.tokens, mint), Wallet(buyer)) + 1
  }

  /** A card can be listed exactly when it is held, unlisted, priced and the fee is paid and has room. */
  lemma ListCardSucceeds(l: Ledger, seller: Key, mint: Key, price: U64, tier: U8, level: U8, stage: U8, now: int)
    requires PoolSound(l) && Sum(l.lamports) <= U64_MAX
    ensures ListCard(l, seller, mint, price, tier, level, stage, now).Ok? <==>
              && l.config.Some? && !IsPaused(l.config.value, PAUSE_MARKET)
              && mint !in l.listings && price > 0
              && l.pool.value.lifetimeIn + l.config.value.listingFee <= U64_MAX
              && l.config.value.listingFee <= Bal(l.lamports, seller)
              && 1 <= Bal(CardBook(l.tokens, mint), Wallet(seller))
  {
    hide Pay, MoveLamportsPda, Sum, IsPaused, Credit;
    if l.config.Some? {
      CreditNeedsHeadroom(l.pool.value, l.config.value.listingFee);
      PayNeedsFunds(l.lamports, seller, l.config.value.buybackVault, l.config.value.listingFee);
    }
  }

  /** A mint fee in two parts: half, rounded down, to the pool and the rest to the treasury. */
  function FeeParts(c: Config, tier: nat): Payees {
    var fee := FeeOf(tier);
    Payees(c.buybackVault, fee / 2, c.treasury, fee - fee / 2, c.treasury, 0)
  }

  /**
    * A card can be minted exactly when it is new, of a known tier, paid for and the counters have room; every balance
    * then moves by its part of exactly the tier's fee, whoever the payer is.
    */
  lemma MintCardSettles(l: Ledger, payer: Key, mint: Key, tier: U8, stage: U8, level: U8, now: int)
    requires PoolSound(l) && Sum(l.lamports) <= U64_MAX && l.config.Some?
    ensures MintCard(l, payer, mint, tier, stage, level, now).Ok? <==>
              && mint !in l.cards && !IsPaused(l.config.value, PAUSE_MINT)
              && tier <= MAX_TIER && FeeParts(l.config.value, tier).Needed(payer) <= Bal(l.lamports, payer)
              && l.config.value.totalCardsMinted < U64_MAX
              && l.pool.value.lifetimeIn + FeeOf(tier) / 2 <= U64_MAX
    ensures MintCard(l, payer, mint, tier, stage, level, now).Ok? ==>
              var after, p := MintCard(l, payer, mint, tier, stage, level, now).value, FeeParts(l.config.value, tier);
              && (forall k ::
                    Bal(after.lamports, k) == Bal(l.lamports, k) - Part(k == payer, FeeOf(tier)) + p.Receives(k))
              && after.pool.Some?
              && after.pool.value.totalLamports == l.pool.value.totalLamports + FeeOf(tier) / 2
  {
    hide Pay, Sum, IsPaused, MintFeeForTier, Credit, Bal;
    if tier <= MAX_TIER {
      FeeSplits(tier);
      var c, fee := l.config.value, FeeOf(tier);
      CreditNeedsHeadroom(l.pool.value, fee / 2);
      CreditAdds(l.pool.value, fee / 2);
      TwoPayments(l.lamports, payer, c.buybackVault, fee / 2, c.treasury, fee - fee / 2);
      hide BpsOf, FeeOf;
    }
  }

  function FeeOf(tier: nat): nat {
    var fee := MintFeeForTier(tier);
    if fee.Ok? then fee.value else 0
  }

  /** The fee of each tier, in lamports. */
  lemma FeesAre()
    ensures FeeOf(0) == 1_000_000 && FeeOf(1) == 3_000_000 && FeeOf(2) == 10_000_000
    ensures FeeOf(3) == 50_000_000 && FeeOf(4) == 200_000_000 && FeeOf(5) == 1_000_000_000
  {
  }

  lemma FeeSplits(tier: nat)
    requires tier <= MAX_TIER
    ensures MintFeeForTier(tier) == Ok(FeeOf(tier)) && BpsOf(FeeOf(tier), 5_000) == Ok(FeeOf(tier) / 2)
  {
  }

  /** The authority can withdraw exactly what the treasury holds; nothing else changes hands. */
  lemma WithdrawSettles(l: Ledger, signer: Key, amount: U64)
    requires Sum(l.lamports) <= U64_MAX
    ensures WithdrawTreasury(l, signer, amount).Ok? <==>
              l.config.Some? && signer == l.config.value.authority && amount <= Bal(l.lamports, l.config.value.treasury)
    ensures WithdrawTreasury(l, signer, amount).Ok? ==>
              var after, treasury := WithdrawTreasury(l, signer, amount).value, l.config.value.treasury;
              && (treasury != signer ==>
                    && Bal(after.lamports, treasury) == Bal(l.lamports, treasury) - amount
                    && Bal(after.lamports, signer) == Bal(l.lamports, signer) + amount)
              && (forall k | k != treasury && k != signer :: Bal(after.lamports, k) == Bal(l.lamports, k))
  {
    hide Pay, MoveLamportsPda, Sum;
    if l.config.Some? {
      var treasury := l.config.value.treasury;
      PayNeedsFunds(l.lamports, treasury, signer, amount);
      if amount <= Bal(l.lamports, treasury) {
        PayIsFair(l.lamports, treasury, signer, amount);
      }
    }
  }
}
