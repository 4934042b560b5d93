/** Escrow custody over every run: a card is in escrow exactly while it is listed, and can always come back. */
module CustodyLaws {
  import opened Wrappers
  import opened Balances
  import opened Economy
  import opened Handlers
  import opened Footprints
  import opened PoolLaws

  /** One unit in escrow per listing and none otherwise; every listing there is, is active. */
  ghost predicate CustodySound(l: Ledger) {
    forall mint: Key :: EscrowHolds(l, mint)
  }

  ghost predicate EscrowHolds(l: Ledger, mint: Key) {
    && Bal(CardBook(l.tokens, mint), Escrow(mint)) == (if mint in l.listings then 1 else 0)
    && (mint in l.listings ==> l.listings[mint].active)
  }

  /** What a step does to the cards: the books of other mints and every supply stay as they are. */
  ghost predicate CardsKept(l: Ledger, after: Ledger) {
    && (CustodySound(l) ==> CustodySound(after))
    && (forall mint: Key :: Supply(after, mint) == Supply(l, mint))
  }

  ghost function Supply(l: Ledger, mint: Key): nat {
    Sum(CardBook(l.tokens, mint))
  }

  /** A card moved between two holders of one mint. */
  ghost predicate Moved(l: Ledger, after: Ledger, mint: Key, source: Holder, to: Holder) {
    && source != to
    && (forall m | m != mint :: CardBook(after.tokens, m) == CardBook(l.tokens, m))
    && Supply(after, mint) == Supply(l, mint)
    && Bal(CardBook(after.tokens, mint), source) == Bal(CardBook(l.tokens, mint), source) - 1
    && Bal(CardBook(after.tokens, mint), to) == Bal(CardBook(l.tokens, mint), to) + 1
    && (forall h | h != source && h != to ::
          Bal(CardBook(after.tokens, mint), h) == Bal(CardBook(l.tokens, mint), h))
  }

  lemma MoveCardMoves(l: Ledger, after: Ledger, mint: Key, source: Holder, to: Holder)
    requires source != to
    requires MoveCard(l.tokens, mint, source, to) == Ok(after.tokens)
    ensures Moved(l, after, mint, source, to)
  {
    MoveIsFair(CardBook(l.tokens, mint), source, to, 1);
    hide Move, Sum, Bal;
  }

  // ---- The four instructions that move cards ---------------------------------------------------

  lemma ListCardKeepsCustody(l: Ledger, seller: Key, mint: Key, price: U64, tier: U8, level: U8, stage: U8, now: int)
    requires ListCard(l, seller, mint, price, tier, level, stage, now).Ok?
    ensures var after := ListCard(l, seller, mint, price, tier, level, stage, now).value;
            CardsKept(l, after) && Moved(l, after, mint, Wallet(seller), Escrow(mint))
  {
    hide Pay, Sum, Bal, Credit, IsPaused, MoveCard;
    var after := ListCard(l, seller, mint, price, tier, level, stage, now).value;
    MoveCardMoves(l, after, mint, Wallet(seller), Escrow(mint));
    hide CardBook;
    if CustodySound(l) {
      forall m: Key ensures EscrowHolds(after, m) { assert EscrowHolds(l, m); }
    }
  }

  lemma ReleaseMoves(l: Ledger, after: Ledger, mint: Key, to: Key)
    requires ReleaseCard(l.tokens, mint, to) == Ok(after.tokens) && after.listings == l.listings - {mint}
    ensures CardsKept(l, after) && Moved(l, after, mint, Escrow(mint), Wallet(to))
  {
    hide Sum, Bal, MoveCard;
    var moved := l.(tokens := MoveCard(l.tokens, mint, Escrow(mint), Wallet(to)).value);
    MoveCardMoves(l, moved, mint, Escrow(mint), Wallet(to));
    CloseKeeps(CardBook(moved.tokens, mint), Escrow(mint));
    hide CardBook;
    if CustodySound(l) {
      forall m: Key ensures EscrowHolds(after, m) { assert EscrowHolds(l, m); }
    }
  }

  lemma CancelListingKeepsCustody(l: Ledger, seller: Key, mint: Key)
    requires CancelListing(l, seller, mint).Ok?
    ensures var after := CancelListing(l, seller, mint).value;
            CardsKept(l, after) && Moved(l, after, mint, Escrow(mint), Wallet(seller))
  {
    hide ReleaseCard;
    ReleaseMoves(l, CancelListing(l, seller, mint).value, mint, seller);
    hide *;
    hide CancelListing;
  }

  lemma BuyCardKeepsCustody(l: Ledger, buyer: Key, mint: Key)
    requires BuyCard(l, buyer, mint).Ok?
    ensures var after := BuyCard(l, buyer, mint).value;
            CardsKept(l, after) && Moved(l, after, mint, Escrow(mint), Wallet(buyer))
  {
    hide ReleaseCard, Pay, SplitSale, Credit, IsPaused;
    ReleaseMoves(l, BuyCard(l, buyer, mint).value, mint, buyer);
    hide *;
    hide BuyCard;
  }

  lemma InstantSellKeepsCustody(l: Ledger, seller: Key, mint: Key)
    requires InstantSell(l, seller, mint).Ok?
    ensures CardsKept(l, InstantSell(l, seller, mint).value)
  {
    hide Sum, Bal, MoveCard, MoveLamportsPda, IsPaused, BpsOf;
    var after, vault := InstantSell(l, seller, mint).value, l.config.value.buybackVault;
    if seller == vault {
      SelfMove(l, after, mint, Wallet(seller));
    } else {
      MoveCardMoves(l, after, mint, Wallet(seller), Wallet(vault));
    }
    hide CardBook;
    if CustodySound(l) {
      forall m: Key ensures EscrowHolds(after, m) { assert EscrowHolds(l, m); }
    }
  }

  lemma SelfMove(l: Ledger, after: Ledger, mint: Key, h: Holder)
    requires MoveCard(l.tokens, mint, h, h) == Ok(after.tokens)
    ensures forall m :: Supply(after, m) == Supply(l, m)
    ensures forall m, k :: Bal(CardBook(after.tokens, m), k) == Bal(CardBook(l.tokens, m), k)
  {
    MoveIsFair(CardBook(l.tokens, mint), h, h, 1);
    hide Move, Sum, Bal;
  }

  // ---- Every instruction, every run ------------------------------------------------------------

  ghost predicate CardsUntouched(l: Ledger, after: Ledger) {
    after.tokens == l.tokens && after.listings == l.listings
  }

  lemma OthersLeaveCards(l: Ledger, tx: Tx)
    requires !MovesCards(tx.ix)
    requires Handle(l, tx).Ok?
    ensures CardsUntouched(l, Handle(l, tx).value)
  {
    hide Handle;
    HandleTouches(l, tx);
  }

  lemma StepKeepsCustody(l: Ledger, tx: Tx)
    ensures CardsKept(l, Apply(l, tx))
  {
    hide CustodySound, Supply;
    hide ListCard, CancelListing, BuyCard, InstantSell;
    if Handle(l, tx).Ok? {
      match tx.ix
      case ListCardIx(mint, price, tier, level, stage) =>
        ListCardKeepsCustody(l, tx.signer, mint, price, tier, level, stage, tx.now);
      case CancelListingIx(mint) => CancelListingKeepsCustody(l, tx.signer, mint);
      case BuyCardIx(mint) => BuyCardKeepsCustody(l, tx.signer, mint);
      case InstantSellIx(mint) => InstantSellKeepsCustody(l, tx.signer, mint);
      case _ =>
        OthersLeaveCards(l, tx);
        SameCards(l, Handle(l, tx).value);
    }
  }

  lemma SameCards(l: Ledger, after: Ledger)
    requires after.tokens == l.tokens && after.listings == l.listings
    ensures CardsKept(l, after)
  {
    hide Sum, Bal, CardBook;
    if CustodySound(l) {
      forall m: Key ensures EscrowHolds(after, m) { assert EscrowHolds(l, m); }
    }
  }

  /** Over every run a listing exists exactly while its escrow holds the card, and no card is made or lost. */
  lemma {:induction false} RunKeepsCustody(l: Ledger, txs: seq<Tx>)
    ensures CardsKept(l, ApplyAll(l, txs))
  {
    hide CustodySound, Supply, Apply;
    if txs != [] {
      RunKeepsCustody(l, txs[..|txs| - 1]);
      StepKeepsCustody(ApplyAll(l, txs[..|txs| - 1]), txs[|txs| - 1]);
    }
  }

  /** Where nothing is listed and no escrow holds anything yet, every run keeps custody. */
  lemma CustodyFromScratch(l: Ledger, txs: seq<Tx>)
    requires l.listings == map[]
    requires forall mint :: Bal(CardBook(l.tokens, mint), Escrow(mint)) == 0
    ensures CustodySound(ApplyAll(l, txs))
  {
    hide ApplyAll, Bal, CardBook, Supply;
    assert CustodySound(l);
    RunKeepsCustody(l, txs);
  }

  /** A card of which one was made is always in exactly one place, and that place is escrow exactly if listed. */
  lemma OneHolder(l: Ledger, txs: seq<Tx>, mint: Key)
    requires CustodySound(l) && Supply(l, mint) == 1
    ensures var after := ApplyAll(l, txs);
            exists h: Holder ::
              && Bal(CardBook(after.tokens, mint), h) == 1
              && (forall j | j != h :: Bal(CardBook(after.tokens, mint), j) == 0)
              && (h == Escrow(mint) <==> mint in after.listings)
  {
    hide Sum, CardBook, ApplyAll, Bal;
    RunKeepsCustody(l, txs);
    var after := ApplyAll(l, txs);
    assert EscrowHolds(after, mint);
    UnitHasOneHolder(CardBook(after.tokens, mint));
  }

  // ---- Coming back -----------------------------------------------------------------------------

  /** In every sound state exactly the recorded seller can cancel: no pause flag and no setting is asked. */
  lemma SellerCanCancel(l: Ledger, seller: Key, mint: Key)
    requires CustodySound(l)
    ensures CancelListing(l, seller, mint).Ok? <==> mint in l.listings && l.listings[mint].seller == seller
  {
    hide CardBook, Bal, ReleaseCard;
    assert EscrowHolds(l, mint);
    ReleaseNeedsOne(l.tokens, mint, seller);
  }

  /** A listing is untouched by every transaction except its sale and its seller's cancellation. */
  predicate Ends(tx: Tx, mint: Key, seller: Key) {
    tx.ix == BuyCardIx(mint) || (tx.ix == CancelListingIx(mint) && tx.signer == seller)
  }

  lemma ListingStays(l: Ledger, tx: Tx, mint: Key)
    requires mint in l.listings && !Ends(tx, mint, l.listings[mint].seller)
    ensures mint in Apply(l, tx).listings && Apply(l, tx).listings[mint] == l.listings[mint]
  {
    hide ReleaseCard, MoveCard, Pay, MoveLamportsPda, IsPaused, Credit, BpsOf, SplitSale;
    hide Handlers.DeployAgent, Handlers.CatchAttempt, Handlers.GymChallenge, ForceEvolve, MintCard;
    hide Handlers.Initialize, UpdateFloor, SetInstantSell, WithdrawTreasury, SetPause;
    if Handle(l, tx).Ok? && !MovesCards(tx.ix) {
      OthersLeaveCards(l, tx);
    }
  }

  /**
    * A listed card is never stuck: after any transactions of anyone, short of a sale or the seller's own
    * cancellation, the recorded seller's cancel succeeds, closes the listing and returns the card.
    */
  lemma {:induction false} NeverStuck(l: Ledger, txs: seq<Tx>, mint: Key)
    requires CustodySound(l) && mint in l.listings
    requires forall tx | tx in txs :: !Ends(tx, mint, l.listings[mint].seller)
    ensures var now, seller := ApplyAll(l, txs), l.listings[mint].seller;
            && mint in now.listings && now.listings[mint] == l.listings[mint]
            && CancelListing(now, seller, mint).Ok?
            && mint !in CancelListing(now, seller, mint).value.listings
            && Moved(now, CancelListing(now, seller, mint).value, mint, Escrow(mint), Wallet(seller))
  {
    hide CustodySound, Ends, Apply, Supply, Moved;
    var now := ApplyAll(l, txs);
    if txs != [] {
      NeverStuck(l, txs[..|txs| - 1], mint);
      ListingStays(ApplyAll(l, txs[..|txs| - 1]), txs[|txs| - 1], mint);
    }
    RunKeepsCustody(l, txs);
    SellerCanCancel(now, l.listings[mint].seller, mint);
    CancelListingKeepsCustody(now, l.listings[mint].seller, mint);
    hide ReleaseCard;
  }

  /**
    * Listing and cancelling restores the listings and every holder; what it costs the seller is exactly the
    * listing fee, which goes to the vault and which the pool's total gains.
    */
  lemma ListThenCancelCostsTheFee(
      l: Ledger, seller: Key, mint: Key, price: U64, tier: U8, level: U8, stage: U8, now: int)
    requires PoolSound(l) && CustodySound(l)
    requires ListCard(l, seller, mint, price, tier, level, stage, now).Ok?
    ensures var listed := ListCard(l, seller, mint, price, tier, level, stage, now).value;
            && CancelListing(listed, seller, mint).Ok?
            && var back, c := CancelListing(listed, seller, mint).value, l.config.value;
            && back.listings == l.listings
            && (forall m, h :: Bal(CardBook(back.tokens, m), h) == Bal(CardBook(l.tokens, m), h))
            && (forall k :: Bal(back.lamports, k)
                         == Bal(l.lamports, k) - Part(k == seller, c.listingFee)
                            + Part(k == c.buybackVault, c.listingFee))
            && back.pool == Some(l.pool.value.(
                 totalLamports := l.pool.value.totalLamports + c.listingFee,
                 lifetimeIn := l.pool.value.lifetimeIn + c.listingFee))
            && back == l.(listings := back.listings, tokens := back.tokens,
                          lamports := back.lamports, pool := back.pool)
  {
    hide Pay, Sum, Bal, IsPaused, MoveCard, CardBook, ReleaseCard;
    hide CustodySound, CardsKept;
    var listed := ListCard(l, seller, mint, price, tier, level, stage, now).value;
    ListCardKeepsCustody(l, seller, mint, price, tier, level, stage, now);
    assert CustodySound(listed) by { KeptSound(l, listed); }
    SellerCanCancel(listed, seller, mint);
    CancelListingKeepsCustody(listed, seller, mint);
    PayShifts(l.lamports, seller, l.config.value.buybackVault, l.config.value.listingFee);
    assert l.listings[mint := listed.listings[mint]] - {mint} == l.listings;
  }

  lemma KeptSound(l: Ledger, after: Ledger)
    requires CustodySound(l) && CardsKept(l, after)
    ensures CustodySound(after)
  {
    hide CustodySound, Supply;
  }

  /** The sale of an open listing at the terms of the config: every balance moves by its part of the price asked. */
  ghost predicate PaidAsAsked(
      open: Ledger, after: Ledger, buyer: Key, seller: Key, price: nat, p: Payees)
  {
    && p.a == seller && p.Price() == price && 5 * p.x >= 4 * price
    && (forall k :: Bal(after.lamports, k) == Bal(open.lamports, k) - Part(k == buyer, price) + p.Receives(k))
  }

  /**
    * The price asked is the price paid: whatever anyone does between listing and sale, the buyer pays exactly it, and
    * the one who listed, the pool and the treasury receive it in full.
    */
  lemma ListedPriceIsPaid(
      l: Ledger, seller: Key, mint: Key, price: U64, tier: U8, level: U8, stage: U8, now: int, txs: seq<Tx>, buyer: Key)
    requires PoolSound(l) && Sum(l.lamports) <= U64_MAX
    requires ListCard(l, seller, mint, price, tier, level, stage, now).Ok?
    requires forall tx | tx in txs :: !Ends(tx, mint, seller)
    ensures var listed := ListCard(l, seller, mint, price, tier, level, stage, now).value;
            var open := ApplyAll(listed, txs);
            && mint in listed.listings
            && (BuyCard(open, buyer, mint).Ok? ==>
                  PaidAsAsked(open, BuyCard(open, buyer, mint).value, buyer, seller, price,
                              SaleParts(l.config.value, listed.listings[mint])))
  {
    var listed := ListCard(l, seller, mint, price, tier, level, stage, now).value;
    ListCardKeepsPool(l, seller, mint, price, tier, level, stage, now, l.config.value.buybackVault);
    ListCardRecords(l, seller, mint, price, tier, level, stage, now);
    hide *;
    hide ListCard;
    ListingStaysAll(listed, txs, mint);
    RunKeepsPool(listed, txs, l.config.value.buybackVault);
    SettingsNeverChange(listed, txs);
    OpenForSale(l, listed, ApplyAll(listed, txs), seller, mint, price, buyer, l.config.value.buybackVault);
  }

  lemma ListCardRecords(l: Ledger, seller: Key, mint: Key, price: U64, tier: U8, level: U8, stage: U8, now: int)
    requires ListCard(l, seller, mint, price, tier, level, stage, now).Ok?
    ensures var listed := ListCard(l, seller, mint, price, tier, level, stage, now).value;
            && mint in listed.listings && listed.listings[mint].seller == seller && listed.listings[mint].price == price
            && listed.config == l.config
  {
    hide IsPaused, Pay, MoveCard, Credit;
  }

  lemma {:induction false} ListingStaysAll(l: Ledger, txs: seq<Tx>, mint: Key)
    requires mint in l.listings
    requires forall tx | tx in txs :: !Ends(tx, mint, l.listings[mint].seller)
    ensures mint in ApplyAll(l, txs).listings && ApplyAll(l, txs).listings[mint] == l.listings[mint]
  {
    hide Apply, Ends;
    if txs != [] {
      ListingStaysAll(l, txs[..|txs| - 1], mint);
      ListingStays(ApplyAll(l, txs[..|txs| - 1]), txs[|txs| - 1], mint);
    }
  }

  lemma OpenForSale(l: Ledger, listed: Ledger, open: Ledger, seller: Key, mint: Key, price: U64, buyer: Key, vault: Key)
    requires PoolSound(l) && l.config.Some? && listed.config == l.config
    requires PoolSound(open) && Sum(open.lamports) <= U64_MAX && SameSettings(listed, open)
    requires mint in listed.listings && mint in open.listings && open.listings[mint] == listed.listings[mint]
    requires listed.listings[mint].seller == seller && listed.listings[mint].price == price
    ensures BuyCard(open, buyer, mint).Ok? ==>
              PaidAsAsked(open, BuyCard(open, buyer, mint).value, buyer, seller, price,
                          SaleParts(l.config.value, listed.listings[mint]))
  {
    hide BuyCard, Sum, Bal, SaleOpen, PoolOk, SplitSale;
    BuyCardSettles(open, buyer, mint);
    SalePartsAddUp(l.config.value, listed.listings[mint]);
  }

  // ---- Card records ----------------------------------------------------------------------------

  /** Records are only ever added, and the counter counts them. */
  ghost predicate RecordsKept(l: Ledger, after: Ledger) {
    && |after.cards| + Minted(l) == |l.cards| + Minted(after)
    && Minted(l) <= Minted(after)
    && (forall m | m in l.cards :: m in after.cards && after.cards[m] == l.cards[m])
  }

  lemma MintAddsRecord(l: Ledger, payer: Key, mint: Key, tier: U8, stage: U8, level: U8, now: int)
    requires MintCard(l, payer, mint, tier, stage, level, now).Ok?
    ensures RecordsKept(l, MintCard(l, payer, mint, tier, stage, level, now).value)
  {
    hide IsPaused, Pay, BpsOf, MintFeeForTier, Credit;
  }

  /** Over every run a card is recorded at most once, for good, and the mint counter counts the records. */
  lemma {:induction false} RunKeepsRecords(l: Ledger, txs: seq<Tx>)
    ensures RecordsKept(l, ApplyAll(l, txs))
  {
    hide Handle, MintCard;
    if txs != [] {
      var before, tx := ApplyAll(l, txs[..|txs| - 1]), txs[|txs| - 1];
      RunKeepsRecords(l, txs[..|txs| - 1]);
      if Handle(before, tx).Ok? {
        StepKeepsRecords(before, tx);
      }
    }
  }

  lemma StepKeepsRecords(l: Ledger, tx: Tx)
    requires Handle(l, tx).Ok?
    ensures RecordsKept(l, Handle(l, tx).value)
  {
    if tx.ix.MintCardIx? {
      hide MintCard, RecordsKept;
      MintAddsRecord(l, tx.signer, tx.ix.mint, tx.ix.tier, tx.ix.stage, tx.ix.level, tx.now);
    } else {
      hide Handle;
      HandleTouches(l, tx);
    }
  }
}
