/** Nothing leaves an account but by its owner's signature, a payout of the pool, or the authority's withdrawal. */
module OwnerLaws {
  import opened Balances
  import opened Economy
  import opened Handlers
  import opened Footprints
  import opened PageLaws
  import opened CustodyLaws

  // ---- Tokens ----------------------------------------------------------------------------------

  /** A token instruction charges a token account of the signer, and the pool's share goes to some token account. */
  lemma SinksAreSigned(l: Ledger, tx: Tx)
    requires IsSink(tx.ix) && Handle(l, tx).Ok?
    ensures tx.ix.payerToken in l.pageOwner && l.pageOwner[tx.ix.payerToken] == tx.signer
    ensures tx.ix.poolToken in l.pageOwner
    ensures Price(tx.ix) <= U64_MAX && ApplySink(l.page, tx.ix.payerToken, tx.ix.poolToken, Price(tx.ix)).Ok?
    ensures Handle(l, tx).value.page == ApplySink(l.page, tx.ix.payerToken, tx.ix.poolToken, Price(tx.ix)).value.0
  {
    PricesFit(tx.ix);
    hide ApplySink, CheckedAdd, SetBadge, IsPaused, CatchCostForRarity;
    hide Handlers.Initialize, MintCard, ListCard, CancelListing, BuyCard, InstantSell;
    hide UpdateFloor, SetInstantSell, WithdrawTreasury, SetPause;
  }

  /** No token account of anyone but the signer is debited. */
  lemma StepSpendsOwn(l: Ledger, tx: Tx, k: Key)
    requires k !in l.pageOwner || l.pageOwner[k] != tx.signer
    ensures Bal(Apply(l, tx).page, k) >= Bal(l.page, k)
  {
    if Handle(l, tx).Ok? {
      if IsSink(tx.ix) {
        SinksAreSigned(l, tx);
        SinkLeavesOthers(l.page, tx.ix.payerToken, tx.ix.poolToken, Price(tx.ix), k);
      } else {
        HandleTouches(l, tx);
      }
    }
    hide Handle, ApplySink, Bal;
  }

  // ---- Lamports --------------------------------------------------------------------------------

  /** Who can be debited: the signer, the vault for a payout, and the treasury for its authority. */
  predicate MayPay(l: Ledger, tx: Tx, k: Key) {
    || k == tx.signer
    || (l.config.Some? && tx.ix.InstantSellIx? && k == l.config.value.buybackVault)
    || (l.config.Some? && tx.ix.WithdrawTreasuryIx? && k == l.config.value.treasury
        && tx.signer == l.config.value.authority)
  }

  lemma PayTakesFromPayer(m: Book<Key>, payer: Key, to: Key, amount: nat, k: Key)
    requires k != payer
    ensures Pay(m, payer, to, amount).Ok? ==> Bal(Pay(m, payer, to, amount).value, k) >= Bal(m, k)
    ensures MoveLamportsPda(m, payer, to, amount).Ok? ==>
              Bal(MoveLamportsPda(m, payer, to, amount).value, k) >= Bal(m, k)
  {
  }

  lemma MintCardPays(l: Ledger, payer: Key, mint: Key, tier: U8, stage: U8, level: U8, now: int, k: Key)
    requires k != payer && MintCard(l, payer, mint, tier, stage, level, now).Ok?
    ensures Bal(MintCard(l, payer, mint, tier, stage, level, now).value.lamports, k) >= Bal(l.lamports, k)
  {
    hide Pay, IsPaused, MintFeeForTier, Credit, Bal, BpsOf;
    forall m: Book<Key>, to: Key, n: nat | Pay(m, payer, to, n).Ok?
      ensures Bal(Pay(m, payer, to, n).value, k) >= Bal(m, k)
    {
      PayTakesFromPayer(m, payer, to, n, k);
    }
  }

  lemma ListCardPays(l: Ledger, seller: Key, mint: Key, price: U64, tier: U8, level: U8, stage: U8, now: int, k: Key)
    requires k != seller && ListCard(l, seller, mint, price, tier, level, stage, now).Ok?
    ensures Bal(ListCard(l, seller, mint, price, tier, level, stage, now).value.lamports, k) >= Bal(l.lamports, k)
  {
    hide Pay, MoveCard, IsPaused, Credit, Bal;
    PayTakesFromPayer(l.lamports, seller, l.config.value.buybackVault, l.config.value.listingFee, k);
  }

  lemma BuyCardPays(l: Ledger, buyer: Key, mint: Key, k: Key)
    requires k != buyer && BuyCard(l, buyer, mint).Ok?
    ensures Bal(BuyCard(l, buyer, mint).value.lamports, k) >= Bal(l.lamports, k)
  {
    hide Pay, ReleaseCard, SplitSale, IsPaused, Credit, Bal;
    forall m: Book<Key>, to: Key, n: nat | Pay(m, buyer, to, n).Ok?
      ensures Bal(Pay(m, buyer, to, n).value, k) >= Bal(m, k)
    {
      PayTakesFromPayer(m, buyer, to, n, k);
    }
  }

  lemma PayoutsPay(l: Ledger, tx: Tx, k: Key)
    requires (tx.ix.InstantSellIx? || tx.ix.WithdrawTreasuryIx?) && Handle(l, tx).Ok? && !MayPay(l, tx, k)
    ensures Bal(Handle(l, tx).value.lamports, k) >= Bal(l.lamports, k)
  {
    hide MoveLamportsPda, MoveCard, BpsOf, IsPaused, Bal;
    var c := l.config.value;
    if tx.ix.InstantSellIx? {
      var payout := BpsOf(l.pool.value.floorPrice, INSTANT_SELL_BPS).value;
      PayTakesFromPayer(l.lamports, c.buybackVault, tx.signer, payout, k);
    } else {
      PayTakesFromPayer(l.lamports, c.treasury, tx.signer, tx.ix.amount, k);
    }
  }

  lemma StepPaysOwn(l: Ledger, tx: Tx, k: Key)
    requires !MayPay(l, tx, k)
    ensures Bal(Apply(l, tx).lamports, k) >= Bal(l.lamports, k)
  {
    hide Bal, MayPay;
    hide MintCard, ListCard, CancelListing, BuyCard, InstantSell, WithdrawTreasury;
    assert k != tx.signer by { NotTheSigner(l, tx, k); }
    if Handle(l, tx).Ok? {
      HandleTouches(l, tx);
      match tx.ix
      case MintCardIx(mint, tier, stage, level) =>
        MintCardPays(l, tx.signer, mint, tier, stage, level, tx.now, k);
      case ListCardIx(mint, price, tier, level, stage) =>
        ListCardPays(l, tx.signer, mint, price, tier, level, stage, tx.now, k);
      case BuyCardIx(mint) => BuyCardPays(l, tx.signer, mint, k);
      case InstantSellIx(_) => PayoutsPay(l, tx, k);
      case WithdrawTreasuryIx(_) => PayoutsPay(l, tx, k);
      case _ => hide Handle;
    } else {
      hide Handle;
    }
  }

  lemma NotTheSigner(l: Ledger, tx: Tx, k: Key)
    requires !MayPay(l, tx, k)
    ensures k != tx.signer
  {
  }

  // ---- Cards -----------------------------------------------------------------------------------

  /** No card leaves a wallet but by its owner's signature. */
  lemma StepGivesOwn(l: Ledger, tx: Tx, mint: Key, k: Key)
    requires k != tx.signer
    ensures Bal(CardBook(Apply(l, tx).tokens, mint), Wallet(k)) >= Bal(CardBook(l.tokens, mint), Wallet(k))
  {
    hide Bal, CardBook, Sum;
    hide ListCard, CancelListing, BuyCard, InstantSell;
    if Handle(l, tx).Ok? {
      HandleTouches(l, tx);
      match tx.ix
      case ListCardIx(m, price, tier, level, stage) =>
        ListCardKeepsCustody(l, tx.signer, m, price, tier, level, stage, tx.now);
      case CancelListingIx(m) => CancelListingKeepsCustody(l, tx.signer, m);
      case BuyCardIx(m) => BuyCardKeepsCustody(l, tx.signer, m);
      case InstantSellIx(m) => SellGives(l, tx.signer, m, mint, k);
      case _ => hide Handle;
    } else {
      hide Handle;
    }
  }

  lemma SellGives(l: Ledger, seller: Key, m: Key, mint: Key, k: Key)
    requires k != seller && InstantSell(l, seller, m).Ok?
    ensures Bal(CardBook(InstantSell(l, seller, m).value.tokens, mint), Wallet(k))
         >= Bal(CardBook(l.tokens, mint), Wallet(k))
  {
    MoveIsFair(CardBook(l.tokens, m), Wallet(seller), Wallet(l.config.value.buybackVault), 1);
    hide Bal, Move, Sum, BpsOf, MoveLamportsPda, IsPaused;
  }

  // ---- Every run -------------------------------------------------------------------------------

  /** What `k` has: its token accounts, its lamports and its cards are each no less. */
  ghost predicate NothingTaken(l: Ledger, after: Ledger, k: Key) {
    && (forall t | t in l.pageOwner && l.pageOwner[t] == k :: Bal(after.page, t) >= Bal(l.page, t))
    && Bal(after.lamports, k) >= Bal(l.lamports, k)
    && (forall mint :: Bal(CardBook(after.tokens, mint), Wallet(k)) >= Bal(CardBook(l.tokens, mint), Wallet(k)))
  }

  lemma StepTakesNothing(l: Ledger, tx: Tx, k: Key)
    requires l.config.Some? && k != tx.signer && k != l.config.value.buybackVault && k != l.config.value.treasury
    ensures NothingTaken(l, Apply(l, tx), k) && Apply(l, tx).pageOwner == l.pageOwner
  {
    hide Bal, CardBook;
    StepPaysOwn(l, tx, k);
    forall t | t in l.pageOwner && l.pageOwner[t] == k ensures Bal(Apply(l, tx).page, t) >= Bal(l.page, t) {
      StepSpendsOwn(l, tx, t);
    }
    forall mint
      ensures Bal(CardBook(Apply(l, tx).tokens, mint), Wallet(k)) >= Bal(CardBook(l.tokens, mint), Wallet(k))
    {
      StepGivesOwn(l, tx, mint, k);
    }
    if Handle(l, tx).Ok? {
      HandleTouches(l, tx);
    }
    hide Handle;
  }

  /** Over every run that a key does not sign, and that is neither vault nor treasury, nothing it has is taken. */
  lemma {:induction false} UnsignedIsSafe(l: Ledger, txs: seq<Tx>, k: Key)
    requires l.config.Some? && k != l.config.value.buybackVault && k != l.config.value.treasury
    requires forall tx | tx in txs :: tx.signer != k
    ensures NothingTaken(l, ApplyAll(l, txs), k) && ApplyAll(l, txs).pageOwner == l.pageOwner
  {
    hide Apply, Bal, CardBook;
    if txs != [] {
      var front, tx := txs[..|txs| - 1], txs[|txs| - 1];
      UnsignedIsSafe(l, front, k);
      SettingsNeverChange(l, front);
      assert tx in txs;
      StepTakesNothing(ApplyAll(l, front), tx, k);
    }
  }
}
