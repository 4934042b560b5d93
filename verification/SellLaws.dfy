/** Instant sell: exactly when it pays, what it pays, and how many sales the pool covers. */
module SellLaws {
  import opened Wrappers
  import opened Balances
  import opened Economy
  import opened Handlers
  import opened Footprints
  import opened PoolLaws
  import Numbers

  /** The states the program can be in: sound books, a backed vault, and lamports that fit their type. */
  ghost predicate Solvent(l: Ledger, vault: Key) {
    PoolSound(l) && Backed(l, vault) && l.config.Some? && l.pool.Some? && Sum(l.lamports) <= U64_MAX
  }

  /** Half the floor, rounded down. */
  function Payout(floor: U64): U64 {
    floor / 2
  }

  lemma PayoutIsHalf(floor: U64)
    ensures BpsOf(floor, INSTANT_SELL_BPS) == Ok(Payout(floor))
  {
  }

  ghost predicate GatesOpen(l: Ledger)
    requires l.config.Some? && l.pool.Some?
  {
    !IsPaused(l.config.value, PAUSE_INSTANT_SELL) && l.pool.value.instantSellEnabled
  }

  /** What a successful sale changes. */
  ghost predicate Sold(l: Ledger, after: Ledger, seller: Key, mint: Key, vault: Key)
    requires l.pool.Some?
  {
    var p, payout := l.pool.value, Payout(l.pool.value.floorPrice);
    && payout <= p.totalLamports
    && p.lifetimeOut + payout <= U64_MAX
    && after.pool == Some(p.(totalLamports := p.totalLamports - payout, lifetimeOut := p.lifetimeOut + payout))
    && after.config == l.config && after.listings == l.listings
    && (forall k :: Bal(after.lamports, k) == Bal(l.lamports, k) - Part(k == vault, payout) + Part(k == seller, payout))
    && (forall m | m != mint :: CardBook(after.tokens, m) == CardBook(l.tokens, m))
    && (forall h :: Bal(CardBook(after.tokens, mint), h)
                 == Bal(CardBook(l.tokens, mint), h) - Part(h == Wallet(seller), 1) + Part(h == Wallet(vault), 1))
  }

  /**
    * In a solvent state an instant sell succeeds exactly when its gates are open, the pool's total covers the
    * payout and the seller holds the card: no floor, overflow or vault-balance error is left.
    */
  lemma InstantSellPays(l: Ledger, seller: Key, mint: Key, vault: Key)
    requires Solvent(l, vault)
    ensures InstantSell(l, seller, mint).Ok? <==>
              && GatesOpen(l)
              && Payout(l.pool.value.floorPrice) <= l.pool.value.totalLamports
              && 1 <= Bal(CardBook(l.tokens, mint), Wallet(seller))
    ensures InstantSell(l, seller, mint).Ok? ==> Sold(l, InstantSell(l, seller, mint).value, seller, mint, vault)
    ensures GatesOpen(l) && l.pool.value.totalLamports < Payout(l.pool.value.floorPrice) ==>
              InstantSell(l, seller, mint) == Err(PoolInsufficient)
  {
    hide BpsOf, Sum, IsPaused, MoveLamportsPda, Pay, Bal;
    var payout := Payout(l.pool.value.floorPrice);
    PayoutIsHalf(l.pool.value.floorPrice);
    PayNeedsFunds(l.lamports, vault, seller, payout);
    if payout <= Bal(l.lamports, vault) {
      PayShifts(l.lamports, vault, seller, payout);
    }
    CardShifts(l.tokens, mint, Wallet(seller), Wallet(vault));
    hide MoveCard, CardBook;
  }

  lemma CardShifts(tokens: map<Key, Book<Holder>>, mint: Key, source: Holder, to: Holder)
    ensures var r, book := MoveCard(tokens, mint, source, to), CardBook(tokens, mint);
            && (r.Ok? <==> 1 <= Bal(book, source))
            && (r.Ok? ==>
                  && (forall m | m != mint :: CardBook(r.value, m) == CardBook(tokens, m))
                  && (forall h :: Bal(CardBook(r.value, mint), h)
                               == Bal(book, h) - Part(h == source, 1) + Part(h == to, 1)))
  {
    if 1 <= Bal(CardBook(tokens, mint), source) {
      MoveIsFair(CardBook(tokens, mint), source, to, 1);
    }
    hide Move, Sum, Bal;
  }

  // ---- Capacity --------------------------------------------------------------------------------

  datatype Sale = Sale(seller: Key, mint: Key, now: int)

  function SellTx(s: Sale): Tx {
    Tx(s.seller, InstantSellIx(s.mint), s.now)
  }

  function SellTxs(sales: seq<Sale>): seq<Tx> {
    seq(|sales|, i requires 0 <= i < |sales| => SellTx(sales[i]))
  }

  /** Different cards, each held by its seller. */
  ghost predicate Deliverable(l: Ledger, sales: seq<Sale>) {
    && (forall i | 0 <= i < |sales| :: 1 <= Bal(CardBook(l.tokens, sales[i].mint), Wallet(sales[i].seller)))
    && (forall i, j | 0 <= i < j < |sales| :: sales[i].mint != sales[j].mint)
  }

  /** The state after `n` of the sales: `k` payouts made, the cards still to come untouched. */
  ghost predicate AfterSales(l: Ledger, now: Ledger, k: nat, untouched: seq<Sale>, vault: Key)
    requires l.pool.Some?
  {
    && Solvent(now, vault)
    && now.config == l.config
    && now.pool.value.floorPrice == l.pool.value.floorPrice
    && now.pool.value.instantSellEnabled == l.pool.value.instantSellEnabled
    && now.pool.value.totalLamports == l.pool.value.totalLamports - Paid(k, Payout(l.pool.value.floorPrice))
    && (forall i | 0 <= i < |untouched| ::
          CardBook(now.tokens, untouched[i].mint) == CardBook(l.tokens, untouched[i].mint))
  }

  function Capacity(l: Ledger): nat
    requires l.pool.Some? && Payout(l.pool.value.floorPrice) > 0
  {
    Quotient(l.pool.value.totalLamports, Payout(l.pool.value.floorPrice))
  }

  function Paid(k: nat, payout: nat): nat {
    k * payout
  }

  function Quotient(total: nat, payout: nat): nat
    requires payout > 0
  {
    total / payout
  }

  /** After k payouts one more fits exactly while k is below the quotient. */
  lemma RoomForOne(total: nat, payout: nat, k: nat)
    requires payout > 0 && k <= Quotient(total, payout)
    ensures Paid(k + 1, payout) == Paid(k, payout) + payout
    ensures payout <= total - Paid(k, payout) <==> k < Quotient(total, payout)
  {
    if k < total / payout {
      Numbers.MulMono(k + 1, total / payout, payout, payout);
    } else {
      Numbers.MulMono(total / payout + 1, k + 1, payout, payout);
    }
  }

  /** The next sale: paid while the quotient is not used up, refused once it is. */
  lemma NextSale(l: Ledger, now: Ledger, k: nat, s: Sale, rest: seq<Sale>, vault: Key)
    requires Solvent(l, vault) && GatesOpen(l) && Payout(l.pool.value.floorPrice) > 0
    requires Deliverable(l, [s] + rest) && k <= Capacity(l)
    requires AfterSales(l, now, k, [s] + rest, vault)
    ensures var r := Handle(now, SellTx(s));
            if k < Capacity(l) then r.Ok? && AfterSales(l, r.value, k + 1, rest, vault)
            else r == Err(PoolInsufficient) && AfterSales(l, now, k, rest, vault)
  {
    hide InstantSell, Bal, Sum, IsPaused, PoolSound, Backed, Paid, Quotient, Payout;
    var payout, total := Payout(l.pool.value.floorPrice), l.pool.value.totalLamports;
    assert ([s] + rest)[0] == s;
    forall i | 0 <= i < |rest|
      ensures rest[i].mint != s.mint && CardBook(now.tokens, rest[i].mint) == CardBook(l.tokens, rest[i].mint)
    {
      assert ([s] + rest)[i + 1] == rest[i];
    }
    RoomForOne(total, payout, k);
    InstantSellPays(now, s.seller, s.mint, vault);
    if k < Capacity(l) {
      InstantSellKeepsPool(now, s.seller, s.mint, vault);
    }
  }

  lemma {:induction false} FirstSales(l: Ledger, sales: seq<Sale>, n: nat, vault: Key)
    requires Solvent(l, vault) && GatesOpen(l) && Payout(l.pool.value.floorPrice) > 0
    requires Deliverable(l, sales) && n <= |sales|
    ensures AfterSales(l, ApplyAll(l, SellTxs(sales[..n])), Numbers.Min(n, Capacity(l)), sales[n..], vault)
    ensures forall i | 0 <= i < n ::
              var r := Handle(ApplyAll(l, SellTxs(sales[..i])), SellTx(sales[i]));
              if i < Capacity(l) then r.Ok? else r == Err(PoolInsufficient)
  {
    hide AfterSales, Handle, Quotient, Deliverable, GatesOpen, Payout, PoolSound, Backed, Sum;
    if n == 0 {
      NoSales(l, sales, vault);
      assert SellTxs(sales[..0]) == [];
      assert sales[0..] == sales;
    } else {
      FirstSales(l, sales, n - 1, vault);
      var now := ApplyAll(l, SellTxs(sales[..n - 1]));
      var txs := SellTxs(sales[..n]);
      assert txs[..n - 1] == SellTxs(sales[..n - 1]) && txs[n - 1] == SellTx(sales[n - 1]);
      assert sales[n - 1..] == [sales[n - 1]] + sales[n..];
      LaterDeliverable(l, sales, n - 1);
      NextSale(l, now, Numbers.Min(n - 1, Capacity(l)), sales[n - 1], sales[n..], vault);
    }
  }

  lemma NoSales(l: Ledger, sales: seq<Sale>, vault: Key)
    requires Solvent(l, vault) && GatesOpen(l) && Payout(l.pool.value.floorPrice) > 0
    ensures AfterSales(l, l, 0, sales, vault)
  {
  }

  lemma LaterDeliverable(l: Ledger, sales: seq<Sale>, n: nat)
    requires Deliverable(l, sales) && n <= |sales|
    ensures Deliverable(l, sales[n..])
  {
  }

  /**
    * With the gates open, a fixed floor and no inflow, exactly total_lamports / payout consecutive sells succeed:
    * sale i succeeds if and only if i is below that number, and a later one fails for lack of pool funds.
    */
  lemma CapacityIsExact(l: Ledger, sales: seq<Sale>, vault: Key)
    requires Solvent(l, vault) && GatesOpen(l) && Payout(l.pool.value.floorPrice) > 0
    requires Deliverable(l, sales)
    ensures AfterSales(l, ApplyAll(l, SellTxs(sales)), Numbers.Min(|sales|, Capacity(l)), [], vault)
    ensures forall i | 0 <= i < |sales| ::
              var r := Handle(ApplyAll(l, SellTxs(sales[..i])), SellTx(sales[i]));
              if i < Capacity(l) then r.Ok? else r == Err(PoolInsufficient)
  {
    hide *;
    assert sales[..|sales|] == sales;
    assert |sales[|sales|..]| == 0;
    FirstSales(l, sales, |sales|, vault);
  }

  // ---- The states there are --------------------------------------------------------------------

  /** Every state an honest run reaches after initialisation is solvent. */
  lemma SolventFromScratch(l: Ledger, txs: seq<Tx>, vault: Key)
    requires l.config.None? && l.pool.None? && Sum(l.lamports) <= U64_MAX
    requires forall tx | tx in txs :: Honest(tx, vault)
    ensures ApplyAll(l, txs).config.Some? ==> Solvent(ApplyAll(l, txs), vault)
  {
    hide Honest, ApplyAll, Sum, Bal;
    RunKeepsPool(l, txs, vault);
  }

  // ---- The promise -----------------------------------------------------------------------------

  /** The pool promises no buyback that its total does not cover. */
  ghost predicate Funded(l: Ledger) {
    l.pool.Some? && l.pool.value.instantSellEnabled ==> Payout(l.pool.value.floorPrice) <= l.pool.value.totalLamports
  }

  /** Switching on needs one payout in the pool, and a sale needs one for itself and one to leave behind. */
  ghost predicate KeepsPromise(l: Ledger, ix: Instruction) {
    l.pool.Some? ==>
      var p, payout := l.pool.value, Payout(l.pool.value.floorPrice);
      && (ix == SetInstantSellIx(true) ==> payout <= p.totalLamports)
      && (ix.InstantSellIx? ==> 2 * payout <= p.totalLamports)
  }

  /** A floor update only ever switches instant sell off, and leaves it on exactly when one payout is covered. */
  lemma FloorUpdateFailsClosed(l: Ledger, authority: Key, floor: U64)
    requires PoolSound(l) && l.config.Some? && l.config.value.authority == authority
    ensures UpdateFloor(l, authority, floor).Ok?
    ensures var after := UpdateFloor(l, authority, floor).value;
            && after.pool.Some?
            && after.pool.value.floorPrice == floor
            && (after.pool.value.instantSellEnabled <==>
                  l.pool.value.instantSellEnabled && floor > 0 && Payout(floor) <= l.pool.value.totalLamports)
  {
    PayoutIsHalf(floor);
    hide BpsOf;
  }

  lemma InflowKeepsPromise(l: Ledger, tx: Tx)
    requires tx.ix.MintCardIx? || tx.ix.ListCardIx? || tx.ix.BuyCardIx?
    requires Funded(l) && Handle(l, tx).Ok?
    ensures Funded(Handle(l, tx).value)
  {
    hide Pay, MoveCard, ReleaseCard, SplitSale, IsPaused, BpsOf, MintFeeForTier, Payout;
    hide Handlers.Initialize, Handlers.DeployAgent, Handlers.CatchAttempt, Handlers.GymChallenge, ForceEvolve;
    hide CancelListing, InstantSell, UpdateFloor, SetInstantSell, WithdrawTreasury, SetPause;
    match tx.ix
    case MintCardIx(_, _, _, _) => hide ListCard, BuyCard;
    case ListCardIx(_, _, _, _, _) => hide MintCard, BuyCard;
    case _ => hide MintCard, ListCard;
  }

  lemma SwitchKeepsPromise(l: Ledger, authority: Key, enabled: bool)
    requires Funded(l) && SetInstantSell(l, authority, enabled).Ok?
    ensures Funded(SetInstantSell(l, authority, enabled).value) <==> KeepsPromise(l, SetInstantSellIx(enabled))
  {
  }

  lemma SaleKeepsPromise(l: Ledger, seller: Key, mint: Key)
    requires Funded(l) && InstantSell(l, seller, mint).Ok?
    ensures Funded(InstantSell(l, seller, mint).value) <==> KeepsPromise(l, InstantSellIx(mint))
  {
    hide BpsOf, MoveCard, MoveLamportsPda, IsPaused;
    PayoutIsHalf(l.pool.value.floorPrice);
    hide Payout;
  }

  lemma FloorKeepsPromise(l: Ledger, authority: Key, floor: U64)
    requires PoolSound(l) && UpdateFloor(l, authority, floor).Ok?
    ensures Funded(UpdateFloor(l, authority, floor).value)
  {
    FloorUpdateFailsClosed(l, authority, floor);
    hide Payout, BpsOf;
  }

  /** From a promise that is funded, a successful transaction leaves it funded exactly under those two conditions. */
  lemma StepFunded(l: Ledger, tx: Tx)
    requires PoolSound(l) && Funded(l) && Handle(l, tx).Ok?
    ensures Funded(Handle(l, tx).value) <==> KeepsPromise(l, tx.ix)
  {
    hide Funded, Payout;
    hide Handlers.DeployAgent, Handlers.CatchAttempt, Handlers.GymChallenge, ForceEvolve;
    hide MintCard, ListCard, CancelListing, BuyCard, InstantSell;
    hide UpdateFloor, SetInstantSell, WithdrawTreasury, SetPause;
    if tx.ix.SetInstantSellIx? {
      SwitchKeepsPromise(l, tx.signer, tx.ix.enabled);
    } else if tx.ix.InstantSellIx? {
      SaleKeepsPromise(l, tx.signer, tx.ix.mint);
    } else if tx.ix.UpdateFloorIx? {
      FloorKeepsPromise(l, tx.signer, tx.ix.floorPrice);
    } else if tx.ix.InitializeIx? {
      FreshIsFunded(Handle(l, tx).value);
    } else if tx.ix.MintCardIx? || tx.ix.ListCardIx? || tx.ix.BuyCardIx? {
      InflowKeepsPromise(l, tx);
    } else {
      HandleTouches(l, tx);
      SamePoolSamePromise(l, Handle(l, tx).value);
    }
  }

  lemma FreshIsFunded(l: Ledger)
    requires l.pool.Some? && !l.pool.value.instantSellEnabled
    ensures Funded(l)
  {
  }

  lemma SamePoolSamePromise(l: Ledger, after: Ledger)
    requires Funded(l) && after.pool == l.pool
    ensures Funded(after)
  {
  }

  ghost predicate FundedAfter(l: Ledger, txs: seq<Tx>, n: nat)
    requires n <= |txs|
  {
    Funded(ApplyAll(l, txs[..n]))
  }

  /** Transaction `i` fails, or meets the two conditions where it stands. */
  ghost predicate PromiseKeptAt(l: Ledger, txs: seq<Tx>, i: nat)
    requires i < |txs|
  {
    var before := ApplyAll(l, txs[..i]);
    Handle(before, txs[i]).Ok? ==> KeepsPromise(before, txs[i].ix)
  }

  lemma NextFunded(l: Ledger, txs: seq<Tx>, i: nat)
    requires PoolSound(l) && i < |txs| && FundedAfter(l, txs, i)
    ensures FundedAfter(l, txs, i + 1) <==> PromiseKeptAt(l, txs, i)
  {
    hide Funded, KeepsPromise, Handle, PoolSound;
    var before := ApplyAll(l, txs[..i]);
    assert txs[..i + 1][..i] == txs[..i] && txs[..i + 1][i] == txs[i];
    RunKeepsPool(l, txs[..i], 0);
    if Handle(before, txs[i]).Ok? {
      StepFunded(before, txs[i]);
    }
  }

  lemma {:induction false} FundedUpTo(l: Ledger, txs: seq<Tx>, n: nat)
    requires PoolSound(l) && Funded(l) && n <= |txs|
    ensures (forall m | 0 <= m <= n :: FundedAfter(l, txs, m)) <==> (forall i | 0 <= i < n :: PromiseKeptAt(l, txs, i))
  {
    if n == 0 {
      assert txs[..0] == [];
      hide Funded;
    } else {
      FundedUpTo(l, txs, n - 1);
      hide FundedAfter, PromiseKeptAt, Funded;
      if FundedAfter(l, txs, n - 1) {
        NextFunded(l, txs, n - 1);
      }
    }
  }

  /** The promise is funded throughout a run exactly when every transaction that succeeds meets those conditions. */
  lemma RunFunded(l: Ledger, txs: seq<Tx>)
    requires PoolSound(l) && Funded(l)
    ensures (forall n | 0 <= n <= |txs| :: FundedAfter(l, txs, n))
        <==> (forall i | 0 <= i < |txs| :: PromiseKeptAt(l, txs, i))
  {
    hide *;
    FundedUpTo(l, txs, |txs|);
  }

  function Unfunded(authority: Key, treasury: Key, vault: Key): seq<Tx> {
    [Tx(authority, InitializeIx(treasury, vault, 7000, 3000, 500, 1_000_000), 0),
     Tx(authority, UpdateFloorIx(100), 0),
     Tx(authority, SetInstantSellIx(true), 0)]
  }

  /** The switch itself does not look at the funds: three instructions reach an enabled pool that cannot pay. */
  lemma EnabledNeedNotPay(l: Ledger, authority: Key, treasury: Key, vault: Key, seller: Key, mint: Key)
    requires l.config.None? && l.pool.None?
    ensures var after := ApplyAll(l, Unfunded(authority, treasury, vault));
            && after.pool.Some? && after.pool.value.instantSellEnabled
            && InstantSell(after, seller, mint) == Err(PoolInsufficient)
  {
    var txs := Unfunded(authority, treasury, vault);
    assert txs[..3][..2] == txs[..2] && txs[..2][..1] == txs[..1] && txs[..1][..0] == [] && txs[..3] == txs;
    var l1 := Apply(l, txs[0]);
    assert ApplyAll(l, txs[..1]) == l1;
    var l2 := Apply(l1, txs[1]);
    assert ApplyAll(l, txs[..2]) == l2;
    assert BpsOf(100, INSTANT_SELL_BPS) == Ok(50);
    assert ApplyAll(l, txs) == Apply(l2, txs[2]);
  }

  /** A pool with one payout and a half, and a card to sell. */
  function OnePayoutLeft(): Ledger {
    Ledger(Some(Config(3, 2, 1, 7000, 3000, 500, 5000, 0, 0, 0, 0)), Some(Pool(75, 75, 0, 100, true)),
           map[], map[], map[], map[7 := map[Wallet(4) := 1]], map[1 := 75], map[], map[])
  }

  /** Nor does a sale look at what it leaves: selling once more than twice covered ends with an empty promise. */
  lemma SaleCanBreakPromise()
    ensures var l := OnePayoutLeft();
            && Funded(l) && !KeepsPromise(l, InstantSellIx(7))
            && InstantSell(l, 4, 7).Ok? && !Funded(InstantSell(l, 4, 7).value)
  {
    var l := OnePayoutLeft();
    assert BpsOf(100, INSTANT_SELL_BPS) == Ok(50);
    assert CardBook(l.tokens, 7) == map[Wallet(4) := 1];
    assert l.config.value.paused & PAUSE_INSTANT_SELL == 0;
    assert Bal(l.lamports, 1) == 75 && Bal(l.lamports, 4) == 0;
    SaleKeepsPromise(l, 4, 7);
  }
}
