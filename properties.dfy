/**
 * What the auction program guarantees, stated about the step functions: the single-
 * instruction accounting of bids and closes, token conservation, the invariants that
 * hold over any sequence of instructions, the escrow balance, and the behaviour of
 * the account checks that the program does not make.
 */
module AuctionProperties {
  import opened Wrappers
  import opened Token
  import opened AuctionProgram

  // ---------------------------------------------------------------------------
  // One instruction at a time

  /**
   * What the currency holder owes the bid on record: the current price once a bid's
   * account is recorded, and nothing before. It is what the next accepted bid refunds.
   */
  function Owed(a: AuctionData): nat
  {
    if a.refundReceiver != Default then a.price else 0
  }

  /**
   * The balances after an accepted bid: the bid's source account pays exactly the new price,
   * the previous bid's account gets exactly the old price back when a refund is due, the
   * custodial holder nets the difference, and no other account changes.
   */
  lemma BidAccounting(a: AuctionData, accts: Accounts, ctx: BidAccounts, price: U64)
    requires BidStep(a, accts, ctx, price).Ok?
    requires ctx.from != ctx.currencyHolder && ctx.oriRefundReceiver != ctx.currencyHolder
    ensures SameHolders(accts, BidStep(a, accts, ctx, price).value.accounts)
    ensures var after := BidStep(a, accts, ctx, price).value.accounts;
      after[ctx.currencyHolder].amount == accts[ctx.currencyHolder].amount + price - Owed(a)
    ensures var after := BidStep(a, accts, ctx, price).value.accounts;
      ctx.from != ctx.oriRefundReceiver ==>
        after[ctx.from].amount == accts[ctx.from].amount - price &&
        after[ctx.oriRefundReceiver].amount == accts[ctx.oriRefundReceiver].amount + Owed(a)
    ensures var after := BidStep(a, accts, ctx, price).value.accounts;
      ctx.from == ctx.oriRefundReceiver ==>
        after[ctx.from].amount == accts[ctx.from].amount + Owed(a) - price
    ensures var after := BidStep(a, accts, ctx, price).value.accounts;
      forall k :: k in accts && k != ctx.from && k != ctx.currencyHolder && k != ctx.oriRefundReceiver ==>
        after[k] == accts[k]
  {
    var ts := BidTransfers(a, ctx, price);
    ReplayNetFlow(accts, ts);
    forall k | k in accts
      ensures NetFlow(ts, k) == (if k == ctx.oriRefundReceiver then Owed(a) else 0)
                                - (if k == ctx.currencyHolder then Owed(a) else 0)
                                + (if k == ctx.currencyHolder then price else 0)
                                - (if k == ctx.from then price else 0)
    {
      if a.refundReceiver != Default {
        assert ts[1..][0] == ts[1] && ts[1..][1..] == [];
        assert NetFlow(ts[1..], k) == Flow(ts[1], k);
      } else {
        assert ts[1..] == [];
      }
      assert NetFlow(ts, k) == Flow(ts[0], k) + NetFlow(ts[1..], k);
    }
  }

  /** An accepted bid creates and destroys no tokens of any mint. */
  lemma BidConservesSupply(a: AuctionData, accts: Accounts, ctx: BidAccounts, price: U64, mint: Pubkey)
    requires BidStep(a, accts, ctx, price).Ok?
    ensures Supply(BidStep(a, accts, ctx, price).value.accounts, mint) == Supply(accts, mint)
  {
    ReplayConservesSupply(accts, BidTransfers(a, ctx, price), mint);
  }

  /**
   * The balances after a successful close: the item holder is emptied into the item
   * receiver; the currency receiver gets exactly the price when the holder held at least
   * that much and nothing otherwise; no other account changes.
   */
  lemma CloseSettles(a: AuctionData, accts: Accounts, ctx: CloseAuctionAccounts)
    requires CloseStep(a, accts, ctx).Ok?
    requires ctx.itemHolder != ctx.itemReceiver && ctx.itemHolder != ctx.currencyHolder &&
             ctx.itemHolder != ctx.currencyReceiver && ctx.itemReceiver != ctx.currencyHolder &&
             ctx.itemReceiver != ctx.currencyReceiver && ctx.currencyHolder != ctx.currencyReceiver
    ensures SameHolders(accts, CloseStep(a, accts, ctx).value.accounts)
    ensures var after := CloseStep(a, accts, ctx).value.accounts;
      after[ctx.itemHolder].amount == 0 &&
      after[ctx.itemReceiver].amount == accts[ctx.itemReceiver].amount + accts[ctx.itemHolder].amount
    ensures var after := CloseStep(a, accts, ctx).value.accounts;
      accts[ctx.currencyHolder].amount >= a.price ==>
        after[ctx.currencyHolder].amount == accts[ctx.currencyHolder].amount - a.price &&
        after[ctx.currencyReceiver].amount == accts[ctx.currencyReceiver].amount + a.price
    ensures var after := CloseStep(a, accts, ctx).value.accounts;
      accts[ctx.currencyHolder].amount < a.price ==>
        after[ctx.currencyHolder] == accts[ctx.currencyHolder] &&
        after[ctx.currencyReceiver] == accts[ctx.currencyReceiver]
    ensures var after := CloseStep(a, accts, ctx).value.accounts;
      forall k :: k in accts && k != ctx.itemHolder && k != ctx.itemReceiver &&
                  k != ctx.currencyHolder && k != ctx.currencyReceiver ==>
        after[k] == accts[k]
  {
    var ts := CloseTransfers(a, accts, ctx);
    var paid := if accts[ctx.currencyHolder].amount >= a.price then a.price else 0;
    ReplayNetFlow(accts, ts);
    forall k | k in accts
      ensures NetFlow(ts, k) == (if k == ctx.itemReceiver then accts[ctx.itemHolder].amount else 0)
                                - (if k == ctx.itemHolder then accts[ctx.itemHolder].amount else 0)
                                + (if k == ctx.currencyReceiver then paid else 0)
                                - (if k == ctx.currencyHolder then paid else 0)
    {
      if accts[ctx.currencyHolder].amount >= a.price {
        assert ts[1..][0] == ts[1] && ts[1..][1..] == [];
        assert NetFlow(ts[1..], k) == Flow(ts[1], k);
      } else {
        assert ts[1..] == [];
      }
      assert NetFlow(ts, k) == Flow(ts[0], k) + NetFlow(ts[1..], k);
    }
  }

  /** A close creates and destroys no tokens of any mint. */
  lemma CloseConservesSupply(a: AuctionData, accts: Accounts, ctx: CloseAuctionAccounts, mint: Pubkey)
    requires CloseStep(a, accts, ctx).Ok?
    ensures Supply(CloseStep(a, accts, ctx).value.accounts, mint) == Supply(accts, mint)
  {
    ReplayConservesSupply(accts, CloseTransfers(a, accts, ctx), mint);
  }

  /** Once closed, an auction accepts neither a bid nor another close. */
  lemma ClosedIsFinal(a: AuctionData, accts: Accounts, bid: BidAccounts, price: U64, close: CloseAuctionAccounts)
    requires !a.ongoing
    ensures BidStep(a, accts, bid, price).Err?
    ensures CloseStep(a, accts, close).Err?
  {
  }

  // ---------------------------------------------------------------------------
  // Any sequence of instructions

  /** An instruction sent to an existing auction. */
  datatype Op = BidOp(bidCtx: BidAccounts, bidPrice: U64) | CloseOp(closeCtx: CloseAuctionAccounts)

  /** The auction, the ledger and the receipts of the bids accepted so far. */
  datatype World = World(auction: AuctionData, accounts: Accounts, bids: seq<Bid>)

  /**
   * One transaction: it commits, or it fails and the world stays as it was. A bid either
   * appends a receipt naming the new bidder at a higher price or changes nothing; a close
   * adds no receipt and, when it changes anything, ends the auction; a closed auction
   * changes no more.
   */
  function Step(w: World, op: Op): (w': World)
    ensures w' != w ==> w.auction.ongoing
    ensures op.BidOp? ==>
      w'.bids == w.bids || w'.bids == w.bids + [Bid(op.bidCtx.bidder, op.bidPrice)]
    ensures op.BidOp? && w'.bids == w.bids ==> w' == w
    ensures op.BidOp? && w' != w ==>
      w'.auction.bidder == op.bidCtx.bidder && w'.auction.price == op.bidPrice > w.auction.price
    ensures op.CloseOp? ==> w'.bids == w.bids
    ensures op.CloseOp? && w' != w ==> !w'.auction.ongoing
  {
    match op
    case BidOp(ctx, price) =>
      (match BidStep(w.auction, w.accounts, ctx, price)
       case Ok(e) => World(e.auction, e.accounts, w.bids + [e.bid])
       case Err(_) => w)
    case CloseOp(ctx) =>
      (match CloseStep(w.auction, w.accounts, ctx)
       case Ok(e) => World(e.auction, e.accounts, w.bids)
       case Err(_) => w)
  }

  /** Transactions one after another: each adds at most one receipt and removes none. */
  function Run(w: World, ops: seq<Op>): (w': World)
    ensures |w.bids| <= |w'.bids| <= |w.bids| + |ops|
    ensures w'.bids[..|w.bids|] == w.bids
    decreases |ops|
  {
    if ops == [] then w else Run(Step(w, ops[0]), ops[1..])
  }

  /**
   * The receipts agree with the auction: their prices strictly increase, none exceeds
   * the current price, and the last one names the current bidder and price.
   */
  ghost predicate ReceiptsAgree(w: World)
  {
    (forall i, j :: 0 <= i < j < |w.bids| ==> w.bids[i].price < w.bids[j].price) &&
    (forall i :: 0 <= i < |w.bids| ==> w.bids[i].price <= w.auction.price) &&
    (w.bids != [] ==> w.bids[|w.bids| - 1] == Bid(w.auction.bidder, w.auction.price))
  }

  /** A new auction starts with no receipts, so they agree with it. */
  lemma CreateStartsAgreeing(accts: Accounts, ctx: CreateAuctionAccounts, startPrice: U64)
    requires CreateStep(accts, ctx, startPrice).Ok?
    ensures ReceiptsAgree(World(CreateStep(accts, ctx, startPrice).value, accts, []))
    ensures CreateStep(accts, ctx, startPrice).value.bidder == ctx.seller
  {
  }

  /** A bid that does not beat the current price fails and changes nothing. */
  lemma LowBidChangesNothing(w: World, ctx: BidAccounts, price: U64)
    requires price <= w.auction.price
    ensures BidStep(w.auction, w.accounts, ctx, price).Err?
    ensures Step(w, BidOp(ctx, price)) == w
  {
  }

  /** What one transaction preserves. */
  lemma StepPreserves(w: World, op: Op, mint: Pubkey)
    ensures var w' := Step(w, op);
      w'.auction.seller == w.auction.seller &&
      w'.auction.itemHolder == w.auction.itemHolder &&
      w'.auction.currencyHolder == w.auction.currencyHolder &&
      w'.auction.price >= w.auction.price &&
      (w'.auction.ongoing ==> w.auction.ongoing) &&
      (!w.auction.ongoing ==> w' == w) &&
      w'.bids[..|w.bids|] == w.bids &&
      w'.accounts.Keys == w.accounts.Keys &&
      Supply(w'.accounts, mint) == Supply(w.accounts, mint)
    ensures ReceiptsAgree(w) ==> ReceiptsAgree(Step(w, op))
  {
    match op
    case BidOp(ctx, price) =>
      var r := BidStep(w.auction, w.accounts, ctx, price);
      if r.Ok? {
        BidConservesSupply(w.auction, w.accounts, ctx, price, mint);
        ReplayNetFlow(w.accounts, BidTransfers(w.auction, ctx, price));
      }
    case CloseOp(ctx) =>
      var r := CloseStep(w.auction, w.accounts, ctx);
      if r.Ok? {
        CloseConservesSupply(w.auction, w.accounts, ctx, mint);
        ReplayNetFlow(w.accounts, CloseTransfers(w.auction, w.accounts, ctx));
      }
  }

  /**
   * Over any sequence of transactions: the seller and both holders never change, the
   * price never goes down, `ongoing` never goes from false back to true and after a close
   * nothing changes at all, receipts are only appended and keep agreeing with the
   * auction, and no tokens are created or destroyed.
   */
  lemma {:induction false} RunPreserves(w: World, ops: seq<Op>, mint: Pubkey)
    ensures var w' := Run(w, ops);
      w'.auction.seller == w.auction.seller &&
      w'.auction.itemHolder == w.auction.itemHolder &&
      w'.auction.currencyHolder == w.auction.currencyHolder &&
      w'.auction.price >= w.auction.price &&
      (w'.auction.ongoing ==> w.auction.ongoing) &&
      (!w.auction.ongoing ==> w' == w) &&
      |w'.bids| >= |w.bids| && w'.bids[..|w.bids|] == w.bids &&
      w'.accounts.Keys == w.accounts.Keys &&
      Supply(w'.accounts, mint) == Supply(w.accounts, mint)
    ensures ReceiptsAgree(w) ==> ReceiptsAgree(Run(w, ops))
    decreases |ops|
  {
    if ops != [] {
      var next := Step(w, ops[0]);
      StepPreserves(w, ops[0], mint);
      RunPreserves(next, ops[1..], mint);
      var w' := Run(next, ops[1..]);
      assert w'.bids[..|w.bids|] == next.bids[..|next.bids|][..|w.bids|];
    }
  }

  // ---------------------------------------------------------------------------
  // The escrow balance

  /** The currency holder holds exactly what it owes. */
  ghost predicate Escrowed(a: AuctionData, accts: Accounts)
  {
    a.currencyHolder in accts && accts[a.currencyHolder].amount == Owed(a)
  }

  /** An auction created over an empty currency holder starts escrowed. */
  lemma CreateStartsEscrowed(accts: Accounts, ctx: CreateAuctionAccounts, startPrice: U64)
    requires CreateStep(accts, ctx, startPrice).Ok?
    requires accts[ctx.currencyHolder].amount == 0
    ensures Escrowed(CreateStep(accts, ctx, startPrice).value, accts)
  {
  }

  /**
   * An accepted bid keeps the holder at exactly what it owes, which is now the new price:
   * no double deposit and no partial refund. (The bid's source account must not be the
   * holder itself, nor the Default key, which would leave no refund recorded.)
   */
  lemma BidKeepsEscrow(a: AuctionData, accts: Accounts, ctx: BidAccounts, price: U64)
    requires Escrowed(a, accts)
    requires BidStep(a, accts, ctx, price).Ok?
    requires ctx.from != ctx.currencyHolder && ctx.oriRefundReceiver != ctx.currencyHolder && ctx.from != Default
    ensures var e := BidStep(a, accts, ctx, price).value;
      Escrowed(e.auction, e.accounts) && e.accounts[a.currencyHolder].amount == price
  {
    BidAccounting(a, accts, ctx, price);
  }

  /**
   * Closing an escrowed auction: after a bid, the currency receiver gets exactly the price
   * and the holder is left empty; with no bid no currency moves (at price 0 the payment is empty).
   */
  lemma CloseEscrowed(a: AuctionData, accts: Accounts, ctx: CloseAuctionAccounts)
    requires Escrowed(a, accts)
    requires CloseStep(a, accts, ctx).Ok?
    requires ctx.itemHolder != ctx.itemReceiver && ctx.itemHolder != ctx.currencyHolder &&
             ctx.itemHolder != ctx.currencyReceiver && ctx.itemReceiver != ctx.currencyHolder &&
             ctx.itemReceiver != ctx.currencyReceiver && ctx.currencyHolder != ctx.currencyReceiver
    ensures SameHolders(accts, CloseStep(a, accts, ctx).value.accounts)
    ensures var after := CloseStep(a, accts, ctx).value.accounts;
      a.refundReceiver != Default ==>
        after[ctx.currencyHolder].amount == 0 &&
        after[ctx.currencyReceiver].amount == accts[ctx.currencyReceiver].amount + a.price
    ensures var after := CloseStep(a, accts, ctx).value.accounts;
      a.refundReceiver == Default ==>
        after[ctx.currencyHolder] == accts[ctx.currencyHolder] &&
        after[ctx.currencyReceiver] == accts[ctx.currencyReceiver]
  {
    CloseSettles(a, accts, ctx);
  }

  // ---------------------------------------------------------------------------
  // Checks the program does not make

  /** Who signs `close_auction` makes no difference: it need not be the seller. */
  lemma CloseIgnoresSigner(a: AuctionData, accts: Accounts, ctx: CloseAuctionAccounts, signer: Pubkey)
    ensures CloseStep(a, accts, ctx.(seller := signer)) == CloseStep(a, accts, ctx)
  {
  }

  /**
   * The refund-target account must be a token account even when no refund is due, and
   * before the first bid it must be the one at the Default key: without a token account
   * there, no first bid is accepted.
   */
  lemma FirstBidNeedsDefaultAccount(a: AuctionData, accts: Accounts, ctx: BidAccounts, price: U64)
    requires a.refundReceiver == Default && Default !in accts
    ensures BidStep(a, accts, ctx, price).Err?
  {
  }
}
