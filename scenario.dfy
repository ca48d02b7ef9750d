/**
 * A worked auction: an item escrowed by a seller, two competing bids and a close,
 * followed through the step functions; and the same ledger used to show that a bid may
 * name the Default-key account as its refund target while a real bid is on record.
 */
module AuctionScenario {
  import opened Wrappers
  import opened Token
  import opened AuctionProgram
  import opened AuctionProperties

  const SELLER := Key(1)
  const BIDDER_A := Key(2)
  const BIDDER_B := Key(3)
  const ITEM_MINT := Key(100)
  const CURRENCY_MINT := Key(101)
  const ITEM_HOLDER := Key(10)
  const CURRENCY_HOLDER := Key(11)
  const A_CURRENCY := Key(12)
  const B_CURRENCY := Key(13)
  const B_ITEM := Key(14)
  const SELLER_CURRENCY := Key(15)

  /** The ledger before the auction opens; the account at the Default key is the first bid's refund target. */
  const START: Accounts := map[
    ITEM_HOLDER := TokenAccount(ITEM_MINT, AuctionSigner(SELLER), 1),
    CURRENCY_HOLDER := TokenAccount(CURRENCY_MINT, AuctionSigner(SELLER), 0),
    A_CURRENCY := TokenAccount(CURRENCY_MINT, BIDDER_A, 500),
    B_CURRENCY := TokenAccount(CURRENCY_MINT, BIDDER_B, 500),
    B_ITEM := TokenAccount(ITEM_MINT, BIDDER_B, 0),
    SELLER_CURRENCY := TokenAccount(CURRENCY_MINT, SELLER, 0),
    Default := TokenAccount(CURRENCY_MINT, Default, 0)]

  const OPEN := CreateAuctionAccounts(SELLER, true, ITEM_HOLDER, CURRENCY_HOLDER)
  const BID_A := BidAccounts(BIDDER_A, true, A_CURRENCY, CURRENCY_HOLDER, Default)
  const BID_B := BidAccounts(BIDDER_B, true, B_CURRENCY, CURRENCY_HOLDER, A_CURRENCY)
  const SETTLE := CloseAuctionAccounts(SELLER, true, ITEM_HOLDER, B_ITEM, CURRENCY_HOLDER, SELLER_CURRENCY)

  /** The auction as opened with a start price of 100. */
  const OPENED := AuctionData(true, SELLER, ITEM_HOLDER, CURRENCY_HOLDER, SELLER, Default, 100)

  /** After A's bid of 150. */
  const AFTER_A := OPENED.(bidder := BIDDER_A, refundReceiver := A_CURRENCY, price := 150)
  const LEDGER_A: Accounts :=
    START[A_CURRENCY := TokenAccount(CURRENCY_MINT, BIDDER_A, 350)]
         [CURRENCY_HOLDER := TokenAccount(CURRENCY_MINT, AuctionSigner(SELLER), 150)]

  /** After B's bid of 200, which refunds A. */
  const AFTER_B := AFTER_A.(bidder := BIDDER_B, refundReceiver := B_CURRENCY, price := 200)
  const REFUND_A := Transfer(CURRENCY_HOLDER, A_CURRENCY, AuctionSigner(SELLER), 150)
  const DEPOSIT_B := Transfer(B_CURRENCY, CURRENCY_HOLDER, BIDDER_B, 200)
  const LEDGER_REFUNDED: Accounts :=
    LEDGER_A[CURRENCY_HOLDER := TokenAccount(CURRENCY_MINT, AuctionSigner(SELLER), 0)]
            [A_CURRENCY := TokenAccount(CURRENCY_MINT, BIDDER_A, 500)]
  const LEDGER_B: Accounts :=
    LEDGER_REFUNDED[B_CURRENCY := TokenAccount(CURRENCY_MINT, BIDDER_B, 300)]
                   [CURRENCY_HOLDER := TokenAccount(CURRENCY_MINT, AuctionSigner(SELLER), 200)]

  /** After the close. */
  const ITEM_MOVE := Transfer(ITEM_HOLDER, B_ITEM, AuctionSigner(SELLER), 1)
  const PAYMENT := Transfer(CURRENCY_HOLDER, SELLER_CURRENCY, AuctionSigner(SELLER), 200)
  const LEDGER_MOVED: Accounts :=
    LEDGER_B[ITEM_HOLDER := TokenAccount(ITEM_MINT, AuctionSigner(SELLER), 0)]
            [B_ITEM := TokenAccount(ITEM_MINT, BIDDER_B, 1)]
  const LEDGER_SETTLED: Accounts :=
    LEDGER_MOVED[CURRENCY_HOLDER := TokenAccount(CURRENCY_MINT, AuctionSigner(SELLER), 0)]
                [SELLER_CURRENCY := TokenAccount(CURRENCY_MINT, SELLER, 200)]

  const W0 := World(OPENED, START, [])
  const W1 := World(AFTER_A, LEDGER_A, [Bid(BIDDER_A, 150)])
  const W2 := World(AFTER_B, LEDGER_B, [Bid(BIDDER_A, 150), Bid(BIDDER_B, 200)])
  const W3 := World(AFTER_B.(ongoing := false), LEDGER_SETTLED, W2.bids)

  /** The seller opens the auction at 100 over an empty currency holder. */
  lemma Opened()
    ensures CreateStep(START, OPEN, 100) == Ok(OPENED)
  {
  }

  /** A bids 150: nothing to refund yet, so the only transfer is A's deposit. */
  lemma FirstBid()
    ensures Step(W0, BidOp(BID_A, 150)) == W1
  {
    assert BidTransfers(OPENED, BID_A, 150) == [Transfer(A_CURRENCY, CURRENCY_HOLDER, BIDDER_A, 150)];
    assert Replay(START, BidTransfers(OPENED, BID_A, 150)) == Ok(LEDGER_A);
  }

  /** B bids 200 from B's account and names A's account: A's 150 comes back first. */
  lemma SecondBid()
    ensures Step(W1, BidOp(BID_B, 200)) == W2
  {
    assert TransferStep(LEDGER_A, REFUND_A) == Ok(LEDGER_REFUNDED);
    assert TransferStep(LEDGER_REFUNDED, DEPOSIT_B) == Ok(LEDGER_B);
    assert BidTransfers(AFTER_A, BID_B, 200) == [REFUND_A, DEPOSIT_B];
    assert Replay(LEDGER_A, [REFUND_A, DEPOSIT_B]) == Ok(LEDGER_B) by {
      assert [REFUND_A, DEPOSIT_B][1..] == [DEPOSIT_B];
      assert Replay(LEDGER_REFUNDED, [DEPOSIT_B]) == Ok(LEDGER_B);
    }
  }

  /** The close: the item goes to B's item account, 200 to the seller's currency account. */
  lemma Settled()
    ensures Step(W2, CloseOp(SETTLE)) == W3
  {
    assert TransferStep(LEDGER_B, ITEM_MOVE) == Ok(LEDGER_MOVED);
    assert TransferStep(LEDGER_MOVED, PAYMENT) == Ok(LEDGER_SETTLED);
    assert CloseTransfers(AFTER_B, LEDGER_B, SETTLE) == [ITEM_MOVE, PAYMENT];
    assert Replay(LEDGER_B, [ITEM_MOVE, PAYMENT]) == Ok(LEDGER_SETTLED) by {
      assert [ITEM_MOVE, PAYMENT][1..] == [PAYMENT];
      assert Replay(LEDGER_MOVED, [PAYMENT]) == Ok(LEDGER_SETTLED);
    }
  }

  /**
   * Open at 100; A bids 150; B bids 200; close: the item is B's, the seller has 200, A has
   * all of A's tokens back, both holders are empty and the auction is over.
   */
  lemma EnglishAuction()
    ensures var w := Run(W0, [BidOp(BID_A, 150), BidOp(BID_B, 200), CloseOp(SETTLE)]);
      !w.auction.ongoing && w.auction.bidder == BIDDER_B && w.auction.price == 200 &&
      w.bids == [Bid(BIDDER_A, 150), Bid(BIDDER_B, 200)] &&
      w.accounts.Keys == START.Keys &&
      w.accounts[ITEM_HOLDER].amount == 0 && w.accounts[B_ITEM].amount == 1 &&
      w.accounts[CURRENCY_HOLDER].amount == 0 && w.accounts[SELLER_CURRENCY].amount == 200 &&
      w.accounts[A_CURRENCY].amount == 500 && w.accounts[B_CURRENCY].amount == 300
  {
    ThreeInstructions();
  }

  /** The three transactions of the scenario, one after another, end in `W3`. */
  lemma ThreeInstructions()
    ensures Run(W0, [BidOp(BID_A, 150), BidOp(BID_B, 200), CloseOp(SETTLE)]) == W3
  {
    var ops := [BidOp(BID_A, 150), BidOp(BID_B, 200), CloseOp(SETTLE)];
    assert ops[1..] == [BidOp(BID_B, 200), CloseOp(SETTLE)];
    FirstBid();
    LastTwo();
  }

  /** B's bid and then the close take `W1` to `W3`. */
  lemma LastTwo()
    ensures Run(W1, [BidOp(BID_B, 200), CloseOp(SETTLE)]) == W3
  {
    var ops := [BidOp(BID_B, 200), CloseOp(SETTLE)];
    assert ops[1..] == [CloseOp(SETTLE)];
    SecondBid();
    LastOne();
  }

  /** The close alone takes `W2` to `W3`. */
  lemma LastOne()
    ensures Run(W2, [CloseOp(SETTLE)]) == W3
  {
    assert [CloseOp(SETTLE)][1..] == [];
    Settled();
  }

  /**
   * With A's bid on record, B may name the Default-key account instead of A's as the
   * refund target: the bid is accepted, the 150 owed to A goes to that account, and A's
   * balance stays where A's bid left it.
   */
  lemma RefundDivertedToDefault()
    ensures var r := BidStep(AFTER_A, LEDGER_A, BID_B.(oriRefundReceiver := Default), 200);
      r.Ok? && r.value.accounts.Keys == START.Keys &&
      r.value.accounts[Default].amount == 150 && r.value.accounts[A_CURRENCY].amount == 350
  {
    var ctx := BID_B.(oriRefundReceiver := Default);
    var refund := Transfer(CURRENCY_HOLDER, Default, AuctionSigner(SELLER), 150);
    var diverted := LEDGER_A[CURRENCY_HOLDER := TokenAccount(CURRENCY_MINT, AuctionSigner(SELLER), 0)]
                            [Default := TokenAccount(CURRENCY_MINT, Default, 150)];
    var after := diverted[B_CURRENCY := TokenAccount(CURRENCY_MINT, BIDDER_B, 300)]
                         [CURRENCY_HOLDER := TokenAccount(CURRENCY_MINT, AuctionSigner(SELLER), 200)];
    assert TransferStep(LEDGER_A, refund) == Ok(diverted);
    assert TransferStep(diverted, DEPOSIT_B) == Ok(after);
    assert BidTransfers(AFTER_A, ctx, 200) == [refund, DEPOSIT_B];
    assert Replay(LEDGER_A, [refund, DEPOSIT_B]) == Ok(after) by {
      assert [refund, DEPOSIT_B][1..] == [DEPOSIT_B];
      assert Replay(diverted, [DEPOSIT_B]) == Ok(after);
    }
  }
}
