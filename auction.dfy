/**
 * The auction program: one escrowed item sold for tokens of one currency mint.
 * A seller opens an auction over two custodial token accounts (one holding the item,
 * one collecting bids); each higher bid refunds the previous one; closing the auction
 * hands the item to the winner and the winning price to a currency receiver.
 *
 * Each instruction is modelled twice: as a step function on values (`CreateStep`,
 * `BidStep`, `CloseStep`), which the lemmas reason about, and as the imperative code
 * that updates the auction account and the ledger in place (`CreateAuction`,
 * `Auction.PlaceBid`, `Auction.Close`), proved to do what the step function says.
 */
module AuctionProgram {
  import opened Wrappers
  import opened Token

  const U64_LIMIT: nat := 0x1_0000_0000_0000_0000

  /** Prices are 64-bit unsigned integers. */
  type U64 = x: nat | x < U64_LIMIT

  /** The fields of an auction account. */
  datatype AuctionData = AuctionData(
    ongoing: bool,
    seller: Pubkey,
    itemHolder: Pubkey,       // custodial token account holding the item
    currencyHolder: Pubkey,   // custodial token account holding the current bid
    bidder: Pubkey,           // current highest bidder; the seller until the first bid
    refundReceiver: Pubkey,   // token account the current bid came from; Default before any bid
    price: U64)               // current highest price; the start price until the first bid

  /** The receipt written to a new account for every accepted bid. */
  datatype Bid = Bid(bidder: Pubkey, price: U64)

  /** The `constraint = …` checks of the three account structs. */
  datatype Constraint =
    | Ongoing               // auction.ongoing
    | ItemHolderOwner       // item_holder is owned by the auction's signing authority
    | CurrencyHolderOwner   // currency_holder is owned by the auction's signing authority
    | FromMint              // the bid's source account holds the currency holder's mint
    | FromOwner             // the bid's source account is owned by the bidder
    | RefundTarget          // ori_refund_receiver is Default or the recorded refund_receiver
    | ItemHolderKey         // item_holder is the recorded one
    | ItemReceiverOwner     // item_receiver is owned by the current bidder
    | CurrencyHolderKey     // currency_holder is the recorded one

  datatype Error =
    | BidPirceTooLow                     // the program's own error: price not above the current one
    | AccountNotSigner                   // a `Signer` account did not sign
    | AccountNotInitialized              // an account declared as a token account is not one
    | ConstraintHasOne                   // `has_one = currency_holder` failed
    | ConstraintRaw(violated: Constraint)
    | TransferFailed(cause: TokenError)  // propagated from the token program

  /**
   * The authority the program derives from the seller's key and signs with;
   * it must own both custodial holders.
   */
  function AuctionSigner(seller: Pubkey): Pubkey
  {
    ProgramAddress(seller)
  }

  // ---------------------------------------------------------------------------
  // create_auction

  /** The accounts of `create_auction` (the auction account itself is freshly allocated). */
  datatype CreateAuctionAccounts = CreateAuctionAccounts(
    seller: Pubkey, sellerSigned: bool, itemHolder: Pubkey, currencyHolder: Pubkey)

  /** Everything the `CreateAuction` account struct demands. */
  predicate CreateAuctionValid(accts: Accounts, ctx: CreateAuctionAccounts)
  {
    ctx.sellerSigned &&
    ctx.itemHolder in accts && ctx.currencyHolder in accts &&
    accts[ctx.itemHolder].owner == AuctionSigner(ctx.seller) &&
    accts[ctx.currencyHolder].owner == AuctionSigner(ctx.seller)
  }

  /**
   * The account checks: the first one that fails, if any. The signer and the token-account
   * loads come first, then the `has_one` and `constraint` checks, each in field order.
   */
  function CreateAuctionCheck(accts: Accounts, ctx: CreateAuctionAccounts): (r: Option<Error>)
    ensures r.None? <==> CreateAuctionValid(accts, ctx)
  {
    if !ctx.sellerSigned then Some(AccountNotSigner)
    else if ctx.itemHolder !in accts || ctx.currencyHolder !in accts then Some(AccountNotInitialized)
    else if accts[ctx.itemHolder].owner != AuctionSigner(ctx.seller) then Some(ConstraintRaw(ItemHolderOwner))
    else if accts[ctx.currencyHolder].owner != AuctionSigner(ctx.seller) then Some(ConstraintRaw(CurrencyHolderOwner))
    else None
  }

  /** `create_auction` on values: the new auction record (no tokens move). */
  function CreateStep(accts: Accounts, ctx: CreateAuctionAccounts, startPrice: U64): (r: Result<AuctionData, Error>)
    ensures r.Ok? <==> CreateAuctionValid(accts, ctx)
    ensures r.Ok? ==>
      r.value.ongoing && r.value.seller == ctx.seller && r.value.bidder == ctx.seller &&
      r.value.itemHolder == ctx.itemHolder && r.value.currencyHolder == ctx.currencyHolder &&
      r.value.price == startPrice && r.value.refundReceiver == Default
  {
    match CreateAuctionCheck(accts, ctx)
    case Some(e) => Err(e)
    case None => Ok(AuctionData(true, ctx.seller, ctx.itemHolder, ctx.currencyHolder, ctx.seller, Default, startPrice))
  }

  // ---------------------------------------------------------------------------
  // bid

  /** The accounts of `bid` besides the auction (the receipt account is freshly allocated). */
  datatype BidAccounts = BidAccounts(
    bidder: Pubkey, bidderSigned: bool, from: Pubkey, currencyHolder: Pubkey, oriRefundReceiver: Pubkey)

  /** Everything the `Bid` account struct demands. */
  predicate BidAccountsValid(a: AuctionData, accts: Accounts, ctx: BidAccounts)
  {
    ctx.bidderSigned &&
    ctx.from in accts && ctx.currencyHolder in accts && ctx.oriRefundReceiver in accts &&
    a.ongoing &&
    a.currencyHolder == ctx.currencyHolder &&
    accts[ctx.from].mint == accts[ctx.currencyHolder].mint &&
    accts[ctx.from].owner == ctx.bidder &&
    accts[ctx.currencyHolder].owner == AuctionSigner(a.seller) &&
    (ctx.oriRefundReceiver == Default || ctx.oriRefundReceiver == a.refundReceiver)
  }

  /**
   * The account checks: the first one that fails, if any. The signer and the token-account
   * loads come first, then the `has_one` and `constraint` checks, each in field order; on
   * the auction field, as Anchor orders them, `has_one` comes before the raw `constraint`.
   */
  function BidCheck(a: AuctionData, accts: Accounts, ctx: BidAccounts): (r: Option<Error>)
    ensures r.None? <==> BidAccountsValid(a, accts, ctx)
  {
    if !ctx.bidderSigned then Some(AccountNotSigner)
    else if ctx.from !in accts || ctx.currencyHolder !in accts || ctx.oriRefundReceiver !in accts then
      Some(AccountNotInitialized)
    else if a.currencyHolder != ctx.currencyHolder then Some(ConstraintHasOne)
    else if !a.ongoing then Some(ConstraintRaw(Ongoing))
    else if accts[ctx.from].mint != accts[ctx.currencyHolder].mint then Some(ConstraintRaw(FromMint))
    else if accts[ctx.from].owner != ctx.bidder then Some(ConstraintRaw(FromOwner))
    else if accts[ctx.currencyHolder].owner != AuctionSigner(a.seller) then Some(ConstraintRaw(CurrencyHolderOwner))
    else if ctx.oriRefundReceiver != Default && ctx.oriRefundReceiver != a.refundReceiver then
      Some(ConstraintRaw(RefundTarget))
    else None
  }

  /**
   * The transfers an accepted bid makes, in order: a refund of the old price to the
   * previous bid's account when there is one, then the new price into custody.
   */
  function BidTransfers(a: AuctionData, ctx: BidAccounts, price: U64): (ts: seq<Transfer>)
    ensures |ts| == if a.refundReceiver != Default then 2 else 1
    ensures a.refundReceiver != Default ==>
      ts[0] == Transfer(ctx.currencyHolder, ctx.oriRefundReceiver, AuctionSigner(a.seller), a.price)
    ensures ts[|ts| - 1] == Transfer(ctx.from, ctx.currencyHolder, ctx.bidder, price)
  {
    var refund := Transfer(ctx.currencyHolder, ctx.oriRefundReceiver, AuctionSigner(a.seller), a.price);
    var deposit := Transfer(ctx.from, ctx.currencyHolder, ctx.bidder, price);
    (if a.refundReceiver != Default then [refund] else []) + [deposit]
  }

  /** What an accepted bid commits. */
  datatype BidEffect = BidEffect(auction: AuctionData, accounts: Accounts, bid: Bid)

  /** `bid` on values. */
  function BidStep(a: AuctionData, accts: Accounts, ctx: BidAccounts, price: U64): (r: Result<BidEffect, Error>)
    ensures r.Ok? <==>
      BidAccountsValid(a, accts, ctx) && price > a.price && Replay(accts, BidTransfers(a, ctx, price)).Ok?
    ensures BidAccountsValid(a, accts, ctx) && price <= a.price ==> r == Err(BidPirceTooLow)
    ensures r.Ok? ==> r.value.accounts == Replay(accts, BidTransfers(a, ctx, price)).value
    ensures r.Ok? ==>
      r.value.auction.price > a.price && r.value.auction.price == price &&
      r.value.auction.bidder == ctx.bidder && r.value.auction.refundReceiver == ctx.from &&
      r.value.auction.seller == a.seller && r.value.auction.itemHolder == a.itemHolder &&
      r.value.auction.currencyHolder == a.currencyHolder && r.value.auction.ongoing == a.ongoing
    ensures r.Ok? ==> r.value.bid == Bid(ctx.bidder, price)
  {
    match BidCheck(a, accts, ctx)
    case Some(e) => Err(e)
    case None =>
      if price <= a.price then Err(BidPirceTooLow)
      else
        match Replay(accts, BidTransfers(a, ctx, price))
        case Err(e) => Err(TransferFailed(e))
        case Ok(next) =>
          Ok(BidEffect(a.(bidder := ctx.bidder, refundReceiver := ctx.from, price := price), next, Bid(ctx.bidder, price)))
  }

  // ---------------------------------------------------------------------------
  // close_auction

  /** The accounts of `close_auction` besides the auction; `seller` is any signer. */
  datatype CloseAuctionAccounts = CloseAuctionAccounts(
    seller: Pubkey, sellerSigned: bool, itemHolder: Pubkey, itemReceiver: Pubkey,
    currencyHolder: Pubkey, currencyReceiver: Pubkey)

  /** Everything the `CloseAuction` account struct demands. */
  predicate CloseAuctionValid(a: AuctionData, accts: Accounts, ctx: CloseAuctionAccounts)
  {
    ctx.sellerSigned &&
    ctx.itemHolder in accts && ctx.itemReceiver in accts &&
    ctx.currencyHolder in accts && ctx.currencyReceiver in accts &&
    a.ongoing &&
    ctx.itemHolder == a.itemHolder &&
    accts[ctx.itemHolder].owner == AuctionSigner(a.seller) &&
    accts[ctx.itemReceiver].owner == a.bidder &&
    ctx.currencyHolder == a.currencyHolder &&
    accts[ctx.currencyHolder].owner == AuctionSigner(a.seller)
  }

  /**
   * The account checks: the first one that fails, if any. The signer and the token-account
   * loads come first, then the `has_one` and `constraint` checks, each in field order.
   */
  function CloseAuctionCheck(a: AuctionData, accts: Accounts, ctx: CloseAuctionAccounts): (r: Option<Error>)
    ensures r.None? <==> CloseAuctionValid(a, accts, ctx)
  {
    if !ctx.sellerSigned then Some(AccountNotSigner)
    else if ctx.itemHolder !in accts || ctx.itemReceiver !in accts ||
            ctx.currencyHolder !in accts || ctx.currencyReceiver !in accts then
      Some(AccountNotInitialized)
    else if !a.ongoing then Some(ConstraintRaw(Ongoing))
    else if ctx.itemHolder != a.itemHolder then Some(ConstraintRaw(ItemHolderKey))
    else if accts[ctx.itemHolder].owner != AuctionSigner(a.seller) then Some(ConstraintRaw(ItemHolderOwner))
    else if accts[ctx.itemReceiver].owner != a.bidder then Some(ConstraintRaw(ItemReceiverOwner))
    else if ctx.currencyHolder != a.currencyHolder then Some(ConstraintRaw(CurrencyHolderKey))
    else if accts[ctx.currencyHolder].owner != AuctionSigner(a.seller) then Some(ConstraintRaw(CurrencyHolderOwner))
    else None
  }

  /**
   * The transfers closing makes, in order: the whole item balance to the item receiver,
   * then the price to the currency receiver, but only if the currency holder holds at
   * least the price. Both balances are the ones loaded before the first transfer.
   */
  function CloseTransfers(a: AuctionData, accts: Accounts, ctx: CloseAuctionAccounts): (ts: seq<Transfer>)
    requires ctx.itemHolder in accts && ctx.currencyHolder in accts
    ensures |ts| == if accts[ctx.currencyHolder].amount >= a.price then 2 else 1
    ensures ts[0] == Transfer(ctx.itemHolder, ctx.itemReceiver, AuctionSigner(a.seller), accts[ctx.itemHolder].amount)
    ensures accts[ctx.currencyHolder].amount >= a.price ==>
      ts[1] == Transfer(ctx.currencyHolder, ctx.currencyReceiver, AuctionSigner(a.seller), a.price)
  {
    var item := Transfer(ctx.itemHolder, ctx.itemReceiver, AuctionSigner(a.seller), accts[ctx.itemHolder].amount);
    var payment := Transfer(ctx.currencyHolder, ctx.currencyReceiver, AuctionSigner(a.seller), a.price);
    [item] + (if accts[ctx.currencyHolder].amount >= a.price then [payment] else [])
  }

  /** What a successful close commits. */
  datatype CloseEffect = CloseEffect(auction: AuctionData, accounts: Accounts)

  /** `close_auction` on values. */
  function CloseStep(a: AuctionData, accts: Accounts, ctx: CloseAuctionAccounts): (r: Result<CloseEffect, Error>)
    ensures r.Ok? <==>
      CloseAuctionValid(a, accts, ctx) && Replay(accts, CloseTransfers(a, accts, ctx)).Ok?
    ensures r.Ok? ==> r.value.accounts == Replay(accts, CloseTransfers(a, accts, ctx)).value
    ensures r.Ok? ==> !r.value.auction.ongoing && r.value.auction == a.(ongoing := false)
  {
    match CloseAuctionCheck(a, accts, ctx)
    case Some(e) => Err(e)
    case None =>
      match Replay(accts, CloseTransfers(a, accts, ctx))
      case Err(e) => Err(TransferFailed(e))
      case Ok(next) => Ok(CloseEffect(a.(ongoing := false), next))
  }

  // ---------------------------------------------------------------------------
  // The program's code, on the auction account and the ledger in place

  /** The auction account. */
  class Auction {
    var ongoing: bool
    var seller: Pubkey
    var itemHolder: Pubkey
    var currencyHolder: Pubkey
    var bidder: Pubkey
    var refundReceiver: Pubkey
    var price: U64

    /** The record the account holds. */
    function Data(): AuctionData
      reads this
    {
      AuctionData(ongoing, seller, itemHolder, currencyHolder, bidder, refundReceiver, price)
    }

    /** A newly allocated account: every field zero. */
    constructor Zeroed()
      ensures Data() == AuctionData(false, Default, Default, Default, Default, Default, 0)
    {
      ongoing, seller, itemHolder, currencyHolder := false, Default, Default, Default;
      bidder, refundReceiver, price := Default, Default, 0;
    }

    /**
     * `bid`: either commits the refund, the deposit, the new auction fields and the
     * receipt, or fails and leaves the auction and every balance as they were.
     */
    method PlaceBid(ledger: Ledger, ctx: BidAccounts, price: U64) returns (r: Result<Bid, Error>)
      modifies this, ledger
      ensures match BidStep(old(Data()), old(ledger.accounts), ctx, price)
              case Ok(e) => r == Ok(e.bid) && Data() == e.auction && ledger.accounts == e.accounts
              case Err(e) => r == Err(e) && Data() == old(Data()) && ledger.accounts == old(ledger.accounts)
    {
      var failed := BidCheck(Data(), ledger.accounts, ctx);
      if failed.Some? {
        return Err(failed.value);
      }
      if price <= this.price {
        return Err(BidPirceTooLow);
      }
      ghost var before := Data();
      var snapshot := ledger.accounts;
      var refund := Transfer(ctx.currencyHolder, ctx.oriRefundReceiver, AuctionSigner(seller), this.price);
      var deposit := Transfer(ctx.from, ctx.currencyHolder, ctx.bidder, price);
      ghost var done: seq<Transfer> := [];
      if refundReceiver != Default {
        var refunded := ledger.Execute(refund);
        ReplayAppend(snapshot, [], refund);
        assert [] + [refund] == [refund];
        done := [refund];
        if refunded.Fail? {
          ReplayAppend(snapshot, done, deposit);
          return Err(TransferFailed(refunded.error));
        }
      }
      assert Replay(snapshot, done) == Ok(ledger.accounts);
      assert BidTransfers(before, ctx, price) == done + [deposit];
      ReplayAppend(snapshot, done, deposit);
      var paid := ledger.Execute(deposit);
      if paid.Fail? {
        ledger.Revert(snapshot);
        return Err(TransferFailed(paid.error));
      }
      bidder := ctx.bidder;
      refundReceiver := ctx.from;
      this.price := price;
      r := Ok(Bid(ctx.bidder, price));
    }

    /**
     * `close_auction`: either commits both transfers and `ongoing = false`, or fails and
     * leaves the auction and every balance as they were.
     */
    method Close(ledger: Ledger, ctx: CloseAuctionAccounts) returns (r: Outcome<Error>)
      modifies this, ledger
      ensures match CloseStep(old(Data()), old(ledger.accounts), ctx)
              case Ok(e) => r == Pass && Data() == e.auction && ledger.accounts == e.accounts
              case Err(e) => r == Fail(e) && Data() == old(Data()) && ledger.accounts == old(ledger.accounts)
    {
      var failed := CloseAuctionCheck(Data(), ledger.accounts, ctx);
      if failed.Some? {
        return Fail(failed.value);
      }
      ghost var before := Data();
      var snapshot := ledger.accounts;
      var authority := AuctionSigner(seller);
      // The item amount and the balance compared with the price below are those loaded for the instruction, before any transfer.
      var item := Transfer(ctx.itemHolder, ctx.itemReceiver, authority, snapshot[ctx.itemHolder].amount);
      var payment := Transfer(ctx.currencyHolder, ctx.currencyReceiver, authority, price);
      var moved := ledger.Execute(item);
      ReplayAppend(snapshot, [], item);
      assert [] + [item] == [item];
      if moved.Fail? {
        if snapshot[ctx.currencyHolder].amount >= price {
          ReplayAppend(snapshot, [item], payment);
        }
        return Fail(TransferFailed(moved.error));
      }
      if snapshot[ctx.currencyHolder].amount >= price {
        assert CloseTransfers(before, snapshot, ctx) == [item] + [payment];
        ReplayAppend(snapshot, [item], payment);
        var paid := ledger.Execute(payment);
        if paid.Fail? {
          ledger.Revert(snapshot);
          return Fail(TransferFailed(paid.error));
        }
      } else {
        assert CloseTransfers(before, snapshot, ctx) == [item];
      }
      ongoing := false;
      r := Pass;
    }
  }

  /** `create_auction`: allocates the auction account and fills in its fields. */
  method CreateAuction(ledger: Ledger, ctx: CreateAuctionAccounts, startPrice: U64) returns (r: Result<Auction, Error>)
    ensures match CreateStep(ledger.accounts, ctx, startPrice)
            case Ok(d) => r.Ok? && fresh(r.value) && r.value.Data() == d
            case Err(e) => r == Err(e)
  {
    var failed := CreateAuctionCheck(ledger.accounts, ctx);
    if failed.Some? {
      return Err(failed.value);
    }
    var auction := new Auction.Zeroed();
    auction.ongoing := true;
    auction.seller := ctx.seller;
    auction.itemHolder := ctx.itemHolder;
    auction.currencyHolder := ctx.currencyHolder;
    auction.bidder := ctx.seller;
    auction.price := startPrice;
    r := Ok(auction);
  }
}
