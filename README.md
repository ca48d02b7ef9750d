# Custodial single-item auction, modelled in Dafny

This project models the `auction` program at `programs/auction/src/lib.rs`. It is an
on-chain English auction for a single item. The accounts involved are:

- a seller;
- two custodial token accounts, both owned by an authority the program derives from the
  seller's key: the *item holder* keeps the item, the *currency holder* keeps the current bid;
- the bidders, each with a token account of the currency mint.

The program has three instructions:

- `create_auction` records the auction. It is `ongoing`, the bidder is the seller, the
  price is the start price and no refund is recorded.
- `bid` rejects a price that is not strictly above the current one. If a previous bid is
  recorded, it refunds that bid's price from the currency holder. It then takes the new
  price from the bidder's account into the currency holder, records the new bidder, the
  source account and the price, and writes a `Bid` receipt.
- `close_auction` moves the whole item balance to an account owned by the current
  bidder. It pays the price to a currency receiver, but only when the currency holder
  holds at least that much. It then sets `ongoing` to false.

The model has five modules:

- `Wrappers` (`wrappers.dfy`): `Option`, `Result` and `Outcome`.
- `Token` (`token.dfy`): the token ledger the program runs against. Account addresses
  have a distinguished `Default` key and program-derived addresses. A token account has a
  mint, an owner and a balance. A transfer fails on a missing account, an insufficient
  balance, a mint mismatch or a wrong authority. `Replay` runs a sequence of transfers
  that all succeed or all fail. `Supply(accounts, mint)` is the total of a mint, and
  transfers are proved to conserve it. The class `Ledger` holds the balances, which
  `Execute` updates in place; `Revert` is the rollback of a failed transaction.
- `AuctionProgram` (`auction.dfy`): the `Auction` and `Bid` records, the error kinds and
  the three Anchor account structs. Each struct is a predicate (`...Valid`: the signer,
  token-account, `has_one` and `constraint` checks it makes) and a check that returns the
  first failure: the signer and token-account loads first, then the `has_one` and
  `constraint` checks, each in the struct's field order (within one field, `has_one`
  before a raw `constraint`, as Anchor orders them). Each instruction is written twice:
  - as a step function on values (`CreateStep`, `BidStep`, `CloseStep`) that returns the
    error, or the new auction record and ledger;
  - as the program's imperative code on the class `Auction` and a `Ledger`
    (`CreateAuction`, `Auction.PlaceBid`, `Auction.Close`). These assign the fields in
    place, issue the transfers one by one, leave early on an error, and are proved equal
    to the step function. A transaction that fails leaves the auction and every balance
    unchanged.
- `AuctionProperties` (`properties.dfy`) and `AuctionScenario` (`scenario.dfy`): the
  accounting of a bid and of a close, supply conservation, the invariants of any sequence
  of transactions, the escrow balance, a worked auction, and the checks the program does
  not make.

Things the source itself does not show:

- The seller's custodial authority is `AuctionSigner(seller)`, a `ProgramAddress` derived
  from the seller's key. It stands for the program-derived address and its seeds (lines 31-34, 71-74).
- Instruction signatures are booleans in the account structs (`sellerSigned`, `bidderSigned`).
- Anchor's `init` hands out a zero-filled account. `Auction.Zeroed` models this. It is why
  `refund_receiver` starts as the Default key, although `create_auction` never assigns it.
- In `close_auction`, `ctx.accounts.item_holder.amount` and `ctx.accounts.currency_holder.amount`
  are the balances as loaded before the instruction ran. `CloseTransfers` reads both from
  the ledger before the first transfer.

Behaviour of the code worth flagging (the model follows the code):

- `close_auction` accepts any signer (line 169), not only the seller.
  `CloseIgnoresSigner` states that the result does not depend on who signs.
- The currency receiver is constrained only to be a token account (lines 189-190).
- A bid may name the Default-key account as its refund target even while a real bid is
  recorded (line 156). On a ledger with a token account at the Default key (on Solana
  there is none; see below), the old price is then paid into that account, and the
  previous bidder gets nothing back. `RefundDivertedToDefault` shows this on a concrete ledger.
- The program defines one error of its own, `BidPirceTooLow`. Every account check fails
  with one of Anchor's generic errors (`AccountNotSigner`, `ConstraintHasOne`,
  `ConstraintRaw`, `AccountNotInitialized`), and the model records which constraint
  failed. The model uses `AccountNotInitialized` for every token-account load that fails,
  whatever Anchor's exact load error.
- `auction_singer` is an unchecked account (lines 113, 117, 120-121). The source therefore
  accepts holders owned by whatever single key is passed there, the seller's own wallet
  for instance. `CreateAuctionCheck` instead requires both holders to be owned by
  `AuctionSigner(seller)`. The custody that the escrow lemmas rely on is thus assumed by
  the model, not enforced by the code.
- The refund-target account is declared as a token account. So it must be one even when
  no refund is due. Before the first bid, the only key allowed is Default.
  `FirstBidNeedsDefaultAccount` proves that without a token account at the Default key,
  no first bid can succeed. On Solana that key belongs to the system program, not to a
  token account. The model's ledger is abstract and does allow a token account there;
  the scenario uses one.

## Model

| member | source | states |
|---|---|---|
| `Token.TransferStep` | programs/auction/src/lib.rs:46-53 | a transfer succeeds exactly when both are token accounts, the source holds enough, the mints match and the authority owns the source; then every balance changes by the transfer's flow and no mint or owner changes |
| `Token.Replay` | programs/auction/src/lib.rs:29-53 | transfers are carried out in order: one transfer alone is that transfer; when the first fails, the whole sequence fails with its error; a successful sequence keeps every account, mint and owner |
| `Token.ReplayAppend` | programs/auction/src/lib.rs:42-53 | transfers made one after another with an early exit on error are the replay of the whole sequence |
| `Token.ReplayNetFlow` | programs/auction/src/lib.rs:29-53 | a successful sequence of transfers changes each balance by exactly its net flow and keeps every account, mint and owner |
| `Token.TransferConservesSupply` | programs/auction/src/lib.rs:53 | a transfer leaves the supply of every mint unchanged |
| `Token.ReplayConservesSupply` | programs/auction/src/lib.rs:29-53 | a sequence of transfers leaves the supply of every mint unchanged |
| `Token.Ledger.Execute` | programs/auction/src/lib.rs:41-42 | `token::transfer` applies the transfer to the ledger in place, or reports its error and changes nothing |
| `Token.Ledger.Revert` | programs/auction/src/lib.rs:53 | a failed transaction restores every balance |
| `AuctionProgram.CreateAuctionCheck` | programs/auction/src/lib.rs:103-123 | no error is reported exactly when the seller signed, both holders are token accounts and both are owned by the seller's derived authority |
| `AuctionProgram.CreateStep` | programs/auction/src/lib.rs:9-19 | creation succeeds exactly when the account checks pass; the new auction is ongoing, has bidder and seller equal to the signer, the supplied holders, the start price and no refund receiver; it moves no tokens |
| `AuctionProgram.CreateAuction` | programs/auction/src/lib.rs:9-19 | allocates a fresh auction account whose fields are those `CreateStep` gives, or returns its error |
| `AuctionProgram.Auction.Zeroed` | programs/auction/src/lib.rs:105-109 | a newly allocated auction account has every field zero, so `refund_receiver` is the Default key |
| `AuctionProgram.BidCheck` | programs/auction/src/lib.rs:125-160 | no error is reported exactly when the bidder signed; `from`, the holder and the refund target are token accounts; the auction is ongoing and has this currency holder; `from` has the holder's mint and is the bidder's; the holder is the derived authority's; and the refund target is the Default key or the recorded refund receiver |
| `AuctionProgram.BidTransfers` | programs/auction/src/lib.rs:29-53 | a bid refunds if and only if a refund receiver is recorded: exactly the old price, from the currency holder to the refund target, signed by the derived authority; it then deposits exactly the new price from `from` into the holder, signed by the bidder |
| `AuctionProgram.BidStep` | programs/auction/src/lib.rs:21-66 | a bid is accepted exactly when the account checks pass, the price is strictly higher and the transfers succeed; a valid but too low bid fails with `BidPirceTooLow`; on acceptance the price strictly rises to the bid, bidder and refund receiver become the signer and `from`, seller/holders/ongoing are unchanged, the receipt is `(bidder, price)` and the ledger is the replay of the bid's transfers |
| `AuctionProgram.Auction.PlaceBid` | programs/auction/src/lib.rs:21-66 | updates the auction account and the ledger in place exactly as `BidStep` says, and on any error (including a deposit failing after the refund) leaves both unchanged |
| `AuctionProgram.CloseAuctionCheck` | programs/auction/src/lib.rs:162-192 | no error is reported exactly when someone signed; the four accounts are token accounts; the auction is ongoing; both holders are the recorded ones and owned by the derived authority; and the item receiver is owned by the current bidder |
| `AuctionProgram.CloseTransfers` | programs/auction/src/lib.rs:76-96 | closing moves the item holder's entire loaded balance to the item receiver, then pays exactly the price to the currency receiver if and only if the holder's loaded balance is at least the price |
| `AuctionProgram.CloseStep` | programs/auction/src/lib.rs:68-100 | closing succeeds exactly when the account checks pass and the transfers succeed; then only `ongoing` changes, to false, and the ledger is the replay of the close's transfers |
| `AuctionProgram.Auction.Close` | programs/auction/src/lib.rs:68-100 | updates the auction account and the ledger in place exactly as `CloseStep` says, and on any error leaves both unchanged |
| `AuctionProperties.BidAccounting` | programs/auction/src/lib.rs:29-53 | after an accepted bid, `from` has lost exactly the price, the refund target has gained exactly the old price when a refund was due, the holder has gained the price less any refund, and no other account changed |
| `AuctionProperties.BidConservesSupply` | programs/auction/src/lib.rs:42-53 | an accepted bid conserves the supply of every mint |
| `AuctionProperties.CloseSettles` | programs/auction/src/lib.rs:76-96 | after a close, the item holder is empty and the item receiver has gained its whole balance; the currency receiver has gained exactly the price if the holder held enough, and neither changed otherwise; no other account changed |
| `AuctionProperties.CloseConservesSupply` | programs/auction/src/lib.rs:84-95 | a close conserves the supply of every mint |
| `AuctionProperties.ClosedIsFinal` | programs/auction/src/lib.rs:127-167 | once `ongoing` is false, every bid and every close fails |
| `AuctionProperties.CreateStartsAgreeing` | programs/auction/src/lib.rs:9-19 | a new auction has no receipts and its bidder is the seller |
| `AuctionProperties.LowBidChangesNothing` | programs/auction/src/lib.rs:25-27 | a bid at or below the current price is a failed transaction: the auction, every balance and the receipts stay as they were |
| `AuctionProperties.Step` | programs/auction/src/lib.rs:21-100 | an instruction commits its effects and appends its receipt, or leaves auction, ledger and receipts unchanged: a bid either appends the receipt `(bidder, price)` with the auction now at that strictly higher price and bidder, or changes nothing; a close adds no receipt and, if it changes anything, ends the auction; nothing changes a closed auction |
| `AuctionProperties.Run` | programs/auction/src/lib.rs:21-100 | over a sequence of transactions the earlier receipts are kept and each transaction adds at most one |
| `AuctionProperties.StepPreserves` | programs/auction/src/lib.rs:21-100 | one transaction keeps seller and holders, never lowers the price, never reopens, changes nothing after a close, only appends receipts, keeps receipts in agreement with the auction and conserves every mint's supply |
| `AuctionProperties.RunPreserves` | programs/auction/src/lib.rs:21-100 | the same holds over any sequence of transactions: prices of receipts strictly increase and never exceed the current price, and the last receipt is the current bidder and price |
| `AuctionProperties.CreateStartsEscrowed` | programs/auction/src/lib.rs:9-19 | an auction opened over an empty currency holder has the holder holding exactly what it owes |
| `AuctionProperties.BidKeepsEscrow` | programs/auction/src/lib.rs:29-59 | after an accepted bid, the currency holder holds exactly the new price: no double deposit and no partial refund |
| `AuctionProperties.CloseEscrowed` | programs/auction/src/lib.rs:86-96 | closing an escrowed auction pays exactly the price and empties the holder after a bid, and moves no currency when no bid was placed, whatever the start price |
| `AuctionProperties.CloseIgnoresSigner` | programs/auction/src/lib.rs:169 | the outcome of a close, accepted or rejected, does not depend on which key is named as the signer |
| `AuctionProperties.FirstBidNeedsDefaultAccount` | programs/auction/src/lib.rs:154-158 | with no refund receiver recorded and no token account at the Default key, every bid fails |
| `AuctionScenario.Opened` | programs/auction/src/lib.rs:9-19 | opening at 100 gives the expected record |
| `AuctionScenario.FirstBid` | programs/auction/src/lib.rs:21-66 | a first bid of 150 makes only the deposit |
| `AuctionScenario.SecondBid` | programs/auction/src/lib.rs:29-63 | a bid of 200 refunds the 150 to the first bidder's account, then deposits 200 |
| `AuctionScenario.Settled` | programs/auction/src/lib.rs:68-100 | closing moves the item to the winner and 200 to the seller |
| `AuctionScenario.ThreeInstructions` | programs/auction/src/lib.rs:21-100 | the scenario's two bids and close, as one run of transactions, reach the expected final world |
| `AuctionScenario.EnglishAuction` | programs/auction/src/lib.rs:9-100 | the whole auction ends with the item with B, 200 with the seller, A fully refunded, both holders empty and the auction closed |
| `AuctionScenario.RefundDivertedToDefault` | programs/auction/src/lib.rs:156 | a bid naming the Default-key account as refund target is accepted, and the previous bidder's refund goes there |

## Left out

- Deriving the program address (`find_program_address`, seeds, signer arrays): the custodial authority is the abstract `AuctionSigner(seller)`. `auction_singer` is an unchecked account in the source, and the model takes it to be that derived authority.
- The cross-program invocation mechanics (`CpiContext`, the `Transfer` accounts struct, `token_program`): a transfer is a ledger update. The account fields the source names but never declares (`currency_holder_auth`, `from_auth`, `item_holder_auth`) are taken to be the derived authority, or the bidder for `from`. The unbalanced parentheses at lines 173-174 and 186-187 are read as the evident owner constraints.
- Account allocation, rent and payers, and the failure of `init` on an existing account: `Auction.Zeroed` and each returned `Bid` receipt stand for a freshly allocated account.
- Token balances are unbounded. The token program's checked addition cannot overflow, because a mint's supply fits in 64 bits. Prices are 64-bit (`U64`). Frozen accounts, delegates and native (wrapped SOL) accounts are not modelled.
- Signature verification: each signer is a boolean.
- Concrete key bytes: keys are `Default`, `Key(n)` or `ProgramAddress(seed)`. The model does not know what lives at the Default key on a real cluster.
- AuctionProgram.CreateAuctionCheck: when several checks fail at once, the model reports the first failure: the signer and token-account loads first, then the `has_one` and `constraint` checks, each in field order (within one field, `has_one` first). Anchor's exact precedence between errors of different kinds is not claimed.
- AuctionProgram.BidCheck: as for CreateAuctionCheck.
- AuctionProgram.CloseAuctionCheck: as for CreateAuctionCheck.
- Account writability (`mut`, lines 110, 128, 140, 146, 155, 165, 171, 179, 184, 189) and the `token_program` account (lines 159, 191) are not checked: the model has no read-only accounts and only one token program.
- Anchor's writeback of the auction account and its (de)serialisation: the `Auction` class is the account's content.
