/**
 * The token ledger the auction program runs against: token accounts, each with a
 * mint (the kind of token it holds), an owner (who may authorise transfers out of it)
 * and a balance, and the one instruction the auction uses, a transfer.
 *
 * The token program itself is a collaborator outside the auction: it is modelled only
 * by what a transfer does to the balances and by the errors it can report.
 */
module Token {
  import opened Wrappers

  /**
   * An account address. `Default` is the all-zero key (`Pubkey::default()`);
   * `ProgramAddress(seed)` is the address the auction program derives from a seed
   * and can sign for without a private key.
   */
  datatype Pubkey = Default | Key(id: nat) | ProgramAddress(seed: Pubkey)

  /** A token account. Balances are unbounded here (see README, "Left out"). */
  datatype TokenAccount = TokenAccount(mint: Pubkey, owner: Pubkey, amount: nat)

  /** The token accounts that exist, by address. */
  type Accounts = map<Pubkey, TokenAccount>

  datatype TokenError = InvalidAccountData | InsufficientFunds | MintMismatch | OwnerMismatch

  /** One transfer instruction: `amount` tokens from `source` to `destination`, signed by `authority`. */
  datatype Transfer = Transfer(source: Pubkey, destination: Pubkey, authority: Pubkey, amount: nat)

  /** How much the balance at `k` goes up (negative: down) when `t` is carried out. */
  function Flow(t: Transfer, k: Pubkey): int
  {
    (if k == t.destination then t.amount else 0) - (if k == t.source then t.amount else 0)
  }

  /** The same accounts exist before and after, with the same mints and owners. */
  predicate SameHolders(before: Accounts, after: Accounts)
  {
    after.Keys == before.Keys &&
    forall k :: k in before ==> after[k].mint == before[k].mint && after[k].owner == before[k].owner
  }

  /**
   * A transfer as the token program performs it: both accounts must be token accounts,
   * the source must hold at least `amount`, both must be of the same mint and the
   * authority must be the source's owner. A transfer from an account to itself changes nothing.
   */
  function TransferStep(accts: Accounts, t: Transfer): (r: Result<Accounts, TokenError>)
    ensures r.Ok? <==>
      t.source in accts && t.destination in accts &&
      accts[t.source].amount >= t.amount &&
      accts[t.source].mint == accts[t.destination].mint &&
      accts[t.source].owner == t.authority
    ensures (r.Err? && t.source in accts && t.destination in accts &&
             accts[t.source].amount < t.amount) ==> r.error == InsufficientFunds
    ensures r.Ok? ==> SameHolders(accts, r.value)
    ensures r.Ok? ==> forall k :: k in accts ==> r.value[k].amount == accts[k].amount + Flow(t, k)
  {
    if t.source !in accts || t.destination !in accts then Err(InvalidAccountData)
    else
      var src, dst := accts[t.source], accts[t.destination];
      if src.amount < t.amount then Err(InsufficientFunds)
      else if src.mint != dst.mint then Err(MintMismatch)
      else if src.owner != t.authority then Err(OwnerMismatch)
      else if t.source == t.destination then Ok(accts)
      else
        var debited := accts[t.source := src.(amount := src.amount - t.amount)];
        Ok(debited[t.destination := dst.(amount := dst.amount + t.amount)])
  }

  /**
   * A sequence of transfers made within one transaction: they are carried out in order,
   * and the first one that fails makes the whole sequence fail with its error (the
   * transaction is reverted, so there is no partial result).
   */
  function Replay(accts: Accounts, ts: seq<Transfer>): (r: Result<Accounts, TokenError>)
    ensures |ts| == 1 ==> r == TransferStep(accts, ts[0])
    ensures ts != [] && TransferStep(accts, ts[0]).Err? ==> r == Err(TransferStep(accts, ts[0]).error)
    ensures r.Ok? ==> SameHolders(accts, r.value)
    decreases |ts|
  {
    if ts == [] then Ok(accts)
    else
      match TransferStep(accts, ts[0])
      case Err(e) => Err(e)
      case Ok(next) => Replay(next, ts[1..])
  }

  /** Replaying one more transfer is replaying the prefix and then carrying that transfer out. */
  lemma {:induction false} ReplayAppend(accts: Accounts, ts: seq<Transfer>, t: Transfer)
    ensures Replay(accts, ts + [t]) ==
      match Replay(accts, ts)
      case Err(e) => Err(e)
      case Ok(m) => TransferStep(m, t)
    decreases |ts|
  {
    if ts == [] {
      assert ts + [t] == [t];
      assert [t][1..] == [];
    } else {
      assert (ts + [t])[0] == ts[0];
      assert (ts + [t])[1..] == ts[1..] + [t];
      match TransferStep(accts, ts[0]) {
        case Err(e) =>
        case Ok(next) => ReplayAppend(next, ts[1..], t);
      }
    }
  }

  /** The net change of the balance at `k` over a sequence of transfers. */
  function NetFlow(ts: seq<Transfer>, k: Pubkey): int
    decreases |ts|
  {
    if ts == [] then 0 else Flow(ts[0], k) + NetFlow(ts[1..], k)
  }

  /** A successful sequence of transfers moves exactly its net flow in or out of every account. */
  lemma {:induction false} ReplayNetFlow(accts: Accounts, ts: seq<Transfer>)
    requires Replay(accts, ts).Ok?
    ensures SameHolders(accts, Replay(accts, ts).value)
    ensures forall k :: k in accts ==> Replay(accts, ts).value[k].amount == accts[k].amount + NetFlow(ts, k)
    decreases |ts|
  {
    if ts != [] {
      var next := TransferStep(accts, ts[0]).value;
      ReplayNetFlow(next, ts[1..]);
    }
  }

  /** What an account contributes to the supply of `mint`. */
  function Held(acct: TokenAccount, mint: Pubkey): nat
  {
    if acct.mint == mint then acct.amount else 0
  }

  /** The total amount of `mint` held across all accounts. */
  ghost function Supply(accts: Accounts, mint: Pubkey): nat
    decreases |accts|
  {
    if accts == map[] then 0
    else
      var k :| k in accts;
      assert |accts - {k}| < |accts| by { assert (accts - {k}).Keys == accts.Keys - {k}; }
      Held(accts[k], mint) + Supply(accts - {k}, mint)
  }

  /** The supply can be split off at any account, not only the one `Supply` happens to pick. */
  lemma {:induction false} SupplySplit(accts: Accounts, k: Pubkey, mint: Pubkey)
    requires k in accts
    ensures Supply(accts, mint) == Held(accts[k], mint) + Supply(accts - {k}, mint)
    decreases |accts|
  {
    var j :| j in accts && Supply(accts, mint) == Held(accts[j], mint) + Supply(accts - {j}, mint);
    if j != k {
      assert |accts - {j}| < |accts| by { assert (accts - {j}).Keys == accts.Keys - {j}; }
      assert |accts - {k}| < |accts| by { assert (accts - {k}).Keys == accts.Keys - {k}; }
      SupplySplit(accts - {j}, k, mint);
      SupplySplit(accts - {k}, j, mint);
      assert accts - {j} - {k} == accts - {k} - {j};
    }
  }

  /** Replacing one account changes the supply by exactly the difference in what it holds. */
  lemma SupplyUpdate(accts: Accounts, k: Pubkey, acct: TokenAccount, mint: Pubkey)
    requires k in accts
    ensures Supply(accts[k := acct], mint) == Supply(accts, mint) - Held(accts[k], mint) + Held(acct, mint)
  {
    SupplySplit(accts, k, mint);
    SupplySplit(accts[k := acct], k, mint);
    assert accts[k := acct] - {k} == accts - {k};
  }

  /** A transfer creates and destroys no tokens of any mint. */
  lemma TransferConservesSupply(accts: Accounts, t: Transfer, mint: Pubkey)
    requires TransferStep(accts, t).Ok?
    ensures Supply(TransferStep(accts, t).value, mint) == Supply(accts, mint)
  {
    if t.source != t.destination {
      var src, dst := accts[t.source], accts[t.destination];
      var debited := accts[t.source := src.(amount := src.amount - t.amount)];
      SupplyUpdate(accts, t.source, src.(amount := src.amount - t.amount), mint);
      SupplyUpdate(debited, t.destination, dst.(amount := dst.amount + t.amount), mint);
    }
  }

  /** Nor does a sequence of transfers. */
  lemma {:induction false} ReplayConservesSupply(accts: Accounts, ts: seq<Transfer>, mint: Pubkey)
    requires Replay(accts, ts).Ok?
    ensures Supply(Replay(accts, ts).value, mint) == Supply(accts, mint)
    decreases |ts|
  {
    if ts != [] {
      TransferConservesSupply(accts, ts[0], mint);
      ReplayConservesSupply(TransferStep(accts, ts[0]).value, ts[1..], mint);
    }
  }

  /** The ledger's state, which transfers update in place. */
  class Ledger {
    var accounts: Accounts

    /** `token::transfer`: applies the transfer, or reports its error and changes nothing. */
    method Execute(t: Transfer) returns (r: Outcome<TokenError>)
      modifies this
      ensures match TransferStep(old(accounts), t)
              case Ok(next) => r == Pass && accounts == next
              case Err(e) => r == Fail(e) && accounts == old(accounts)
    {
      var step := TransferStep(accounts, t);
      match step {
        case Ok(next) => accounts := next; r := Pass;
        case Err(e) => r := Fail(e);
      }
    }

    /** The rollback of a failed transaction: every balance returns to `snapshot`. */
    method Revert(snapshot: Accounts)
      modifies this
      ensures accounts == snapshot
    {
      accounts := snapshot;
    }
  }
}
