/** The double-entry ledger: three entries a paid payment, each carrying its account's running balance. */
module Ledger {
  import opened JsText

  datatype Account = CustomerFunds | MerchantBalance | PlatformFees | GatewaySettlement

  datatype Direction = Debit | Credit

  datatype Entry = Entry(merchantId: string, paymentId: string, account: Account, direction: Direction,
                         amountCents: int, balanceAfter: int)

  function Signed(direction: Direction, amountCents: int): int {
    if direction == Credit then amountCents else -amountCents
  }

  /** The signed sum of one merchant's entries on one account. */
  function Balance(entries: seq<Entry>, merchantId: string, account: Account): int {
    if entries == [] then 0
    else
      var e := entries[|entries| - 1];
      Balance(entries[..|entries| - 1], merchantId, account)
      + if e.merchantId == merchantId && e.account == account then Signed(e.direction, e.amountCents) else 0
  }

  function WithEntry(entries: seq<Entry>, merchantId: string, paymentId: string, account: Account,
                     direction: Direction, amountCents: int): seq<Entry>
  {
    entries + [Entry(merchantId, paymentId, account, direction, amountCents,
                     Balance(entries, merchantId, account) + Signed(direction, amountCents))]
  }

  datatype Write = Write(merchantId: string, paymentId: string, amountCents: int, platformFeeCents: int,
                         merchantNetCents: int)

  predicate Accepted(w: Write) {
    w.amountCents > 0 && w.platformFeeCents >= 0 && w.merchantNetCents >= 0
    && w.platformFeeCents + w.merchantNetCents == w.amountCents
  }

  /** The ledger after an accepted write. */
  function Written(entries: seq<Entry>, w: Write): seq<Entry> {
    var received := WithEntry(entries, w.merchantId, w.paymentId, CustomerFunds, Debit, w.amountCents);
    var credited := WithEntry(received, w.merchantId, w.paymentId, MerchantBalance, Credit, w.merchantNetCents);
    if w.platformFeeCents > 0
    then WithEntry(credited, w.merchantId, w.paymentId, PlatformFees, Credit, w.platformFeeCents)
    else credited
  }

  function AfterWrite(entries: seq<Entry>, w: Write): seq<Entry> {
    if Accepted(w) then Written(entries, w) else entries
  }

  /** The service that owns the ledger rows. */
  class LedgerService {
    var entries: seq<Entry>

    constructor ()
      ensures entries == []
    {
      entries := [];
    }

    method ComputeBalanceAfter(merchantId: string, account: Account, direction: Direction, amountCents: int)
      returns (balanceAfter: int)
      ensures balanceAfter == Balance(entries, merchantId, account) + Signed(direction, amountCents)
    {
      var currentBalance := 0;
      for i := 0 to |entries|
        invariant currentBalance == Balance(entries[..i], merchantId, account)
      {
        assert entries[..i + 1][..i] == entries[..i];
        if entries[i].merchantId == merchantId && entries[i].account == account {
          currentBalance := currentBalance + Signed(entries[i].direction, entries[i].amountCents);
        }
      }
      assert entries[..|entries|] == entries;
      return currentBalance + Signed(direction, amountCents);
    }

    method CreateLedgerEntry(merchantId: string, paymentId: string, account: Account, direction: Direction,
                             amountCents: int)
      modifies this
      ensures entries == WithEntry(old(entries), merchantId, paymentId, account, direction, amountCents)
    {
      var balanceAfter := ComputeBalanceAfter(merchantId, account, direction, amountCents);
      entries := entries + [Entry(merchantId, paymentId, account, direction, amountCents, balanceAfter)];
    }

    /** Rejects amounts that do not balance, and writes nothing then. */
    method WriteSuccessfulPaymentLedger(w: Write) returns (accepted: bool)
      modifies this
      ensures accepted == Accepted(w)
      ensures entries == AfterWrite(old(entries), w)
    {
      if w.amountCents <= 0 {
        return false;
      }
      if w.platformFeeCents < 0 || w.merchantNetCents < 0 {
        return false;
      }
      if w.platformFeeCents + w.merchantNetCents != w.amountCents {
        return false;
      }
      CreateLedgerEntry(w.merchantId, w.paymentId, CustomerFunds, Debit, w.amountCents);
      CreateLedgerEntry(w.merchantId, w.paymentId, MerchantBalance, Credit, w.merchantNetCents);
      if w.platformFeeCents > 0 {
        CreateLedgerEntry(w.merchantId, w.paymentId, PlatformFees, Credit, w.platformFeeCents);
      }
      return true;
    }
  }

  /** Every row's balanceAfter is the signed sum of its merchant and account up to and including that row. */
  ghost predicate RunningBalances(entries: seq<Entry>) {
    forall i :: 0 <= i < |entries| ==>
      entries[i].balanceAfter == Balance(entries[..i + 1], entries[i].merchantId, entries[i].account)
  }

  function MerchantTotal(entries: seq<Entry>, merchantId: string): int {
    Balance(entries, merchantId, CustomerFunds) + Balance(entries, merchantId, MerchantBalance)
    + Balance(entries, merchantId, PlatformFees) + Balance(entries, merchantId, GatewaySettlement)
  }

  /** Double entry: what a merchant's accounts hold adds up to nothing. */
  ghost predicate ZeroSum(entries: seq<Entry>) {
    forall m :: MerchantTotal(entries, m) == 0
  }

  lemma BalanceOfExtended(entries: seq<Entry>, e: Entry, m: string, a: Account)
    ensures Balance(entries + [e], m, a)
         == Balance(entries, m, a)
            + if e.merchantId == m && e.account == a then Signed(e.direction, e.amountCents) else 0
  {
    assert (entries + [e])[..|entries|] == entries;
  }

  lemma WithEntryKeepsRunningBalances(entries: seq<Entry>, m: string, p: string, a: Account, d: Direction, c: int)
    requires RunningBalances(entries)
    ensures RunningBalances(WithEntry(entries, m, p, a, d, c))
  {
    var after := WithEntry(entries, m, p, a, d, c);
    BalanceOfExtended(entries, after[|entries|], m, a);
    forall i | 0 <= i < |after|
      ensures after[i].balanceAfter == Balance(after[..i + 1], after[i].merchantId, after[i].account)
    {
      if i < |entries| {
        assert after[..i + 1] == entries[..i + 1];
      } else {
        assert after[..i + 1] == after;
      }
    }
  }

  lemma WithEntryMovesOneTotal(entries: seq<Entry>, m: string, p: string, a: Account, d: Direction, c: int,
                               other: string)
    ensures MerchantTotal(WithEntry(entries, m, p, a, d, c), other)
         == MerchantTotal(entries, other) + if other == m then Signed(d, c) else 0
  {
    var e := WithEntry(entries, m, p, a, d, c)[|entries|];
    BalanceOfExtended(entries, e, other, CustomerFunds);
    BalanceOfExtended(entries, e, other, MerchantBalance);
    BalanceOfExtended(entries, e, other, PlatformFees);
    BalanceOfExtended(entries, e, other, GatewaySettlement);
  }

  lemma WriteKeepsBooks(entries: seq<Entry>, w: Write)
    requires RunningBalances(entries) && ZeroSum(entries)
    ensures RunningBalances(AfterWrite(entries, w)) && ZeroSum(AfterWrite(entries, w))
  {
    if Accepted(w) {
      var received := WithEntry(entries, w.merchantId, w.paymentId, CustomerFunds, Debit, w.amountCents);
      var credited := WithEntry(received, w.merchantId, w.paymentId, MerchantBalance, Credit, w.merchantNetCents);
      WithEntryKeepsRunningBalances(entries, w.merchantId, w.paymentId, CustomerFunds, Debit, w.amountCents);
      WithEntryKeepsRunningBalances(received, w.merchantId, w.paymentId, MerchantBalance, Credit, w.merchantNetCents);
      WithEntryKeepsRunningBalances(credited, w.merchantId, w.paymentId, PlatformFees, Credit, w.platformFeeCents);
      forall m ensures MerchantTotal(AfterWrite(entries, w), m) == 0 {
        WithEntryMovesOneTotal(entries, w.merchantId, w.paymentId, CustomerFunds, Debit, w.amountCents, m);
        WithEntryMovesOneTotal(received, w.merchantId, w.paymentId, MerchantBalance, Credit, w.merchantNetCents, m);
        WithEntryMovesOneTotal(credited, w.merchantId, w.paymentId, PlatformFees, Credit, w.platformFeeCents, m);
      }
    }
  }

  /**
   * A write is refused exactly when an amount is out of range or the shares do not add up, and then nothing changes.
   */
  lemma RefusedIff(entries: seq<Entry>, w: Write)
    ensures AfterWrite(entries, w) == entries <==>
      w.amountCents <= 0 || w.platformFeeCents < 0 || w.merchantNetCents < 0
      || w.platformFeeCents + w.merchantNetCents != w.amountCents
  {
    if Accepted(w) {
      assert |AfterWrite(entries, w)| >= |entries| + 2;
    }
  }

  function AfterWrites(entries: seq<Entry>, writes: seq<Write>): seq<Entry>
    decreases |writes|
  {
    if writes == [] then entries else AfterWrites(AfterWrite(entries, writes[0]), writes[1..])
  }

  /** Any number of writes, accepted or rejected, for any mix of merchants. */
  lemma {:induction false} BooksStayBalanced(entries: seq<Entry>, writes: seq<Write>)
    requires RunningBalances(entries) && ZeroSum(entries)
    ensures RunningBalances(AfterWrites(entries, writes)) && ZeroSum(AfterWrites(entries, writes))
    decreases |writes|
  {
    if writes != [] {
      WriteKeepsBooks(entries, writes[0]);
      BooksStayBalanced(AfterWrite(entries, writes[0]), writes[1..]);
    }
  }

  /** What an account holds in the end is what the accepted writes moved into it. */
  function Moved(w: Write, merchantId: string, account: Account): int {
    if !Accepted(w) || w.merchantId != merchantId then 0
    else match account
      case CustomerFunds => -w.amountCents
      case MerchantBalance => w.merchantNetCents
      case PlatformFees => w.platformFeeCents
      case GatewaySettlement => 0
  }

  function TotalMoved(writes: seq<Write>, merchantId: string, account: Account): int {
    if writes == [] then 0 else Moved(writes[0], merchantId, account) + TotalMoved(writes[1..], merchantId, account)
  }

  lemma WriteMoves(entries: seq<Entry>, w: Write, m: string, a: Account)
    ensures Balance(AfterWrite(entries, w), m, a) == Balance(entries, m, a) + Moved(w, m, a)
  {
    if Accepted(w) {
      var received := WithEntry(entries, w.merchantId, w.paymentId, CustomerFunds, Debit, w.amountCents);
      var credited := WithEntry(received, w.merchantId, w.paymentId, MerchantBalance, Credit, w.merchantNetCents);
      BalanceOfExtended(entries, received[|entries|], m, a);
      BalanceOfExtended(received, credited[|received|], m, a);
      BalanceOfExtended(credited,
                        WithEntry(credited, w.merchantId, w.paymentId, PlatformFees, Credit,
                                  w.platformFeeCents)[|credited|], m, a);
    }
  }

  /** Conservation: an account's closing balance is its opening balance plus the shares of the accepted writes. */
  lemma {:induction false} ClosingBalance(entries: seq<Entry>, writes: seq<Write>, m: string, a: Account)
    ensures Balance(AfterWrites(entries, writes), m, a) == Balance(entries, m, a) + TotalMoved(writes, m, a)
    decreases |writes|
  {
    if writes != [] {
      WriteMoves(entries, writes[0], m, a);
      ClosingBalance(AfterWrite(entries, writes[0]), writes[1..], m, a);
    }
  }
}
