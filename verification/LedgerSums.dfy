// The ledger by sums over the list of transactions: exactly when a list is accepted, and the balances it leads to.
module LedgerSums {
  import opened Bytes
  import opened Ledger

  /** What the transactions pay to a. */
  function Paid(txs: seq<SignedTransaction>, a: Address): nat {
    if txs == [] then 0
    else (if txs[0].transaction.receiver == a then txs[0].transaction.value else 0) + Paid(txs[1..], a)
  }

  /** What a spends in the transactions. */
  function Spent(txs: seq<SignedTransaction>, a: Address): nat {
    if txs == [] then 0
    else (if txs[0].transaction.sender == a then txs[0].transaction.value else 0) + Spent(txs[1..], a)
  }

  /** Transaction i spends no more than its sender has by then, and carries the sender's next nonce. */
  ghost predicate Funded(l: Accounts, txs: seq<SignedTransaction>, i: nat)
    requires i < |txs|
  {
    var t, before := txs[i].transaction, txs[..i];
    var account := AccountOf(l, t.sender);
    && t.value + Spent(before, t.sender) <= account.balance + Paid(before, t.sender)
    && t.accountNonce == (account.nonce + |Sent(before, t.sender)| + 1) % LIMIT32
  }

  ghost predicate AllFunded(l: Accounts, txs: seq<SignedTransaction>) {
    forall i: nat :: i < |txs| ==> Funded(l, txs, i)
  }

  /** The accounts after the transactions, by what was paid, spent and sent. */
  ghost predicate Summed(l: Accounts, txs: seq<SignedTransaction>, l': Accounts) {
    && BalancesSummed(l, txs, l')
    && (forall a :: AccountOf(l', a).nonce == (AccountOf(l, a).nonce + |Sent(txs, a)|) % LIMIT32)
    && (forall a :: a in l' <==> a in l || Mentions(txs, a))
  }

  ghost predicate BalancesSummed(l: Accounts, txs: seq<SignedTransaction>, l': Accounts) {
    forall a :: AccountOf(l', a).balance + Spent(txs, a) == AccountOf(l, a).balance + Paid(txs, a)
  }

  ghost predicate Mentions(txs: seq<SignedTransaction>, a: Address) {
    exists i :: 0 <= i < |txs| && Party(txs[i], a)
  }

  predicate Party(tx: SignedTransaction, a: Address) {
    tx.transaction.sender == a || tx.transaction.receiver == a
  }

  // ----- one transaction in front

  lemma SumsCons(txs: seq<SignedTransaction>, i: nat, a: Address)
    requires i < |txs|
    ensures var t, rest := txs[0].transaction, txs[1..];
            && Paid(txs[..i + 1], a) == (if t.receiver == a then t.value else 0) + Paid(rest[..i], a)
            && Spent(txs[..i + 1], a) == (if t.sender == a then t.value else 0) + Spent(rest[..i], a)
            && |Sent(txs[..i + 1], a)| == (if t.sender == a then 1 else 0) + |Sent(rest[..i], a)|
  {
    assert txs[..i + 1][1..] == txs[1..][..i];
  }

  lemma NonceAfterOne(n: u32, m: nat)
    ensures (Add32(n, 1) + m + 1) % LIMIT32 == (n + (1 + m) + 1) % LIMIT32
  {
    WrapAgain(n, m + 1);
  }

  /** After the first transaction the others are funded exactly when they are in the whole list. */
  lemma FundedAfterOne(l: Accounts, txs: seq<SignedTransaction>, i: nat)
    requires i + 1 < |txs| && Acceptable(l, txs[0].transaction) && Total(l) < LIMIT32
    ensures Funded(Applied(l, txs[0].transaction), txs[1..], i) <==> Funded(l, txs, i + 1)
  {
    var a := txs[i + 1].transaction.sender;
    TransferIsExact(l, txs[0].transaction);
    SumsCons(txs, i, a);
    NonceAfterOne(AccountOf(l, a).nonce, |Sent(txs[1..][..i], a)|);
  }

  lemma FirstFunded(l: Accounts, txs: seq<SignedTransaction>)
    requires txs != []
    ensures Funded(l, txs, 0) <==> Acceptable(l, txs[0].transaction)
  {
    assert txs[..0] == [];
  }

  lemma AllFundedCons(l: Accounts, txs: seq<SignedTransaction>)
    requires txs != [] && Acceptable(l, txs[0].transaction) && Total(l) < LIMIT32
    ensures AllFunded(Applied(l, txs[0].transaction), txs[1..]) <==> AllFunded(l, txs)
  {
    var l1, rest := Applied(l, txs[0].transaction), txs[1..];
    FirstFunded(l, txs);
    forall i: nat | i < |rest| ensures Funded(l1, rest, i) <==> Funded(l, txs, i + 1) {
      FundedAfterOne(l, txs, i);
    }
    if AllFunded(l1, rest) {
      forall i: nat | i < |txs| ensures Funded(l, txs, i) {
        if i > 0 {
          assert Funded(l1, rest, i - 1);
        }
      }
    }
    if AllFunded(l, txs) {
      forall i: nat | i < |rest| ensures Funded(l1, rest, i) {
        assert Funded(l, txs, i + 1);
      }
    }
  }

  /** A list replays exactly when each transaction is funded, nonce and all, by the start and those before it. */
  lemma {:induction false} ReplayIff(l: Accounts, txs: seq<SignedTransaction>)
    requires Total(l) < LIMIT32
    ensures Replay(l, txs).Some? <==> AllFunded(l, txs)
    decreases |txs|
  {
    if txs != [] {
      FirstFunded(l, txs);
      if Acceptable(l, txs[0].transaction) {
        TransferIsExact(l, txs[0].transaction);
        ReplayIff(Applied(l, txs[0].transaction), txs[1..]);
        AllFundedCons(l, txs);
      } else {
        assert !Funded(l, txs, 0);
      }
    }
  }

  lemma MentionsCons(txs: seq<SignedTransaction>, a: Address)
    requires txs != []
    ensures Mentions(txs, a) <==> Party(txs[0], a) || Mentions(txs[1..], a)
  {
    if Mentions(txs, a) {
      var i :| 0 <= i < |txs| && Party(txs[i], a);
      assert i > 0 ==> Party(txs[1..][i - 1], a);
    }
    if Mentions(txs[1..], a) {
      var i :| 0 <= i < |txs[1..]| && Party(txs[1..][i], a);
      assert Party(txs[i + 1], a);
    }
  }

  lemma {:induction false} BalancesOf(l: Accounts, txs: seq<SignedTransaction>)
    requires Total(l) < LIMIT32 && Replay(l, txs).Some?
    ensures BalancesSummed(l, txs, Replay(l, txs).value)
    decreases |txs|
  {
    if txs != [] {
      TransferIsExact(l, txs[0].transaction);
      BalancesOf(Applied(l, txs[0].transaction), txs[1..]);
    }
  }

  lemma {:induction false} AccountsOf(l: Accounts, txs: seq<SignedTransaction>, a: Address)
    requires Total(l) < LIMIT32 && Replay(l, txs).Some?
    ensures a in Replay(l, txs).value <==> a in l || Mentions(txs, a)
    decreases |txs|
  {
    if txs != [] {
      TransferIsExact(l, txs[0].transaction);
      AccountsOf(Applied(l, txs[0].transaction), txs[1..], a);
      MentionsCons(txs, a);
    }
  }

  /** It leads to the balances, nonces and accounts that what was paid, spent and sent make. */
  lemma ReplaySums(l: Accounts, txs: seq<SignedTransaction>)
    requires Total(l) < LIMIT32 && Replay(l, txs).Some?
    ensures Summed(l, txs, Replay(l, txs).value)
  {
    BalancesOf(l, txs);
    forall a ensures AccountOf(Replay(l, txs).value, a).nonce == (AccountOf(l, a).nonce + |Sent(txs, a)|) % LIMIT32 {
      NoncesCountUp(l, txs, a);
    }
    forall a ensures a in Replay(l, txs).value <==> a in l || Mentions(txs, a) {
      AccountsOf(l, txs, a);
    }
  }
}
