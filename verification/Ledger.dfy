// src/types/transaction.rs and the ledger step of src/network/worker.rs:165-185 (again at 209-229, and as a
// filter in src/miner/mod.rs:245-281). Arithmetic on nonces and balances wraps at 2^32, as in a release build.
module Ledger {
  import opened Bytes
  import opened Wrappers

  type Bytes20 = s: seq<byte> | |s| == 20 witness Zeros(20)

  datatype Address = Address(bytes: Bytes20)

  datatype Transaction = Transaction(sender: Address, receiver: Address, value: u32, accountNonce: u32)

  datatype SignedTransaction =
    SignedTransaction(transaction: Transaction, signature: seq<byte>, publicKey: seq<byte>)

  datatype Account = Account(nonce: u32, balance: u32)

  type Accounts = map<Address, Account>

  const LIMIT32: nat := 0x1_0000_0000

  const OFFERING: u32 := 1_000_000

  /** The initial coin offering: one account that holds everything. */
  function InitialOffering(founder: Address): Accounts {
    map[founder := Account(0, OFFERING)]
  }

  function Add32(a: u32, b: u32): u32 { (a + b) % LIMIT32 }

  function Sub32(a: u32, b: u32): u32 { (a - b) % LIMIT32 }

  function AccountOf(l: Accounts, a: Address): Account {
    if a in l then l[a] else Account(0, 0)
  }

  predicate Acceptable(l: Accounts, t: Transaction) {
    !(t.value > AccountOf(l, t.sender).balance || t.accountNonce != Add32(AccountOf(l, t.sender).nonce, 1))
  }

  function Debited(l: Accounts, t: Transaction): Accounts {
    var sender := AccountOf(l, t.sender);
    l[t.sender := Account(Add32(sender.nonce, 1), Sub32(sender.balance, t.value))]
  }

  function Credited(l: Accounts, t: Transaction): Accounts {
    var receiver := AccountOf(l, t.receiver);
    l[t.receiver := Account(receiver.nonce, Add32(receiver.balance, t.value))]
  }

  function Applied(l: Accounts, t: Transaction): Accounts {
    Credited(Debited(l, t), t)
  }

  /** The state after the transactions in order, or None when one of them is rejected. */
  function Replay(l: Accounts, txs: seq<SignedTransaction>): Option<Accounts>
    decreases |txs|
  {
    if txs == [] then Some(l)
    else if !Acceptable(l, txs[0].transaction) then None
    else Replay(Applied(l, txs[0].transaction), txs[1..])
  }

  /** The validator's loop: works on a copy of the parent's state and stops at the first bad transaction. */
  method ReplayLoop(parentState: Accounts, txs: seq<SignedTransaction>) returns (ok: bool, state: Accounts)
    ensures Replay(parentState, txs) == if ok then Some(state) else None
  {
    state := parentState;
    assert txs[0..] == txs;
    for i := 0 to |txs|
      invariant Replay(state, txs[i..]) == Replay(parentState, txs)
    {
      assert txs[i..][1..] == txs[i + 1..];
      var tx := txs[i].transaction;
      var senderState := if tx.sender in state then state[tx.sender] else Account(0, 0);
      if tx.value > senderState.balance || tx.accountNonce != Add32(senderState.nonce, 1) {
        return false, state;
      }
      state := state[tx.sender := Account(Add32(senderState.nonce, 1), Sub32(senderState.balance, tx.value))];
      var receiverState := if tx.receiver in state then state[tx.receiver] else Account(0, 0);
      state := state[tx.receiver := Account(receiverState.nonce, Add32(receiverState.balance, tx.value))];
    }
    return true, state;
  }

  lemma {:induction false} ReplayConcat(l: Accounts, xs: seq<SignedTransaction>, ys: seq<SignedTransaction>)
    ensures Replay(l, xs + ys) == match Replay(l, xs) case None => None case Some(m) => Replay(m, ys)
    decreases |xs|
  {
    if xs == [] {
      assert xs + ys == ys;
    } else {
      assert (xs + ys)[1..] == xs[1..] + ys;
      ReplayConcat(Applied(l, xs[0].transaction), xs[1..], ys);
    }
  }

  // ----- conservation

  /** The sum of all balances. */
  ghost function Total(l: Accounts): nat {
    if l == map[] then 0 else
      var a :| a in l;
      l[a].balance + Total(l - {a})
  }

  lemma {:induction false} TotalSplit(l: Accounts, a: Address)
    requires a in l
    ensures Total(l) == l[a].balance + Total(l - {a})
    decreases |l|
  {
    var b :| b in l && Total(l) == l[b].balance + Total(l - {b});
    if a != b {
      TotalSplit(l - {b}, a);
      TotalSplit(l - {a}, b);
      assert l - {b} - {a} == l - {a} - {b};
    }
  }

  lemma TotalUpdate(l: Accounts, a: Address, account: Account)
    ensures Total(l[a := account]) == Total(l) - AccountOf(l, a).balance + account.balance
  {
    var l' := l[a := account];
    TotalSplit(l', a);
    if a in l {
      TotalSplit(l, a);
      assert l' - {a} == l - {a};
    } else {
      assert l' - {a} == l;
    }
  }

  lemma BalanceBelowTotal(l: Accounts, a: Address)
    ensures AccountOf(l, a).balance <= Total(l)
  {
    if a in l {
      TotalSplit(l, a);
    }
  }

  /** While the total fits in u32 a transfer moves exactly its value, whoever the two parties are. */
  lemma TransferIsExact(l: Accounts, t: Transaction)
    requires Acceptable(l, t) && Total(l) < LIMIT32
    ensures var l' := Applied(l, t);
            && Total(l') == Total(l)
            && l'.Keys == l.Keys + {t.sender, t.receiver}
            && (forall a :: AccountOf(l', a).balance as int
                 == AccountOf(l, a).balance - (if a == t.sender then t.value else 0)
                                            + (if a == t.receiver then t.value else 0))
            && (forall a :: AccountOf(l', a).nonce
                 == if a == t.sender then Add32(AccountOf(l, a).nonce, 1) else AccountOf(l, a).nonce)
  {
    var d := Debited(l, t);
    var sender := AccountOf(l, t.sender);
    assert Sub32(sender.balance, t.value) == sender.balance - t.value;
    TotalUpdate(l, t.sender, AccountOf(d, t.sender));
    assert Total(d) == Total(l) - t.value;
    BalanceBelowTotal(d, t.receiver);
    var receiver := AccountOf(d, t.receiver);
    assert Add32(receiver.balance, t.value) == receiver.balance + t.value;
    TotalUpdate(d, t.receiver, AccountOf(Applied(l, t), t.receiver));
  }

  /** Replaying keeps the total, so no balance wraps anywhere along the way. */
  lemma {:induction false} ReplayConserves(l: Accounts, txs: seq<SignedTransaction>)
    requires Total(l) < LIMIT32 && Replay(l, txs).Some?
    ensures Total(Replay(l, txs).value) == Total(l)
    decreases |txs|
  {
    if txs != [] {
      TransferIsExact(l, txs[0].transaction);
      ReplayConserves(Applied(l, txs[0].transaction), txs[1..]);
    }
  }

  lemma OfferingTotal(founder: Address)
    ensures Total(InitialOffering(founder)) == OFFERING
  {
    var l := InitialOffering(founder);
    TotalSplit(l, founder);
    assert l - {founder} == map[];
  }

  // ----- nonces

  /** The transactions that a sends, in order. */
  function Sent(txs: seq<SignedTransaction>, a: Address): seq<Transaction> {
    if txs == [] then []
    else (if txs[0].transaction.sender == a then [txs[0].transaction] else []) + Sent(txs[1..], a)
  }

  lemma {:induction false} SentConcat(xs: seq<SignedTransaction>, ys: seq<SignedTransaction>, a: Address)
    ensures Sent(xs + ys, a) == Sent(xs, a) + Sent(ys, a)
  {
    if xs == [] {
      assert xs + ys == ys;
    } else {
      assert (xs + ys)[1..] == xs[1..] + ys;
      SentConcat(xs[1..], ys, a);
    }
  }

  /** The nonces of a sender's transactions go on from n one by one, modulo 2^32. */
  ghost predicate CountsUp(n: u32, sent: seq<Transaction>) {
    forall k :: 0 <= k < |sent| ==> sent[k].accountNonce == (n + k + 1) % LIMIT32
  }

  lemma CountsUpCons(n: u32, t: Transaction, rest: seq<Transaction>)
    requires t.accountNonce == Add32(n, 1) && CountsUp(Add32(n, 1), rest)
    ensures CountsUp(n, [t] + rest)
  {
    forall k | 0 <= k < |rest| + 1 ensures ([t] + rest)[k].accountNonce == (n + k + 1) % LIMIT32 {
      if k > 0 {
        assert ([t] + rest)[k] == rest[k - 1];
        WrapAgain(n, k);
      }
    }
  }

  lemma WrapAgain(n: u32, k: int)
    ensures (Add32(n, 1) + k) % LIMIT32 == (n + k + 1) % LIMIT32
  {
  }

  /** Along a replay each sender's nonces count up, and the state ends with the count. */
  lemma {:induction false} NoncesCountUp(l: Accounts, txs: seq<SignedTransaction>, a: Address)
    requires Replay(l, txs).Some?
    ensures CountsUp(AccountOf(l, a).nonce, Sent(txs, a))
    ensures AccountOf(Replay(l, txs).value, a).nonce == (AccountOf(l, a).nonce + |Sent(txs, a)|) % LIMIT32
    decreases |txs|
  {
    if txs != [] {
      var t := txs[0].transaction;
      var n := AccountOf(l, a).nonce;
      NoncesCountUp(Applied(l, t), txs[1..], a);
      if a == t.sender {
        CountsUpCons(n, t, Sent(txs[1..], a));
        WrapAgain(n, |Sent(txs[1..], a)|);
      }
    }
  }

  lemma SentAt(txs: seq<SignedTransaction>, i: nat)
    requires i < |txs|
    ensures var a := txs[i].transaction.sender;
            |Sent(txs[..i], a)| < |Sent(txs, a)| && Sent(txs, a)[|Sent(txs[..i], a)|] == txs[i].transaction
  {
    var a := txs[i].transaction.sender;
    assert txs == txs[..i] + txs[i..];
    SentConcat(txs[..i], txs[i..], a);
    assert Sent(txs[i..], a)[0] == txs[i].transaction;
  }

  lemma SentGrows(txs: seq<SignedTransaction>, i: nat, j: nat)
    requires i < j <= |txs|
    ensures var a := txs[i].transaction.sender; |Sent(txs[..i], a)| < |Sent(txs[..j], a)|
  {
    var a := txs[i].transaction.sender;
    assert txs[..j] == txs[..i] + txs[i..j];
    SentConcat(txs[..i], txs[i..j], a);
    assert Sent(txs[i..j], a) != [];
  }

  /** No transaction occurs twice in a replayed sequence, unless its sender has sent more than 2^32. */
  lemma NoTransactionTwice(l: Accounts, txs: seq<SignedTransaction>, i: nat, j: nat)
    requires Replay(l, txs).Some? && i < j < |txs|
    requires |Sent(txs, txs[i].transaction.sender)| <= LIMIT32
    ensures txs[i].transaction != txs[j].transaction
  {
    var a := txs[i].transaction.sender;
    if txs[j].transaction.sender == a {
      SentAt(txs, i);
      SentAt(txs, j);
      SentGrows(txs, i, j);
      NoncesCountUp(l, txs, a);
      DistinctResidues(AccountOf(l, a).nonce, |Sent(txs[..i], a)|, |Sent(txs[..j], a)|);
    }
  }

  lemma DistinctResidues(n: nat, x: nat, y: nat)
    requires x < y < x + LIMIT32
    ensures (n + x + 1) % LIMIT32 != (n + y + 1) % LIMIT32
  {
    var u, d := n + x + 1, y - x;
    var r := u % LIMIT32;
    assert (u + d) % LIMIT32 == if r + d < LIMIT32 then r + d else r + d - LIMIT32;
  }
}
