// Two concrete runs of a node with the constants of the source: an accepted block that leaves its transaction pending,
// and a miner about to panic.
module Examples {
  import opened Bytes
  import opened Hashes
  import opened Ledger
  import opened Blocks
  import opened Mempools
  import opened Acceptance
  import opened NodeInvariant
  import opened HandlerRuns
  import opened OrphanRuns
  import opened Mining
  import opened Concurrency
  import opened Exchange

  /** A header hash that tells the three blocks of the example apart and meets the difficulty. */
  function HashByNonce(h: Header): H256 {
    H256(Zeros(31) + [h.nonce % 255 + 1])
  }

  function Founder(): Address { Address(Zeros(20)) }

  function Example(): Params {
    SourceParams(HashByNonce, (_: SignedTransaction) => ZERO, (_: SignedTransaction) => 100,
                 (a: H256, b: H256) => a, (t: Transaction, k: seq<byte>, s: seq<byte>) => true, Founder())
  }

  function Payment(): SignedTransaction {
    SignedTransaction(Transaction(Founder(), Founder(), 1, 1), [], [])
  }

  function Middle(): Block {
    Block(Header(HashByNonce(Genesis().header), 1, Difficulty(), 0, ZERO), [])
  }

  function Last(): Block {
    Block(Header(HashByNonce(Middle().header), 2, Difficulty(), 0, ZERO), [Payment()])
  }

  ghost function World(): iset<Block> { iset{Genesis(), Middle(), Last()} }

  /** The node after it received the payment. */
  function Node(): Shared {
    var p := Example();
    Start(p).(pool := Received(p, Start(p).pool, [Payment()]))
  }

  lemma HashesDiffer(a: Header, b: Header)
    ensures HashByNonce(a) == HashByNonce(b) <==> a.nonce % 255 == b.nonce % 255
    ensures HashByNonce(a) != ZERO
  {
    assert HashByNonce(a).bytes[31] == a.nonce % 255 + 1 && HashByNonce(b).bytes[31] == b.nonce % 255 + 1;
    assert ZERO.bytes[31] == 0;
  }

  lemma MeetsDifficulty(h: Header)
    ensures AtMost(HashByNonce(h), Difficulty())
  {
    var (s, t) := (HashByNonce(h).bytes, Difficulty().bytes);
    CmpIsLexicographic(HashByNonce(h), Difficulty());
    assert s[0] == 0 == t[0] && s[1..][0] == 0 && t[1..][0] == 1;
    assert LexCmp(s[1..], t[1..]) == Less;
  }

  lemma ExampleHypotheses()
    ensures Hypotheses(Example(), World())
  {
    var p := Example();
    forall a, b | a in World() && b in World() && Collide(p, a, b) ensures a == b {
      HashesDiffer(a.header, b.header);
    }
    forall a | a in World() ensures p.Hash(a) != p.genesis.Parent() {
      HashesDiffer(a.header, a.header);
    }
  }

  lemma ExampleNode()
    ensures NodeInv(Example(), World(), Node())
    ensures Example().txHash(Payment()) in Node().pool.pending
  {
    var p := Example();
    ExampleHypotheses();
    StartOk(p, World());
    ReceivedKeeps(p, Start(p).pool, [Payment()]);
    PoolChangeKeeps(p, World(), Start(p), Node().pool);
    assert [Payment()][1..] == [];
  }

  lemma PaymentReplays()
    ensures Replay(InitialOffering(Founder()), [Payment()]).Some?
  {
    assert [Payment()][1..] == [];
  }

  lemma MiddleIsAccepted()
    ensures AcceptedAtOnce(Example(), Node(), Middle(), InitialOffering(Founder()))
  {
    HashesDiffer(Middle().header, Genesis().header);
    MeetsDifficulty(Middle().header);
  }

  lemma LastIsOrphan()
    ensures IsChild(Example(), Middle(), Last()) && Screened(Example(), Last())
    ensures Example().Hash(Last()) !in Node().chain.blocks
    ensures Replay(InitialOffering(Founder()), Last().transactions).Some?
  {
    HashesDiffer(Last().header, Genesis().header);
    MeetsDifficulty(Last().header);
    PaymentReplays();
  }

  /** The payment stays pending although the block that holds it was accepted, for the parameters p of a real node. */
  ghost predicate LeftPending(p: Params, w: iset<Block>, sh: Shared, b: Block, o: Block, tx: SignedTransaction) {
    var sh' := Finish(p, sh, Opening(sh, [o, b])).0;
    && Hypotheses(p, w) && NodeInv(p, w, sh) && b in w && o in w
    && p.Hash(o) in sh'.chain.blocks && tx in o.transactions && p.txHash(tx) in sh'.pool.pending
  }

  lemma AcceptedBlockLeftPending()
    ensures LeftPending(Example(), World(), Node(), Middle(), Last(), Payment())
  {
    ExampleHypotheses();
    ExampleNode();
    MiddleIsAccepted();
    LastIsOrphan();
    OrphanTransactionsStay(Example(), World(), Node(), Last(), Middle(), InitialOffering(Founder()));
    assert TxHashes(Example(), Middle().transactions) == {};
    assert Payment() in Last().transactions;
  }

  // ----- a payment from an account that does not exist

  function FromNobody(): SignedTransaction {
    SignedTransaction(Transaction(Address([1] + Zeros(19)), Founder(), 1, 1), [], [])
  }

  function AfterReceipt(): System {
    var s := Initial(Example(), 1);
    s.(shared := s.shared.(pool := Received(Example(), s.shared.pool, [FromNobody()])))
  }

  function AfterLoad(): System {
    AfterReceipt().(miner := Loaded(Example().GenesisHash(), InitialOffering(Founder())))
  }

  function AfterSeal(): System {
    AfterReceipt().(miner := Sealed(Middle(), InitialOffering(Founder())))
  }

  lemma ReceiptOfStranger()
    ensures ReceiveTransactions(Example(), Initial(Example(), 1), AfterReceipt(), [FromNobody()])
    ensures AfterReceipt().shared.pool.pending == map[ZERO := FromNobody()]
  {
    assert [FromNobody()][1..] == [];
  }

  /** The selection neither takes nor evicts the payment, so the miner seals an empty block. */
  lemma StrangerIsSkipped()
    ensures Filled(Example(), [FromNobody()], EmptyDraft(InitialOffering(Founder()), AfterReceipt().shared.pool))
         == EmptyDraft(InitialOffering(Founder()), AfterReceipt().shared.pool)
  {
    var d := EmptyDraft(InitialOffering(Founder()), AfterReceipt().shared.pool);
    assert FromNobody().transaction.sender.bytes[0] == 1 && Founder().bytes[0] == 0;
    assert Considered(Example(), FromNobody(), d) == d;
    assert [FromNobody()][1..] == [];
  }

  lemma EmptyBlockIsSealed()
    ensures MinerSeal(Example(), World(), AfterLoad(), AfterSeal(), [FromNobody()], 1, 0)
  {
    ReceiptOfStranger();
    StrangerIsSkipped();
    MeetsDifficulty(Middle().header);
    assert Mined(Example(), Example().GenesisHash(), [], 1, 0) == Middle();
    assert Enumerates(Example(), AfterLoad().shared.pool, [FromNobody()]);
  }

  /** One verifying transaction from an address without an account, and the next block found dooms the miner. */
  lemma DoomIsReachable()
    ensures Leads(Example(), World(), Initial(Example(), 1), AfterSeal()) && Doomed(AfterSeal())
  {
    var p, w, s1 := Example(), World(), AfterReceipt();
    var s2 := s1.(miner := Chose(p.GenesisHash()));
    ReceiptOfStranger();
    EmptyBlockIsSealed();
    assert MinerChoose(s1, s2) && MinerLoad(s2, AfterLoad());
    LeadsByStep(p, w, Initial(p, 1), s1);
    LeadsByStep(p, w, s1, s2);
    LeadsOn(p, w, Initial(p, 1), s1, s2);
    LeadsByStep(p, w, s2, AfterLoad());
    LeadsOn(p, w, Initial(p, 1), s2, AfterLoad());
    LeadsByStep(p, w, AfterLoad(), AfterSeal());
    LeadsOn(p, w, Initial(p, 1), AfterLoad(), AfterSeal());
    assert FromNobody().transaction.sender.bytes[0] == 1 && Founder().bytes[0] == 0;
    assert ZERO in AfterSeal().shared.pool.pending;
  }
}
