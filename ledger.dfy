/** What the ledger means: balances obtained by replaying every transaction,
    the chain-validity condition the validator checks, and the fixed genesis
    and reward transactions. The manager's methods are proved against these
    definitions. */
module Ledger {
  import opened BlockRecord

  /** The reserved sender of system-minted transactions. */
  const Mint: string := "0"
  const GenesisMarker: string := "Genesis Block"
  const GenesisName: string := "Genesis"

  const Difficulty: nat := 2
  const MiningReward: real := 1.0
  const MaxTransactionsPerBlock: nat := 3
  const MinTransactionsPerBlock: nat := 1
  const MaxAttempts: nat := 1000000

  function GenesisTx(now: real): Tx {
    Tx(Mint, GenesisName, 0.0, now, None, Some("Genesis Transaction"))
  }

  function GenesisBlock(prims: Primitives, now: real): Block {
    NewBlock(prims, GenesisMarker, [GenesisTx(now)], 0, GenesisName, now)
  }

  function RewardTx(miner: string, now: real): Tx {
    Tx(Mint, miner, MiningReward, now, None, Some("Mining Reward"))
  }

  // ---------------------------------------------------------------------
  // Balances by replay

  /** What one transaction does to the balance of `a`. */
  function Delta(t: Tx, a: string): real {
    (if t.recipient == a then t.amount else 0.0) - (if t.sender == a then t.amount else 0.0)
  }

  function Flow(txs: seq<Tx>, a: string): real
    decreases |txs|
  {
    if txs == [] then 0.0 else Flow(txs[..|txs| - 1], a) + Delta(txs[|txs| - 1], a)
  }

  function Incoming(txs: seq<Tx>, a: string): real
    decreases |txs|
  {
    if txs == [] then 0.0
    else Incoming(txs[..|txs| - 1], a) + (if txs[|txs| - 1].recipient == a then txs[|txs| - 1].amount else 0.0)
  }

  function Outgoing(txs: seq<Tx>, a: string): real
    decreases |txs|
  {
    if txs == [] then 0.0
    else Outgoing(txs[..|txs| - 1], a) + (if txs[|txs| - 1].sender == a then txs[|txs| - 1].amount else 0.0)
  }

  function ChainFlow(chain: seq<Block>, a: string): real
    decreases |chain|
  {
    if chain == [] then 0.0 else ChainFlow(chain[..|chain| - 1], a) + Flow(chain[|chain| - 1].transactions, a)
  }

  /** The balance of `a`: everything it received minus everything it sent
      on the chain, minus what it has already committed in the pool. */
  function Balance(chain: seq<Block>, pending: seq<Tx>, a: string): real {
    ChainFlow(chain, a) - Outgoing(pending, a)
  }

  predicate AllPositive(txs: seq<Tx>) {
    forall i :: 0 <= i < |txs| ==> txs[i].amount > 0.0
  }

  /** Net flow is what came in minus what went out. */
  lemma {:induction false} FlowIsIncomingMinusOutgoing(txs: seq<Tx>, a: string)
    ensures Flow(txs, a) == Incoming(txs, a) - Outgoing(txs, a)
    decreases |txs|
  {
    if txs != [] {
      FlowIsIncomingMinusOutgoing(txs[..|txs| - 1], a);
    }
  }

  lemma {:induction false} IncomingNonNegative(txs: seq<Tx>, a: string)
    requires AllPositive(txs)
    ensures Incoming(txs, a) >= 0.0
    decreases |txs|
  {
    if txs != [] {
      var init := txs[..|txs| - 1];
      assert AllPositive(init) by {
        forall i | 0 <= i < |init| ensures init[i].amount > 0.0 {
          assert init[i] == txs[i];
        }
      }
      IncomingNonNegative(init, a);
    }
  }

  /** Admitting `t` to the pool lowers the sender's balance by its amount
      and leaves every other address's balance as it was. */
  lemma BalanceAfterAdmission(chain: seq<Block>, pending: seq<Tx>, t: Tx, a: string)
    ensures Balance(chain, pending + [t], a) ==
      Balance(chain, pending, a) - (if t.sender == a then t.amount else 0.0)
  {
    assert (pending + [t])[..|pending|] == pending;
  }

  /** Mining moves the pool into a block and reseeds the pool: senders were
      already charged while their transactions were pending, so each address
      gains what the block pays it and pays what the new pool charges it. */
  lemma BalanceAfterMining(chain: seq<Block>, b: Block, pool: seq<Tx>, a: string)
    ensures Balance(chain + [b], pool, a) ==
      ChainFlow(chain, a) + Incoming(b.transactions, a) - Outgoing(b.transactions, a) - Outgoing(pool, a)
  {
    assert (chain + [b])[..|chain|] == chain;
    FlowIsIncomingMinusOutgoing(b.transactions, a);
  }

  /** Only the reserved minting sender may hold a negative balance. */
  ghost predicate Solvent(chain: seq<Block>, pending: seq<Tx>) {
    forall a :: a != Mint ==> Balance(chain, pending, a) >= 0.0
  }

  /** Nobody holds anything in a ledger that has only the genesis block. */
  lemma GenesisBalancesZero(prims: Primitives, now: real, a: string)
    ensures Balance([GenesisBlock(prims, now)], [], a) == 0.0
  {
    var g := GenesisBlock(prims, now);
    assert [g][..0] == [];
    assert g.transactions[..0] == [];
    assert Flow(g.transactions, a) == Delta(GenesisTx(now), a) == 0.0;
    assert ChainFlow([g], a) == ChainFlow([], a) + Flow(g.transactions, a);
  }

  // ---------------------------------------------------------------------
  // Chain validity

  /** Block `i` links to its predecessor and its stored hash recomputes. */
  ghost predicate BlockOk(prims: Primitives, chain: seq<Block>, i: nat)
    requires 1 <= i < |chain|
  {
    chain[i].previousBlockHash == chain[i - 1].blockHash && Sealed(prims, chain[i])
  }

  /** Every block from index 1 up to (not including) `n` is ok. */
  ghost predicate OkBelow(prims: Primitives, chain: seq<Block>, n: nat) {
    forall j :: 1 <= j < |chain| && j < n ==> BlockOk(prims, chain, j)
  }

  /** The condition validation checks. Block 0 is never rechecked. */
  ghost predicate ChainValid(prims: Primitives, chain: seq<Block>) {
    OkBelow(prims, chain, |chain|)
  }

  /** Appending a sealed block that links to the last one keeps a chain valid. */
  lemma ExtendKeepsValid(prims: Primitives, chain: seq<Block>, b: Block)
    requires |chain| >= 1 && ChainValid(prims, chain)
    requires b.previousBlockHash == chain[|chain| - 1].blockHash && Sealed(prims, b)
    ensures ChainValid(prims, chain + [b])
  {
    var c := chain + [b];
    forall j | 1 <= j < |c| ensures BlockOk(prims, c, j) {
      if j < |chain| {
        assert BlockOk(prims, chain, j);
        assert c[j] == chain[j] && c[j - 1] == chain[j - 1];
      }
    }
  }

  /** Tampering with block i >= 1 passes validation only if the forged block
      still links to its predecessor, its stored hash recomputes (a hash
      collision, if its contents changed) and, unless it is the last block,
      it keeps the hash its successor links to. */
  lemma TamperingDetected(prims: Primitives, chain: seq<Block>, i: nat, forged: Block)
    requires ChainValid(prims, chain) && 1 <= i < |chain|
    ensures ChainValid(prims, chain[i := forged]) <==>
      forged.previousBlockHash == chain[i - 1].blockHash &&
      Sealed(prims, forged) &&
      (i + 1 < |chain| ==> forged.blockHash == chain[i].blockHash)
  {
    var c := chain[i := forged];
    if forged.previousBlockHash == chain[i - 1].blockHash && Sealed(prims, forged) &&
       (i + 1 < |chain| ==> forged.blockHash == chain[i].blockHash) {
      forall j | 1 <= j < |c| ensures BlockOk(prims, c, j) {
        if j != i {
          assert BlockOk(prims, chain, j);
        }
      }
    } else {
      if forged.previousBlockHash != chain[i - 1].blockHash || !Sealed(prims, forged) {
        assert !BlockOk(prims, c, i);
      } else {
        assert BlockOk(prims, chain, i + 1);
        assert !BlockOk(prims, c, i + 1);
      }
    }
  }

  /** The validator never recomputes the genesis hash: any block that keeps
      the genesis hash, whatever its transactions, passes in its place. */
  lemma GenesisNotRechecked(prims: Primitives, chain: seq<Block>, forged: Block)
    requires |chain| >= 1 && ChainValid(prims, chain)
    requires forged.blockHash == chain[0].blockHash
    ensures ChainValid(prims, chain[0 := forged])
  {
    var c := chain[0 := forged];
    forall j | 1 <= j < |c| ensures BlockOk(prims, c, j) {
      assert BlockOk(prims, chain, j);
    }
  }
}
