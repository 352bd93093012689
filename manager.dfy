/** The blockchain manager: one chain and one pool of pending transactions,
    updated in place by admission and mining, read by the balance query,
    the validator and the status getters. */
module Manager {
  import opened BlockRecord
  import opened Ledger

  datatype AdmitError =
    | InvalidAmount
    | InsufficientBalance(current: real, requested: real)
    | MissingSignature
    | InvalidSignature
    | PoolFull

  datatype Admission = Added(pendingCount: nat) | Rejected(error: AdmitError)

  datatype MineOutcome =
    | Mined(blockHash: string, nonce: nat, difficulty: nat, transactionsCount: nat, miningReward: real)
    | NotEnoughTransactions
    | MiningExhausted

  datatype Validation = ChainOk | BrokenLink(index: nat) | HashMismatch(index: nat)

  datatype MiningInfo = MiningInfo(
    previousBlockHash: string,
    pendingTransactions: seq<Tx>,
    difficulty: nat,
    minTransactions: nat,
    maxTransactions: nat)

  datatype Status = Status(
    chainLength: nat,
    pendingCount: nat,
    difficulty: nat,
    lastBlockHash: Option<string>,
    miningReward: real)

  /** A signature counts as given unless it is absent or empty. */
  predicate HasSignature(signature: Option<string>) {
    signature.Some? && signature.value != ""
  }

  /** The text a sender signs: sender, recipient and amount run together. */
  function SigningMessage(prims: Primitives, sender: string, recipient: string, amount: real): string {
    sender + recipient + prims.formatAmount(amount)
  }

  class BlockchainManager {
    var chain: seq<Block>
    var pending: seq<Tx>
    const prims: Primitives

    /** The invariant every public operation keeps: the chain is non-empty
        and valid, the pool is within its bound and holds only positive
        amounts, and no address but the minting one is overdrawn. */
    ghost predicate Valid()
      reads this
    {
      |chain| >= 1 &&
      ChainValid(prims, chain) &&
      |pending| <= MaxTransactionsPerBlock &&
      AllPositive(pending) &&
      Solvent(chain, pending)
    }

    function LastHash(): string
      reads this
      requires |chain| >= 1
    {
      chain[|chain| - 1].blockHash
    }

    constructor (prims: Primitives, now: real)
      ensures this.prims == prims
      ensures chain == [GenesisBlock(prims, now)] && pending == []
      ensures chain[0].previousBlockHash == GenesisMarker && chain[0].nonce == 0 && chain[0].miner == GenesisName
      ensures chain[0].transactions == [Tx(Mint, GenesisName, 0.0, now, None, Some("Genesis Transaction"))]
      ensures Sealed(prims, chain[0])
      ensures Valid()
    {
      this.prims := prims;
      chain := [];
      pending := [];
      new;
      CreateGenesisBlock(now);
      forall a | a != Mint ensures Balance(chain, pending, a) >= 0.0 {
        GenesisBalancesZero(prims, now, a);
      }
    }

    /** Appends the genesis block (on a fresh manager this is block 0). */
    method CreateGenesisBlock(now: real)
      modifies this
      ensures chain == old(chain) + [GenesisBlock(prims, now)]
      ensures pending == old(pending)
    {
      chain := chain + [GenesisBlock(prims, now)];
    }

    /** Replays the chain, then charges the sender's pending transactions. */
    method GetBalance(address: string) returns (balance: real)
      ensures balance == Balance(chain, pending, address)
    {
      balance := 0.0;
      for i := 0 to |chain|
        invariant balance == ChainFlow(chain[..i], address)
      {
        var txs := chain[i].transactions;
        for j := 0 to |txs|
          invariant balance == ChainFlow(chain[..i], address) + Flow(txs[..j], address)
        {
          var tx := txs[j];
          if tx.sender == address {
            balance := balance - tx.amount;
          }
          if tx.recipient == address {
            balance := balance + tx.amount;
          }
          assert txs[..j + 1][..j] == txs[..j];
        }
        assert txs[..|txs|] == txs;
        assert chain[..i + 1][..i] == chain[..i];
      }
      assert chain[..|chain|] == chain;
      for k := 0 to |pending|
        invariant balance == ChainFlow(chain, address) - Outgoing(pending[..k], address)
      {
        var tx := pending[k];
        if tx.sender == address {
          balance := balance - tx.amount;
        }
        assert pending[..k + 1][..k] == pending[..k];
      }
      assert pending[..|pending|] == pending;
    }

    /** Admits a transaction to the pool. The checks run in a fixed order and
        the first one that fails is reported; a rejection changes nothing. */
    method AddTransaction(sender: string, recipient: string, amount: real, signature: Option<string>, now: real)
      returns (r: Admission)
      requires Valid()
      modifies this
      ensures Valid()
      ensures chain == old(chain)
      ensures amount <= 0.0 ==> r == Rejected(InvalidAmount)
      ensures amount > 0.0 && sender != Mint ==>
        var current := old(Balance(chain, pending, sender));
        if current < amount then r == Rejected(InsufficientBalance(current, amount))
        else if !HasSignature(signature) then r == Rejected(MissingSignature)
        else if !prims.verifySignature(sender, signature.value, SigningMessage(prims, sender, recipient, amount))
        then r == Rejected(InvalidSignature)
        else if old(|pending|) >= MaxTransactionsPerBlock then r == Rejected(PoolFull)
        else r == Added(old(|pending|) + 1)
      ensures amount > 0.0 && sender == Mint ==>
        r == if old(|pending|) >= MaxTransactionsPerBlock then Rejected(PoolFull) else Added(old(|pending|) + 1)
      ensures r.Rejected? ==> pending == old(pending)
      ensures r.Added? ==> pending == old(pending) + [Tx(sender, recipient, amount, now, signature, None)]
      ensures r.Added? && sender != Mint ==>
        Balance(chain, pending, sender) == old(Balance(chain, pending, sender)) - amount >= 0.0
    {
      if amount <= 0.0 {
        return Rejected(InvalidAmount);
      }
      if sender != Mint {
        var currentBalance := GetBalance(sender);
        if currentBalance < amount {
          return Rejected(InsufficientBalance(currentBalance, amount));
        }
        if !HasSignature(signature) {
          return Rejected(MissingSignature);
        }
        var transactionData := SigningMessage(prims, sender, recipient, amount);
        if !prims.verifySignature(sender, signature.value, transactionData) {
          return Rejected(InvalidSignature);
        }
      }
      var transaction := Tx(sender, recipient, amount, now, signature, None);
      if |pending| >= MaxTransactionsPerBlock {
        return Rejected(PoolFull);
      }
      ghost var before := pending;
      pending := pending + [transaction];
      forall a | a != Mint ensures Balance(chain, pending, a) >= 0.0 {
        BalanceAfterAdmission(chain, before, transaction, a);
      }
      BalanceAfterAdmission(chain, before, transaction, sender);
      return Added(|pending|);
    }

    /** Searches nonces upwards from 0 for a block over the whole pool whose
        hash meets the difficulty; on success appends it and reseeds the pool
        with the miner's reward. Failure changes nothing. */
    method MineBlock(miner: string, now: real) returns (r: MineOutcome)
      requires Valid()
      modifies this
      ensures Valid()
      ensures r == NotEnoughTransactions <==> old(|pending|) < MinTransactionsPerBlock
      ensures r == MiningExhausted <==>
        old(|pending|) >= MinTransactionsPerBlock &&
        forall n :: 0 <= n < MaxAttempts ==>
          !MeetsDifficulty(ComputeHash(prims, old(pending), old(LastHash()), n), Difficulty)
      ensures !r.Mined? ==> chain == old(chain) && pending == old(pending)
      ensures r.Mined? ==>
        r.nonce < MaxAttempts &&
        chain == old(chain) + [NewBlock(prims, old(LastHash()), old(pending), r.nonce, miner, now)] &&
        r.blockHash == LastHash() &&
        MeetsDifficulty(r.blockHash, Difficulty) &&
        (forall n :: 0 <= n < r.nonce ==>
          !MeetsDifficulty(ComputeHash(prims, old(pending), old(LastHash()), n), Difficulty)) &&
        pending == [RewardTx(miner, now)] &&
        r.difficulty == Difficulty &&
        r.transactionsCount == old(|pending|) &&
        r.miningReward == MiningReward
    {
      if |pending| < MinTransactionsPerBlock {
        return NotEnoughTransactions;
      }
      var previousHash := chain[|chain| - 1].blockHash;
      var nonce := 0;
      while nonce < MaxAttempts
        invariant nonce <= MaxAttempts
        invariant chain == old(chain) && pending == old(pending)
        invariant forall n :: 0 <= n < nonce ==>
          !MeetsDifficulty(ComputeHash(prims, pending, previousHash, n), Difficulty)
      {
        var block := NewBlock(prims, previousHash, pending, nonce, miner, now);
        if MeetsDifficulty(block.blockHash, Difficulty) {
          ghost var oldChain, oldPending := chain, pending;
          chain := chain + [block];
          var reward := RewardTx(miner, now);
          pending := [reward];
          ExtendKeepsValid(prims, oldChain, block);
          assert MeetsDifficulty(ComputeHash(prims, old(pending), old(LastHash()), nonce), Difficulty);
          forall a | a != Mint ensures Balance(chain, pending, a) >= 0.0 {
            assert Balance(oldChain, oldPending, a) >= 0.0;
            BalanceAfterMining(oldChain, block, pending, a);
            IncomingNonNegative(oldPending, a);
            assert Outgoing(pending, a) == 0.0 by {
              assert pending[..0] == [];
            }
          }
          return Mined(block.blockHash, nonce, Difficulty, |block.transactions|, MiningReward);
        }
        nonce := nonce + 1;
      }
      return MiningExhausted;
    }

    /** What an outside miner needs to build the next block. */
    method GetMiningInfo() returns (info: MiningInfo)
      requires Valid()
      ensures info.previousBlockHash == LastHash() && info.pendingTransactions == pending
      ensures info.difficulty == Difficulty
      ensures info.minTransactions == MinTransactionsPerBlock && info.maxTransactions == MaxTransactionsPerBlock
    {
      info := MiningInfo(chain[|chain| - 1].blockHash, pending, Difficulty,
                         MinTransactionsPerBlock, MaxTransactionsPerBlock);
    }

    method GetStatus() returns (status: Status)
      ensures status.chainLength == |chain| && status.pendingCount == |pending|
      ensures status.lastBlockHash == if |chain| > 0 then Some(LastHash()) else None
      ensures status.difficulty == Difficulty && status.miningReward == MiningReward
    {
      var last := if |chain| > 0 then Some(chain[|chain| - 1].blockHash) else None;
      status := Status(|chain|, |pending|, Difficulty, last, MiningReward);
    }

    /** Walks the chain from index 1, checking each block's link before its
        recomputed hash, and reports the first failure. */
    method ValidateChain() returns (r: Validation)
      ensures r == ChainOk <==> ChainValid(prims, chain)
      ensures Valid() ==> r == ChainOk
      ensures r.BrokenLink? ==>
        1 <= r.index < |chain| && OkBelow(prims, chain, r.index) &&
        chain[r.index].previousBlockHash != chain[r.index - 1].blockHash
      ensures r.HashMismatch? ==>
        1 <= r.index < |chain| && OkBelow(prims, chain, r.index) &&
        chain[r.index].previousBlockHash == chain[r.index - 1].blockHash &&
        !Sealed(prims, chain[r.index])
    {
      var i := 1;
      while i < |chain|
        invariant 1 <= i && OkBelow(prims, chain, i)
      {
        var current := chain[i];
        var previous := chain[i - 1];
        if current.previousBlockHash != previous.blockHash {
          assert !BlockOk(prims, chain, i);
          return BrokenLink(i);
        }
        var calculatedHash := ComputeHash(prims, current.transactions, current.previousBlockHash, current.nonce);
        if calculatedHash != current.blockHash {
          assert !BlockOk(prims, chain, i);
          return HashMismatch(i);
        }
        i := i + 1;
      }
      return ChainOk;
    }
  }

  /** A client run: a fresh ledger cannot mine, refuses a transfer from an
      empty account, accepts a minted transaction, and validates after
      mining whether or not the search succeeded. */
  method ClientRun(prims: Primitives, now: real, miner: string)
  {
    var m := new BlockchainManager(prims, now);
    var mined := m.MineBlock(miner, now);
    assert mined == NotEnoughTransactions;
    GenesisBalancesZero(prims, now, "alice");
    var refused := m.AddTransaction("alice", "bob", 5.0, Some("ab"), now);
    assert refused == Rejected(InsufficientBalance(0.0, 5.0));
    var negative := m.AddTransaction(Mint, miner, -5.0, None, now);
    assert negative == Rejected(InvalidAmount);
    var minted := m.AddTransaction(Mint, miner, 5.0, None, now);
    assert minted == Added(1);
    mined := m.MineBlock(miner, now);
    var verdict := m.ValidateChain();
    assert verdict == ChainOk;
  }
}
