# MGH ledger engine in Dafny

This project models the ledger engine of the MGH coin blockchain (`blockchain.py`).
The engine has two parts:

- A **block record** (`MGHBlockchain`). It holds the previous block's hash, a list of
  transactions, a nonce, a miner address and a timestamp. Its hash is computed once, when
  the block is built: SHA-256 of the sorted-key JSON of the transactions, then `" | "`, the
  previous hash, `" | "` and the nonce in decimal.
- A **manager** (`BlockchainManager`). It owns the chain and the pool of pending
  transactions, and provides these operations:
  - genesis creation;
  - balance by full replay;
  - admission of transactions, with ordered checks and a pool of at most 3;
  - a sequential proof-of-work nonce search that appends a block and reseeds the pool with
    the miner's reward;
  - a validator that rechecks every link and recomputes every hash from block 1 on.

Layout:

- `block.dfy` (module `BlockRecord`): transactions, blocks, the hash rule, and the
  difficulty test. SHA-256, JSON serialisation, signature verification and the decimal
  rendering of an amount are the function-valued fields of the datatype `Primitives`.
  Every result holds for all such functions; only determinism is used.
- `ledger.dfy` (module `Ledger`): the specification.
  - `Balance` replays the chain and charges pending outgoing transactions.
  - `ChainValid` is the condition the validator checks.
  - The module also fixes the genesis and reward transactions and the constants: difficulty 2,
    reward 1, at most 3 and at least 1 pending transactions per block, 1,000,000 attempts.
  - Lemmas relate balances before and after admission and mining, and describe which
    tampering validation detects.
- `manager.dfy` (module `Manager`): the class `BlockchainManager`. Its fields `chain` and
  `pending` are updated in place.
  - Its invariant `Valid()` says:
    - the chain is non-empty and valid;
    - the pool has at most 3 entries, all with positive amounts;
    - no address other than the minting sender `"0"` has a negative balance.
  - The constructor establishes `Valid()`, and admission and mining keep it. So a chain built
    from genesis by any sequence of successful operations always passes `ValidateChain`.

Points where the code's behaviour is easy to misread:

- The validator starts at index 1, so block 0's stored hash is never recomputed. A genesis
  block with rewritten transactions that keeps its old stored hash still passes
  (`Ledger.GenesisNotRechecked`).
- Python's `not signature` treats an empty string like a missing signature. The model does
  the same (`Manager.HasSignature`).
- A minted transaction (sender `"0"`) is stored with whatever signature was passed,
  including none. Such transactions skip the balance and signature checks, but not the
  amount and pool-size checks.

## Model

| member | source | states |
|---|---|---|
| `BlockRecord.NewBlock` | blockchain.py:8-26 | the block keeps the given fields, and its stored hash is SHA-256 of the serialised transactions, previous hash and nonce joined by `" \| "`, so the block is sealed |
| `BlockRecord.NatToString` | blockchain.py:24 | `str(nonce)` is the canonical decimal numeral of the nonce: non-empty, all digits, its digits read back as the nonce (`DigitsValue(s) == n`), no leading zero unless the nonce is 0, one digit iff the nonce is below 10 |
| `BlockRecord.NatToStringInjective` | blockchain.py:24 | different nonces print as different strings (a consequence of the read-back property) |
| `BlockRecord.DistinctNoncesDistinctData` | blockchain.py:135-139 | for a fixed pool and previous hash, every nonce the search tries produces a different hashed string, so no attempt repeats another |
| `BlockRecord.Zeros` | blockchain.py:142 | `"0" * difficulty` has length `difficulty` and holds only `'0'` |
| `BlockRecord.MeetsDifficultyMeansLeadingZeros` | blockchain.py:142 | a hash passes the `startswith` test iff it is at least `difficulty` long and its first `difficulty` characters are `'0'` |
| `Ledger.FlowIsIncomingMinusOutgoing` | blockchain.py:61-66 | replaying a transaction list for an address gives what it received minus what it sent |
| `Ledger.IncomingNonNegative` | blockchain.py:65-66 | if every amount is positive, which admission enforces, an address's incoming total is non-negative |
| `Ledger.BalanceAfterAdmission` | blockchain.py:69-71 | appending a transaction to the pool lowers the sender's balance by its amount and changes no other address's balance |
| `Ledger.BalanceAfterMining` | blockchain.py:144-156 | after the pool becomes a block and the pool is replaced, each address's balance is the old chain flow plus the block's incoming minus its outgoing minus the new pool's outgoing |
| `Ledger.GenesisBalancesZero` | blockchain.py:43-55 | with only the genesis block and an empty pool, every address has balance 0 |
| `Ledger.ExtendKeepsValid` | blockchain.py:142-144 | appending a sealed block that links to the last block keeps a valid chain valid |
| `Ledger.TamperingDetected` | blockchain.py:194-214 | replacing block i ≥ 1 leaves the chain valid iff the forgery links to block i-1, its stored hash recomputes, and (unless it is last) it keeps the hash block i+1 links to |
| `Ledger.GenesisNotRechecked` | blockchain.py:194 | replacing block 0 with any block that keeps its hash leaves a valid chain valid: the genesis hash is never recomputed |
| `Manager.BlockchainManager.constructor` | blockchain.py:30-41 | a fresh manager has an empty pool and exactly one block: previous hash `"Genesis Block"`, nonce 0, miner `"Genesis"`, one transaction from `"0"` to `"Genesis"` of amount 0; the block is sealed and the invariant holds |
| `Manager.BlockchainManager.CreateGenesisBlock` | blockchain.py:43-55 | appends the genesis block to the chain and leaves the pool unchanged |
| `Manager.BlockchainManager.GetBalance` | blockchain.py:57-73 | the result is the replay balance: every chain transaction's inflow minus outflow, minus the address's pending outgoing amounts; no state changes |
| `Manager.BlockchainManager.AddTransaction` | blockchain.py:75-118 | the first failing check is reported, in this order: non-positive amount; then, for senders other than `"0"`, balance below amount (with both values), missing or empty signature, signature rejected; then pool full. A rejection changes nothing. Success appends exactly one transaction to the pool and leaves the chain unchanged. The pool stays at most 3. A non-mint sender's balance drops by exactly the amount and stays ≥ 0 |
| `Manager.BlockchainManager.MineBlock` | blockchain.py:120-170 | with fewer than 1 pending transaction, or no nonce below 1,000,000 meeting the difficulty, it returns the matching error and changes nothing. Otherwise it appends one sealed block that links to the old last hash and holds the old pool. That block uses the smallest nonce whose hash starts with 2 zeros, and the pool becomes exactly the miner's reward of 1. The invariant, including chain validity, is kept |
| `Manager.BlockchainManager.GetMiningInfo` | blockchain.py:172-180 | reports the hash the next block must link to, the pool a mined block will hold, the difficulty and the pool bounds |
| `Manager.BlockchainManager.GetStatus` | blockchain.py:182-190 | reports chain length, pool size, difficulty and reward; the last hash is present iff the chain is non-empty |
| `Manager.BlockchainManager.ValidateChain` | blockchain.py:192-216 | succeeds iff every block from index 1 links to its predecessor and its hash recomputes. Otherwise it reports the first failing index, and a broken link wins over a hash mismatch at the same index. A manager satisfying the invariant always validates |

## Left out

- `wallet.py` key generation, key export, signing and the ECDSA internals are not modelled.
  Verification is the parameter `Primitives.verifySignature`, a total boolean function; the
  source's catch-all makes it total.
- `app.py` (HTTP routes, request models, status codes, the block listing views) is not part
  of this model.
- SHA-256 and `json.dumps(..., sort_keys=True)` are uninterpreted function parameters, so
  nothing depends on their internals. For the same reason the model cannot show that
  tampering a block's contents changes its hash: `Ledger.TamperingDetected` leaves the
  collision case open.
- Amounts and timestamps are exact `real`s. Python float rounding is not modelled, and
  Python's `str()` of a float in the signed message is the parameter
  `Primitives.formatAmount`.
- NaN and infinite amounts are outside the model. `amount: float` admits them, and they
  behave differently: NaN passes both `amount <= 0` and `current_balance < amount`
  (blockchain.py:80, 86). A sender can therefore get a signed NaN transfer admitted, and
  from then on their balance is NaN and never fails the balance check. A minting sender
  `"0"` can add `+inf` without any check. The admission invariants in `Valid()` hold only
  for finite amounts: every pending amount is positive, and no address other than `"0"` is
  overdrawn.
- `time.time()` is the parameter `now`, read once per operation, but the source reads the
  clock several times:
  - The constructor uses one `now` for two reads: the genesis transaction's timestamp
    (blockchain.py:49) and the genesis block's own timestamp (blockchain.py:15).
  - In `MineBlock`, every candidate block in the nonce loop reads the clock
    (blockchain.py:15 via 137), and so does the reward transaction (blockchain.py:151).
    The model gives the appended block and the reward the same `now`.
- The human-readable result messages are replaced by error and result constructors that
  carry the same values (current balance and requested amount, pending count, mined-block
  details).
- Concurrency is not modelled. `blockchain.py` takes no locks, and the HTTP layer runs its
  plain `def` routes on a worker thread pool. Two admissions can therefore interleave
  between the balance read (blockchain.py:85-86) and the append (blockchain.py:114), which
  allows a double spend. The model treats each operation as atomic, so it does not capture
  interleaved admissions or mining.
- Zero-sum conservation of balances across all addresses is not modelled, because it is a
  sum over an unbounded set of addresses.
