/** The block record of the MGH ledger: transactions, the primitives the
    ledger hashes and verifies with, and the rule that gives a block its
    hash once, when it is built. */
module BlockRecord {

  datatype Option<+T> = None | Some(value: T)

  /** A transaction as the ledger stores it. Transactions admitted to the
      pool carry a signature entry (possibly absent); the genesis and reward
      transactions carry a message instead. */
  datatype Tx = Tx(
    sender: string,
    recipient: string,
    amount: real,
    timestamp: real,
    signature: Option<string>,
    message: Option<string>)

  /** The operations the ledger borrows from libraries and treats as black
      boxes: SHA-256 as a hex digest of a string, JSON serialisation of a
      transaction list with sorted keys, ECDSA verification of a hex
      signature by a hex public key (total: it answers false on malformed
      input instead of failing), and the decimal rendering of an amount. */
  datatype Primitives = Primitives(
    sha256Hex: string -> string,
    jsonDumps: seq<Tx> -> string,
    verifySignature: (string, string, string) -> bool,
    formatAmount: real -> string)

  /** An immutable block. `blockHash` is fixed when the block is built. */
  datatype Block = Block(
    previousBlockHash: string,
    transactions: seq<Tx>,
    nonce: nat,
    miner: string,
    timestamp: real,
    blockHash: string)

  function DigitChar(d: nat): (c: char)
    requires d < 10
    ensures '0' <= c <= '9'
    ensures c as int - '0' as int == d
  {
    ('0' as int + d) as char
  }

  /** The number a string of decimal digits stands for, read left to right. */
  function DigitsValue(s: string): int
    decreases |s|
  {
    if s == [] then 0 else DigitsValue(s[..|s| - 1]) * 10 + (s[|s| - 1] as int - '0' as int)
  }

  /** Python's str() of a non-negative integer: the canonical decimal
      numeral of n, with no leading zero unless n is 0. */
  function NatToString(n: nat): (s: string)
    ensures |s| >= 1
    ensures n < 10 <==> |s| == 1
    ensures forall i :: 0 <= i < |s| ==> '0' <= s[i] <= '9'
    ensures DigitsValue(s) == n
    ensures s[0] == '0' ==> n == 0
    ensures |s| > 1 ==> s[0] != '0'
    decreases n
  {
    if n < 10 then
      assert [DigitChar(n)][..0] == [];
      [DigitChar(n)]
    else
      var p := NatToString(n / 10);
      var c := DigitChar(n % 10);
      assert (p + [c])[..|p|] == p;
      p + [c]
  }

  /** Different numbers print differently: each numeral reads back as the
      number it was printed from. */
  lemma NatToStringInjective(m: nat, n: nat)
    requires NatToString(m) == NatToString(n)
    ensures m == n
  {
    assert m == DigitsValue(NatToString(m)) == DigitsValue(NatToString(n)) == n;
  }

  /** The string a block's hash is taken over: the serialised transactions,
      the previous block's hash and the nonce, joined by " | ". Block
      construction and chain validation both use this one rule. */
  function BlockData(prims: Primitives, txs: seq<Tx>, previousHash: string, nonce: nat): string {
    prims.jsonDumps(txs) + " | " + previousHash + " | " + NatToString(nonce)
  }

  function ComputeHash(prims: Primitives, txs: seq<Tx>, previousHash: string, nonce: nat): string {
    prims.sha256Hex(BlockData(prims, txs, previousHash, nonce))
  }

  /** A block whose stored hash is the hash of its own fields. */
  ghost predicate Sealed(prims: Primitives, b: Block) {
    b.blockHash == ComputeHash(prims, b.transactions, b.previousBlockHash, b.nonce)
  }

  /** Builds a block; the hash is computed here and nowhere else. */
  function NewBlock(prims: Primitives, previousHash: string, txs: seq<Tx>, nonce: nat, miner: string, now: real): (b: Block)
    ensures Sealed(prims, b)
    ensures b.previousBlockHash == previousHash && b.transactions == txs
    ensures b.nonce == nonce && b.miner == miner && b.timestamp == now
  {
    Block(previousHash, txs, nonce, miner, now, ComputeHash(prims, txs, previousHash, nonce))
  }

  /** Every nonce of a mining search hashes a different string. */
  lemma DistinctNoncesDistinctData(prims: Primitives, txs: seq<Tx>, previousHash: string, m: nat, n: nat)
    requires m != n
    ensures BlockData(prims, txs, previousHash, m) != BlockData(prims, txs, previousHash, n)
  {
    var p := prims.jsonDumps(txs) + " | " + previousHash + " | ";
    assert BlockData(prims, txs, previousHash, m)[|p|..] == NatToString(m);
    assert BlockData(prims, txs, previousHash, n)[|p|..] == NatToString(n);
    assert NatToString(m) != NatToString(n) by {
      assert DigitsValue(NatToString(m)) != DigitsValue(NatToString(n));
    }
  }

  /** "0" * d. */
  function Zeros(d: nat): (z: string)
    ensures |z| == d && forall i :: 0 <= i < d ==> z[i] == '0'
  {
    seq(d, _ => '0')
  }

  /** Python's str.startswith. */
  predicate StartsWith(s: string, prefix: string) {
    |prefix| <= |s| && s[..|prefix|] == prefix
  }

  /** The proof-of-work test: the hash starts with `difficulty` zeros. */
  predicate MeetsDifficulty(h: string, difficulty: nat) {
    StartsWith(h, Zeros(difficulty))
  }

  lemma MeetsDifficultyMeansLeadingZeros(h: string, difficulty: nat)
    ensures MeetsDifficulty(h, difficulty) <==>
      difficulty <= |h| && forall i :: 0 <= i < difficulty ==> h[i] == '0'
  {
    if difficulty <= |h| && forall i :: 0 <= i < difficulty ==> h[i] == '0' {
      assert h[..difficulty] == Zeros(difficulty);
    }
    if MeetsDifficulty(h, difficulty) {
      forall i | 0 <= i < difficulty ensures h[i] == '0' {
        assert h[..difficulty][i] == Zeros(difficulty)[i];
      }
    }
  }
}
