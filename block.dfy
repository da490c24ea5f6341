/** The first draft of the chain, without transactions: blocks carry an arbitrary
    JSON payload (index.ts, lines 3-81). */
module Blocks {
  import opened JsText
  import opened Crypto

  /** The values a block holds at one moment. */
  datatype BlockRecord = BlockRecord(
    index: int,
    timestamp: int,
    data: Json,
    previousHash: string,
    hash: string,
    nonce: nat)

  /** `index + previousHash + timestamp + JSON.stringify(data) + nonce`, with the
      nonce already rendered as text. */
  function BlockText(p: Primitives, index: int, previousHash: string, timestamp: int,
                     data: Json, nonce: string): string {
    NumStr(index) + previousHash + NumStr(timestamp) + p.stringify(data) + nonce
  }

  /** calculateHash of `b` with its nonce replaced by `n`. */
  function DigestAt(p: Primitives, b: BlockRecord, n: nat): string {
    p.digest(BlockText(p, b.index, b.previousHash, b.timestamp, b.data, NumStr(n)))
  }

  /** calculateHash of the block's current fields. */
  function Computed(p: Primitives, b: BlockRecord): string {
    DigestAt(p, b, b.nonce)
  }

  /** The hash the constructor stores: computed before `nonce` is assigned, so the
      nonce enters the text as "undefined". */
  function ConstructorDigest(p: Primitives, index: int, previousHash: string, timestamp: int, data: Json): string {
    p.digest(BlockText(p, index, previousHash, timestamp, data, Undefined))
  }

  /** What isChainValid demands of `current`, the block after `previous`. */
  predicate Linked(p: Primitives, previous: BlockRecord, current: BlockRecord) {
    current.hash == Computed(p, current) && current.previousHash == previous.hash
  }

  /** isChainValid: every block after the genesis block is linked to its predecessor. */
  predicate ValidBlocks(p: Primitives, bs: seq<BlockRecord>) {
    forall k :: 1 <= k < |bs| ==> Linked(p, bs[k - 1], bs[k])
  }

  /** Appending a block keeps a chain valid exactly when the block is linked to the
      last block of the chain. */
  lemma AppendValid(p: Primitives, bs: seq<BlockRecord>, b: BlockRecord)
    requires |bs| > 0
    ensures ValidBlocks(p, bs + [b]) <==> ValidBlocks(p, bs) && Linked(p, bs[|bs| - 1], b)
  {
    var cs := bs + [b];
    forall k | 0 <= k < |bs| ensures cs[k] == bs[k] { }
    if ValidBlocks(p, bs) && Linked(p, bs[|bs| - 1], b) {
      forall k | 1 <= k < |cs| ensures Linked(p, cs[k - 1], cs[k]) {
        if k < |bs| {
          assert Linked(p, bs[k - 1], bs[k]);
        }
      }
    }
    if ValidBlocks(p, cs) {
      forall k | 1 <= k < |bs| ensures Linked(p, bs[k - 1], bs[k]) {
        assert Linked(p, cs[k - 1], cs[k]);
      }
      assert Linked(p, cs[|bs| - 1], cs[|bs|]);
    }
  }

  /** Tampering: for a collision-free digest and JSON text, giving a block after
      the genesis block of a valid chain other data, without rehashing, makes the
      chain invalid. */
  lemma TamperDetected(p: Primitives, bs: seq<BlockRecord>, i: nat, d: Json)
    requires Injective(p) && ValidBlocks(p, bs)
    requires 1 <= i < |bs| && d != bs[i].data
    ensures !ValidBlocks(p, bs[i := bs[i].(data := d)])
  {
    var b := bs[i];
    var t := b.(data := d);
    var n := NumStr(b.nonce);
    if Computed(p, t) == t.hash {
      assert Linked(p, bs[i - 1], b);
      assert BlockText(p, b.index, b.previousHash, b.timestamp, d, n) ==
             BlockText(p, b.index, b.previousHash, b.timestamp, b.data, n);
      MiddleCancels(NumStr(b.index) + b.previousHash + NumStr(b.timestamp), p.stringify(d), p.stringify(b.data), n);
      assert false;
    }
    assert !Linked(p, bs[i := t][i - 1], bs[i := t][i]);
  }

  /** A block after the genesis block that still carries a hash from the
      constructor (whatever previousHash it was built with) makes the chain
      invalid, for a collision-free digest: the constructor text ends in
      "undefined", calculateHash's in a digit. */
  lemma StaleBlockInvalidates(p: Primitives, bs: seq<BlockRecord>, k: nat, builtWith: string)
    requires Injective(p) && 1 <= k < |bs|
    requires bs[k].hash == ConstructorDigest(p, bs[k].index, builtWith, bs[k].timestamp, bs[k].data)
    ensures !ValidBlocks(p, bs)
  {
    var b := bs[k];
    NumStrShape(b.nonce);
    var stale := BlockText(p, b.index, builtWith, b.timestamp, b.data, Undefined);
    var current := BlockText(p, b.index, b.previousHash, b.timestamp, b.data, NumStr(b.nonce));
    assert stale[|stale| - 1] == 'd';
    assert current[|current| - 1] == NumStr(b.nonce)[|NumStr(b.nonce)| - 1];
    assert stale != current;
    assert !Linked(p, bs[k - 1], b);
  }

  /** The records of a sequence of blocks. */
  function BlockRecords(bs: seq<Block>): (r: seq<BlockRecord>)
    reads bs
    ensures |r| == |bs| && forall i :: 0 <= i < |bs| ==> r[i] == bs[i].Record()
  {
    if bs == [] then [] else BlockRecords(bs[..|bs| - 1]) + [bs[|bs| - 1].Record()]
  }

  class Block {
    const index: int
    const timestamp: int
    var data: Json
    var previousHash: string
    var hash: string
    var nonce: nat

    /** The current values of the fields. */
    function Record(): BlockRecord
      reads this
    {
      BlockRecord(index, timestamp, data, previousHash, hash, nonce)
    }

    /** `new Block(index, timestamp, data, previousHash = '')`. */
    constructor (p: Primitives, index: int, timestamp: int, data: Json, previousHash: string := "")
      ensures Record() == BlockRecord(index, timestamp, data, previousHash,
                                      ConstructorDigest(p, index, previousHash, timestamp, data), 0)
    {
      this.index := index;
      this.timestamp := timestamp;
      this.data := data;
      this.previousHash := previousHash;
      this.hash := ConstructorDigest(p, index, previousHash, timestamp, data);
      this.nonce := 0;
    }

    /** calculateHash of the current fields. */
    function CalculateHash(p: Primitives): string
      reads this
    {
      Computed(p, Record())
    }

    /** mineBlock: raise the nonce one at a time until the hash starts with
        `difficulty` zeros; gives up after `fuel` steps and answers `false` (a
        search still running). Only the nonce and the hash change. */
    method MineBlock(p: Primitives, difficulty: nat, fuel: nat) returns (mined: bool)
      modifies this`nonce, this`hash
      ensures mined == Mined(hash, difficulty)
      ensures old(nonce) <= nonce <= old(nonce) + fuel
      ensures !mined ==> nonce == old(nonce) + fuel
      ensures Mined(old(hash), difficulty) ==> nonce == old(nonce)
      ensures nonce == old(nonce) ==> hash == old(hash)
      ensures nonce != old(nonce) ==> hash == CalculateHash(p)
      ensures forall n :: old(nonce) < n < nonce ==> !Mined(DigestAt(p, old(Record()), n), difficulty)
    {
      ghost var start := Record();
      var steps := 0;
      while !Mined(hash, difficulty)
        invariant steps <= fuel
        invariant nonce == old(nonce) + steps
        invariant data == start.data && previousHash == start.previousHash
        invariant steps == 0 ==> hash == old(hash)
        invariant steps != 0 ==> !Mined(old(hash), difficulty) && hash == DigestAt(p, start, nonce)
        invariant forall n :: old(nonce) < n < nonce ==> !Mined(DigestAt(p, start, n), difficulty)
        decreases fuel - steps
      {
        if steps == fuel {
          return false;
        }
        ghost var tried := nonce;
        assert steps != 0 ==> !Mined(DigestAt(p, start, tried), difficulty);
        nonce := nonce + 1;
        hash := CalculateHash(p);
        forall n | old(nonce) < n < nonce ensures !Mined(DigestAt(p, start, n), difficulty) {
          if n != tried {
            assert old(nonce) < n < tried;
          }
        }
        steps := steps + 1;
      }
      return true;
    }
  }

  class BlockChain {
    var chain: seq<Block>
    const difficulty: nat

    /** The chain is never empty: it starts with the genesis block and only grows. */
    ghost predicate Valid()
      reads this`chain
    {
      |chain| > 0
    }

    /** The current values of the blocks. */
    ghost function BlockValues(): seq<BlockRecord>
      reads this`chain, chain
    {
      BlockRecords(chain)
    }

    /** `new BlockChain(difficulty = 2)`; the clock reading for the genesis block is a parameter. */
    constructor (p: Primitives, timestamp: int, difficulty: nat := 2)
      ensures Valid() && |chain| == 1 && fresh(chain[0]) && this.difficulty == difficulty
      ensures chain[0].Record() ==
              BlockRecord(0, timestamp, JString("Genesis Block"), "0",
                          ConstructorDigest(p, 0, "0", timestamp, JString("Genesis Block")), 0)
      ensures ValidBlocks(p, BlockValues())
    {
      var genesis := CreateGenesisBlock(p, timestamp);
      this.chain := [genesis];
      this.difficulty := difficulty;
    }

    /** createGenesisBlock: index 0, data "Genesis Block", previousHash "0". */
    static method CreateGenesisBlock(p: Primitives, timestamp: int) returns (genesis: Block)
      ensures fresh(genesis)
      ensures genesis.Record() ==
              BlockRecord(0, timestamp, JString("Genesis Block"), "0",
                          ConstructorDigest(p, 0, "0", timestamp, JString("Genesis Block")), 0)
    {
      genesis := new Block(p, 0, timestamp, JString("Genesis Block"), "0");
    }

    /** getLatestBlock: always defined, since the chain is never empty. */
    function GetLatestBlock(): (latest: Block)
      requires Valid()
      reads this`chain
      ensures latest == chain[|chain| - 1]
    {
      chain[|chain| - 1]
    }

    /** addBlock: link `newBlock` to the latest block, mine it, and append it.
        `mined == false` is a search still running after `fuel` nonces: the block
        is linked but not yet appended. */
    method AddBlock(p: Primitives, newBlock: Block, fuel: nat) returns (mined: bool)
      requires Valid()
      modifies this`chain, newBlock`previousHash, newBlock`nonce, newBlock`hash
      ensures Valid()
      ensures newBlock.previousHash == old(chain[|chain| - 1].hash)
      ensures mined == Mined(newBlock.hash, difficulty)
      ensures difficulty == 0 ==> mined
      ensures Mined(old(newBlock.hash), difficulty) ==> newBlock.nonce == old(newBlock.nonce)
      ensures chain == if mined then old(chain) + [newBlock] else old(chain)
      ensures newBlock.nonce == old(newBlock.nonce) ==> newBlock.hash == old(newBlock.hash)
      ensures newBlock.nonce != old(newBlock.nonce) ==> newBlock.hash == newBlock.CalculateHash(p)
      ensures mined && newBlock !in old(chain) ==> BlockValues() == old(BlockValues()) + [newBlock.Record()]
    {
      var latest := GetLatestBlock();
      newBlock.previousHash := latest.hash;
      mined := newBlock.MineBlock(p, difficulty, fuel);
      if mined {
        chain := chain + [newBlock];
      }
    }

    /** A ledger whose latest block (after the genesis block) still carries a
        constructor hash is invalid for a collision-free digest. A block fresh from
        its constructor that addBlock appends at difficulty 0 is such a block: its
        nonce, and so its hash, stay as they were. */
    lemma StaleTipInvalidates(p: Primitives, builtWith: string)
      requires Injective(p) && |chain| >= 2
      requires var b := chain[|chain| - 1];
               b.hash == ConstructorDigest(p, b.index, builtWith, b.timestamp, b.data)
      ensures !ValidBlocks(p, BlockValues())
    {
      var k := |chain| - 1;
      assert BlockValues()[k] == chain[k].Record();
      StaleBlockInvalidates(p, BlockValues(), k, builtWith);
    }

    /** isChainValid: an indexed loop with early returns; the genesis block is never checked. */
    method IsChainValid(p: Primitives) returns (r: bool)
      requires Valid()
      ensures r == ValidBlocks(p, BlockValues())
    {
      ghost var bs := BlockValues();
      for i := 1 to |chain|
        invariant forall k :: 1 <= k < i ==> Linked(p, bs[k - 1], bs[k])
      {
        var currentBlock := chain[i];
        var previousBlock := chain[i - 1];
        assert bs[i] == currentBlock.Record() && bs[i - 1] == previousBlock.Record();
        if currentBlock.hash != currentBlock.CalculateHash(p) {
          return false;
        }
        if currentBlock.previousHash != previousBlock.hash {
          return false;
        }
      }
      return true;
    }
  }
}
