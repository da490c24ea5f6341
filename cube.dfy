/** Blocks of the transaction ledger (src/cube.ts). */
module Cubes {
  import opened Wrappers
  import opened JsText
  import opened Crypto
  import opened Transactions

  /** An optional string as a JSON value. */
  function OptJson(s: Option<string>): Json {
    match s
    case None => JNull
    case Some(v) => JString(v)
  }

  /** A transaction object as a JSON value, fields in assignment order. */
  function TxJson(t: TxRecord): Json {
    JObject([("fromAddress", OptJson(t.fromAddress)),
             ("toAddress", JString(t.toAddress)),
             ("amount", JNumber(t.amount)),
             ("timestamp", JNumber(t.timestamp)),
             ("signature", OptJson(t.signature)),
             ("verifierReward", JNumber(t.verifierReward))])
  }

  /** The array of transactions as a JSON value. */
  function TxsJson(ts: seq<TxRecord>): Json {
    JArray(seq(|ts|, i requires 0 <= i < |ts| => TxJson(ts[i])))
  }

  /** `previousHash + timestamp + JSON.stringify(transactions) + nonce + miner`,
      with the nonce and the miner already rendered as text. */
  function CubeText(p: Primitives, previousHash: string, timestamp: int, ts: seq<TxRecord>, nonce: string, miner: string): string {
    previousHash + NumStr(timestamp) + p.stringify(TxsJson(ts)) + nonce + miner
  }

  /** The values a cube holds at one moment. */
  datatype CubeRecord = CubeRecord(
    timestamp: int,
    previousHash: string,
    transactions: seq<TxRecord>,
    hash: string,
    nonce: nat,
    miner: string)

  /** The digest of the cube's content with nonce `n`. */
  function DigestAt(p: Primitives, c: CubeRecord, n: nat): string {
    p.digest(CubeText(p, c.previousHash, c.timestamp, c.transactions, NumStr(n), c.miner))
  }

  /** calculateHash: a function of previousHash, timestamp, transactions, nonce and miner only. */
  function Computed(p: Primitives, c: CubeRecord): string {
    DigestAt(p, c, c.nonce)
  }

  /** The hash the constructor stores: it is computed before `nonce` and `miner`
      are assigned, so both enter the text as `undefined`. */
  function ConstructorDigest(p: Primitives, previousHash: string, timestamp: int, ts: seq<TxRecord>): string {
    p.digest(CubeText(p, previousHash, timestamp, ts, Undefined, Undefined))
  }

  /** With a collision-free digest, the constructor's hash is never calculateHash of
      the cube's fields, whatever the nonce and the miner. */
  lemma ConstructorDigestIsStale(p: Primitives, c: CubeRecord)
    requires Injective(p)
    ensures ConstructorDigest(p, c.previousHash, c.timestamp, c.transactions) != Computed(p, c)
  {
    NumStrShape(c.nonce);
    var prefix := c.previousHash + NumStr(c.timestamp) + p.stringify(TxsJson(c.transactions));
    var stale := CubeText(p, c.previousHash, c.timestamp, c.transactions, Undefined, Undefined);
    var current := CubeText(p, c.previousHash, c.timestamp, c.transactions, NumStr(c.nonce), c.miner);
    assert stale == prefix + Undefined + Undefined;
    assert current == prefix + NumStr(c.nonce) + c.miner;
    assert stale[|prefix|] == 'u';
    assert current[|prefix|] == NumStr(c.nonce)[0];
    assert stale != current;
  }

  /** The JSON value of a transaction keeps every one of its fields. */
  lemma TxJsonInjective(s: TxRecord, t: TxRecord)
    requires TxJson(s) == TxJson(t)
    ensures s == t
  {
    var m, n := TxJson(s).members, TxJson(t).members;
    assert m[0].1 == n[0].1 && m[4].1 == n[4].1;
    assert OptJson(s.fromAddress) == OptJson(t.fromAddress);
    assert OptJson(s.signature) == OptJson(t.signature);
  }

  /** The JSON array of the transactions keeps their number, order and fields. */
  lemma TxsJsonInjective(ss: seq<TxRecord>, ts: seq<TxRecord>)
    requires TxsJson(ss) == TxsJson(ts)
    ensures ss == ts
  {
    assert |ss| == |TxsJson(ss).items| == |TxsJson(ts).items| == |ts|;
    forall i | 0 <= i < |ss| ensures ss[i] == ts[i] {
      assert TxsJson(ss).items[i] == TxJson(ss[i]);
      assert TxsJson(ts).items[i] == TxJson(ts[i]);
      TxJsonInjective(ss[i], ts[i]);
    }
  }

  /** For a collision-free digest and JSON text, the digest of a cube binds its
      transactions: any change to any field of any transaction, or to their
      number or order, changes the digest at every nonce. */
  lemma TransactionsBindDigest(p: Primitives, c: CubeRecord, ts: seq<TxRecord>, n: nat)
    requires Injective(p) && ts != c.transactions
    ensures DigestAt(p, c.(transactions := ts), n) != DigestAt(p, c, n)
  {
    var a := c.previousHash + NumStr(c.timestamp);
    var x, y := p.stringify(TxsJson(ts)), p.stringify(TxsJson(c.transactions));
    if DigestAt(p, c.(transactions := ts), n) == DigestAt(p, c, n) {
      var t := CubeText(p, c.previousHash, c.timestamp, ts, NumStr(n), c.miner);
      assert t == CubeText(p, c.previousHash, c.timestamp, c.transactions, NumStr(n), c.miner);
      assert a + x + (NumStr(n) + c.miner) == a + x + NumStr(n) + c.miner;
      assert a + y + (NumStr(n) + c.miner) == a + y + NumStr(n) + c.miner;
      MiddleCancels(a, x, y, NumStr(n) + c.miner);
      TxsJsonInjective(ts, c.transactions);
      assert false;
    }
  }

  /** hasValidTransactions: the transactions are checked in order; the first
      `false` answers `false`, and a NoSignature raised before it propagates. */
  function AllValid(p: Primitives, ts: seq<TxRecord>): Result<bool, Error> {
    if ts == [] then Success(true)
    else match Validity(p, ts[0])
      case Failure(e) => Failure(e)
      case Success(ok) => if ok then AllValid(p, ts[1..]) else Success(false)
  }

  /** hasValidTransactions answers true exactly when every transaction is valid. */
  lemma {:induction false} AllValidIff(p: Primitives, ts: seq<TxRecord>)
    ensures AllValid(p, ts) == Success(true) <==>
            forall i :: 0 <= i < |ts| ==> Validity(p, ts[i]) == Success(true)
  {
    if ts != [] {
      AllValidIff(p, ts[1..]);
      if forall i :: 0 <= i < |ts| ==> Validity(p, ts[i]) == Success(true) {
        assert Validity(p, ts[0]) == Success(true);
        assert forall i :: 0 <= i < |ts[1..]| ==> Validity(p, ts[1..][i]) == Success(true) by {
          forall i | 0 <= i < |ts[1..]| ensures Validity(p, ts[1..][i]) == Success(true) {
            assert ts[1..][i] == ts[i + 1];
          }
        }
      }
      if AllValid(p, ts) == Success(true) {
        forall i | 0 <= i < |ts| ensures Validity(p, ts[i]) == Success(true) {
          if i > 0 { assert ts[i] == ts[1..][i - 1]; }
        }
      }
    }
  }

  /** Any answer other than true comes from the first transaction that is not valid:
      a `false` or a NoSignature from it, after only valid transactions. */
  lemma {:induction false} AllValidFirstFailure(p: Primitives, ts: seq<TxRecord>)
    requires AllValid(p, ts) != Success(true)
    ensures exists k :: 0 <= k < |ts| && Validity(p, ts[k]) == AllValid(p, ts) &&
                        forall j :: 0 <= j < k ==> Validity(p, ts[j]) == Success(true)
  {
    if Validity(p, ts[0]) != Success(true) {
      assert Validity(p, ts[0]) == AllValid(p, ts);
    } else {
      AllValidFirstFailure(p, ts[1..]);
      var k :| 0 <= k < |ts[1..]| && Validity(p, ts[1..][k]) == AllValid(p, ts[1..]) &&
                forall j :: 0 <= j < k ==> Validity(p, ts[1..][j]) == Success(true);
      assert ts[1..][k] == ts[k + 1];
      forall j | 0 <= j < k + 1 ensures Validity(p, ts[j]) == Success(true) {
        if j > 0 { assert ts[j] == ts[1..][j - 1]; }
      }
    }
  }

  /** The records of a sequence of transactions. */
  function TxRecords(txs: seq<Transaction>): (r: seq<TxRecord>)
    reads txs
    ensures |r| == |txs|
  {
    if txs == [] then [] else TxRecords(txs[..|txs| - 1]) + [txs[|txs| - 1].Record()]
  }

  /** Each record is the current value of the transaction at the same position. */
  lemma {:induction false} TxRecordsAt(txs: seq<Transaction>, i: nat)
    requires i < |txs|
    ensures TxRecords(txs)[i] == txs[i].Record()
    decreases |txs|
  {
    if i < |txs| - 1 {
      TxRecordsAt(txs[..|txs| - 1], i);
    }
  }

  class Cube {
    const timestamp: int
    const previousHash: string
    const transactions: seq<Transaction>
    const miner: string
    var hash: string
    var nonce: nat

    /** The current values of the cube and of its transactions. */
    function Record(): CubeRecord
      reads this, transactions
    {
      CubeRecord(timestamp, previousHash, TxRecords(transactions), hash, nonce, miner)
    }

    /** `new Cube(timestamp, transactions, previousHash = '', miner = '')`. */
    constructor (p: Primitives, timestamp: int, transactions: seq<Transaction>,
                 previousHash: string := "", miner: string := "")
      ensures this.timestamp == timestamp && this.transactions == transactions
      ensures this.previousHash == previousHash && this.miner == miner && nonce == 0
      ensures hash == ConstructorDigest(p, previousHash, timestamp, TxRecords(transactions))
      ensures Sealed(p)
    {
      this.timestamp := timestamp;
      this.previousHash := previousHash;
      this.transactions := transactions;
      this.hash := ConstructorDigest(p, previousHash, timestamp, TxRecords(transactions));
      this.nonce := 0;
      this.miner := miner;
    }

    /** calculateHash of the current fields. */
    function CalculateHash(p: Primitives): string
      reads this, transactions
    {
      Computed(p, Record())
    }

    /** The stored hash is the one the fields determine: while the nonce is 0 it is
        the constructor's (computed before nonce and miner were set), afterwards
        calculateHash of the current fields. */
    predicate Sealed(p: Primitives)
      reads this, transactions
    {
      hash == if nonce == 0 then ConstructorDigest(p, previousHash, timestamp, TxRecords(transactions))
              else CalculateHash(p)
    }

    /** mineCube: raise the nonce one at a time until the hash starts with
        `difficulty` zeros. The search is unbounded in the source; here it gives up
        after `fuel` steps and answers `false` (a search still running). */
    method MineCube(p: Primitives, difficulty: nat, fuel: nat) returns (mined: bool)
      modifies this
      ensures mined == Mined(hash, difficulty)
      ensures old(nonce) <= nonce <= old(nonce) + fuel
      ensures !mined ==> nonce == old(nonce) + fuel
      ensures difficulty == 0 ==> mined
      ensures Mined(old(hash), difficulty) ==> nonce == old(nonce)
      ensures nonce == old(nonce) ==> hash == old(hash)
      ensures nonce != old(nonce) ==> hash == CalculateHash(p)
      ensures forall n :: old(nonce) < n < nonce ==> !Mined(DigestAt(p, old(Record()), n), difficulty)
      ensures old(Sealed(p)) ==> Sealed(p)
    {
      ghost var start := Record();
      var steps := 0;
      while !Mined(hash, difficulty)
        invariant steps <= fuel
        invariant nonce == old(nonce) + steps
        invariant Record().transactions == start.transactions
        invariant steps == 0 ==> hash == old(hash)
        invariant steps != 0 ==> !Mined(old(hash), difficulty) && hash == DigestAt(p, start, nonce)
        invariant forall n :: old(nonce) < n < nonce ==> !Mined(DigestAt(p, start, n), difficulty)
        decreases fuel - steps
      {
        if steps == fuel {
          return false;
        }
        nonce := nonce + 1;
        hash := CalculateHash(p);
        steps := steps + 1;
      }
      return true;
    }

    /** hasValidTransactions: a loop over the transactions with an early return. */
    method HasValidTransactions(p: Primitives) returns (r: Result<bool, Error>)
      ensures r == AllValid(p, Record().transactions)
    {
      ghost var ts := TxRecords(transactions);
      var k := 0;
      while k < |transactions|
        invariant 0 <= k <= |transactions|
        invariant AllValid(p, ts) == AllValid(p, ts[k..])
      {
        assert ts[k..][1..] == ts[k + 1..];
        TxRecordsAt(transactions, k);
        var v := Validity(p, transactions[k].Record());
        if v.Failure? {
          return Failure(v.error);
        }
        if !v.value {
          return Success(false);
        }
        k := k + 1;
      }
      return Success(true);
    }
  }
}
