/** The ledger: the chain of mined cubes and the pool of pending transactions
    (src/cubechain.ts). */
module CubeChains {
  import opened Wrappers
  import opened JsText
  import opened Crypto
  import opened Transactions
  import opened Cubes

  // ---------------------------------------------------------------------------
  // Balances: a replay of every mined transaction

  /** What one transaction does to the balance of `address`: the sender pays the
      amount and, when it is not a reward, the verifier reward; the payee gets the amount. */
  function Delta(t: Transaction, address: string): int {
    (if t.fromAddress == Some(address)
     then -t.amount - (if t.fromAddress.Some? then t.verifierReward else 0)
     else 0)
    + (if t.toAddress == address then t.amount else 0)
  }

  /** The running balance after replaying `ts` in order. */
  function TxsBalance(ts: seq<Transaction>, address: string): int {
    if ts == [] then 0 else TxsBalance(ts[..|ts| - 1], address) + Delta(ts[|ts| - 1], address)
  }

  /** The running balance after replaying every transaction of `cs`, cube by cube. */
  function CubesBalance(cs: seq<Cube>, address: string): int {
    if cs == [] then 0 else CubesBalance(cs[..|cs| - 1], address) + TxsBalance(cs[|cs| - 1].transactions, address)
  }

  /** Every transaction of `cs`, in chain order. */
  function History(cs: seq<Cube>): seq<Transaction> {
    if cs == [] then [] else History(cs[..|cs| - 1]) + cs[|cs| - 1].transactions
  }

  lemma {:induction false} TxsBalanceConcat(xs: seq<Transaction>, ys: seq<Transaction>, address: string)
    ensures TxsBalance(xs + ys, address) == TxsBalance(xs, address) + TxsBalance(ys, address)
    decreases |ys|
  {
    if ys != [] {
      var n := |ys| - 1;
      assert (xs + ys)[..|xs + ys| - 1] == xs + ys[..n];
      TxsBalanceConcat(xs, ys[..n], address);
    } else {
      assert xs + ys == xs;
    }
  }

  /** Mining a cube adds the effect of its transactions to every balance. */
  lemma CubesBalanceAppend(cs: seq<Cube>, c: Cube, address: string)
    ensures CubesBalance(cs + [c], address) == CubesBalance(cs, address) + TxsBalance(c.transactions, address)
  {
    assert (cs + [c])[..|cs|] == cs;
  }

  /** The balance of a chain is one fold over the flat history of its transactions. */
  lemma {:induction false} CubesBalanceIsFold(cs: seq<Cube>, address: string)
    ensures CubesBalance(cs, address) == TxsBalance(History(cs), address)
  {
    if cs != [] {
      var n := |cs| - 1;
      CubesBalanceIsFold(cs[..n], address);
      TxsBalanceConcat(History(cs[..n]), cs[n].transactions, address);
    }
  }

  // ---------------------------------------------------------------------------
  // Admission of a transaction into the pool

  /** The first check of addTransaction: sender and payee are present and non-empty. */
  predicate Addressed(t: TxRecord) {
    t.fromAddress.Some? && t.fromAddress.value != "" && t.toAddress != ""
  }

  /** The verdict of addTransaction on `t` against the mined cubes `chain`: the
      checks in the source's order, the first that fails names the error. */
  function Admission(p: Primitives, t: TxRecord, chain: seq<Cube>): (r: Outcome<Error>)
    ensures r.Pass? <==>
            Addressed(t) && Validity(p, t) == Success(true) && t.amount > 0 &&
            CubesBalance(chain, t.fromAddress.value) >= t.amount + t.verifierReward
    ensures r == Fail(MissingAddress) <==> !Addressed(t)
    ensures r == Fail(NoSignature) <==> Addressed(t) && Validity(p, t).Failure?
    ensures r == Fail(InvalidTransaction) <==> Addressed(t) && Validity(p, t) == Success(false)
    ensures r == Fail(NonPositiveAmount) <==>
            Addressed(t) && Validity(p, t) == Success(true) && t.amount <= 0
    ensures r == Fail(InsufficientBalance) <==>
            Addressed(t) && Validity(p, t) == Success(true) && t.amount > 0 &&
            CubesBalance(chain, t.fromAddress.value) < t.amount + t.verifierReward
  {
    if !Addressed(t) then Fail(MissingAddress)
    else match Validity(p, t)
      case Failure(e) => Fail(e)
      case Success(ok) =>
        if !ok then Fail(InvalidTransaction)
        else if t.amount <= 0 then Fail(NonPositiveAmount)
        else if CubesBalance(chain, t.fromAddress.value) < t.amount + t.verifierReward then Fail(InsufficientBalance)
        else Pass
  }

  /** addTransaction as written: nothing ever assigns `verifierReward`, so
      `amount + verifierReward` adds `undefined` and is NaN, and the balance
      comparison against it is always false. Only the first three checks refuse. */
  function AdmissionAsWritten(p: Primitives, t: TxRecord, chain: seq<Cube>): (r: Outcome<Error>)
    ensures r.Pass? <==> Addressed(t) && Validity(p, t) == Success(true) && t.amount > 0
    ensures r != Fail(InsufficientBalance)
    ensures r.Fail? ==> r == Admission(p, t, chain)
  {
    if !Addressed(t) then Fail(MissingAddress)
    else match Validity(p, t)
      case Failure(e) => Fail(e)
      case Success(ok) =>
        if !ok then Fail(InvalidTransaction)
        else if t.amount <= 0 then Fail(NonPositiveAmount)
        else if Less(Num(CubesBalance(chain, t.fromAddress.value)), Plus(Num(t.amount), NaN)) then
          Fail(InsufficientBalance)
        else Pass
  }

  /** The dead balance check: a signed transfer that overspends the sender's mined
      balance is accepted as written, and refused by the intended check. */
  lemma OverspendAccepted(p: Primitives, t: TxRecord, chain: seq<Cube>)
    requires Addressed(t) && Validity(p, t) == Success(true) && t.amount > 0
    requires CubesBalance(chain, t.fromAddress.value) < t.amount + t.verifierReward
    ensures AdmissionAsWritten(p, t, chain) == Pass
    ensures Admission(p, t, chain) == Fail(InsufficientBalance)
  {
  }

  /** One input that shows it: on a ledger with nothing mined, a signed transfer of
      1 is accepted as written although the sender's balance is 0. */
  lemma OverspendExample()
    ensures var p := Primitives(s => s, (d, k) => "sig", (a, d, s) => true, j => "");
            var t := TxRecord(Some("alice"), "bob", 1, 0, Some("sig"), 0);
            && CubesBalance([], "alice") == 0
            && AdmissionAsWritten(p, t, []) == Pass
            && Admission(p, t, []) == Fail(InsufficientBalance)
  {
    var p := Primitives(s => s, (d, k) => "sig", (a, d, s) => true, j => "");
    var t := TxRecord(Some("alice"), "bob", 1, 0, Some("sig"), 0);
    OverspendAccepted(p, t, []);
  }

  // ---------------------------------------------------------------------------
  // Chain validity

  /** Every transaction held by the cubes `cs`. */
  function AllTransactions(cs: seq<Cube>): set<Transaction> {
    set c, t | c in cs && t in c.transactions :: t
  }

  /** The records of a sequence of cubes. */
  function CubeRecords(cs: seq<Cube>): (r: seq<CubeRecord>)
    reads cs, AllTransactions(cs)
    ensures |r| == |cs| && forall i :: 0 <= i < |cs| ==> r[i] == cs[i].Record()
  {
    if cs == [] then []
    else
      var last := cs[|cs| - 1];
      assert forall t | t in last.transactions :: t in AllTransactions(cs);
      CubeRecords(cs[..|cs| - 1]) + [last.Record()]
  }

  /** What isChainValid demands of the cube `current` that follows `previous`. */
  predicate Sound(p: Primitives, previous: CubeRecord, current: CubeRecord) {
    AllValid(p, current.transactions) == Success(true) &&
    current.hash == Computed(p, current) &&
    current.previousHash == previous.hash
  }

  /** One iteration of isChainValid: the transactions, then the hash, then the link. */
  function CheckCube(p: Primitives, previous: CubeRecord, current: CubeRecord): (r: Result<bool, Error>)
    ensures r == Success(true) <==> Sound(p, previous, current)
    ensures AllValid(p, current.transactions).Failure? ==> r == AllValid(p, current.transactions)
    ensures AllValid(p, current.transactions).Success? ==> r.Success?
  {
    match AllValid(p, current.transactions)
    case Failure(e) => Failure(e)
    case Success(ok) =>
      if !ok then Success(false)
      else if current.hash != Computed(p, current) then Success(false)
      else Success(current.previousHash == previous.hash)
  }

  /** isChainValid from index `i` on: the first cube whose check does not answer
      true decides the result. */
  function ValidFrom(p: Primitives, cs: seq<CubeRecord>, i: nat): Result<bool, Error>
    requires 1 <= i
    decreases |cs| - i
  {
    if i >= |cs| then Success(true)
    else
      var step := CheckCube(p, cs[i - 1], cs[i]);
      if step != Success(true) then step else ValidFrom(p, cs, i + 1)
  }

  /** isChainValid; the genesis cube (index 0) is never checked. */
  function ChainValidity(p: Primitives, cs: seq<CubeRecord>): Result<bool, Error> {
    ValidFrom(p, cs, 1)
  }

  /** A true answer from index `i` on means every later cube is sound. */
  lemma {:induction false} ValidFromSound(p: Primitives, cs: seq<CubeRecord>, i: nat, k: nat)
    requires 1 <= i <= k < |cs| && ValidFrom(p, cs, i) == Success(true)
    ensures Sound(p, cs[k - 1], cs[k])
    decreases k - i
  {
    if i < k {
      ValidFromSound(p, cs, i + 1, k);
    }
  }

  /** Every cube from index `i` on being sound gives a true answer. */
  lemma {:induction false} SoundValidFrom(p: Primitives, cs: seq<CubeRecord>, i: nat)
    requires 1 <= i && forall k :: i <= k < |cs| ==> Sound(p, cs[k - 1], cs[k])
    ensures ValidFrom(p, cs, i) == Success(true)
    decreases |cs| - i
  {
    if i < |cs| {
      assert Sound(p, cs[i - 1], cs[i]);
      SoundValidFrom(p, cs, i + 1);
    }
  }

  lemma ValidFromIff(p: Primitives, cs: seq<CubeRecord>, i: nat)
    requires 1 <= i
    ensures ValidFrom(p, cs, i) == Success(true) <==>
            forall k :: i <= k < |cs| ==> Sound(p, cs[k - 1], cs[k])
  {
    if ValidFrom(p, cs, i) == Success(true) {
      forall k | i <= k < |cs| ensures Sound(p, cs[k - 1], cs[k]) {
        ValidFromSound(p, cs, i, k);
      }
    }
    if forall k :: i <= k < |cs| ==> Sound(p, cs[k - 1], cs[k]) {
      SoundValidFrom(p, cs, i);
    }
  }

  /** isChainValid answers true exactly when every cube after the genesis cube has
      valid transactions, an up-to-date hash, and the previous cube's hash as its link. */
  lemma ChainValidIff(p: Primitives, cs: seq<CubeRecord>)
    ensures ChainValidity(p, cs) == Success(true) <==>
            forall k :: 1 <= k < |cs| ==> Sound(p, cs[k - 1], cs[k])
  {
    ValidFromIff(p, cs, 1);
  }

  /** A cube after the genesis cube that still carries its constructor hash (the
      mining loop never ran) makes the chain invalid, for a collision-free digest. */
  lemma StaleCubeInvalidates(p: Primitives, cs: seq<CubeRecord>, k: nat)
    requires Injective(p) && 1 <= k < |cs|
    requires cs[k].hash == ConstructorDigest(p, cs[k].previousHash, cs[k].timestamp, cs[k].transactions)
    ensures ChainValidity(p, cs) != Success(true)
  {
    ConstructorDigestIsStale(p, cs[k]);
    assert !Sound(p, cs[k - 1], cs[k]);
    ChainValidIff(p, cs);
  }

  /** Tampering with a mined cube: for a collision-free digest and JSON text,
      giving one transaction of a cube after the genesis cube of a valid chain
      another amount, without rehashing, makes the chain invalid. */
  lemma CubeTamper(p: Primitives, cs: seq<CubeRecord>, i: nat, j: nat, a: int)
    requires Injective(p) && ChainValidity(p, cs) == Success(true)
    requires 1 <= i < |cs| && j < |cs[i].transactions| && a != cs[i].transactions[j].amount
    ensures var c := cs[i];
            ChainValidity(p, cs[i := c.(transactions := c.transactions[j := c.transactions[j].(amount := a)])])
            != Success(true)
  {
    var c := cs[i];
    var ts := c.transactions[j := c.transactions[j].(amount := a)];
    var tampered := cs[i := c.(transactions := ts)];
    ChainValidIff(p, cs);
    assert Sound(p, cs[i - 1], c);
    assert ts[j] != c.transactions[j];
    TransactionsBindDigest(p, c, ts, c.nonce);
    assert !Sound(p, tampered[i - 1], tampered[i]);
    ChainValidIff(p, tampered);
  }

  // ---------------------------------------------------------------------------
  // The ledger object

  class CubeChain {
    var chain: seq<Cube>
    const difficulty: nat
    var pendingTransactions: seq<Transaction>
    const miningReward: int

    /** The chain is never empty and starts with the genesis cube. */
    ghost predicate Valid()
      reads this`chain
    {
      |chain| > 0 && chain[0].previousHash == "0" && chain[0].transactions == []
    }

    /** The current values of the mined cubes. */
    ghost function CubeValues(): seq<CubeRecord>
      reads this`chain, chain, AllTransactions(chain)
    {
      CubeRecords(chain)
    }

    /** The balance getBalanceOfAddress computes. */
    function Balance(address: string): int
      reads this`chain
    {
      CubesBalance(chain, address)
    }

    /** `new CubeChain(difficulty = 2, pendingTransactions = [], miningReward = 100)`;
        the clock reading for the genesis cube is a parameter. */
    constructor (p: Primitives, timestamp: int, difficulty: nat := 2,
                 pendingTransactions: seq<Transaction> := [], miningReward: int := 100)
      ensures Valid() && |chain| == 1 && fresh(chain[0])
      ensures chain[0].timestamp == timestamp && chain[0].miner == "" && chain[0].nonce == 0
      ensures chain[0].hash == ConstructorDigest(p, "0", timestamp, [])
      ensures this.difficulty == difficulty && this.miningReward == miningReward
      ensures this.pendingTransactions == pendingTransactions
      ensures forall address :: Balance(address) == 0
    {
      var genesis := CreateGenesisCube(p, timestamp);
      this.chain := [genesis];
      this.difficulty := difficulty;
      this.pendingTransactions := pendingTransactions;
      this.miningReward := miningReward;
      forall address ensures CubesBalance([genesis], address) == 0 {
        assert [genesis][..0] == [];
      }
    }

    /** createGenesisCube: no transactions, previousHash "0". */
    static method CreateGenesisCube(p: Primitives, timestamp: int) returns (genesis: Cube)
      ensures fresh(genesis)
      ensures genesis.transactions == [] && genesis.previousHash == "0" && genesis.miner == ""
      ensures genesis.timestamp == timestamp && genesis.nonce == 0
      ensures genesis.hash == ConstructorDigest(p, "0", timestamp, [])
    {
      genesis := new Cube(p, timestamp, [], "0");
    }

    /** getLatestCube: always defined, since the chain is never empty. */
    function GetLatestCube(): (latest: Cube)
      requires Valid()
      reads this`chain
      ensures latest == chain[|chain| - 1]
    {
      chain[|chain| - 1]
    }

    /** getBalanceOfAddress: nested loops over the cubes and their transactions. */
    method GetBalanceOfAddress(address: string) returns (balance: int)
      ensures balance == Balance(address)
    {
      balance := 0;
      for i := 0 to |chain|
        invariant balance == CubesBalance(chain[..i], address)
      {
        var txs := chain[i].transactions;
        for j := 0 to |txs|
          invariant balance == CubesBalance(chain[..i], address) + TxsBalance(txs[..j], address)
        {
          var tx := txs[j];
          if tx.fromAddress == Some(address) {
            balance := balance - tx.amount;
            if tx.fromAddress.Some? {
              balance := balance - tx.verifierReward;
            }
          }
          if tx.toAddress == address {
            balance := balance + tx.amount;
          }
          assert txs[..j + 1][..j] == txs[..j];
        }
        assert txs[..|txs|] == txs;
        assert chain[..i + 1][..i] == chain[..i];
      }
      assert chain[..|chain|] == chain;
    }

    /** addTransaction: the checks of Admission in order; only success touches the pool. */
    method AddTransaction(p: Primitives, transaction: Transaction) returns (r: Outcome<Error>)
      requires Valid()
      modifies this`pendingTransactions
      ensures r == Admission(p, transaction.Record(), chain)
      ensures pendingTransactions ==
              if r.Pass? then old(pendingTransactions) + [transaction] else old(pendingTransactions)
    {
      if transaction.fromAddress.None? || transaction.fromAddress.value == "" || transaction.toAddress == "" {
        return Fail(MissingAddress);
      }
      var valid := Validity(p, transaction.Record());
      if valid.Failure? {
        return Fail(valid.error);
      }
      if !valid.value {
        return Fail(InvalidTransaction);
      }
      if transaction.amount <= 0 {
        return Fail(NonPositiveAmount);
      }
      var totalAmount := transaction.amount + transaction.verifierReward;
      var balanceOfSender := GetBalanceOfAddress(transaction.fromAddress.value);
      if balanceOfSender < totalAmount {
        return Fail(InsufficientBalance);
      }
      pendingTransactions := pendingTransactions + [transaction];
      return Pass;
    }

    /** verifyTransaction: for a pending transaction (compared by identity), one more
        unsigned reward of its verifierReward to the verifier joins the pool. */
    method VerifyTransaction(transaction: Transaction, verifierAddress: string, timestamp: int)
      returns (r: Outcome<Error>)
      modifies this`pendingTransactions
      ensures r.Pass? <==> transaction in old(pendingTransactions)
      ensures r.Fail? ==> r.error == NotPending && pendingTransactions == old(pendingTransactions)
      ensures r.Pass? ==>
        && |pendingTransactions| == old(|pendingTransactions|) + 1
        && pendingTransactions[..old(|pendingTransactions|)] == old(pendingTransactions)
        && fresh(pendingTransactions[old(|pendingTransactions|)])
        && pendingTransactions[old(|pendingTransactions|)].Record() ==
           TxRecord(None, verifierAddress, transaction.verifierReward, timestamp, None, 0)
    {
      if transaction in pendingTransactions {
        var verifierRewardTx := new Transaction(None, verifierAddress, transaction.verifierReward, timestamp);
        pendingTransactions := pendingTransactions + [verifierRewardTx];
        return Pass;
      } else {
        return Fail(NotPending);
      }
    }

    /** The cube minePendingTransactions builds before mining it: the pool followed
        by a fresh unsigned reward to the miner, linked to the latest cube. Nothing
        that existed before is changed. */
    method NewCube(p: Primitives, miningRewardAddress: string, rewardTime: int, cubeTime: int)
      returns (cube: Cube)
      requires Valid()
      ensures cube.previousHash == chain[|chain| - 1].hash
      ensures cube.miner == miningRewardAddress && cube.timestamp == cubeTime
      ensures |cube.transactions| == |pendingTransactions| + 1
      ensures fresh(cube) && fresh(cube.transactions[|pendingTransactions|])
      ensures cube.transactions[..|pendingTransactions|] == pendingTransactions
      ensures cube.transactions[|pendingTransactions|].Record() ==
              TxRecord(None, miningRewardAddress, miningReward, rewardTime, None, 0)
      ensures cube.nonce == 0 && cube.Sealed(p)
    {
      var rewardTx := new Transaction(None, miningRewardAddress, miningReward, rewardTime);
      var latest := GetLatestCube();
      cube := new Cube(p, cubeTime, pendingTransactions + [rewardTx], latest.hash, miningRewardAddress);
    }

    /** minePendingTransactions: the pool plus a reward to the miner go into a new
        cube linked to the latest one; once mined it is appended and the pool is
        emptied. `mined == false` is a search still running after `fuel` nonces:
        nothing has been appended yet. */
    method MinePendingTransactions(p: Primitives, miningRewardAddress: string,
                                   rewardTime: int, cubeTime: int, fuel: nat)
      returns (mined: bool)
      requires Valid()
      modifies this`chain, this`pendingTransactions
      ensures Valid()
      ensures !mined ==> chain == old(chain) && pendingTransactions == old(pendingTransactions)
      ensures difficulty == 0 ==> mined
      ensures mined ==>
        && |chain| == old(|chain|) + 1
        && chain[..old(|chain|)] == old(chain)
        && pendingTransactions == []
      ensures mined ==> var cube := chain[|chain| - 1];
        && fresh(cube)
        && cube.previousHash == old(chain[|chain| - 1].hash)
        && cube.miner == miningRewardAddress
        && cube.timestamp == cubeTime
        && |cube.transactions| == old(|pendingTransactions|) + 1
        && cube.transactions[..old(|pendingTransactions|)] == old(pendingTransactions)
        && fresh(cube.transactions[old(|pendingTransactions|)])
        && cube.transactions[old(|pendingTransactions|)].Record() ==
           TxRecord(None, miningRewardAddress, miningReward, rewardTime, None, 0)
        && Mined(cube.hash, difficulty)
        && cube.Sealed(p)
      ensures mined && difficulty == 0 ==> chain[|chain| - 1].nonce == 0
      ensures mined ==> forall a :: Balance(a) == old(Balance(a)) + TxsBalance(old(pendingTransactions), a) +
                                                (if a == miningRewardAddress then miningReward else 0)
    {
      var cube := NewCube(p, miningRewardAddress, rewardTime, cubeTime);
      mined := cube.MineCube(p, difficulty, fuel);
      if mined {
        ghost var before := chain;
        chain := chain + [cube];
        pendingTransactions := [];
        assert chain[..|chain| - 1] == before;
        assert cube.transactions[..|cube.transactions| - 1] == old(pendingTransactions);
        forall a ensures Balance(a) == CubesBalance(before, a) + TxsBalance(old(pendingTransactions), a) +
                                       (if a == miningRewardAddress then miningReward else 0)
        {
          CubesBalanceAppend(before, cube, a);
        }
      }
    }

    /** A ledger whose latest cube (after the genesis cube) still has nonce 0 keeps
        that cube's constructor hash, and is invalid for a collision-free digest.
        At difficulty 0 minePendingTransactions appends exactly such a cube. */
    lemma UnminedTipInvalidates(p: Primitives)
      requires Injective(p) && |chain| >= 2
      requires chain[|chain| - 1].nonce == 0 && chain[|chain| - 1].Sealed(p)
      ensures ChainValidity(p, CubeValues()) != Success(true)
    {
      var k := |chain| - 1;
      assert CubeValues()[k] == chain[k].Record();
      StaleCubeInvalidates(p, CubeValues(), k);
    }

    /** isChainValid: an indexed loop with early returns; a NoSignature raised while
        checking transactions propagates. */
    method IsChainValid(p: Primitives) returns (r: Result<bool, Error>)
      requires Valid()
      ensures r == ChainValidity(p, CubeValues())
    {
      ghost var cs := CubeValues();
      for i := 1 to |chain|
        invariant cs == CubeValues()
        invariant ChainValidity(p, cs) == ValidFrom(p, cs, i)
      {
        var currentCube := chain[i];
        var previousCube := chain[i - 1];
        assert cs[i] == currentCube.Record() && cs[i - 1] == previousCube.Record();
        ghost var step := CheckCube(p, cs[i - 1], cs[i]);
        assert ValidFrom(p, cs, i) == if step != Success(true) then step else ValidFrom(p, cs, i + 1);
        var v := currentCube.HasValidTransactions(p);
        assert v == AllValid(p, cs[i].transactions);
        assert cs == CubeValues();
        if v.Failure? || !v.value {
          assert ValidFrom(p, cs, i) == v;
          return v;
        }
        if currentCube.hash != currentCube.CalculateHash(p) {
          assert ValidFrom(p, cs, i) == Success(false);
          return Success(false);
        }
        if currentCube.previousHash != previousCube.hash {
          assert ValidFrom(p, cs, i) == Success(false);
          return Success(false);
        }
        assert step == Success(true);
      }
      return Success(true);
    }
  }
}
