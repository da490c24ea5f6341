/** A key holder that builds, signs and submits transfers to a shared ledger
    (src/wallet.ts). */
module Wallets {
  import opened Wrappers
  import opened Crypto
  import opened Transactions
  import opened Cubes
  import opened CubeChains

  /** The transfer sendMoney submits: from `publicKey`, freshly constructed, then
      signed with `privateKey` over its own digest. */
  function SignedTransfer(p: Primitives, publicKey: string, privateKey: string,
                          payee: string, amount: int, timestamp: int): (t: TxRecord)
    ensures t.fromAddress == Some(publicKey) && t.toAddress == payee
    ensures t.amount == amount && t.timestamp == timestamp && t.verifierReward == 0
    ensures t.signature.Some? &&
            t.signature.value == p.sign(TxDigest(p, t.(signature := None)), privateKey)
  {
    var unsigned := TxRecord(Some(publicKey), payee, amount, timestamp, None, 0);
    unsigned.(signature := Some(p.sign(TxDigest(p, unsigned), privateKey)))
  }

  /** With a genuine key pair, a transfer from the wallet is refused only for an
      empty payee, a non-positive amount or a mined balance below the amount: its
      signature is always accepted. */
  lemma {:induction false} TransferAdmission(p: Primitives, publicKey: string, privateKey: string,
                                             payee: string, amount: int, timestamp: int, chain: seq<Cube>)
    requires publicKey != "" && KeyPair(p, publicKey, privateKey)
    ensures var r := Admission(p, SignedTransfer(p, publicKey, privateKey, payee, amount, timestamp), chain);
            && (r == Pass <==> payee != "" && amount > 0 && CubesBalance(chain, publicKey) >= amount)
            && (r == Fail(MissingAddress) <==> payee == "")
            && (r == Fail(NonPositiveAmount) <==> payee != "" && amount <= 0)
            && r != Fail(NoSignature) && r != Fail(InvalidTransaction)
  {
    var t := SignedTransfer(p, publicKey, privateKey, payee, amount, timestamp);
    assert TxDigest(p, t) == TxDigest(p, t.(signature := None));
    SignedIsValid(p, t, privateKey);
  }

  class Wallet {
    const publicKey: string
    const privateKey: string
    const chain: CubeChain

    /** `new Wallet(chain)`; the RSA key pair it generates is given instead. */
    constructor (publicKey: string, privateKey: string, chain: CubeChain)
      ensures this.publicKey == publicKey && this.privateKey == privateKey && this.chain == chain
    {
      this.publicKey := publicKey;
      this.privateKey := privateKey;
      this.chain := chain;
    }

    /** getBalance: the ledger's balance of the wallet's public key. */
    method GetBalance() returns (balance: int)
      ensures balance == chain.Balance(publicKey)
    {
      balance := chain.GetBalanceOfAddress(publicKey);
    }

    /** sendMoney: a new transfer to `payeePublicKey`, signed and submitted. A refusal
        from signing or from addTransaction is passed on and leaves the pool as it
        was; on success the submitted transaction is returned and ends the pool. */
    method SendMoney(p: Primitives, amount: int, payeePublicKey: string, timestamp: int)
      returns (r: Result<Transaction, Error>)
      requires chain.Valid()
      modifies chain`pendingTransactions
      ensures publicKey == "" ==> r == Failure(CannotSignReward)
      ensures publicKey != "" ==>
        var verdict := Admission(p, SignedTransfer(p, publicKey, privateKey, payeePublicKey, amount, timestamp),
                                 chain.chain);
        && (r.Success? <==> verdict == Pass)
        && (r.Failure? ==> verdict == Fail(r.error))
      ensures r.Success? ==>
        && fresh(r.value)
        && r.value.Record() == SignedTransfer(p, publicKey, privateKey, payeePublicKey, amount, timestamp)
        && chain.pendingTransactions == old(chain.pendingTransactions) + [r.value]
      ensures r.Failure? ==> chain.pendingTransactions == old(chain.pendingTransactions)
    {
      var tx := new Transaction(Some(publicKey), payeePublicKey, amount, timestamp);
      var signed := tx.SignTransaction(p, privateKey);
      if signed.Fail? {
        return Failure(signed.error);
      }
      var added := chain.AddTransaction(p, tx);
      if added.Fail? {
        return Failure(added.error);
      }
      return Success(tx);
    }

    /** verifyTransaction: the ledger's verifyTransaction with this wallet as the verifier. */
    method VerifyTransaction(transaction: Transaction, timestamp: int) returns (r: Outcome<Error>)
      modifies chain`pendingTransactions
      ensures r.Pass? <==> transaction in old(chain.pendingTransactions)
      ensures r.Fail? ==> r.error == NotPending && chain.pendingTransactions == old(chain.pendingTransactions)
      ensures r.Pass? ==>
        && |chain.pendingTransactions| == old(|chain.pendingTransactions|) + 1
        && chain.pendingTransactions[..old(|chain.pendingTransactions|)] == old(chain.pendingTransactions)
        && fresh(chain.pendingTransactions[old(|chain.pendingTransactions|)])
        && chain.pendingTransactions[old(|chain.pendingTransactions|)].Record() ==
           TxRecord(None, publicKey, transaction.verifierReward, timestamp, None, 0)
    {
      r := chain.VerifyTransaction(transaction, publicKey, timestamp);
    }
  }
}
