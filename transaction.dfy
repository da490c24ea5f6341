/** Transfers and rewards (src/transaction.ts). */
module Transactions {
  import opened Wrappers
  import opened JsText
  import opened Crypto

  /** The values a transaction holds at one moment. `fromAddress == None` is the
      source's `null` sender of a mining or verifier reward. */
  datatype TxRecord = TxRecord(
    fromAddress: Option<string>,
    toAddress: string,
    amount: int,
    timestamp: int,
    signature: Option<string>,
    verifierReward: int)

  /** `fromAddress` as it appears inside a string concatenation. */
  function SenderText(fromAddress: Option<string>): string {
    match fromAddress
    case None => Null
    case Some(a) => a
  }

  /** The text `fromAddress + toAddress + amount + timestamp` that calculateHash digests. */
  function HashText(fromAddress: Option<string>, toAddress: string, amount: int, timestamp: int): string {
    SenderText(fromAddress) + toAddress + NumStr(amount) + NumStr(timestamp)
  }

  /** calculateHash of a transaction: the signature and the verifier reward play no part. */
  function TxDigest(p: Primitives, t: TxRecord): string {
    p.digest(HashText(t.fromAddress, t.toAddress, t.amount, t.timestamp))
  }

  /** isValid: a reward is valid unsigned; a transfer with no (or an empty)
      signature raises NoSignature; otherwise the signing service decides. */
  function Validity(p: Primitives, t: TxRecord): (r: Result<bool, Error>)
    ensures t.fromAddress.None? ==> r == Success(true)
    ensures r.Failure? <==> t.fromAddress.Some? && (t.signature.None? || t.signature.value == "")
    ensures r.Failure? ==> r.error == NoSignature
  {
    if t.fromAddress.None? then Success(true)
    else if t.signature.None? || t.signature.value == "" then Failure(NoSignature)
    else Success(p.verify(t.fromAddress.value, TxDigest(p, t), t.signature.value))
  }

  /** Sign-then-verify round trip: a transfer signed over its own digest with the
      private key matching its sender is valid. */
  lemma SignedIsValid(p: Primitives, t: TxRecord, privateKey: string)
    requires t.fromAddress.Some? && KeyPair(p, t.fromAddress.value, privateKey)
    requires t.signature == Some(p.sign(TxDigest(p, t), privateKey))
    ensures Validity(p, t) == Success(true)
  {
    var d := TxDigest(p, t);
    assert p.sign(d, privateKey) != "" && p.verify(t.fromAddress.value, d, p.sign(d, privateKey));
  }

  class Transaction {
    const fromAddress: Option<string>
    const toAddress: string
    const amount: int
    const timestamp: int
    /** Not declared by the source class, but read by the ledger; it defaults to 0. */
    const verifierReward: int
    var signature: Option<string>

    /** The current values of the fields. */
    function Record(): TxRecord
      reads this
    {
      TxRecord(fromAddress, toAddress, amount, timestamp, signature, verifierReward)
    }

    /** `new Transaction(from, to, amount)`; the clock reading is a parameter. */
    constructor (fromAddress: Option<string>, toAddress: string, amount: int, timestamp: int,
                 verifierReward: int := 0)
      ensures Record() == TxRecord(fromAddress, toAddress, amount, timestamp, None, verifierReward)
    {
      this.fromAddress := fromAddress;
      this.toAddress := toAddress;
      this.amount := amount;
      this.timestamp := timestamp;
      this.verifierReward := verifierReward;
      this.signature := None;
    }

    /** calculateHash: the digest of sender, payee, amount and timestamp. */
    function CalculateHash(p: Primitives): string
      reads this
    {
      TxDigest(p, Record())
    }

    /** signTransaction: refuses a falsy sender; otherwise stores the signature of
        the digest and changes nothing else. */
    method SignTransaction(p: Primitives, privateKey: string) returns (r: Outcome<Error>)
      modifies this
      ensures r.Fail? <==> fromAddress.None? || fromAddress.value == ""
      ensures r.Fail? ==> r.error == CannotSignReward && signature == old(signature)
      ensures r.Pass? ==> signature == Some(p.sign(TxDigest(p, old(Record())), privateKey))
      ensures TxDigest(p, Record()) == TxDigest(p, old(Record()))
    {
      if fromAddress.None? || fromAddress.value == "" {
        return Fail(CannotSignReward);
      }
      var txHash := CalculateHash(p);
      signature := Some(p.sign(txHash, privateKey));
      return Pass;
    }
  }
}
