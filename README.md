# cubechain in Dafny

A model of the ledger of *cubechain*, a proof-of-work toy blockchain written in
TypeScript, with the properties its code promises proved.

The ledger has four parts:

- a `CubeChain` holds an append-only chain of mined cubes and a pool of pending
  transactions;
- a `Cube` is a block of transactions that is mined by a nonce search;
- a `Transaction` is a transfer or an unsigned reward, signed by its sender;
- a `Wallet` holds a key pair and submits signed transfers.

The earlier draft at the top of `index.ts` is modelled as well: `Block` and
`BlockChain`, the same linking, mining and validation logic without transactions.

Modules, one per source file:

| file | module | models |
|---|---|---|
| `wrappers.dfy` | `Wrappers` | `Option`, `Result`, `Outcome` and the ledger's error messages as an enum |
| `jstext.dfy` | `JsText` | number rendering, `null`/`undefined` in concatenations, `substring`, `Array(d + 1).join('0')`, JSON values |
| `crypto.dfy` | `Crypto` | digest, signing, verification and `JSON.stringify` as parameters, plus the mining exit test |
| `transaction.dfy` | `Transactions` | `src/transaction.ts` |
| `cube.dfy` | `Cubes` | `src/cube.ts` |
| `cubechain.dfy` | `CubeChains` | `src/cubechain.ts` |
| `wallet.dfy` | `Wallets` | `src/wallet.ts` |
| `block.dfy` | `Blocks` | `index.ts`, lines 3-81 |

Modelling choices:

- **Classes where the source mutates.** Each mutable object of the source is a
  Dafny `class`. Fields the source never reassigns are `const`. The ledger's
  arrays are `seq` fields that the methods reassign.
- **Value views of objects.** `Transaction`, `Cube` and `Block` each have a
  `Record()` view, a datatype of their current values. The two ledgers have
  `CubeValues()` and `BlockValues()`, the records of their chains. The
  specification functions work on these records: hashing, transaction validity,
  chain validity.
- **Crypto as parameters.** SHA-256, RSA signing and verification, and
  `JSON.stringify` are fields of one `Primitives` value. That value is a
  parameter of every operation that uses them, so each result holds for every
  choice of these functions. Properties that need more state it as a hypothesis:
  - `KeyPair`: the private key's signatures are non-empty and the public key
    verifies them;
  - `Injective`: the digest and `JSON.stringify` are collision free.
- **Thrown errors as values.** A thrown `Error` becomes a `Failure`/`Fail` value.
  Every check runs before the first mutation, so a failure leaves all state
  unchanged, as the source does.
- **Mining with fuel.** Mining in the source is an unbounded search. Here it
  takes a `fuel` bound and returns `mined`. `mined == false` means the search
  is still running: nothing has been appended yet.
- **Clock readings as parameters.** Each `Date.now()` becomes a parameter.

Source quirks the model keeps:

- **`verifierReward`.** `Transaction` declares no `verifierReward`, yet the ledger
  reads it. Here it is a field that defaults to 0.
- **Stale constructor hashes.**
  - The `Cube` and `Block` constructors compute `hash` before `nonce` (and `miner`)
    are assigned, so those fields enter the hashed text as `"undefined"`.
  - When the mining loop does not run, that stale hash is what gets appended.
    This happens when the hash already starts with `difficulty` zeros, and
    always when the difficulty is 0.
  - The chain is then invalid. `StaleCubeInvalidates` and `StaleBlockInvalidates`
    prove this for a collision-free digest. `CubeChain.UnminedTipInvalidates`
    and `BlockChain.StaleTipInvalidates` state it for the ledgers: at difficulty 0,
    `MinePendingTransactions` appends a cube with nonce 0, and `AddBlock` keeps
    the nonce and hash of the block it is given.
- **Balance check.** As written, the balance check of `addTransaction` never
  refuses. Nothing assigns `verifierReward`, so `amount + verifierReward` is NaN
  and `balance < NaN` is false. `AdmissionAsWritten` models this and
  `OverspendAccepted` shows the overspend it lets through. The rest of the model
  uses `Admission`, the intended check with a verifier reward of 0 (see
  "## Findings"). Even that check looks at mined cubes only, so two pending
  spends can together exceed the balance.

## Model

| member | source | states |
|---|---|---|
| Crypto.MinedIff | src/cube.ts:35 | the mining exit test `hash.substring(0, d) === Array(d + 1).join('0')` holds exactly when the hash has at least `d` characters and the first `d` are all '0' |
| Transactions.Validity | src/transaction.ts:38-49 | a reward (null sender) is valid whatever its signature; a transfer raises NoSignature exactly when its signature is null or empty; otherwise the verifier's answer on the sender, the digest and the signature decides |
| Transactions.SignedIsValid | src/transaction.ts:27-49 | sign-then-verify round trip: a transfer signed over its own digest with the private key matching its sender is valid |
| Transactions.Transaction.constructor | src/transaction.ts:10-16 | the given sender, payee, amount and timestamp, no signature, a verifier reward of 0 unless one is given |
| Transactions.Transaction.SignTransaction | src/transaction.ts:27-36 | refuses exactly when the sender is null or empty, and then leaves the signature unchanged; otherwise stores the signature of the digest under the private key; the digest is the same before and after |
| Cubes.ConstructorDigestIsStale | src/cube.ts:14-31 | for a collision-free digest, the hash the constructor stores (nonce and miner still undefined) differs from calculateHash of the cube, whatever its nonce and miner |
| Cubes.TxJsonInjective | src/cube.ts:27 | two transactions with the same JSON value are equal in every field |
| Cubes.TxsJsonInjective | src/cube.ts:27 | two transaction lists with the same JSON array are equal: same number, order and fields |
| Cubes.TransactionsBindDigest | src/cube.ts:23-32 | for a collision-free digest and JSON text, changing any field of any transaction, or their number or order, changes the cube's digest at every nonce |
| Cubes.AllValidIff | src/cube.ts:42-49 | hasValidTransactions is true exactly when every transaction is valid; an empty list gives true |
| Cubes.AllValidFirstFailure | src/cube.ts:42-49 | any other answer is the answer of the first transaction that is not valid (false or a NoSignature error), after only valid ones |
| Cubes.Cube.constructor | src/cube.ts:14-21 | stores timestamp, transactions, previousHash (default '') and miner (default ''), nonce 0, and the hash over the text with undefined nonce and miner |
| Cubes.Cube.MineCube | src/cube.ts:34-40 | on success the hash starts with `difficulty` zeros; the nonce only grows, by one per attempt; every skipped nonce failed the test; an already mined hash is kept with the nonce unchanged, so difficulty 0 always succeeds; once the loop has run the hash is calculateHash of the final fields; the other fields are untouched |
| Cubes.Cube.HasValidTransactions | src/cube.ts:42-49 | the loop with early return answers the transactions' validity in order, errors included |
| CubeChains.TxsBalanceConcat | src/cubechain.ts:71-90 | the balance replay over two concatenated lists is the sum of the two replays |
| CubeChains.CubesBalanceAppend | src/cubechain.ts:71-90 | appending a cube adds the replay of its transactions to every balance |
| CubeChains.CubesBalanceIsFold | src/cubechain.ts:71-90 | the balance over the cubes is one fold over the flat history of all their transactions |
| CubeChains.Admission | src/cubechain.ts:38-58 | addTransaction's verdict: accepts exactly when both addresses are present, the transaction is valid, the amount is positive and the mined balance covers amount plus verifier reward; each error exactly when the earlier checks pass and its own fails |
| CubeChains.AdmissionAsWritten | src/cubechain.ts:38-58 | addTransaction as written, with `amount + verifierReward` NaN: accepts exactly when both addresses are present, the transaction is valid and the amount positive; never refuses for the balance; any refusal is Admission's |
| CubeChains.OverspendAccepted | src/cubechain.ts:51-55 | a valid transfer of a positive amount above the sender's mined balance is accepted as written and refused by Admission |
| CubeChains.OverspendExample | src/cubechain.ts:51-55 | a transfer of 1 from an address with balance 0, accepted as written and refused by Admission |
| CubeChains.CheckCube | src/cubechain.ts:97-107 | one iteration of isChainValid answers true exactly when the cube's transactions are valid, its hash is current and it links to the previous hash; a NoSignature from the transactions propagates |
| CubeChains.ValidFromSound | src/cubechain.ts:93-108 | a true answer from index `i` on means each later cube passes all three checks |
| CubeChains.SoundValidFrom | src/cubechain.ts:93-110 | when every cube from index `i` on passes all three checks, the answer is true |
| CubeChains.ValidFromIff | src/cubechain.ts:92-111 | the checks from index `i` on answer true exactly when every cube from `i` on passes |
| CubeChains.ChainValidIff | src/cubechain.ts:92-111 | isChainValid is true exactly when every cube after the genesis cube has valid transactions, an up-to-date hash and the previous hash as its link; a one-cube chain is valid |
| CubeChains.StaleCubeInvalidates | src/cubechain.ts:92-111 | a cube after the genesis cube still carrying its constructor hash makes the chain invalid (collision-free digest) |
| CubeChains.CubeTamper | src/cubechain.ts:92-111 | changing the amount of one transaction of a mined cube after the genesis cube of a valid chain, without rehashing, makes the chain invalid (collision-free digest and JSON text) |
| CubeChains.CubeChain.constructor | src/cubechain.ts:10-15 | one genesis cube, the given difficulty (default 2), pool (default empty) and reward (default 100); every balance starts at 0 |
| CubeChains.CubeChain.CreateGenesisCube | src/cubechain.ts:17-19 | a fresh cube with no transactions, previousHash "0", empty miner and nonce 0 |
| CubeChains.CubeChain.GetLatestCube | src/cubechain.ts:21-23 | the last cube; defined because the chain is never empty, an invariant every mutator keeps |
| CubeChains.CubeChain.GetBalanceOfAddress | src/cubechain.ts:71-90 | the nested loops compute the replay of every mined transaction in order: the payee gains the amount, a non-reward sender loses amount plus verifier reward |
| CubeChains.CubeChain.AddTransaction | src/cubechain.ts:38-58 | the verdict is Admission against the mined chain; on success the pool is the old pool plus the transaction, on any error it is unchanged |
| CubeChains.CubeChain.VerifyTransaction | src/cubechain.ts:60-69 | succeeds exactly when the transaction (by identity) is pending; then one fresh unsigned reward of its verifier reward to the verifier is appended and the rest of the pool is kept; otherwise NotPending and the pool is unchanged |
| CubeChains.CubeChain.NewCube | src/cubechain.ts:26-28 | the new cube links to the latest hash, is mined by the reward address at the given time, holds the pool followed by one fresh unsigned reward of miningReward, has nonce 0 and carries its constructor hash |
| CubeChains.CubeChain.MinePendingTransactions | src/cubechain.ts:25-36 | once mined, exactly one cube is appended after the unchanged earlier ones, linked to the old latest hash, holding the old pool and the reward, with a hash that passes the test and is the one its fields determine; at difficulty 0 its nonce is still 0; the pool is emptied; every balance gains the pool's effect plus the reward for the miner; unmined, nothing changes |
| CubeChains.CubeChain.UnminedTipInvalidates | src/cubechain.ts:25-36 | a ledger whose latest cube after the genesis cube still has nonce 0 with the hash its fields determine fails isChainValid (collision-free digest) |
| CubeChains.CubeChain.IsChainValid | src/cubechain.ts:92-111 | the indexed loop with early returns answers ChainValidity of the current cubes, errors included |
| Wallets.SignedTransfer | src/wallet.ts:25-27 | the transfer from the public key to the payee, with the amount and time, signed over its own digest with the private key |
| Wallets.TransferAdmission | src/wallet.ts:25-30 | with a genuine key pair the wallet's transfer is accepted exactly when the payee is non-empty, the amount positive and the mined balance at least the amount; it never fails on its signature |
| Wallets.Wallet.constructor | src/wallet.ts:10-19 | holds the given key pair and the shared ledger |
| Wallets.Wallet.GetBalance | src/wallet.ts:21-23 | the ledger's balance of the public key; nothing changes |
| Wallets.Wallet.SendMoney | src/wallet.ts:25-30 | an empty public key fails with the signing error; otherwise the result mirrors Admission of the signed transfer; on success it returns that fresh transaction, now at the end of the pool; on failure the pool is unchanged |
| Wallets.Wallet.VerifyTransaction | src/wallet.ts:32-34 | the ledger's verifyTransaction with the wallet's public key as verifier |
| Blocks.AppendValid | index.ts:65-80 | appending a block keeps the chain valid exactly when the block's hash is current and it links to the last block |
| Blocks.TamperDetected | index.ts:65-80 | changing the data of a block after the genesis block of a valid chain, without rehashing, makes it invalid (collision-free digest and JSON text) |
| Blocks.StaleBlockInvalidates | index.ts:13-30 | a block after the genesis block still carrying a constructor hash, built with any previousHash, makes the chain invalid (collision-free digest) |
| Blocks.Block.constructor | index.ts:13-20 | stores index, timestamp, data and previousHash (default ''), nonce 0, and the hash over the text with an undefined nonce |
| Blocks.Block.MineBlock | index.ts:33-39 | on success the hash starts with `difficulty` zeros; the nonce grows by one per attempt; every skipped nonce failed; once the loop has run the hash is calculateHash; only nonce and hash change |
| Blocks.BlockChain.constructor | index.ts:46-49 | one genesis block with index 0, data "Genesis Block" and previousHash "0"; the given difficulty (default 2); the new chain is valid |
| Blocks.BlockChain.CreateGenesisBlock | index.ts:51-53 | a fresh block with index 0, data "Genesis Block", previousHash "0" and nonce 0 |
| Blocks.BlockChain.GetLatestBlock | index.ts:55-57 | the last block; defined because the chain is never empty |
| Blocks.BlockChain.AddBlock | index.ts:59-63 | the new block is linked to the old latest hash and mined; a hash that already passes keeps the nonce and the hash; once mined it is appended and the records of the other blocks are unchanged; once the loop has run its hash is current |
| Blocks.BlockChain.StaleTipInvalidates | index.ts:59-80 | a ledger whose latest block after the genesis block still carries a constructor hash fails isChainValid (collision-free digest) |
| Blocks.BlockChain.IsChainValid | index.ts:65-80 | the indexed loop with early returns answers ValidBlocks of the current blocks |

## Left out

- Cryptography is not computed. SHA-256, RSA signing and verification are
  uninterpreted parameters. The wallet's key generation (`generateKeyPairSync`)
  is replaced by a key pair given to the constructor.
- `JSON.stringify` is a parameter over a JSON value type. Its text, escaping and
  key order are not modelled. Transactions serialise their `verifierReward` as a
  sixth field.
- Number rendering covers integers only. JavaScript `number` arithmetic is
  modelled on unbounded integers: no floating point and no exponent notation.
  NaN appears only in `AdmissionAsWritten`. Here `verifierReward` is a field that
  defaults to 0.
- CubeChains.CubeChain.GetBalanceOfAddress: computes the intended balance. As
  written it is NaN for any address with a mined outgoing transfer
  (`balance -= undefined`, src/cubechain.ts:79). It is also NaN for an address
  credited by a mined verifier reward, whose amount is `undefined`
  (src/cubechain.ts:62, 84).
- CubeChains.Admission: its InsufficientBalance refusal is the intended check.
  It cannot happen in the source as written, where the comparison with NaN is
  always false (`AdmissionAsWritten`).
- CubeChains.CubeChain.AddTransaction: answers `Admission`, so it refuses an
  overspend. The source as written accepts it (`OverspendAccepted`).
- Cubes.Cube.MineCube: the search stops after `fuel` nonces. The source loops
  until it succeeds, possibly forever.
- Blocks.Block.MineBlock: the search stops after `fuel` nonces. The source loops
  until it succeeds, possibly forever.
- CubeChains.CubeChain.MinePendingTransactions: the search stops after `fuel`
  nonces, and the model leaves the chain unchanged until it succeeds.
- Blocks.BlockChain.AddBlock: the search stops after `fuel` nonces, and the block
  is appended only once it succeeds.
- Blocks.BlockChain.AddBlock: the records of the earlier blocks are stated
  unchanged only when the added block is not already in the chain. The source
  allows re-adding a block it already holds.
- Key pairs that do not match are not modelled. A signature made with one key is
  not proved to fail under another, since that needs unforgeability.
- The `CubeChain` constructor stores the caller's `pendingTransactions` array. In
  the source, later pushes are visible through the caller's alias. The model
  copies it, as a sequence value.
- Timestamps from `Date.now()` are parameters. The reward transaction and the new
  cube in `minePendingTransactions` take two separate readings.
- Console output is not modelled: `console.log` in `minePendingTransactions`,
  `verifyTransaction` and `mineBlock`.
- The demo driver `src/index.ts` is not part of this model (random wallets and
  amounts, console output).
- `file_lister.ts` is not part of this model (filesystem I/O).
- The demo at the bottom of `index.ts` is not part of this model. Its tampering
  scenario is stated as `Blocks.TamperDetected`.

## Findings

| source | as written | input that shows it | evidently intended | confidence | as-written member | corrected member |
|---|---|---|---|---|---|---|
| src/cubechain.ts:51-55 | `verifierReward` is never assigned, so `amount + verifierReward` is NaN and `balanceOfSender < totalAmount` is always false: the balance check never refuses | a signed transfer of 1 from an address whose mined balance is 0 (`CubeChains.OverspendExample`) | refuse when the balance is below the amount plus the verifier reward (0 when none is set) | high; not executed | CubeChains.AdmissionAsWritten | CubeChains.Admission |
