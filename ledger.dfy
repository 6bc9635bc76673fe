/** The ledger node (algod), the indexer and the SDK as this service sees them.
    The node and the indexer are oracles: each reply is a function of the history of
    exchanges made so far, so that any scripted or adversarial behaviour is covered.
    MessagePack encoding and decoding, signing and the fee computation are functions
    about which nothing is assumed. */
module Ledger {
  import opened Wrappers
  import opened Domain

  type Bytes = seq<bv8>
  type Address = Bytes
  type TxId = string

  /** Suggested transaction parameters: fee per byte, last round, genesis id and hash. */
  datatype TxParams = TxParams(fee: int, lastRound: int, genesisId: string, genesisHash: Bytes)

  /** An asset-creation transaction as the builder assembles it. */
  datatype Transaction = AssetCreate(
    sender: Address,
    total: int,
    decimals: int,
    unitName: string,
    assetName: string,
    url: string,
    manager: Address,
    reserve: Address,
    freeze: Address,
    clawback: Address,
    defaultFrozen: bool,
    note: Bytes,
    suggested: TxParams,
    fee: int)

  /** A transaction together with its signature. */
  datatype SignedTx = SignedTx(txn: Transaction, sig: Bytes)

  /** A transaction as the indexer returns it: its confirmed round and its note, which may be null. */
  datatype IndexedTx = IndexedTx(id: string, confirmedRound: int, note: Option<Bytes>)

  /** What `execute()` of a client request gives: it throws, or it returns a response
      that is unsuccessful or successful with a body. */
  datatype Reply<+T> = Thrown | Unsuccessful | Ok(value: T)

  /** One request to the node or the indexer, with the reply it got. */
  datatype Exchange =
    /** GetStatus: the node's last committed round. */
    | Status(statusReply: Reply<int>)
    /** TransactionParams: the suggested parameters. */
    | Params(paramsReply: Reply<TxParams>)
    /** RawTransaction: submit signed bytes; the body is the transaction id. */
    | Submit(raw: Bytes, submitReply: Reply<TxId>)
    /** PendingTransactionInformation: the confirmed round, or None (null) while pending. */
    | Pending(txId: TxId, pendingReply: Reply<Option<int>>)
    /** WaitForBlock: block until the given round; the body is ignored. */
    | WaitBlock(round: int, waitReply: Reply<()>)
    /** searchForTransactions: the asset-configuration transactions that `sender` sent for `assetId`. */
    | Search(sender: Address, assetId: int, searchReply: Reply<seq<IndexedTx>>)

  /** The node: each request's reply, given the history of exchanges before it. */
  datatype Algod = Algod(
    status: seq<Exchange> -> Reply<int>,
    params: seq<Exchange> -> Reply<TxParams>,
    submit: (seq<Exchange>, Bytes) -> Reply<TxId>,
    pending: (seq<Exchange>, TxId) -> Reply<Option<int>>,
    waitForBlock: (seq<Exchange>, int) -> Reply<()>)

  /** The indexer: the reply to a search, given the history of exchanges before it. */
  datatype Indexer = Indexer(search: (seq<Exchange>, Address, int) -> Reply<seq<IndexedTx>>)

  /** The service's account: the signature it puts on a transaction. */
  datatype Account = Account(signature: Transaction -> Bytes)

  /** The SDK functions the service calls. `decodeMetadata` gives None where the decoder throws. */
  datatype Sdk = Sdk(
    encodeMetadata: Metadata -> Bytes,
    decodeMetadata: Bytes -> Option<Metadata>,
    encodeSigned: SignedTx -> Bytes,
    feeByFeePerByte: (Transaction, int) -> int)

  /** Exchange `e` carries the node's reply to its request, given history `g` before it. */
  predicate AnsweredBy(algod: Algod, g: seq<Exchange>, e: Exchange)
  {
    match e
    case Status(r) => r == algod.status(g)
    case Params(r) => r == algod.params(g)
    case Submit(raw, r) => r == algod.submit(g, raw)
    case Pending(txId, r) => r == algod.pending(g, txId)
    case WaitBlock(round, r) => r == algod.waitForBlock(g, round)
    case Search(_, _, _) => false
  }

  /** Every exchange that extends `h` into `h2` went to the node and carries its reply. */
  predicate NodeTrace(algod: Algod, h: seq<Exchange>, h2: seq<Exchange>)
  {
    h <= h2 && forall i :: |h| <= i < |h2| ==> AnsweredBy(algod, h2[..i], h2[i])
  }

  /** The number of pending-transaction queries in `ex`. */
  function Polls(ex: seq<Exchange>): nat
  {
    if ex == [] then 0 else (if ex[0].Pending? then 1 else 0) + Polls(ex[1..])
  }

  /** A history that extends `h + mid` continues `h` with `mid` first. */
  lemma ExtendedHistory(h: seq<Exchange>, mid: seq<Exchange>, r: seq<Exchange>)
    requires h + mid <= r
    ensures r[|h|..] == mid + r[|h + mid|..]
  {
  }
}
