/** The read side of getAssetParams: among the asset-configuration transactions the indexer
    returns, take the one with the smallest confirmed round and decode its note; every
    failure on the way reads as "no metadata". */
module AssetQuery {
  import opened Wrappers
  import opened Domain
  import opened Ledger

  /** `k` is the transaction that a minimum by confirmed round picks: no transaction has a
      smaller round, and every transaction before it has a larger one. */
  predicate FirstEarliest(txs: seq<IndexedTx>, k: int)
  {
    && 0 <= k < |txs|
    && (forall j :: 0 <= j < |txs| ==> txs[k].confirmedRound <= txs[j].confirmedRound)
    && (forall j :: 0 <= j < k ==> txs[j].confirmedRound > txs[k].confirmedRound)
  }

  /** The left-to-right minimum by confirmed round: the transaction found so far is kept unless
      a later one has a strictly smaller round. */
  function EarliestIndex(txs: seq<IndexedTx>): (k: nat)
    requires txs != []
    ensures FirstEarliest(txs, k)
    ensures forall j :: FirstEarliest(txs, j) ==> j == k
  {
    if |txs| == 1 then 0
    else
      var k := EarliestIndex(txs[..|txs| - 1]);
      if txs[k].confirmedRound <= txs[|txs| - 1].confirmedRound then k else |txs| - 1
  }

  /** The note of the earliest transaction; None (null) when there is no transaction or when
      that transaction has no note. */
  function SelectedNote(txs: seq<IndexedTx>): (note: Option<Bytes>)
    ensures txs == [] ==> note == None
    ensures forall k | FirstEarliest(txs, k) :: note == txs[k].note
  {
    if txs == [] then None else txs[EarliestIndex(txs)].note
  }

  /** The metadata that getAssetParams reports for the indexer's reply: the decoded note of the
      earliest transaction, and None when the search threw, came back unsuccessful, found
      nothing, or when that note is absent or does not decode, whatever the other
      transactions carry. */
  function MetadataOf(reply: Reply<seq<IndexedTx>>, decode: Bytes -> Option<Metadata>): (md: Option<Metadata>)
    ensures !reply.Ok? ==> md == None
    ensures reply.Ok? && reply.value == [] ==> md == None
    ensures forall k | reply.Ok? && FirstEarliest(reply.value, k) ::
      md == (if reply.value[k].note.Some? then decode(reply.value[k].note.value) else None)
  {
    if !reply.Ok? then None
    else
      match SelectedNote(reply.value)
      case None => None
      case Some(note) => decode(note)
  }
}
