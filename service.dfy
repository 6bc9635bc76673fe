/** AlgoService: the write workflow (createAsset and its confirmation loop) and the read
    workflow (getAssetParams). The service holds its collaborators and address, fixed once
    wired; every request to the node or the indexer appends one exchange to the history. */
module Service {
  import opened Wrappers
  import opened Domain
  import opened Ledger
  import opened Faults
  import opened Confirmation
  import opened Issuance
  import opened AssetQuery

  class AlgoService {
    const algod: Algod
    const indexer: Indexer
    const sdk: Sdk
    const account: Account
    const address: Address

    constructor (algod: Algod, indexer: Indexer, sdk: Sdk, account: Account, address: Address)
      ensures this.algod == algod && this.indexer == indexer && this.sdk == sdk
      ensures this.account == account && this.address == address
    {
      this.algod := algod;
      this.indexer := indexer;
      this.sdk := sdk;
      this.account := account;
      this.address := address;
    }

    /** Poll the node for `txId` for at most `timeout` rounds after its last round. */
    method WaitForConfirmation(h0: seq<Exchange>, txId: TxId, timeout: int) returns (outcome: Outcome<Fault>, h: seq<Exchange>)
      ensures (outcome, h) == ConfirmationRun(algod, txId, timeout, h0)
    {
      h := h0;
      var statusResponse := algod.status(h);
      h := h + [Status(statusResponse)];
      if !statusResponse.Ok? {
        outcome := Fail(if statusResponse.Thrown? then ClientError else NodeStatusUnavailable);
        return;
      }
      var lastRound := statusResponse.value + 1;
      var maxRound := lastRound + timeout;
      var currentRound := lastRound;
      while currentRound < maxRound
        invariant PollRun(algod, txId, timeout, currentRound, maxRound, h) == ConfirmationRun(algod, txId, timeout, h0)
        decreases maxRound - currentRound
      {
        var response := algod.pending(h, txId);
        h := h + [Pending(txId, response)];
        if response.Ok? {
          if response.value.None? {
            var waited := algod.waitForBlock(h, currentRound);
            h := h + [WaitBlock(currentRound, waited)];
            if !waited.Ok? {
              outcome := Fail(if waited.Thrown? then ClientError else WaitForBlockFailed);
              return;
            }
          } else {
            outcome := Pass;
            return;
          }
        } else {
          outcome := Fail(if response.Thrown? then ClientError else TransactionRejected);
          return;
        }
        currentRound := currentRound + 1;
      }
      outcome := Fail(NotConfirmed(timeout));
    }

    /** Create the asset the model describes and, once its transaction is confirmed, stamp the
        transaction id on the model and return it. */
    method CreateAsset(assetModel: AssetModel, h0: seq<Exchange>) returns (result: Result<AssetModel, Fault>, h: seq<Exchange>)
      modifies assetModel`txId
      ensures var run := CreateRun(algod, sdk, account, address, old(assetModel.Fields()), h0);
        && h == run.1
        && assetModel.Fields() == old(assetModel.Fields())
        && (run.0.Success? ==> result == Success(assetModel) && assetModel.txId == Some(run.0.value))
        && (run.0.Failure? ==> result == Failure(run.0.error) && assetModel.txId == old(assetModel.txId))
    {
      h := h0;
      var txParResp := algod.params(h);
      h := h + [Params(txParResp)];
      if !txParResp.Ok? {
        result := Failure(if txParResp.Thrown? then ClientError else ParamsUnavailable);
        return;
      }
      var txParams := txParResp.value;
      var encAssetProps := sdk.encodeMetadata(assetModel.metadata);
      var txTicket := AssetCreateTransaction(address, assetModel.Fields(), encAssetProps, txParams);
      txTicket := txTicket.(fee := sdk.feeByFeePerByte(txTicket, txParams.fee));
      var signedTx := SignedTx(txTicket, account.signature(txTicket));
      var encodedTxBytes := sdk.encodeSigned(signedTx);
      var txResponse := algod.submit(h, encodedTxBytes);
      h := h + [Submit(encodedTxBytes, txResponse)];
      if txResponse.Ok? {
        var txId := txResponse.value;
        var confirmed;
        confirmed, h := WaitForConfirmation(h, txId, ConfirmationRounds);
        if confirmed.Fail? {
          result := Failure(confirmed.error);
          return;
        }
        assetModel.txId := Some(txId);
        result := Success(assetModel);
      } else {
        result := Failure(if txResponse.Thrown? then ClientError else TransactionNotAccepted);
      }
    }

    /** The metadata attached at the creation of asset `assetId`, or None. */
    method GetAssetParams(h0: seq<Exchange>, assetId: int) returns (metadataOpt: Option<Metadata>, h: seq<Exchange>)
      ensures h == h0 + [Search(address, assetId, indexer.search(h0, address, assetId))]
      ensures metadataOpt == MetadataOf(indexer.search(h0, address, assetId), sdk.decodeMetadata)
    {
      metadataOpt := None;
      var txResponse := indexer.search(h0, address, assetId);
      h := h0 + [Search(address, assetId, txResponse)];
      if txResponse.Thrown? {
        return;
      }
      if txResponse.Ok? {
        var txs := txResponse.value;
        var note := SelectedNote(txs);
        if note.Some? {
          var decoded := sdk.decodeMetadata(note.value);
          if decoded.Some? {
            metadataOpt := decoded;
          }
        }
      }
    }
  }
}
