/** The asset-creation workflow of createAsset: fetch the suggested parameters, build the
    asset-create transaction, set its fee, sign it, submit it, wait for its confirmation with
    a budget of six rounds, and only then report the transaction id. */
module Issuance {
  import opened Wrappers
  import opened Domain
  import opened Ledger
  import opened Faults
  import opened Confirmation

  /** The round budget createAsset gives waitForConfirmation. */
  const ConfirmationRounds := 6

  /** The single-issuer policy: the service address is the sender and holds all four control roles. */
  predicate SingleIssuer(tx: Transaction, address: Address)
  {
    && tx.sender == address
    && tx.manager == address
    && tx.reserve == address
    && tx.freeze == address
    && tx.clawback == address
  }

  /** The transaction carries the model's asset fields unchanged. */
  predicate CopiesModel(tx: Transaction, fields: AssetFields)
  {
    && tx.total == fields.total
    && tx.decimals == fields.decimals
    && tx.unitName == fields.unitName
    && tx.assetName == fields.assetName
    && tx.url == fields.url
    && tx.defaultFrozen == fields.defaultFrozen
  }

  /** The asset-create transaction builder, with the suggested parameters applied. */
  function AssetCreateTransaction(address: Address, fields: AssetFields, note: Bytes, params: TxParams)
    : (tx: Transaction)
    ensures SingleIssuer(tx, address) && CopiesModel(tx, fields)
    ensures tx.note == note && tx.suggested == params
  {
    AssetCreate(
      address, fields.total, fields.decimals, fields.unitName, fields.assetName, fields.url,
      address, address, address, address, fields.defaultFrozen, note, params, params.fee)
  }

  /** The transaction createAsset signs: built from the model with the encoded metadata as its
      note, then given the fee computed from the suggested fee per byte. */
  function IssuedTransaction(sdk: Sdk, address: Address, fields: AssetFields, params: TxParams): (tx: Transaction)
    ensures SingleIssuer(tx, address) && CopiesModel(tx, fields)
    ensures tx.note == sdk.encodeMetadata(fields.metadata) && tx.suggested == params
  {
    var tx := AssetCreateTransaction(address, fields, sdk.encodeMetadata(fields.metadata), params);
    tx.(fee := sdk.feeByFeePerByte(tx, params.fee))
  }

  /** The bytes submitted for `tx`: the encoding of the transaction signed by the account. */
  function SubmittedBytes(sdk: Sdk, account: Account, tx: Transaction): Bytes
  {
    sdk.encodeSigned(SignedTx(tx, account.signature(tx)))
  }

  /** createAsset on a model with these fields, from history `h`: the transaction id on
      success, or the fault that ended it, with the history it leaves. */
  function CreateRun(algod: Algod, sdk: Sdk, account: Account, address: Address, fields: AssetFields, h: seq<Exchange>)
    : (run: (Result<TxId, Fault>, seq<Exchange>))
    ensures h < run.1
  {
    var p := algod.params(h);
    var h1 := h + [Params(p)];
    match p
    case Thrown => (Failure(ClientError), h1)
    case Unsuccessful => (Failure(ParamsUnavailable), h1)
    case Ok(params) =>
      var raw := SubmittedBytes(sdk, account, IssuedTransaction(sdk, address, fields, params));
      var s := algod.submit(h1, raw);
      var h2 := h1 + [Submit(raw, s)];
      match s
      case Thrown => (Failure(ClientError), h2)
      case Unsuccessful => (Failure(TransactionNotAccepted), h2)
      case Ok(txId) =>
        var confirmation := ConfirmationRun(algod, txId, ConfirmationRounds, h2);
        (if confirmation.0.Pass? then Success(txId) else Failure(confirmation.0.error), confirmation.1)
  }

  /** Parameters first in createAsset: it goes to the node only and fetches the parameters
      first; if that fails nothing else happens; the one submission comes second and carries
      the signed single-issuer transaction built from the model. */
  lemma ParametersBeforeSubmission(algod: Algod, sdk: Sdk, account: Account, address: Address, fields: AssetFields, h: seq<Exchange>)
    ensures var run := CreateRun(algod, sdk, account, address, fields, h);
      var ex := run.1[|h|..];
      var p := algod.params(h);
      && NodeTrace(algod, h, run.1)
      && ex[0] == Params(p)
      && (!p.Ok? ==> |ex| == 1 && run.0 == Failure(if p.Thrown? then ClientError else ParamsUnavailable))
      && (forall i :: 0 <= i < |ex| && ex[i].Submit? ==>
            && i == 1 && p.Ok?
            && ex[i].raw == SubmittedBytes(sdk, account, IssuedTransaction(sdk, address, fields, p.value)))
  {
    var run := CreateRun(algod, sdk, account, address, fields, h);
    var ex := run.1[|h|..];
    var p := algod.params(h);
    var h1 := h + [Params(p)];
    assert run.1[..|h|] == h;
    assert AnsweredBy(algod, run.1[..|h|], run.1[|h|]);
    if p.Ok? {
      var raw := SubmittedBytes(sdk, account, IssuedTransaction(sdk, address, fields, p.value));
      var s := algod.submit(h1, raw);
      var h2 := h1 + [Submit(raw, s)];
      assert run.1[..|h1|] == h1;
      assert AnsweredBy(algod, run.1[..|h1|], run.1[|h1|]);
      if s.Ok? {
        assert run.1 == ConfirmationRun(algod, s.value, ConfirmationRounds, h2).1;
        ConfirmationTalksToNode(algod, s.value, ConfirmationRounds, h2);
        ConfirmationShape(algod, s.value, ConfirmationRounds, h2);
        var polls := run.1[|h2| + 1..];
        ExtendedHistory(h, [Params(p), Submit(raw, s), run.1[|h2|]], run.1);
        assert ex == [Params(p), Submit(raw, s), run.1[|h2|]] + polls;
        forall i | 2 <= i < |ex|
          ensures !ex[i].Submit?
        {
          if i >= 3 {
            assert ex[i] == polls[i - 3];
          }
        }
      } else {
        assert ex == [Params(p), Submit(raw, s)];
      }
    } else {
      assert ex == [Params(p)];
    }
  }

  /** Confirmation only after acceptance: createAsset makes confirmation requests only after
      the node accepted the submission, and queries only the id the node returned; a
      submission the node does not accept ends the call with no confirmation request. */
  lemma ConfirmationAfterAcceptance(algod: Algod, sdk: Sdk, account: Account, address: Address, fields: AssetFields, h: seq<Exchange>)
    ensures var run := CreateRun(algod, sdk, account, address, fields, h);
      var ex := run.1[|h|..];
      && (forall i :: 0 <= i < |ex| && (ex[i].Status? || ex[i].Pending? || ex[i].WaitBlock?) ==>
            && 2 <= i && ex[1].Submit? && ex[1].submitReply.Ok?
            && (ex[i].Pending? ==> ex[i].txId == ex[1].submitReply.value))
      && (|ex| >= 2 && ex[1].Submit? && !ex[1].submitReply.Ok? ==>
            |ex| == 2 && run.0 == Failure(if ex[1].submitReply.Thrown? then ClientError else TransactionNotAccepted))
  {
    var run := CreateRun(algod, sdk, account, address, fields, h);
    var ex := run.1[|h|..];
    var p := algod.params(h);
    var h1 := h + [Params(p)];
    if p.Ok? {
      var raw := SubmittedBytes(sdk, account, IssuedTransaction(sdk, address, fields, p.value));
      var s := algod.submit(h1, raw);
      var h2 := h1 + [Submit(raw, s)];
      if s.Ok? {
        assert run.1 == ConfirmationRun(algod, s.value, ConfirmationRounds, h2).1;
        ConfirmationTalksToNode(algod, s.value, ConfirmationRounds, h2);
        ConfirmationShape(algod, s.value, ConfirmationRounds, h2);
        var polls := run.1[|h2| + 1..];
        ExtendedHistory(h, [Params(p), Submit(raw, s), run.1[|h2|]], run.1);
        assert ex == [Params(p), Submit(raw, s), run.1[|h2|]] + polls;
        forall i | 2 <= i < |ex|
          ensures ex[i].Status? || ex[i].Pending? || ex[i].WaitBlock?
          ensures ex[i].Pending? ==> ex[i].txId == s.value
        {
          if i >= 3 {
            assert ex[i] == polls[i - 3];
          }
        }
      } else {
        assert ex == [Params(p), Submit(raw, s)];
      }
    } else {
      assert ex == [Params(p)];
    }
  }

  /** The id is reported only after confirmation: createAsset succeeds exactly when the node
      accepted the submission and the last exchange is a query that reports that transaction
      confirmed; it then reports the id the node returned; and it makes at most six queries. */
  lemma StampOnlyAfterConfirmation(algod: Algod, sdk: Sdk, account: Account, address: Address, fields: AssetFields, h: seq<Exchange>)
    ensures var run := CreateRun(algod, sdk, account, address, fields, h);
      var ex := run.1[|h|..];
      && (run.0.Success? <==>
            |ex| >= 3 && ex[1].Submit? && ex[1].submitReply.Ok? && Confirms(ex[|ex| - 1], ex[1].submitReply.value))
      && (run.0.Success? ==> run.0.value == ex[1].submitReply.value)
      && Polls(ex) <= ConfirmationRounds
  {
    var run := CreateRun(algod, sdk, account, address, fields, h);
    var ex := run.1[|h|..];
    var p := algod.params(h);
    var h1 := h + [Params(p)];
    if p.Ok? {
      var raw := SubmittedBytes(sdk, account, IssuedTransaction(sdk, address, fields, p.value));
      var s := algod.submit(h1, raw);
      var h2 := h1 + [Submit(raw, s)];
      if s.Ok? {
        var txId := s.value;
        SingleSuccessExit(algod, txId, ConfirmationRounds, h2);
        BoundedPolling(algod, txId, ConfirmationRounds, h2);
        ConfirmationTalksToNode(algod, txId, ConfirmationRounds, h2);
        var confirmation := ConfirmationRun(algod, txId, ConfirmationRounds, h2);
        assert run.1 == confirmation.1;
        var cx := run.1[|h2|..];
        assert Polls(cx) <= Budget(0, ConfirmationRounds) == ConfirmationRounds;
        ExtendedHistory(h, [Params(p), Submit(raw, s)], run.1);
        assert ex == [Params(p), Submit(raw, s)] + cx;
        assert ex[1..][1..] == cx;
        assert Polls(ex) == Polls(ex[1..]) == Polls(cx);
        assert ex[|ex| - 1] == cx[|cx| - 1];
        if Confirms(ex[|ex| - 1], txId) {
          assert Confirms(cx[|cx| - 1], txId);
        }
      } else {
        assert ex == [Params(p), Submit(raw, s)];
        assert ex[1..][1..] == [];
        assert Polls(ex) == Polls(ex[1..]) == Polls(ex[1..][1..]) == 0;
      }
    } else {
      assert ex == [Params(p)];
      assert ex[1..] == [];
    }
  }

  /** Submission and confirmation happen: once the parameters arrive, createAsset submits the
      signed single-issuer transaction as its second request; once the node accepts it, the
      rest of the call is waitForConfirmation for the returned id with a budget of six rounds,
      whose outcome decides the result. */
  lemma SubmitsThenConfirms(algod: Algod, sdk: Sdk, account: Account, address: Address, fields: AssetFields, h: seq<Exchange>)
    ensures var run := CreateRun(algod, sdk, account, address, fields, h);
      var ex := run.1[|h|..];
      var p := algod.params(h);
      p.Ok? ==>
        var raw := SubmittedBytes(sdk, account, IssuedTransaction(sdk, address, fields, p.value));
        var s := algod.submit(h + [Params(p)], raw);
        var h2 := h + [Params(p), Submit(raw, s)];
        && |ex| >= 2 && ex[1] == Submit(raw, s)
        && (s.Ok? ==>
              var confirmation := ConfirmationRun(algod, s.value, ConfirmationRounds, h2);
              && run.1 == confirmation.1
              && (run.0 == Success(s.value) <==> confirmation.0 == Pass)
              && (confirmation.0.Fail? ==> run.0 == Failure(confirmation.0.error)))
  {
    var run := CreateRun(algod, sdk, account, address, fields, h);
    var ex := run.1[|h|..];
    var p := algod.params(h);
    if p.Ok? {
      var raw := SubmittedBytes(sdk, account, IssuedTransaction(sdk, address, fields, p.value));
      var h1 := h + [Params(p)];
      var s := algod.submit(h1, raw);
      var h2 := h1 + [Submit(raw, s)];
      assert h2 == h + [Params(p), Submit(raw, s)];
      assert h2 <= run.1;
      assert ex[1] == run.1[|h| + 1] == h2[|h| + 1];
    }
  }

  /** A node that accepts the submission and never confirms it: createAsset fails with the
      timeout of six rounds after exactly six pending-status queries. */
  lemma AcceptedNeverConfirmed(algod: Algod, sdk: Sdk, account: Account, address: Address, fields: AssetFields, h: seq<Exchange>, txId: TxId)
    requires algod.params(h).Ok?
    requires forall g, raw :: algod.submit(g, raw) == Ok(txId)
    requires forall g :: algod.status(g).Ok?
    requires forall g :: algod.pending(g, txId) == Ok(None)
    requires forall g, r :: algod.waitForBlock(g, r).Ok?
    ensures var run := CreateRun(algod, sdk, account, address, fields, h);
      && run.0 == Failure(NotConfirmed(ConfirmationRounds))
      && Polls(run.1[|h|..]) == ConfirmationRounds
  {
    var run := CreateRun(algod, sdk, account, address, fields, h);
    var ex := run.1[|h|..];
    var p := algod.params(h);
    var raw := SubmittedBytes(sdk, account, IssuedTransaction(sdk, address, fields, p.value));
    var h1 := h + [Params(p)];
    var h2 := h1 + [Submit(raw, Ok(txId))];
    assert algod.submit(h1, raw) == Ok(txId);
    NeverConfirmedTimesOut(algod, txId, ConfirmationRounds, h2);
    var confirmation := ConfirmationRun(algod, txId, ConfirmationRounds, h2);
    assert run.1 == confirmation.1;
    var cx := run.1[|h2|..];
    ExtendedHistory(h, [Params(p), Submit(raw, Ok(txId))], run.1);
    assert ex == [Params(p), Submit(raw, Ok(txId))] + cx;
    assert ex[1..][1..] == cx;
    assert Polls(ex) == Polls(ex[1..]) == Polls(cx);
  }
}
