/**
 * Properties of the `get_tokens` and `get_metadata` handlers, stated over
 * `GetTokensRun` and so holding for every behaviour of the ledger library.
 */
module FaucetProperties {

  import opened Machine
  import opened FaucetHandlers

  /** Number of calls in `calls` that belong to pipeline step `step`. */
  function Occurrences(calls: seq<Call>, step: nat): nat
  {
    if calls == [] then 0
    else (if calls[0].Position() == step then 1 else 0) + Occurrences(calls[1..], step)
  }

  /** In a trace whose i-th call is step offset + i, every step occurs at most once. */
  lemma {:induction false} OccurrencesInOrderedTrace(calls: seq<Call>, offset: nat, step: nat)
    requires forall i | 0 <= i < |calls| :: calls[i].Position() == offset + i
    ensures Occurrences(calls, step) == if offset <= step < offset + |calls| then 1 else 0
  {
    if calls != [] {
      OccurrencesInOrderedTrace(calls[1..], offset + 1, step);
    }
  }

  /** The calls of a run are a prefix of the pipeline: the i-th call made is always step i. */
  lemma CallsFollowPipelineOrder(req: FaucetRequest, state: FaucetState, ledger: Ledger)
    ensures var calls := GetTokensRun(req, state, ledger).calls;
      |calls| <= PipelineLength && forall i | 0 <= i < |calls| :: calls[i].Position() == i
  {
  }

  /**
   * The calls carry the request's own arguments: the client is built from the faucet's
   * configuration, the request's account id is decoded, the asset is the faucet's at the
   * requested amount, and what is executed is the request the client built from the template.
   */
  lemma CallsCarryRequestArguments(req: FaucetRequest, state: FaucetState, ledger: Ledger)
    ensures var calls := GetTokensRun(req, state, ledger).calls;
      |calls| > 0 ==> calls[0] == BuildClient(state.faucetConfig)
    ensures var calls := GetTokensRun(req, state, ledger).calls;
      |calls| > 1 ==> calls[1] == AccountIdFromHex(req.accountId)
    ensures var calls := GetTokensRun(req, state, ledger).calls;
      |calls| > 2 ==> calls[2] == NewFungibleAsset(state.id, req.assetAmount)
    ensures var calls := GetTokensRun(req, state, ledger).calls;
      |calls| > 4 ==>
        calls[3].BuildTransactionRequest? && calls[4].NewTransaction?
        && calls[4].client == calls[3].client
        && ledger.buildTransactionRequest(calls[3].client, calls[3].template) == Ok(calls[4].request)
  {
  }

  /** A call is made only when every earlier call succeeded: nothing runs after a failure. */
  lemma NoCallAfterAFailure(req: FaucetRequest, state: FaucetState, ledger: Ledger)
    ensures var calls := GetTokensRun(req, state, ledger).calls;
      forall i | 0 <= i < |calls| - 1 :: Reported(ledger, calls[i]).None?
  {
  }

  /** An amount outside the whitelist is refused as a bad request before any collaborator is called. */
  lemma InvalidAmountRejectedBeforeAnyCall(req: FaucetRequest, state: FaucetState, ledger: Ledger)
    ensures var run := GetTokensRun(req, state, ledger);
      (run.calls == [] <==> req.assetAmount !in TokenAmountOptions)
      && (req.assetAmount !in TokenAmountOptions ==> run.reply == Failed(BadRequest(InvalidAmountMessage)))
  {
  }

  /** `get_metadata` advertises exactly the amounts for which `get_tokens` goes past the amount check. */
  lemma AdvertisedAmountsAreAccepted(req: FaucetRequest, state: FaucetState, ledger: Ledger)
    ensures req.assetAmount in GetMetadata(state, ledger).assetAmountOptions
        <==> GetTokensRun(req, state, ledger).calls != []
  {
  }

  /**
   * A failed call ends the run with the error that call reports, and a run that stops
   * before submission stops because its last call failed.
   */
  lemma FailedCallDecidesReply(req: FaucetRequest, state: FaucetState, ledger: Ledger)
    ensures var run := GetTokensRun(req, state, ledger);
      run.calls != [] && Reported(ledger, run.calls[|run.calls| - 1]).Some? ==>
        run.reply == Failed(Reported(ledger, run.calls[|run.calls| - 1]).value)
    ensures var run := GetTokensRun(req, state, ledger);
      0 < |run.calls| < PipelineLength ==> Reported(ledger, run.calls[|run.calls| - 1]).Some?
  {
  }

  /**
   * Error classes: a client-construction failure is reported as is and precedes account-id
   * decoding; an undecodable account id is a bad request carrying the decoder's message;
   * every failure after that is an internal server error.
   */
  lemma ErrorClassification(req: FaucetRequest, state: FaucetState, ledger: Ledger)
    ensures var run := GetTokensRun(req, state, ledger);
      |run.calls| == 1 ==>
        ledger.buildClient(state.faucetConfig).Err?
        && run.reply == Failed(ledger.buildClient(state.faucetConfig).error)
    ensures var run := GetTokensRun(req, state, ledger);
      |run.calls| == 2 ==>
        ledger.buildClient(state.faucetConfig).Ok?
        && ledger.accountIdFromHex(req.accountId).Err?
        && run.reply == Failed(BadRequest(ledger.accountIdFromHex(req.accountId).error))
    ensures var run := GetTokensRun(req, state, ledger);
      run.reply.Failed? && |run.calls| >= 3 ==> run.reply.error.InternalServerError?
  {
  }

  /** A whitelisted amount with a failing client construction ends with that error, before any decoding. */
  lemma ClientBuildFailureIsPassedOn(req: FaucetRequest, state: FaucetState, ledger: Ledger)
    requires req.assetAmount in TokenAmountOptions
    requires ledger.buildClient(state.faucetConfig).Err?
    ensures GetTokensRun(req, state, ledger)
         == Run(Failed(ledger.buildClient(state.faucetConfig).error), [BuildClient(state.faucetConfig)])
  {
  }

  /**
   * Once the client is built, an account id the decoder rejects is a bad request carrying the
   * decoder's message, and no asset or transaction is constructed.
   */
  lemma MalformedAccountIdIsBadRequest(req: FaucetRequest, state: FaucetState, ledger: Ledger)
    requires req.assetAmount in TokenAmountOptions
    requires ledger.buildClient(state.faucetConfig).Ok?
    requires ledger.accountIdFromHex(req.accountId).Err?
    ensures GetTokensRun(req, state, ledger)
         == Run(Failed(BadRequest(ledger.accountIdFromHex(req.accountId).error)),
                [BuildClient(state.faucetConfig), AccountIdFromHex(req.accountId)])
  {
  }

  /** A rejected asset construction is an internal server error, and no transaction work follows. */
  lemma AssetFailureIsServerFault(req: FaucetRequest, state: FaucetState, ledger: Ledger)
    requires req.assetAmount in TokenAmountOptions
    requires ledger.buildClient(state.faucetConfig).Ok?
    requires ledger.accountIdFromHex(req.accountId).Ok?
    requires ledger.fungibleAssetError(state.id, req.assetAmount).Some?
    ensures GetTokensRun(req, state, ledger)
         == Run(Failed(InternalServerError(ledger.fungibleAssetError(state.id, req.assetAmount).value)),
                [BuildClient(state.faucetConfig), AccountIdFromHex(req.accountId), NewFungibleAsset(state.id, req.assetAmount)])
  {
  }

  /**
   * With the client, target and asset in hand, a failure of request building, execution or
   * submission on that client is an internal server error carrying the client's message,
   * and that failing call is the last one made.
   */
  lemma ClientStepFailureIsServerFault(req: FaucetRequest, state: FaucetState, ledger: Ledger)
    requires req.assetAmount in TokenAmountOptions
    requires ledger.buildClient(state.faucetConfig).Ok?
    requires ledger.accountIdFromHex(req.accountId).Ok?
    requires ledger.fungibleAssetError(state.id, req.assetAmount).None?
    ensures var client := ledger.buildClient(state.faucetConfig).value;
      var template := MintTemplate(state, req, ledger.accountIdFromHex(req.accountId).value);
      var run := GetTokensRun(req, state, ledger);
      var built := ledger.buildTransactionRequest(client, template);
      (built.Err? ==>
         |run.calls| == 4 && run.reply == Failed(InternalServerError(built.error)))
      && (built.Ok? && ledger.newTransaction(client, built.value).Err? ==>
         |run.calls| == 5 && run.reply == Failed(InternalServerError(ledger.newTransaction(client, built.value).error)))
      && (built.Ok? && ledger.newTransaction(client, built.value).Ok?
          && ledger.submitTransaction(client, ledger.newTransaction(client, built.value).value).Err? ==>
         |run.calls| == 6
         && run.reply == Failed(InternalServerError(
              ledger.submitTransaction(client, ledger.newTransaction(client, built.value).value).error)))
  {
  }

  /** At most one execution and at most one submission happen per request. */
  lemma AtMostOneExecutionAndSubmission(req: FaucetRequest, state: FaucetState, ledger: Ledger)
    ensures Occurrences(GetTokensRun(req, state, ledger).calls, NewTransactionStep) <= 1
    ensures Occurrences(GetTokensRun(req, state, ledger).calls, SubmitTransactionStep) <= 1
  {
    var calls := GetTokensRun(req, state, ledger).calls;
    CallsFollowPipelineOrder(req, state, ledger);
    OccurrencesInOrderedTrace(calls, 0, NewTransactionStep);
    OccurrencesInOrderedTrace(calls, 0, SubmitTransactionStep);
  }

  /** What is submitted is exactly the result of a successful execution, on the same client. */
  lemma SubmissionOnlyAfterSuccessfulExecution(req: FaucetRequest, state: FaucetState, ledger: Ledger)
    ensures var calls := GetTokensRun(req, state, ledger).calls;
      forall i | 0 <= i < |calls| && calls[i].SubmitTransaction? ::
        i == SubmitTransactionStep
        && calls[i - 1].NewTransaction?
        && calls[i - 1].client == calls[i].client
        && ledger.newTransaction(calls[i - 1].client, calls[i - 1].request) == Ok(calls[i].result)
  {
  }

  /** Every client call runs on the client built from the faucet's configuration. */
  lemma ClientCallsUseTheBuiltClient(req: FaucetRequest, state: FaucetState, ledger: Ledger)
    ensures var calls := GetTokensRun(req, state, ledger).calls;
      forall i | 3 <= i < |calls| ::
        ledger.buildClient(state.faucetConfig).Ok?
        && (calls[i].BuildTransactionRequest? || calls[i].NewTransaction? || calls[i].SubmitTransaction?)
        && calls[i].client == ledger.buildClient(state.faucetConfig).value
  {
  }

  /**
   * The template handed to the client mints the requested amount of the faucet's asset to the
   * decoded target account, as an off-chain note exactly when the request asks for a private note.
   */
  lemma TemplateIsMintOfRequestedAsset(req: FaucetRequest, state: FaucetState, ledger: Ledger)
    ensures var calls := GetTokensRun(req, state, ledger).calls;
      forall i | 0 <= i < |calls| && calls[i].BuildTransactionRequest? ::
        ledger.accountIdFromHex(req.accountId).Ok?
        && calls[i].template == MintFungibleAsset(
             FungibleAsset(state.id, req.assetAmount),
             ledger.accountIdFromHex(req.accountId).value,
             if req.isPrivateNote then OffChain else Public)
  {
  }

  /**
   * The private-note flag changes nothing but the note type of the template: two requests that
   * differ only in the flag make the same first three calls with the same outcome, and hand the
   * client templates that differ only in their note type.
   */
  lemma FlagOnlySelectsNoteType(req: FaucetRequest, state: FaucetState, ledger: Ledger, flag: bool)
    ensures var run := GetTokensRun(req, state, ledger);
      var other := GetTokensRun(req.(isPrivateNote := flag), state, ledger);
      (|run.calls| <= 3 ==> run == other)
      && (|run.calls| > 3 ==>
            |other.calls| > 3
            && run.calls[..3] == other.calls[..3]
            && run.calls[3].BuildTransactionRequest?
            && other.calls[3] == run.calls[3].(template := run.calls[3].template.(noteType := NoteTypeFor(flag))))
  {
  }

  /**
   * A request is served exactly when all six collaborator calls succeed and the first note the
   * executed transaction created is a full note.
   */
  lemma ServedIffPipelineSucceeds(req: FaucetRequest, state: FaucetState, ledger: Ledger)
    ensures var run := GetTokensRun(req, state, ledger);
      run.reply.Served? <==>
        |run.calls| == PipelineLength
        && (forall i | 0 <= i < PipelineLength :: Reported(ledger, run.calls[i]).None?)
        && run.calls[SubmitTransactionStep].SubmitTransaction?
        && |run.calls[SubmitTransactionStep].result.createdNotes| > 0
        && run.calls[SubmitTransactionStep].result.createdNotes[0].Full?
  {
  }

  /**
   * A served response is the download of the executed transaction's first note: its record
   * bytes as body, its id as the `Note-Id` header, the file name `note.mno` and an
   * octet-stream content type.
   */
  lemma ServedResponseIsFirstNote(req: FaucetRequest, state: FaucetState, ledger: Ledger)
    ensures var run := GetTokensRun(req, state, ledger);
      run.reply.Served? ==>
        |run.calls| == PipelineLength
        && run.calls[SubmitTransactionStep].SubmitTransaction?
        && var notes := run.calls[SubmitTransactionStep].result.createdNotes;
           |notes| > 0 && notes[0].Full?
           && run.reply.response.status == HttpOk
           && run.reply.response.body == ledger.noteRecordBytes(notes[0].note)
           && run.reply.response.noteIdHeader == ledger.noteIdToString(ledger.noteId(notes[0].note))
           && run.reply.response.filename == "note.mno"
           && run.reply.response.contentType == "application/octet-stream"
  {
  }

  /**
   * The created notes are looked at only after the transaction was submitted successfully, so a
   * header-only first note fails the request after its transaction has reached the network, and
   * an empty note list panics after submission.
   */
  lemma NoteInspectedOnlyAfterSubmission(req: FaucetRequest, state: FaucetState, ledger: Ledger)
    ensures var run := GetTokensRun(req, state, ledger);
      |run.calls| == PipelineLength && Reported(ledger, run.calls[SubmitTransactionStep]).None? ==>
        run.calls[SubmitTransactionStep].SubmitTransaction?
        && var notes := run.calls[SubmitTransactionStep].result.createdNotes;
           (notes == [] ==> run.reply == Panicked)
           && (notes != [] && notes[0].Header? ==> run.reply == Failed(InternalServerError(NoteGenerationFailedMessage)))
    ensures var run := GetTokensRun(req, state, ledger);
      run.reply.Served? || run.reply.Panicked? ==>
        |run.calls| == PipelineLength
        && run.calls[SubmitTransactionStep].SubmitTransaction?
        && Reported(ledger, run.calls[SubmitTransactionStep]).None?
  {
  }

  /** Only the note at index 0 matters: lists that agree there give the same reply, whatever follows. */
  lemma OnlySlotZeroExamined(ledger: Ledger, notes: seq<OutputNote>, others: seq<OutputNote>)
    requires notes != [] && others != [] && notes[0] == others[0]
    ensures SlotZeroReply(ledger, notes) == SlotZeroReply(ledger, others)
  {
  }
}
