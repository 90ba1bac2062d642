/**
 * The faucet's HTTP handlers (bin/faucet/src/handlers.rs): `get_metadata` and the
 * `get_tokens` issuance pipeline.
 *
 * Every foreign call (client construction, hex decoding, asset construction, the
 * client's request building, execution and submission, note ids and serialization)
 * is a field of `Ledger`, so every property below holds for any behaviour of the
 * ledger library and the network. `get_tokens` is specified by `GetTokensRun`,
 * which gives the reply together with the trace of collaborator calls made, in order.
 */
module FaucetHandlers {

  import opened Machine

  datatype Option<T> = None | Some(value: T)

  datatype Result<T, E> = Ok(value: T) | Err(error: E)

  /** `TOKEN_AMOUNT_OPTIONS`: the only amounts the faucet hands out, in the order it advertises them. */
  const TokenAmountOptions: seq<uint64> := [100, 500, 1000]

  const InvalidAmountMessage := "Invalid asset amount."
  const NoteGenerationFailedMessage := "Failed to generate note."
  const NoteFilename := "note.mno"
  const OctetStream := "application/octet-stream"
  const HttpOk: nat := 200

  // Opaque values produced and consumed by the ledger library.
  datatype AccountId = AccountId(raw: nat)
  datatype NoteId = NoteId(raw: nat)
  datatype Note = Note(raw: nat)
  datatype NoteHeader = NoteHeader(raw: nat)
  datatype ClientHandle = ClientHandle(raw: nat)
  datatype TransactionRequest = TransactionRequest(raw: nat)

  /** An output note as the executor reports it: with its content, or as a header only. */
  datatype OutputNote = Full(note: Note) | Header(header: NoteHeader)

  /** The result of executing a transaction; only its created notes are inspected here. */
  datatype TransactionResult = TransactionResult(raw: nat, createdNotes: seq<OutputNote>)

  datatype NoteType = OffChain | Public

  datatype FungibleAsset = FungibleAsset(faucetId: AccountId, amount: uint64)

  datatype TransactionTemplate = MintFungibleAsset(asset: FungibleAsset, targetAccountId: AccountId, noteType: NoteType)

  /** `FaucetError`: a caller fault or a server fault, each with its message. */
  datatype FaucetError = BadRequest(message: string) | InternalServerError(message: string)

  datatype ClientConfig = ClientConfig(databaseFilepath: string, nodeUrl: string)

  datatype FaucetState = FaucetState(id: AccountId, faucetConfig: ClientConfig)

  /** The JSON body of a `get_tokens` request. */
  datatype FaucetRequest = FaucetRequest(accountId: string, isPrivateNote: bool, assetAmount: uint64)

  /** The foreign library and network, as functions of the arguments they are called with. */
  datatype Ledger = Ledger(
    buildClient: ClientConfig -> Result<ClientHandle, FaucetError>,
    accountIdFromHex: string -> Result<AccountId, string>,
    fungibleAssetError: (AccountId, uint64) -> Option<string>,
    buildTransactionRequest: (ClientHandle, TransactionTemplate) -> Result<TransactionRequest, string>,
    newTransaction: (ClientHandle, TransactionRequest) -> Result<TransactionResult, string>,
    submitTransaction: (ClientHandle, TransactionResult) -> Result<(), string>,
    accountIdToString: AccountId -> string,
    noteId: Note -> NoteId,
    noteIdToString: NoteId -> string,
    noteRecordBytes: Note -> seq<uint8>)

  /** The reply of `get_metadata`: HTTP status and the JSON body's two fields. */
  datatype MetadataResponse = MetadataResponse(status: nat, id: string, assetAmountOptions: seq<uint64>)

  /** A successful `get_tokens` reply: the note file download. */
  datatype NoteResponse = NoteResponse(status: nat, contentType: string, filename: string, noteIdHeader: string, body: seq<uint8>)

  /** How `get_tokens` ends: a response, an error, or a panic of the handler. */
  datatype Reply = Served(response: NoteResponse) | Failed(error: FaucetError) | Panicked

  /** A call into a collaborator, with the arguments it receives. */
  datatype Call =
    | BuildClient(config: ClientConfig)
    | AccountIdFromHex(hex: string)
    | NewFungibleAsset(faucetId: AccountId, amount: uint64)
    | BuildTransactionRequest(client: ClientHandle, template: TransactionTemplate)
    | NewTransaction(client: ClientHandle, request: TransactionRequest)
    | SubmitTransaction(client: ClientHandle, result: TransactionResult)
  {
    /** The step of the pipeline this call belongs to. */
    function Position(): nat
    {
      match this
      case BuildClient(_) => 0
      case AccountIdFromHex(_) => 1
      case NewFungibleAsset(_, _) => 2
      case BuildTransactionRequest(_, _) => 3
      case NewTransaction(_, _) => 4
      case SubmitTransaction(_, _) => 5
    }
  }

  const NewTransactionStep: nat := 4
  const SubmitTransactionStep: nat := 5
  const PipelineLength: nat := 6

  /** A reply with the trace of the collaborator calls that produced it. */
  datatype Run = Run(reply: Reply, calls: seq<Call>)

  /** `get_metadata`: the faucet's id as a string and the advertised amounts. */
  function GetMetadata(state: FaucetState, ledger: Ledger): (r: MetadataResponse)
    ensures r.status == HttpOk
    ensures r.id == ledger.accountIdToString(state.id)
    ensures r.assetAmountOptions == [100, 500, 1000]
  {
    MetadataResponse(HttpOk, ledger.accountIdToString(state.id), TokenAmountOptions)
  }

  /** The note type selected by the request's `is_private_note` flag. */
  function NoteTypeFor(isPrivateNote: bool): (t: NoteType)
    ensures t == OffChain <==> isPrivateNote
    ensures t == Public <==> !isPrivateNote
  {
    if isPrivateNote then OffChain else Public
  }

  /**
   * The error `get_tokens` reports when call `c` fails, None when it succeeds. Client
   * construction passes its own error on; a bad account id is the caller's fault; every
   * later failure is the server's.
   */
  function Reported(ledger: Ledger, c: Call): (r: Option<FaucetError>)
    ensures r.Some? && c.AccountIdFromHex? ==> r.value.BadRequest?
    ensures r.Some? && c.Position() >= 2 ==> r.value.InternalServerError?
  {
    match c
    case BuildClient(config) =>
      (match ledger.buildClient(config)
       case Err(e) => Some(e)
       case Ok(_) => None)
    case AccountIdFromHex(hex) =>
      (match ledger.accountIdFromHex(hex)
       case Err(m) => Some(BadRequest(m))
       case Ok(_) => None)
    case NewFungibleAsset(faucetId, amount) =>
      (match ledger.fungibleAssetError(faucetId, amount)
       case Some(m) => Some(InternalServerError(m))
       case None => None)
    case BuildTransactionRequest(client, template) => ServerFault(ledger.buildTransactionRequest(client, template))
    case NewTransaction(client, request) => ServerFault(ledger.newTransaction(client, request))
    case SubmitTransaction(client, result) => ServerFault(ledger.submitTransaction(client, result))
  }

  /** A failed client step, reported as an internal server error carrying the error's text. */
  function ServerFault<T>(outcome: Result<T, string>): Option<FaucetError>
  {
    match outcome
    case Err(m) => Some(InternalServerError(m))
    case Ok(_) => None
  }

  /** The download built from a full note: its record bytes as body and its id as header. */
  function NoteDownload(ledger: Ledger, note: Note): NoteResponse
  {
    NoteResponse(HttpOk, OctetStream, NoteFilename, ledger.noteIdToString(ledger.noteId(note)), ledger.noteRecordBytes(note))
  }

  /** The reply built from the executed transaction's created notes: only the note at index 0 is looked at. */
  function SlotZeroReply(ledger: Ledger, notes: seq<OutputNote>): Reply
  {
    if |notes| == 0 then Panicked
    else
      match notes[0]
      case Full(note) => Served(NoteDownload(ledger, note))
      case Header(_) => Failed(InternalServerError(NoteGenerationFailedMessage))
  }

  /** The transaction template `get_tokens` builds once the target account id is decoded. */
  function MintTemplate(state: FaucetState, req: FaucetRequest, target: AccountId): TransactionTemplate
  {
    MintFungibleAsset(FungibleAsset(state.id, req.assetAmount), target, NoteTypeFor(req.isPrivateNote))
  }

  /** `get_tokens`, step by step: each step runs only if every earlier one succeeded. */
  function GetTokensRun(req: FaucetRequest, state: FaucetState, ledger: Ledger): Run
  {
    if req.assetAmount !in TokenAmountOptions then
      Run(Failed(BadRequest(InvalidAmountMessage)), [])
    else
      var config := state.faucetConfig;
      var c0 := [BuildClient(config)];
      match ledger.buildClient(config)
      case Err(e) => Run(Failed(e), c0)
      case Ok(client) =>
        var c1 := c0 + [AccountIdFromHex(req.accountId)];
        match ledger.accountIdFromHex(req.accountId)
        case Err(m) => Run(Failed(BadRequest(m)), c1)
        case Ok(target) =>
          var c2 := c1 + [NewFungibleAsset(state.id, req.assetAmount)];
          match ledger.fungibleAssetError(state.id, req.assetAmount)
          case Some(m) => Run(Failed(InternalServerError(m)), c2)
          case None =>
            var template := MintTemplate(state, req, target);
            var c3 := c2 + [BuildTransactionRequest(client, template)];
            match ledger.buildTransactionRequest(client, template)
            case Err(m) => Run(Failed(InternalServerError(m)), c3)
            case Ok(request) =>
              var c4 := c3 + [NewTransaction(client, request)];
              match ledger.newTransaction(client, request)
              case Err(m) => Run(Failed(InternalServerError(m)), c4)
              case Ok(result) =>
                var c5 := c4 + [SubmitTransaction(client, result)];
                match ledger.submitTransaction(client, result)
                case Err(m) => Run(Failed(InternalServerError(m)), c5)
                case Ok(_) => Run(SlotZeroReply(ledger, result.createdNotes), c5)
  }

  /**
   * `get_tokens`: checks the amount, builds a client, decodes the target account, builds the
   * asset and template, then builds, executes and submits the transaction, and only then looks
   * at the first created note. Returns the reply and the collaborator calls made.
   */
  method GetTokens(req: FaucetRequest, state: FaucetState, ledger: Ledger) returns (reply: Reply, calls: seq<Call>)
    ensures Run(reply, calls) == GetTokensRun(req, state, ledger)
  {
    if req.assetAmount !in TokenAmountOptions {
      return Failed(BadRequest(InvalidAmountMessage)), [];
    }

    var clientConfig := state.faucetConfig;
    calls := [BuildClient(clientConfig)];
    var built := ledger.buildClient(clientConfig);
    if built.Err? {
      return Failed(built.error), calls;
    }
    var client := built.value;

    calls := calls + [AccountIdFromHex(req.accountId)];
    var decoded := ledger.accountIdFromHex(req.accountId);
    if decoded.Err? {
      return Failed(BadRequest(decoded.error)), calls;
    }
    var targetAccountId := decoded.value;

    calls := calls + [NewFungibleAsset(state.id, req.assetAmount)];
    var assetError := ledger.fungibleAssetError(state.id, req.assetAmount);
    if assetError.Some? {
      return Failed(InternalServerError(assetError.value)), calls;
    }
    var asset := FungibleAsset(state.id, req.assetAmount);

    var noteType := NoteTypeFor(req.isPrivateNote);
    var txTemplate := MintFungibleAsset(asset, targetAccountId, noteType);

    calls := calls + [BuildTransactionRequest(client, txTemplate)];
    var txRequest := ledger.buildTransactionRequest(client, txTemplate);
    if txRequest.Err? {
      return Failed(InternalServerError(txRequest.error)), calls;
    }

    calls := calls + [NewTransaction(client, txRequest.value)];
    var txResult := ledger.newTransaction(client, txRequest.value);
    if txResult.Err? {
      return Failed(InternalServerError(txResult.error)), calls;
    }
    var createdNotes := txResult.value.createdNotes;

    calls := calls + [SubmitTransaction(client, txResult.value)];
    var submitted := ledger.submitTransaction(client, txResult.value);
    if submitted.Err? {
      return Failed(InternalServerError(submitted.error)), calls;
    }

    // Only now is the first created note looked at.
    reply := SlotZeroReply(ledger, createdNotes);
  }
}
