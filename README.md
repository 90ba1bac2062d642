# Miden faucet issuance pipeline and mock private accounts, in Dafny

This project models two pieces of the Miden node repository and proves properties of them.

1. **The faucet's HTTP handlers** (`bin/faucet/src/handlers.rs`).
   - `get_metadata` returns the faucet account id and the whitelisted amounts 100, 500 and 1000.
   - `get_tokens` is a single-attempt pipeline with an early exit at every step:
     1. check the amount against the whitelist;
     2. build a client;
     3. decode the target account id from hex;
     4. build the fungible asset;
     5. pick the note type;
     6. build the mint template;
     7. build, execute and submit the transaction;
     8. look at the first created note and return it as a `note.mno` download.

   `FaucetHandlers.GetTokensRun` specifies the handler. It returns the reply together with the
   trace of collaborator calls made, in order. `FaucetHandlers.GetTokens` is the handler itself,
   written as a method with early returns and proved equal to it. `FaucetProperties` proves what
   the handler promises: error classes, ordering, call counts, the template and the exact success
   response.

   Every foreign call is a function-valued field of `Ledger`, so every property holds for every
   behaviour of the ledger library and the network. These calls are client construction, hex
   decoding, the asset supply check, the client's request building, execution and submission,
   note ids, id formatting and note serialization.

2. **The mock private account of the block producer's test fixtures**
   (`crates/block-producer/src/test_utils/account.rs`).
   - `From<u32>` builds a 32-byte seed: the big-endian bytes of the index, then 28 zero bytes.
   - Index 0 means a new account.
   - `MockPrivateAccount::new` fills an array of `NUM_STATES` digests. Slot 0 is the default
     digest for a new account and the seed's hash otherwise. Every later slot is the hash of the
     previous slot's bytes.

   `MockAccount.New` keeps the array and the loop. `MockAccount.Chain` is the chain it is proved
   against. The hash, the digest encoding and the account-id derivation are fields of
   `Primitives`.

Three behaviours of the code are easy to miss, and the model keeps them:
- The transaction is submitted **before** the first created note is inspected. A header-only
  note therefore fails the request after the transaction has already reached the network.
- The number of created notes is never checked. Only the note at index 0 is read.
- An empty note list is not reported as an error. Reading index 0 of an empty list panics.

## Model

| member | source | states |
|---|---|---|
| `FaucetHandlers.GetMetadata` | bin/faucet/src/handlers.rs:20-43 | status 200, `id` is the faucet id's string form, and the options are exactly `[100, 500, 1000]` in that order |
| `FaucetHandlers.NoteTypeFor` | bin/faucet/src/handlers.rs:71-76 | the note type is off-chain exactly when `is_private_note` is set and public exactly when it is not |
| `FaucetHandlers.Reported` | bin/faucet/src/handlers.rs:61-98 | a failed hex decode is a `BadRequest`; every failure from asset construction on is an `InternalServerError` |
| `FaucetHandlers.GetTokens` | bin/faucet/src/handlers.rs:45-128 | the handler's reply and its trace of collaborator calls are those of the pipeline specification `GetTokensRun` |
| `FaucetProperties.CallsFollowPipelineOrder` | bin/faucet/src/handlers.rs:55-98 | a run makes at most six calls, and its i-th call is always pipeline step i |
| `FaucetProperties.CallsCarryRequestArguments` | bin/faucet/src/handlers.rs:60-89 | call 0 builds the client from the faucet configuration, call 1 decodes the request's account id, call 2 builds the faucet's asset at the requested amount, and the executed request is the one the same client built from the template |
| `FaucetProperties.NoCallAfterAFailure` | bin/faucet/src/handlers.rs:55-98 | every call except the last one succeeded, so no step runs after a failure |
| `FaucetProperties.InvalidAmountRejectedBeforeAnyCall` | bin/faucet/src/handlers.rs:55-58 | no collaborator is called exactly when the amount is off the whitelist; such a request gets `BadRequest("Invalid asset amount.")` |
| `FaucetProperties.AdvertisedAmountsAreAccepted` | bin/faucet/src/handlers.rs:36-58 | an amount is in the metadata's options if and only if `get_tokens` gets past the amount check |
| `FaucetProperties.FailedCallDecidesReply` | bin/faucet/src/handlers.rs:61-98 | a failed last call gives exactly the error that call reports; a run of one to five calls ends because its last call failed |
| `FaucetProperties.ErrorClassification` | bin/faucet/src/handlers.rs:61-98 | a client-build failure is passed on and comes before decoding; a bad account id is a `BadRequest` with the decoder's message; every later failure is an `InternalServerError` |
| `FaucetProperties.ClientBuildFailureIsPassedOn` | bin/faucet/src/handlers.rs:60-61 | for a whitelisted amount, a failing client construction ends the request with that error after that single call |
| `FaucetProperties.MalformedAccountIdIsBadRequest` | bin/faucet/src/handlers.rs:63-65 | once the client is built, an account id the decoder rejects gives `BadRequest` with the decoder's message, after exactly the client build and the decode |
| `FaucetProperties.AssetFailureIsServerFault` | bin/faucet/src/handlers.rs:67-69 | a rejected asset construction gives `InternalServerError` with its message, and no transaction call follows |
| `FaucetProperties.ClientStepFailureIsServerFault` | bin/faucet/src/handlers.rs:81-98 | a failure of request building, execution or submission on the built client gives `InternalServerError` with the client's message, and that call is the last one made |
| `FaucetProperties.AtMostOneExecutionAndSubmission` | bin/faucet/src/handlers.rs:86-98 | a trace holds at most one `new_transaction` call and at most one `submit_transaction` call |
| `FaucetProperties.SubmissionOnlyAfterSuccessfulExecution` | bin/faucet/src/handlers.rs:86-98 | what is submitted is the result of the successful execution just before it, on the same client |
| `FaucetProperties.ClientCallsUseTheBuiltClient` | bin/faucet/src/handlers.rs:61-98 | request building, execution and submission all run on the client built from the faucet configuration |
| `FaucetProperties.TemplateIsMintOfRequestedAsset` | bin/faucet/src/handlers.rs:63-79 | the template is `MintFungibleAsset(FungibleAsset(faucet id, amount), decoded target, OffChain if private else Public)` |
| `FaucetProperties.FlagOnlySelectsNoteType` | bin/faucet/src/handlers.rs:71-84 | requests that differ only in the flag make the same first three calls with the same outcome, and their templates differ only in note type |
| `FaucetProperties.ServedIffPipelineSucceeds` | bin/faucet/src/handlers.rs:82-113 | a request is served if and only if all six calls succeed and the first created note is a full note |
| `FaucetProperties.ServedResponseIsFirstNote` | bin/faucet/src/handlers.rs:100-127 | a served reply has status 200, the first note's record bytes as body, that note's id as `Note-Id`, file name `note.mno` and content type `application/octet-stream` |
| `FaucetProperties.NoteInspectedOnlyAfterSubmission` | bin/faucet/src/handlers.rs:92-112 | the notes are read only after a successful submission; a header-only first note then fails with `InternalServerError("Failed to generate note.")`, and an empty list panics |
| `FaucetProperties.OnlySlotZeroExamined` | bin/faucet/src/handlers.rs:103-113 | note lists that agree at index 0 give the same reply, whatever else they contain |
| `MockAccount.BigEndianRoundTrip` | crates/block-producer/src/test_utils/account.rs:50 | reading back the four big-endian bytes of a `u32` gives the number again |
| `MockAccount.InitSeed` | crates/block-producer/src/test_utils/account.rs:50 | the seed has 32 bytes; its first four bytes, read big-endian, are the index; the other 28 are zero |
| `MockAccount.InitSeedInjective` | crates/block-producer/src/test_utils/account.rs:46-50 | two indices give the same seed if and only if they are equal |
| `MockAccount.Chain` | crates/block-producer/src/test_utils/account.rs:29-37 | there are `n` states; state 0 is the default digest for a new account and the seed's hash otherwise; each later state is the hash of the previous state's bytes |
| `MockAccount.ChainDetermined` | crates/block-producer/src/test_utils/account.rs:29-37 | any sequence with that first state and that hash step is the chain, so the states are a function of seed, flag and length |
| `MockAccount.New` | crates/block-producer/src/test_utils/account.rs:19-43 | after the default-filled array, the slot-0 write and the loop, the states are exactly the chain and the id is derived from the seed |
| `MockAccount.FromIndexWithDefaultStates` | crates/block-producer/src/test_utils/account.rs:11-58 | at the default `NUM_STATES` the id is derived from the index's seed and the account has three states: the default digest for index 0 or the seed's hash otherwise, then two hash steps |
| `MockAccount.FromIndex` | crates/block-producer/src/test_utils/account.rs:46-58 | the account is the one `New` builds from the index's seed; index 0 is a new account whose first state is the default digest, and any other index starts at the seed's hash |

## Left out

- HTTP transport is not modelled: actix-web routing, JSON (de)serialisation, response-builder details and `tracing` logging. A reply is a plain record.
- The error-to-status mapping of `FaucetError` is not modelled. `bin/faucet/src/errors.rs` is not part of this model.
- `build_client` and `FaucetState` are not part of this model (`bin/faucet/src/utils.rs`). Building the client is an opaque outcome, and its error is passed on unchanged.
- The client's local store is not modelled. Each client call is a fixed function of the client handle and its argument. Each call happens at most once per run, so no outcome sequence is lost.
- Awaiting, proving and the network are not modelled. `submit_transaction` is only a success or failure outcome.
- The internals of these foreign calls are not modelled: `AccountId::from_hex`, the supply bounds of `FungibleAsset::new`, `NoteId`, `InputNoteRecord::to_bytes`, the `Display` forms and `Hasher::hash`. Each is an uninterpreted function.
- `OutputNotes::get_note` is not part of this model. It is taken to index its list directly, so reading index 0 of an empty list panics (`Panicked`).
- Concurrency between requests is not modelled. Each request builds its own client.
- MockAccount.New: does not model `get_account_seed` and `AccountId::new` or their `unwrap` panics. The id is an opaque function of the seed.
- `NUM_STATES` is a method parameter rather than a type-level constant. `MockAccount.FromIndexWithDefaultStates` covers its default, 3.
