# Lightning Network monitor: node mapping, fetch classification and view-state machine

This project models the logic core of a small Android app that lists Lightning Network nodes.
It covers three stages, and none of them needs I/O:

1. **Record to view object** (`lightning_node.dfy`, module `LightningNodes`). A `LightningNode`
   record from the rankings API becomes a `LightningNodeViewObject`:
   - the public key and channel count are copied;
   - an absent alias becomes `"Unknown"`;
   - capacity goes from satoshis to BTC (divided by 100,000,000);
   - both timestamps go through the one date formatter;
   - city and country are each resolved by the language fallback `"pt-BR"`, then `"en"`, then
     `"Unknown"`.

   `FirstLocalized` is an independent reference definition of "the first preferred language
   the map has". A lemma proves that `getLocalizedValue`'s elvis chain agrees with it.
2. **Fetch classification** (`lightning_repository.dfy`, module `LightningRepository`). The
   repository's `getNodes` is a total function over an `ApiOutcome` input datatype:
   - a response (status code, reason phrase, optional body);
   - a null response;
   - a thrown `IOException`;
   - a thrown `HttpException`;
   - any other thrown exception.

   The function returns `Success` with the body mapped element by element, or `Error` with
   the message of the exception the repository wraps. The message the repository builds for a
   caught `HttpException` can be read back: after the prefix, the text up to the blank before the
   reason phrase is exactly Kotlin's rendering of the status code (a minus sign only for a
   negative code, no leading zero) and parses back to it, and the rest is the reason phrase
   (`HttpErrorMessageReadsBack`). So two caught `HttpException`s that differ in status code or
   reason phrase never share a message.
3. **View-state machine** (`lightning_view_model.dfy`, module `LightningViewModel`). The class
   `LightningNodeViewModel` has these fields:
   - `state`: the value of the state flow;
   - `effects`: the effects emitted so far;
   - `trace`: a ghost log of every state write, API call and effect emission, in order.

   Every intent runs to completion. Its methods are proved against the pure specification
   `Step`, and against `IntentTrace` for the trace. Lemmas about `Run`, which folds `Step`
   over a script of intents, and about `RunTrace`, which folds `IntentTrace` the same way, state
   the machine-level properties:
   - the last outcome alone decides the state;
   - each refresh emits exactly one `RefreshComplete`, and nothing else is ever emitted;
   - each intent makes exactly one API call (a lemma about `RunTrace`);
   - no state is terminal.

Some behaviour depends on the platform or on libraries that are not part of this model. It
enters as parameters, bundled in `LightningRepository.Platform`:
- `formatDate`: the locale- and time-zone-dependent `SimpleDateFormat` formatter;
- `httpExceptionMessage`: the message Retrofit gives an `HttpException` built from a response.

The outcome of each intent's single network call is a parameter of the intent's method.

How the code behaves at the edges:
- A successful status with an empty list is `Success([])`, which the view model shows as
  `Empty`. Only a null body is an error.
- The `Success` view state carries `nodes`, `isLoading` and `error`. The view model always
  writes `isLoading` as false and `error` as null.
- The view model calls `getNodes()` on the use case, which declares `execute()`. Both are
  taken as the same single delegation to the repository.

## Model

| member | source | states |
|---|---|---|
| LightningNodes.ToViewObject | app/src/main/java/com/henriquemachine/lightningmonitornetwork/data/model/LightningNode.kt:40-51 | public key and channels copied; a present alias kept verbatim, an absent one becomes "Unknown"; capacityBtc times 100,000,000 equals the satoshi capacity; both dates come from the one formatter; city and country each come from the locality lookup |
| LightningNodes.GetLocalizedValue | app/src/main/java/com/henriquemachine/lightningmonitornetwork/data/model/LightningNode.kt:60-62 | the "pt-BR" name whenever present (even with "en"); else the "en" name; "Unknown" for a null map or one with neither key |
| LightningNodes.FirstLocalized | app/src/main/java/com/henriquemachine/lightningmonitornetwork/data/model/LightningNode.kt:53-61 | reference lookup: None exactly when no preferred language is in the map; otherwise the name under the first preferred language present, all earlier ones being absent |
| LightningNodes.LocalizedValueFollowsPreference | app/src/main/java/com/henriquemachine/lightningmonitornetwork/data/model/LightningNode.kt:61 | the elvis chain equals the preference lookup over ["pt-BR", "en"] with default "Unknown" |
| LightningNodes.LocalizedValueIsAName | app/src/main/java/com/henriquemachine/lightningmonitornetwork/data/model/LightningNode.kt:58-61 | the lookup is total and yields either "Unknown" or a name that is in the map |
| LightningNodes.CityAndCountryResolvedIndependently | app/src/main/java/com/henriquemachine/lightningmonitornetwork/data/model/LightningNode.kt:48-49 | city depends on the city map only and country on the country map only; equal maps resolve to equal strings |
| LightningNodes.TimestampsShareFormatter | app/src/main/java/com/henriquemachine/lightningmonitornetwork/data/model/LightningNode.kt:46-47 | equal firstSeen and updatedAt timestamps give equal date strings |
| LightningNodes.RepositoryTestRecord | app/src/test/java/tests/LightningRepositoryImplTest.kt:29-60 | the success test's record maps to publicKey1 / Node 1 / 5 channels / 0.25 BTC / São Paulo / BR, with both dates the formatter's image of 1638326400 |
| LightningRepository.GetNodes | app/src/main/java/com/henriquemachine/lightningmonitornetwork/data/repository/LightningRepositoryImpl.kt:32-58 | Success exactly when a response has a 2xx status and a body; the list then has the body's length and order, element i being the view object of record i |
| LightningRepository.IsSuccessful | app/src/main/java/com/henriquemachine/lightningmonitornetwork/data/repository/LightningRepositoryImpl.kt:37 | `response.isSuccessful`: true exactly for a status code of the 2xx class |
| LightningRepository.ToViewObjects | app/src/main/java/com/henriquemachine/lightningmonitornetwork/data/repository/LightningRepositoryImpl.kt:40 | `body.map { it.toViewObject() }`: same length, element i is the view object of record i |
| LightningRepository.FailureMessages | app/src/main/java/com/henriquemachine/lightningmonitornetwork/data/repository/LightningRepositoryImpl.kt:41-56 | null body: "Response body is null"; non-2xx status: the HttpException's message; IOException: "Network error"; HttpException: "HTTP error: <code> <reason>"; null response or any other exception: "Unexpected error" |
| LightningRepository.EmptyBodyIsEmptySuccess | app/src/main/java/com/henriquemachine/lightningmonitornetwork/data/repository/LightningRepositoryImpl.kt:37-40 | a successful response with an empty list is Success([]), not Error |
| LightningRepository.SuccessKeepsPublicKeys | app/src/main/java/com/henriquemachine/lightningmonitornetwork/data/repository/LightningRepositoryImpl.kt:40 | element i of a successful result has the public key and channel count of body record i |
| LightningRepository.HttpErrorMessageInjective | app/src/main/java/com/henriquemachine/lightningmonitornetwork/data/repository/LightningRepositoryImpl.kt:51-53 | two caught HttpExceptions give the same message only if they have the same code and reason phrase |
| LightningRepository.HttpErrorMessageReadsBack | app/src/main/java/com/henriquemachine/lightningmonitornetwork/data/repository/LightningRepositoryImpl.kt:53 | in the wrapped message, the text between the prefix and the blank before the reason phrase is exactly `IntToDecimal` of the status code, has no blank and parses back to the code, and what follows that blank is the reason phrase |
| LightningRepository.IntToDecimalRoundTrip | app/src/main/java/com/henriquemachine/lightningmonitornetwork/data/repository/LightningRepositoryImpl.kt:53 | Kotlin's decimal rendering of an integer, as used for the status code in the message, parses back to that integer |
| LightningRepository.NatToDecimalRoundTrip | app/src/main/java/com/henriquemachine/lightningmonitornetwork/data/repository/LightningRepositoryImpl.kt:53 | the digits of a natural number parse back to it |
| LightningRepository.HttpErrorMessage | app/src/main/java/com/henriquemachine/lightningmonitornetwork/data/repository/LightningRepositoryImpl.kt:53 | the wrapped message starts with "HTTP error: ", ends with the reason phrase, and a blank precedes the reason |
| LightningRepository.IntToDecimal | app/src/main/java/com/henriquemachine/lightningmonitornetwork/data/repository/LightningRepositoryImpl.kt:53 | the status code's decimal text in the message: decimal digits, led by a minus sign exactly when the code is negative, with no leading zero unless the code is 0 (then exactly "0") |
| LightningRepository.NatToDecimal | app/src/main/java/com/henriquemachine/lightningmonitornetwork/data/repository/LightningRepositoryImpl.kt:53 | the digits of a natural number: non-empty, decimal digits only, no leading zero (0 is exactly "0") |
| LightningViewModel.ReduceResult | app/src/main/java/com/henriquemachine/lightningmonitornetwork/presentation/lightning/LightningNodeViewModel.kt:79-92 | Success view state (same list, isLoading false, error null) exactly for a non-empty success; Empty exactly for an empty success; Error("Error: " + message) exactly for an error |
| LightningViewModel.Step | app/src/main/java/com/henriquemachine/lightningmonitornetwork/presentation/lightning/LightningNodeViewModel.kt:76-93 | one intent run to completion: never ends in Loading, keeps the earlier effects, a fetch adds none and a refresh adds exactly RefreshComplete |
| LightningViewModel.Run | app/src/main/java/com/henriquemachine/lightningmonitornetwork/presentation/lightning/LightningNodeViewModel.kt:44-49 | intents processed one after another: effects only ever appended, and a non-empty script never ends in Loading |
| LightningViewModel.LightningNodeViewModel.constructor | app/src/main/java/com/henriquemachine/lightningmonitornetwork/presentation/lightning/LightningNodeViewModel.kt:30-37 | the initial state is Empty and no effect has been emitted |
| LightningViewModel.LightningNodeViewModel.ProcessUserIntent | app/src/main/java/com/henriquemachine/lightningmonitornetwork/presentation/lightning/LightningNodeViewModel.kt:44-49 | the new state and effects are one Step of the specification; the trace grows by the intent's events |
| LightningViewModel.LightningNodeViewModel.LoadLightningNodes | app/src/main/java/com/henriquemachine/lightningmonitornetwork/presentation/lightning/LightningNodeViewModel.kt:54-58 | a FetchNodes step: the reduced result, no effect |
| LightningViewModel.LightningNodeViewModel.RefreshLightningNodes | app/src/main/java/com/henriquemachine/lightningmonitornetwork/presentation/lightning/LightningNodeViewModel.kt:63-69 | a RefreshNodes step: the reduced result and one RefreshComplete effect |
| LightningViewModel.LightningNodeViewModel.FetchOperation | app/src/main/java/com/henriquemachine/lightningmonitornetwork/presentation/lightning/LightningNodeViewModel.kt:55-68 | the fetch lambda returns the repository's classification of the one API outcome; a refresh's lambda emits RefreshComplete after the call |
| LightningViewModel.LightningNodeViewModel.PerformFetchNodesOperation | app/src/main/java/com/henriquemachine/lightningmonitornetwork/presentation/lightning/LightningNodeViewModel.kt:76-94 | Loading is written, the fetch runs, and the final state is the reduction of its result |
| LightningViewModel.StepIgnoresPriorState | app/src/main/java/com/henriquemachine/lightningmonitornetwork/presentation/lightning/LightningNodeViewModel.kt:76-93 | the final state of an intent is the same whatever the prior state, and it is never Loading |
| LightningViewModel.RunEndsInLastOutcome | app/src/main/java/com/henriquemachine/lightningmonitornetwork/presentation/lightning/LightningNodeViewModel.kt:76-93 | after any non-empty script of intents, the state is the one the last intent's outcome gives |
| LightningViewModel.RunEffects | app/src/main/java/com/henriquemachine/lightningmonitornetwork/presentation/lightning/LightningNodeViewModel.kt:54-68 | a script keeps the earlier effects and appends exactly one RefreshComplete per refresh intent, and nothing else |
| LightningViewModel.OnlyRefreshCompleteEmitted | app/src/main/java/com/henriquemachine/lightningmonitornetwork/presentation/lightning/LightningNodeViewModel.kt:66 | from the initial state, every emitted effect is RefreshComplete (never ShowErrorMessage or ShowSuccessMessage), one per refresh |
| LightningViewModel.IntentTraceOrder | app/src/main/java/com/henriquemachine/lightningmonitornetwork/presentation/lightning/LightningNodeViewModel.kt:63-90 | Loading is written first and the final state last; the API is called exactly once, right after Loading; a refresh emits RefreshComplete after the call and before the final write; a fetch emits nothing |
| LightningViewModel.OneApiCallPerIntent | app/src/main/java/com/henriquemachine/lightningmonitornetwork/presentation/lightning/LightningNodeViewModel.kt:54-68 | a script of n intents calls the API exactly n times, since load and refresh each call the use case once: no retry, no skipped fetch |
| LightningViewModel.NoTerminalState | app/src/main/java/com/henriquemachine/lightningmonitornetwork/presentation/lightning/LightningNodeViewModel.kt:80-91 | from any state, the next intent can end in Empty, in Success or in Error |
| LightningViewModel.ErrorStatusEndsInError | app/src/test/java/tests/LightningRepositoryImplTest.kt:88-95 | a non-successful status such as 500 always ends in the Error state |

## Left out

- The Compose UI, navigation, Hilt and Retrofit wiring, the `LightningApi` interface, Moshi decoding and Timber logging. These are plumbing, not logic. The network call is replaced by an `ApiOutcome` parameter.
- Date formatting (`toFormattedDate`). It depends on the device's default locale and time zone, so it is the `formatDate` parameter. As a result, the test's expected string "30/11/2021 23:40:00" for 1638326400 is not reproduced. That value holds only at UTC-3. `toFormattedDate`'s fallback to "Invalid Date" is inside that formatter too.
- The message Retrofit gives an `HttpException` built from a non-successful response. It comes from Retrofit, which is not part of this model, so it is the `httpExceptionMessage` parameter.
- `IsSuccessful` follows Retrofit's definition of a successful response, a 2xx status. Retrofit is not part of this model.
- LightningNodes.ToViewObject: capacity is divided over `real`. IEEE double rounding is not modelled, and neither are `toBtc` formatting or the screen's second division.
- The 32-bit `Int` and 64-bit `Long` widths of the record fields are not modelled. They are only copied or divided, never added.
- Kotlin's `Result.Error` holds an exception. The model keeps only the exception's message, because that is all the view model reads. Every exception the repository builds has a non-null message.
- Concurrency: coroutine scheduling, overlapping intents, cancellation, and `SharedFlow` delivery (replay 0, effects dropped when nobody observes). Each intent is modelled as running to completion before the next one starts.
