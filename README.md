# Smart Contract 2.0 — a verified model of the adaptive-contract bridge

Smart Contract 2.0 turns a score into a one-way change of contract state. A
scoring engine rates a price series, a risk profile or a transaction. An
oracle bridge takes the score and submits it to a ledger. The ledger keeps a
table of *adaptive contracts*. Each contract has a threshold, and the first
accepted prediction whose magnitude reaches that threshold deactivates
("executes") the contract for good.

This project models that core in Dafny and proves its properties:

- **The registry** (`registry.dfy`, `registry_lemmas.dfy`). These are the
  transition rules shared by the two Linera versions of the application:
  contract creation with monotonically assigned ids, the owner-managed
  oracle allow-list, prediction submission with its checks in their fixed
  order, and the threshold rule. The lemmas cover whole sequences of
  operations. The invariant is kept. Ids are handed out in increasing order.
  An executed contract is frozen, and it executes at most once. An address
  the owner never authorized can never submit.
- **The Linera application in Rust**, as classes over that specification:
  - `SmartContract2State` (`linera_state.dfy`);
  - the silent-no-op contract of `lib.rs` and its `handle_query`
    (`linera_lib.dfy`);
  - the contract of `contract.rs`, which returns typed errors and emits
    events (`linera_contract.dfy`);
  - the GraphQL `QueryRoot` of `service.rs` (`linera_service.dfy`).

  Every state-changing method is proved to move the state exactly as the
  registry's transition function says.
- **The mock ledger** of `mock-linera-service.cjs` (`mock_linera.dfy`). It
  has the same threshold rule but no signer, no allow-list and no confidence
  check. All contracts share one prediction counter. Its `latestPrediction`
  sorts by timestamp.
- **The two scoring engines**:
  - the JavaScript serverless one (`ai_predict_js.dfy`);
  - the Python/Flask one (`ai_engine_py.dfy`);
  - the arithmetic they share (`scoring.dfy`);
  - their comparison (`scoring_comparison.dfy`). It shows where they
    agree. It also shows where they differ: floor-then-clamp against
    clamp-then-truncate, and falsy `||` defaults against `dict.get`
    defaults.
- **The three oracle bridges**:
  - the Linera GraphQL client (`linera_oracle.dfy`);
  - the Express oracle service (`oracle_service.dfy`);
  - the serverless oracle (`api_oracle.dfy`).

  What they share is in `bridge.dfy`: JavaScript truthiness, the engine's
  JSON reply and the submission handed to a ledger. Remote calls are
  inputs: the engine's reply or transport error, and the ledger's receipt
  or error.
- **The deployment template's counter** (`counter.dfy`).

Randomness, clocks and the standard deviation are parameters:
- The fraud jitter is an integer in [0, 19].
- Timestamps are natural numbers supplied by the caller.
- The price model's standard deviation is a real supplied by the caller.

The two Rust contracts do not compile as written. The model follows what
the code evidently means, and reads it as follows:
- `lib.rs` calls a `get_predictions` that `state.rs` does not declare. The
  model reads the stored list, or the empty list, exactly as
  `service.rs:87-95` does.
- `lib.rs:107` calls the `async fn initialize` (`state.rs:25`) without
  `.await`. Taken literally, the future is dropped and the owner is never
  set, so every `authorize_oracle` would fail. The model reads the call as
  awaited: instantiation sets the owner and the counter.
- `lib.rs:140` calls the `async fn next_contract_id` (`state.rs:40`)
  without `.await` and stores the result in the `u64` field `id`, which
  does not type-check. The model reads the call as awaited.
- `contract.rs:16` declares `SmartContract2` as a struct without fields,
  yet its methods read `self.runtime` and the loaded state. The model gives
  the class the state and the event log those methods use.
- `contract.rs:254` moves `contract` into `insert`, and `contract.rs:257-259`
  then reads `contract.threshold` for the event. The model reads the record
  as copied, so the stored contract and the event both carry the threshold.
- `contract.rs` announces an execution with a `reason` text. The model's
  `ContractExecuted` event carries the two numbers that text is built from.

## Model

| member | source | states |
|---|---|---|
| Registry.Initialize | linera-integration/src/state.rs:25-28 | the owner becomes the given string and the counter 0; the contract, prediction and oracle tables are untouched |
| Registry.Append | linera-integration/src/state.rs:48-57 | the contract's list gains the prediction at its end (a missing list counts as empty); every other contract's list is unchanged |
| Registry.Abs | linera-integration/src/lib.rs:226 | the magnitude compared with the threshold is `v` or `-v` |
| Registry.CheckAndExecute | linera-integration/src/lib.rs:216-231 | the same contract ids remain; no other contract changes; the contract becomes inactive exactly when it was active and the value's magnitude reaches its threshold, and nothing else in it changes |
| Registry.Create | linera-integration/src/contract.rs:109-142 | no signer: `Unauthorized`, nothing changes, no event; otherwise the counter moves to the next id, exactly one active contract is added there with creator = signer and created = updated = now, every other table is unchanged, and one `ContractCreated` is emitted; in a valid state the new id was unused |
| Registry.SubmitCheck | linera-integration/src/contract.rs:152-175 | each error holds exactly when every earlier check passed and its own fails, in the order: no signer, not on the allow-list, confidence above 100, unknown id, inactive contract; `Pass` exactly when all pass |
| Registry.Submit | linera-integration/src/contract.rs:145-206 | a rejected submission changes nothing and emits nothing; an accepted one appends exactly one prediction with oracle = signer, stamps `last_updated`, leaves every other list and contract, the counter, owner and allow-list unchanged, deactivates the contract exactly when the magnitude reaches the threshold (always for threshold 0), and emits `PredictionReceived` followed by `ContractExecuted` only on a flip |
| Registry.Authorize | linera-integration/src/contract.rs:209-232 | succeeds exactly when the signer is the owner; then only the allow-list changes, the address becomes authorized and `OracleAuthorized` is emitted; otherwise `Unauthorized` with nothing changed |
| RegistryLemmas.ExecutePreservesValid | linera-integration/src/contract.rs:62-96 | one operation of any kind keeps the state invariant |
| RegistryLemmas.RunPreservesValid | linera-integration/src/contract.rs:62-96 | any sequence of operations keeps the invariant: each contract stored under its own id, at most the counter; the allow-list only holds `true`; predictions only for existing contracts |
| RegistryLemmas.ExecuteCreatedIds | linera-integration/src/state.rs:40-45 | one operation announces no new id and keeps the counter, or announces exactly the id after the counter and moves the counter to it |
| RegistryLemmas.RunCreatedIdsIncrease | linera-integration/src/state.rs:40-45 | over any sequence of operations the announced ids strictly increase, each lies above the starting counter and at most the final one, so no id is handed out twice |
| RegistryLemmas.ExecuteFreezesInactive | linera-integration/src/lib.rs:181-183 | one operation leaves an inactive contract's record and prediction list as they were |
| RegistryLemmas.RunFreezesInactive | linera-integration/src/lib.rs:222-230 | inactivity is terminal: after any sequence of operations an inactive contract has the same record (still inactive) and the same prediction list |
| RegistryLemmas.ExecuteSpendsLive | linera-integration/src/contract.rs:246-261 | one operation emits a `ContractExecuted` for a contract only by using up its single chance to execute |
| RegistryLemmas.RunExecutesAtMostOnce | linera-integration/src/contract.rs:246-261 | over any sequence of operations `ContractExecuted` is emitted at most once per contract, and never for one already executed at the start |
| RegistryLemmas.RunNeverAuthorizes | linera-integration/src/state.rs:31-37 | an address not authorized at the start and never passed to `authorize_oracle` is still not authorized after any sequence |
| RegistryLemmas.UnauthorizedSubmissionsFail | linera-integration/src/contract.rs:158-160 | every submission by such an address fails with `OracleNotAuthorized` and changes nothing, whatever precedes it |
| RegistryLemmas.InsuranceScenario | linera-integration/src/contract.rs:145-206 | the insurance scenario: a non-oracle's submission is refused, 500 against threshold 1000 is recorded with the contract still active, 1500 executes it with both events, and a later submission is refused as `ContractNotActive` with nothing changed |
| LineraState.SmartContract2State.constructor | linera-integration/src/state.rs:5-21 | freshly loaded storage is the empty state |
| LineraState.SmartContract2State.Initialize | linera-integration/src/state.rs:25-28 | the new state is the registry's `Initialize` of the old one |
| LineraState.SmartContract2State.IsOracleAuthorized | linera-integration/src/state.rs:31-37 | true only for an address on the allow-list; in a valid state exactly for those |
| LineraState.SmartContract2State.NextContractId | linera-integration/src/state.rs:40-45 | returns the old counter plus one and stores it; in a valid state that id holds no contract yet |
| LineraState.SmartContract2State.AddPrediction | linera-integration/src/state.rs:48-57 | the prediction table becomes `Append` of the old one, so the latest prediction is then the one just added |
| LineraState.SmartContract2State.GetLatestPrediction | linera-integration/src/state.rs:60-67 | None exactly when the contract's list is missing or empty, otherwise its last element |
| LineraLib.SmartContract2Contract.Instantiate | linera-integration/src/lib.rs:105-108 | the state becomes the registry's `Initialize` with the given owner |
| LineraLib.SmartContract2Contract.ExecuteOperation | linera-integration/src/lib.rs:110-122 | the state becomes the registry's transition for the operation; a rejected call leaves the state unchanged |
| LineraLib.SmartContract2Contract.ExecuteMessage | linera-integration/src/lib.rs:124-126 | no state change |
| LineraLib.SmartContract2Contract.CreateContract | linera-integration/src/lib.rs:134-154 | the state becomes `Create`'s next state: unchanged without a signer |
| LineraLib.SmartContract2Contract.SubmitPrediction | linera-integration/src/lib.rs:156-200 | the state becomes `Submit`'s next state: unchanged on any failed check |
| LineraLib.SmartContract2Contract.Authorize | linera-integration/src/lib.rs:202-214 | the state becomes `Authorize`'s next state: unchanged unless the signer is the owner |
| LineraLib.SmartContract2Contract.CheckAndExecute | linera-integration/src/lib.rs:216-231 | only the contract table changes, as `CheckAndExecute` says |
| LineraLib.SmartContract2Service.HandleQuery | linera-integration/src/lib.rs:255-278 | `GetContract` gives the stored record with that id or None; `GetAllContracts` lists every stored contract exactly once, as stored; `GetPredictions` gives the stored list or the empty one |
| LineraContract.SmartContract2.constructor | linera-integration/src/contract.rs:50-52 | no events emitted yet |
| LineraContract.SmartContract2.Instantiate | linera-integration/src/contract.rs:54-60 | the state becomes the registry's `Initialize` with the given owner |
| LineraContract.SmartContract2.ExecuteOperation | linera-integration/src/contract.rs:62-96 | the new state, the returned error and the events appended are exactly the registry transition's |
| LineraContract.SmartContract2.ExecuteMessage | linera-integration/src/contract.rs:98-100 | neither state nor events change |
| LineraContract.SmartContract2.CreateContract | linera-integration/src/contract.rs:109-142 | state, result and appended events are those of `Create` |
| LineraContract.SmartContract2.SubmitPrediction | linera-integration/src/contract.rs:145-206 | state, result and appended events are those of `Submit`: an error leaves both state and event log untouched |
| LineraContract.SmartContract2.Authorize | linera-integration/src/contract.rs:209-232 | state, result and appended events are those of `Authorize` |
| LineraContract.SmartContract2.CheckAndExecute | linera-integration/src/contract.rs:235-264 | `ContractNotFound` for a missing contract; otherwise only the contract table changes, as `CheckAndExecute` says, and `ContractExecuted` is appended exactly when the contract flips |
| LineraService.QueryRoot.Contract | linera-integration/src/service.rs:58-65 | Some exactly for a stored id, holding the stored record, whose own id is the queried one |
| LineraService.QueryRoot.Contracts | linera-integration/src/service.rs:68-79 | every listed contract is stored under its id; ids strictly ascend; every stored contract is listed |
| LineraService.QueryRoot.LatestPrediction | linera-integration/src/service.rs:82-84 | None exactly when `Predictions` is empty, otherwise its last element |
| LineraService.QueryRoot.Predictions | linera-integration/src/service.rs:87-95 | the stored list, or the empty list when the contract has none |
| LineraService.QueryRoot.PredictionCount | linera-integration/src/service.rs:98-107 | the length of `Predictions`; 0 exactly when there is no latest prediction |
| LineraService.QueryRoot.IsOracleAuthorized | linera-integration/src/service.rs:110-112 | true exactly when the allow-list holds `true` for the address |
| LineraService.QueryRoot.ContractCounter | linera-integration/src/service.rs:115-117 | in a valid state no stored id exceeds the returned counter |
| MockLinera.MockLedger.constructor | linera-integration/mock-linera-service.cjs:17-24 | empty tables, both counters at 1, and the ledger invariant holds |
| MockLinera.MockLedger.Contract | linera-integration/mock-linera-service.cjs:96-98 | the stored record or null; in a valid ledger exactly the ids below the counter, each carrying its own id |
| MockLinera.MockLedger.Contracts | linera-integration/mock-linera-service.cjs:100-102 | one record per id handed out, in id order |
| MockLinera.MockLedger.Prediction | linera-integration/mock-linera-service.cjs:104-106 | the prediction with that id, or null exactly when no prediction carries it |
| MockLinera.MockLedger.Predictions | linera-integration/mock-linera-service.cjs:108-111 | only stored predictions of that contract; none for an unknown contract |
| MockLinera.MockLedger.LatestPrediction | linera-integration/mock-linera-service.cjs:113-119 | null exactly when the contract has no prediction; otherwise one of its predictions with the greatest timestamp |
| MockLinera.MockLedger.CreateContract | linera-integration/mock-linera-service.cjs:122-141 | returns an active record by "mock_owner" under the old counter (a fresh id), with created = updated; the counter advances by one; predictions untouched |
| MockLinera.MockLedger.SubmitPrediction | linera-integration/mock-linera-service.cjs:143-182 | an unknown or inactive contract throws with nothing changed; otherwise exactly one prediction by "mock_oracle" is stored under the next shared id, only this contract's list grows, and the contract is deactivated with `last_updated` stamped exactly when the magnitude reaches its threshold, or else left untouched; any submitter and any confidence are accepted |
| MockLinera.Filter | linera-integration/mock-linera-service.cjs:108-111 | keeps only predictions of the contract, all taken from the input; empty when none belongs to it |
| MockLinera.FilterAppend | linera-integration/mock-linera-service.cjs:167 | storing a prediction extends its own contract's list by it and leaves every other list unchanged |
| MockLinera.FilterContains | linera-integration/mock-linera-service.cjs:108-111 | every prediction of the contract appears in its list |
| MockLinera.FilterKeepsOrder | linera-integration/mock-linera-service.cjs:108-111 | two predictions of the contract appear in its list in insertion order |
| MockLinera.Latest | linera-integration/mock-linera-service.cjs:113-119 | None exactly for no predictions; otherwise the first in insertion order among those with the greatest timestamp |
| MockLinera.LatestPrefersEarlierOnTie | linera-integration/mock-linera-service.cjs:116-118 | of two predictions stamped alike, the earlier submitted is reported as latest |
| MockLinera.LatestOfIncreasing | linera-integration/mock-linera-service.cjs:113-119 | with strictly increasing timestamps the latest is the last submitted |
| MockLinera.ListUpTo | linera-integration/mock-linera-service.cjs:100-102 | when ids 1..n are all stored, exactly those n records in id order |
| Scoring.ModelByName | api/ai-predict.js:7-11 | finds exactly the models named `price_prediction`, `risk_analysis`, `fraud_detection`; any other name finds none |
| Scoring.ModelByNameOfName | ai-engine/main.py:19-23 | each model is found by its own name |
| Scoring.SumBounds | api/ai-predict.js:21 | a sum of values in [lo, hi] lies between n·lo and n·hi |
| Scoring.MeanBounds | ai-engine/main.py:45 | the mean of values in [lo, hi] lies in [lo, hi] |
| Scoring.Window | api/ai-predict.js:20 | the last min(5, n) prices |
| Scoring.ConstantSum | api/ai-predict.js:21-26 | a constant series sums to n·c and has no squared deviation |
| Scoring.FlatForecast | ai-engine/main.py:44-52 | a flat series forecasts its own level with zero variance |
| Scoring.SampleForecast | ai-engine/main.py:44-49 | the series 100, 105, 110, 108, 112 forecasts 111.8 |
| Scoring.AmountRisk | api/ai-predict.js:44-46 | +30 exactly above 10000, +20 exactly in (5000, 10000], +10 otherwise |
| Scoring.FraudOf | api/ai-predict.js:76-79 | fraud exactly above 60; confidence 80 exactly above 70 or below 30, else 65 |
| Scoring.Clamp | api/ai-predict.js:50 | in [lo, hi], the value itself when inside, the nearer bound otherwise |
| AiPredictJs.NumberOr | api/ai-predict.js:39-41 | a present non-zero number, otherwise the default (so 0 is replaced) |
| AiPredictJs.ListOr | api/ai-predict.js:15 | a present list, otherwise the default |
| AiPredictJs.ToFixed2 | api/ai-predict.js:31 | within 0.005 of the input and a whole number of cents |
| AiPredictJs.HalfUpCents | api/ai-predict.js:31 | the nearest whole number of cents |
| AiPredictJs.PricePrediction | api/ai-predict.js:14-36 | "Insufficient data" exactly for fewer than 2 prices; otherwise a price within 0.005 of the forecast and a confidence in [50, 95], 95 for a deviation up to 0.5 and 50 from 5 on |
| AiPredictJs.Level | api/ai-predict.js:54 | HIGH exactly above 70, MEDIUM exactly in (40, 70], LOW otherwise |
| AiPredictJs.RiskAnalysis | api/ai-predict.js:38-59 | the floored raw score clamped to [0, 100], with falsy-defaulted inputs; its level from the integer score; confidence 85 |
| AiPredictJs.FraudDetection | api/ai-predict.js:61-83 | score = 40 if history is non-empty and amount exceeds 3× its mean, plus 30 if speed exceeds 10, plus jitter, capped at 100; fraud and confidence as `FraudOf` |
| AiPredictJs.Predict | api/ai-predict.js:85-90 | "Model not found" exactly for an unknown name; otherwise the named model's result |
| AiPredictJs.HandlePredict | api/ai-predict.js:119-132 | 500 exactly for a `null` or missing body (the destructuring throws into the `catch`), 400 exactly for a falsy `model_type`, otherwise 200 with the model's result on `data` or `{}` |
| AiEnginePy.Get | ai-engine/main.py:71-73 | a missing key gives the default, an explicit null gives null (which the arithmetic then raises on), a present value itself |
| AiEnginePy.Trunc | ai-engine/main.py:96 | `int()` truncates toward zero |
| AiEnginePy.PricePrediction | ai-engine/main.py:36-62 | an exception exactly for null prices; "Insufficient data" exactly for fewer than 2; otherwise the forecast with confidence in [50, 95] |
| AiEnginePy.Level | ai-engine/main.py:97 | the level of the clamped, untruncated score: HIGH above 70, MEDIUM in (40, 70], LOW otherwise |
| AiEnginePy.ClampRisk | ai-engine/main.py:92 | in [0, 100], the value itself when inside |
| AiEnginePy.RiskAnalysis | ai-engine/main.py:68-103 | an exception exactly when a field is explicitly null; otherwise the truncated clamped score, the level of the clamped score, confidence 85 |
| AiEnginePy.FraudDetection | ai-engine/main.py:109-143 | an exception exactly for a null speed, or a null amount with non-empty history; otherwise the capped score with fraud and confidence as `FraudOf` |
| AiEnginePy.Predict | ai-engine/main.py:25-30 | "Model not found" exactly for an unknown name; a null `data` raises for a known model |
| AiEnginePy.HandlePredict | ai-engine/main.py:156-171 | 500 for a body that is not an object, 400 exactly for a falsy `model_type`, otherwise 200 with the model's result (an error result included) |
| ScoringComparison.PriceConfidenceAgrees | ai-engine/main.py:53 | both engines compute the same price confidence from the same deviation |
| ScoringComparison.RiskScoreAgrees | ai-engine/main.py:92-96 | floor-then-clamp and clamp-then-truncate give the same risk score |
| ScoringComparison.RiskLevelsDiffer | ai-engine/main.py:96-97 | the engines' risk levels differ exactly for a raw score in (40, 41) or (70, 71) |
| ScoringComparison.RiskAt70Point5 | ai-engine/main.py:96-97 | volatility 1.1375 gives score 70 in both, MEDIUM in JavaScript and HIGH in Python |
| ScoringComparison.RiskAgreesWithoutFalsyFields | ai-engine/main.py:71-73 | without nulls and explicit zeros both engines give the same risk score |
| ScoringComparison.ZeroHistoryScore | api/ai-predict.js:40 | an explicit history score 0 gives 45 in JavaScript (treated as 50) and 60 in Python |
| ScoringComparison.ZeroVolatility | api/ai-predict.js:41 | an explicit volatility 0 gives 45 MEDIUM in JavaScript (treated as 0.5) and 25 LOW in Python |
| ScoringComparison.FraudNeedsBothRules | api/ai-predict.js:66-78 | with jitter below 20 a transaction is fraud exactly when both the amount and the speed rule fire |
| ScoringComparison.FraudAgrees | ai-engine/main.py:109-143 | on every input on which Python does not raise, both engines give the same fraud result, explicit zeros included |
| ScoringComparison.PriceAgrees | ai-engine/main.py:36-62 | both produce a price for the same inputs, the JavaScript one being Python's rounded to cents, with the same confidence |
| ScoringComparison.FlatSeriesPrediction | ai-engine/main.py:44-53 | a flat series has zero deviation and predicts its level with confidence 95 |
| ScoringComparison.SamplePrediction | ai-engine/main.py:44-49 | both engines predict 111.8 for 100, 105, 110, 108, 112 |
| Bridge.EnvValue | oracle-service/server.js:50 | an environment variable is truthy exactly when set and non-empty |
| Bridge.FromPrediction | ai-engine/main.py:55-60 | an engine result is an error reply exactly when it is an error; each score lands in its own member with its confidence |
| Bridge.TruthyScalar | oracle-service/server.js:139-143 | the floor of the first non-zero of `prediction`, `risk_score`, `fraud_score`, else 0 |
| LineraOracle.LineraOracleClient.constructor | linera-integration/oracle-client/linera-oracle.js:10-18 | the endpoint and engine URL default when missing or empty; the other fields are kept |
| LineraOracle.FirstCreated | linera-integration/oracle-client/linera-oracle.js:67-69 | the first `ContractCreated` event, or none exactly when there is none |
| LineraOracle.CreateAdaptiveContract | linera-integration/oracle-client/linera-oracle.js:62-79 | the hash and the first `ContractCreated` event's id (undefined when there is none); `{success: false, error}` on failure |
| LineraOracle.SubmitAIPrediction | linera-integration/oracle-client/linera-oracle.js:180-192 | a ledger error is reported, not thrown; otherwise the hash and events |
| LineraOracle.GetContract | linera-integration/oracle-client/linera-oracle.js:221-227 | null on any query error, otherwise the queried record |
| LineraOracle.GetLatestPrediction | linera-integration/oracle-client/linera-oracle.js:254-260 | null on any query error, otherwise the queried prediction |
| LineraOracle.ExtractScalar | linera-integration/oracle-client/linera-oracle.js:98-105 | the floored `prediction` when defined (even 0), else `risk_score`, else `fraud_score`, unfloored, else 0 |
| LineraOracle.SubmissionFor | linera-integration/oracle-client/linera-oracle.js:109-114 | submits the extracted scalar with the reply's confidence as it came |
| LineraOracle.EngineRequest | linera-integration/oracle-client/linera-oracle.js:89-92 | the engine gets the model type and `data` or `{}` |
| LineraOracle.LineraOracleClient.RequestAndSubmitPrediction | linera-integration/oracle-client/linera-oracle.js:85-125 | an engine failure is reported with nothing submitted; any reply, an error reply included, is submitted, and the call succeeds with the ledger's result even when that failed |
| LineraOracle.LineraOracleClient.RequestAndSubmitPredictionChecked | linera-integration/oracle-client/linera-oracle.js:94-114 | the corrected flow: nothing is submitted unless the engine replied without an error |
| LineraOracle.ScalarsAgreeOnEngineReplies | linera-integration/oracle-client/linera-oracle.js:98-105 | on every non-error engine result the client's and the services' scalar choices agree |
| LineraOracle.ScalarsDifferOnZeroPrediction | linera-integration/oracle-client/linera-oracle.js:99-100 | a `prediction` of 0 is kept by the client and skipped by the services |
| LineraOracle.ClientDoesNotFloorScores | linera-integration/oracle-client/linera-oracle.js:101-104 | a risk score of 70.5 reaches the client's ledger as 70.5 and the services' as 70 |
| LineraOracle.EngineErrorIsSubmitted | linera-integration/oracle-client/linera-oracle.js:94-114 | the Python engine answers 200 with an error to a single-price request, and the client then submits 0 with no confidence |
| OracleServiceJs.RpcUrl | oracle-service/server.js:30 | `RPC_URL`, or the local node when unset or empty |
| OracleServiceJs.OracleService.constructor | oracle-service/server.js:41-46 | no provider, wallet or contract; not initialized |
| OracleServiceJs.OracleService.Initialize | oracle-service/server.js:48-68 | initialized exactly when address and key are set and all three objects are built; demo mode touches nothing; a throw keeps what was built before it |
| OracleServiceJs.OracleService.SubmitToBlockchain | oracle-service/server.js:83-106 | not initialized: the demo receipt and no ledger call; otherwise the submission is sent, and the hash is returned or the ledger's error rethrown |
| OracleServiceJs.RequestPrediction | oracle-service/server.js:120-159 | 400 before the engine is asked for a falsy id or model; 500 on an engine failure or an error reply, with nothing submitted; otherwise the prediction, submitted (floored first truthy score, confidence as it came) only when `submitToChain` is truthy, with a demo receipt, the hash, or a 500 |
| OracleServiceJs.SubmitToChain | oracle-service/server.js:161-182 | 400 for a falsy id, type or confidence (0 included) or an undefined value; otherwise the fields are submitted as they came, demo or on chain, a ledger error giving 500 |
| ApiOracle.SubmitToBlockchain | api/oracle.js:34-62 | the demo receipt whenever `RPC_URL`, `CONTRACT_ADDRESS` or `ORACLE_PRIVATE_KEY` is unset or empty; otherwise a setup error or a ledger error is rethrown and success gives the hash |
| ApiOracle.Connected | api/oracle.js:77 | health's `blockchain_connected` tests the address and key only |
| ApiOracle.ConnectedButDemo | api/oracle.js:74-80 | with the address and key set but no `RPC_URL`, health reports connected while submissions are demos |
| ApiOracle.ConnectedVersusConfigured | api/oracle.js:39 | configured exactly when connected and `RPC_URL` is set |
| ApiOracle.RequestPrediction | api/oracle.js:82-117 | the same decisions as the oracle service, with the env-driven demo mode; anything submitted implies truthy id, model and `submitToChain`, an error-free reply and a full configuration |
| ApiOracle.Handler | api/oracle.js:64-120 | OPTIONS is a preflight; GET on the health path reports `Connected`; POST on the prediction path runs `RequestPrediction`; anything else is not found |
| ApiOracle.ShortPriceSeriesIsRefused | api/oracle.js:90-94 | a single-price request answered by the JavaScript engine ends in a 500 "Insufficient data" with nothing submitted |
| CounterApp.Apply | linera-integration/smart-contract-2-deploy/src/contract.rs:45-51 | an increment gives the sum, and fails exactly when the sum leaves the `u64` range |
| CounterApp.RunAddsTotal | linera-integration/smart-contract-2-deploy/src/contract.rs:45-51 | a sequence of increments gives the initial value plus their total, and fails exactly when that leaves the `u64` range |
| CounterApp.TotalConcat | linera-integration/smart-contract-2-deploy/src/contract.rs:45-51 | the total of two batches is the sum of their totals |
| CounterApp.BatchesCommute | linera-integration/smart-contract-2-deploy/src/contract.rs:45-51 | two batches of increments commute: the order does not change the result |
| CounterApp.TemplateTest | linera-integration/smart-contract-2-deploy/src/contract.rs:69-82 | instantiate with 10, increment by 10, read 20 |
| CounterApp.CounterContract.constructor | linera-integration/smart-contract-2-deploy/src/contract.rs:32-37 | the register starts at 0 |
| CounterApp.CounterContract.Instantiate | linera-integration/smart-contract-2-deploy/src/contract.rs:39-43 | the register holds the argument |
| CounterApp.CounterContract.ExecuteOperation | linera-integration/smart-contract-2-deploy/src/contract.rs:45-51 | the register becomes old + increment as `Apply` says; an overflowing increment panics with the register unchanged |
| CounterApp.CounterContract.ExecuteMessage | linera-integration/smart-contract-2-deploy/src/contract.rs:53 | nothing changes |

## Left out

- LineraLib.SmartContract2Service.HandleQuery: the order of `GetAllContracts` is not stated. It is the storage index's iteration order. The contract states only that every stored contract is listed exactly once.
- AiPredictJs.PricePrediction and AiEnginePy.PricePrediction: the standard deviation is a free parameter, so confidence is stated as a function of it. It is not tied to the price window. Square roots, IEEE rounding and numpy's `mean`/`std` are not modelled. A flat series is handled at deviation 0.
- AiPredictJs.ToFixed2: the function rounds half-up on the exact real value. `toFixed(2)` on a binary double can round a halfway case the other way.
- Registry.Abs: `i64::MIN.abs()` panics in a debug build. Values are unbounded here, so the model gives 2^63, which is the release build's result after the cast.
- Counters are unbounded and do not wrap at the `u64` limit: the registry's contract counter, the mock's `nextContractId`/`nextPredictionId`, and `contract_counter` in the service.
- CounterApp.CounterContract.ExecuteOperation: an overflowing increment is modelled as a panic with the register unchanged, which is what a build with overflow checks does. A build without them would wrap instead.
- Storage failures are not modelled. Storage is total and cannot fail, so `ViewError`, `unwrap_or` fallbacks and `expect` panics on load and save are left out. In `contract.rs` state is loaded inside each call; the model treats its writes as persisted.
- Timestamps are natural numbers supplied by the caller. `system_time()` and `new Date()` are not modelled, and neither is the mock's ISO-string comparison in `latestPrediction`.
- The text of `ContractExecuted`'s `reason` is not modelled; the event carries its two numbers.
- The result fields `timestamp`, `model` and `status` are not modelled. The risk level's string spelling is replaced by an enumeration.
- The HTTP and GraphQL plumbing is left out:
  - Express, Flask and Vercel routing beyond the handlers' decisions;
  - CORS headers and the Express OPTIONS middleware;
  - the `/health` routes of the Express oracle and the engines, and the engines' `/models` route;
  - the GraphQL schema, mutation strings and client construction.
- The mock's REST routes and `chains` resolver are not modelled. They are thin wrappers over the resolvers.
- The mock returns its stored objects to callers, who could alias and mutate them. The model returns values.
- The client methods `authorizeOracle` and `subscribeToEvents` are not modelled. The first only wraps a mutation; the second is a stub.
- Malformed ledger replies (for example a reply without `outcome`) are not modelled; a reply is either well-formed or a failure.
- An engine reply that is not a JSON object is not modelled. The same goes for JavaScript model names that are `Object.prototype` members (`toString`, …): the lookup treats them as unknown.
- Python inputs whose types are not JSON numbers or lists (strings, nested objects) are not modelled. Only an explicit null is modelled as raising.
- Transport details of the engine call are abstracted: a non-2xx status from axios counts as a failure; `fetch` in the serverless oracle parses any body.
- `linera-integration/oracle-client/server.js`, `full-integration.js` and `test.js`, the deploy scripts and the front-end configuration are not part of this model.
- The template's `service.rs` and `lib.rs` are not part of this model. They declare the query and the operation type and have no behaviour.

## Findings

| source | as written | input that shows it | evidently intended | confidence | as-written member | corrected member |
|---|---|---|---|---|---|---|
| linera-integration/oracle-client/linera-oracle.js:94-114 | the engine's reply is submitted without testing its `error` member | a `price_prediction` request with prices `[100]`: the Python engine answers 200 with `{error: 'Insufficient data'}`, and the client submits value 0 with an undefined confidence and reports `success: true` | stop, report the error and submit nothing, as `oracle-service/server.js:132-134` and `api/oracle.js:92-94` do | medium; not executed | LineraOracle.EngineErrorIsSubmitted | LineraOracle.LineraOracleClient.RequestAndSubmitPredictionChecked |
