/** The adaptive-contract registry of the Linera application
    (linera-integration/src): its records and operations, and the transition
    rules of its three operations as pure functions over the whole stored
    state. Both Rust versions of the contract follow these rules: LineraLib
    (lib.rs) drops the error and the events, LineraContract (contract.rs)
    returns the error and emits the events. */
module Registry {
  import opened Wrappers

  /** Rust's fixed-width integers, as subset types of `int`. */
  type U8 = x: int | 0 <= x < 0x100
  type U64 = x: int | 0 <= x < 0x1_0000_0000_0000_0000
  type I64 = x: int | -0x8000_0000_0000_0000 <= x < 0x8000_0000_0000_0000

  datatype AIPrediction = AIPrediction(
    timestamp: nat,
    predictionType: string,
    value: I64,
    confidence: U8,
    oracle: string)

  datatype AdaptiveContract = AdaptiveContract(
    id: nat,
    creator: string,
    contractType: string,
    threshold: U64,
    isActive: bool,
    createdAt: nat,
    lastUpdated: nat)

  datatype Operation =
    | CreateAdaptiveContract(contractType: string, threshold: U64)
    | SubmitAIPrediction(contractId: nat, predictionType: string, value: I64, confidence: U8)
    | AuthorizeOracle(oracleAddress: string)

  datatype ContractError =
    | Unauthorized
    | OracleNotAuthorized
    | ContractNotFound
    | ContractNotActive
    | InvalidConfidence

  /** The events contract.rs emits; `ContractExecuted` carries the two numbers
      its `reason` text is formatted from. */
  datatype Event =
    | ContractCreated(contractId: nat, creator: string, contractType: string)
    | PredictionReceived(contractId: nat, predictionType: string, value: I64, confidence: U8)
    | ContractExecuted(contractId: nat, absValue: nat, threshold: U64)
    | OracleAuthorized(oracle: string)

  /** The stored views of `SmartContract2State`, as one value. */
  datatype Store = Store(
    counter: nat,
    contracts: map<nat, AdaptiveContract>,
    predictions: map<nat, seq<AIPrediction>>,
    oracles: map<string, bool>,
    owner: string)

  /** One operation together with what the runtime supplies to it: the
      authenticated signer (if any) and the system time. */
  datatype Call = Call(signer: Option<string>, now: nat, op: Operation)

  /** The result of one operation: the new state, the error (if any) and the
      events emitted. */
  datatype Step = Step(next: Store, outcome: Outcome<ContractError>, events: seq<Event>)

  /** Storage before instantiation: every view holds its default value. */
  const Empty: Store := Store(0, map[], map[], map[], "")

  /** The invariant every reachable state keeps: each contract is stored under
      its own id, which the counter has already handed out; the allow-list
      only ever holds `true`; predictions are only stored for existing
      contracts. */
  ghost predicate Valid(r: Store) {
    && (forall k :: k in r.contracts ==> 1 <= k <= r.counter && r.contracts[k].id == k)
    && (forall o :: o in r.oracles ==> r.oracles[o])
    && (forall k :: k in r.predictions ==> k in r.contracts)
  }

  /** `value.abs() as u64`. Unbounded, so i64::MIN gives 2^63 — what the
      release build's wrapping `abs` followed by the cast gives as well. */
  function Abs(v: I64): (a: nat)
    ensures a == v as int || a == -(v as int)
  {
    if v < 0 then -(v as int) else v
  }

  /** `initialize`: sets the owner and resets the counter. */
  function Initialize(r: Store, owner: string): (r': Store)
    ensures r'.owner == owner && r'.counter == 0
    ensures r'.contracts == r.contracts && r'.predictions == r.predictions && r'.oracles == r.oracles
  {
    r.(owner := owner, counter := 0)
  }

  /** `is_oracle_authorized`: a missing entry reads as `false`. */
  predicate IsAuthorized(oracles: map<string, bool>, oracle: string) {
    oracle in oracles && oracles[oracle]
  }

  /** The prediction list of a contract; a contract without one has none. */
  function PredictionsOf(predictions: map<nat, seq<AIPrediction>>, contractId: nat): seq<AIPrediction> {
    if contractId in predictions then predictions[contractId] else []
  }

  /** `add_prediction`: push onto the contract's list, creating it if absent. */
  function Append(predictions: map<nat, seq<AIPrediction>>, contractId: nat, p: AIPrediction)
    : (r: map<nat, seq<AIPrediction>>)
    ensures r.Keys == predictions.Keys + {contractId}
    ensures PredictionsOf(r, contractId) == PredictionsOf(predictions, contractId) + [p]
    ensures forall c :: c != contractId ==> PredictionsOf(r, c) == PredictionsOf(predictions, c)
  {
    predictions[contractId := PredictionsOf(predictions, contractId) + [p]]
  }

  /** Whether `check_and_execute` flips the contract: it exists, is still
      active, and the magnitude of the value reaches its threshold. */
  predicate Fires(contracts: map<nat, AdaptiveContract>, contractId: nat, value: I64) {
    contractId in contracts && contracts[contractId].isActive && Abs(value) >= contracts[contractId].threshold
  }

  /** `check_and_execute`: deactivate the contract when the value crosses its
      threshold; otherwise leave the table as it is. */
  function CheckAndExecute(contracts: map<nat, AdaptiveContract>, contractId: nat, value: I64)
    : (r: map<nat, AdaptiveContract>)
    ensures r.Keys == contracts.Keys
    ensures forall c :: c in contracts && c != contractId ==> r[c] == contracts[c]
    ensures contractId in contracts ==>
      r[contractId] == contracts[contractId].(isActive := contracts[contractId].isActive && !Fires(contracts, contractId, value))
  {
    if Fires(contracts, contractId, value) then
      contracts[contractId := contracts[contractId].(isActive := false)]
    else
      contracts
  }

  /** `create_adaptive_contract`. */
  function Create(r: Store, signer: Option<string>, now: nat, contractType: string, threshold: U64)
    : (s: Step)
    ensures signer.None? ==> s == Step(r, Fail(Unauthorized), [])
    ensures signer.Some? ==>
      var id := r.counter + 1;
      && s.outcome == Pass
      && s.next.counter == id
      && s.next.contracts.Keys == r.contracts.Keys + {id}
      && s.next.contracts[id] == AdaptiveContract(id, signer.value, contractType, threshold, true, now, now)
      && (forall k :: k in r.contracts && k != id ==> s.next.contracts[k] == r.contracts[k])
      && s.next.predictions == r.predictions && s.next.oracles == r.oracles && s.next.owner == r.owner
      && s.events == [ContractCreated(id, signer.value, contractType)]
    ensures signer.Some? && Valid(r) ==> r.counter + 1 !in r.contracts
  {
    match signer
    case None => Step(r, Fail(Unauthorized), [])
    case Some(creator) =>
      var id := r.counter + 1;
      var c := AdaptiveContract(id, creator, contractType, threshold, true, now, now);
      Step(r.(counter := id, contracts := r.contracts[id := c]), Pass, [ContractCreated(id, creator, contractType)])
  }

  /** The checks of `submit_ai_prediction`, in the order `contract.rs` makes them. */
  function SubmitCheck(r: Store, signer: Option<string>, contractId: nat, confidence: U8)
    : (o: Outcome<ContractError>)
    ensures o == Fail(Unauthorized) <==> signer.None?
    ensures o == Fail(OracleNotAuthorized) <==> signer.Some? && !IsAuthorized(r.oracles, signer.value)
    ensures o == Fail(InvalidConfidence) <==>
      signer.Some? && IsAuthorized(r.oracles, signer.value) && confidence > 100
    ensures o == Fail(ContractNotFound) <==>
      signer.Some? && IsAuthorized(r.oracles, signer.value) && confidence <= 100 && contractId !in r.contracts
    ensures o == Fail(ContractNotActive) <==>
      signer.Some? && IsAuthorized(r.oracles, signer.value) && confidence <= 100 && contractId in r.contracts
      && !r.contracts[contractId].isActive
    ensures o == Pass <==>
      signer.Some? && IsAuthorized(r.oracles, signer.value) && confidence <= 100 && contractId in r.contracts
      && r.contracts[contractId].isActive
  {
    if signer.None? then Fail(Unauthorized)
    else if !IsAuthorized(r.oracles, signer.value) then Fail(OracleNotAuthorized)
    else if confidence > 100 then Fail(InvalidConfidence)
    else if contractId !in r.contracts then Fail(ContractNotFound)
    else if !r.contracts[contractId].isActive then Fail(ContractNotActive)
    else Pass
  }

  /** `submit_ai_prediction`, followed by `check_and_execute`. */
  function Submit(r: Store, signer: Option<string>, now: nat, contractId: nat, predictionType: string,
                  value: I64, confidence: U8): (s: Step)
    ensures s.outcome == SubmitCheck(r, signer, contractId, confidence)
    ensures s.outcome.Fail? ==> s.next == r && s.events == []
    ensures s.outcome.Pass? ==>
      var c := r.contracts[contractId];
      var crossed := Abs(value) >= c.threshold;
      && PredictionsOf(s.next.predictions, contractId)
         == PredictionsOf(r.predictions, contractId) + [AIPrediction(now, predictionType, value, confidence, signer.value)]
      && (forall k :: k != contractId ==> PredictionsOf(s.next.predictions, k) == PredictionsOf(r.predictions, k))
      && s.next.contracts.Keys == r.contracts.Keys
      && s.next.contracts[contractId] == c.(lastUpdated := now, isActive := !crossed)
      && (forall k :: k in r.contracts && k != contractId ==> s.next.contracts[k] == r.contracts[k])
      && s.next.counter == r.counter && s.next.owner == r.owner && s.next.oracles == r.oracles
      && s.events == [PredictionReceived(contractId, predictionType, value, confidence)]
                     + (if crossed then [ContractExecuted(contractId, Abs(value), c.threshold)] else [])
    ensures s.outcome.Pass? && r.contracts[contractId].threshold == 0 ==> !s.next.contracts[contractId].isActive
  {
    var check := SubmitCheck(r, signer, contractId, confidence);
    if check.Fail? then Step(r, check, [])
    else
      var p := AIPrediction(now, predictionType, value, confidence, signer.value);
      var touched := r.contracts[contractId := r.contracts[contractId].(lastUpdated := now)];
      var executed := if Fires(touched, contractId, value)
        then [ContractExecuted(contractId, Abs(value), touched[contractId].threshold)]
        else [];
      Step(r.(predictions := Append(r.predictions, contractId, p),
              contracts := CheckAndExecute(touched, contractId, value)),
           Pass,
           [PredictionReceived(contractId, predictionType, value, confidence)] + executed)
  }

  /** `authorize_oracle`: only the owner may add to the allow-list. */
  function Authorize(r: Store, signer: Option<string>, oracleAddress: string): (s: Step)
    ensures s.outcome.Pass? <==> signer == Some(r.owner)
    ensures s.outcome.Fail? ==> s == Step(r, Fail(Unauthorized), [])
    ensures s.outcome.Pass? ==>
      && s.next == r.(oracles := r.oracles[oracleAddress := true])
      && IsAuthorized(s.next.oracles, oracleAddress)
      && s.events == [OracleAuthorized(oracleAddress)]
  {
    match signer
    case None => Step(r, Fail(Unauthorized), [])
    case Some(caller) =>
      if caller != r.owner then Step(r, Fail(Unauthorized), [])
      else Step(r.(oracles := r.oracles[oracleAddress := true]), Pass, [OracleAuthorized(oracleAddress)])
  }

  /** `execute_operation`: dispatch on the operation. */
  function Execute(r: Store, call: Call): Step {
    match call.op
    case CreateAdaptiveContract(contractType, threshold) =>
      Create(r, call.signer, call.now, contractType, threshold)
    case SubmitAIPrediction(contractId, predictionType, value, confidence) =>
      Submit(r, call.signer, call.now, contractId, predictionType, value, confidence)
    case AuthorizeOracle(oracleAddress) =>
      Authorize(r, call.signer, oracleAddress)
  }

  /** A state together with the events emitted so far. */
  datatype Trace = Trace(state: Store, events: seq<Event>)

  /** The effect of a sequence of operations, executed one at a time. */
  function Run(r: Store, calls: seq<Call>): Trace
    decreases |calls|
  {
    if calls == [] then Trace(r, [])
    else
      var before := Run(r, calls[..|calls| - 1]);
      var s := Execute(before.state, calls[|calls| - 1]);
      Trace(s.next, before.events + s.events)
  }

  /** A listing holds every stored contract exactly once, as stored. */
  ghost predicate ListsEachStoredOnce(list: seq<AdaptiveContract>, contracts: map<nat, AdaptiveContract>) {
    && (forall i :: 0 <= i < |list| ==> list[i].id in contracts && contracts[list[i].id] == list[i])
    && (forall i, j :: 0 <= i < j < |list| ==> list[i].id != list[j].id)
    && (forall k :: k in contracts ==> exists i :: 0 <= i < |list| && list[i].id == k)
  }
}
