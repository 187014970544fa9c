/** linera-integration/src/lib.rs: the contract whose operations return
    nothing (a rejected call silently does nothing) and the service that
    answers `QueryRequest`s. */
module LineraLib {
  import opened Wrappers
  import opened Registry
  import opened LineraState

  /** `SmartContract2Contract`: operations over the stored views. The
      authenticated signer and the system time come from the runtime and are
      parameters here. */
  class SmartContract2Contract {
    const state: SmartContract2State

    /** `load`. */
    constructor (state: SmartContract2State)
      ensures this.state == state
    {
      this.state := state;
    }

    /** `instantiate`. */
    method Instantiate(owner: string)
      modifies state
      ensures state.Abstract() == Initialize(old(state.Abstract()), owner)
    {
      state.Initialize(owner);
    }

    /** `execute_operation`: the registry's transition for the operation,
        with its error and events dropped. */
    method ExecuteOperation(signer: Option<string>, now: nat, operation: Operation)
      modifies state
      ensures state.Abstract() == Execute(old(state.Abstract()), Call(signer, now, operation)).next
    {
      match operation
      case CreateAdaptiveContract(contractType, threshold) =>
        CreateContract(signer, now, contractType, threshold);
      case SubmitAIPrediction(contractId, predictionType, value, confidence) =>
        SubmitPrediction(signer, now, contractId, predictionType, value, confidence);
      case AuthorizeOracle(oracleAddress) =>
        Authorize(signer, oracleAddress);
    }

    /** `execute_message`: no cross-chain messages; nothing changes. */
    method ExecuteMessage()
      ensures unchanged(state)
    {
    }

    /** `create_adaptive_contract`. */
    method CreateContract(signer: Option<string>, now: nat, contractType: string, threshold: U64)
      modifies state
      ensures state.Abstract() == Create(old(state.Abstract()), signer, now, contractType, threshold).next
    {
      if signer.None? {
        return;
      }
      var creator := signer.value;
      var contractId := state.NextContractId();
      var contract := AdaptiveContract(contractId, creator, contractType, threshold, true, now, now);
      state.contracts := state.contracts[contractId := contract];
    }

    /** `submit_ai_prediction`. */
    method SubmitPrediction(signer: Option<string>, now: nat, contractId: nat, predictionType: string,
                            value: I64, confidence: U8)
      modifies state
      ensures state.Abstract()
           == Submit(old(state.Abstract()), signer, now, contractId, predictionType, value, confidence).next
    {
      if signer.None? {
        return;
      }
      var oracle := signer.value;
      if !state.IsOracleAuthorized(oracle) {
        return;
      }
      if confidence > 100 {
        return;
      }
      if contractId !in state.contracts {
        return;
      }
      var contract := state.contracts[contractId];
      if !contract.isActive {
        return;
      }
      var prediction := AIPrediction(now, predictionType, value, confidence, oracle);
      state.AddPrediction(contractId, prediction);
      contract := contract.(lastUpdated := now);
      state.contracts := state.contracts[contractId := contract];
      CheckAndExecute(contractId, value);
    }

    /** `authorize_oracle`. */
    method Authorize(signer: Option<string>, oracleAddress: string)
      modifies state
      ensures state.Abstract() == Registry.Authorize(old(state.Abstract()), signer, oracleAddress).next
    {
      if signer.None? {
        return;
      }
      var caller := signer.value;
      var owner := state.owner;
      if caller != owner {
        return;
      }
      state.authorizedOracles := state.authorizedOracles[oracleAddress := true];
    }

    /** `check_and_execute`: only the contract table may change. */
    method CheckAndExecute(contractId: nat, value: I64)
      modifies state
      ensures state.Abstract() == old(state.Abstract()).(contracts := Registry.CheckAndExecute(old(state.contracts), contractId, value))
    {
      if contractId !in state.contracts {
        return;
      }
      var contract := state.contracts[contractId];
      if !contract.isActive {
        return;
      }
      var absValue := Abs(value);
      if absValue >= contract.threshold {
        contract := contract.(isActive := false);
        state.contracts := state.contracts[contractId := contract];
      }
    }
  }

  datatype QueryRequest =
    | GetContract(id: nat)
    | GetAllContracts
    | GetPredictions(contractId: nat)

  datatype QueryResponse =
    | ContractResponse(contract: Option<AdaptiveContract>)
    | ContractsResponse(contracts: seq<AdaptiveContract>)
    | PredictionsResponse(predictions: seq<AIPrediction>)

  /** `SmartContract2Service`: read-only access to the same views. */
  class SmartContract2Service {
    const state: SmartContract2State

    /** `new`. */
    constructor (state: SmartContract2State)
      ensures this.state == state
    {
      this.state := state;
    }

    /** `handle_query`. `GetAllContracts` walks the stored index in whatever
        order storage keeps it; the listing holds each stored contract once. */
    method HandleQuery(request: QueryRequest) returns (response: QueryResponse)
      requires Valid(state.Abstract())
      ensures request.GetContract? ==>
        response.ContractResponse?
        && (response.contract.Some? <==> request.id in state.contracts)
        && (response.contract.Some? ==> response.contract.value == state.contracts[request.id]
                                         && response.contract.value.id == request.id)
      ensures request.GetAllContracts? ==>
        response.ContractsResponse? && ListsEachStoredOnce(response.contracts, state.contracts)
      ensures request.GetPredictions? ==>
        response == PredictionsResponse(PredictionsOf(state.predictions, request.contractId))
    {
      match request
      case GetContract(id) =>
        var contract := if id in state.contracts then Some(state.contracts[id]) else None;
        response := ContractResponse(contract);
      case GetAllContracts =>
        var contracts: seq<AdaptiveContract> := [];
        var remaining := state.contracts.Keys;
        while remaining != {}
          invariant remaining <= state.contracts.Keys
          invariant forall i :: 0 <= i < |contracts| ==>
            contracts[i].id in state.contracts.Keys - remaining && state.contracts[contracts[i].id] == contracts[i]
          invariant forall i, j :: 0 <= i < j < |contracts| ==> contracts[i].id != contracts[j].id
          invariant forall k :: k in state.contracts.Keys - remaining ==>
            exists i :: 0 <= i < |contracts| && contracts[i].id == k
          decreases remaining
        {
          var key :| key in remaining;
          ghost var before := contracts;
          ghost var unvisited := remaining;
          contracts := contracts + [state.contracts[key]];
          remaining := remaining - {key};
          forall k | k in state.contracts.Keys - remaining
            ensures exists i :: 0 <= i < |contracts| && contracts[i].id == k
          {
            if k == key {
              assert contracts[|contracts| - 1].id == k;
            } else {
              assert k in state.contracts.Keys - unvisited;
              var i :| 0 <= i < |before| && before[i].id == k;
              assert contracts[i].id == k;
            }
          }
        }
        assert state.contracts.Keys - remaining == state.contracts.Keys;
        response := ContractsResponse(contracts);
      case GetPredictions(contractId) =>
        var predictions := if contractId in state.predictions then state.predictions[contractId] else [];
        response := PredictionsResponse(predictions);
    }
  }
}
