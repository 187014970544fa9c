/** linera-integration/src/contract.rs: the same three operations as lib.rs,
    but every rejection is returned as a `ContractError` and every accepted
    change is announced by an event. */
module LineraContract {
  import opened Wrappers
  import opened Registry
  import opened LineraState

  /** `SmartContract2`. The state views are loaded from storage on every
      call; `events` is what the runtime has been asked to emit so far. */
  class SmartContract2 {
    const state: SmartContract2State
    var events: seq<Event>

    constructor (state: SmartContract2State)
      ensures this.state == state && events == []
    {
      this.state := state;
      events := [];
    }

    /** `instantiate`. */
    method Instantiate(owner: string)
      modifies state
      ensures state.Abstract() == Initialize(old(state.Abstract()), owner)
    {
      state.Initialize(owner);
    }

    /** `execute_operation`: the registry's transition, with its error
        returned and its events emitted. */
    method ExecuteOperation(signer: Option<string>, now: nat, operation: Operation)
      returns (outcome: Outcome<ContractError>)
      modifies this, state
      ensures var step := Execute(old(state.Abstract()), Call(signer, now, operation));
        && state.Abstract() == step.next
        && outcome == step.outcome
        && events == old(events) + step.events
    {
      match operation
      case CreateAdaptiveContract(contractType, threshold) =>
        outcome := CreateContract(signer, now, contractType, threshold);
      case SubmitAIPrediction(contractId, predictionType, value, confidence) =>
        outcome := SubmitPrediction(signer, now, contractId, predictionType, value, confidence);
      case AuthorizeOracle(oracleAddress) =>
        outcome := Authorize(signer, oracleAddress);
    }

    /** `execute_message`: no cross-chain messages; nothing changes. */
    method ExecuteMessage()
      ensures unchanged(this) && unchanged(state)
    {
    }

    /** `create_adaptive_contract`. */
    method CreateContract(signer: Option<string>, now: nat, contractType: string, threshold: U64)
      returns (outcome: Outcome<ContractError>)
      modifies this, state
      ensures var step := Create(old(state.Abstract()), signer, now, contractType, threshold);
        && state.Abstract() == step.next && outcome == step.outcome && events == old(events) + step.events
    {
      if signer.None? {
        return Fail(Unauthorized);
      }
      var creator := signer.value;
      var contractId := state.NextContractId();
      var contract := AdaptiveContract(contractId, creator, contractType, threshold, true, now, now);
      state.contracts := state.contracts[contractId := contract];
      events := events + [ContractCreated(contractId, creator, contractType)];
      outcome := Pass;
    }

    /** `submit_ai_prediction`. */
    method SubmitPrediction(signer: Option<string>, now: nat, contractId: nat, predictionType: string,
                            value: I64, confidence: U8)
      returns (outcome: Outcome<ContractError>)
      modifies this, state
      ensures var step := Submit(old(state.Abstract()), signer, now, contractId, predictionType, value, confidence);
        && state.Abstract() == step.next && outcome == step.outcome && events == old(events) + step.events
    {
      if signer.None? {
        return Fail(Unauthorized);
      }
      var oracle := signer.value;
      if !state.IsOracleAuthorized(oracle) {
        return Fail(OracleNotAuthorized);
      }
      if confidence > 100 {
        return Fail(InvalidConfidence);
      }
      if contractId !in state.contracts {
        return Fail(ContractNotFound);
      }
      var contract := state.contracts[contractId];
      if !contract.isActive {
        return Fail(ContractNotActive);
      }
      var prediction := AIPrediction(now, predictionType, value, confidence, oracle);
      state.AddPrediction(contractId, prediction);
      contract := contract.(lastUpdated := now);
      state.contracts := state.contracts[contractId := contract];
      events := events + [PredictionReceived(contractId, predictionType, value, confidence)];
      outcome := CheckAndExecute(contractId, value);
    }

    /** `authorize_oracle`. */
    method Authorize(signer: Option<string>, oracleAddress: string)
      returns (outcome: Outcome<ContractError>)
      modifies this, state
      ensures var step := Registry.Authorize(old(state.Abstract()), signer, oracleAddress);
        && state.Abstract() == step.next && outcome == step.outcome && events == old(events) + step.events
    {
      if signer.None? {
        return Fail(Unauthorized);
      }
      var caller := signer.value;
      var owner := state.owner;
      if caller != owner {
        return Fail(Unauthorized);
      }
      state.authorizedOracles := state.authorizedOracles[oracleAddress := true];
      events := events + [OracleAuthorized(oracleAddress)];
      outcome := Pass;
    }

    /** `check_and_execute`: a missing contract is an error; otherwise only
        the contract table may change, and a flip is announced. */
    method CheckAndExecute(contractId: nat, value: I64) returns (outcome: Outcome<ContractError>)
      modifies this, state
      ensures outcome == (if contractId in old(state.contracts) then Pass else Fail(ContractNotFound))
      ensures state.Abstract()
           == old(state.Abstract()).(contracts := Registry.CheckAndExecute(old(state.contracts), contractId, value))
      ensures events == old(events)
        + (if Fires(old(state.contracts), contractId, value)
           then [ContractExecuted(contractId, Abs(value), old(state.contracts)[contractId].threshold)]
           else [])
    {
      if contractId !in state.contracts {
        return Fail(ContractNotFound);
      }
      var contract := state.contracts[contractId];
      if !contract.isActive {
        return Pass;
      }
      var absValue := Abs(value);
      if absValue >= contract.threshold {
        contract := contract.(isActive := false);
        state.contracts := state.contracts[contractId := contract];
        events := events + [ContractExecuted(contractId, absValue, contract.threshold)];
      }
      outcome := Pass;
    }
  }
}
