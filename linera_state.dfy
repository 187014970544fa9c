/** linera-integration/src/state.rs: the application's stored views and the
    helpers that read and update them. */
module LineraState {
  import opened Wrappers
  import opened Registry

  /** `SmartContract2State`; each view is a field updated in place. */
  class SmartContract2State {
    var contractCounter: nat
    var contracts: map<nat, AdaptiveContract>
    var predictions: map<nat, seq<AIPrediction>>
    var authorizedOracles: map<string, bool>
    var owner: string

    /** All views as one value. */
    function Abstract(): Store
      reads this
    {
      Store(contractCounter, contracts, predictions, authorizedOracles, owner)
    }

    /** Storage before instantiation: every view at its default. */
    constructor ()
      ensures Abstract() == Empty
    {
      contractCounter := 0;
      contracts := map[];
      predictions := map[];
      authorizedOracles := map[];
      owner := "";
    }

    /** `initialize`: record the owner and reset the counter. */
    method Initialize(owner: string)
      modifies this
      ensures Abstract() == Registry.Initialize(old(Abstract()), owner)
    {
      this.owner := owner;
      contractCounter := 0;
    }

    /** `is_oracle_authorized`: never true for an address that was never
        inserted; in a valid state, true exactly for those inserted. */
    function IsOracleAuthorized(oracle: string): (r: bool)
      reads this
      ensures r ==> oracle in authorizedOracles
      ensures Valid(Abstract()) ==> (r <==> oracle in authorizedOracles)
    {
      IsAuthorized(authorizedOracles, oracle)
    }

    /** `next_contract_id`: advance the counter and return its new value,
        which in a valid state is not yet the id of any contract. */
    method NextContractId() returns (id: nat)
      modifies this`contractCounter
      ensures id == old(contractCounter) + 1 && contractCounter == id
      ensures Valid(old(Abstract())) ==> id !in contracts
    {
      var current := contractCounter;
      var next := current + 1;
      contractCounter := next;
      id := next;
    }

    /** `add_prediction`: push onto the contract's list (created empty when
        missing); every other list and view is left alone. */
    method AddPrediction(contractId: nat, prediction: AIPrediction)
      modifies this`predictions
      ensures predictions == Append(old(predictions), contractId, prediction)
      ensures GetLatestPrediction(contractId) == Some(prediction)
    {
      var list := if contractId in predictions then predictions[contractId] else [];
      list := list + [prediction];
      predictions := predictions[contractId := list];
    }

    /** `get_latest_prediction`: the last element of the contract's list, or
        None when it has no list or an empty one. */
    function GetLatestPrediction(contractId: nat): (r: Option<AIPrediction>)
      reads this
      ensures r.None? <==> PredictionsOf(predictions, contractId) == []
      ensures r.Some? ==> r.value == PredictionsOf(predictions, contractId)[|PredictionsOf(predictions, contractId)| - 1]
    {
      if contractId in predictions && |predictions[contractId]| > 0 then
        Some(predictions[contractId][|predictions[contractId]| - 1])
      else
        None
    }
  }
}
