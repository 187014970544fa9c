/** linera-integration/src/service.rs: the GraphQL query root over the
    stored views. */
module LineraService {
  import opened Wrappers
  import opened Registry
  import opened LineraState

  /** `QueryRoot`: read-only resolvers over the shared state. */
  class QueryRoot {
    const state: SmartContract2State

    constructor (state: SmartContract2State)
      ensures this.state == state
    {
      this.state := state;
    }

    /** `contract(id)`: the stored record, which in a valid state carries the
        id it was asked for. */
    function Contract(id: nat): (r: Option<AdaptiveContract>)
      reads this, state
      ensures r.Some? <==> id in state.contracts
      ensures r.Some? ==> r.value == state.contracts[id]
      ensures r.Some? && Valid(state.Abstract()) ==> r.value.id == id
    {
      if id in state.contracts then Some(state.contracts[id]) else None
    }

    /** `contracts`: probe every id from 1 to the counter and keep those
        present. In a valid state that lists every stored contract, once, in
        increasing id order. */
    method Contracts() returns (list: seq<AdaptiveContract>)
      requires Valid(state.Abstract())
      ensures forall i :: 0 <= i < |list| ==> list[i].id in state.contracts && state.contracts[list[i].id] == list[i]
      ensures forall i, j :: 0 <= i < j < |list| ==> list[i].id < list[j].id
      ensures forall k :: k in state.contracts ==> exists i :: 0 <= i < |list| && list[i].id == k
    {
      var table := state.contracts;
      var counter := state.contractCounter;
      assert forall k :: k in table ==> 1 <= k <= counter && table[k].id == k;
      list := [];
      var id := 1;
      while id <= counter
        invariant 1 <= id <= counter + 1
        invariant forall i :: 0 <= i < |list| ==> list[i].id in table && table[list[i].id] == list[i] && list[i].id < id
        invariant forall i, j :: 0 <= i < j < |list| ==> list[i].id < list[j].id
        invariant forall k :: k in table && k < id ==> exists i :: 0 <= i < |list| && list[i].id == k
      {
        ghost var before := list;
        if id in table {
          list := list + [table[id]];
        }
        forall k | k in table && k < id + 1
          ensures exists i :: 0 <= i < |list| && list[i].id == k
        {
          if k == id {
            assert list[|list| - 1].id == k;
          } else {
            var i :| 0 <= i < |before| && before[i].id == k;
            assert list[i].id == k;
          }
        }
        id := id + 1;
      }
    }

    /** `latest_prediction`: the last prediction recorded for the contract. */
    function LatestPrediction(contractId: nat): (r: Option<AIPrediction>)
      reads this, state
      ensures r.None? <==> Predictions(contractId) == []
      ensures r.Some? ==> r.value == Predictions(contractId)[|Predictions(contractId)| - 1]
    {
      state.GetLatestPrediction(contractId)
    }

    /** `predictions`: the recorded list, empty for a contract without one. */
    function Predictions(contractId: nat): (r: seq<AIPrediction>)
      reads this, state
      ensures contractId !in state.predictions ==> r == []
      ensures contractId in state.predictions ==> r == state.predictions[contractId]
    {
      PredictionsOf(state.predictions, contractId)
    }

    /** `prediction_count`: the length of that same list. */
    function PredictionCount(contractId: nat): (r: nat)
      reads this, state
      ensures r == |Predictions(contractId)|
      ensures r == 0 <==> LatestPrediction(contractId).None?
    {
      if contractId in state.predictions then |state.predictions[contractId]| else 0
    }

    /** `is_oracle_authorized`. */
    function IsOracleAuthorized(oracle: string): (r: bool)
      reads this, state
      ensures r <==> IsAuthorized(state.authorizedOracles, oracle)
    {
      state.IsOracleAuthorized(oracle)
    }

    /** `contract_counter`: in a valid state no stored id exceeds it. */
    function ContractCounter(): (r: nat)
      reads this, state
      ensures Valid(state.Abstract()) ==> forall k :: k in state.contracts ==> k <= r
    {
      state.contractCounter
    }
  }
}
