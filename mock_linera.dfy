/** linera-integration/mock-linera-service.cjs: the in-memory stand-in for
    the ledger. It keeps the same contract table and threshold rule as the
    Rust registry, with no signer, no allow-list and no confidence check,
    and with one prediction-id counter shared by all contracts. */
module MockLinera {
  import opened Wrappers

  /** A contract record of the mock; timestamps are `new Date()` readings,
      taken here as milliseconds. */
  datatype MockContract = MockContract(
    id: int,
    creator: string,
    contractType: string,
    threshold: int,
    isActive: bool,
    createdAt: nat,
    lastUpdated: nat)

  datatype MockPrediction = MockPrediction(
    id: int,
    contractId: int,
    timestamp: nat,
    predictionType: string,
    value: int,
    confidence: int,
    oracle: string)

  /** The two errors `submitPrediction` throws. */
  datatype MockError = ContractNotFound(contractId: int) | ContractNotActive(contractId: int)

  /** `Math.abs`. */
  function Abs(v: int): (a: nat)
    ensures a == v || a == -v
  {
    if v < 0 then -v else v
  }

  /** The predictions of one contract, in insertion order (the
      `predictions` resolver's filter). */
  function Filter(ps: seq<MockPrediction>, contractId: int): (r: seq<MockPrediction>)
    ensures |r| <= |ps|
    ensures forall i :: 0 <= i < |r| ==> r[i].contractId == contractId && r[i] in ps
    ensures (forall i :: 0 <= i < |ps| ==> ps[i].contractId != contractId) ==> r == []
    decreases |ps|
  {
    if ps == [] then []
    else
      var rest := Filter(ps[..|ps| - 1], contractId);
      var last := ps[|ps| - 1];
      rest + (if last.contractId == contractId then [last] else [])
  }

  /** Appending a prediction extends its own contract's list by it and
      leaves every other contract's list as it was. */
  lemma FilterAppend(ps: seq<MockPrediction>, p: MockPrediction, contractId: int)
    ensures Filter(ps + [p], contractId) == Filter(ps, contractId) + (if p.contractId == contractId then [p] else [])
  {
    assert (ps + [p])[..|ps + [p]| - 1] == ps;
  }

  /** Every prediction of the contract appears in its filtered list, in the
      same relative order. */
  lemma {:induction false} FilterKeepsOrder(ps: seq<MockPrediction>, contractId: int, i: nat, j: nat)
    requires i < j < |ps| && ps[i].contractId == contractId && ps[j].contractId == contractId
    ensures exists a, b ::
      0 <= a < b < |Filter(ps, contractId)| && Filter(ps, contractId)[a] == ps[i] && Filter(ps, contractId)[b] == ps[j]
    decreases |ps|
  {
    var init := ps[..|ps| - 1];
    FilterAppend(init, ps[|ps| - 1], contractId);
    assert init + [ps[|ps| - 1]] == ps;
    if j == |ps| - 1 {
      FilterContains(init, contractId, i);
      var a :| 0 <= a < |Filter(init, contractId)| && Filter(init, contractId)[a] == ps[i];
      var b := |Filter(ps, contractId)| - 1;
      assert Filter(ps, contractId)[a] == ps[i] && Filter(ps, contractId)[b] == ps[j];
    } else {
      FilterKeepsOrder(init, contractId, i, j);
      var a, b :| 0 <= a < b < |Filter(init, contractId)|
        && Filter(init, contractId)[a] == ps[i] && Filter(init, contractId)[b] == ps[j];
      assert Filter(ps, contractId)[a] == ps[i] && Filter(ps, contractId)[b] == ps[j];
    }
  }

  /** Every prediction of the contract appears in its filtered list. */
  lemma {:induction false} FilterContains(ps: seq<MockPrediction>, contractId: int, i: nat)
    requires i < |ps| && ps[i].contractId == contractId
    ensures exists a :: 0 <= a < |Filter(ps, contractId)| && Filter(ps, contractId)[a] == ps[i]
    decreases |ps|
  {
    var init := ps[..|ps| - 1];
    FilterAppend(init, ps[|ps| - 1], contractId);
    assert init + [ps[|ps| - 1]] == ps;
    if i == |ps| - 1 {
      assert Filter(ps, contractId)[|Filter(ps, contractId)| - 1] == ps[i];
    } else {
      FilterContains(init, contractId, i);
      var a :| 0 <= a < |Filter(init, contractId)| && Filter(init, contractId)[a] == ps[i];
      assert Filter(ps, contractId)[a] == ps[i];
    }
  }

  /** `latestPrediction`'s sort-then-take-first: the stable descending sort
      by timestamp puts first the earliest-inserted prediction among those
      with the greatest timestamp. */
  function Latest(ps: seq<MockPrediction>): (r: Option<MockPrediction>)
    ensures r.None? <==> ps == []
    ensures r.Some? ==>
      exists i :: 0 <= i < |ps| && ps[i] == r.value && (forall j :: 0 <= j < i ==> ps[j].timestamp < r.value.timestamp)
    ensures r.Some? ==> forall j :: 0 <= j < |ps| ==> ps[j].timestamp <= r.value.timestamp
    decreases |ps|
  {
    if ps == [] then None
    else
      var rest := Latest(ps[1..]);
      if rest.Some? && rest.value.timestamp > ps[0].timestamp then
        assert forall j :: 1 <= j < |ps| ==> ps[j] == ps[1..][j - 1];
        var k :| 0 <= k < |ps[1..]| && ps[1..][k] == rest.value
          && (forall j :: 0 <= j < k ==> ps[1..][j].timestamp < rest.value.timestamp);
        assert ps[k + 1] == rest.value;
        rest
      else
        assert forall j :: 1 <= j < |ps| ==> ps[j] == ps[1..][j - 1];
        Some(ps[0])
  }

  /** The contracts with ids 1..n, in id order (`Array.from` over a Map
      whose keys were inserted in that order). */
  function ListUpTo(contracts: map<int, MockContract>, n: nat): (r: seq<MockContract>)
    ensures |r| <= n
    ensures (forall k :: 1 <= k <= n ==> k in contracts) ==>
      |r| == n && forall i :: 0 <= i < n ==> r[i] == contracts[i + 1]
  {
    if n == 0 then []
    else ListUpTo(contracts, n - 1) + (if n in contracts then [contracts[n]] else [])
  }

  /** `mockState`: the contract Map, the prediction Map (kept as the
      sequence of its values in insertion order) and the two id counters. */
  class MockLedger {
    var contracts: map<int, MockContract>
    var predictions: seq<MockPrediction>
    var nextContractId: int
    var nextPredictionId: int

    /** Ids 1.. nextContractId-1 are exactly the stored contracts, each
        under its own id; the i-th stored prediction has id i+1 and belongs
        to a stored contract. */
    ghost predicate Valid()
      reads this
    {
      && nextContractId >= 1
      && (forall k :: k in contracts <==> 1 <= k < nextContractId)
      && (forall k :: k in contracts ==> contracts[k].id == k)
      && nextPredictionId == |predictions| + 1
      && (forall i :: 0 <= i < |predictions| ==> predictions[i].id == i + 1 && predictions[i].contractId in contracts)
    }

    /** The initial `mockState`. */
    constructor ()
      ensures Valid()
      ensures contracts == map[] && predictions == [] && nextContractId == 1 && nextPredictionId == 1
    {
      contracts := map[];
      predictions := [];
      nextContractId := 1;
      nextPredictionId := 1;
    }

    /** `contract({id})`. */
    function Contract(id: int): (r: Option<MockContract>)
      reads this
      ensures r.Some? <==> id in contracts
      ensures r.Some? ==> r.value == contracts[id]
      ensures Valid() ==> (r.Some? <==> 1 <= id < nextContractId) && (r.Some? ==> r.value.id == id)
    {
      if id in contracts then Some(contracts[id]) else None
    }

    /** `contracts()`: every stored contract, in id order. */
    function Contracts(): (r: seq<MockContract>)
      reads this
      requires Valid()
      ensures |r| == nextContractId - 1
      ensures forall i :: 0 <= i < |r| ==> r[i].id == i + 1 && r[i] == contracts[i + 1]
    {
      ListUpTo(contracts, nextContractId - 1)
    }

    /** `prediction({id})`. */
    function Prediction(id: int): (r: Option<MockPrediction>)
      reads this
      ensures r.Some? <==> 1 <= id <= |predictions|
      ensures Valid() && r.Some? ==> r.value.id == id
      ensures Valid() && r.None? ==> forall i :: 0 <= i < |predictions| ==> predictions[i].id != id
    {
      if 1 <= id <= |predictions| then Some(predictions[id - 1]) else None
    }

    /** `predictions({contractId})`. */
    function Predictions(contractId: int): (r: seq<MockPrediction>)
      reads this
      ensures forall i :: 0 <= i < |r| ==> r[i].contractId == contractId && r[i] in predictions
      ensures Valid() && contractId !in contracts ==> r == []
    {
      Filter(predictions, contractId)
    }

    /** `latestPrediction({contractId})`: null when the contract has no
        prediction; otherwise one with the greatest timestamp, the earliest
        submitted among ties. */
    function LatestPrediction(contractId: int): (r: Option<MockPrediction>)
      reads this
      ensures r.None? <==> Predictions(contractId) == []
      ensures r.Some? ==> r.value.contractId == contractId && r.value in predictions
      ensures r.Some? ==> forall p :: p in Predictions(contractId) ==> p.timestamp <= r.value.timestamp
    {
      Latest(Predictions(contractId))
    }

    /** `createContract`: a fresh id from the counter, an active record
        created by "mock_owner"; nothing else changes. */
    method CreateContract(contractType: string, threshold: int, now: nat) returns (c: MockContract)
      requires Valid()
      modifies this
      ensures Valid()
      ensures c == MockContract(old(nextContractId), "mock_owner", contractType, threshold, true, now, now)
      ensures c.id !in old(contracts)
      ensures contracts == old(contracts)[c.id := c]
      ensures nextContractId == old(nextContractId) + 1
      ensures predictions == old(predictions) && nextPredictionId == old(nextPredictionId)
    {
      var id := nextContractId;
      nextContractId := nextContractId + 1;
      c := MockContract(id, "mock_owner", contractType, threshold, true, now, now);
      contracts := contracts[id := c];
    }

    /** `submitPrediction`: throw, changing nothing, for an unknown or
        inactive contract; otherwise store one prediction under a fresh id
        and deactivate the contract (stamping `last_updated`) when the
        magnitude of the value reaches its threshold. Neither the submitter
        nor the confidence is checked. */
    method SubmitPrediction(contractId: int, predictionType: string, value: int, confidence: int, now: nat)
      returns (r: Result<MockPrediction, MockError>)
      requires Valid()
      modifies this
      ensures Valid()
      ensures contractId !in old(contracts) ==> r == Err(ContractNotFound(contractId))
      ensures contractId in old(contracts) && !old(contracts)[contractId].isActive ==>
        r == Err(ContractNotActive(contractId))
      ensures r.Err? ==> unchanged(this)
      ensures r.Ok? <==> contractId in old(contracts) && old(contracts)[contractId].isActive
      ensures r.Ok? ==>
        var c := old(contracts)[contractId];
        && r.value == MockPrediction(old(nextPredictionId), contractId, now, predictionType, value, confidence, "mock_oracle")
        && predictions == old(predictions) + [r.value]
        && nextPredictionId == old(nextPredictionId) + 1
        && nextContractId == old(nextContractId)
        && contracts == (if Abs(value) >= c.threshold
                         then old(contracts)[contractId := c.(isActive := false, lastUpdated := now)]
                         else old(contracts))
        && Predictions(contractId) == old(Predictions(contractId)) + [r.value]
        && (forall k :: k != contractId ==> Predictions(k) == old(Predictions(k)))
    {
      if contractId !in contracts {
        return Err(ContractNotFound(contractId));
      }
      var contract := contracts[contractId];
      if !contract.isActive {
        return Err(ContractNotActive(contractId));
      }
      var id := nextPredictionId;
      nextPredictionId := nextPredictionId + 1;
      var prediction := MockPrediction(id, contractId, now, predictionType, value, confidence, "mock_oracle");
      ghost var before := predictions;
      predictions := predictions + [prediction];
      forall k
        ensures Filter(predictions, k) == Filter(before, k) + (if k == contractId then [prediction] else [])
      {
        FilterAppend(before, prediction, k);
      }
      var absValue := Abs(value);
      if absValue >= contract.threshold {
        contract := contract.(isActive := false, lastUpdated := now);
        contracts := contracts[contractId := contract];
      }
      r := Ok(prediction);
    }
  }

  /** Two predictions for the same contract stamped in the same millisecond:
      `latestPrediction` returns the first one submitted, not the later. */
  lemma LatestPrefersEarlierOnTie(p: MockPrediction, q: MockPrediction)
    requires p.timestamp == q.timestamp && p != q
    ensures Latest([p, q]) == Some(p)
  {
    assert [p, q][1..] == [q];
    assert [q][1..] == [];
  }

  /** With strictly increasing timestamps the latest prediction is the one
      submitted last. */
  lemma {:induction false} LatestOfIncreasing(ps: seq<MockPrediction>)
    requires ps != []
    requires forall i, j :: 0 <= i < j < |ps| ==> ps[i].timestamp < ps[j].timestamp
    ensures Latest(ps) == Some(ps[|ps| - 1])
    decreases |ps|
  {
    if |ps| > 1 {
      LatestOfIncreasing(ps[1..]);
    }
  }
}
