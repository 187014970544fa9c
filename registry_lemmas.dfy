/** Properties of the registry's transition rules over whole sequences of
    operations: the invariant is kept, contract ids only grow, an executed
    contract is frozen, a contract executes at most once, and an address the
    owner never authorized can never submit. */
module RegistryLemmas {
  import opened Wrappers
  import opened Registry

  lemma ExecutePreservesValid(r: Store, call: Call)
    requires Valid(r)
    ensures Valid(Execute(r, call).next)
  {
  }

  lemma {:induction false} RunPreservesValid(r: Store, calls: seq<Call>)
    requires Valid(r)
    ensures Valid(Run(r, calls).state)
    decreases |calls|
  {
    if calls != [] {
      RunPreservesValid(r, calls[..|calls| - 1]);
      ExecutePreservesValid(Run(r, calls[..|calls| - 1]).state, calls[|calls| - 1]);
    }
  }

  /** The ids announced by `ContractCreated` events, in emission order. */
  function CreatedIds(events: seq<Event>): seq<nat>
    decreases |events|
  {
    if events == [] then []
    else
      var last := events[|events| - 1];
      CreatedIds(events[..|events| - 1]) + (if last.ContractCreated? then [last.contractId] else [])
  }

  lemma {:induction false} CreatedIdsConcat(a: seq<Event>, b: seq<Event>)
    ensures CreatedIds(a + b) == CreatedIds(a) + CreatedIds(b)
    decreases |b|
  {
    if b == [] {
      assert a + b == a;
    } else {
      CreatedIdsConcat(a, b[..|b| - 1]);
      assert (a + b)[..|a + b| - 1] == a + b[..|b| - 1];
    }
  }

  lemma CreatedIdsOfShort(e: Event, f: Event)
    ensures CreatedIds([]) == []
    ensures CreatedIds([e]) == (if e.ContractCreated? then [e.contractId] else [])
    ensures CreatedIds([e, f]) == CreatedIds([e]) + (if f.ContractCreated? then [f.contractId] else [])
  {
    assert [e][..0] == [];
    assert [e, f][..1] == [e];
  }

  /** One operation announces at most one new id, the one after the counter,
      and moves the counter to it. */
  lemma ExecuteCreatedIds(r: Store, call: Call)
    ensures var s := Execute(r, call);
      || (CreatedIds(s.events) == [] && s.next.counter == r.counter)
      || (CreatedIds(s.events) == [r.counter + 1] && s.next.counter == r.counter + 1)
  {
    var s := Execute(r, call);
    if |s.events| == 1 {
      CreatedIdsOfShort(s.events[0], s.events[0]);
      assert s.events == [s.events[0]];
    } else if |s.events| == 2 {
      CreatedIdsOfShort(s.events[0], s.events[1]);
      assert s.events == [s.events[0], s.events[1]];
    }
  }

  /** Contract ids are handed out in strictly increasing order, each above
      the counter at the start, so no id is ever handed out twice. */
  lemma {:induction false} RunCreatedIdsIncrease(r: Store, calls: seq<Call>)
    ensures var t := Run(r, calls);
      var ids := CreatedIds(t.events);
      && r.counter <= t.state.counter
      && (forall i :: 0 <= i < |ids| ==> r.counter < ids[i] <= t.state.counter)
      && (forall i, j :: 0 <= i < j < |ids| ==> ids[i] < ids[j])
    decreases |calls|
  {
    if calls != [] {
      var before := Run(r, calls[..|calls| - 1]);
      RunCreatedIdsIncrease(r, calls[..|calls| - 1]);
      var s := Execute(before.state, calls[|calls| - 1]);
      assert Run(r, calls) == Trace(s.next, before.events + s.events);
      CreatedIdsConcat(before.events, s.events);
      ExecuteCreatedIds(before.state, calls[|calls| - 1]);
      var old_ids := CreatedIds(before.events);
      assert forall i :: 0 <= i < |old_ids| ==> old_ids[i] <= before.state.counter;
    }
  }

  /** An executed contract is frozen: one more operation changes neither its
      record nor its prediction list. */
  lemma ExecuteFreezesInactive(r: Store, call: Call, k: nat)
    requires Valid(r)
    requires k in r.contracts && !r.contracts[k].isActive
    ensures var s := Execute(r, call);
      && k in s.next.contracts && s.next.contracts[k] == r.contracts[k]
      && PredictionsOf(s.next.predictions, k) == PredictionsOf(r.predictions, k)
  {
  }

  /** Inactivity is terminal: no sequence of operations reactivates a
      contract, touches its record, or appends to its predictions. */
  lemma {:induction false} RunFreezesInactive(r: Store, calls: seq<Call>, k: nat)
    requires Valid(r)
    requires k in r.contracts && !r.contracts[k].isActive
    ensures var t := Run(r, calls);
      && k in t.state.contracts && t.state.contracts[k] == r.contracts[k]
      && PredictionsOf(t.state.predictions, k) == PredictionsOf(r.predictions, k)
    decreases |calls|
  {
    if calls != [] {
      RunFreezesInactive(r, calls[..|calls| - 1], k);
      RunPreservesValid(r, calls[..|calls| - 1]);
      ExecuteFreezesInactive(Run(r, calls[..|calls| - 1]).state, calls[|calls| - 1], k);
    }
  }

  /** The number of `ContractExecuted` events for contract `k`. */
  function CountExecuted(events: seq<Event>, k: nat): nat
    decreases |events|
  {
    if events == [] then 0
    else
      var last := events[|events| - 1];
      CountExecuted(events[..|events| - 1], k) + (if last.ContractExecuted? && last.contractId == k then 1 else 0)
  }

  lemma {:induction false} CountExecutedConcat(a: seq<Event>, b: seq<Event>, k: nat)
    ensures CountExecuted(a + b, k) == CountExecuted(a, k) + CountExecuted(b, k)
    decreases |b|
  {
    if b == [] {
      assert a + b == a;
    } else {
      CountExecutedConcat(a, b[..|b| - 1], k);
      assert (a + b)[..|a + b| - 1] == a + b[..|b| - 1];
    }
  }

  lemma CountExecutedOfShort(e: Event, f: Event, k: nat)
    ensures CountExecuted([], k) == 0
    ensures CountExecuted([e], k) == (if e.ContractExecuted? && e.contractId == k then 1 else 0)
    ensures CountExecuted([e, f], k) == CountExecuted([e], k) + (if f.ContractExecuted? && f.contractId == k then 1 else 0)
  {
    assert [e][..0] == [];
    assert [e, f][..1] == [e];
  }

  /** 1 while contract `k` can still execute (it is active or not yet
      created), 0 once it has executed. */
  function Live(r: Store, k: nat): nat {
    if k in r.contracts && !r.contracts[k].isActive then 0 else 1
  }

  lemma ExecuteSpendsLive(r: Store, call: Call, k: nat)
    requires Valid(r)
    ensures var s := Execute(r, call);
      CountExecuted(s.events, k) + Live(s.next, k) <= Live(r, k)
  {
    var s := Execute(r, call);
    if |s.events| == 1 {
      CountExecutedOfShort(s.events[0], s.events[0], k);
      assert s.events == [s.events[0]];
    } else if |s.events| == 2 {
      CountExecutedOfShort(s.events[0], s.events[1], k);
      assert s.events == [s.events[0], s.events[1]];
    }
  }

  /** `ContractExecuted` is emitted at most once per contract over any
      sequence of operations, and never for a contract already executed. */
  lemma {:induction false} RunExecutesAtMostOnce(r: Store, calls: seq<Call>, k: nat)
    requires Valid(r)
    ensures CountExecuted(Run(r, calls).events, k) + Live(Run(r, calls).state, k) <= Live(r, k)
    ensures CountExecuted(Run(r, calls).events, k) <= 1
    decreases |calls|
  {
    if calls != [] {
      var before := Run(r, calls[..|calls| - 1]);
      RunExecutesAtMostOnce(r, calls[..|calls| - 1], k);
      RunPreservesValid(r, calls[..|calls| - 1]);
      var s := Execute(before.state, calls[|calls| - 1]);
      ExecuteSpendsLive(before.state, calls[|calls| - 1], k);
      CountExecutedConcat(before.events, s.events, k);
    }
  }

  /** Whether no operation of the sequence puts `address` on the allow-list. */
  predicate NeverAuthorized(calls: seq<Call>, address: string) {
    forall i :: 0 <= i < |calls| ==> calls[i].op != AuthorizeOracle(address)
  }

  lemma {:induction false} RunNeverAuthorizes(r: Store, calls: seq<Call>, address: string)
    requires !IsAuthorized(r.oracles, address)
    requires NeverAuthorized(calls, address)
    ensures !IsAuthorized(Run(r, calls).state.oracles, address)
    decreases |calls|
  {
    if calls != [] {
      RunNeverAuthorizes(r, calls[..|calls| - 1], address);
    }
  }

  /** An address that starts off the allow-list and is never passed to
      `authorize_oracle` has every submission rejected with
      `OracleNotAuthorized`, whatever its value, threshold or contract. */
  lemma UnauthorizedSubmissionsFail(r: Store, calls: seq<Call>, address: string, i: nat)
    requires !IsAuthorized(r.oracles, address)
    requires NeverAuthorized(calls, address)
    requires i < |calls| && calls[i].signer == Some(address) && calls[i].op.SubmitAIPrediction?
    ensures Execute(Run(r, calls[..i]).state, calls[i]).outcome == Fail(OracleNotAuthorized)
    ensures Execute(Run(r, calls[..i]).state, calls[i]).next == Run(r, calls[..i]).state
  {
    RunNeverAuthorizes(r, calls[..i], address);
  }

  /** The scenario of the repository's contract test: the owner authorizes an
      oracle, a user creates an "insurance" contract with threshold 1000; the
      user's own submission is refused, a value of 500 is recorded and keeps
      the contract active, 1500 executes it, and a later submission is
      refused as `ContractNotActive`. */
  lemma InsuranceScenario()
    ensures
      var r0 := Initialize(Empty, "owner");
      var s1 := Authorize(r0, Some("owner"), "oracle");
      var s2 := Create(s1.next, Some("user"), 10, "insurance", 1000);
      var s3 := Submit(s2.next, Some("user"), 11, 1, "risk_analysis", 500, 85);
      var s4 := Submit(s2.next, Some("oracle"), 12, 1, "risk_analysis", 500, 85);
      var s5 := Submit(s4.next, Some("oracle"), 13, 1, "risk_analysis", 1500, 90);
      var s6 := Submit(s5.next, Some("oracle"), 14, 1, "risk_analysis", 10, 90);
      && s2.next.contracts[1] == AdaptiveContract(1, "user", "insurance", 1000, true, 10, 10)
      && s3.outcome == Fail(OracleNotAuthorized)
      && s4.outcome == Pass && s4.next.contracts[1].isActive
      && PredictionsOf(s4.next.predictions, 1) == [AIPrediction(12, "risk_analysis", 500, 85, "oracle")]
      && s5.outcome == Pass && !s5.next.contracts[1].isActive
      && s5.events == [PredictionReceived(1, "risk_analysis", 1500, 90), ContractExecuted(1, 1500, 1000)]
      && s6.outcome == Fail(ContractNotActive) && s6.next == s5.next
  {
  }
}
