/** linera-integration/oracle-client/linera-oracle.js: the client that asks
    the scoring engine for a prediction and submits its scalar to the Linera
    application over GraphQL. Both remote calls are inputs: the engine's
    reply (or the transport error) and the ledger's reply to the mutation
    (or the GraphQL error). */
module LineraOracle {
  import opened Wrappers
  import opened Bridge
  import Scoring
  import Registry
  import AiEnginePy

  /** The configuration object passed to the constructor. */
  datatype Config = Config(
    graphqlEndpoint: Option<string>,
    chainId: Option<string>,
    applicationId: Option<string>,
    ownerAddress: Option<string>,
    aiEngineUrl: Option<string>)

  /** An event of a mutation's outcome, as the GraphQL selection returns it. */
  datatype GqlEvent = GqlEvent(typename: string, contractId: Option<int>)

  /** `result.executeOperation`: the block hash and the emitted events. */
  datatype Execution = Execution(hash: string, events: seq<GqlEvent>)

  datatype CreateResult = Created(contractId: Option<int>, hash: string) | CreateFailed(error: string)

  datatype SubmitResult = SubmitOk(hash: string, events: seq<GqlEvent>) | SubmitFailed(error: string)

  /** What `requestAndSubmitPrediction` resolves to. */
  datatype ClientResult = Flowed(prediction: AiResponse, blockchain: SubmitResult) | FlowFailed(error: string)

  /** `s || d` for a configuration string. */
  function StringOr(s: Option<string>, d: string): (r: string)
    ensures s.Some? && s.value != "" ==> r == s.value
    ensures !(s.Some? && s.value != "") ==> r == d
  {
    if s.Some? && s.value != "" then s.value else d
  }

  /** `events.find(e => e.__typename === 'ContractCreated')`. */
  function FirstCreated(events: seq<GqlEvent>): (r: Option<nat>)
    ensures r.None? <==> forall i :: 0 <= i < |events| ==> events[i].typename != "ContractCreated"
    ensures r.Some? ==>
      r.value < |events| && events[r.value].typename == "ContractCreated"
      && forall i :: 0 <= i < r.value ==> events[i].typename != "ContractCreated"
    decreases |events|
  {
    if events == [] then None
    else if events[0].typename == "ContractCreated" then Some(0)
    else
      match FirstCreated(events[1..])
      case None => None
      case Some(i) => Some(i + 1)
  }

  /** `createAdaptiveContract`'s result: the id carried by the first
      `ContractCreated` event (undefined when there is none) and the hash;
      `{success: false, error}` when the mutation fails. */
  function CreateAdaptiveContract(ledger: Remote<Execution>): (r: CreateResult)
    ensures ledger.Failure? ==> r == CreateFailed(ledger.message)
    ensures ledger.Reply? ==> r.Created? && r.hash == ledger.value.hash
    ensures ledger.Reply? && r.contractId.Some? ==>
      exists i :: 0 <= i < |ledger.value.events| && ledger.value.events[i].typename == "ContractCreated"
        && ledger.value.events[i].contractId == r.contractId
    ensures ledger.Reply? && (forall i :: 0 <= i < |ledger.value.events| ==> ledger.value.events[i].typename != "ContractCreated")
      ==> r.contractId.None?
  {
    match ledger
    case Failure(message) => CreateFailed(message)
    case Reply(execution) =>
      var found := FirstCreated(execution.events);
      Created(if found.Some? then execution.events[found.value].contractId else None, execution.hash)
  }

  /** `submitAIPrediction`'s result: the hash and events, or
      `{success: false, error}`; a ledger error is reported, not thrown. */
  function SubmitAIPrediction(ledger: Remote<Execution>): (r: SubmitResult)
    ensures ledger.Failure? <==> r.SubmitFailed?
    ensures ledger.Failure? ==> r.error == ledger.message
    ensures ledger.Reply? ==> r == SubmitOk(ledger.value.hash, ledger.value.events)
  {
    match ledger
    case Failure(message) => SubmitFailed(message)
    case Reply(execution) => SubmitOk(execution.hash, execution.events)
  }

  /** `getContract`: the queried record, or null (None) on any query error. */
  function GetContract(reply: Remote<Option<Registry.AdaptiveContract>>): (r: Option<Registry.AdaptiveContract>)
    ensures reply.Failure? ==> r.None?
    ensures r.Some? ==> reply.Reply? && reply.value == r
    ensures reply.Reply? ==> r == reply.value
  {
    if reply.Reply? then reply.value else None
  }

  /** `getLatestPrediction`: likewise. */
  function GetLatestPrediction(reply: Remote<Option<Registry.AIPrediction>>): (r: Option<Registry.AIPrediction>)
    ensures reply.Failure? ==> r.None?
    ensures r.Some? ==> reply.Reply? && reply.value == r
    ensures reply.Reply? ==> r == reply.value
  {
    if reply.Reply? then reply.value else None
  }

  /** The value the client submits: the floored `prediction` when it is
      defined (even 0), else `risk_score`, else `fraud_score`, both as they
      came, else 0. */
  function ExtractScalar(r: AiResponse): (v: real)
    ensures r.prediction.Some? ==> v == r.prediction.value.Floor as real
    ensures r.prediction.None? && r.riskScore.Some? ==> v == r.riskScore.value
    ensures r.prediction.None? && r.riskScore.None? && r.fraudScore.Some? ==> v == r.fraudScore.value
    ensures r.prediction.None? && r.riskScore.None? && r.fraudScore.None? ==> v == 0.0
  {
    if r.prediction.Some? then r.prediction.value.Floor as real
    else if r.riskScore.Some? then r.riskScore.value
    else if r.fraudScore.Some? then r.fraudScore.value
    else 0.0
  }

  /** The submission the client makes once the engine has replied: always
      one, whatever the reply holds. */
  function SubmissionFor(contractId: JsValue, modelType: string, reply: AiResponse): (s: Submission)
    ensures s.contractId == contractId && s.predictionType == Str(modelType)
    ensures s.value == Num(ExtractScalar(reply))
    ensures s.confidence == NumberValue(reply.confidence)
  {
    Submission(contractId, Str(modelType), Num(ExtractScalar(reply)), NumberValue(reply.confidence))
  }

  /** The engine request the client posts: `data || {}`. */
  function EngineRequest(modelType: string, data: Scoring.Field<Scoring.Input>): (b: Scoring.RequestBody)
    ensures b.modelType == Scoring.Present(modelType)
    ensures b.data.Present?
    ensures data.Present? ==> b.data.value == data.value
    ensures !data.Present? ==> b.data.value == Scoring.NoInput
  {
    Scoring.RequestBody(Scoring.Present(modelType), Scoring.Present(if data.Present? then data.value else Scoring.NoInput))
  }

  /** `LineraOracleClient`: the configuration it was built with. */
  class LineraOracleClient {
    const graphqlEndpoint: string
    const chainId: Option<string>
    const applicationId: Option<string>
    const ownerAddress: Option<string>
    const aiEngineUrl: string

    /** The endpoints default when missing or empty. */
    constructor (config: Config)
      ensures graphqlEndpoint == StringOr(config.graphqlEndpoint, "http://localhost:8080/graphql")
      ensures aiEngineUrl == StringOr(config.aiEngineUrl, "http://localhost:5001")
      ensures chainId == config.chainId && applicationId == config.applicationId
      ensures ownerAddress == config.ownerAddress
    {
      graphqlEndpoint := StringOr(config.graphqlEndpoint, "http://localhost:8080/graphql");
      chainId := config.chainId;
      applicationId := config.applicationId;
      ownerAddress := config.ownerAddress;
      aiEngineUrl := StringOr(config.aiEngineUrl, "http://localhost:5001");
    }

    /** `requestAndSubmitPrediction`: post to the engine; if that fails,
        report the error and submit nothing; otherwise submit the extracted
        scalar with the reply's confidence, and report success with the
        ledger's result, even a failed one. */
    method RequestAndSubmitPrediction(contractId: JsValue, modelType: string, data: Scoring.Field<Scoring.Input>,
                                      ai: Remote<AiResponse>, ledger: Remote<Execution>)
      returns (r: ClientResult, request: Scoring.RequestBody, submitted: Option<Submission>)
      ensures request == EngineRequest(modelType, data)
      ensures ai.Failure? ==> r == FlowFailed(ai.message) && submitted.None?
      ensures ai.Reply? ==>
        && submitted == Some(SubmissionFor(contractId, modelType, ai.value))
        && r == Flowed(ai.value, SubmitAIPrediction(ledger))
    {
      request := EngineRequest(modelType, data);
      if ai.Failure? {
        return FlowFailed(ai.message), request, None;
      }
      var prediction := ai.value;
      var value := 0.0;
      if prediction.prediction.Some? {
        value := prediction.prediction.value.Floor as real;
      } else if prediction.riskScore.Some? {
        value := prediction.riskScore.value;
      } else if prediction.fraudScore.Some? {
        value := prediction.fraudScore.value;
      }
      submitted := Some(Submission(contractId, Str(modelType), Num(value), NumberValue(prediction.confidence)));
      r := Flowed(prediction, SubmitAIPrediction(ledger));
    }

    /** The same flow, stopping like the two oracle services do when the
        engine's reply carries an error: nothing is submitted and the error
        is reported. */
    method RequestAndSubmitPredictionChecked(contractId: JsValue, modelType: string, data: Scoring.Field<Scoring.Input>,
                                             ai: Remote<AiResponse>, ledger: Remote<Execution>)
      returns (r: ClientResult, request: Scoring.RequestBody, submitted: Option<Submission>)
      ensures request == EngineRequest(modelType, data)
      ensures ai.Failure? ==> r == FlowFailed(ai.message) && submitted.None?
      ensures ai.Reply? && HasError(ai.value) ==> r == FlowFailed(ai.value.error.value) && submitted.None?
      ensures ai.Reply? && !HasError(ai.value) ==>
        && submitted == Some(SubmissionFor(contractId, modelType, ai.value))
        && r == Flowed(ai.value, SubmitAIPrediction(ledger))
      ensures submitted.Some? ==> ai.Reply? && !HasError(ai.value)
    {
      if ai.Reply? && HasError(ai.value) {
        request := EngineRequest(modelType, data);
        return FlowFailed(ai.value.error.value), request, None;
      }
      r, request, submitted := RequestAndSubmitPrediction(contractId, modelType, data, ai, ledger);
    }
  }

  /** On every reply an engine produces (a single score member, integer
      risk and fraud scores), the client's `!== undefined` precedence and the
      services' `||` precedence pick the same value. */
  lemma ScalarsAgreeOnEngineReplies(p: Scoring.Prediction)
    requires !Scoring.IsError(p)
    ensures ExtractScalar(FromPrediction(p)) == TruthyScalar(FromPrediction(p)) as real
  {
  }

  /** They differ on a reply with several members: a `prediction` of 0 is
      kept by the client and skipped by the services. */
  lemma ScalarsDifferOnZeroPrediction()
    ensures var r := AiResponse(Some(0.0), Some(7.0), None, Some(85.0), None);
      ExtractScalar(r) == 0.0 && TruthyScalar(r) == 7
  {
  }

  /** The client leaves risk and fraud scores unfloored: a fractional score
      reaches the ledger as it came, where the services floor it. */
  lemma ClientDoesNotFloorScores()
    ensures var r := AiResponse(None, Some(70.5), None, Some(85.0), None);
      ExtractScalar(r) == 70.5 && TruthyScalar(r) == 70
  {
  }

  /** A price request with a single price: the Python engine answers 200
      with `{error: 'Insufficient data'}`, and the client, not testing
      `error`, still submits a value of 0 with no confidence. */
  lemma EngineErrorIsSubmitted(contractId: JsValue, stddev: real)
    ensures var input := Scoring.Input(Scoring.Present([100.0]), Scoring.Absent, Scoring.Absent,
                                       Scoring.Absent, Scoring.Absent, Scoring.Absent);
      var body := Scoring.RequestBody(Scoring.Present("price_prediction"), Scoring.Present(input));
      var reply := AiEnginePy.HandlePredict(Some(body), stddev, 0);
      && reply.status == 200
      && HasError(FromPrediction(reply.result))
      && SubmissionFor(contractId, "price_prediction", FromPrediction(reply.result))
         == Submission(contractId, Str("price_prediction"), Num(0.0), Undefined)
  {
  }
}
