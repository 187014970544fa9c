/** api/oracle.js: the serverless oracle. It keeps no state: every call
    reads the environment and builds its ledger objects afresh. */
module ApiOracle {
  import opened Wrappers
  import opened Bridge
  import Scoring
  import AiPredictJs

  /** `RPC_URL`, `CONTRACT_ADDRESS`, `ORACLE_PRIVATE_KEY`. */
  datatype Env = Env(rpcUrl: Option<string>, contractAddress: Option<string>, privateKey: Option<string>)

  /** All three variables are set and non-empty. */
  predicate Configured(env: Env) {
    Truthy(EnvValue(env.rpcUrl)) && Truthy(EnvValue(env.contractAddress)) && Truthy(EnvValue(env.privateKey))
  }

  /** The result of `submitToBlockchain` and the submission, if any, that
      reached the ledger. */
  datatype Attempt = Attempt(result: Result<Receipt, string>, sent: Option<Submission>)

  /** `submitToBlockchain`: demo receipt unless fully configured; otherwise
      build provider, wallet and contract (`setup`, which may throw) and
      send, rethrowing any error. */
  function SubmitToBlockchain(env: Env, submission: Submission, setup: Outcome<string>, ledger: Remote<string>)
    : (a: Attempt)
    ensures !Configured(env) ==> a == Attempt(Ok(Demo), None)
    ensures Configured(env) && setup.Fail? ==> a == Attempt(Err(setup.error), None)
    ensures Configured(env) && setup.Pass? && ledger.Reply? ==> a == Attempt(Ok(OnChain(ledger.value)), Some(submission))
    ensures Configured(env) && setup.Pass? && ledger.Failure? ==> a == Attempt(Err(ledger.message), Some(submission))
  {
    if !Configured(env) then Attempt(Ok(Demo), None)
    else if setup.Fail? then Attempt(Err(setup.error), None)
    else
      match ledger
      case Reply(hash) => Attempt(Ok(OnChain(hash)), Some(submission))
      case Failure(message) => Attempt(Err(message), Some(submission))
  }

  /** `blockchain_connected` of the health route: address and key only. */
  function Connected(env: Env): (c: bool)
    ensures c <==> Truthy(EnvValue(env.contractAddress)) && Truthy(EnvValue(env.privateKey))
    ensures Configured(env) ==> c
  {
    Truthy(EnvValue(env.contractAddress)) && Truthy(EnvValue(env.privateKey))
  }

  /** Health can report a connection while every submission is a demo: the
      node URL is not part of its test. */
  lemma ConnectedButDemo(s: Submission, setup: Outcome<string>, ledger: Remote<string>)
    ensures var env := Env(None, Some("0xC0FFEE"), Some("0xKEY"));
      Connected(env) && SubmitToBlockchain(env, s, setup, ledger) == Attempt(Ok(Demo), None)
  {
  }

  /** Connected and configured differ exactly by the node URL. */
  lemma ConnectedVersusConfigured(env: Env)
    ensures Configured(env) <==> Connected(env) && Truthy(EnvValue(env.rpcUrl))
  {
  }

  /** The `request-prediction` route's decision: 400 before the engine is
      asked, 500 for an engine failure or an `{error}` reply, and a
      submission of the floored first truthy score only when `submitToChain`
      is truthy. */
  function RequestPrediction(env: Env, body: PredictionRequest, ai: Remote<AiResponse>,
                             setup: Outcome<string>, ledger: Remote<string>): (flow: Flow)
    ensures !Truthy(body.contractId) || !Truthy(body.modelType) ==>
      flow == Flow(BadRequest("contractId and modelType required"), false, None)
    ensures Truthy(body.contractId) && Truthy(body.modelType) ==> flow.aiCalled
    ensures ai.Failure? && flow.aiCalled ==> flow == Flow(ServerError(ai.message), true, None)
    ensures ai.Reply? && flow.aiCalled && HasError(ai.value) ==>
      flow == Flow(ServerError(ai.value.error.value), true, None)
    ensures ai.Reply? && flow.aiCalled && !HasError(ai.value) && !Truthy(body.submitToChain) ==>
      flow == Flow(Predicted(ai.value, None), true, None)
    ensures ai.Reply? && flow.aiCalled && !HasError(ai.value) && Truthy(body.submitToChain) ==>
      var s := Submission(body.contractId, body.modelType, Num(TruthyScalar(ai.value) as real),
                          NumberValue(ai.value.confidence));
      var a := SubmitToBlockchain(env, s, setup, ledger);
      flow == Flow(if a.result.Ok? then Predicted(ai.value, Some(a.result.value)) else ServerError(a.result.error),
                   true, a.sent)
    ensures flow.submitted.Some? ==>
      && Truthy(body.contractId) && Truthy(body.modelType) && Truthy(body.submitToChain)
      && ai.Reply? && !HasError(ai.value) && Configured(env) && setup.Pass?
  {
    if !Truthy(body.contractId) || !Truthy(body.modelType) then
      Flow(BadRequest("contractId and modelType required"), false, None)
    else if ai.Failure? then Flow(ServerError(ai.message), true, None)
    else if HasError(ai.value) then Flow(ServerError(ai.value.error.value), true, None)
    else if !Truthy(body.submitToChain) then Flow(Predicted(ai.value, None), true, None)
    else
      var s := Submission(body.contractId, body.modelType, Num(TruthyScalar(ai.value) as real),
                          NumberValue(ai.value.confidence));
      var a := SubmitToBlockchain(env, s, setup, ledger);
      Flow(if a.result.Ok? then Predicted(ai.value, Some(a.result.value)) else ServerError(a.result.error), true, a.sent)
  }

  /** What `handler` answers. */
  datatype ApiReply = Preflight | Health(connected: bool) | Routed(flow: Flow) | NotFound

  /** `handler`: route on method and URL. */
  function Handler(verb: string, url: string, env: Env, body: PredictionRequest, ai: Remote<AiResponse>,
                   setup: Outcome<string>, ledger: Remote<string>): (r: ApiReply)
    ensures verb == "OPTIONS" <==> r == Preflight
    ensures r.Health? <==> verb == "GET" && url == "/api/oracle/health"
    ensures r.Health? ==> r.connected == Connected(env)
    ensures r.Routed? <==> verb == "POST" && url == "/api/oracle/request-prediction"
    ensures r.Routed? ==> r.flow == RequestPrediction(env, body, ai, setup, ledger)
  {
    if verb == "OPTIONS" then Preflight
    else if verb == "GET" && url == "/api/oracle/health" then Health(Connected(env))
    else if verb == "POST" && url == "/api/oracle/request-prediction" then
      Routed(RequestPrediction(env, body, ai, setup, ledger))
    else NotFound
  }

  /** End to end with the JavaScript engine: a price request with a single
      price comes back as `{error: 'Insufficient data'}`, which this handler
      turns into a 500 without submitting anything, whatever the
      configuration. */
  lemma ShortPriceSeriesIsRefused(env: Env, submitToChain: JsValue, setup: Outcome<string>, ledger: Remote<string>,
                                  stddev: real, jitter: int)
    requires 0 <= jitter < 20
    ensures var input := Scoring.Input(Scoring.Present([100.0]), Scoring.Absent, Scoring.Absent,
                                       Scoring.Absent, Scoring.Absent, Scoring.Absent);
      var engine := AiPredictJs.HandlePredict(
        Some(Scoring.RequestBody(Scoring.Present("price_prediction"), Scoring.Present(input))), stddev, jitter);
      var body := PredictionRequest(Num(1.0), Str("price_prediction"), submitToChain);
      && engine.status == 200
      && RequestPrediction(env, body, Reply(FromPrediction(engine.result)), setup, ledger)
         == Flow(ServerError("Insufficient data"), true, None)
  {
  }
}
