/** What the three oracle bridges (linera-integration/oracle-client/
    linera-oracle.js, oracle-service/server.js, api/oracle.js) share: the
    JavaScript values they test for truthiness, the scoring engine's JSON
    reply as they read it, and the submission they hand to a ledger. */
module Bridge {
  import opened Wrappers
  import Scoring

  /** A JavaScript value as these handlers meet it in a request body. */
  datatype JsValue = Undefined | Null | Bool(b: bool) | Num(n: real) | Str(s: string)

  /** JavaScript truthiness (`!!v`). */
  predicate Truthy(v: JsValue) {
    match v
    case Undefined => false
    case Null => false
    case Bool(b) => b
    case Num(n) => n != 0.0
    case Str(s) => s != ""
  }

  /** A number member of the engine's reply, as a value (absent = undefined). */
  function NumberValue(x: Option<real>): (v: JsValue)
    ensures x.None? ==> v == Undefined
    ensures x.Some? ==> v == Num(x.value)
  {
    if x.Some? then Num(x.value) else Undefined
  }

  /** An environment variable: unset, or set to a (possibly empty) string. */
  function EnvValue(x: Option<string>): (v: JsValue)
    ensures Truthy(v) <==> x.Some? && x.value != ""
  {
    if x.Some? then Str(x.value) else Undefined
  }

  /** The members of the engine's JSON reply that the bridges read. */
  datatype AiResponse = AiResponse(
    prediction: Option<real>,
    riskScore: Option<real>,
    fraudScore: Option<real>,
    confidence: Option<real>,
    error: Option<string>)

  /** The text standing for a Python exception's `str(e)`; only its
      non-emptiness matters to the bridges. */
  const RaisedText: string := "exception"

  /** The JSON object an engine result is sent as. */
  function FromPrediction(p: Scoring.Prediction): (r: AiResponse)
    ensures Scoring.IsError(p) <==> r.error.Some?
    ensures r.error.Some? ==> r.error.value != "" || p == Scoring.ScoreError("")
    ensures p.Price? ==> r == AiResponse(Some(p.prediction), None, None, Some(p.confidence as real), None)
    ensures p.Risk? ==> r == AiResponse(None, Some(p.riskScore as real), None, Some(p.confidence as real), None)
    ensures p.Fraud? ==> r == AiResponse(None, None, Some(p.fraudScore as real), Some(p.confidence as real), None)
  {
    match p
    case Price(prediction, confidence) => AiResponse(Some(prediction), None, None, Some(confidence as real), None)
    case Risk(score, _, confidence) => AiResponse(None, Some(score as real), None, Some(confidence as real), None)
    case Fraud(score, _, confidence) => AiResponse(None, None, Some(score as real), Some(confidence as real), None)
    case ScoreError(message) => AiResponse(None, None, None, None, Some(message))
    case Raised => AiResponse(None, None, None, None, Some(RaisedText))
  }

  /** `prediction.error` is truthy. */
  predicate HasError(r: AiResponse) {
    r.error.Some? && r.error.value != ""
  }

  /** A number member that is present and truthy (not 0). */
  predicate NonZero(x: Option<real>) {
    x.Some? && x.value != 0.0
  }

  /** `prediction.prediction || prediction.risk_score ||
      prediction.fraud_score || 0`, floored: the first non-zero member. */
  function TruthyScalar(r: AiResponse): (v: int)
    ensures NonZero(r.prediction) ==> v == r.prediction.value.Floor
    ensures !NonZero(r.prediction) && NonZero(r.riskScore) ==> v == r.riskScore.value.Floor
    ensures !NonZero(r.prediction) && !NonZero(r.riskScore) && NonZero(r.fraudScore) ==> v == r.fraudScore.value.Floor
    ensures !NonZero(r.prediction) && !NonZero(r.riskScore) && !NonZero(r.fraudScore) ==> v == 0
  {
    if NonZero(r.prediction) then r.prediction.value.Floor
    else if NonZero(r.riskScore) then r.riskScore.value.Floor
    else if NonZero(r.fraudScore) then r.fraudScore.value.Floor
    else 0
  }

  /** The arguments of one `submitAIPrediction` call. */
  datatype Submission = Submission(contractId: JsValue, predictionType: JsValue, value: JsValue, confidence: JsValue)

  /** What `submitToBlockchain` resolves to: `{demo: true, success: true}` or
      `{success: true, txHash}`. */
  datatype Receipt = Demo | OnChain(txHash: string)

  /** The body of `/request-prediction` (the `data` member is passed on to
      the engine, whose reply is an input here). */
  datatype PredictionRequest = PredictionRequest(contractId: JsValue, modelType: JsValue, submitToChain: JsValue)

  /** The body of `/submit-to-chain`. */
  datatype SubmitRequest = SubmitRequest(contractId: JsValue, predictionType: JsValue, value: JsValue, confidence: JsValue)

  /** A handler's JSON reply. */
  datatype OracleReply =
    | BadRequest(message: string)                                 // 400
    | ServerError(message: string)                                // 500
    | Predicted(prediction: AiResponse, blockchain: Option<Receipt>) // 200, `blockchain: null` as None
    | Submitted(result: Receipt)                                  // 200

  /** What one request did: its reply, whether the engine was asked, and the
      submission handed to the ledger layer (None when none was). */
  datatype Flow = Flow(reply: OracleReply, aiCalled: bool, submitted: Option<Submission>)
}
