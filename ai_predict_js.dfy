/** api/ai-predict.js: the serverless scoring engine. Defaults are applied
    with `||`, so a present but falsy value (0) is replaced like a missing
    one; the risk total is floored and then clamped. */
module AiPredictJs {
  import opened Wrappers
  import opened Scoring

  /** `x || d` for a number: missing, `null` and 0 all give `d`. */
  function NumberOr(f: Field<real>, d: real): (r: real)
    ensures f.Present? && f.value != 0.0 ==> r == f.value
    ensures !(f.Present? && f.value != 0.0) ==> r == d
  {
    if f.Present? && f.value != 0.0 then f.value else d
  }

  /** `xs || d` for an array: every array, even an empty one, is truthy. */
  function ListOr(f: Field<seq<real>>, d: seq<real>): (r: seq<real>)
    ensures f.Present? ==> r == f.value
    ensures !f.Present? ==> r == d
  {
    if f.Present? then f.value else d
  }

  /** `parseFloat(x.toFixed(2))`: the nearest multiple of 0.01, halves
      rounded away from zero. */
  function ToFixed2(x: real): (r: real)
    ensures -0.005 <= r - x <= 0.005
    ensures (r * 100.0).Floor as real == r * 100.0
  {
    var cents := if x < 0.0 then -HalfUpCents(-x) else HalfUpCents(x);
    assert cents as real * 0.01 * 100.0 == cents as real;
    cents as real * 0.01
  }

  /** The number of hundredths nearest to `y`, a half rounded up. */
  function HalfUpCents(y: real): (n: int)
    ensures -0.5 <= n as real - y * 100.0 <= 0.5
  {
    (y * 100.0 + 0.5).Floor
  }

  /** `pricePrediction`: an error with fewer than two prices; otherwise the
      rounded forecast and a confidence of `floor(100 - 10 * stddev)` held to
      [50, 95]. */
  function PricePrediction(data: Input, stddev: real): (r: Prediction)
    ensures r.ScoreError? <==> |ListOr(data.prices, [])| < 2
    ensures r.ScoreError? ==> r.message == "Insufficient data"
    ensures !r.ScoreError? ==> r.Price?
    ensures r.Price? ==>
      && -0.005 <= r.prediction - Forecast(ListOr(data.prices, [])) <= 0.005
      && 50 <= r.confidence <= 95
      && (stddev <= 0.5 ==> r.confidence == 95)
      && (stddev >= 5.0 ==> r.confidence == 50)
  {
    var prices := ListOr(data.prices, []);
    if |prices| < 2 then ScoreError("Insufficient data")
    else Price(ToFixed2(Forecast(prices)), Clamp(50, 95, (100.0 - stddev * 10.0).Floor))
  }

  /** The JavaScript level bands, read off the integer score. */
  function Level(score: int): (l: RiskLevel)
    ensures l == High <==> score > 70
    ensures l == Medium <==> 40 < score <= 70
    ensures l == Low <==> score <= 40
  {
    if score > 70 then High else if score > 40 then Medium else Low
  }

  /** `riskAnalysis`: the total floored, then clamped to [0, 100]. */
  function RiskAnalysis(data: Input): (r: Prediction)
    ensures r.Risk? && r.confidence == 85
    ensures 0 <= r.riskScore <= 100
    ensures var raw := RawRisk(NumberOr(data.amount, 0.0), NumberOr(data.historyScore, 50.0),
                               NumberOr(data.volatility, 0.5));
      && (raw >= 100.0 ==> r.riskScore == 100)
      && (raw < 0.0 ==> r.riskScore == 0)
      && (0.0 <= raw < 100.0 ==> r.riskScore as real <= raw < r.riskScore as real + 1.0)
    ensures r.riskLevel == Level(r.riskScore)
  {
    var raw := RawRisk(NumberOr(data.amount, 0.0), NumberOr(data.historyScore, 50.0), NumberOr(data.volatility, 0.5));
    var score := Clamp(0, 100, raw.Floor);
    Risk(score, Level(score), 85)
  }

  /** `fraudDetection`, with `Math.floor(Math.random() * 20)` as `jitter`. */
  function FraudDetection(data: Input, jitter: int): (r: Prediction)
    requires 0 <= jitter < 20
    ensures r.Fraud? && 0 <= r.fraudScore <= 100
    ensures var history := ListOr(data.userHistory, []);
      var amountRule := |history| > 0 && NumberOr(data.amount, 0.0) > Mean(history) * 3.0;
      var speedRule := NumberOr(data.speed, 1.0) > 10.0;
      && r.fraudScore == (if amountRule then 40 else 0) + (if speedRule then 30 else 0) + jitter
      && (r.isFraud <==> amountRule && speedRule)
    ensures r == FraudOf(r.fraudScore)
  {
    var raw := RawFraud(NumberOr(data.amount, 0.0), ListOr(data.userHistory, []), NumberOr(data.speed, 1.0), jitter);
    FraudOf(if raw < 100 then raw else 100)
  }

  /** `predict`: dispatch on the model name. */
  function Predict(modelType: string, data: Input, stddev: real, jitter: int): (r: Prediction)
    requires 0 <= jitter < 20
    ensures ModelByName(modelType).None? <==> r == ScoreError("Model not found")
    ensures ModelByName(modelType) == Some(PriceModel) ==> r == PricePrediction(data, stddev)
    ensures ModelByName(modelType) == Some(RiskModel) ==> r == RiskAnalysis(data)
    ensures ModelByName(modelType) == Some(FraudModel) ==> r == FraudDetection(data, jitter)
  {
    match ModelByName(modelType)
    case None => ScoreError("Model not found")
    case Some(PriceModel) => PricePrediction(data, stddev)
    case Some(RiskModel) => RiskAnalysis(data)
    case Some(FraudModel) => FraudDetection(data, jitter)
  }

  /** The `POST /api/ai/predict` route. A `null` or missing `req.body`
      makes the destructuring throw, which the handler's `catch` answers
      with 500; a falsy `model_type` gets 400; anything else gets 200 with
      the model's result (an error result included) on `data || {}`. */
  function HandlePredict(body: Option<RequestBody>, stddev: real, jitter: int): (r: HttpReply)
    requires 0 <= jitter < 20
    ensures body.None? <==> r == HttpReply(500, Raised)
    ensures r.status == 400 <==>
      body.Some? && !(body.value.modelType.Present? && body.value.modelType.value != "")
    ensures r.status == 400 ==> r.result == ScoreError("model_type required")
    ensures body.Some? && r.status != 400 ==>
      && r.status == 200
      && r.result == Predict(body.value.modelType.value,
                             if body.value.data.Present? then body.value.data.value else NoInput, stddev, jitter)
  {
    match body
    case None => HttpReply(500, Raised)
    case Some(request) =>
      if !(request.modelType.Present? && request.modelType.value != "") then
        HttpReply(400, ScoreError("model_type required"))
      else
        var data := if request.data.Present? then request.data.value else NoInput;
        HttpReply(200, Predict(request.modelType.value, data, stddev, jitter))
  }
}
