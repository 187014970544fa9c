/** ai-engine/main.py: the Flask scoring engine. Defaults are applied with
    `dict.get`, so only a missing key is replaced; an explicit `null` reaches
    the arithmetic and raises, which each model catches and returns as an
    error result. The risk total is clamped first and then truncated, and
    its level is read off the clamped, untruncated total. */
module AiEnginePy {
  import opened Wrappers
  import opened Scoring

  /** `data.get(key, d)` where the value is then used in arithmetic or a
      comparison: None when the stored value is `None` (a TypeError). */
  function Get<T>(f: Field<T>, d: T): (r: Option<T>)
    ensures f.Absent? ==> r == Some(d)
    ensures f.Null? ==> r.None?
    ensures f.Present? ==> r == Some(f.value)
  {
    match f
    case Absent => Some(d)
    case Null => None
    case Present(v) => Some(v)
  }

  /** `int(x)`: truncation toward zero. */
  function Trunc(x: real): (n: int)
    ensures x >= 0.0 ==> n == x.Floor
    ensures x < 0.0 ==> n == -((-x).Floor)
    ensures n as real <= x < n as real + 1.0 || n as real - 1.0 < x <= n as real
  {
    if x >= 0.0 then x.Floor else -((-x).Floor)
  }

  /** `PricePredictionModel.predict`, with `np.std` of the window as
      `stddev`. */
  function PricePrediction(data: Input, stddev: real): (r: Prediction)
    ensures data.prices.Null? <==> r.Raised?
    ensures r.ScoreError? <==> !data.prices.Null? && |Get(data.prices, []).value| < 2
    ensures r.ScoreError? ==> r.message == "Insufficient data"
    ensures r.Price? ==>
      && r.prediction == Forecast(Get(data.prices, []).value)
      && 50 <= r.confidence <= 95
      && (stddev <= 0.5 ==> r.confidence == 95)
      && (stddev >= 5.0 ==> r.confidence == 50)
    ensures r.Price? || r.ScoreError? || r.Raised?
  {
    match Get(data.prices, [])
    case None => Raised
    case Some(prices) =>
      if |prices| < 2 then ScoreError("Insufficient data")
      else Price(Forecast(prices), Clamp(50, 95, Trunc(100.0 - stddev * 10.0)))
  }

  /** The Python level bands, read off the clamped real total. */
  function Level(clamped: real): (l: RiskLevel)
    ensures l == High <==> clamped > 70.0
    ensures l == Medium <==> 40.0 < clamped <= 70.0
    ensures l == Low <==> clamped <= 40.0
  {
    if clamped > 70.0 then High else if clamped > 40.0 then Medium else Low
  }

  /** `min(100, max(0, x))` over reals. */
  function ClampRisk(x: real): (r: real)
    ensures 0.0 <= r <= 100.0
    ensures 0.0 <= x <= 100.0 ==> r == x
    ensures x < 0.0 ==> r == 0.0
    ensures x > 100.0 ==> r == 100.0
  {
    if x < 0.0 then 0.0 else if x > 100.0 then 100.0 else x
  }

  /** `RiskAnalysisModel.predict`. */
  function RiskAnalysis(data: Input): (r: Prediction)
    ensures r.Raised? <==> data.amount.Null? || data.historyScore.Null? || data.volatility.Null?
    ensures !r.Raised? ==>
      var raw := RawRisk(Get(data.amount, 0.0).value, Get(data.historyScore, 50.0).value,
                         Get(data.volatility, 0.5).value);
      && r.Risk? && r.confidence == 85
      && 0 <= r.riskScore <= 100
      && (raw >= 100.0 ==> r.riskScore == 100)
      && (raw < 0.0 ==> r.riskScore == 0)
      && (0.0 <= raw < 100.0 ==> r.riskScore as real <= raw < r.riskScore as real + 1.0)
      && r.riskLevel == Level(ClampRisk(raw))
  {
    match (Get(data.amount, 0.0), Get(data.historyScore, 50.0), Get(data.volatility, 0.5))
    case (Some(amount), Some(history), Some(volatility)) =>
      var clamped := ClampRisk(RawRisk(amount, history, volatility));
      Risk(Trunc(clamped), Level(clamped), 85)
    case _ => Raised
  }

  /** `FraudDetectionModel.predict`, with `np.random.randint(0, 20)` as
      `jitter`. A `None` history is falsy and skipped; a `None` amount only
      raises when a non-empty history makes it be compared. */
  function FraudDetection(data: Input, jitter: int): (r: Prediction)
    requires 0 <= jitter < 20
    ensures var history := if data.userHistory.Present? then data.userHistory.value else [];
      r.Raised? <==> data.speed.Null? || (|history| > 0 && data.amount.Null?)
    ensures !r.Raised? ==>
      var history := if data.userHistory.Present? then data.userHistory.value else [];
      var amountRule := |history| > 0 && Get(data.amount, 0.0).value > Mean(history) * 3.0;
      var speedRule := Get(data.speed, 1.0).value > 10.0;
      && r.Fraud? && 0 <= r.fraudScore <= 100
      && r.fraudScore == (if amountRule then 40 else 0) + (if speedRule then 30 else 0) + jitter
      && (r.isFraud <==> amountRule && speedRule)
      && r == FraudOf(r.fraudScore)
  {
    var history := if data.userHistory.Present? then data.userHistory.value else [];
    if data.speed.Null? || (|history| > 0 && data.amount.Null?) then Raised
    else
      var amount := Get(data.amount, 0.0).GetOr(0.0);
      var raw := RawFraud(amount, history, Get(data.speed, 1.0).value, jitter);
      FraudOf(if raw < 100 then raw else 100)
  }

  /** `AIEngine.predict`: an unknown name is an error; a `None` data object
      makes the chosen model raise on its first `get`. */
  function Predict(modelType: string, data: Option<Input>, stddev: real, jitter: int): (r: Prediction)
    requires 0 <= jitter < 20
    ensures ModelByName(modelType).None? <==> r == ScoreError("Model not found")
    ensures ModelByName(modelType).Some? && data.None? ==> r == Raised
    ensures data.Some? && ModelByName(modelType) == Some(PriceModel) ==> r == PricePrediction(data.value, stddev)
    ensures data.Some? && ModelByName(modelType) == Some(RiskModel) ==> r == RiskAnalysis(data.value)
    ensures data.Some? && ModelByName(modelType) == Some(FraudModel) ==> r == FraudDetection(data.value, jitter)
  {
    match ModelByName(modelType)
    case None => ScoreError("Model not found")
    case Some(kind) =>
      match data
      case None => Raised
      case Some(input) =>
        match kind
        case PriceModel => PricePrediction(input, stddev)
        case RiskModel => RiskAnalysis(input)
        case FraudModel => FraudDetection(input, jitter)
  }

  /** The `/predict` route. A body that is not JSON makes `request.json`
      None and the route answer 500; a falsy `model_type` gets 400; anything
      else gets 200 with the model's result, an error result included. */
  function HandlePredict(body: Option<RequestBody>, stddev: real, jitter: int): (r: HttpReply)
    requires 0 <= jitter < 20
    ensures body.None? <==> r == HttpReply(500, Raised)
    ensures r.status == 400 <==>
      body.Some? && !(body.value.modelType.Present? && body.value.modelType.value != "")
    ensures r.status == 400 ==> r.result == ScoreError("model_type required")
    ensures body.Some? && r.status != 400 ==>
      var data := match body.value.data
        case Absent => Some(NoInput)
        case Null => None
        case Present(d) => Some(d);
      r == HttpReply(200, Predict(body.value.modelType.value, data, stddev, jitter))
  {
    match body
    case None => HttpReply(500, Raised)
    case Some(request) =>
      if !(request.modelType.Present? && request.modelType.value != "") then
        HttpReply(400, ScoreError("model_type required"))
      else
        var data := match request.data
          case Absent => Some(NoInput)
          case Null => None
          case Present(d) => Some(d);
        HttpReply(200, Predict(request.modelType.value, data, stddev, jitter))
  }
}
