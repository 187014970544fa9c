/** What the two scoring engines (api/ai-predict.js and ai-engine/main.py)
    share: the three model names, the shape of a request's `data` and of a
    result, and the arithmetic of the price model. Arithmetic is over `real`;
    the standard deviation of the price window and the fraud jitter are
    parameters. */
module Scoring {
  import opened Wrappers

  datatype ModelKind = PriceModel | RiskModel | FraudModel

  /** The key each model is registered under. */
  function Name(k: ModelKind): string {
    match k
    case PriceModel => "price_prediction"
    case RiskModel => "risk_analysis"
    case FraudModel => "fraud_detection"
  }

  /** The lookup in the engines' model table. */
  function ModelByName(name: string): (r: Option<ModelKind>)
    ensures r.Some? ==> Name(r.value) == name
    ensures r.None? ==> forall k: ModelKind :: Name(k) != name
  {
    if name == "price_prediction" then Some(PriceModel)
    else if name == "risk_analysis" then Some(RiskModel)
    else if name == "fraud_detection" then Some(FraudModel)
    else None
  }

  lemma ModelByNameOfName(k: ModelKind)
    ensures ModelByName(Name(k)) == Some(k)
  {
  }

  /** A member of the request's `data` object: missing, an explicit `null`,
      or a value. */
  datatype Field<+T> = Absent | Null | Present(value: T)

  /** The members of `data` the three models read. */
  datatype Input = Input(
    prices: Field<seq<real>>,
    amount: Field<real>,
    historyScore: Field<real>,
    volatility: Field<real>,
    userHistory: Field<seq<real>>,
    speed: Field<real>)

  /** `{}`. */
  const NoInput: Input := Input(Absent, Absent, Absent, Absent, Absent, Absent)

  datatype RiskLevel = Low | Medium | High

  /** What a model returns. `ScoreError` is an `{error}` object with a fixed
      message; `Raised` is an exception a Python model caught and turned into
      `{error: str(e)}` (its text is not modelled). */
  datatype Prediction =
    | Price(prediction: real, confidence: int)
    | Risk(riskScore: int, riskLevel: RiskLevel, confidence: int)
    | Fraud(fraudScore: int, isFraud: bool, confidence: int)
    | ScoreError(message: string)
    | Raised

  /** The scalar the oracles put on chain, if the result has one. */
  predicate IsError(p: Prediction) {
    p.ScoreError? || p.Raised?
  }

  function Sum(s: seq<real>): real
    decreases |s|
  {
    if s == [] then 0.0 else Sum(s[..|s| - 1]) + s[|s| - 1]
  }

  /** The arithmetic mean (`reduce(+)/length`, `np.mean`). */
  function Mean(s: seq<real>): real
    requires |s| > 0
  {
    Sum(s) / (|s| as real)
  }

  lemma {:induction false} SumBounds(s: seq<real>, lo: real, hi: real)
    requires forall i :: 0 <= i < |s| ==> lo <= s[i] <= hi
    ensures (|s| as real) * lo <= Sum(s) <= (|s| as real) * hi
    decreases |s|
  {
    if s != [] {
      SumBounds(s[..|s| - 1], lo, hi);
    }
  }

  /** The mean lies between any lower and upper bound of the elements. */
  lemma MeanBounds(s: seq<real>, lo: real, hi: real)
    requires |s| > 0
    requires forall i :: 0 <= i < |s| ==> lo <= s[i] <= hi
    ensures lo <= Mean(s) <= hi
  {
    SumBounds(s, lo, hi);
    var n := |s| as real;
    assert n * lo <= Sum(s) <= n * hi;
    assert Mean(s) * n == Sum(s);
  }

  /** The last five prices, or all of them when there are fewer
      (`slice(-5)`, `[-5:]`). */
  function Window(prices: seq<real>): (r: seq<real>)
    ensures |r| == if |prices| < 5 then |prices| else 5
    ensures r == prices[|prices| - |r|..]
  {
    if |prices| <= 5 then prices else prices[|prices| - 5..]
  }

  /** The per-sample trend: the change from the first price to the last,
      divided by the number of prices. */
  function Trend(prices: seq<real>): real
    requires |prices| > 0
  {
    (prices[|prices| - 1] - prices[0]) / (|prices| as real)
  }

  /** The price forecast before any rounding: the window's mean plus twice
      the trend. */
  function Forecast(prices: seq<real>): real
    requires |prices| >= 2
  {
    Mean(Window(prices)) + Trend(prices) * 2.0
  }

  /** The population variance of a sample (`np.std` squared). */
  function Variance(s: seq<real>): real
    requires |s| > 0
  {
    SquaredDeviations(s, Mean(s)) / (|s| as real)
  }

  function SquaredDeviations(s: seq<real>, m: real): real
    decreases |s|
  {
    if s == [] then 0.0
    else SquaredDeviations(s[..|s| - 1], m) + (s[|s| - 1] - m) * (s[|s| - 1] - m)
  }

  lemma {:induction false} ConstantSum(s: seq<real>, c: real)
    requires forall i :: 0 <= i < |s| ==> s[i] == c
    ensures Sum(s) == (|s| as real) * c
    ensures SquaredDeviations(s, c) == 0.0
    decreases |s|
  {
    if s != [] {
      ConstantSum(s[..|s| - 1], c);
    }
  }

  /** A flat price series forecasts its own price, with zero spread. */
  lemma FlatForecast(prices: seq<real>, c: real)
    requires |prices| >= 2
    requires forall i :: 0 <= i < |prices| ==> prices[i] == c
    ensures Forecast(prices) == c
    ensures Variance(Window(prices)) == 0.0
  {
    var w := Window(prices);
    assert forall i :: 0 <= i < |w| ==> w[i] == prices[|prices| - |w| + i];
    ConstantSum(w, c);
    var n := |w| as real;
    assert Sum(w) == n * c;
    DivideScaled(n, c);
    assert Mean(w) == c;
    assert Trend(prices) == 0.0 / (|prices| as real);
  }

  lemma DivideScaled(n: real, c: real)
    requires n > 0.0
    ensures (n * c) / n == c
  {
  }

  /** The price series the repository's oracle client sends: the forecast is
      107 + 2 * 2.4. */
  lemma SampleForecast()
    ensures Forecast([100.0, 105.0, 110.0, 108.0, 112.0]) == 111.8
  {
    var s := [100.0, 105.0, 110.0, 108.0, 112.0];
    assert [100.0][..0] == [];
    assert Sum([100.0]) == 100.0;
    assert [100.0, 105.0][..1] == [100.0];
    assert Sum([100.0, 105.0]) == 205.0;
    assert [100.0, 105.0, 110.0][..2] == [100.0, 105.0];
    assert Sum([100.0, 105.0, 110.0]) == 315.0;
    assert [100.0, 105.0, 110.0, 108.0][..3] == [100.0, 105.0, 110.0];
    assert Sum([100.0, 105.0, 110.0, 108.0]) == 423.0;
    assert s[..4] == [100.0, 105.0, 110.0, 108.0];
    assert Sum(s) == 535.0;
  }

  /** The amount tier of the risk models. */
  function AmountRisk(amount: real): (r: real)
    ensures r == 30.0 <==> amount > 10000.0
    ensures r == 20.0 <==> 5000.0 < amount <= 10000.0
    ensures r == 10.0 <==> amount <= 5000.0
  {
    if amount > 10000.0 then 30.0 else if amount > 5000.0 then 20.0 else 10.0
  }

  /** The unbounded risk total of both engines. */
  function RawRisk(amount: real, historyScore: real, volatility: real): real {
    AmountRisk(amount) + (100.0 - historyScore) * 0.3 + volatility * 40.0
  }

  /** The fraud total before the cap: 40 for an amount over three times the
      history's mean, 30 for a speed over 10, plus the jitter. */
  function RawFraud(amount: real, history: seq<real>, speed: real, jitter: int): int {
    (if |history| > 0 && amount > Mean(history) * 3.0 then 40 else 0)
    + (if speed > 10.0 then 30 else 0)
    + jitter
  }

  /** The fraud verdict and confidence both engines derive from a score. */
  function FraudOf(score: int): (p: Prediction)
    ensures p.Fraud? && p.fraudScore == score
    ensures p.isFraud <==> score > 60
    ensures p.confidence == 80 <==> (score > 70 || score < 30)
    ensures p.confidence == 65 <==> 30 <= score <= 70
  {
    Fraud(score, score > 60, if score > 70 || score < 30 then 80 else 65)
  }

  /** The shared confidence clamp of the price models. */
  function Clamp(lo: int, hi: int, x: int): (r: int)
    requires lo <= hi
    ensures lo <= r <= hi
    ensures lo <= x <= hi ==> r == x
    ensures x < lo ==> r == lo
    ensures x > hi ==> r == hi
  {
    if x < lo then lo else if x > hi then hi else x
  }

  /** The body of a `/predict` request: `model_type` and `data`. */
  datatype RequestBody = RequestBody(modelType: Field<string>, data: Field<Input>)

  /** An HTTP status with the JSON result it carries. */
  datatype HttpReply = HttpReply(status: nat, result: Prediction)
}
