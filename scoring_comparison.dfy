/** How the two scoring engines compare on the same input. */
module ScoringComparison {
  import opened Wrappers
  import opened Scoring
  import Js = AiPredictJs
  import Py = AiEnginePy

  /** Flooring (JavaScript) and truncating (Python) give the same price
      confidence for every spread, once held to [50, 95]. */
  lemma PriceConfidenceAgrees(stddev: real)
    ensures Clamp(50, 95, (100.0 - stddev * 10.0).Floor) == Clamp(50, 95, Py.Trunc(100.0 - stddev * 10.0))
  {
    var x := 100.0 - stddev * 10.0;
    if x < 0.0 {
      assert Py.Trunc(x) <= 0;
      assert x.Floor < 0;
    }
  }

  /** Floor-then-clamp and clamp-then-truncate give the same risk score. */
  lemma RiskScoreAgrees(raw: real)
    ensures Clamp(0, 100, raw.Floor) == Py.Trunc(Py.ClampRisk(raw))
  {
  }

  /** The two engines report different risk levels for the same total
      exactly when it lies strictly between 70 and 71 or between 40 and 41
      (Python reads the level off the untruncated total). */
  lemma RiskLevelsDiffer(raw: real)
    ensures Js.Level(Clamp(0, 100, raw.Floor)) != Py.Level(Py.ClampRisk(raw))
      <==> (70.0 < raw < 71.0 || 40.0 < raw < 41.0)
  {
    RiskScoreAgrees(raw);
  }

  /** A total of 70.5 (default amount and history, volatility 1.1375):
      both report a score of 70, but JavaScript calls it MEDIUM and Python
      HIGH. */
  lemma RiskAt70Point5()
    ensures var input := Input(Absent, Absent, Absent, Present(1.1375), Absent, Absent);
      && Js.RiskAnalysis(input) == Risk(70, Medium, 85)
      && Py.RiskAnalysis(input) == Risk(70, High, 85)
  {
    assert RawRisk(0.0, 50.0, 1.1375) == 70.5;
  }

  /** With no explicit zero and no `null`, both engines read the same
      defaults and agree on the score. */
  lemma RiskAgreesWithoutFalsyFields(data: Input)
    requires !data.amount.Null? && !data.historyScore.Null? && !data.volatility.Null?
    requires data.historyScore != Present(0.0) && data.volatility != Present(0.0)
    ensures Py.RiskAnalysis(data).Risk?
    ensures Js.RiskAnalysis(data).riskScore == Py.RiskAnalysis(data).riskScore
  {
    var raw := RawRisk(Py.Get(data.amount, 0.0).value, Py.Get(data.historyScore, 50.0).value,
                       Py.Get(data.volatility, 0.5).value);
    if data.amount == Present(0.0) {
      assert AmountRisk(0.0) == AmountRisk(Js.NumberOr(data.amount, 0.0));
    }
    RiskScoreAgrees(raw);
  }

  /** An explicit history score of 0: JavaScript's `||` replaces it with 50
      (score 45, MEDIUM), Python keeps it (score 60, MEDIUM). */
  lemma ZeroHistoryScore()
    ensures var input := Input(Absent, Absent, Present(0.0), Absent, Absent, Absent);
      && Js.RiskAnalysis(input) == Risk(45, Medium, 85)
      && Py.RiskAnalysis(input) == Risk(60, Medium, 85)
  {
    assert RawRisk(0.0, 50.0, 0.5) == 45.0;
    assert RawRisk(0.0, 0.0, 0.5) == 60.0;
  }

  /** An explicit volatility of 0: JavaScript replaces it with 0.5 (score
      45, MEDIUM), Python keeps it (score 25, LOW). */
  lemma ZeroVolatility()
    ensures var input := Input(Absent, Absent, Absent, Present(0.0), Absent, Absent);
      && Js.RiskAnalysis(input) == Risk(45, Medium, 85)
      && Py.RiskAnalysis(input) == Risk(25, Low, 85)
  {
    assert RawRisk(0.0, 50.0, 0.5) == 45.0;
    assert RawRisk(0.0, 50.0, 0.0) == 25.0;
  }

  /** A fraud score is above 60 only when both rules fire: 40 + 19 and
      30 + 19 stay below it, 40 + 30 is above it. */
  lemma FraudNeedsBothRules(amountRule: bool, speedRule: bool, jitter: int)
    requires 0 <= jitter < 20
    ensures (if amountRule then 40 else 0) + (if speedRule then 30 else 0) + jitter > 60 <==> amountRule && speedRule
  {
  }

  /** On the same input and jitter the two engines give the same fraud
      result whenever Python does not raise. An explicit zero makes no
      difference here: a zero amount is 0 in both, and a zero speed (1 in
      JavaScript, 0 in Python) stays below the speed rule's 10 in both. */
  lemma FraudAgrees(data: Input, jitter: int)
    requires 0 <= jitter < 20
    requires !Py.FraudDetection(data, jitter).Raised?
    ensures Js.FraudDetection(data, jitter) == Py.FraudDetection(data, jitter)
  {
  }

  /** The price forecast itself is the same in both engines; only
      JavaScript rounds it to cents. */
  lemma PriceAgrees(data: Input, stddev: real)
    requires !data.prices.Null?
    ensures Js.PricePrediction(data, stddev).Price? <==> Py.PricePrediction(data, stddev).Price?
    ensures Py.PricePrediction(data, stddev).Price? ==>
      && Js.PricePrediction(data, stddev).confidence == Py.PricePrediction(data, stddev).confidence
      && Js.PricePrediction(data, stddev).prediction == Js.ToFixed2(Py.PricePrediction(data, stddev).prediction)
  {
    PriceConfidenceAgrees(stddev);
  }

  /** A flat series has zero variance, so its spread is 0, and both engines
      forecast its own price with the top confidence. */
  lemma FlatSeriesPrediction(prices: seq<real>, c: real)
    requires |prices| >= 2 && forall i :: 0 <= i < |prices| ==> prices[i] == c
    ensures Variance(Window(prices)) == 0.0
    ensures Py.PricePrediction(Input(Present(prices), Absent, Absent, Absent, Absent, Absent), 0.0) == Price(c, 95)
    ensures Js.PricePrediction(Input(Present(prices), Absent, Absent, Absent, Absent, Absent), 0.0).confidence == 95
  {
    FlatForecast(prices, c);
  }

  /** The repository's oracle-client sample, [100, 105, 110, 108, 112]:
      a forecast of 111.8 in both engines. */
  lemma SamplePrediction(stddev: real)
    ensures var input := Input(Present([100.0, 105.0, 110.0, 108.0, 112.0]), Absent, Absent, Absent, Absent, Absent);
      && Py.PricePrediction(input, stddev).prediction == 111.8
      && Js.PricePrediction(input, stddev).prediction == 111.8
  {
    SampleForecast();
    assert 111.8 * 100.0 + 0.5 == 11180.5;
    assert (11180.5).Floor == 11180;
  }
}
