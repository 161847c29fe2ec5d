/** The dashboard's prediction-market panel (`frontend/src/App.tsx`): a
    stake-weighted average of mock bank predictions, left unrounded and
    classified with strict thresholds, and the colour of a transaction's
    risk bar. Confidences here are fractions in [0, 1], not percentages. */
module MarketView {
  import opened Aggregation
  import DemoApi

  datatype Prediction = Prediction(bank: string, confidence: real, stake: real)

  const MockPredictions: seq<Prediction> := [
    Prediction("Bank A", 0.85, 200.0),
    Prediction("Bank B", 0.75, 150.0),
    Prediction("Bank C", 0.70, 100.0)]

  function StakeOf(p: Prediction): real { p.stake }

  function RiskTerm(p: Prediction): real { p.confidence * p.stake }

  /** `predictions.reduce((sum, p) => sum + p.stake, 0)`. */
  function TotalStake(ps: seq<Prediction>): real {
    SumBy(ps, StakeOf)
  }

  /** `predictions.reduce((sum, p) => sum + p.confidence * p.stake, 0) / totalStake`. */
  function WeightedRisk(ps: seq<Prediction>): real
    requires TotalStake(ps) != 0.0
  {
    SumBy(ps, RiskTerm) / TotalStake(ps)
  }

  /** `(weightedRisk * 100).toFixed(1)` for a non-negative risk. */
  function DisplayedPercent(risk: real): real {
    OneDecimal(risk)
  }

  /** The recommended action, with STRICT thresholds 0.8 and 0.6. */
  function MarketAction(risk: real): (a: Action)
    ensures a == Block <==> risk > 0.8
    ensures a == Review <==> 0.6 < risk <= 0.8
    ensures a == Approve <==> risk <= 0.6
  {
    if risk > 0.8 then Block else if risk > 0.6 then Review else Approve
  }

  datatype BarColour = Red | Orange | Green

  /** The risk bar of a transaction: red above 0.8, orange above 0.6, else green. */
  function RiskBarColour(risk: real): (c: BarColour)
    ensures c == Red <==> risk > 0.8
    ensures c == Orange <==> 0.6 < risk <= 0.8
    ensures c == Green <==> risk <= 0.6
  {
    if risk > 0.8 then Red else if risk > 0.6 then Orange else Green
  }

  /** The bar's colour follows the panel's action band for band. */
  lemma ColourMatchesAction(risk: real)
    ensures RiskBarColour(risk) == Red <==> MarketAction(risk) == Block
    ensures RiskBarColour(risk) == Orange <==> MarketAction(risk) == Review
    ensures RiskBarColour(risk) == Green <==> MarketAction(risk) == Approve
  {
  }

  /** The panel's strict thresholds disagree with the inclusive ones of every
      backend exactly at the two boundaries: a risk of 0.8 is only reviewed
      here, but blocked as a score of 80 there. */
  lemma StrictDiffersOnlyAtBoundaries(risk: real)
    ensures MarketAction(risk) != DemoApi.ActionFor(100.0 * risk) <==> risk == 0.8 || risk == 0.6
    ensures MarketAction(0.8) == Review && DemoApi.ActionFor(80.0) == Block
    ensures MarketAction(0.6) == Approve && DemoApi.ActionFor(60.0) == Review
  {
  }

  /** With non-negative stakes, the unrounded weighted risk lies between the
      lowest and highest confidence. */
  lemma WeightedRiskWithin(ps: seq<Prediction>, lo: real, hi: real)
    requires forall p :: p in ps ==> p.stake >= 0.0 && lo <= p.confidence <= hi
    requires TotalStake(ps) > 0.0
    ensures lo <= WeightedRisk(ps) <= hi
  {
    forall p | p in ps ensures lo * StakeOf(p) <= RiskTerm(p) <= hi * StakeOf(p) {
      ScaleBetween(p.confidence, p.stake, lo, hi);
    }
    WeightedBounds(ps, StakeOf, RiskTerm, lo, hi);
    MeanWithin(SumBy(ps, RiskTerm), TotalStake(ps), lo, hi);
  }

  lemma ScaleBetween(c: real, w: real, lo: real, hi: real)
    requires w >= 0.0 && lo <= c <= hi
    ensures lo * w <= c * w <= hi * w
  {
    assert (c - lo) * w >= 0.0;
    assert (hi - c) * w >= 0.0;
  }

  /** `pred.stake / totalStake`. */
  function WeightShare(p: Prediction, total: real): real
    requires total != 0.0
  {
    p.stake / total
  }

  /** The weight shares sum to one. */
  lemma SharesSumToOne(ps: seq<Prediction>)
    requires TotalStake(ps) != 0.0
    ensures SumBy(ps, (p: Prediction) => WeightShare(p, TotalStake(ps))) == 1.0
  {
    var total := TotalStake(ps);
    SumByScaled(ps, StakeOf, (p: Prediction) => WeightShare(p, total), total);
  }

  /** With non-negative stakes each share lies in [0, 1]. */
  lemma ShareWithin(ps: seq<Prediction>, p: Prediction)
    requires forall q :: q in ps ==> q.stake >= 0.0
    requires TotalStake(ps) > 0.0 && p in ps
    ensures 0.0 <= WeightShare(p, TotalStake(ps)) <= 1.0
  {
    SumByDominates(ps, StakeOf);
    var total := TotalStake(ps);
    assert p.stake <= total;
    MeanWithin(p.stake, total, 0.0, 1.0);
  }

  /** The mock panel: 450 staked, a weighted risk of 47/60, displayed as
      78.3%, recommended for review. */
  lemma MockPanel()
    ensures TotalStake(MockPredictions) == 450.0
    ensures WeightedRisk(MockPredictions) == 47.0 / 60.0
    ensures DisplayedPercent(WeightedRisk(MockPredictions)) == 78.3
    ensures MarketAction(WeightedRisk(MockPredictions)) == Review
  {
    var ps := MockPredictions;
    assert ps[..3] == ps;
    SumByStep(ps, 0, StakeOf);
    SumByStep(ps, 1, StakeOf);
    SumByStep(ps, 2, StakeOf);
    SumByStep(ps, 0, RiskTerm);
    SumByStep(ps, 1, RiskTerm);
    SumByStep(ps, 2, RiskTerm);
    assert ps[..0] == [];
    assert SumBy(ps, RiskTerm) == 352.5;
    OneDecimalExact(47.0 / 60.0, 783);
  }
}
