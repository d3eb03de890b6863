/** The KPI dialog: four category scores with fixed equal weights, a capped weighted total, a
    capped incentive, the three-band rating, and the record handed to the caller on save.
    Numbers are exact reals; the browser's floating point is not modelled. */
module Kpi {
  import opened Wrappers

  const DefaultWeight: real := 25.0
  const DefaultBaseIncentiveRate: real := 1000.0
  const DefaultMaxIncentive: real := 50000.0
  const MaxTotal: real := 100.0

  /** The dialog's `kpiData` state. */
  datatype KpiData = KpiData(
    qualityScore: real, qualityWeight: real,
    productivityScore: real, productivityWeight: real,
    collaborationScore: real, collaborationWeight: real,
    goalScore: real, goalWeight: real,
    baseIncentiveRate: real, maxIncentive: real)

  /** The optional `currentKPI` the dialog is opened with; a field is `None` when absent. */
  datatype KpiSeed = KpiSeed(
    qualityScore: Option<real>, productivityScore: Option<real>,
    collaborationScore: Option<real>, goalScore: Option<real>,
    baseIncentiveRate: Option<real>, maxIncentive: Option<real>)

  datatype ScoreField = Quality | Productivity | Collaboration | Goal

  datatype Rating = Excellent | Good | NeedsImprovement

  /** What `handleSave` passes to `onSave` (the calculation timestamp left out). */
  datatype KpiResult = KpiResult(data: KpiData, totalKPI: real, incentiveAmount: real)

  /** The state the dialog starts in. */
  function InitialKpiData(currentKPI: Option<KpiSeed>): (d: KpiData)
    ensures EqualWeights(d)
    ensures d.baseIncentiveRate != 0.0 && d.maxIncentive != 0.0
    ensures currentKPI.None? ==> forall f :: ScoreOf(d, f) == 0.0
    ensures currentKPI.None? || currentKPI.value.baseIncentiveRate.GetOr(0.0) == 0.0 ==>
      d.baseIncentiveRate == DefaultBaseIncentiveRate
    ensures currentKPI.None? || currentKPI.value.maxIncentive.GetOr(0.0) == 0.0 ==>
      d.maxIncentive == DefaultMaxIncentive
    ensures currentKPI.Some? ==>
      && d.qualityScore == currentKPI.value.qualityScore.GetOr(0.0)
      && d.productivityScore == currentKPI.value.productivityScore.GetOr(0.0)
      && d.collaborationScore == currentKPI.value.collaborationScore.GetOr(0.0)
      && d.goalScore == currentKPI.value.goalScore.GetOr(0.0)
    ensures currentKPI.Some? && currentKPI.value.baseIncentiveRate.Some? && currentKPI.value.baseIncentiveRate.value != 0.0 ==>
      d.baseIncentiveRate == currentKPI.value.baseIncentiveRate.value
    ensures currentKPI.Some? && currentKPI.value.maxIncentive.Some? && currentKPI.value.maxIncentive.value != 0.0 ==>
      d.maxIncentive == currentKPI.value.maxIncentive.value
  {
    var seed := currentKPI.GetOr(KpiSeed(None, None, None, None, None, None));
    KpiData(
      OrFallback(seed.qualityScore, 0.0, 0.0), DefaultWeight,
      OrFallback(seed.productivityScore, 0.0, 0.0), DefaultWeight,
      OrFallback(seed.collaborationScore, 0.0, 0.0), DefaultWeight,
      OrFallback(seed.goalScore, 0.0, 0.0), DefaultWeight,
      OrFallback(seed.baseIncentiveRate, 0.0, DefaultBaseIncentiveRate),
      OrFallback(seed.maxIncentive, 0.0, DefaultMaxIncentive))
  }

  function ScoreOf(d: KpiData, f: ScoreField): real
  {
    match f
    case Quality => d.qualityScore
    case Productivity => d.productivityScore
    case Collaboration => d.collaborationScore
    case Goal => d.goalScore
  }

  predicate EqualWeights(d: KpiData)
  {
    d.qualityWeight == d.productivityWeight == d.collaborationWeight == d.goalWeight == DefaultWeight
  }

  predicate ScoresInRange(d: KpiData)
  {
    forall f :: 0.0 <= ScoreOf(d, f) <= 100.0
  }

  predicate SameExceptScores(d: KpiData, e: KpiData)
  {
    && e.qualityWeight == d.qualityWeight && e.productivityWeight == d.productivityWeight
    && e.collaborationWeight == d.collaborationWeight && e.goalWeight == d.goalWeight
    && e.baseIncentiveRate == d.baseIncentiveRate && e.maxIncentive == d.maxIncentive
  }

  /** The state with one of the four scores replaced by `v`. */
  function WithScore(d: KpiData, field: ScoreField, v: real): (e: KpiData)
    ensures ScoreOf(e, field) == v
    ensures forall g :: g != field ==> ScoreOf(e, g) == ScoreOf(d, g)
    ensures SameExceptScores(d, e)
  {
    match field
    case Quality => d.(qualityScore := v)
    case Productivity => d.(productivityScore := v)
    case Collaboration => d.(collaborationScore := v)
    case Goal => d.(goalScore := v)
  }

  /** The value a score edit stores: the parsed number (0 when it is `NaN`), clamped to 0..100.
      `parsed` is what `parseFloat` gave (`None` for `NaN`). */
  function ClampScore(parsed: Option<real>): (v: real)
    ensures 0.0 <= v <= 100.0
    ensures parsed.None? ==> v == 0.0
    ensures parsed.Some? && 0.0 <= parsed.value <= 100.0 ==> v == parsed.value
    ensures parsed.Some? && parsed.value > 100.0 ==> v == 100.0
    ensures parsed.Some? && parsed.value < 0.0 ==> v == 0.0
  {
    var x := OrFallback(parsed, 0.0, 0.0);
    var upper := if x < 100.0 then x else 100.0;
    if upper > 0.0 then upper else 0.0
  }

  /** The value a rate or cap edit stores: the parsed integer, 0 when it is `NaN`, with no clamping. */
  function ParsedIntOrZero(parsed: Option<int>): (v: real)
    ensures parsed.Some? ==> v == parsed.value as real
    ensures parsed.None? ==> v == 0.0
  {
    if parsed.Some? && parsed.value != 0 then parsed.value as real else 0.0
  }

  /** Editing scores keeps every score in range once all are in range; weights, rate and cap
      never change. */
  lemma InputChangeKeepsInvariant(d: KpiData, field: ScoreField, parsed: Option<real>)
    ensures SameExceptScores(d, WithScore(d, field, ClampScore(parsed)))
    ensures ScoresInRange(d) ==> ScoresInRange(WithScore(d, field, ClampScore(parsed)))
  {
    var e := WithScore(d, field, ClampScore(parsed));
    if ScoresInRange(d) {
      forall g ensures 0.0 <= ScoreOf(e, g) <= 100.0 {
        if g != field { assert ScoreOf(d, g) == ScoreOf(e, g); }
      }
    }
  }

  /** The explicit four-term weighted sum, before the cap. */
  function WeightedSum(d: KpiData): real
  {
    (d.qualityScore * d.qualityWeight / 100.0) +
    (d.productivityScore * d.productivityWeight / 100.0) +
    (d.collaborationScore * d.collaborationWeight / 100.0) +
    (d.goalScore * d.goalWeight / 100.0)
  }

  /** `calculateTotalKPI`: the weighted sum, capped at 100. */
  function TotalKpi(d: KpiData): (t: real)
    ensures t <= MaxTotal && t <= WeightedSum(d)
    ensures t == WeightedSum(d) || t == MaxTotal
    ensures t < MaxTotal <==> WeightedSum(d) < MaxTotal
  {
    var total := WeightedSum(d);
    if total < MaxTotal then total else MaxTotal
  }

  /** With the fixed equal weights the total is the plain average of the scores, capped at 100;
      with every score in 0..100 the cap never applies and the total lies in 0..100. */
  lemma EqualWeightsAverage(d: KpiData)
    requires EqualWeights(d)
    ensures var avg := (d.qualityScore + d.productivityScore + d.collaborationScore + d.goalScore) / 4.0;
      TotalKpi(d) == if avg < MaxTotal then avg else MaxTotal
    ensures ScoresInRange(d) ==>
      TotalKpi(d) == (d.qualityScore + d.productivityScore + d.collaborationScore + d.goalScore) / 4.0 &&
      0.0 <= TotalKpi(d) <= MaxTotal
  {
    if ScoresInRange(d) {
      assert 0.0 <= ScoreOf(d, Quality) <= 100.0 && 0.0 <= ScoreOf(d, Productivity) <= 100.0;
      assert 0.0 <= ScoreOf(d, Collaboration) <= 100.0 && 0.0 <= ScoreOf(d, Goal) <= 100.0;
    }
  }

  /** Non-negative scores and weights give a non-negative total. */
  lemma TotalNonNegative(d: KpiData)
    requires forall f :: ScoreOf(d, f) >= 0.0
    requires d.qualityWeight >= 0.0 && d.productivityWeight >= 0.0
    requires d.collaborationWeight >= 0.0 && d.goalWeight >= 0.0
    ensures 0.0 <= TotalKpi(d) <= MaxTotal
  {
    assert ScoreOf(d, Quality) >= 0.0 && ScoreOf(d, Productivity) >= 0.0;
    assert ScoreOf(d, Collaboration) >= 0.0 && ScoreOf(d, Goal) >= 0.0;
  }

  /** `calculateIncentive`: the total as a fraction of 100, times the rate, times 100, capped at
      `maxIncentive`. */
  function Incentive(d: KpiData): (r: real)
    ensures r <= d.maxIncentive
    ensures r == TotalKpi(d) * d.baseIncentiveRate || r == d.maxIncentive
    ensures r == TotalKpi(d) * d.baseIncentiveRate <==> TotalKpi(d) * d.baseIncentiveRate <= d.maxIncentive
  {
    var totalKPI := TotalKpi(d);
    var incentive := (totalKPI / 100.0) * d.baseIncentiveRate * 100.0;
    assert incentive == totalKPI * d.baseIncentiveRate;
    if incentive < d.maxIncentive then incentive else d.maxIncentive
  }

  /** The rating shown beside the total. */
  function RatingOf(totalKPI: real): (r: Rating)
    ensures r == Excellent <==> totalKPI >= 80.0
    ensures r == Good <==> 60.0 <= totalKPI < 80.0
    ensures r == NeedsImprovement <==> totalKPI < 60.0
  {
    if totalKPI >= 80.0 then Excellent else if totalKPI >= 60.0 then Good else NeedsImprovement
  }

  /** The worked example: scores 90, 70, 80 and 60 at the default rate and cap give a total of
      75, an uncapped incentive of 75000 capped to 50000, and the rating Good. */
  lemma WorkedExample()
    ensures var d := KpiData(90.0, 25.0, 70.0, 25.0, 80.0, 25.0, 60.0, 25.0, 1000.0, 50000.0);
      TotalKpi(d) == 75.0 && TotalKpi(d) * d.baseIncentiveRate == 75000.0 &&
      Incentive(d) == 50000.0 && RatingOf(TotalKpi(d)) == Good
  {
  }

  /** The dialog's state, updated in place by its input handlers. */
  class KpiDialog {
    var kpiData: KpiData

    constructor (currentKPI: Option<KpiSeed>)
      ensures kpiData == InitialKpiData(currentKPI)
    {
      kpiData := InitialKpiData(currentKPI);
    }

    /** `handleInputChange(field, value)`, given `parseFloat(value)`. */
    method HandleInputChange(field: ScoreField, parsed: Option<real>)
      modifies this
      ensures kpiData == WithScore(old(kpiData), field, ClampScore(parsed))
    {
      kpiData := WithScore(kpiData, field, ClampScore(parsed));
    }

    /** The base-rate input's `onChange`, given `parseInt(value)`. */
    method SetBaseIncentiveRate(parsed: Option<int>)
      modifies this
      ensures kpiData == old(kpiData).(baseIncentiveRate := ParsedIntOrZero(parsed))
    {
      kpiData := kpiData.(baseIncentiveRate := ParsedIntOrZero(parsed));
    }

    /** The cap input's `onChange`, given `parseInt(value)`. */
    method SetMaxIncentive(parsed: Option<int>)
      modifies this
      ensures kpiData == old(kpiData).(maxIncentive := ParsedIntOrZero(parsed))
    {
      kpiData := kpiData.(maxIncentive := ParsedIntOrZero(parsed));
    }

    /** `handleSave`: the state unchanged, with the two derived figures beside it. */
    method HandleSave() returns (result: KpiResult)
      ensures result.data == kpiData
      ensures result.totalKPI == TotalKpi(kpiData) && result.totalKPI <= MaxTotal
      ensures result.incentiveAmount == Incentive(kpiData) && result.incentiveAmount <= kpiData.maxIncentive
    {
      var totalKPI := TotalKpi(kpiData);
      var incentiveAmount := Incentive(kpiData);
      result := KpiResult(kpiData, totalKPI, incentiveAmount);
    }
  }
}
