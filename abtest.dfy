/**
 * A/B-test simulation (`generate_ab_test_data`): every recommendation row is
 * fanned out into one record per variant. Per record, the standard-normal
 * draw of the engagement multiplier and the uniform draw of the conversion
 * test are inputs.
 */
module ABTest {
  import opened Numeric
  import opened Records

  /** The mean of each variant's engagement multiplier. */
  function VariantMean(v: Variant): real
  {
    match v
    case Control => 0.8
    case VariantA => 1.0
    case VariantB => 1.2
  }

  /** The standard deviation of each variant's engagement multiplier. */
  function VariantSpread(v: Variant): real
  {
    match v
    case Control => 0.1
    case VariantA => 0.1
    case VariantB => 0.15
  }

  /** `np.random.normal(mean, sd)` for the variant, from a standard-normal draw `z`. */
  function EngagementFactor(v: Variant, z: real): real
  {
    VariantMean(v) + VariantSpread(v) * z
  }

  /** `max(0, min(1, expected_engagement * factor))`. */
  function ActualEngagement(expected: real, v: Variant, z: real): (a: real)
    ensures 0.0 <= a <= 1.0
  {
    Clamp(expected * EngagementFactor(v, z))
  }

  /** `actual_engagement * 0.3`. */
  function ConversionProbability(actual: real): (c: real)
    ensures 0.0 <= actual <= 1.0 ==> 0.0 <= c <= 0.3
  {
    actual * 0.3
  }

  /** The draws of one record: `z` standard normal, `u` from `np.random.random()`. */
  datatype VariantDraw = VariantDraw(z: real, u: real)

  /** `f"TEST_{customer_id}_{variant}"`. */
  function TestId(customerId: string, v: Variant): string
  {
    "TEST_" + customerId + "_" + VariantName(v)
  }

  function MakeRecord(row: RecommendationRow, v: Variant, d: VariantDraw): ABTestRecord
  {
    var actual := ActualEngagement(row.rec.expectedEngagement, v, d.z);
    ABTestRecord(
      TestId(row.rec.customerId, v),
      row.rec.customerId,
      v,
      row.rec.recommendationType,
      row.rec.expectedEngagement,
      actual,
      d.u < ConversionProbability(actual),
      row.rec.timestamp)
  }

  /** Record `k` is variant `k % 3` of row `k / 3`, drawn with `draws[k]`. */
  ghost predicate FannedOut(rows: seq<RecommendationRow>, draws: seq<VariantDraw>, records: seq<ABTestRecord>)
  {
    && |records| <= |draws| && |records| <= 3 * |rows|
    && forall k :: 0 <= k < |records| ==> records[k] == MakeRecord(rows[k / 3], Variants[k % 3], draws[k])
  }

  lemma AppendRecord(rows: seq<RecommendationRow>, draws: seq<VariantDraw>, records: seq<ABTestRecord>, i: nat, v: nat)
    requires |draws| == 3 * |rows| && i < |rows| && v < 3 && |records| == 3 * i + v
    requires FannedOut(rows, draws, records)
    ensures FannedOut(rows, draws, records + [MakeRecord(rows[i], Variants[v], draws[3 * i + v])])
  {
    RecordIndex(i, v);
  }

  /** `generate_ab_test_data`: for each row, one record per variant in the order control, variant_a, variant_b. */
  method GenerateABTestData(rows: seq<RecommendationRow>, draws: seq<VariantDraw>) returns (records: seq<ABTestRecord>)
    requires |draws| == |Variants| * |rows|
    ensures |records| == |Variants| * |rows|
    ensures forall k :: 0 <= k < |records| ==> records[k] == MakeRecord(rows[k / 3], Variants[k % 3], draws[k])
  {
    records := [];
    for i := 0 to |rows|
      invariant |records| == 3 * i
      invariant FannedOut(rows, draws, records)
    {
      var rec := rows[i];
      for v := 0 to |Variants|
        invariant |records| == 3 * i + v
        invariant FannedOut(rows, draws, records)
      {
        var variant := Variants[v];
        var draw := draws[3 * i + v];
        var baseEngagement := rec.rec.expectedEngagement;
        var actualEngagement := Clamp(baseEngagement * EngagementFactor(variant, draw.z));
        var conversionProbability := ConversionProbability(actualEngagement);
        var converted := draw.u < conversionProbability;
        var abRecord := ABTestRecord(TestId(rec.rec.customerId, variant), rec.rec.customerId, variant,
                                     rec.rec.recommendationType, rec.rec.expectedEngagement,
                                     actualEngagement, converted, rec.rec.timestamp);
        assert abRecord == MakeRecord(rec, variant, draw);
        AppendRecord(rows, draws, records, i, v);
        records := records + [abRecord];
      }
    }
  }

  /**
   * Every record keeps its row's customer, type and expected engagement,
   * has an actual engagement in [0,1] and a conversion probability of at
   * most 0.3, and converts only on a uniform draw below that probability.
   */
  lemma RecordFacts(row: RecommendationRow, v: Variant, d: VariantDraw)
    ensures var r := MakeRecord(row, v, d);
      && r.customerId == row.rec.customerId
      && r.variant == v
      && r.recommendationType == row.rec.recommendationType
      && r.expectedEngagement == row.rec.expectedEngagement
      && 0.0 <= r.actualEngagement <= 1.0
      && 0.0 <= ConversionProbability(r.actualEngagement) <= 0.3
      && (r.converted <==> d.u < ConversionProbability(r.actualEngagement))
      && (d.u >= 0.3 ==> !r.converted)
  {
  }

  /** Record `3i + v` is variant `v` of row `i`. */
  lemma RecordIndex(i: nat, v: nat)
    requires v < 3
    ensures (3 * i + v) / 3 == i && (3 * i + v) % 3 == v
  {
  }

  /** Row `i` becomes records `3i`, `3i + 1` and `3i + 2`, for control, variant_a and variant_b. */
  lemma FanOut(rows: seq<RecommendationRow>, draws: seq<VariantDraw>, records: seq<ABTestRecord>, i: nat)
    requires |records| == |Variants| * |rows| && |draws| == |records|
    requires forall k :: 0 <= k < |records| ==> records[k] == MakeRecord(rows[k / 3], Variants[k % 3], draws[k])
    requires i < |rows|
    ensures records[3 * i] == MakeRecord(rows[i], Control, draws[3 * i])
    ensures records[3 * i + 1] == MakeRecord(rows[i], VariantA, draws[3 * i + 1])
    ensures records[3 * i + 2] == MakeRecord(rows[i], VariantB, draws[3 * i + 2])
  {
    RecordIndex(i, 0);
    RecordIndex(i, 1);
    RecordIndex(i, 2);
  }

  /** With a non-negative expected engagement, a larger multiplier never lowers the clamped engagement. */
  lemma ScaledClampMonotone(expected: real, f1: real, f2: real)
    requires expected >= 0.0 && f1 <= f2
    ensures Clamp(expected * f1) <= Clamp(expected * f2)
  {
    var lo, hi := expected * f1, expected * f2;
    MulMonotone(expected, f1, f2);
    assert lo <= hi;
    ClampMonotone(lo, hi);
  }

  /** A variant with the larger multiplier never has the lower actual engagement. */
  lemma ActualMonotone(expected: real, v1: Variant, v2: Variant, z: real)
    requires expected >= 0.0
    requires EngagementFactor(v1, z) <= EngagementFactor(v2, z)
    ensures ActualEngagement(expected, v1, z) <= ActualEngagement(expected, v2, z)
  {
    ScaledClampMonotone(expected, EngagementFactor(v1, z), EngagementFactor(v2, z));
  }

  /**
   * At the same standard-normal draw `z` the multipliers rise from control to
   * variant_a, and on to variant_b unless `z < -4`. The source draws each
   * variant independently, so this compares the variants at the same
   * quantile of their distributions.
   */
  lemma FactorOrder(z: real)
    ensures EngagementFactor(Control, z) <= EngagementFactor(VariantA, z)
    ensures z >= -4.0 ==> EngagementFactor(VariantA, z) <= EngagementFactor(VariantB, z)
    ensures z < -4.0 ==> EngagementFactor(VariantA, z) > EngagementFactor(VariantB, z)
  {
  }

  /**
   * The simulated uplift order: at the same quantile `z` and a non-negative
   * expected engagement, control never beats variant_a, and variant_a never
   * beats variant_b unless the draw is more than four deviations low.
   */
  lemma UpliftOrder(expected: real, z: real)
    requires expected >= 0.0
    ensures ActualEngagement(expected, Control, z) <= ActualEngagement(expected, VariantA, z)
    ensures z >= -4.0 ==> ActualEngagement(expected, VariantA, z) <= ActualEngagement(expected, VariantB, z)
  {
    FactorOrder(z);
    ActualMonotone(expected, Control, VariantA, z);
    if z >= -4.0 {
      ActualMonotone(expected, VariantA, VariantB, z);
    }
  }

  /** The three records of one row have three different test identifiers. */
  lemma TestIdsDiffer(customerId: string, v1: Variant, v2: Variant)
    requires v1 != v2
    ensures TestId(customerId, v1) != TestId(customerId, v2)
  {
    var prefix := "TEST_" + customerId + "_";
    assert TestId(customerId, v1)[|prefix|..] == VariantName(v1);
    assert TestId(customerId, v2)[|prefix|..] == VariantName(v2);
  }
}
