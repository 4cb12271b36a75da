/**
 * Recommendation ranking (`generate_recommendations`): the score map is
 * sorted by descending score, the top items are typed by a first-match
 * policy on tier and score, and each gets its content and engagement
 * estimate. The product drawn for a financial-services recommendation and
 * the creation time are inputs.
 */
module Ranking {
  import opened Numeric
  import opened Records
  import opened Sorting

  function ScoreOf(e: Entry): real
  {
    e.value
  }

  /** `sorted(real_time_scores.items(), key=lambda x: x[1], reverse=True)`. */
  function Ranked(scores: Dict): (r: Dict)
    ensures |r| == |scores|
  {
    SortDesc(scores, ScoreOf)
  }

  /** `sorted_categories[:num_recommendations]`. */
  function TopScores(scores: Dict, num: int): Dict
  {
    PyPrefix(Ranked(scores), num)
  }

  /** The confidence multiplier of each recommendation type. */
  function Factor(t: RecommendationType): real
  {
    match t
    case PremiumProductRecommendation => 0.9
    case ProductRecommendation => 0.8
    case EducationalContent => 0.7
    case PromotionalOffer => 0.6
  }

  datatype Decision = Decision(recommendationType: RecommendationType, confidence: real)

  predicate PremiumTier(s: Segment)
  {
    s == Premium || s == Gold
  }

  /** The type/confidence policy: its rules are tried in order and the first that matches decides. */
  function Policy(segment: Segment, score: real): (d: Decision)
    ensures d.recommendationType == PremiumProductRecommendation <==> PremiumTier(segment) && score > 0.7
    ensures d.recommendationType == ProductRecommendation <==> !(PremiumTier(segment) && score > 0.7) && score > 0.6
    ensures d.recommendationType == EducationalContent <==> 0.4 < score <= 0.6
    ensures d.recommendationType == PromotionalOffer <==> score <= 0.4
    ensures d.confidence == Factor(d.recommendationType) * score
  {
    if PremiumTier(segment) && score > 0.7 then Decision(PremiumProductRecommendation, score * 0.9)
    else if score > 0.6 then Decision(ProductRecommendation, score * 0.8)
    else if score > 0.4 then Decision(EducationalContent, score * 0.7)
    else Decision(PromotionalOffer, score * 0.6)
  }

  /** For a score in [0,1] the confidence lies in [0, 0.9] and never exceeds the score. */
  lemma ConfidenceRange(segment: Segment, score: real)
    requires 0.0 <= score <= 1.0
    ensures 0.0 <= Policy(segment, score).confidence <= 0.9
    ensures Policy(segment, score).confidence <= score
  {
    var f := Factor(Policy(segment, score).recommendationType);
    MulMonotone(score, f, 0.9);
    MulMonotone(score, f, 1.0);
    MulMonotone(f, 0.0, score);
  }

  /**
   * A higher score never gets a lower confidence: each later rule has both a
   * lower threshold and a smaller multiplier.
   */
  lemma ConfidenceMonotone(segment: Segment, s1: real, s2: real)
    requires 0.0 <= s1 <= s2
    ensures Policy(segment, s1).confidence <= Policy(segment, s2).confidence
  {
    var f1 := Factor(Policy(segment, s1).recommendationType);
    var f2 := Factor(Policy(segment, s2).recommendationType);
    assert f1 <= f2;
    MulMonotone(s1, f1, f2);
    MulMonotone(f2, s1, s2);
  }

  /** `min(0.95, score * behavior_score * 1.2)`. */
  function ExpectedEngagement(score: real, behaviorScore: real): (e: real)
    ensures e <= 0.95
    ensures e <= score * behaviorScore * 1.2
    ensures e == 0.95 || e == score * behaviorScore * 1.2
  {
    Min(0.95, score * behaviorScore * 1.2)
  }

  lemma ExpectedEngagementMonotone(s1: real, s2: real, behaviorScore: real)
    requires s1 <= s2 && behaviorScore >= 0.0
    ensures ExpectedEngagement(s1, behaviorScore) <= ExpectedEngagement(s2, behaviorScore)
  {
    MulMonotone(behaviorScore * 1.2, s1, s2);
    assert s1 * behaviorScore * 1.2 == behaviorScore * 1.2 * s1;
    assert s2 * behaviorScore * 1.2 == behaviorScore * 1.2 * s2;
  }

  /** The content template of each category; `pick` is the index of the drawn financial product. */
  function Content(category: string, segment: Segment, pick: nat): string
    requires pick < |FinancialProducts|
  {
    if category == "financial_services" then
      "Recommended: " + FinancialProducts[pick] + " tailored for " + SegmentName(segment) + " customers"
    else if category == "digital_banking" then
      "Enhance your digital banking experience with our latest " + category + " features"
    else
      "Explore " + category + " opportunities matching your profile"
  }

  function MakeRecommendation(p: CustomerProfile, item: Entry, pick: nat, now: int): Recommendation
    requires pick < |FinancialProducts|
  {
    var decision := Policy(p.segment, item.value);
    Recommendation(
      p.customerId,
      decision.recommendationType,
      Content(item.key, p.segment, pick),
      decision.confidence,
      ExpectedEngagement(item.value, p.behaviorScore),
      now)
  }

  function Recommendations(p: CustomerProfile, scores: Dict, num: int, pick: nat, now: int): (recs: seq<Recommendation>)
    requires pick < |FinancialProducts|
    ensures |recs| == |TopScores(scores, num)|
  {
    var top := TopScores(scores, num);
    seq(|top|, i requires 0 <= i < |top| => MakeRecommendation(p, top[i], pick, now))
  }

  /** `generate_recommendations`: one recommendation per top-ranked item, in rank order. */
  method GenerateRecommendations(p: CustomerProfile, scores: Dict, num: int, pick: nat, now: int)
    returns (recs: seq<Recommendation>)
    requires pick < |FinancialProducts|
    ensures recs == Recommendations(p, scores, num, pick, now)
  {
    var sortedCategories := SortDesc(scores, ScoreOf);
    var top := PyPrefix(sortedCategories, num);
    recs := [];
    for i := 0 to |top|
      invariant |recs| == i
      invariant forall k :: 0 <= k < i ==> recs[k] == MakeRecommendation(p, top[k], pick, now)
    {
      var category, score := top[i].key, top[i].value;
      var decision := Policy(p.segment, score);
      var content := Content(category, p.segment, pick);
      var expectedEngagement := ExpectedEngagement(score, p.behaviorScore);
      var recommendation := Recommendation(p.customerId, decision.recommendationType, content,
                                           decision.confidence, expectedEngagement, now);
      recs := recs + [recommendation];
    }
  }

  /**
   * The list has `min(num, |scores|)` items for a non-negative `num` (a
   * negative one drops that many from the end, as Python slicing does).
   */
  lemma RecommendationCount(p: CustomerProfile, scores: Dict, num: int, pick: nat, now: int)
    requires pick < |FinancialProducts|
    ensures 0 <= num ==> |Recommendations(p, scores, num, pick, now)| == if num <= |scores| then num else |scores|
    ensures num < 0 ==> |Recommendations(p, scores, num, pick, now)| == if |scores| + num >= 0 then |scores| + num else 0
  {
  }

  /**
   * The ranked items are the score map reordered by non-increasing score,
   * with equal scores in their original key order; the top items are a
   * prefix of that order, so no item left out scores higher than one kept.
   */
  lemma TopScoresFacts(scores: Dict, num: int)
    ensures multiset(Ranked(scores)) == multiset(scores)
    ensures NonIncreasing(Ranked(scores), ScoreOf)
    ensures SameTies(Ranked(scores), scores, ScoreOf)
    ensures TopScores(scores, num) == Ranked(scores)[..|TopScores(scores, num)|]
    ensures forall i, j :: 0 <= i < |TopScores(scores, num)| <= j < |scores| ==>
      Ranked(scores)[i].value >= Ranked(scores)[j].value
  {
    SortPermutes(scores, ScoreOf);
    SortSorted(scores, ScoreOf);
    SortStable(scores, ScoreOf);
    PrefixIsTop(Ranked(scores), |TopScores(scores, num)|, ScoreOf);
  }

  /**
   * Down the list the confidence and the expected engagement never rise, and
   * the expected engagement stays at or below 0.95; a premium product is
   * only recommended to Premium and Gold customers.
   */
  lemma RecommendationsOrdered(p: CustomerProfile, scores: Dict, num: int, pick: nat, now: int)
    requires pick < |FinancialProducts|
    requires forall k :: 0 <= k < |scores| ==> scores[k].value >= 0.0
    requires p.behaviorScore >= 0.0
    ensures var recs := Recommendations(p, scores, num, pick, now);
      forall i, j :: 0 <= i < j < |recs| ==>
        recs[i].confidenceScore >= recs[j].confidenceScore &&
        recs[i].expectedEngagement >= recs[j].expectedEngagement
    ensures forall r :: r in Recommendations(p, scores, num, pick, now) ==>
      r.expectedEngagement <= 0.95 &&
      (r.recommendationType == PremiumProductRecommendation ==> PremiumTier(p.segment))
  {
    var recs := Recommendations(p, scores, num, pick, now);
    var top := TopScores(scores, num);
    TopScoresFacts(scores, num);
    forall i, j | 0 <= i < j < |recs|
      ensures recs[i].confidenceScore >= recs[j].confidenceScore
      ensures recs[i].expectedEngagement >= recs[j].expectedEngagement
    {
      assert top[i] == Ranked(scores)[i] && top[j] == Ranked(scores)[j];
      assert top[j] in multiset(scores);
      assert top[j].value >= 0.0;
      ConfidenceMonotone(p.segment, top[j].value, top[i].value);
      ExpectedEngagementMonotone(top[j].value, top[i].value, p.behaviorScore);
    }
  }

  /**
   * Scores {financial_services: 0.9, digital_banking: 0.3,
   * investment_products: 0.6} with two recommendations asked for give
   * financial_services, then investment_products.
   */
  lemma TopTwoExample()
    ensures var scores := [Entry("financial_services", 0.9), Entry("digital_banking", 0.3), Entry("investment_products", 0.6)];
      Keys(TopScores(scores, 2)) == ["financial_services", "investment_products"]
  {
    var scores := [Entry("financial_services", 0.9), Entry("digital_banking", 0.3), Entry("investment_products", 0.6)];
    var tail := [Entry("digital_banking", 0.3), Entry("investment_products", 0.6)];
    assert scores[1..] == tail;
    var ip, db := Entry("investment_products", 0.6), Entry("digital_banking", 0.3);
    assert tail[1..] == [ip];
    assert [ip][1..] == [];
    assert SortDesc([ip], ScoreOf) == Insert(ip, [], ScoreOf) == [ip];
    assert Insert(db, [ip], ScoreOf) == [ip] + Insert(db, [], ScoreOf) == [ip, db];
    assert SortDesc(tail, ScoreOf) == [Entry("investment_products", 0.6), Entry("digital_banking", 0.3)];
    assert Ranked(scores) == [Entry("financial_services", 0.9), Entry("investment_products", 0.6), Entry("digital_banking", 0.3)];
  }
}
