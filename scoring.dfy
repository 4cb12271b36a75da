/**
 * Real-time scoring (`calculate_real_time_scores`): each product category
 * starts from the profile's static preference and is moved by the
 * engagement and the frequency of the recent events in that category.
 */
module Scoring {
  import opened Numeric
  import opened Records

  /** The base score of a category missing from the preferences. */
  const DefaultBase: real := 0.5

  /** The recent events whose content category is `category`, in window order. */
  function CategoryEvents(events: seq<InteractionEvent>, category: string): (r: seq<InteractionEvent>)
    ensures |r| <= |events|
    ensures forall k :: 0 <= k < |r| ==> r[k].contentCategory == category && r[k] in events
    ensures forall e :: e in events && e.contentCategory == category ==> e in r
  {
    if events == [] then []
    else (if events[0].contentCategory == category then [events[0]] else []) + CategoryEvents(events[1..], category)
  }

  /** The filter keeps every event of the category as many times as the window holds it, and no other. */
  lemma {:induction false} CategoryEventsCount(events: seq<InteractionEvent>, category: string)
    ensures forall e :: multiset(CategoryEvents(events, category))[e]
                        == (if e.contentCategory == category then multiset(events)[e] else 0)
  {
    if events != [] {
      CategoryEventsCount(events[1..], category);
      assert events == [events[0]] + events[1..];
    }
  }

  function EngagementSum(events: seq<InteractionEvent>): real
  {
    if events == [] then 0.0 else events[0].engagementScore + EngagementSum(events[1..])
  }

  /** `(recent_engagement - 0.5) * 0.3`: engagement above one half raises the score, below lowers it. */
  function EngagementBoost(recentEngagement: real): (b: real)
    ensures recentEngagement >= 0.5 ==> b >= 0.0
    ensures recentEngagement <= 0.5 ==> b <= 0.0
    ensures 0.0 <= recentEngagement <= 1.0 ==> -0.15 <= b <= 0.15
  {
    (recentEngagement - 0.5) * 0.3
  }

  /** `min(0.2, interaction_frequency * 0.1)`: never more than 0.2 whatever the frequency. */
  function FrequencyBoost(interactionFrequency: real): (b: real)
    ensures b <= 0.2
    ensures interactionFrequency >= 0.0 ==> b >= 0.0
    ensures interactionFrequency >= 2.0 ==> b == 0.2
    ensures interactionFrequency <= 2.0 ==> b == interactionFrequency * 0.1
  {
    Min(0.2, interactionFrequency * 0.1)
  }

  /** `count / 30`: a fixed thirty-day normalisation, whatever the real window. */
  function InteractionFrequency(count: nat): real
  {
    count as real / 30.0
  }

  /**
   * With at most 50 events in a window, as the pipeline feeds it, the
   * frequency boost is `count / 300` and stays strictly below its 0.2 cap.
   */
  lemma FrequencyCapInactive(count: nat)
    requires count <= 50
    ensures FrequencyBoost(InteractionFrequency(count)) == count as real / 300.0 < 0.2
  {
  }

  /** The score of one category. */
  function CategoryScore(p: CustomerProfile, recent: seq<InteractionEvent>, category: string): (s: real)
    ensures 0.0 <= s <= 1.0
  {
    var base := Get(p.preferences, category, DefaultBase);
    var matching := CategoryEvents(recent, category);
    var adjusted :=
      if |matching| > 0 then
        var recentEngagement := EngagementSum(matching) / |matching| as real;
        base + EngagementBoost(recentEngagement) + FrequencyBoost(InteractionFrequency(|matching|))
      else base;
    Clamp(adjusted)
  }

  /** The score map: one item per product category, in category order. */
  function RealTimeScores(p: CustomerProfile, recent: seq<InteractionEvent>): (scores: Dict)
    ensures |scores| == |ProductCategories|
  {
    seq(|ProductCategories|, i requires 0 <= i < |ProductCategories| =>
      Entry(ProductCategories[i], CategoryScore(p, recent, ProductCategories[i])))
  }

  /** `calculate_real_time_scores`: fills the score map category by category. */
  method CalculateRealTimeScores(p: CustomerProfile, recent: seq<InteractionEvent>) returns (scores: Dict)
    ensures scores == RealTimeScores(p, recent)
  {
    scores := [];
    for i := 0 to |ProductCategories|
      invariant |scores| == i
      invariant forall k :: 0 <= k < i ==> scores[k] == Entry(ProductCategories[k], CategoryScore(p, recent, ProductCategories[k]))
    {
      var category := ProductCategories[i];
      var baseScore := Get(p.preferences, category, DefaultBase);
      var matching := CategoryEvents(recent, category);
      var adjustedScore;
      if |matching| > 0 {
        var recentEngagement := EngagementSum(matching) / |matching| as real;
        var interactionFrequency := InteractionFrequency(|matching|);
        var engagementBoost := EngagementBoost(recentEngagement);
        var frequencyBoost := FrequencyBoost(interactionFrequency);
        adjustedScore := baseScore + engagementBoost + frequencyBoost;
      } else {
        adjustedScore := baseScore;
      }
      scores := scores + [Entry(category, Clamp(adjustedScore))];
    }
  }

  /** The map has exactly the product categories as keys, in order, and every score lies in [0,1]. */
  lemma RealTimeScoresShape(p: CustomerProfile, recent: seq<InteractionEvent>)
    ensures Keys(RealTimeScores(p, recent)) == ProductCategories
    ensures forall i :: 0 <= i < |ProductCategories| ==> 0.0 <= RealTimeScores(p, recent)[i].value <= 1.0
  {
  }

  /**
   * With no recent event in a category its score is the clamped base: the
   * preference, or 0.5 when the category is missing.
   */
  lemma Fallback(p: CustomerProfile, recent: seq<InteractionEvent>, category: string)
    requires forall k :: 0 <= k < |recent| ==> recent[k].contentCategory != category
    ensures CategoryScore(p, recent, category) == Clamp(Get(p.preferences, category, DefaultBase))
  {
    NoCategoryEvents(recent, category);
  }

  lemma {:induction false} NoCategoryEvents(events: seq<InteractionEvent>, category: string)
    requires forall k :: 0 <= k < |events| ==> events[k].contentCategory != category
    ensures CategoryEvents(events, category) == []
  {
    if events != [] {
      NoCategoryEvents(events[1..], category);
    }
  }

  /**
   * For an empty window the score map is the profile's own preferences for
   * the product categories (0.5 for a missing one), when those lie in [0,1].
   */
  lemma EmptyWindowScores(p: CustomerProfile)
    requires forall k :: 0 <= k < |p.preferences| ==> 0.0 <= p.preferences[k].value <= 1.0
    ensures forall i :: 0 <= i < |ProductCategories| ==>
      RealTimeScores(p, [])[i] == Entry(ProductCategories[i], Get(p.preferences, ProductCategories[i], DefaultBase))
  {
    forall i | 0 <= i < |ProductCategories|
      ensures RealTimeScores(p, [])[i] == Entry(ProductCategories[i], Get(p.preferences, ProductCategories[i], DefaultBase))
    {
      Fallback(p, [], ProductCategories[i]);
    }
  }

  /**
   * Recent events whose engagement averages at least one half can only raise
   * a category's clamped base score.
   */
  lemma PositiveEngagementRaises(p: CustomerProfile, recent: seq<InteractionEvent>, category: string)
    requires CategoryEvents(recent, category) != []
    requires EngagementSum(CategoryEvents(recent, category)) >= 0.5 * |CategoryEvents(recent, category)| as real
    ensures CategoryScore(p, recent, category) >= Clamp(Get(p.preferences, category, DefaultBase))
  {
    var matching := CategoryEvents(recent, category);
    var n := |matching| as real;
    var mean := EngagementSum(matching) / n;
    MeanAtLeast(EngagementSum(matching), n, 0.5);
    var base := Get(p.preferences, category, DefaultBase);
    var adjusted := base + EngagementBoost(mean) + FrequencyBoost(InteractionFrequency(|matching|));
    ClampMonotone(base, adjusted);
  }

  lemma {:induction false} SumAtLeast(events: seq<InteractionEvent>)
    requires forall k :: 0 <= k < |events| ==> 0.0 <= events[k].engagementScore
    ensures 0.0 <= EngagementSum(events)
  {
    if events != [] {
      SumAtLeast(events[1..]);
    }
  }

  lemma {:induction false} SumAtMost(events: seq<InteractionEvent>)
    requires forall k :: 0 <= k < |events| ==> events[k].engagementScore <= 1.0
    ensures EngagementSum(events) <= |events| as real
  {
    if events != [] {
      SumAtMost(events[1..]);
    }
  }

  /**
   * With engagement scores at most 1, as every simulated event has (they are
   * capped but never floored), the recent events raise a category's score at
   * most 0.35 above its unadjusted base.
   */
  lemma AdjustmentAtMost(p: CustomerProfile, recent: seq<InteractionEvent>, category: string)
    requires forall k :: 0 <= k < |recent| ==> recent[k].engagementScore <= 1.0
    ensures CategoryScore(p, recent, category) <= Clamp(Get(p.preferences, category, DefaultBase) + 0.35)
  {
    var base := Get(p.preferences, category, DefaultBase);
    var matching := CategoryEvents(recent, category);
    if |matching| > 0 {
      SumAtMost(matching);
      var n := |matching| as real;
      var mean := EngagementSum(matching) / n;
      MeanAtMost(EngagementSum(matching), n, 1.0);
      var adjusted := base + EngagementBoost(mean) + FrequencyBoost(InteractionFrequency(|matching|));
      ClampMonotone(adjusted, base + 0.35);
    } else {
      ClampMonotone(base, base + 0.35);
    }
  }

  /** With engagement scores of at least 0, the recent events lower a category's score at most 0.15 below its base. */
  lemma AdjustmentAtLeast(p: CustomerProfile, recent: seq<InteractionEvent>, category: string)
    requires forall k :: 0 <= k < |recent| ==> 0.0 <= recent[k].engagementScore
    ensures Clamp(Get(p.preferences, category, DefaultBase) - 0.15) <= CategoryScore(p, recent, category)
  {
    var base := Get(p.preferences, category, DefaultBase);
    var matching := CategoryEvents(recent, category);
    if |matching| > 0 {
      SumAtLeast(matching);
      var n := |matching| as real;
      var mean := EngagementSum(matching) / n;
      MeanAtLeast(EngagementSum(matching), n, 0.0);
      var adjusted := base + EngagementBoost(mean) + FrequencyBoost(InteractionFrequency(|matching|));
      ClampMonotone(base - 0.15, adjusted);
    } else {
      ClampMonotone(base - 0.15, base);
    }
  }

  /**
   * With engagement scores in [0,1], the recent events move a category's
   * score at most 0.15 below and 0.35 above its unadjusted base.
   */
  lemma BoundedAdjustment(p: CustomerProfile, recent: seq<InteractionEvent>, category: string)
    requires forall k :: 0 <= k < |recent| ==> 0.0 <= recent[k].engagementScore <= 1.0
    ensures var base := Get(p.preferences, category, DefaultBase);
      Clamp(base - 0.15) <= CategoryScore(p, recent, category) <= Clamp(base + 0.35)
  {
    AdjustmentAtLeast(p, recent, category);
    AdjustmentAtMost(p, recent, category);
  }

  lemma {:induction false} CategoryEventsConcat(a: seq<InteractionEvent>, b: seq<InteractionEvent>, category: string)
    ensures CategoryEvents(a + b, category) == CategoryEvents(a, category) + CategoryEvents(b, category)
  {
    if a != [] {
      assert (a + b)[1..] == a[1..] + b;
      CategoryEventsConcat(a[1..], b, category);
    } else {
      assert a + b == b;
    }
  }

  lemma {:induction false} SumConcat(a: seq<InteractionEvent>, b: seq<InteractionEvent>)
    ensures EngagementSum(a + b) == EngagementSum(a) + EngagementSum(b)
  {
    if a != [] {
      assert (a + b)[1..] == a[1..] + b;
      SumConcat(a[1..], b);
    } else {
      assert a + b == b;
    }
  }

  lemma StatsConcat(a: seq<InteractionEvent>, b: seq<InteractionEvent>, category: string)
    ensures |CategoryEvents(a + b, category)| == |CategoryEvents(a, category)| + |CategoryEvents(b, category)|
    ensures EngagementSum(CategoryEvents(a + b, category))
         == EngagementSum(CategoryEvents(a, category)) + EngagementSum(CategoryEvents(b, category))
  {
    CategoryEventsConcat(a, b, category);
    SumConcat(CategoryEvents(a, category), CategoryEvents(b, category));
  }

  /** Taking out the k-th event splits the category statistics into its share and the rest's. */
  lemma StatsRemove(t: seq<InteractionEvent>, k: nat, category: string)
    requires k < |t|
    ensures var rest := t[..k] + t[k + 1..];
      && |CategoryEvents(t, category)| == |CategoryEvents([t[k]], category)| + |CategoryEvents(rest, category)|
      && EngagementSum(CategoryEvents(t, category))
         == EngagementSum(CategoryEvents([t[k]], category)) + EngagementSum(CategoryEvents(rest, category))
  {
    assert t == t[..k] + ([t[k]] + t[k + 1..]);
    StatsConcat(t[..k], [t[k]] + t[k + 1..], category);
    StatsConcat([t[k]], t[k + 1..], category);
    StatsConcat(t[..k], t[k + 1..], category);
  }

  lemma MultisetRemove(s: seq<InteractionEvent>, t: seq<InteractionEvent>, k: nat)
    requires s != [] && k < |t| && t[k] == s[0]
    requires multiset(s) == multiset(t)
    ensures multiset(s[1..]) == multiset(t[..k] + t[k + 1..])
  {
    var x := s[0];
    assert t == t[..k] + [x] + t[k + 1..];
    assert multiset(t) == multiset(t[..k]) + multiset{x} + multiset(t[k + 1..]);
    assert s == [x] + s[1..];
    assert multiset(s) == multiset{x} + multiset(s[1..]);
    assert multiset(t[..k] + t[k + 1..]) == multiset(t[..k]) + multiset(t[k + 1..]);
    assert multiset(s[1..]) == multiset(s) - multiset{x};
    assert multiset(t[..k]) + multiset(t[k + 1..]) == multiset(t) - multiset{x};
  }

  /** The count and the engagement total of a category depend only on the multiset of events. */
  lemma {:induction false} CategoryStatsPermutation(s: seq<InteractionEvent>, t: seq<InteractionEvent>, category: string)
    requires multiset(s) == multiset(t)
    ensures |CategoryEvents(s, category)| == |CategoryEvents(t, category)|
    ensures EngagementSum(CategoryEvents(s, category)) == EngagementSum(CategoryEvents(t, category))
    decreases |s|
  {
    if s == [] {
      assert |t| == |multiset(t)| == 0;
    } else {
      assert s[0] in multiset(t);
      var k :| 0 <= k < |t| && t[k] == s[0];
      MultisetRemove(s, t, k);
      CategoryStatsPermutation(s[1..], t[..k] + t[k + 1..], category);
      StatsRemove(t, k, category);
      assert s == [s[0]] + s[1..];
      StatsConcat([s[0]], s[1..], category);
    }
  }

  /**
   * The scores do not depend on the order of the window, only on which
   * events it holds: any reordering gives the same map.
   */
  lemma WindowOrderIrrelevant(p: CustomerProfile, s: seq<InteractionEvent>, t: seq<InteractionEvent>)
    requires multiset(s) == multiset(t)
    ensures RealTimeScores(p, s) == RealTimeScores(p, t)
  {
    forall i | 0 <= i < |ProductCategories|
      ensures CategoryScore(p, s, ProductCategories[i]) == CategoryScore(p, t, ProductCategories[i])
    {
      CategoryStatsPermutation(s, t, ProductCategories[i]);
    }
  }
}
