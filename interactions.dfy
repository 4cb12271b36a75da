/**
 * Interaction simulation (`generate_interaction_events`). Per profile the
 * Poisson draw, and per event the timestamp, the interaction type, the
 * standard exponential and standard normal draws, the event identifier and
 * the device and channel choices are inputs.
 */
module Interactions {
  import opened Numeric
  import opened Records

  /** The `segment_multiplier` table. */
  function SegmentMultiplier(s: Segment): (m: real)
    ensures 1.0 <= m <= 3.0
  {
    match s
    case Premium => 3.0
    case Gold => 2.0
    case Silver => 1.5
    case Bronze => 1.0
  }

  lemma MultiplierFollowsRank(s1: Segment, s2: Segment)
    requires Rank(s1) <= Rank(s2)
    ensures SegmentMultiplier(s1) <= SegmentMultiplier(s2)
  {
  }

  /** `poisson * segment_multiplier[segment] * behavior_score`, before `int()`. */
  function ExpectedCount(poisson: nat, segment: Segment, behaviorScore: real): real
  {
    poisson as real * SegmentMultiplier(segment) * behaviorScore
  }

  /**
   * `int(poisson * segment_multiplier[segment] * behavior_score)`, as the
   * number of iterations `range` makes of it.
   */
  function InteractionCount(poisson: nat, segment: Segment, behaviorScore: real): nat
  {
    RangeLength(PyInt(ExpectedCount(poisson, segment, behaviorScore)))
  }

  /** The expected count has the sign of the score. */
  lemma ExpectedCountSign(poisson: nat, segment: Segment, behaviorScore: real)
    ensures behaviorScore >= 0.0 ==> ExpectedCount(poisson, segment, behaviorScore) >= 0.0
    ensures behaviorScore <= 0.0 ==> ExpectedCount(poisson, segment, behaviorScore) <= 0.0
  {
    SignOfProduct(poisson as real, SegmentMultiplier(segment), behaviorScore);
  }

  /**
   * The count is the whole part of the expected number of interactions; a
   * score of zero or below gives none.
   */
  lemma CountTruncates(poisson: nat, segment: Segment, behaviorScore: real)
    ensures var n := InteractionCount(poisson, segment, behaviorScore);
      var x := ExpectedCount(poisson, segment, behaviorScore);
      && (behaviorScore >= 0.0 ==> n as real <= x < n as real + 1.0)
      && (behaviorScore <= 0.0 ==> n == 0)
  {
    ExpectedCountSign(poisson, segment, behaviorScore);
    TruncatedCount(ExpectedCount(poisson, segment, behaviorScore));
  }

  lemma SignOfProduct(p: real, m: real, b: real)
    requires p >= 0.0 && m >= 0.0
    ensures b >= 0.0 ==> p * m * b >= 0.0
    ensures b <= 0.0 ==> p * m * b <= 0.0
  {
    MulNonnegative(p, m);
    if b >= 0.0 {
      MulNonnegative(p * m, b);
    } else {
      MulMonotone(p * m, b, 0.0);
    }
  }

  lemma ProductFollowsMultiplier(p: real, m1: real, m2: real, b: real)
    requires p >= 0.0 && b >= 0.0 && m1 <= m2
    ensures p * m1 * b <= p * m2 * b
  {
    MulMonotone(p, m1, m2);
    var lo, hi := p * m1, p * m2;
    MulMonotoneRight(b, lo, hi);
    assert lo * b <= hi * b;
  }

  /** With the same Poisson draw and a non-negative score, a higher tier expects no fewer interactions. */
  lemma ExpectedCountFollowsRank(poisson: nat, s1: Segment, s2: Segment, behaviorScore: real)
    requires Rank(s1) <= Rank(s2) && behaviorScore >= 0.0
    ensures ExpectedCount(poisson, s1, behaviorScore) <= ExpectedCount(poisson, s2, behaviorScore)
  {
    MultiplierFollowsRank(s1, s2);
    ProductFollowsMultiplier(poisson as real, SegmentMultiplier(s1), SegmentMultiplier(s2), behaviorScore);
  }

  lemma ScaledProductBound(p: real, m: real, b: real)
    requires p >= 0.0 && 0.0 <= m <= 3.0 && 0.0 <= b <= 1.0
    ensures 0.0 <= p * m * b <= 3.0 * p
  {
    MulMonotone(p, m, 3.0);
    MulNonnegative(p, m);
    MulNonnegative(p * m, b);
    ScaleDown(p * m, b);
  }

  /** A score in [0,1] expects at most three interactions per unit of the Poisson draw. */
  lemma ExpectedCountBound(poisson: nat, segment: Segment, behaviorScore: real)
    requires 0.0 <= behaviorScore <= 1.0
    ensures 0.0 <= ExpectedCount(poisson, segment, behaviorScore) <= 3.0 * (poisson as real)
  {
    var p, m := poisson as real, SegmentMultiplier(segment);
    ScaledProductBound(p, m, behaviorScore);
    assert ExpectedCount(poisson, segment, behaviorScore) == p * m * behaviorScore;
  }

  /** With the same Poisson draw and score, a higher tier never produces fewer interactions. */
  lemma CountFollowsRank(poisson: nat, s1: Segment, s2: Segment, behaviorScore: real)
    requires Rank(s1) <= Rank(s2) && behaviorScore >= 0.0
    ensures InteractionCount(poisson, s1, behaviorScore) <= InteractionCount(poisson, s2, behaviorScore)
  {
    ExpectedCountFollowsRank(poisson, s1, s2, behaviorScore);
    TruncatedCountMonotone(ExpectedCount(poisson, s1, behaviorScore), ExpectedCount(poisson, s2, behaviorScore));
  }

  /** A score in [0,1] yields at most three interactions per unit of the Poisson draw. */
  lemma CountBound(poisson: nat, segment: Segment, behaviorScore: real)
    requires 0.0 <= behaviorScore <= 1.0
    ensures InteractionCount(poisson, segment, behaviorScore) <= 3 * poisson
  {
    ExpectedCountBound(poisson, segment, behaviorScore);
    TruncatedAtMostTriple(ExpectedCount(poisson, segment, behaviorScore), poisson);
  }

  /**
   * `max(category_prefs, key=category_prefs.get)` where `category_prefs` keeps
   * the items of `prefs` whose key is a product category: the index in
   * `prefs` of the first item among those with the largest value, or None
   * when there is no such item (where `max` raises on an empty dict). The
   * filter and the scan are fused; `max` replaces its candidate only on a
   * strictly larger value, so the first maximal item wins.
   */
  function BestCategory(prefs: Dict): (r: Option<nat>)
    ensures r.None? <==> forall j :: 0 <= j < |prefs| ==> prefs[j].key !in ProductCategories
    ensures r.Some? ==> r.value < |prefs| && prefs[r.value].key in ProductCategories
    ensures r.Some? ==> forall j :: 0 <= j < |prefs| && prefs[j].key in ProductCategories ==>
      prefs[j].value <= prefs[r.value].value
    ensures r.Some? ==> forall j :: 0 <= j < r.value && prefs[j].key in ProductCategories ==>
      prefs[j].value < prefs[r.value].value
    decreases |prefs|
  {
    if prefs == [] then None
    else
      var last := |prefs| - 1;
      var best := BestCategory(prefs[..last]);
      if prefs[last].key !in ProductCategories then best
      else if best.None? || prefs[last].value > prefs[best.value].value then Some(last)
      else best
  }

  /** A profile that holds a product category among its preferences always gets a content category. */
  lemma BestCategoryExists(prefs: Dict, c: string)
    requires c in ProductCategories && HasKey(prefs, c)
    ensures BestCategory(prefs).Some?
  {
  }

  /** The content category of every event of a profile, or the error `max` raises. */
  function ContentCategory(p: CustomerProfile): Result<string>
  {
    match BestCategory(p.preferences)
    case None => Err(NoCategoryPreference(p.customerId))
    case Some(i) => Ok(p.preferences[i].key)
  }

  /** The draws of one event; `durationDraw` is a standard exponential draw and `noiseZ` a standard normal one. */
  datatype EventDraws = EventDraws(
    eventId: string,
    timestamp: int,
    interactionType: InteractionType,
    durationDraw: real,
    noiseZ: real,
    deviceType: DeviceType,
    channel: Channel)

  /** The draws of one profile: the Poisson draw and enough event draws for the count it leads to. */
  datatype CustomerEventDraws = CustomerEventDraws(poisson: nat, events: seq<EventDraws>)

  function Count(p: CustomerProfile, d: CustomerEventDraws): nat
  {
    InteractionCount(d.poisson, p.segment, p.behaviorScore)
  }

  predicate EnoughDraws(p: CustomerProfile, d: CustomerEventDraws)
  {
    |d.events| >= Count(p, d)
  }

  /**
   * One event: duration `max(1, exponential(30))`, engagement
   * `min(1.0, behavior_score + normal(0, 0.1))` (capped above only).
   */
  function MakeEvent(p: CustomerProfile, category: string, d: EventDraws): InteractionEvent
  {
    InteractionEvent(
      d.eventId, p.customerId, d.timestamp, d.interactionType, category,
      Max(1.0, 30.0 * d.durationDraw),
      Min(1.0, p.behaviorScore + 0.1 * d.noiseZ),
      d.deviceType, d.channel)
  }

  /** The first `n` events of a profile whose content category is `category`. */
  function EventRun(p: CustomerProfile, category: string, ds: seq<EventDraws>, n: nat): (es: seq<InteractionEvent>)
    requires n <= |ds|
    ensures |es| == n
  {
    seq(n, k requires 0 <= k < n => MakeEvent(p, category, ds[k]))
  }

  lemma EventRunStep(p: CustomerProfile, category: string, ds: seq<EventDraws>, n: nat)
    requires n < |ds|
    ensures EventRun(p, category, ds, n + 1) == EventRun(p, category, ds, n) + [MakeEvent(p, category, ds[n])]
  {
  }

  /** The events of one profile; only a profile with at least one event evaluates `max`. */
  function ProfileEvents(p: CustomerProfile, d: CustomerEventDraws): Result<seq<InteractionEvent>>
    requires EnoughDraws(p, d)
  {
    var n := Count(p, d);
    if n == 0 then Ok([])
    else match ContentCategory(p)
      case Err(e) => Err(e)
      case Ok(c) => Ok(EventRun(p, c, d.events, n))
  }

  lemma ProfileEventsCases(p: CustomerProfile, d: CustomerEventDraws)
    requires EnoughDraws(p, d)
    ensures Count(p, d) == 0 ==> ProfileEvents(p, d) == Ok([])
    ensures Count(p, d) > 0 && ContentCategory(p).Err? ==> ProfileEvents(p, d) == Err(ContentCategory(p).error)
    ensures Count(p, d) > 0 && ContentCategory(p).Ok? ==>
      ProfileEvents(p, d) == Ok(EventRun(p, ContentCategory(p).value, d.events, Count(p, d)))
  {
  }

  predicate EventDrawsFor(profiles: seq<CustomerProfile>, draws: seq<CustomerEventDraws>)
  {
    |draws| == |profiles| && forall i :: 0 <= i < |profiles| ==> EnoughDraws(profiles[i], draws[i])
  }

  /** All events, profile after profile; the first profile that fails stops the run. */
  function AllEvents(profiles: seq<CustomerProfile>, draws: seq<CustomerEventDraws>): Result<seq<InteractionEvent>>
    requires EventDrawsFor(profiles, draws)
    decreases |profiles|
  {
    if profiles == [] then Ok([])
    else
      var last := |profiles| - 1;
      match AllEvents(profiles[..last], draws[..last])
      case Err(e) => Err(e)
      case Ok(es) =>
        match ProfileEvents(profiles[last], draws[last])
        case Err(e) => Err(e)
        case Ok(more) => Ok(es + more)
  }

  function TotalCount(profiles: seq<CustomerProfile>, draws: seq<CustomerEventDraws>): nat
    requires |draws| == |profiles|
    decreases |profiles|
  {
    if profiles == [] then 0
    else
      var last := |profiles| - 1;
      TotalCount(profiles[..last], draws[..last]) + Count(profiles[last], draws[last])
  }

  /** The category `c` is a product category and the first of the maximal category preferences in `prefs`. */
  ghost predicate IsBestCategory(prefs: Dict, c: string)
  {
    exists i :: 0 <= i < |prefs| && prefs[i].key == c && c in ProductCategories &&
      (forall j :: 0 <= j < |prefs| && prefs[j].key in ProductCategories ==> prefs[j].value <= prefs[i].value) &&
      (forall j :: 0 <= j < i && prefs[j].key in ProductCategories ==> prefs[j].value < prefs[i].value)
  }

  /** What every event of profile `p` satisfies. */
  ghost predicate EventOf(p: CustomerProfile, e: InteractionEvent)
  {
    && e.customerId == p.customerId
    && IsBestCategory(p.preferences, e.contentCategory)
    && e.engagementDuration >= 1.0
    && e.engagementScore <= 1.0
  }

  lemma ProfileEventsFacts(p: CustomerProfile, d: CustomerEventDraws)
    requires EnoughDraws(p, d)
    ensures ProfileEvents(p, d).Err? <==> Count(p, d) > 0 && BestCategory(p.preferences).None?
    ensures ProfileEvents(p, d).Err? ==> ProfileEvents(p, d).error == NoCategoryPreference(p.customerId)
    ensures ProfileEvents(p, d).Ok? ==> |ProfileEvents(p, d).value| == Count(p, d)
    ensures ProfileEvents(p, d).Ok? ==> forall k :: 0 <= k < |ProfileEvents(p, d).value| ==> EventOf(p, ProfileEvents(p, d).value[k])
  {
    if Count(p, d) > 0 && BestCategory(p.preferences).Some? {
      var i := BestCategory(p.preferences).value;
      assert IsBestCategory(p.preferences, p.preferences[i].key);
    }
  }

  /** One more profile: its events are appended, or its error ends the run. */
  lemma AllEventsStep(profiles: seq<CustomerProfile>, draws: seq<CustomerEventDraws>, i: nat)
    requires EventDrawsFor(profiles, draws) && i < |profiles|
    ensures EventDrawsFor(profiles[..i], draws[..i]) && EventDrawsFor(profiles[..i + 1], draws[..i + 1])
    ensures AllEvents(profiles[..i + 1], draws[..i + 1]) ==
      match AllEvents(profiles[..i], draws[..i])
      case Err(e) => Err(e)
      case Ok(es) =>
        match ProfileEvents(profiles[i], draws[i])
        case Err(e) => Err(e)
        case Ok(more) => Ok(es + more)
  {
    assert profiles[..i + 1][..i] == profiles[..i];
    assert draws[..i + 1][..i] == draws[..i];
  }

  /** Every profile with at least one event holds a product-category preference. */
  predicate AllCategorised(profiles: seq<CustomerProfile>, draws: seq<CustomerEventDraws>)
    requires |draws| == |profiles|
  {
    forall i :: 0 <= i < |profiles| && Count(profiles[i], draws[i]) > 0 ==> BestCategory(profiles[i].preferences).Some?
  }

  lemma AllCategorisedStep(profiles: seq<CustomerProfile>, draws: seq<CustomerEventDraws>)
    requires |draws| == |profiles| && profiles != []
    ensures var last := |profiles| - 1;
      AllCategorised(profiles, draws) <==>
        AllCategorised(profiles[..last], draws[..last]) &&
        (Count(profiles[last], draws[last]) > 0 ==> BestCategory(profiles[last].preferences).Some?)
  {
    var last := |profiles| - 1;
    assert forall i :: 0 <= i < last ==> profiles[..last][i] == profiles[i] && draws[..last][i] == draws[i];
  }

  /**
   * The run fails exactly when some profile with at least one event has no
   * product-category preference.
   */
  lemma {:induction false} AllEventsOk(profiles: seq<CustomerProfile>, draws: seq<CustomerEventDraws>)
    requires EventDrawsFor(profiles, draws)
    ensures AllEvents(profiles, draws).Ok? <==> AllCategorised(profiles, draws)
    decreases |profiles|
  {
    if profiles != [] {
      var last := |profiles| - 1;
      AllEventsOk(profiles[..last], draws[..last]);
      ProfileEventsFacts(profiles[last], draws[last]);
      AllCategorisedStep(profiles, draws);
    }
  }

  /** A failed run names one of the profiles. */
  lemma {:induction false} AllEventsError(profiles: seq<CustomerProfile>, draws: seq<CustomerEventDraws>)
    requires EventDrawsFor(profiles, draws)
    ensures AllEvents(profiles, draws).Err? ==>
      exists i :: 0 <= i < |profiles| && AllEvents(profiles, draws).error == NoCategoryPreference(profiles[i].customerId)
    decreases |profiles|
  {
    if profiles != [] {
      var last := |profiles| - 1;
      AllEventsError(profiles[..last], draws[..last]);
      ProfileEventsFacts(profiles[last], draws[last]);
      if AllEvents(profiles[..last], draws[..last]).Err? {
        var i :| 0 <= i < last && AllEvents(profiles[..last], draws[..last]).error == NoCategoryPreference(profiles[..last][i].customerId);
        assert profiles[..last][i] == profiles[i];
      }
    }
  }

  /** A successful run yields as many events as the per-profile counts add up to. */
  lemma {:induction false} AllEventsLength(profiles: seq<CustomerProfile>, draws: seq<CustomerEventDraws>)
    requires EventDrawsFor(profiles, draws)
    ensures AllEvents(profiles, draws).Ok? ==> |AllEvents(profiles, draws).value| == TotalCount(profiles, draws)
    decreases |profiles|
  {
    if profiles != [] {
      var last := |profiles| - 1;
      AllEventsLength(profiles[..last], draws[..last]);
      ProfileEventsFacts(profiles[last], draws[last]);
    }
  }

  /** The event `e` is an event of one of the profiles. */
  ghost predicate BelongsTo(profiles: seq<CustomerProfile>, e: InteractionEvent)
  {
    exists i :: 0 <= i < |profiles| && EventOf(profiles[i], e)
  }

  lemma BelongsToPrefix(profiles: seq<CustomerProfile>, n: nat, e: InteractionEvent)
    requires n <= |profiles| && BelongsTo(profiles[..n], e)
    ensures BelongsTo(profiles, e)
  {
    var i :| 0 <= i < n && EventOf(profiles[..n][i], e);
    assert profiles[..n][i] == profiles[i];
  }

  lemma BelongsToMember(profiles: seq<CustomerProfile>, i: nat, e: InteractionEvent)
    requires i < |profiles| && EventOf(profiles[i], e)
    ensures BelongsTo(profiles, e)
  {
  }

  /**
   * Every event of a successful run belongs to one of the profiles and
   * carries that profile's best category.
   */
  lemma {:induction false} AllEventsBelong(profiles: seq<CustomerProfile>, draws: seq<CustomerEventDraws>)
    requires EventDrawsFor(profiles, draws)
    ensures AllEvents(profiles, draws).Ok? ==> forall k :: 0 <= k < |AllEvents(profiles, draws).value| ==>
      BelongsTo(profiles, AllEvents(profiles, draws).value[k])
    decreases |profiles|
  {
    if profiles != [] {
      var last := |profiles| - 1;
      var ps, ds := profiles[..last], draws[..last];
      AllEventsBelong(ps, ds);
      ProfileEventsFacts(profiles[last], draws[last]);
      var r := AllEvents(profiles, draws);
      if r.Ok? {
        var es, more := AllEvents(ps, ds).value, ProfileEvents(profiles[last], draws[last]).value;
        assert r.value == es + more;
        forall k | 0 <= k < |r.value| ensures BelongsTo(profiles, r.value[k]) {
          if k < |es| {
            assert r.value[k] == es[k];
            BelongsToPrefix(profiles, last, es[k]);
          } else {
            assert r.value[k] == more[k - |es|];
            BelongsToMember(profiles, last, r.value[k]);
          }
        }
      }
    }
  }

  /** Profiles that each hold a product-category preference never make the run fail. */
  lemma NoErrorForWellFormed(profiles: seq<CustomerProfile>, draws: seq<CustomerEventDraws>)
    requires EventDrawsFor(profiles, draws)
    requires forall i :: 0 <= i < |profiles| ==> exists c :: c in ProductCategories && HasKey(profiles[i].preferences, c)
    ensures AllEvents(profiles, draws).Ok?
  {
    AllEventsOk(profiles, draws);
    forall i | 0 <= i < |profiles| ensures BestCategory(profiles[i].preferences).Some? {
      var c :| c in ProductCategories && HasKey(profiles[i].preferences, c);
      BestCategoryExists(profiles[i].preferences, c);
    }
  }

  lemma {:induction false} ErrorPropagates(profiles: seq<CustomerProfile>, draws: seq<CustomerEventDraws>, k: nat)
    requires EventDrawsFor(profiles, draws) && k <= |profiles|
    requires AllEvents(profiles[..k], draws[..k]).Err?
    ensures AllEvents(profiles, draws) == AllEvents(profiles[..k], draws[..k])
    decreases |profiles| - k
  {
    if k < |profiles| {
      var last := |profiles| - 1;
      assert profiles[..last][..k] == profiles[..k];
      assert draws[..last][..k] == draws[..k];
      ErrorPropagates(profiles[..last], draws[..last], k);
    } else {
      assert profiles[..k] == profiles;
      assert draws[..k] == draws;
    }
  }

  /**
   * The inner loop of `generate_interaction_events` for one profile: `num`
   * events, each evaluating the content category anew.
   */
  method GenerateProfileEvents(profile: CustomerProfile, d: CustomerEventDraws) returns (r: Result<seq<InteractionEvent>>)
    requires EnoughDraws(profile, d)
    ensures r == ProfileEvents(profile, d)
  {
    var num := InteractionCount(d.poisson, profile.segment, profile.behaviorScore);
    var events: seq<InteractionEvent> := [];
    for j := 0 to num
      invariant j == 0 ==> events == []
      invariant j > 0 ==> ContentCategory(profile).Ok?
      invariant j > 0 ==> events == EventRun(profile, ContentCategory(profile).value, d.events, j)
    {
      var category := ContentCategory(profile);
      if category.Err? {
        ProfileEventsCases(profile, d);
        return Err(category.error);
      }
      var event := MakeEvent(profile, category.value, d.events[j]);
      events := events + [event];
      EventRunStep(profile, category.value, d.events, j);
    }
    ProfileEventsCases(profile, d);
    r := Ok(events);
  }

  /** `generate_interaction_events`: the events of every profile, appended in order. */
  method GenerateInteractionEvents(profiles: seq<CustomerProfile>, draws: seq<CustomerEventDraws>)
    returns (r: Result<seq<InteractionEvent>>)
    requires EventDrawsFor(profiles, draws)
    ensures r == AllEvents(profiles, draws)
  {
    var events: seq<InteractionEvent> := [];
    for i := 0 to |profiles|
      invariant EventDrawsFor(profiles[..i], draws[..i])
      invariant AllEvents(profiles[..i], draws[..i]) == Ok(events)
    {
      AllEventsStep(profiles, draws, i);
      var more := GenerateProfileEvents(profiles[i], draws[i]);
      if more.Err? {
        ErrorPropagates(profiles, draws, i + 1);
        return Err(more.error);
      }
      events := events + more.value;
    }
    assert profiles[..|profiles|] == profiles;
    assert draws[..|draws|] == draws;
    r := Ok(events);
  }
}
