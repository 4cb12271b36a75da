/**
 * The pipeline (`simulate_real_time_pipeline`): for each profile, its most
 * recent interactions are scored and ranked, and the recommendations are
 * appended to one flat table.
 */
module Pipeline {
  import opened Numeric
  import opened Records
  import opened Sorting
  import opened Scoring
  import opened Ranking

  /** `.head(50)`. */
  const WindowSize: nat := 50

  /** The default `num_recommendations` the pipeline relies on. */
  const DefaultRecommendations: int := 5

  function TimestampOf(e: InteractionEvent): real
  {
    e.timestamp as real
  }

  /** `interactions_df[interactions_df['customer_id'] == customer_id]`. */
  function CustomerEvents(events: seq<InteractionEvent>, customerId: string): (r: seq<InteractionEvent>)
    ensures forall k :: 0 <= k < |r| ==> r[k].customerId == customerId
    ensures multiset(r) <= multiset(events)
    ensures forall e :: e in events && e.customerId == customerId ==> e in r
  {
    if events == [] then []
    else
      var rest := CustomerEvents(events[1..], customerId);
      assert events == [events[0]] + events[1..];
      if events[0].customerId == customerId then [events[0]] + rest else rest
  }

  /** The filter keeps every event of the customer as many times as the input holds it, and no other. */
  lemma {:induction false} CustomerEventsCount(events: seq<InteractionEvent>, customerId: string)
    ensures forall e :: multiset(CustomerEvents(events, customerId))[e]
                        == (if e.customerId == customerId then multiset(events)[e] else 0)
  {
    if events != [] {
      CustomerEventsCount(events[1..], customerId);
      assert events == [events[0]] + events[1..];
    }
  }

  /** `.sort_values('timestamp', ascending=False).head(50)` of the customer's events. */
  function RecentWindow(events: seq<InteractionEvent>, customerId: string): seq<InteractionEvent>
  {
    PyPrefix(SortDesc(CustomerEvents(events, customerId), TimestampOf), WindowSize)
  }

  /** Cutting a sorted customer list to the window splits its multiset into the kept and the dropped events. */
  lemma WindowSplit(events: seq<InteractionEvent>, customerId: string)
    ensures var mine := CustomerEvents(events, customerId);
      var sorted := SortDesc(mine, TimestampOf);
      var w := RecentWindow(events, customerId);
      && sorted == w + sorted[|w|..]
      && multiset(mine) == multiset(w) + multiset(sorted[|w|..])
  {
    var mine := CustomerEvents(events, customerId);
    var sorted := SortDesc(mine, TimestampOf);
    var w := RecentWindow(events, customerId);
    SortPermutes(mine, TimestampOf);
    assert sorted == w + sorted[|w|..];
  }

  /**
   * The window holds at most 50 events, all of this customer and taken from
   * the input; it is short of 50 only when the customer has fewer events.
   */
  lemma WindowContents(events: seq<InteractionEvent>, customerId: string)
    ensures var w := RecentWindow(events, customerId);
      && |w| <= WindowSize
      && (|w| < WindowSize ==> |w| == |CustomerEvents(events, customerId)|)
      && (forall k :: 0 <= k < |w| ==> w[k].customerId == customerId)
      && multiset(w) <= multiset(events)
  {
    var mine := CustomerEvents(events, customerId);
    var w := RecentWindow(events, customerId);
    WindowSplit(events, customerId);
    assert multiset(w) <= multiset(mine);
    forall k | 0 <= k < |w| ensures w[k].customerId == customerId {
      assert w[k] in multiset(mine);
    }
  }

  /** No event of the customer left out of the window is more recent than one kept. */
  lemma WindowRecency(events: seq<InteractionEvent>, customerId: string)
    ensures var w := RecentWindow(events, customerId);
      forall e, k :: e in multiset(CustomerEvents(events, customerId)) - multiset(w) && 0 <= k < |w| ==>
        e.timestamp <= w[k].timestamp
  {
    var mine := CustomerEvents(events, customerId);
    var sorted := SortDesc(mine, TimestampOf);
    var w := RecentWindow(events, customerId);
    WindowSplit(events, customerId);
    SortSorted(mine, TimestampOf);
    PrefixIsTop(sorted, |w|, TimestampOf);
    var rest := sorted[|w|..];
    forall e: InteractionEvent, k: int | e in multiset(mine) - multiset(w) && 0 <= k < |w| ensures e.timestamp <= w[k].timestamp {
      assert e in multiset(rest);
      var j :| 0 <= j < |rest| && rest[j] == e;
      assert TimestampOf(sorted[k]) >= TimestampOf(sorted[|w| + j]);
    }
  }

  /** The per-customer draws of the ranking step: the financial product index and the clock reading. */
  datatype RankingDraws = RankingDraws(pick: nat, now: int)

  predicate ValidDraws(d: RankingDraws)
  {
    d.pick < |FinancialProducts|
  }

  function ToRow(p: CustomerProfile, rec: Recommendation): RecommendationRow
  {
    RecommendationRow(rec, p.segment, p.behaviorScore)
  }

  function RowsOf(p: CustomerProfile, recs: seq<Recommendation>): (rows: seq<RecommendationRow>)
    ensures |rows| == |recs|
  {
    seq(|recs|, i requires 0 <= i < |recs| => ToRow(p, recs[i]))
  }

  lemma RowsOfStep(p: CustomerProfile, recs: seq<Recommendation>, j: nat)
    requires j < |recs|
    ensures RowsOf(p, recs[..j + 1]) == RowsOf(p, recs[..j]) + [ToRow(p, recs[j])]
  {
  }

  /** The rows of one customer. */
  function CustomerRows(p: CustomerProfile, events: seq<InteractionEvent>, d: RankingDraws): (rows: seq<RecommendationRow>)
    requires ValidDraws(d)
  {
    RowsOf(p, Recommendations(p, RealTimeScores(p, RecentWindow(events, p.customerId)), DefaultRecommendations, d.pick, d.now))
  }

  predicate RankingDrawsFor(profiles: seq<CustomerProfile>, draws: seq<RankingDraws>)
  {
    |draws| == |profiles| && forall i :: 0 <= i < |draws| ==> ValidDraws(draws[i])
  }

  /** The blocks concatenated in order. */
  function Flatten<T>(blocks: seq<seq<T>>): seq<T>
  {
    if blocks == [] then [] else Flatten(blocks[..|blocks| - 1]) + blocks[|blocks| - 1]
  }

  lemma FlattenAppend<T>(blocks: seq<seq<T>>, b: seq<T>)
    ensures Flatten(blocks + [b]) == Flatten(blocks) + b
  {
    assert (blocks + [b])[..|blocks|] == blocks;
  }

  lemma {:induction false} FlattenLength<T>(blocks: seq<seq<T>>)
    requires forall k :: 0 <= k < |blocks| ==> |blocks[k]| == 3
    ensures |Flatten(blocks)| == 3 * |blocks|
  {
    if blocks != [] {
      FlattenLength(blocks[..|blocks| - 1]);
    }
  }

  /** With blocks of three, block `i` sits at positions `3i` to `3i + 2`. */
  lemma {:induction false} FlattenTriple<T>(blocks: seq<seq<T>>, i: nat)
    requires forall k :: 0 <= k < |blocks| ==> |blocks[k]| == 3
    requires i < |blocks|
    ensures |Flatten(blocks)| == 3 * |blocks|
    ensures Flatten(blocks)[3 * i .. 3 * i + 3] == blocks[i]
  {
    var init := blocks[..|blocks| - 1];
    FlattenLength(blocks);
    FlattenLength(init);
    if i < |init| {
      FlattenTriple(init, i);
      SliceOfConcat(Flatten(init), blocks[|init|], 3 * i, 3 * i + 3);
    } else {
      assert Flatten(blocks)[|Flatten(init)|..] == blocks[i];
    }
  }

  lemma SliceOfConcat<T>(a: seq<T>, b: seq<T>, lo: nat, hi: nat)
    requires lo <= hi <= |a|
    ensures (a + b)[lo..hi] == a[lo..hi]
  {
  }

  /** Each customer's rows, in profile order. */
  function CustomerBlocks(profiles: seq<CustomerProfile>, events: seq<InteractionEvent>, draws: seq<RankingDraws>): (blocks: seq<seq<RecommendationRow>>)
    requires RankingDrawsFor(profiles, draws)
    ensures |blocks| == |profiles|
  {
    seq(|profiles|, i requires 0 <= i < |profiles| => CustomerRows(profiles[i], events, draws[i]))
  }

  /** The whole table: the customers' rows concatenated, in profile order. */
  function AllRows(profiles: seq<CustomerProfile>, events: seq<InteractionEvent>, draws: seq<RankingDraws>): seq<RecommendationRow>
    requires RankingDrawsFor(profiles, draws)
  {
    Flatten(CustomerBlocks(profiles, events, draws))
  }

  lemma DrawsForPrefix(profiles: seq<CustomerProfile>, draws: seq<RankingDraws>, i: nat)
    requires RankingDrawsFor(profiles, draws) && i <= |profiles|
    ensures RankingDrawsFor(profiles[..i], draws[..i])
  {
  }

  lemma CustomerBlocksStep(profiles: seq<CustomerProfile>, events: seq<InteractionEvent>, draws: seq<RankingDraws>, i: nat)
    requires RankingDrawsFor(profiles, draws) && i < |profiles|
    requires RankingDrawsFor(profiles[..i], draws[..i]) && RankingDrawsFor(profiles[..i + 1], draws[..i + 1])
    ensures CustomerBlocks(profiles[..i + 1], events, draws[..i + 1])
         == CustomerBlocks(profiles[..i], events, draws[..i]) + [CustomerRows(profiles[i], events, draws[i])]
  {
    var longer := CustomerBlocks(profiles[..i + 1], events, draws[..i + 1]);
    var shorter := CustomerBlocks(profiles[..i], events, draws[..i]);
    var mine := CustomerRows(profiles[i], events, draws[i]);
    forall k | 0 <= k < i + 1 ensures longer[k] == (shorter + [mine])[k] {
      assert profiles[..i + 1][k] == profiles[k] && draws[..i + 1][k] == draws[k];
      if k < i {
        assert profiles[..i][k] == profiles[k] && draws[..i][k] == draws[k];
      }
    }
  }

  lemma AllRowsStep(profiles: seq<CustomerProfile>, events: seq<InteractionEvent>, draws: seq<RankingDraws>, i: nat)
    requires RankingDrawsFor(profiles, draws) && i < |profiles|
    ensures RankingDrawsFor(profiles[..i], draws[..i]) && RankingDrawsFor(profiles[..i + 1], draws[..i + 1])
    ensures AllRows(profiles[..i + 1], events, draws[..i + 1])
         == AllRows(profiles[..i], events, draws[..i]) + CustomerRows(profiles[i], events, draws[i])
  {
    DrawsForPrefix(profiles, draws, i);
    DrawsForPrefix(profiles, draws, i + 1);
    CustomerBlocksStep(profiles, events, draws, i);
    FlattenAppend(CustomerBlocks(profiles[..i], events, draws[..i]), CustomerRows(profiles[i], events, draws[i]));
  }

  /** One iteration of the pipeline's loop: window, score, rank and flatten one customer. */
  method CustomerPipelineRows(profile: CustomerProfile, events: seq<InteractionEvent>, d: RankingDraws)
    returns (rows: seq<RecommendationRow>)
    requires ValidDraws(d)
    ensures rows == CustomerRows(profile, events, d)
  {
    var customerInteractions := RecentWindow(events, profile.customerId);
    var realTimeScores := CalculateRealTimeScores(profile, customerInteractions);
    var recommendations := GenerateRecommendations(profile, realTimeScores, DefaultRecommendations, d.pick, d.now);
    rows := [];
    for j := 0 to |recommendations|
      invariant rows == RowsOf(profile, recommendations[..j])
    {
      RowsOfStep(profile, recommendations, j);
      rows := rows + [ToRow(profile, recommendations[j])];
    }
    assert recommendations[..|recommendations|] == recommendations;
  }

  /**
   * The pipeline's outcome. An empty event list stands for the table
   * `pd.DataFrame([])`, which has no columns, so selecting its
   * `customer_id` column for the first profile raises; with no profile the
   * loop never selects it.
   */
  function PipelineResult(profiles: seq<CustomerProfile>, events: seq<InteractionEvent>, draws: seq<RankingDraws>): (r: Result<seq<RecommendationRow>>)
    requires RankingDrawsFor(profiles, draws)
  {
    if events == [] && profiles != [] then Err(MissingColumn("customer_id"))
    else Ok(AllRows(profiles, events, draws))
  }

  /** `simulate_real_time_pipeline`. */
  method SimulateRealTimePipeline(profiles: seq<CustomerProfile>, events: seq<InteractionEvent>, draws: seq<RankingDraws>)
    returns (r: Result<seq<RecommendationRow>>)
    requires RankingDrawsFor(profiles, draws)
    ensures r == PipelineResult(profiles, events, draws)
  {
    if events == [] && profiles != [] {
      return Err(MissingColumn("customer_id"));
    }
    var rows := [];
    for i := 0 to |profiles|
      invariant RankingDrawsFor(profiles[..i], draws[..i])
      invariant rows == AllRows(profiles[..i], events, draws[..i])
    {
      var more := CustomerPipelineRows(profiles[i], events, draws[i]);
      rows := rows + more;
      AllRowsStep(profiles, events, draws, i);
    }
    assert profiles[..|profiles|] == profiles;
    assert draws[..|draws|] == draws;
    r := Ok(rows);
  }

  /**
   * The pipeline fails exactly when there are profiles but no events at
   * all; otherwise it yields three rows per profile, profile `i`'s at
   * positions `3i` to `3i + 2`.
   */
  lemma PipelineFacts(profiles: seq<CustomerProfile>, events: seq<InteractionEvent>, draws: seq<RankingDraws>)
    requires RankingDrawsFor(profiles, draws)
    ensures PipelineResult(profiles, events, draws).Err? <==> events == [] && profiles != []
    ensures PipelineResult(profiles, events, draws).Err? ==>
      PipelineResult(profiles, events, draws).error == MissingColumn("customer_id")
    ensures PipelineResult(profiles, events, draws).Ok? ==>
      && |PipelineResult(profiles, events, draws).value| == 3 * |profiles|
      && forall i :: 0 <= i < |profiles| ==>
           PipelineResult(profiles, events, draws).value[3 * i .. 3 * i + 3] == CustomerRows(profiles[i], events, draws[i])
  {
    AllRowsFacts(profiles, events, draws);
  }

  /**
   * Every customer gets exactly three rows, one per product category, each
   * carrying the customer's identifier, tier and score, with a confidence in
   * [0, 0.9] and an expected engagement of at most 0.95.
   */
  lemma CustomerRowsFacts(p: CustomerProfile, events: seq<InteractionEvent>, d: RankingDraws)
    requires ValidDraws(d)
    ensures |CustomerRows(p, events, d)| == |ProductCategories|
    ensures forall r :: r in CustomerRows(p, events, d) ==>
      && r.rec.customerId == p.customerId
      && r.customerSegment == p.segment
      && r.customerBehaviorScore == p.behaviorScore
      && 0.0 <= r.rec.confidenceScore <= 0.9
      && r.rec.expectedEngagement <= 0.95
  {
    var scores := RealTimeScores(p, RecentWindow(events, p.customerId));
    RealTimeScoresShape(p, RecentWindow(events, p.customerId));
    var top := TopScores(scores, DefaultRecommendations);
    TopScoresFacts(scores, DefaultRecommendations);
    var recs := Recommendations(p, scores, DefaultRecommendations, d.pick, d.now);
    forall k | 0 <= k < |recs| ensures 0.0 <= recs[k].confidenceScore <= 0.9 {
      assert top[k] in multiset(scores);
      ConfidenceRange(p.segment, top[k].value);
    }
  }

  lemma CustomerRowsLength(p: CustomerProfile, events: seq<InteractionEvent>, d: RankingDraws)
    requires ValidDraws(d)
    ensures |CustomerRows(p, events, d)| == 3
  {
    CustomerRowsFacts(p, events, d);
  }

  /**
   * The table has three rows per profile, and rows `3i` to `3i + 2` are the
   * i-th profile's.
   */
  lemma AllRowsFacts(profiles: seq<CustomerProfile>, events: seq<InteractionEvent>, draws: seq<RankingDraws>)
    requires RankingDrawsFor(profiles, draws)
    ensures |AllRows(profiles, events, draws)| == 3 * |profiles|
    ensures forall i :: 0 <= i < |profiles| ==>
      AllRows(profiles, events, draws)[3 * i .. 3 * i + 3] == CustomerRows(profiles[i], events, draws[i])
  {
    var blocks := CustomerBlocks(profiles, events, draws);
    forall k | 0 <= k < |blocks| ensures |blocks[k]| == 3 {
      CustomerRowsLength(profiles[k], events, draws[k]);
    }
    FlattenLength(blocks);
    forall i | 0 <= i < |profiles|
      ensures AllRows(profiles, events, draws)[3 * i .. 3 * i + 3] == CustomerRows(profiles[i], events, draws[i])
    {
      FlattenTriple(blocks, i);
    }
  }
}
