# Real-time personalization engine: a Dafny model

This project models the deterministic decision logic of
`RealTimePersonalizationEngine` (src/personalization_engine.py). The engine
does five things:

- It synthesises customer profiles: age, income, tier (`Premium`, `Gold`,
  `Silver`, `Bronze`), seven preference draws and a behaviour score.
- It simulates interaction events. Each profile gets
  `int(poisson × tier multiplier × behaviour score)` events, and every event
  is tagged with the profile's best product category.
- It scores the three product categories against a customer's 50 most recent
  interactions.
- It ranks those scores into typed recommendations with a confidence and an
  expected engagement.
- It fans every recommendation out into three A/B-test records (control,
  variant_a, variant_b).

Every random draw of the source is an input to the model:

- **Normal draws** are standard-normal values `z`, and the model applies the
  source's mean and deviation (`45 + 15z`, `0.8 + 0.1z`, …).
- **Other draws.** The log-normal income draw, the Beta preference draws, the
  Poisson count draw, the standard exponential and the uniform are inputs as
  drawn.
- **Categorical choices** (interaction type, device, channel, the financial
  product) are the chosen value or index.
- **Event identifiers and timestamps** are inputs. Timestamps are plain
  ordered integers.

Python floats are exact reals. Python's own semantics are written out
explicitly:

- `int()` truncates toward zero (`Numeric.PyInt`).
- `range(n)` runs `max(n, 0)` times (`Numeric.RangeLength`).
- A slice `s[:n]` allows a negative `n` (`Sorting.PyPrefix`).
- `max(d, key=d.get)` keeps the first maximal key (`Interactions.BestCategory`).
- `sorted(..., reverse=True)` is a stable sort into non-increasing order
  (`Sorting.SortDesc`).

Dicts are sequences of items in insertion order, because both `max` and the
stable sort depend on that order. `max()` over an empty dict raises in the
source; the model returns `Err(NoCategoryPreference(...))` instead.

The engine object has no mutable state: its constructor only seeds the global
random generators and fills constant tables. Its methods are therefore
module-level methods. The loops that build lists (profiles, events, scores,
recommendations, pipeline rows, A/B records) are `method`s, each proved equal
to a specification function. The formulas are `function`s, and lemmas state
what the source promises about them.

Modules:

- `Records`: the entities and tables.
- `Numeric`: clamps, truncation and means.
- `Decimal`: `f'{n:06d}'` and its inverse.
- `Sorting`: the stable sort.
- `Profiles`, `Interactions`, `Scoring`, `Ranking`, `Pipeline`, `ABTest`: the
  engine's stages.

Where the code and its design description disagree, the model follows the
code:

- The tier rule uses the untruncated age, while the stored age is `int(age)`.
  `Profiles.SegmentUsesUntruncatedAge` gives a draw where the two differ.
- An event's engagement score is only capped at 1 (`min(1.0, …)`); it is
  never floored at 0.
- Every category score goes through the clamp, including an unadjusted base.
- The pipeline applies no 30-day lookback filter. The window is only the 50
  most recent events.
- A test identifier is `TEST_<customer>_<variant>`. It is not unique: the
  three recommendations of a customer produce three records with the same
  identifier for each variant. `ABTest.TestIdsDiffer` states the uniqueness
  that does hold, across the variants of one row.
- The empty-preferences failure is raised only for a profile with at least
  one event, because `max` is evaluated inside the event loop.
- When no profile gets a single event, the event table is `pd.DataFrame([])`,
  which has no columns, so the pipeline's `interactions_df['customer_id']`
  raises `KeyError` on the first profile. The model returns
  `Err(MissingColumn("customer_id"))` in that case (`Pipeline.PipelineFacts`).

## Model

| member | source | states |
|---|---|---|
| Numeric.Clamp | src/personalization_engine.py:203 | `max(0, min(1, x))` lies in [0,1], is the identity on [0,1], and gives 0 below and 1 above |
| Numeric.PyInt | src/personalization_engine.py:113 | `int(x)` truncates toward zero: for x ≥ 0 it is the floor, for x < 0 the ceiling |
| Records.Get | src/personalization_engine.py:184 | `d.get(k, default)` is the default when k is absent, and otherwise a value stored under k |
| Records.GetUnique | src/personalization_engine.py:184 | in a dict without repeated keys the lookup returns the value stored under the key, wherever it sits |
| Records.GetFirst | src/personalization_engine.py:184 | the lookup returns the value of the first item with the key |
| Decimal.PaddedRoundTrip | src/personalization_engine.py:112 | parsing the zero-padded decimal of n gives n back |
| Profiles.ClampedAge | src/personalization_engine.py:79 | the age lies in [18,80] and equals the normal draw 45 + 15z whenever that already lies in [18,80] |
| Profiles.Income | src/personalization_engine.py:80 | income is at least 1000 and at least the draw, and equals the draw when that is ≥ 1000 |
| Profiles.Classify | src/personalization_engine.py:83-90 | Premium iff income > 100000 and age > 35; otherwise Gold iff income > 50000; Silver iff 25000 < income ≤ 50000; Bronze iff income ≤ 25000 |
| Profiles.ClassifyMonotone | src/personalization_engine.py:83-90 | a higher income and age never give a lower tier |
| Profiles.BehaviorScore | src/personalization_engine.py:104-109 | with the four preferences in [0,1], the weighted sum lies in [0,1] |
| Profiles.BehaviorScoreMonotone | src/personalization_engine.py:104-109 | higher digital/financial/loyalty preferences or a lower price sensitivity never lower the score |
| Profiles.PreferenceLookups | src/personalization_engine.py:93-109 | the dict returns each of the four scored draws under its own key |
| Profiles.PreferenceDict | src/personalization_engine.py:93-101 | computes the seven-item preferences dict, each draw under its own key in the source's insertion order |
| Profiles.PreferenceKeysUnique | src/personalization_engine.py:93-101 | the seven keys of the preferences dict are pairwise distinct |
| Profiles.PreferenceCategoryKeys | src/personalization_engine.py:93-101 | every product category is a key of the preferences dict |
| Profiles.CustomerId | src/personalization_engine.py:112 | computes `CUST_` followed by i + 1 zero-padded to six digits |
| Profiles.MakeProfile | src/personalization_engine.py:79-119 | computes the profile of draw i: clamped age stored truncated, income raised to at least 1000, tier from the untruncated age, the seven-key preference dict, the behaviour score and the drawn last-interaction time |
| Profiles.CustomerIdDistinct | src/personalization_engine.py:112 | `CUST_{i+1:06d}` differs for different i, with no bound on i |
| Profiles.CustomerIdNumber | src/personalization_engine.py:112 | the digits after `CUST_` parse back to i + 1 |
| Profiles.MakeProfileFacts | src/personalization_engine.py:79-119 | the stored age is the floor of the clamped age, the tier comes from the untruncated age, and draws in [0,1] give a well-formed profile (ranges, category keys, score formula, distinct keys) |
| Profiles.SegmentUsesUntruncatedAge | src/personalization_engine.py:83-113 | an age draw of 35.5 with income 200000 is stored as 35 and tiered Premium, while the rule on the stored age gives Gold |
| Profiles.GenerateCustomerProfiles | src/personalization_engine.py:73-123 | the loop yields one profile per draw, profile i built from draw i |
| Profiles.GeneratedProfilesFacts | src/personalization_engine.py:73-123 | the generated identifiers are pairwise distinct, and draws in [0,1] make every profile well formed |
| Interactions.SegmentMultiplier | src/personalization_engine.py:132 | every tier multiplier lies in [1,3] |
| Interactions.MultiplierFollowsRank | src/personalization_engine.py:132 | the multiplier never decreases with the tier: Bronze 1 ≤ Silver 1.5 ≤ Gold 2 ≤ Premium 3 |
| Interactions.ExpectedCount | src/personalization_engine.py:133-137 | computes the product poisson draw × tier multiplier × behaviour score, before truncation |
| Interactions.InteractionCount | src/personalization_engine.py:133-139 | computes the number of loop iterations `range(int(poisson × multiplier × score))` |
| Interactions.ExpectedCountSign | src/personalization_engine.py:133-137 | the product draw × multiplier × score has the sign of the behaviour score |
| Interactions.CountTruncates | src/personalization_engine.py:133-139 | the loop count n satisfies n ≤ product < n + 1 for a non-negative score, and is 0 for a non-positive one |
| Interactions.ExpectedCountFollowsRank | src/personalization_engine.py:132-137 | for the same draw and a non-negative score, a higher tier expects no fewer events |
| Interactions.CountFollowsRank | src/personalization_engine.py:132-139 | for the same draw and a non-negative score, a higher tier never produces fewer events |
| Interactions.ExpectedCountBound | src/personalization_engine.py:133-137 | a score in [0,1] gives a product in [0, 3 × draw] |
| Interactions.CountBound | src/personalization_engine.py:133-139 | a score in [0,1] gives at most 3 × draw events |
| Interactions.BestCategory | src/personalization_engine.py:153-155 | None iff no key is a product category; otherwise a product-category index whose value is maximal and strictly above every earlier product-category value (first maximum wins) |
| Interactions.ContentCategory | src/personalization_engine.py:153-155 | computes the key of the best category, or the error `max` raises on an empty filtered dict |
| Interactions.EventRun | src/personalization_engine.py:139-173 | computes the n events of one profile's loop, event k built from draw k, all with the same category |
| Interactions.MakeEvent | src/personalization_engine.py:140-171 | computes one event: the drawn id, time, type, device and channel, the profile's id, the category, duration `max(1, 30e)` and engagement `min(1, score + 0.1z)` |
| Interactions.AllEvents | src/personalization_engine.py:130-175 | computes all events, profile after profile, stopping at the first profile whose `max` fails |
| Interactions.BestCategoryExists | src/personalization_engine.py:153-155 | a dict holding some product category always yields a category |
| Interactions.ProfileEvents | src/personalization_engine.py:133-173 | computes one profile's events: none when the count is 0, else the `max` error, else `count` events of the best category |
| Interactions.ProfileEventsFacts | src/personalization_engine.py:139-172 | a profile fails iff it has events and no product-category preference; otherwise it yields exactly `count` events, each with the profile's id, its best category, duration ≥ 1 and engagement ≤ 1 |
| Interactions.AllEventsOk | src/personalization_engine.py:130-175 | the run succeeds iff every profile with at least one event has a product-category preference |
| Interactions.AllEventsError | src/personalization_engine.py:130-175 | a failed run reports the identifier of one of the profiles |
| Interactions.AllEventsLength | src/personalization_engine.py:130-175 | a successful run has as many events as the per-profile counts add up to |
| Interactions.AllEventsBelong | src/personalization_engine.py:130-175 | every event belongs to some profile and carries that profile's best category, duration ≥ 1 and engagement ≤ 1 |
| Interactions.NoErrorForWellFormed | src/personalization_engine.py:153-155 | profiles that each hold some product-category preference never make the run fail |
| Interactions.ErrorPropagates | src/personalization_engine.py:130-175 | once a prefix of the profiles fails, the whole run fails with the same error |
| Interactions.GenerateProfileEvents | src/personalization_engine.py:133-173 | the inner loop returns exactly the profile's events, or the `max` error |
| Interactions.GenerateInteractionEvents | src/personalization_engine.py:125-175 | the outer loop returns exactly the profiles' events in profile order, or the first error |
| Scoring.CategoryEvents | src/personalization_engine.py:187-189 | the filter keeps only events of the category, all drawn from the window, and every such event of the window |
| Scoring.CategoryEventsCount | src/personalization_engine.py:187-193 | each event of the category is kept exactly as many times as the window holds it, and no other event is kept, so `len(...)` is the number of matching rows |
| Scoring.EngagementSum | src/personalization_engine.py:192 | computes the total engagement of the category's events, the numerator of `.mean()` |
| Scoring.SumAtLeast | src/personalization_engine.py:192 | non-negative engagement scores give a non-negative total |
| Scoring.SumAtMost | src/personalization_engine.py:192 | engagement scores of at most 1 give a total of at most the number of events |
| Scoring.InteractionFrequency | src/personalization_engine.py:193 | computes the count of the category's recent events divided by 30 |
| Scoring.EngagementBoost | src/personalization_engine.py:196 | non-negative for a mean ≥ 0.5, non-positive for a mean ≤ 0.5, and in [-0.15, 0.15] for a mean in [0,1] |
| Scoring.FrequencyBoost | src/personalization_engine.py:197 | at most 0.2, non-negative for a non-negative frequency, frequency × 0.1 up to frequency 2 and 0.2 from there |
| Scoring.FrequencyCapInactive | src/personalization_engine.py:193-197 | with at most 50 events the boost is count/300, strictly below its 0.2 cap |
| Scoring.CategoryScore | src/personalization_engine.py:183-203 | every category score lies in [0,1], whatever the base, engagement and frequency |
| Scoring.RealTimeScores | src/personalization_engine.py:180-205 | the score map has one item per product category |
| Scoring.CalculateRealTimeScores | src/personalization_engine.py:177-205 | the loop fills exactly the score map, category by category |
| Scoring.RealTimeScoresShape | src/personalization_engine.py:183-205 | the map's keys are exactly the three product categories in order, with every score in [0,1] |
| Scoring.Fallback | src/personalization_engine.py:184-203 | with no recent event in a category its score is the clamped base, where the base is the preference or 0.5 if it is missing |
| Scoring.EmptyWindowScores | src/personalization_engine.py:183-205 | for an empty window and preferences in [0,1], every score is the preference (0.5 if it is missing) |
| Scoring.PositiveEngagementRaises | src/personalization_engine.py:191-203 | recent events averaging at least 0.5 never lower a category below its clamped base |
| Scoring.AdjustmentAtMost | src/personalization_engine.py:191-203 | with engagement scores of at most 1, as every generated event has, the score is at most clamp(base + 0.35) |
| Scoring.AdjustmentAtLeast | src/personalization_engine.py:191-203 | with engagement scores of at least 0 the score is at least clamp(base − 0.15) |
| Scoring.BoundedAdjustment | src/personalization_engine.py:191-203 | with engagement in [0,1] the score lies between clamp(base − 0.15) and clamp(base + 0.35) |
| Scoring.CategoryStatsPermutation | src/personalization_engine.py:187-193 | a category's count and engagement total depend only on the multiset of window events |
| Scoring.WindowOrderIrrelevant | src/personalization_engine.py:187-203 | any reordering of the window gives the same score map |
| Sorting.SortDesc | src/personalization_engine.py:214 | computes the descending sort by insertion, each element placed before the first element whose key is not larger |
| Sorting.SortPermutes | src/personalization_engine.py:214 | the sorted items are a permutation of the input |
| Sorting.SortSorted | src/personalization_engine.py:214 | the sorted items are in non-increasing score order |
| Sorting.SortStable | src/personalization_engine.py:214 | equal scores keep their input order |
| Sorting.SortUnique | src/personalization_engine.py:214 | any two non-increasing sequences with the same runs of ties are equal, so sortedness plus stability fix the output |
| Sorting.PyPrefix | src/personalization_engine.py:216 | `s[:n]` is a prefix of length min(n, len) for n ≥ 0, and of len + n (at least 0) for n < 0 |
| Sorting.PrefixIsTop | src/personalization_engine.py:216 | in a sorted sequence, no element after the prefix scores above an element in it |
| Ranking.Ranked | src/personalization_engine.py:214 | ranking keeps the number of items |
| Ranking.TopScores | src/personalization_engine.py:216 | computes `sorted_categories[:num_recommendations]` |
| Ranking.TopScoresFacts | src/personalization_engine.py:214-216 | the ranked items are a sorted, stable permutation of the scores, the top items are its prefix, and no item left out scores above one kept |
| Ranking.Policy | src/personalization_engine.py:218-229 | the four rules in first-match order, each as an iff, with confidence = (0.9, 0.8, 0.7, 0.6) × score |
| Ranking.ConfidenceRange | src/personalization_engine.py:218-229 | a score in [0,1] gives a confidence in [0, 0.9] that never exceeds the score |
| Ranking.ConfidenceMonotone | src/personalization_engine.py:218-229 | a higher non-negative score never gets a lower confidence |
| Ranking.Content | src/personalization_engine.py:232-238 | computes the content string of each category's template, with the drawn product for financial_services |
| Ranking.MakeRecommendation | src/personalization_engine.py:217-250 | computes one recommendation: the customer's id, the policy's type and confidence, the content, the capped expected engagement and the clock reading |
| Ranking.ExpectedEngagement | src/personalization_engine.py:241 | at most 0.95 and at most score × behaviour × 1.2, and equal to one of the two |
| Ranking.ExpectedEngagementMonotone | src/personalization_engine.py:241 | for a non-negative behaviour score the estimate never decreases with the score |
| Ranking.Recommendations | src/personalization_engine.py:216-252 | one recommendation per top-ranked item |
| Ranking.GenerateRecommendations | src/personalization_engine.py:207-254 | the loop returns exactly the recommendations of the top-ranked items in rank order |
| Ranking.RecommendationCount | src/personalization_engine.py:216 | min(num, number of scores) items for num ≥ 0; Python's negative-slice count otherwise |
| Ranking.RecommendationsOrdered | src/personalization_engine.py:214-241 | down the list, confidence and expected engagement never rise; every estimate is ≤ 0.95; premium products go only to Premium and Gold |
| Ranking.TopTwoExample | src/personalization_engine.py:214-216 | scores 0.9/0.3/0.6 with two requested give financial_services then investment_products |
| Pipeline.CustomerEvents | src/personalization_engine.py:263-264 | the filter keeps only the customer's events, each at most as often as in the input, and every such event of the input |
| Pipeline.CustomerEventsCount | src/personalization_engine.py:263-264 | each event of the customer is kept exactly as many times as the input holds it, and no other event is kept |
| Pipeline.RecentWindow | src/personalization_engine.py:263-265 | computes the customer's events sorted by descending timestamp, cut to the first 50 |
| Pipeline.WindowSplit | src/personalization_engine.py:263-265 | the window is a prefix of the sorted customer events, and the two parts split the customer's multiset |
| Pipeline.WindowContents | src/personalization_engine.py:263-265 | at most 50 events, all of this customer and from the input, and fewer than 50 only when the customer has fewer |
| Pipeline.WindowRecency | src/personalization_engine.py:265 | no event of the customer left out of the window is more recent than one kept |
| Pipeline.PipelineResult | src/personalization_engine.py:175-287 | computes the pipeline's outcome: the missing-column error when there are profiles but no events at all (the column-less `pd.DataFrame([])` of line 175 indexed at line 263), else every customer's rows in profile order |
| Pipeline.SimulateRealTimePipeline | src/personalization_engine.py:256-287 | the loops return exactly the pipeline's outcome: the `KeyError` on an empty event table with profiles, else every customer's rows, concatenated in profile order |
| Pipeline.CustomerPipelineRows | src/personalization_engine.py:263-285 | one iteration of the loop returns exactly the customer's rows |
| Pipeline.PipelineFacts | src/personalization_engine.py:175-287 | the pipeline fails iff there are profiles and no events, with the missing `customer_id` column; otherwise it yields 3 × profiles rows with profile i's at 3i to 3i + 2 |
| Pipeline.ToRow | src/personalization_engine.py:275-284 | computes one output row: the recommendation with the profile's tier and behaviour score added |
| Pipeline.CustomerRows | src/personalization_engine.py:263-285 | computes one customer's rows: the recommendations for the scores of the 50-event window, each turned into a row |
| Pipeline.CustomerRowsFacts | src/personalization_engine.py:268-285 | every customer gets three rows, each with its id, tier and behaviour score, confidence in [0, 0.9] and expected engagement ≤ 0.95 |
| Pipeline.CustomerRowsLength | src/personalization_engine.py:268-285 | every customer contributes three rows |
| Pipeline.AllRows | src/personalization_engine.py:261-287 | computes every customer's rows concatenated in profile order |
| Pipeline.AllRowsFacts | src/personalization_engine.py:261-287 | the table has 3 × profiles rows, and rows 3i to 3i + 2 are profile i's |
| ABTest.EngagementFactor | src/personalization_engine.py:302-306 | computes the variant's normal multiplier: mean 0.8/1.0/1.2 plus spread 0.1/0.1/0.15 times the standard-normal draw |
| ABTest.ActualEngagement | src/personalization_engine.py:299-308 | the actual engagement lies in [0,1] for every variant and draw |
| ABTest.ConversionProbability | src/personalization_engine.py:311 | an engagement in [0,1] gives a conversion probability in [0, 0.3] |
| ABTest.TestId | src/personalization_engine.py:315 | computes `TEST_<customer>_<variant>` |
| ABTest.MakeRecord | src/personalization_engine.py:299-323 | computes one record: the test id, the row's customer, type, expected engagement and timestamp, the clamped actual engagement, and `u < 0.3 × actual` as the conversion |
| ABTest.GenerateABTestData | src/personalization_engine.py:289-327 | 3 × rows records, where record k is variant k mod 3 of row k div 3 |
| ABTest.RecordFacts | src/personalization_engine.py:299-323 | a record keeps its row's customer, type and expected engagement, has an actual engagement in [0,1] and a conversion probability ≤ 0.3, and converts iff the uniform draw is below it |
| ABTest.FanOut | src/personalization_engine.py:293-325 | row i becomes records 3i, 3i + 1, 3i + 2, for control, variant_a and variant_b |
| ABTest.ActualMonotone | src/personalization_engine.py:299-308 | a larger variant multiplier never gives a lower actual engagement |
| ABTest.FactorOrder | src/personalization_engine.py:301-306 | at the same quantile z of each variant's normal draw: the control multiplier ≤ variant_a's; variant_a's ≤ variant_b's iff z ≥ −4 |
| ABTest.UpliftOrder | src/personalization_engine.py:299-308 | at the same quantile z of each variant's normal draw: control never beats variant_a, and variant_a never beats variant_b unless z < −4 |
| ABTest.TestIdsDiffer | src/personalization_engine.py:315 | the three variants of one row have different test identifiers |

## Left out

- Random generation itself is not modelled: the seeding (lines 41-42), the distribution shapes and `uuid.uuid4`. Every draw is an input.
- The choice of Beta shape by age and income (lines 95-98) selects a distribution. It is absent because a model with draws as inputs cannot observe it.
- The categorical weights of the interaction type, device and channel (lines 147-150, 169-170) are not modelled. The chosen value is an input.
- `datetime.now()` and the timestamp offsets (lines 118, 140-144, 249) are not modelled. Timestamps are input integers; the engine's logic only compares event timestamps, in the 50-most-recent window.
- Interactions.GenerateInteractionEvents: the `days_back` parameter is dropped with the timestamp offsets. So the `ValueError` that `np.random.randint(0, days_back)` (line 141) raises for `days_back <= 0`, as soon as some profile has an event, is not modelled.
- `round(…, 2)` and `round(…, 3)` (lines 167-168, 247-248, 320) are left out; the model keeps exact reals. Conversion is tested against the unrounded engagement, as the source does.
- NaN, infinities and other floating-point effects are out of scope, because values are exact reals.
- pandas' `sort_values` (line 265) does not promise a stable order for equal timestamps. The model uses the stable sort. `Scoring.WindowOrderIrrelevant` shows that the scores do not depend on the order inside the window. The unstable sort can still choose differently which tied events fall at the 50th position.
- Dicts are sequences of items. Every dict the engine builds has distinct keys (`Profiles.WellFormed` includes `UniqueKeys`, proved for every generated profile); the lookups and `max` are not claimed to agree on a dict with repeated keys, which Python cannot build.
- The DataFrame layer (construction, boolean indexing, `iterrows`) is represented as sequences of records. Its one visible effect, the column-less table built from no rows, is modelled as the pipeline's missing-column error.
- A recommendation row stores the recommendation and its customer's tier and score. It does not repeat the flattened dict keys.
- The `__main__` block (lines 329 onward) is only I/O and prints.
- The unused constant tables `content_types`, `behavior_patterns` and `engagement_factors` (lines 44-71) are not modelled.
- Interactions.GenerateInteractionEvents: the source draws on demand. The model instead requires each profile's draws to contain at least as many event draws as its count (`EnoughDraws`), which only says that enough inputs were supplied.
- Ranking.GenerateRecommendations: the product drawn at line 234 is a single index per call. This is exact, because a score map holds `financial_services` at most once per call.
- Ranking.GenerateRecommendations: one clock reading per call stands for the separate `datetime.now()` of each recommendation (line 249), so a customer's recommendations share one timestamp.
- ABTest.GenerateABTestData requires exactly three draws per row, which only says that the inputs were supplied.
