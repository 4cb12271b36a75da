/**
 * Profile synthesis (`generate_customer_profiles`): demographics, the tier
 * rule, the preference dict and the behaviour score. The random draws are
 * inputs: the standard-normal draw for age, the log-normal income draw, the
 * seven Beta draws and the last-interaction timestamp.
 */
module Profiles {
  import opened Numeric
  import opened Records
  import opened Decimal

  /** The seven Beta draws, one per preference dimension. */
  datatype PreferenceDraws = PreferenceDraws(
    financialServices: real,
    digitalBanking: real,
    investmentProducts: real,
    riskTolerance: real,
    techSavviness: real,
    priceSensitivity: real,
    brandLoyalty: real)

  /** Everything one profile draws: `ageZ` is a standard-normal draw, so the age draw is `45 + 15 * ageZ`. */
  datatype ProfileDraws = ProfileDraws(
    ageZ: real,
    incomeDraw: real,
    preferences: PreferenceDraws,
    lastInteraction: int)

  /** `max(18, min(80, np.random.normal(45, 15)))`, before it is truncated for storage. */
  function ClampedAge(ageZ: real): (age: real)
    ensures 18.0 <= age <= 80.0
    ensures 18.0 <= 45.0 + 15.0 * ageZ <= 80.0 ==> age == 45.0 + 15.0 * ageZ
  {
    Max(18.0, Min(80.0, 45.0 + 15.0 * ageZ))
  }

  /** `max(1000, np.random.lognormal(10, 0.8))`. */
  function Income(draw: real): (income: real)
    ensures income >= 1000.0 && income >= draw
    ensures draw >= 1000.0 ==> income == draw
  {
    Max(1000.0, draw)
  }

  /** The tier rule: thresholds tried in a fixed order, the first that holds wins. */
  function Classify(income: real, age: real): (s: Segment)
    ensures s == Premium <==> income > 100000.0 && age > 35.0
    ensures s == Gold <==> !(income > 100000.0 && age > 35.0) && income > 50000.0
    ensures s == Silver <==> income <= 50000.0 && income > 25000.0
    ensures s == Bronze <==> income <= 25000.0
  {
    if income > 100000.0 && age > 35.0 then Premium
    else if income > 50000.0 then Gold
    else if income > 25000.0 then Silver
    else Bronze
  }

  /** A richer or older customer is never put in a lower tier. */
  lemma ClassifyMonotone(income1: real, age1: real, income2: real, age2: real)
    requires income1 <= income2 && age1 <= age2
    ensures Rank(Classify(income1, age1)) <= Rank(Classify(income2, age2))
  {
  }

  /** The fixed weighted sum of four preference dimensions. */
  function BehaviorScore(digitalBanking: real, financialServices: real, priceSensitivity: real, brandLoyalty: real): (b: real)
    ensures (0.0 <= digitalBanking <= 1.0 && 0.0 <= financialServices <= 1.0 &&
             0.0 <= priceSensitivity <= 1.0 && 0.0 <= brandLoyalty <= 1.0) ==> 0.0 <= b <= 1.0
  {
    digitalBanking * 0.3 + financialServices * 0.3 + (1.0 - priceSensitivity) * 0.2 + brandLoyalty * 0.2
  }

  /** Raising a favourable preference, or lowering price sensitivity, never lowers the score. */
  lemma BehaviorScoreMonotone(d1: real, f1: real, p1: real, b1: real, d2: real, f2: real, p2: real, b2: real)
    requires d1 <= d2 && f1 <= f2 && p2 <= p1 && b1 <= b2
    ensures BehaviorScore(d1, f1, p1, b1) <= BehaviorScore(d2, f2, p2, b2)
  {
  }

  /** The preferences dict, with its keys in the source's insertion order. */
  function PreferenceDict(d: PreferenceDraws): (prefs: Dict)
    ensures |prefs| == 7
  {
    [ Entry("financial_services", d.financialServices),
      Entry("digital_banking", d.digitalBanking),
      Entry("investment_products", d.investmentProducts),
      Entry("risk_tolerance", d.riskTolerance),
      Entry("tech_savviness", d.techSavviness),
      Entry("price_sensitivity", d.priceSensitivity),
      Entry("brand_loyalty", d.brandLoyalty) ]
  }

  /** `f'CUST_{i+1:06d}'`. */
  function CustomerId(i: nat): string
  {
    "CUST_" + ZeroPad(Digits(i + 1), 6)
  }

  /** The number in an identifier reads back as `i + 1`, so no two profiles share an identifier. */
  lemma CustomerIdDistinct(i: nat, j: nat)
    requires i != j
    ensures CustomerId(i) != CustomerId(j)
  {
    CustomerIdNumber(i);
    CustomerIdNumber(j);
  }

  lemma CustomerIdNumber(i: nat)
    ensures |CustomerId(i)| >= 5
    ensures forall k :: 5 <= k < |CustomerId(i)| ==> IsDigit(CustomerId(i)[k])
    ensures ParseDecimal(CustomerId(i)[5..]) == i + 1
  {
    var pad := ZeroPad(Digits(i + 1), 6);
    var prefix := "CUST_";
    assert |prefix| == 5;
    assert CustomerId(i) == prefix + pad;
    assert CustomerId(i)[5..] == pad;
    PaddedRoundTrip(i + 1, 6);
  }

  /** The profile built from the i-th set of draws (0-based). */
  function MakeProfile(i: nat, d: ProfileDraws): CustomerProfile
  {
    var age := ClampedAge(d.ageZ);
    var income := Income(d.incomeDraw);
    var p := d.preferences;
    CustomerProfile(
      CustomerId(i),
      PyInt(age),
      income,
      Classify(income, age),
      PreferenceDict(p),
      BehaviorScore(p.digitalBanking, p.financialServices, p.priceSensitivity, p.brandLoyalty),
      d.lastInteraction)
  }

  /** Beta draws lie in [0,1]. */
  predicate InUnitRange(d: PreferenceDraws)
  {
    && 0.0 <= d.financialServices <= 1.0
    && 0.0 <= d.digitalBanking <= 1.0
    && 0.0 <= d.investmentProducts <= 1.0
    && 0.0 <= d.riskTolerance <= 1.0
    && 0.0 <= d.techSavviness <= 1.0
    && 0.0 <= d.priceSensitivity <= 1.0
    && 0.0 <= d.brandLoyalty <= 1.0
  }

  /** The range and consistency facts every synthesised profile satisfies. */
  predicate WellFormed(p: CustomerProfile)
  {
    && 18 <= p.age <= 80
    && p.income >= 1000.0
    && (forall k :: 0 <= k < |p.preferences| ==> 0.0 <= p.preferences[k].value <= 1.0)
    && UniqueKeys(p.preferences)
    && (forall c :: c in ProductCategories ==> HasKey(p.preferences, c))
    && p.behaviorScore == BehaviorScore(
         Get(p.preferences, "digital_banking", 0.0),
         Get(p.preferences, "financial_services", 0.0),
         Get(p.preferences, "price_sensitivity", 0.0),
         Get(p.preferences, "brand_loyalty", 0.0))
    && 0.0 <= p.behaviorScore <= 1.0
  }

  /**
   * A profile's stored age is the truncated draw, its tier comes from the
   * untruncated one, and when the draws lie in their distribution's support
   * the profile is well formed.
   */
  lemma MakeProfileFacts(i: nat, d: ProfileDraws)
    ensures MakeProfile(i, d).age == ClampedAge(d.ageZ).Floor
    ensures MakeProfile(i, d).segment == Classify(MakeProfile(i, d).income, ClampedAge(d.ageZ))
    ensures InUnitRange(d.preferences) ==> WellFormed(MakeProfile(i, d))
  {
    PreferenceLookups(d.preferences);
    PreferenceCategoryKeys(d.preferences);
    PreferenceKeysUnique(d.preferences);
    PreferenceRange(d.preferences);
  }

  /** The dict holds each draw under its own key. */
  lemma PreferenceLookups(d: PreferenceDraws)
    ensures Get(PreferenceDict(d), "digital_banking", 0.0) == d.digitalBanking
    ensures Get(PreferenceDict(d), "financial_services", 0.0) == d.financialServices
    ensures Get(PreferenceDict(d), "price_sensitivity", 0.0) == d.priceSensitivity
    ensures Get(PreferenceDict(d), "brand_loyalty", 0.0) == d.brandLoyalty
  {
    ProductLookups(d);
    TraitLookups(d);
  }

  lemma ProductLookups(d: PreferenceDraws)
    ensures Get(PreferenceDict(d), "digital_banking", 0.0) == d.digitalBanking
    ensures Get(PreferenceDict(d), "financial_services", 0.0) == d.financialServices
  {
    var prefs := PreferenceDict(d);
    GetFirst(prefs, "digital_banking", 0.0, 1);
    GetFirst(prefs, "financial_services", 0.0, 0);
  }

  lemma TraitLookups(d: PreferenceDraws)
    ensures Get(PreferenceDict(d), "price_sensitivity", 0.0) == d.priceSensitivity
    ensures Get(PreferenceDict(d), "brand_loyalty", 0.0) == d.brandLoyalty
  {
    var prefs := PreferenceDict(d);
    GetFirst(prefs, "price_sensitivity", 0.0, 5);
    GetFirst(prefs, "brand_loyalty", 0.0, 6);
  }

  /** Every product category is a key of the dict. */
  lemma PreferenceCategoryKeys(d: PreferenceDraws)
    ensures forall c :: c in ProductCategories ==> HasKey(PreferenceDict(d), c)
  {
    var prefs := PreferenceDict(d);
    assert prefs[0].key == ProductCategories[0];
    assert prefs[1].key == ProductCategories[1];
    assert prefs[2].key == ProductCategories[2];
  }

  /** The seven keys are distinct. */
  lemma PreferenceKeysUnique(d: PreferenceDraws)
    ensures UniqueKeys(PreferenceDict(d))
  {
    var prefs := PreferenceDict(d);
    var lengths := [18, 15, 19, 14, 14, 17, 13];
    forall k | 0 <= k < 7 ensures |prefs[k].key| == lengths[k] {
    }
    forall i, j | 0 <= i < j < |prefs| ensures prefs[i].key != prefs[j].key {
      if i == 3 && j == 4 {
        assert prefs[i].key[0] != prefs[j].key[0];
      } else {
        assert |prefs[i].key| != |prefs[j].key|;
      }
    }
  }

  lemma PreferenceRange(d: PreferenceDraws)
    ensures InUnitRange(d) ==> forall k :: 0 <= k < |PreferenceDict(d)| ==> 0.0 <= PreferenceDict(d)[k].value <= 1.0
  {
  }

  /**
   * The tier is decided on the untruncated age: an age draw of 35.5 with a
   * 200000 income is stored as age 35 yet tiered Premium, while the rule
   * applied to the stored age gives Gold.
   */
  lemma SegmentUsesUntruncatedAge()
    ensures var d := ProfileDraws(-19.0 / 30.0, 200000.0, PreferenceDraws(0.5, 0.5, 0.5, 0.5, 0.5, 0.5, 0.5), 0);
            var p := MakeProfile(0, d);
            p.age == 35 && p.segment == Premium && Classify(p.income, p.age as real) == Gold
  {
  }

  /** `generate_customer_profiles`: one profile per set of draws, appended in order. */
  method GenerateCustomerProfiles(draws: seq<ProfileDraws>) returns (profiles: seq<CustomerProfile>)
    ensures |profiles| == |draws|
    ensures forall i :: 0 <= i < |draws| ==> profiles[i] == MakeProfile(i, draws[i])
  {
    profiles := [];
    for i := 0 to |draws|
      invariant |profiles| == i
      invariant forall k :: 0 <= k < i ==> profiles[k] == MakeProfile(k, draws[k])
    {
      var d := draws[i];
      var age := ClampedAge(d.ageZ);
      var income := Income(d.incomeDraw);
      var segment := Classify(income, age);
      var preferences := PreferenceDict(d.preferences);
      var behaviorScore := BehaviorScore(d.preferences.digitalBanking, d.preferences.financialServices,
                                         d.preferences.priceSensitivity, d.preferences.brandLoyalty);
      var profile := CustomerProfile(CustomerId(i), PyInt(age), income, segment, preferences,
                                     behaviorScore, d.lastInteraction);
      assert profile == MakeProfile(i, d);
      profiles := profiles + [profile];
    }
  }

  /** The synthesised population has pairwise distinct identifiers and is well formed. */
  lemma GeneratedProfilesFacts(draws: seq<ProfileDraws>, profiles: seq<CustomerProfile>)
    requires |profiles| == |draws|
    requires forall i :: 0 <= i < |draws| ==> profiles[i] == MakeProfile(i, draws[i])
    ensures forall i, j :: 0 <= i < j < |profiles| ==> profiles[i].customerId != profiles[j].customerId
    ensures (forall i :: 0 <= i < |draws| ==> InUnitRange(draws[i].preferences)) ==>
            forall i :: 0 <= i < |profiles| ==> WellFormed(profiles[i])
  {
    forall i, j | 0 <= i < j < |profiles| ensures profiles[i].customerId != profiles[j].customerId {
      CustomerIdDistinct(i, j);
    }
    forall i | 0 <= i < |profiles| ensures InUnitRange(draws[i].preferences) ==> WellFormed(profiles[i]) {
      MakeProfileFacts(i, draws[i]);
    }
  }
}
