/** The records the engine passes between its stages, and the engine's fixed tables. */
module Records {

  /** Customer tier. The source stores it as one of four strings. */
  datatype Segment = Premium | Gold | Silver | Bronze

  function SegmentName(s: Segment): string
  {
    match s
    case Premium => "Premium"
    case Gold => "Gold"
    case Silver => "Silver"
    case Bronze => "Bronze"
  }

  /** Tier order, lowest first. */
  function Rank(s: Segment): nat
  {
    match s
    case Bronze => 0
    case Silver => 1
    case Gold => 2
    case Premium => 3
  }

  /**
   * One item of a Python `Dict[str, float]`. A dict is modelled as the
   * sequence of its items in insertion order, because both `max` over a
   * dict and the stable sort of its items depend on that order.
   */
  datatype Entry = Entry(key: string, value: real)

  type Dict = seq<Entry>

  function Keys(d: Dict): (ks: seq<string>)
    ensures |ks| == |d|
    ensures forall i :: 0 <= i < |d| ==> ks[i] == d[i].key
  {
    if d == [] then [] else [d[0].key] + Keys(d[1..])
  }

  predicate HasKey(d: Dict, k: string)
  {
    exists i :: 0 <= i < |d| && d[i].key == k
  }

  /** No key occurs twice, as in every Python dict. */
  predicate UniqueKeys(d: Dict)
  {
    forall i, j :: 0 <= i < j < |d| ==> d[i].key != d[j].key
  }

  /** `d.get(k, default)`. */
  function Get(d: Dict, k: string, default: real): (v: real)
    ensures !HasKey(d, k) ==> v == default
    ensures HasKey(d, k) ==> exists i :: 0 <= i < |d| && d[i].key == k && d[i].value == v
  {
    if d == [] then default
    else if d[0].key == k then d[0].value
    else Get(d[1..], k, default)
  }

  /** `Get` finds the first item with the key. */
  lemma {:induction false} GetFirst(d: Dict, k: string, default: real, i: nat)
    requires i < |d| && d[i].key == k
    requires forall j :: 0 <= j < i ==> d[j].key != k
    ensures Get(d, k, default) == d[i].value
  {
    if i > 0 {
      GetFirst(d[1..], k, default, i - 1);
    }
  }

  /** In a dict without repeated keys, `Get` returns the value stored under the key, wherever it is. */
  lemma GetUnique(d: Dict, k: string, default: real, i: nat)
    requires UniqueKeys(d)
    requires i < |d| && d[i].key == k
    ensures Get(d, k, default) == d[i].value
  {
    GetFirst(d, k, default, i);
  }

  /** The keys of `self.product_categories`, in declaration order. */
  const ProductCategories: seq<string> := ["financial_services", "digital_banking", "investment_products"]

  /** `self.product_categories['financial_services']['products']`. */
  const FinancialProducts: seq<string> := ["Credit Card", "Personal Loan", "Investment", "Insurance"]

  datatype CustomerProfile = CustomerProfile(
    customerId: string,
    age: int,
    income: real,
    segment: Segment,
    preferences: Dict,
    behaviorScore: real,
    lastInteraction: int)

  datatype InteractionType = PageView | Click | Purchase | Inquiry | Download
  datatype DeviceType = Mobile | Desktop | Tablet
  datatype Channel = Web | MobileApp | Email | Sms

  /** One row of the interactions table. Timestamps are opaque ordered values. */
  datatype InteractionEvent = InteractionEvent(
    eventId: string,
    customerId: string,
    timestamp: int,
    interactionType: InteractionType,
    contentCategory: string,
    engagementDuration: real,
    engagementScore: real,
    deviceType: DeviceType,
    channel: Channel)

  datatype RecommendationType =
    | PremiumProductRecommendation
    | ProductRecommendation
    | EducationalContent
    | PromotionalOffer

  datatype Recommendation = Recommendation(
    customerId: string,
    recommendationType: RecommendationType,
    content: string,
    confidenceScore: real,
    expectedEngagement: real,
    timestamp: int)

  /** One row of the recommendations table: a recommendation enriched with its customer's tier and score. */
  datatype RecommendationRow = RecommendationRow(
    rec: Recommendation,
    customerSegment: Segment,
    customerBehaviorScore: real)

  datatype Variant = Control | VariantA | VariantB

  function VariantName(v: Variant): string
  {
    match v
    case Control => "control"
    case VariantA => "variant_a"
    case VariantB => "variant_b"
  }

  /** The variants in the order each recommendation is fanned out into. */
  const Variants: seq<Variant> := [Control, VariantA, VariantB]

  datatype ABTestRecord = ABTestRecord(
    testId: string,
    customerId: string,
    variant: Variant,
    recommendationType: RecommendationType,
    expectedEngagement: real,
    actualEngagement: real,
    converted: bool,
    timestamp: int)

  /**
   * The failures the core can raise: `max()` of an empty dict of category
   * preferences, and a lookup of a column that a table built from no rows
   * does not have.
   */
  datatype EngineError = NoCategoryPreference(customerId: string) | MissingColumn(column: string)

  datatype Result<T> = Ok(value: T) | Err(error: EngineError)

  datatype Option<T> = None | Some(value: T)
}
