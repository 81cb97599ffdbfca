/**
 * The conversion-rate status of the admin product-insights widget
 * (backend/src/admin/widgets/themed-product-insights.tsx). Rates are JavaScript numbers,
 * modelled as reals.
 */
module ProductInsights {

  /** The three status buckets, from best to worst. */
  datatype Bucket = Excellent | Good | NeedsAttention

  /** The independent reading of the thresholds: 4 and 2, both inclusive. */
  function BucketOf(rate: real): Bucket
  {
    if 4.0 <= rate then Excellent else if 2.0 <= rate then Good else NeedsAttention
  }

  function Rank(b: Bucket): nat
  {
    match b
    case Excellent => 2
    case Good => 1
    case NeedsAttention => 0
  }

  function BucketColor(b: Bucket): string
  {
    match b
    case Excellent => "#8acfd1"
    case Good => "#fbe2a7"
    case NeedsAttention => "#f96f70"
  }

  function BucketText(b: Bucket): string
  {
    match b
    case Excellent => "Excellent"
    case Good => "Good"
    case NeedsAttention => "Needs Attention"
  }

  /** `getStatusColor(rate)`. */
  function GetStatusColor(rate: real): (c: string)
    ensures c == BucketColor(BucketOf(rate))
  {
    if rate >= 4.0 then "#8acfd1"
    else if rate >= 2.0 then "#fbe2a7"
    else "#f96f70"
  }

  /** `getStatusText(rate)`. */
  function GetStatusText(rate: real): (t: string)
    ensures t == BucketText(BucketOf(rate))
  {
    if rate >= 4.0 then "Excellent"
    else if rate >= 2.0 then "Good"
    else "Needs Attention"
  }

  /** The three ranges and what each shows; both boundaries belong to the higher bucket. */
  lemma StatusRanges(rate: real)
    ensures rate >= 4.0 ==> GetStatusColor(rate) == "#8acfd1" && GetStatusText(rate) == "Excellent"
    ensures 2.0 <= rate < 4.0 ==> GetStatusColor(rate) == "#fbe2a7" && GetStatusText(rate) == "Good"
    ensures rate < 2.0 ==> GetStatusColor(rate) == "#f96f70" && GetStatusText(rate) == "Needs Attention"
    ensures GetStatusText(4.0) == "Excellent" && GetStatusText(2.0) == "Good"
  {
  }

  /** Colour and text always come from the same bucket: the colour determines the text. */
  lemma ColorAndTextAgree(r1: real, r2: real)
    ensures GetStatusColor(r1) == GetStatusColor(r2) <==> GetStatusText(r1) == GetStatusText(r2)
  {
  }

  /** A higher rate never moves to a worse bucket. */
  lemma BucketMonotone(r1: real, r2: real)
    requires r1 <= r2
    ensures Rank(BucketOf(r1)) <= Rank(BucketOf(r2))
  {
  }

  datatype Insights = Insights(viewsThisWeek: int, cartAdds: int, purchases: int, conversionRate: real, trending: bool)

  /** The widget's mock data. */
  const MockInsights := Insights(245, 18, 12, 4.9, true)

  /** The trending badge is rendered exactly when `trending` is set. */
  predicate ShowsTrendingBadge(i: Insights)
  {
    i.trending
  }

  /** The mock product is Excellent and trending. */
  lemma MockIsExcellentAndTrending()
    ensures GetStatusText(MockInsights.conversionRate) == "Excellent"
    ensures GetStatusColor(MockInsights.conversionRate) == "#8acfd1"
    ensures ShowsTrendingBadge(MockInsights)
  {
  }
}
