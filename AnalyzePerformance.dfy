/** The mock route src/app/api/ai/analyze-performance/route.ts: it checks the four
    required fields, compares four rates against fixed benchmarks, picks a rating
    and the titles of its strengths and weaknesses, and builds a fixed report
    around them.

    The three rates are computed in the route as rounded percentages of `views`;
    here they are given as integers inside `Metrics`. `watchTime` is taken from the
    request as it is, so it may be absent (`undefined`). */
module AnalyzePerformance {
  import opened Wrappers
  import opened Js
  import opened Http

  /** The metrics object, with its derived rates. */
  datatype Metrics = Metrics(engagementRate: int, saveRate: int, commentRate: int, watchTime: Option<real>)

  /** The request body; `None` for an absent or falsy field. */
  datatype PerformanceRequest = PerformanceRequest(
    metrics: Option<Metrics>,
    contentCategory: Option<string>,
    platform: Option<string>,
    timeFrame: Option<string>)

  /** The four buckets of `getComparison`. */
  datatype Comparison = SignificantlyAbove | Above | Average | Below

  function ComparisonText(c: Comparison): string
  {
    match c
    case SignificantlyAbove => "Significantly above average"
    case Above => "Above average"
    case Average => "Average"
    case Below => "Below average"
  }

  /** The order of the buckets, from below to significantly above. */
  function Rank(c: Comparison): nat
  {
    match c
    case Below => 0
    case Average => 1
    case Above => 2
    case SignificantlyAbove => 3
  }

  /** The four texts are distinct, so the text determines the bucket. */
  lemma ComparisonTextInjective(a: Comparison, b: Comparison)
    ensures ComparisonText(a) == ComparisonText(b) <==> a == b
  {
    if a != b {
      assert ComparisonText(a)[0] != ComparisonText(b)[0] || |ComparisonText(a)| != |ComparisonText(b)|;
    }
  }

  /** `getComparison(rate, benchmark)`: the first threshold of 1.5, 1 and 0.8 times
      the benchmark that the rate reaches. */
  function GetComparison(rate: real, benchmark: real): (c: Comparison)
    ensures c == SignificantlyAbove <==> rate >= benchmark * 1.5
    ensures c == Above <==> rate < benchmark * 1.5 && rate >= benchmark
    ensures c == Average <==> rate < benchmark * 1.5 && rate < benchmark && rate >= benchmark * 0.8
    ensures c == Below <==> rate < benchmark * 1.5 && rate < benchmark && rate < benchmark * 0.8
  {
    if rate >= benchmark * 1.5 then SignificantlyAbove
    else if rate >= benchmark then Above
    else if rate >= benchmark * 0.8 then Average
    else Below
  }

  /** A higher rate never lands in a lower bucket, whatever the benchmark. */
  lemma ComparisonMonotone(r1: real, r2: real, benchmark: real)
    requires r1 <= r2
    ensures Rank(GetComparison(r1, benchmark)) <= Rank(GetComparison(r2, benchmark))
  {
  }

  /** For a non-negative benchmark the thresholds are ordered, so the buckets are
      the consecutive intervals they bound. */
  lemma ComparisonIntervals(rate: real, benchmark: real)
    requires benchmark >= 0.0
    ensures GetComparison(rate, benchmark) == SignificantlyAbove <==> rate >= 1.5 * benchmark
    ensures GetComparison(rate, benchmark) == Above <==> benchmark <= rate < 1.5 * benchmark
    ensures GetComparison(rate, benchmark) == Average <==> 0.8 * benchmark <= rate < benchmark
    ensures GetComparison(rate, benchmark) == Below <==> rate < 0.8 * benchmark
  {
  }

  /** `getComparison` of a value that may be `undefined`: every comparison with
      `undefined` is false, so it is below average. */
  function CompareValue(value: Option<real>, benchmark: real): (c: Comparison)
    ensures value.None? ==> c == Below
    ensures value.Some? ==> c == GetComparison(value.value, benchmark)
  {
    if value.None? then Below else GetComparison(value.value, benchmark)
  }

  const EngagementBenchmark: real := 5.0
  const SaveBenchmark: real := 3.0
  const WatchTimeBenchmark: real := 60.0
  const CommentBenchmark: real := 2.0

  /** The overall rating, from the engagement rate alone. */
  function Rating(engagementRate: int): (r: string)
    ensures r == "Above Expected" <==> engagementRate > 5
    ensures r == "Average" <==> 3 < engagementRate <= 5
    ensures r == "Below Expected" <==> engagementRate <= 3
  {
    if engagementRate > 5 then "Above Expected" else if engagementRate > 3 then "Average" else "Below Expected"
  }

  /** The rating never contradicts the engagement comparison: "Above Expected" comes
      with an engagement rate at or above its benchmark, and "Below Expected" with
      one below 80% of it. */
  lemma RatingAgreesWithComparison(engagementRate: int)
    ensures Rating(engagementRate) == "Above Expected" ==>
              Rank(GetComparison(engagementRate as real, EngagementBenchmark)) >= Rank(Above)
    ensures Rating(engagementRate) == "Below Expected" ==>
              GetComparison(engagementRate as real, EngagementBenchmark) == Below
  {
  }

  /** One metric of the report: its value and the bucket it falls in. */
  datatype MetricReport = MetricReport(value: Option<real>, comparison: Comparison)

  /** A titled entry of the strengths, weaknesses or insights. */
  datatype Note = Note(title: string, text: string)

  datatype PerformanceAnalysis = PerformanceAnalysis(
    rating: string,
    engagementRate: MetricReport,
    saveRate: MetricReport,
    watchTime: MetricReport,
    commentRate: MetricReport,
    strengths: seq<Note>,
    weaknesses: seq<Note>,
    actionPlan: seq<string>,
    insights: seq<Note>)

  /** `watchTime > 70`, false for an absent value. */
  predicate WatchTimeExceptional(watchTime: Option<real>)
  {
    watchTime.Some? && watchTime.value > 70.0
  }

  function WatchTimeTitle(watchTime: Option<real>): (t: string)
    ensures t == "Exceptional Watch Time" <==> WatchTimeExceptional(watchTime)
    ensures t == "Good Watch Time" <==> !WatchTimeExceptional(watchTime)
  {
    if WatchTimeExceptional(watchTime) then "Exceptional Watch Time" else "Good Watch Time"
  }

  function SaveRateTitle(saveRate: int): (t: string)
    ensures t == "Strong Save Rate" <==> saveRate > 2
    ensures t == "Decent Save Rate" <==> saveRate <= 2
  {
    if saveRate > 2 then "Strong Save Rate" else "Decent Save Rate"
  }

  function CommentRateTitle(commentRate: int): (t: string)
    ensures t == "Low Comment Engagement" <==> commentRate < 1
    ensures t == "Average Comment Engagement" <==> commentRate >= 1
  {
    if commentRate < 1 then "Low Comment Engagement" else "Average Comment Engagement"
  }

  const InsightSuffix: string :=
    " prioritizes watch time and saves in its algorithm. Your content is performing well in these areas."

  const ActionPlan: seq<string> := [
    "Add a direct question in your hook to encourage more comments",
    "Test a controversial or surprising statement to increase shares",
    "Optimize your first 3 seconds to improve watch time further",
    "Create more content in your highest-performing content category"
  ]

  const WatchTimeNote: string :=
    "Your content is holding viewer attention, which is highly valued by the algorithm."
  const SaveRateNote: string :=
    "Saves indicate your content is valuable enough for viewers to want to reference later."
  const CommentNote: string :=
    "Increasing comment engagement would help boost algorithmic distribution."
  const SharesWeakness: Note :=
    Note("Potential for Higher Shares", "Increasing share rate would expand your reach to new audiences.")
  const AlgorithmInsightTitle: string := "Algorithm Insight"
  const AudienceInsight: Note :=
    Note("Audience Behavior",
         "Your audience engages more with your content than the average for your niche, indicating strong audience alignment.")

  /** The report for validated metrics on `platform`. */
  function BuildAnalysis(m: Metrics, platform: string): (a: PerformanceAnalysis)
    ensures a.rating == Rating(m.engagementRate)
    ensures a.engagementRate.value == Some(m.engagementRate as real)
    ensures a.saveRate.value == Some(m.saveRate as real)
    ensures a.commentRate.value == Some(m.commentRate as real)
    ensures a.watchTime.value == m.watchTime
    ensures a.engagementRate.comparison == GetComparison(m.engagementRate as real, EngagementBenchmark)
    ensures a.saveRate.comparison == GetComparison(m.saveRate as real, SaveBenchmark)
    ensures a.watchTime.comparison == CompareValue(m.watchTime, WatchTimeBenchmark)
    ensures a.commentRate.comparison == GetComparison(m.commentRate as real, CommentBenchmark)
    ensures |a.strengths| == 2 && |a.weaknesses| == 2 && |a.actionPlan| == 4 && |a.insights| == 2
    ensures a.strengths[0].title == WatchTimeTitle(m.watchTime)
    ensures a.strengths[1].title == SaveRateTitle(m.saveRate)
    ensures a.weaknesses[0].title == CommentRateTitle(m.commentRate)
    ensures a.insights[0].text == platform + InsightSuffix
    ensures a.actionPlan == ActionPlan
  {
    PerformanceAnalysis(
      Rating(m.engagementRate),
      MetricReport(Some(m.engagementRate as real), GetComparison(m.engagementRate as real, EngagementBenchmark)),
      MetricReport(Some(m.saveRate as real), GetComparison(m.saveRate as real, SaveBenchmark)),
      MetricReport(m.watchTime, CompareValue(m.watchTime, WatchTimeBenchmark)),
      MetricReport(Some(m.commentRate as real), GetComparison(m.commentRate as real, CommentBenchmark)),
      [Note(WatchTimeTitle(m.watchTime), WatchTimeNote), Note(SaveRateTitle(m.saveRate), SaveRateNote)],
      [Note(CommentRateTitle(m.commentRate), CommentNote), SharesWeakness],
      ActionPlan,
      [Note(AlgorithmInsightTitle, platform + InsightSuffix), AudienceInsight])
  }

  /** The first insight opens with the platform's name, whatever it is. */
  lemma InsightNamesPlatform(m: Metrics, platform: string)
    ensures |BuildAnalysis(m, platform).insights[0].text| == |platform| + |InsightSuffix|
    ensures BuildAnalysis(m, platform).insights[0].text[..|platform|] == platform
  {
    var t := BuildAnalysis(m, platform).insights[0].text;
    assert t == platform + InsightSuffix;
  }

  /** All four required fields are truthy; the metrics' own fields are not checked. */
  predicate Valid(req: PerformanceRequest)
  {
    req.metrics.Some? && Present(req.contentCategory) && Present(req.platform) && Present(req.timeFrame)
  }

  const AnalyzeFailed: string := "Failed to analyze performance"

  /** `POST`: `body` is `None` when `request.json()` throws or yields `null`, whose
      destructuring throws inside the same `try`. */
  function Analyze(body: Option<PerformanceRequest>): (r: Response<PerformanceAnalysis>)
    ensures r == Failure(500, AnalyzeFailed) <==> body.None?
    ensures r == Failure(400, MissingFields) <==> body.Some? && !Valid(body.value)
    ensures r.Success? <==> body.Some? && Valid(body.value)
    ensures r.Success? ==> r.body == BuildAnalysis(body.value.metrics.value, body.value.platform.value)
  {
    if body.None? then Failure(500, AnalyzeFailed)
    else if !Valid(body.value) then Failure(400, MissingFields)
    else Success(BuildAnalysis(body.value.metrics.value, body.value.platform.value))
  }

  /** Only the metrics and the platform shape the report: the content category and
      the time frame are checked for presence and otherwise ignored. */
  lemma AnalyzeIgnoresCategoryAndTimeFrame(a: PerformanceRequest, b: PerformanceRequest)
    requires Valid(a) && Valid(b)
    requires a.metrics == b.metrics && a.platform == b.platform
    ensures Analyze(Some(a)) == Analyze(Some(b))
  {
  }
}
