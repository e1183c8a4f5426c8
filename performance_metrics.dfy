/**
 * The development-mode performance monitor of `src/utils/performanceMetrics.ts`: the
 * current report with its capped metric list, the AI response-time statistics, named
 * timers, the resource summary, the scored human-readable summary and the guarded
 * report generation. Browser measurements and the clock are passed in; times, sizes and
 * durations are whole milliseconds and bytes.
 */
module PerformanceMetrics {
  import opened Wrappers
  import opened Text
  import opened Numbers
  import opened Ordering
  import OpenAiApi

  /** How many metrics a report keeps. */
  const MaxMetrics := 5000
  /** How many entries the slowest-resources list keeps. */
  const MaxSlowest := 5

  datatype Metric = Metric(timestamp: int, kind: string, value: int, details: Option<map<string, string>>)

  datatype MemoryInfo = MemoryInfo(jsHeapSizeLimit: nat, totalJSHeapSize: nat, usedJSHeapSize: nat)

  datatype WebVitals = WebVitals(
    lcp: Option<int>, fid: Option<int>, cls: Option<real>, ttfb: Option<int>,
    fcp: Option<int>, inp: Option<int>)

  datatype ResponseTimeStats = ResponseTimeStats(avg: real, min: int, max: int, count: nat)

  datatype AiPerformance = AiPerformance(
    responseTime: Option<ResponseTimeStats>, tokenUsage: Option<OpenAiApi.UsageStats>)

  /** One resource-timing entry as `captureResourceTiming` copies it. */
  datatype Resource = Resource(
    name: string, duration: int, transferSize: int, decodedBodySize: int, initiatorType: string)

  datatype TypeTally = TypeTally(count: int, size: int)

  datatype SlowEntry = SlowEntry(name: string, duration: int)

  datatype ResourceSummary = ResourceSummary(
    totalResources: nat, totalSize: int, byType: map<string, TypeTally>, slowestResources: seq<SlowEntry>)

  /** How a factor scored: 30, 70 or 100 points. */
  datatype Band = Poor | Average | Good

  datatype Factor = MemoryUse | FrameRate | LargestContentfulPaint | LayoutShift | AiResponseTime | ResourceSize

  /** A key finding: which factor was assessed and its band, or the slowest resource. */
  datatype Finding = Assessed(factor: Factor, band: Band) | SlowResource(name: string, duration: int)

  datatype PerformanceSummary = PerformanceSummary(
    overallPerformanceScore: int, keyFindings: seq<Finding>, recommendations: seq<string>)

  datatype Report = Report(
    sessionId: string,
    startTime: int,
    metrics: seq<Metric>,
    resourceTiming: Option<seq<Resource>>,
    memoryInfo: Option<MemoryInfo>,
    webVitals: Option<WebVitals>,
    aiPerformance: Option<AiPerformance>,
    resourceSummary: Option<ResourceSummary>,
    summary: Option<PerformanceSummary>)

  function NewReport(sessionId: string, now: int): Report
  {
    Report(sessionId, now, [], None, None, None, None, None, None)
  }

  // ----- captureMetric -----

  /** The metric list after `captureMetric`: push, then drop the oldest beyond 5000. */
  function WithMetric(metrics: seq<Metric>, m: Metric): (r: seq<Metric>)
    ensures |r| <= MaxMetrics && r != [] && r[|r| - 1] == m
    ensures r == KeepLast(metrics, MaxMetrics - 1) + [m]
    ensures |metrics| < MaxMetrics ==> r == metrics + [m]
  {
    KeepLastSnoc(metrics, m, MaxMetrics);
    KeepLast(metrics + [m], MaxMetrics)
  }

  // ----- AI response times -----

  /** The statistics `updateAiPerformanceMetrics` records for a non-empty list of times. */
  function ResponseStats(times: seq<int>): (r: ResponseTimeStats)
    requires times != []
    ensures r.count == |times|
    ensures r.min in times && r.max in times
    ensures forall k | 0 <= k < |times| :: r.min <= times[k] <= r.max
    ensures r.min as real <= r.avg <= r.max as real
    ensures r.avg == (Sum(times) as real) / (|times| as real)
  {
    MeanBetween(times);
    ResponseTimeStats(Mean(times), MinOf(times), MaxOf(times), |times|)
  }

  // ----- generateResourceSummary -----

  /** `decodedBodySize || transferSize || 0`. */
  function SizeOf(r: Resource): int
  {
    if r.decodedBodySize != 0 then r.decodedBodySize else r.transferSize
  }

  /** `initiatorType || 'other'`. */
  function TypeOf(r: Resource): string
  {
    if r.initiatorType != [] then r.initiatorType else "other"
  }

  function SlowEntryOf(r: Resource): SlowEntry
  {
    SlowEntry(r.name, r.duration)
  }

  function SlowKey(e: SlowEntry): int
  {
    e.duration
  }

  function TotalSize(rs: seq<Resource>): int
  {
    if rs == [] then 0 else TotalSize(rs[..|rs| - 1]) + SizeOf(rs[|rs| - 1])
  }

  /** One more resource of type `t` and size `size`. */
  function Bump(byType: map<string, TypeTally>, t: string, size: int): map<string, TypeTally>
  {
    var cur := if t in byType then byType[t] else TypeTally(0, 0);
    byType[t := TypeTally(cur.count + 1, cur.size + size)]
  }

  function ByType(rs: seq<Resource>): map<string, TypeTally>
  {
    if rs == [] then map[]
    else
      var last := rs[|rs| - 1];
      Bump(ByType(rs[..|rs| - 1]), TypeOf(last), SizeOf(last))
  }

  /** The slowest resources: sorted by decreasing duration (ties keep their order), first five. */
  function Slowest(rs: seq<Resource>): seq<SlowEntry>
  {
    Slice(SortDesc(Map(rs, SlowEntryOf), SlowKey), 0, MaxSlowest)
  }

  function ResourceSummaryOf(rs: seq<Resource>): ResourceSummary
  {
    ResourceSummary(|rs|, TotalSize(rs), ByType(rs), Slowest(rs))
  }

  ghost function Counts(byType: map<string, TypeTally>): map<string, int>
  {
    map t | t in byType :: byType[t].count
  }

  ghost function Sizes(byType: map<string, TypeTally>): map<string, int>
  {
    map t | t in byType :: byType[t].size
  }

  lemma BumpTallies(byType: map<string, TypeTally>, t: string, size: int)
    ensures Counts(Bump(byType, t, size)) == AddTo(Counts(byType), t, 1)
    ensures Sizes(Bump(byType, t, size)) == AddTo(Sizes(byType), t, size)
  {
  }

  /** The per-type counts add up to the number of resources, the sizes to the total size. */
  lemma {:induction false} ByTypeSums(rs: seq<Resource>)
    ensures MapSum(Counts(ByType(rs))) == |rs|
    ensures MapSum(Sizes(ByType(rs))) == TotalSize(rs)
  {
    if rs != [] {
      var init, last := rs[..|rs| - 1], rs[|rs| - 1];
      ByTypeSums(init);
      BumpTallies(ByType(init), TypeOf(last), SizeOf(last));
      MapSumAddTo(Counts(ByType(init)), TypeOf(last), 1);
      MapSumAddTo(Sizes(ByType(init)), TypeOf(last), SizeOf(last));
    }
  }

  /**
   * At most five slowest entries, in non-increasing duration order, the first of them as
   * slow as any resource, and all of them when there are at most five resources.
   */
  lemma SlowestSpec(rs: seq<Resource>)
    ensures var s := Slowest(rs);
      && |s| == (if |rs| < MaxSlowest then |rs| else MaxSlowest)
      && SortedDesc(s, SlowKey)
      && (rs != [] ==> forall k | 0 <= k < |rs| :: rs[k].duration <= s[0].duration)
      && (|rs| <= MaxSlowest ==> multiset(s) == multiset(Map(rs, SlowEntryOf)))
  {
    var entries := Map(rs, SlowEntryOf);
    var sorted := SortDesc(entries, SlowKey);
    SortDescSpec(entries, SlowKey);
    SortDescMembers(entries, SlowKey);
    SliceWindow(sorted, 0, MaxSlowest);
    assert Slowest(rs) == sorted[..|Slowest(rs)|];
    SortedDescRange(sorted, 0, |Slowest(rs)|, SlowKey);
    if rs != [] {
      forall k | 0 <= k < |rs| ensures rs[k].duration <= sorted[0].duration {
        assert entries[k] in sorted;
        var j :| 0 <= j < |sorted| && sorted[j] == entries[k];
      }
    }
    if |rs| <= MaxSlowest {
      assert Slowest(rs) == sorted;
    }
  }

  /** `generateResourceSummary`'s loop over the resources, then the sort and the cut. */
  method SummarizeResources(resources: seq<Resource>) returns (summary: ResourceSummary)
    ensures summary == ResourceSummaryOf(resources)
  {
    var totalSize := 0;
    var byType: map<string, TypeTally> := map[];
    var slowest: seq<SlowEntry> := [];
    for i := 0 to |resources|
      invariant totalSize == TotalSize(resources[..i])
      invariant byType == ByType(resources[..i])
      invariant slowest == Map(resources[..i], SlowEntryOf)
    {
      var resource := resources[i];
      assert resources[..i + 1][..i] == resources[..i];
      var size := SizeOf(resource);
      totalSize := totalSize + size;
      var kind := TypeOf(resource);
      if kind !in byType {
        byType := byType[kind := TypeTally(0, 0)];
      }
      byType := byType[kind := TypeTally(byType[kind].count + 1, byType[kind].size + size)];
      slowest := slowest + [SlowEntry(resource.name, resource.duration)];
    }
    assert resources[..|resources|] == resources;
    slowest := SortDesc(slowest, SlowKey);
    slowest := Slice(slowest, 0, MaxSlowest);
    summary := ResourceSummary(|resources|, totalSize, byType, slowest);
  }

  // ----- generatePerformanceSummary -----

  function Points(b: Band): int
  {
    match b
    case Poor => 30
    case Average => 70
    case Good => 100
  }

  /** `used / limit` above 0.7, above 0.5, or not; `x / 0` is Infinity, `0 / 0` is NaN. */
  function MemoryBand(m: MemoryInfo): Band
  {
    var used, limit := m.usedJSHeapSize, m.jsHeapSizeLimit;
    if limit == 0 then (if used > 0 then Poor else Good)
    else if 10 * used > 7 * limit then Poor
    else if 10 * used > 5 * limit then Average
    else Good
  }

  function FpsBand(avg: real): Band
  {
    if avg < 30.0 then Poor else if avg < 55.0 then Average else Good
  }

  function LcpBand(lcp: int): Band
  {
    if lcp > 2500 then Poor else Good
  }

  function ClsBand(cls: real): Band
  {
    if cls > 0.1 then Poor else Good
  }

  function AiBand(avg: real): Band
  {
    if avg > 3000.0 then Poor else if avg > 1000.0 then Average else Good
  }

  /** More than 5 MB (`totalSize / (1024 * 1024) > 5`). */
  function SizeBand(totalSize: int): Band
  {
    if totalSize > 5 * 1024 * 1024 then Poor else Good
  }

  function IsFps(m: Metric): bool
  {
    m.kind == "fps"
  }

  function ValueOf(m: Metric): int
  {
    m.value
  }

  function FrameRates(metrics: seq<Metric>): seq<int>
  {
    Map(Filter(metrics, IsFps), ValueOf)
  }

  /** The recommendation that goes with a poorly scoring factor. */
  function AdviceFor(f: Factor): string
  {
    match f
    case MemoryUse => "Consider optimizing memory usage and implementing cleanup routines"
    case FrameRate => "Optimize rendering performance or reduce animation complexity"
    case LargestContentfulPaint => "Optimize critical rendering path and image loading"
    case LayoutShift => "Fix layout instability issues by setting explicit sizes for media elements"
    case AiResponseTime => "Consider optimizing AI requests or using a faster model"
    case ResourceSize => "Optimize asset sizes, implement lazy loading and consider code splitting"
  }

  const DefaultAdvice := "Continue monitoring performance metrics regularly"

  /** The text after the last `/` of `s`. */
  function AfterLastSlash(s: string): (r: string)
    ensures IsSuffix(r, s) && '/' !in r
    ensures |r| < |s| ==> s[|s| - |r| - 1] == '/'
  {
    if s == [] || s[|s| - 1] == '/' then []
    else AfterLastSlash(s[..|s| - 1]) + [s[|s| - 1]]
  }

  /** `name.split('/').pop() || name`. */
  function DisplayName(name: string): string
  {
    var tail := AfterLastSlash(name);
    if tail != [] then tail else name
  }

  function SlowAdvice(name: string): string
  {
    "Optimize loading of slow resources, especially " + name
  }

  /** The advice a finding adds: a poorly scoring factor's, or the slow resource's. */
  function AdviceOf(f: Finding): seq<string>
  {
    match f
    case Assessed(factor, band) => if band == Poor then [AdviceFor(factor)] else []
    case SlowResource(name, _) => [SlowAdvice(name)]
  }

  function Advice(fs: seq<Finding>): seq<string>
  {
    if fs == [] then [] else Advice(fs[..|fs| - 1]) + AdviceOf(fs[|fs| - 1])
  }

  function PointsOf(f: Finding): int
  {
    if f.Assessed? then Points(f.band) else 0
  }

  function TotalPoints(fs: seq<Finding>): int
  {
    if fs == [] then 0 else TotalPoints(fs[..|fs| - 1]) + PointsOf(fs[|fs| - 1])
  }

  function MemoryFinding(r: Report): seq<Finding>
  {
    if r.memoryInfo.Some? then [Assessed(MemoryUse, MemoryBand(r.memoryInfo.value))] else []
  }

  function FpsFinding(r: Report): seq<Finding>
  {
    var fps := FrameRates(r.metrics);
    if fps != [] then [Assessed(FrameRate, FpsBand(Mean(fps)))] else []
  }

  /** `if (webVitals.lcp)`: a zero paint time counts as absent. */
  function LcpFinding(r: Report): seq<Finding>
  {
    if r.webVitals.Some? && r.webVitals.value.lcp.Some? && r.webVitals.value.lcp.value != 0
    then [Assessed(LargestContentfulPaint, LcpBand(r.webVitals.value.lcp.value))]
    else []
  }

  function ClsFinding(r: Report): seq<Finding>
  {
    if r.webVitals.Some? && r.webVitals.value.cls.Some?
    then [Assessed(LayoutShift, ClsBand(r.webVitals.value.cls.value))]
    else []
  }

  function AiFinding(r: Report): seq<Finding>
  {
    if r.aiPerformance.Some? && r.aiPerformance.value.responseTime.Some?
    then [Assessed(AiResponseTime, AiBand(r.aiPerformance.value.responseTime.value.avg))]
    else []
  }

  function SizeFinding(r: Report): seq<Finding>
  {
    if r.resourceSummary.Some? then [Assessed(ResourceSize, SizeBand(r.resourceSummary.value.totalSize))] else []
  }

  /** The slowest resource, when it took more than 500 ms; it adds no points. */
  function SlowFinding(r: Report): seq<Finding>
  {
    if r.resourceSummary.Some? && r.resourceSummary.value.slowestResources != []
      && r.resourceSummary.value.slowestResources[0].duration > 500
    then
      var slowest := r.resourceSummary.value.slowestResources[0];
      [SlowResource(DisplayName(slowest.name), slowest.duration)]
    else []
  }

  /** The scored factors of a report, in the order the summary examines them. */
  function Assessments(r: Report): seq<Finding>
  {
    MemoryFinding(r) + FpsFinding(r) + LcpFinding(r) + ClsFinding(r) + AiFinding(r) + SizeFinding(r)
  }

  /** The summary `generatePerformanceSummary` attaches to `r`. */
  function SummaryOf(r: Report): PerformanceSummary
  {
    var scored := Assessments(r);
    var findings := scored + SlowFinding(r);
    var advice := Advice(findings);
    PerformanceSummary(
      if |scored| > 0 then Round(TotalPoints(scored), |scored|) else 0,
      findings,
      if advice == [] then [DefaultAdvice] else advice)
  }

  predicate AllAssessed(fs: seq<Finding>)
  {
    forall k | 0 <= k < |fs| :: fs[k].Assessed?
  }

  lemma AllAssessedConcat(a: seq<Finding>, b: seq<Finding>)
    requires AllAssessed(a) && AllAssessed(b)
    ensures AllAssessed(a + b)
  {
  }

  /** Every entry of `Assessments(r)` is a scored factor. */
  lemma AssessmentsAssessed(r: Report)
    ensures AllAssessed(Assessments(r))
  {
    var a := MemoryFinding(r);
    AllAssessedConcat(a, FpsFinding(r));
    a := a + FpsFinding(r);
    AllAssessedConcat(a, LcpFinding(r));
    a := a + LcpFinding(r);
    AllAssessedConcat(a, ClsFinding(r));
    a := a + ClsFinding(r);
    AllAssessedConcat(a, AiFinding(r));
    a := a + AiFinding(r);
    AllAssessedConcat(a, SizeFinding(r));
  }

  lemma {:induction false} TotalPointsBounds(fs: seq<Finding>)
    requires AllAssessed(fs)
    ensures 30 * |fs| <= TotalPoints(fs) <= 100 * |fs|
  {
    if fs != [] {
      TotalPointsBounds(fs[..|fs| - 1]);
    }
  }

  /**
   * The overall score is the rounded mean of the factors' 30, 70 or 100 points, so it
   * lies in [30, 100], and is 0 when nothing could be assessed; there is always at least
   * one recommendation.
   */
  lemma SummarySpec(r: Report)
    ensures var s := SummaryOf(r);
      && (|Assessments(r)| > 0 ==> 30 <= s.overallPerformanceScore <= 100)
      && (|Assessments(r)| == 0 ==> s.overallPerformanceScore == 0)
      && s.recommendations != []
      && s.keyFindings == Assessments(r) + SlowFinding(r)
  {
    var scored := Assessments(r);
    if |scored| > 0 {
      AssessmentsAssessed(r);
      TotalPointsBounds(scored);
      RoundedBetween(TotalPoints(scored), |scored|, 30, 100);
    }
  }

  // ----- report updates -----

  /** The report with a resource timeline and its summary attached. */
  function WithResources(r: Report, resources: seq<Resource>): Report
  {
    r.(resourceTiming := Some(resources), resourceSummary := Some(ResourceSummaryOf(resources)))
  }

  function WithMemory(r: Report, memory: MemoryInfo): Report
  {
    r.(memoryInfo := Some(memory))
  }

  /** The web vitals started over, with only the time to first byte. */
  function WithVitals(r: Report, ttfb: Option<int>): Report
  {
    r.(webVitals := Some(WebVitals(None, None, None, ttfb, None, None)))
  }

  function WithAi(r: Report, times: seq<int>, tokens: OpenAiApi.UsageStats): Report
    requires times != []
  {
    r.(aiPerformance := Some(AiPerformance(Some(ResponseStats(times)), Some(tokens))))
  }

  function WithNewMetric(r: Report, m: Metric): Report
  {
    r.(metrics := WithMetric(r.metrics, m))
  }

  function Summarized(r: Report): Report
  {
    r.(summary := Some(SummaryOf(r)))
  }

  /** The token-usage statistics `getTokenUsageStats` reads from the stored usage log. */
  function TokenStats(tokenLog: Slot<OpenAiApi.UsageEntry>): OpenAiApi.UsageStats
  {
    if tokenLog.Parsed? then OpenAiApi.UsageStats(OpenAiApi.SumTotals(tokenLog.items), OpenAiApi.ByModel(tokenLog.items))
    else OpenAiApi.UsageStats(0, map[])
  }

  /** The summary's running values for the findings `fs` collected so far. */
  datatype Tally = Tally(keyFindings: seq<Finding>, recommendations: seq<string>, overallScore: int, scoreFactors: int)

  function TallyOf(fs: seq<Finding>): Tally
  {
    Tally(fs, Advice(fs), TotalPoints(fs), |fs|)
  }

  lemma AdviceSnoc(fs: seq<Finding>, f: Finding)
    ensures Advice(fs + [f]) == Advice(fs) + AdviceOf(f)
    ensures TotalPoints(fs + [f]) == TotalPoints(fs) + PointsOf(f)
  {
    assert (fs + [f])[..|fs|] == fs;
  }

  /** Each scored factor adds its finding, its points and, when poor, its advice. */
  method Score(f: Finding, t: Tally) returns (t': Tally)
    requires f.Assessed? && t == TallyOf(t.keyFindings)
    ensures t' == TallyOf(t.keyFindings + [f])
  {
    var recommendations := t.recommendations;
    if f.band == Poor {
      recommendations := recommendations + [AdviceFor(f.factor)];
    }
    t' := Tally(t.keyFindings + [f], recommendations, t.overallScore + Points(f.band), t.scoreFactors + 1);
    AdviceSnoc(t.keyFindings, f);
  }

  /** The memory block of `generatePerformanceSummary`. */
  method ScoreMemory(rep: Report, t: Tally) returns (t': Tally)
    requires t == TallyOf(t.keyFindings)
    ensures t' == TallyOf(t.keyFindings + MemoryFinding(rep))
  {
    if rep.memoryInfo.Some? {
      t' := Score(Assessed(MemoryUse, MemoryBand(rep.memoryInfo.value)), t);
    } else {
      t' := t;
      assert t.keyFindings + MemoryFinding(rep) == t.keyFindings;
    }
  }

  /** The frame-rate block of `generatePerformanceSummary`. */
  method ScoreFrameRate(rep: Report, t: Tally) returns (t': Tally)
    requires t == TallyOf(t.keyFindings)
    ensures t' == TallyOf(t.keyFindings + FpsFinding(rep))
  {
    var fpsValues := FrameRates(rep.metrics);
    if |fpsValues| > 0 {
      t' := Score(Assessed(FrameRate, FpsBand(Mean(fpsValues))), t);
    } else {
      t' := t;
      assert t.keyFindings + FpsFinding(rep) == t.keyFindings;
    }
  }

  /** The largest-contentful-paint block of `generatePerformanceSummary`. */
  method ScorePaint(rep: Report, t: Tally) returns (t': Tally)
    requires t == TallyOf(t.keyFindings)
    ensures t' == TallyOf(t.keyFindings + LcpFinding(rep))
  {
    if rep.webVitals.Some? && rep.webVitals.value.lcp.Some? && rep.webVitals.value.lcp.value != 0 {
      t' := Score(Assessed(LargestContentfulPaint, LcpBand(rep.webVitals.value.lcp.value)), t);
    } else {
      t' := t;
      assert t.keyFindings + LcpFinding(rep) == t.keyFindings;
    }
  }

  /** The layout-shift block of `generatePerformanceSummary`. */
  method ScoreLayoutShift(rep: Report, t: Tally) returns (t': Tally)
    requires t == TallyOf(t.keyFindings)
    ensures t' == TallyOf(t.keyFindings + ClsFinding(rep))
  {
    if rep.webVitals.Some? && rep.webVitals.value.cls.Some? {
      t' := Score(Assessed(LayoutShift, ClsBand(rep.webVitals.value.cls.value)), t);
    } else {
      t' := t;
      assert t.keyFindings + ClsFinding(rep) == t.keyFindings;
    }
  }

  /** The AI response-time block of `generatePerformanceSummary`. */
  method ScoreAi(rep: Report, t: Tally) returns (t': Tally)
    requires t == TallyOf(t.keyFindings)
    ensures t' == TallyOf(t.keyFindings + AiFinding(rep))
  {
    if rep.aiPerformance.Some? && rep.aiPerformance.value.responseTime.Some? {
      t' := Score(Assessed(AiResponseTime, AiBand(rep.aiPerformance.value.responseTime.value.avg)), t);
    } else {
      t' := t;
      assert t.keyFindings + AiFinding(rep) == t.keyFindings;
    }
  }

  /** The resource-size block of `generatePerformanceSummary`. */
  method ScoreSize(rep: Report, t: Tally) returns (t': Tally)
    requires t == TallyOf(t.keyFindings)
    ensures t' == TallyOf(t.keyFindings + SizeFinding(rep))
  {
    if rep.resourceSummary.Some? {
      t' := Score(Assessed(ResourceSize, SizeBand(rep.resourceSummary.value.totalSize)), t);
    } else {
      t' := t;
      assert t.keyFindings + SizeFinding(rep) == t.keyFindings;
    }
  }

  /** `generatePerformanceSummary`'s examination of the report, factor by factor. */
  method Assess(rep: Report) returns (t: Tally)
    ensures t == TallyOf(Assessments(rep))
  {
    t := Tally([], [], 0, 0);
    assert t.keyFindings + MemoryFinding(rep) == MemoryFinding(rep);
    t := ScoreMemory(rep, t);
    t := ScoreFrameRate(rep, t);
    t := ScorePaint(rep, t);
    t := ScoreLayoutShift(rep, t);
    t := ScoreAi(rep, t);
    t := ScoreSize(rep, t);
  }

  /** `generatePerformanceSummary`: the scored factors, the slowest resource, the score and the advice. */
  method Summarize(rep: Report) returns (s: PerformanceSummary)
    ensures s == SummaryOf(rep)
  {
    var t := Assess(rep);
    var keyFindings, recommendations := t.keyFindings, t.recommendations;
    if rep.resourceSummary.Some? && |rep.resourceSummary.value.slowestResources| > 0 {
      var slowest := rep.resourceSummary.value.slowestResources[0];
      var slowestName := DisplayName(slowest.name);
      if slowest.duration > 500 {
        keyFindings := keyFindings + [SlowResource(slowestName, slowest.duration)];
        recommendations := recommendations + [SlowAdvice(slowestName)];
        AdviceSnoc(t.keyFindings, SlowResource(slowestName, slowest.duration));
      }
    }
    assert keyFindings == t.keyFindings + SlowFinding(rep);
    assert recommendations == Advice(keyFindings);
    var score := if t.scoreFactors > 0 then Round(t.overallScore, t.scoreFactors) else 0;
    if |recommendations| == 0 {
      recommendations := recommendations + [DefaultAdvice];
    }
    s := PerformanceSummary(score, keyFindings, recommendations);
  }

  // ----- the monitor -----

  /** The module-level state of the monitor. */
  class PerformanceMonitor {
    /** Whether the app runs in development mode; monitoring is only possible there. */
    const devMode: bool
    var metricsEnabled: bool
    var report: Option<Report>
    var generatingReport: bool
    var aiResponseTimes: seq<int>
    var timers: map<string, int>

    constructor(devMode: bool)
      ensures this.devMode == devMode && metricsEnabled == devMode
      ensures report == None && !generatingReport && aiResponseTimes == [] && timers == map[]
    {
      this.devMode := devMode;
      metricsEnabled := devMode;
      report := None;
      generatingReport := false;
      aiResponseTimes := [];
      timers := map[];
    }

    /** `initPerformanceMonitoring` (its timers and observers aside): a fresh, empty report. */
    method InitPerformanceMonitoring(sessionId: string, now: int)
      modifies this`report, this`aiResponseTimes
      ensures !metricsEnabled ==> report == old(report) && aiResponseTimes == old(aiResponseTimes)
      ensures metricsEnabled ==> report == Some(NewReport(sessionId, now)) && aiResponseTimes == []
    {
      if !metricsEnabled {
        return;
      }
      report := Some(NewReport(sessionId, now));
      aiResponseTimes := [];
    }

    /** `setMetricsEnabled`: only development mode can turn monitoring on. */
    method SetMetricsEnabled(enabled: bool, sessionId: string, now: int)
      modifies this`metricsEnabled, this`report, this`aiResponseTimes
      ensures metricsEnabled == (enabled && devMode)
      ensures metricsEnabled && old(report).None? ==>
        report == Some(NewReport(sessionId, now)) && aiResponseTimes == []
      ensures !(metricsEnabled && old(report).None?) ==>
        report == old(report) && aiResponseTimes == old(aiResponseTimes)
    {
      metricsEnabled := enabled && devMode;
      if metricsEnabled && report.None? {
        InitPerformanceMonitoring(sessionId, now);
      }
    }

    /** `captureMetric`: a no-op when disabled or without a report. */
    method CaptureMetric(kind: string, value: int, details: Option<map<string, string>>, now: int)
      modifies this`report
      ensures !metricsEnabled || old(report).None? ==> report == old(report)
      ensures metricsEnabled && old(report).Some? ==>
        report == Some(WithNewMetric(old(report).value, Metric(now, kind, value, details)))
    {
      if !metricsEnabled || report.None? {
        return;
      }
      var metrics := report.value.metrics + [Metric(now, kind, value, details)];
      if |metrics| > MaxMetrics {
        metrics := metrics[|metrics| - MaxMetrics..];
      }
      report := Some(report.value.(metrics := metrics));
    }

    /**
     * `updateAiPerformanceMetrics`: with at least one recorded time, the response-time
     * statistics and the token-usage statistics read from the usage log `tokenLog`.
     */
    method UpdateAiPerformanceMetrics(tokenLog: Slot<OpenAiApi.UsageEntry>)
      modifies this`report
      ensures !metricsEnabled || old(report).None? || aiResponseTimes == [] ==> report == old(report)
      ensures metricsEnabled && old(report).Some? && aiResponseTimes != [] ==>
        report == Some(WithAi(old(report).value, aiResponseTimes, TokenStats(tokenLog)))
    {
      if !metricsEnabled || report.None? || |aiResponseTimes| == 0 {
        return;
      }
      var stats := ResponseStats(aiResponseTimes);
      var tokenUsage := OpenAiApi.GetTokenUsageStats(tokenLog);
      report := Some(report.value.(aiPerformance := Some(AiPerformance(Some(stats), Some(tokenUsage)))));
    }

    /** `trackAiResponseTime`: records one response time and refreshes the statistics. */
    method TrackAiResponseTime(responseTimeMs: int, tokenLog: Slot<OpenAiApi.UsageEntry>)
      modifies this`report, this`aiResponseTimes
      ensures !metricsEnabled || old(report).None? ==>
        report == old(report) && aiResponseTimes == old(aiResponseTimes)
      ensures metricsEnabled && old(report).Some? ==>
        aiResponseTimes == old(aiResponseTimes) + [responseTimeMs]
        && report == Some(WithAi(old(report).value, aiResponseTimes, TokenStats(tokenLog)))
    {
      if !metricsEnabled || report.None? {
        return;
      }
      aiResponseTimes := aiResponseTimes + [responseTimeMs];
      UpdateAiPerformanceMetrics(tokenLog);
    }

    /**
     * `startTimer`: (re)starts the timer `name` at `perfNow`, the reading of the
     * monotonic `performance.now()` clock.
     */
    method StartTimer(name: string, perfNow: int)
      modifies this`timers
      ensures timers == if metricsEnabled then old(timers)[name := perfNow] else old(timers)
    {
      if !metricsEnabled {
        return;
      }
      timers := timers[name := perfNow];
    }

    /**
     * `endTimer`: the time since the timer started on the monotonic clock (`perfNow`
     * is the `performance.now()` reading), after which the timer is deleted and the
     * duration recorded as a `timer` metric stamped with the wall-clock `now`
     * (`Date.now()`). `None` when disabled or when no timer runs under `name` (a
     * start reading of 0 counts as none), so a second call gives `None`.
     */
    method EndTimer(name: string, perfNow: int, now: int) returns (duration: Option<int>)
      modifies this`timers, this`report
      ensures duration.None? <==> !metricsEnabled || name !in old(timers) || old(timers)[name] == 0
      ensures duration.None? ==> timers == old(timers) && report == old(report)
      ensures duration.Some? ==>
        && duration.value == perfNow - old(timers)[name]
        && timers == old(timers) - {name} && name !in timers
        && (old(report).None? ==> report == None)
        && (old(report).Some? ==> report == Some(WithNewMetric(old(report).value,
          Metric(now, "timer", duration.value, Some(map["name" := name])))))
    {
      if !metricsEnabled || name !in timers || timers[name] == 0 {
        return None;
      }
      var elapsed := perfNow - timers[name];
      timers := timers - {name};
      CaptureMetric("timer", elapsed, Some(map["name" := name]), now);
      return Some(elapsed);
    }

    /**
     * `captureResourceTiming` with `generateResourceSummary`: `resources` is what the
     * browser's resource timeline holds, `None` when the timing API is unavailable.
     */
    method CaptureResourceTiming(resources: Option<seq<Resource>>)
      modifies this`report
      ensures !metricsEnabled || old(report).None? || resources.None? ==> report == old(report)
      ensures metricsEnabled && old(report).Some? && resources.Some? ==>
        report == Some(WithResources(old(report).value, resources.value))
    {
      if !metricsEnabled || report.None? || resources.None? {
        return;
      }
      var summary := SummarizeResources(resources.value);
      report := Some(report.value.(resourceTiming := resources, resourceSummary := Some(summary)));
    }

    /** `captureMemoryInfo`: `memory` is the heap figures, `None` where the browser has none. */
    method CaptureMemoryInfo(memory: Option<MemoryInfo>)
      modifies this`report
      ensures !metricsEnabled || old(report).None? || memory.None? ==> report == old(report)
      ensures metricsEnabled && old(report).Some? && memory.Some? ==>
        report == Some(WithMemory(old(report).value, memory.value))
    {
      if !metricsEnabled || report.None? || memory.None? {
        return;
      }
      report := Some(report.value.(memoryInfo := memory));
    }

    /**
     * The synchronous part of `captureWebVitals`: the vitals start over empty, with the
     * time to first byte `ttfb` when a navigation entry exists.
     */
    method CaptureWebVitals(ttfb: Option<int>)
      modifies this`report
      ensures !metricsEnabled || old(report).None? ==> report == old(report)
      ensures metricsEnabled && old(report).Some? ==> report == Some(WithVitals(old(report).value, ttfb))
    {
      if !metricsEnabled || report.None? {
        return;
      }
      report := Some(report.value.(webVitals := Some(WebVitals(None, None, None, ttfb, None, None))));
    }

    /** `generatePerformanceSummary`: attaches the summary of the current report. */
    method GeneratePerformanceSummary()
      modifies this`report
      ensures old(report).None? ==> report == None
      ensures old(report).Some? ==> report == Some(Summarized(old(report).value))
    {
      if report.None? {
        return;
      }
      var summary := Summarize(report.value);
      report := Some(report.value.(summary := Some(summary)));
    }

    /** The captures `generateReport` starts with, on an enabled monitor with a report. */
    method CaptureFinalMeasurements(resources: Option<seq<Resource>>, memory: Option<MemoryInfo>,
        ttfb: Option<int>, tokenLog: Slot<OpenAiApi.UsageEntry>)
      requires metricsEnabled && report.Some?
      modifies this`report
      ensures report == Some(Measured(old(report).value, resources, memory, ttfb, aiResponseTimes, TokenStats(tokenLog)))
    {
      ghost var start := report.value;
      CaptureResourceTiming(resources);
      ghost var r1 := if resources.Some? then WithResources(start, resources.value) else start;
      assert report == Some(r1);
      CaptureMemoryInfo(memory);
      ghost var r2 := if memory.Some? then WithMemory(r1, memory.value) else r1;
      assert report == Some(r2);
      CaptureWebVitals(ttfb);
      assert report == Some(WithVitals(r2, ttfb));
      UpdateAiPerformanceMetrics(tokenLog);
    }

    /**
     * The synchronous part of `generateReport`, up to the upload: refused (`None`, nothing
     * changes) when disabled, without a report or while a report is being generated;
     * otherwise it sets the generating flag, captures the final measurements, adds the
     * session duration, attaches the summary and returns the report to upload.
     */
    method BeginReport(now: int, resources: Option<seq<Resource>>, memory: Option<MemoryInfo>,
        ttfb: Option<int>, tokenLog: Slot<OpenAiApi.UsageEntry>) returns (upload: Option<Report>)
      modifies this`report, this`generatingReport
      ensures !old(metricsEnabled) || old(report).None? || old(generatingReport) ==>
        upload.None? && report == old(report) && generatingReport == old(generatingReport)
      ensures old(metricsEnabled) && old(report).Some? && !old(generatingReport) ==>
        && generatingReport
        && upload == report
        && upload == Some(FinalReport(old(report).value, now, resources, memory, ttfb,
          aiResponseTimes, TokenStats(tokenLog)))
    {
      if !metricsEnabled || report.None? || generatingReport {
        return None;
      }
      generatingReport := true;
      Collect(now, resources, memory, ttfb, tokenLog);
      upload := report;
    }

    /** The body of `generateReport` once the guard has passed: the captures and the summary. */
    method Collect(now: int, resources: Option<seq<Resource>>, memory: Option<MemoryInfo>,
        ttfb: Option<int>, tokenLog: Slot<OpenAiApi.UsageEntry>)
      requires metricsEnabled && report.Some?
      modifies this`report
      ensures report == Some(FinalReport(old(report).value, now, resources, memory, ttfb,
        aiResponseTimes, TokenStats(tokenLog)))
    {
      ghost var start := report.value;
      CaptureFinalMeasurements(resources, memory, ttfb, tokenLog);
      var measured := report.value;
      CaptureMetric("sessionDuration", now - measured.startTime, None, now);
      assert report == Some(WithDuration(measured, now));
      GeneratePerformanceSummary();
    }

    /**
     * The end of `generateReport`, once the upload has settled: the report is discarded
     * and the generating flag cleared.
     */
    method FinishReport()
      modifies this`report, this`generatingReport
      ensures report == None && !generatingReport
    {
      report := None;
      generatingReport := false;
    }
  }

  /** The final measurements `generateReport` captures into the report `r`. */
  function Measured(r: Report, resources: Option<seq<Resource>>, memory: Option<MemoryInfo>,
      ttfb: Option<int>, times: seq<int>, tokens: OpenAiApi.UsageStats): Report
  {
    var r1 := if resources.Some? then WithResources(r, resources.value) else r;
    var r2 := if memory.Some? then WithMemory(r1, memory.value) else r1;
    var r3 := WithVitals(r2, ttfb);
    if times != [] then WithAi(r3, times, tokens) else r3
  }

  /** The `sessionDuration` metric: the time since the report started. */
  function WithDuration(r: Report, now: int): Report
  {
    WithNewMetric(r, Metric(now, "sessionDuration", now - r.startTime, None))
  }

  /** The report `generateReport` has collected before the summary, from the report it started with. */
  function Collected(r: Report, now: int, resources: Option<seq<Resource>>, memory: Option<MemoryInfo>,
      ttfb: Option<int>, times: seq<int>, tokens: OpenAiApi.UsageStats): Report
  {
    WithDuration(Measured(r, resources, memory, ttfb, times, tokens), now)
  }

  /** The report `generateReport` uploads. */
  function FinalReport(r: Report, now: int, resources: Option<seq<Resource>>, memory: Option<MemoryInfo>,
      ttfb: Option<int>, times: seq<int>, tokens: OpenAiApi.UsageStats): Report
  {
    Summarized(Collected(r, now, resources, memory, ttfb, times, tokens))
  }

  /** What `generateReport` collects: the timeline's summary, and the session duration as the newest metric. */
  lemma CollectedSpec(r: Report, now: int, resources: seq<Resource>, memory: Option<MemoryInfo>,
      ttfb: Option<int>, times: seq<int>, tokens: OpenAiApi.UsageStats)
    ensures var c := Collected(r, now, Some(resources), memory, ttfb, times, tokens);
      && c.metrics != [] && c.metrics[|c.metrics| - 1] == Metric(now, "sessionDuration", now - r.startTime, None)
      && c.resourceSummary == Some(ResourceSummaryOf(resources))
      && c.sessionId == r.sessionId && c.startTime == r.startTime
  {
  }

  /**
   * A report built by `generateReport` from a resource timeline carries a summary whose
   * score lies in [30, 100] (the resource size is always assessed) with at least one
   * recommendation, the summary of that timeline, and the session duration as its newest
   * metric.
   */
  lemma FinalReportSpec(r: Report, now: int, resources: seq<Resource>, memory: Option<MemoryInfo>,
      ttfb: Option<int>, times: seq<int>, tokens: OpenAiApi.UsageStats)
    ensures var f := FinalReport(r, now, Some(resources), memory, ttfb, times, tokens);
      && f.summary.Some?
      && 30 <= f.summary.value.overallPerformanceScore <= 100
      && f.summary.value.recommendations != []
      && f.metrics != [] && f.metrics[|f.metrics| - 1] == Metric(now, "sessionDuration", now - r.startTime, None)
      && f.resourceSummary == Some(ResourceSummaryOf(resources))
  {
    var c := Collected(r, now, Some(resources), memory, ttfb, times, tokens);
    CollectedSpec(r, now, resources, memory, ttfb, times, tokens);
    assert |SizeFinding(c)| == 1;
    SummarySpec(c);
  }
}
