/** The metrics tracker and feedback loop of `src/autonomous_dev/learning.py`: an
    append-only log of named measurements, windowed statistics over one name, three
    fixed rules that turn those statistics into insights, and a feedback loop that
    records a batch and turns insights plus a task type into suggestions. */
module SrcLearning {
  import opened Python
  import opened Stats

  /** A reading of `datetime.now()`, supplied by the caller. */
  type Instant = int

  /** One recorded measurement (the dataclass `Metric`). */
  datatype Metric = Metric(name: string, value: real, timestamp: Instant, metadata: Metadata)

  datatype Category = Performance | Quality | BestPractice

  /** The fixed recommendation each rule attaches to its insight. */
  datatype Advice =
    | ReviewTestEfficiency
    | AddTestsForRecentChanges
    | CacheOrParallelizeBuild
    | KeepCoverageHighAfterRefactoring

  /** `LearningInsight`; its free-text description is not modelled. */
  datatype Insight = Insight(category: Category, confidence: real, action: Advice)

  /** One entry of the list `suggest_optimizations` returns. */
  datatype Suggestion = Suggestion(category: Category, action: Advice, priority: real)

  /** The dictionary `analyze_trends` returns. */
  datatype Trends = Trends(mean: real, median: real, trendDirection: real)

  const TestDuration := "test_duration"
  const CoveragePercent := "coverage_percent"
  const BuildTime := "build_time"

  /** A rule looks at a name only once it has this many records ... */
  const MinHistory := 5
  /** ... and then only at this many of the most recent ones. */
  const RuleWindow := 5
  /** The default `window_size` of `analyze_trends`. */
  const DefaultWindow := 5

  const SlowTests := Insight(Performance, 0.8, ReviewTestEfficiency)
  const FallingCoverage := Insight(Quality, 0.85, AddTestsForRecentChanges)
  const SlowBuilds := Insight(Performance, 0.7, CacheOrParallelizeBuild)
  const RefactoringAdvice := Suggestion(BestPractice, KeepCoverageHighAfterRefactoring, 0.9)

  // ---------------------------------------------------------------------------
  // Queries over the log

  /** The records of the log with the given name, in log order. */
  function Named(log: seq<Metric>, name: string): seq<Metric>
  {
    if log == [] then []
    else
      var last := log[|log| - 1];
      Named(log[..|log| - 1], name) + (if last.name == name then [last] else [])
  }

  /** `get_metrics(metric_name)`: the whole log for None, else the records of that name. */
  function GetMetrics(log: seq<Metric>, name: Option<string>): seq<Metric>
  {
    match name
    case None => log
    case Some(n) => Named(log, n)
  }

  /** Filtering a log by name distributes over concatenation: recording more metrics
      only appends to every filtered view, so each view keeps insertion order. */
  lemma {:induction false} NamedAppend(a: seq<Metric>, b: seq<Metric>, name: string)
    ensures Named(a + b, name) == Named(a, name) + Named(b, name)
    decreases |b|
  {
    if b == [] {
      assert a + b == a;
    } else {
      var c := b[..|b| - 1];
      assert (a + b)[..|a + b| - 1] == a + c;
      NamedAppend(a, c, name);
    }
  }

  /** `get_metrics(n)` holds exactly the records named n: each of them, as many times as
      it occurs in the log, and nothing else; `get_metrics(None)` is the whole log. */
  lemma {:induction false} GetMetricsExact(log: seq<Metric>, name: Option<string>)
    ensures name.None? ==> GetMetrics(log, name) == log
    ensures name.Some? ==> forall m :: multiset(GetMetrics(log, name))[m]
                                       == if m.name == name.value then multiset(log)[m] else 0
    ensures name.Some? ==> forall m :: m in GetMetrics(log, name) ==> m.name == name.value
    decreases |log|
  {
    if name.Some? && log != [] {
      var init := log[..|log| - 1];
      GetMetricsExact(init, name);
      assert log == init + [log[|log| - 1]];
    }
    if name.Some? {
      forall m | m in GetMetrics(log, name) ensures m.name == name.value {
        assert multiset(GetMetrics(log, name))[m] > 0;
      }
    }
  }

  /** The values of a list of records, in order. */
  function Values(ms: seq<Metric>): (vs: seq<real>)
    ensures |vs| == |ms|
  {
    seq(|ms|, i requires 0 <= i < |ms| => ms[i].value)
  }

  /** The trend of a window: the mean of its second half minus the mean of its first
      half, where the first half is the shorter one; 0 for a single value. For two or
      more values the first half is never empty, so the source's fallback to the first
      value never applies. */
  function HalvesTrend(values: seq<real>): real
    requires |values| > 0
  {
    if |values| >= 2 then
      var mid := |values| / 2;
      Mean(values[mid..]) - Mean(values[..mid])
    else 0.0
  }

  /** `analyze_trends(metric_name, window_size)`: zeros when the name has no records;
      otherwise the statistics of the values of the slice `metrics[-window_size:]`.
      That slice is empty only for a negative window that drops every record, where
      `statistics.mean` raises. */
  function AnalyzeTrends(log: seq<Metric>, name: string, windowSize: int): Result<Trends>
  {
    var metrics := Named(log, name);
    if metrics == [] then Ok(Trends(0.0, 0.0, 0.0))
    else
      var values := Values(Suffix(metrics, windowSize));
      if values == [] then Err(StatisticsError)
      else Ok(Trends(Mean(values), Median(values), HalvesTrend(values)))
  }

  /** Which records `analyze_trends` looks at: none for an unknown name; for a positive
      window the last `window_size` records of the name (all of them when there are
      fewer); for a zero window, `[-0:]`, all of them. It fails only for a negative
      window at least as large as the number of records. */
  lemma AnalyzeTrendsWindow(log: seq<Metric>, name: string, windowSize: int)
    ensures Named(log, name) == [] ==> AnalyzeTrends(log, name, windowSize) == Ok(Trends(0.0, 0.0, 0.0))
    ensures AnalyzeTrends(log, name, windowSize).Err? <==>
              Named(log, name) != [] && windowSize < 0 && -windowSize >= |Named(log, name)|
    ensures Named(log, name) != [] && windowSize >= 0 ==>
              var metrics := Named(log, name);
              var n := if windowSize == 0 || windowSize > |metrics| then |metrics| else windowSize;
              var values := Values(metrics[|metrics| - n..]);
              |values| > 0 &&
              AnalyzeTrends(log, name, windowSize)
                == Ok(Trends(Mean(values), Median(values), HalvesTrend(values)))
  {
    var metrics := Named(log, name);
    var window := Suffix(metrics, windowSize);
    SuffixShape(metrics, windowSize);
    assert |Values(window)| == |window|;
    if metrics != [] && windowSize >= 0 {
      var n := if windowSize == 0 || windowSize > |metrics| then |metrics| else windowSize;
      assert window == metrics[|metrics| - n..];
    }
  }

  /** `analyze_trends` with its default window never raises, and analyses the last five
      records of the name, or all of them when there are fewer. */
  lemma DefaultWindowNeverFails(log: seq<Metric>, name: string)
    ensures AnalyzeTrends(log, name, DefaultWindow).Ok?
    ensures Named(log, name) != [] ==>
              var metrics := Named(log, name);
              var values := Values(Suffix(metrics, DefaultWindow));
              |values| == MinInt(DefaultWindow, |metrics|) && |values| > 0
              && AnalyzeTrends(log, name, DefaultWindow).value
                 == Trends(Mean(values), Median(values), HalvesTrend(values))
  {
    AnalyzeTrendsWindow(log, name, DefaultWindow);
    SuffixShape(Named(log, name), DefaultWindow);
  }

  /** With two or more values both halves of the window are non-empty and together make
      up the window, so the source's fallback to the first value for an empty first half
      never applies; with one value the trend is 0. */
  lemma HalvesTrendSplit(values: seq<real>)
    requires |values| > 0
    ensures |values| == 1 ==> HalvesTrend(values) == 0.0
    ensures |values| >= 2 ==>
              var mid := |values| / 2;
              && 1 <= mid < |values|
              && values[..mid] + values[mid..] == values
              && HalvesTrend(values) == Mean(values[mid..]) - Mean(values[..mid])
  {
  }

  /** A window of equal values has that value as its mean and median, and no trend. */
  lemma ConstantWindow(values: seq<real>, c: real)
    requires |values| > 0 && AllEqual(values, c)
    ensures Mean(values) == c && Median(values) == c && HalvesTrend(values) == 0.0
  {
    ConstantStats(values, c);
    ConstantMedian(values, c);
    if |values| >= 2 {
      var mid := |values| / 2;
      ConstantStats(values[mid..], c);
      ConstantStats(values[..mid], c);
    }
  }

  predicate StrictlyIncreasing(values: seq<real>)
  {
    forall i, j :: 0 <= i < j < |values| ==> values[i] < values[j]
  }

  /** A strictly increasing window of two or more values has a positive trend: every
      value of the second half exceeds every value of the first. */
  lemma IncreasingWindowTrend(values: seq<real>)
    requires |values| >= 2 && StrictlyIncreasing(values)
    ensures HalvesTrend(values) > 0.0
  {
    var mid := |values| / 2;
    var first, second := values[..mid], values[mid..];
    var pivot := values[mid - 1];
    assert Mean(first) <= pivot by {
      forall x | x in first ensures Min(first) <= x <= pivot {
        var i :| 0 <= i < mid && first[i] == x;
        assert values[i] == x;
      }
      MeanWithin(first, Min(first), pivot);
    }
    assert pivot < Mean(second) by {
      var lo := Min(second);
      assert pivot < lo by {
        var i :| 0 <= i < |second| && second[i] == lo;
        assert values[mid + i] == lo;
      }
      MeanWithin(second, lo, Max(second));
    }
  }

  // ---------------------------------------------------------------------------
  // Insight rules

  /** The trend statistics over the last `RuleWindow` records of a name that has at
      least `MinHistory` of them; such a window is never empty. */
  function RecentTrends(log: seq<Metric>, name: string): Trends
    requires |Named(log, name)| >= MinHistory
  {
    var r := AnalyzeTrends(log, name, RuleWindow);
    assert r.Ok? by { AnalyzeTrendsWindow(log, name, RuleWindow); }
    r.value
  }

  predicate TestsSlowingDown(log: seq<Metric>)
  {
    |Named(log, TestDuration)| >= MinHistory && RecentTrends(log, TestDuration).trendDirection > 0.5
  }

  predicate CoverageDeclining(log: seq<Metric>)
  {
    |Named(log, CoveragePercent)| >= MinHistory && RecentTrends(log, CoveragePercent).trendDirection < -2.0
  }

  predicate BuildsSlow(log: seq<Metric>)
  {
    |Named(log, BuildTime)| >= MinHistory && RecentTrends(log, BuildTime).mean > 300.0
  }

  /** The insights of the three rules, given which of them fire, in rule order. */
  function Emit(slowTests: bool, fallingCoverage: bool, slowBuilds: bool): seq<Insight>
  {
    var first := if slowTests then [SlowTests] else [];
    var second := if fallingCoverage then first + [FallingCoverage] else first;
    if slowBuilds then second + [SlowBuilds] else second
  }

  /** `generate_insights()` as a function of the log. */
  function Insights(log: seq<Metric>): seq<Insight>
  {
    Emit(TestsSlowingDown(log), CoverageDeclining(log), BuildsSlow(log))
  }

  lemma EmitRules(a: bool, b: bool, c: bool)
    ensures |Emit(a, b, c)| <= 3
    ensures SlowTests in Emit(a, b, c) <==> a
    ensures FallingCoverage in Emit(a, b, c) <==> b
    ensures SlowBuilds in Emit(a, b, c) <==> c
    ensures forall i :: 0 <= i < |Emit(a, b, c)| ==> 0.7 <= Emit(a, b, c)[i].confidence <= 0.85
    ensures forall i :: 0 <= i < |Emit(a, b, c)| ==> Emit(a, b, c)[i].category != BestPractice
    ensures forall i, j :: 0 <= i < j < |Emit(a, b, c)| ==> Emit(a, b, c)[i] != Emit(a, b, c)[j]
    ensures a ==> Emit(a, b, c)[0] == SlowTests
    ensures c ==> Emit(a, b, c)[|Emit(a, b, c)| - 1] == SlowBuilds
  {
  }

  /** Each insight appears exactly when its rule fires, at most once, in rule order;
      every confidence is one of the rules' constants, between 0.7 and 0.85. */
  lemma InsightRules(log: seq<Metric>)
    ensures |Insights(log)| <= 3
    ensures SlowTests in Insights(log) <==> TestsSlowingDown(log)
    ensures FallingCoverage in Insights(log) <==> CoverageDeclining(log)
    ensures SlowBuilds in Insights(log) <==> BuildsSlow(log)
    ensures forall i :: 0 <= i < |Insights(log)| ==> 0.7 <= Insights(log)[i].confidence <= 0.85
    ensures forall i :: 0 <= i < |Insights(log)| ==> Insights(log)[i].category != BestPractice
    ensures forall i, j :: 0 <= i < j < |Insights(log)| ==> Insights(log)[i] != Insights(log)[j]
    ensures TestsSlowingDown(log) ==> Insights(log)[0] == SlowTests
    ensures BuildsSlow(log) ==> Insights(log)[|Insights(log)| - 1] == SlowBuilds
  {
    EmitRules(TestsSlowingDown(log), CoverageDeclining(log), BuildsSlow(log));
  }

  /** With fewer than `MinHistory` records of every watched name there are no insights. */
  lemma ShortHistoryNoInsights(log: seq<Metric>)
    requires |Named(log, TestDuration)| < MinHistory
    requires |Named(log, CoveragePercent)| < MinHistory
    requires |Named(log, BuildTime)| < MinHistory
    ensures Insights(log) == []
  {
  }

  // ---------------------------------------------------------------------------
  // Suggestions

  function ToSuggestion(insight: Insight): Suggestion
  {
    Suggestion(insight.category, insight.action, insight.confidence)
  }

  /** One suggestion per insight of confidence at least 0.7, in order. */
  function Confident(insights: seq<Insight>): seq<Suggestion>
  {
    if insights == [] then []
    else
      var last := insights[|insights| - 1];
      Confident(insights[..|insights| - 1]) + (if last.confidence >= 0.7 then [ToSuggestion(last)] else [])
  }

  /** `context.get("task_type") == "refactoring"`: exact, case-sensitive. */
  predicate IsRefactoring(context: map<string, Scalar>)
  {
    "task_type" in context && context["task_type"] == Text("refactoring")
  }

  /** `suggest_optimizations(context)` for a given list of insights. */
  function Suggestions(insights: seq<Insight>, context: map<string, Scalar>): seq<Suggestion>
  {
    Confident(insights) + (if IsRefactoring(context) then [RefactoringAdvice] else [])
  }

  /** When every insight is confident, each becomes the suggestion at its own position. */
  lemma {:induction false} ConfidentKeepsAll(insights: seq<Insight>)
    requires forall i :: 0 <= i < |insights| ==> insights[i].confidence >= 0.7
    ensures |Confident(insights)| == |insights|
    ensures forall i :: 0 <= i < |insights| ==> Confident(insights)[i] == ToSuggestion(insights[i])
    decreases |insights|
  {
    if insights != [] {
      ConfidentKeepsAll(insights[..|insights| - 1]);
    }
  }

  /** The suggestions for a list of confident rule insights: one per insight, with the
      insight's confidence as priority and in the same order, then the refactoring advice
      of priority 0.9 exactly when the task type is "refactoring"; every priority is at
      least 0.7. */
  lemma SuggestionsFor(ins: seq<Insight>, context: map<string, Scalar>)
    requires forall i :: 0 <= i < |ins| ==> ins[i].confidence >= 0.7 && ins[i].category != BestPractice
    ensures var s := Suggestions(ins, context);
            && |s| == |ins| + (if IsRefactoring(context) then 1 else 0)
            && (forall i :: 0 <= i < |ins| ==> s[i] == ToSuggestion(ins[i]))
            && (IsRefactoring(context) <==> RefactoringAdvice in s)
            && (IsRefactoring(context) ==> s[|s| - 1] == RefactoringAdvice)
            && (forall i :: 0 <= i < |s| ==> s[i].priority >= 0.7)
  {
    ConfidentKeepsAll(ins);
    var s := Suggestions(ins, context);
    forall i | 0 <= i < |ins| ensures s[i] != RefactoringAdvice {
      assert s[i].category == ins[i].category != BestPractice;
    }
  }

  /** The records `evaluate_iteration` adds for a batch, in the batch's iteration order,
      each without metadata. */
  function Recorded(batch: seq<(string, real)>, now: Instant): (ms: seq<Metric>)
    ensures |ms| == |batch|
  {
    seq(|batch|, i requires 0 <= i < |batch| => Metric(batch[i].0, batch[i].1, now, map[]))
  }

  // ---------------------------------------------------------------------------
  // State

  /** `MetricsTracker` without its optional file storage. */
  class MetricsTracker {
    var metrics: seq<Metric>

    constructor ()
      ensures metrics == []
    {
      metrics := [];
    }

    /** `record_metric`: appends one record, with `metadata or {}`, and nothing else. */
    method RecordMetric(name: string, value: real, metadata: Option<Metadata>, now: Instant)
      modifies this
      ensures metrics == old(metrics) + [Metric(name, value, now, OrEmpty(metadata))]
    {
      var metric := Metric(name, value, now, OrEmpty(metadata));
      metrics := metrics + [metric];
    }

    /** `generate_insights()`: builds the list rule by rule. */
    method GenerateInsights() returns (insights: seq<Insight>)
      ensures insights == Insights(metrics)
    {
      insights := [];
      var testMetrics := GetMetrics(metrics, Some(TestDuration));
      if |testMetrics| >= MinHistory {
        var trends := RecentTrends(metrics, TestDuration);
        if trends.trendDirection > 0.5 {
          insights := insights + [SlowTests];
        }
      }
      ghost var first := insights;
      var coverageMetrics := GetMetrics(metrics, Some(CoveragePercent));
      if |coverageMetrics| >= MinHistory {
        var trends := RecentTrends(metrics, CoveragePercent);
        if trends.trendDirection < -2.0 {
          insights := insights + [FallingCoverage];
        }
      }
      ghost var second := insights;
      var buildMetrics := GetMetrics(metrics, Some(BuildTime));
      if |buildMetrics| >= MinHistory {
        var trends := RecentTrends(metrics, BuildTime);
        if trends.mean > 300.0 {
          insights := insights + [SlowBuilds];
        }
      }
      assert first == (if TestsSlowingDown(metrics) then [SlowTests] else []);
      assert second == (if CoverageDeclining(metrics) then first + [FallingCoverage] else first);
      assert insights == (if BuildsSlow(metrics) then second + [SlowBuilds] else second);
    }
  }

  /** The loop of `suggest_optimizations` over the insights: one suggestion per insight of
      confidence at least 0.7, in order. */
  method ConfidentSuggestions(insights: seq<Insight>) returns (list: seq<Suggestion>)
    ensures list == Confident(insights)
  {
    list := [];
    var i := 0;
    while i < |insights|
      invariant 0 <= i <= |insights|
      invariant list == Confident(insights[..i])
    {
      var insight := insights[i];
      assert insights[..i + 1][..i] == insights[..i];
      if insight.confidence >= 0.7 {
        list := list + [ToSuggestion(insight)];
      }
      i := i + 1;
    }
    assert insights[..i] == insights;
  }

  /** `FeedbackLoop` over a tracker it shares with its caller. */
  class FeedbackLoop {
    const tracker: MetricsTracker

    constructor (tracker: MetricsTracker)
      ensures this.tracker == tracker
    {
      this.tracker := tracker;
    }

    /** `evaluate_iteration(metrics)`: records every entry in iteration order, then
        returns the insights of the updated log. */
    method EvaluateIteration(batch: seq<(string, real)>, now: Instant) returns (insights: seq<Insight>)
      modifies tracker
      ensures tracker.metrics == old(tracker.metrics) + Recorded(batch, now)
      ensures insights == Insights(tracker.metrics)
    {
      var i := 0;
      while i < |batch|
        invariant 0 <= i <= |batch|
        invariant tracker.metrics == old(tracker.metrics) + Recorded(batch[..i], now)
      {
        var (name, value) := batch[i];
        tracker.RecordMetric(name, value, None, now);
        assert Recorded(batch[..i + 1], now) == Recorded(batch[..i], now) + [Metric(name, value, now, map[])];
        i := i + 1;
      }
      assert batch[..i] == batch;
      insights := tracker.GenerateInsights();
    }

    /** `suggest_optimizations(context)`: reads the tracker and changes nothing. */
    method SuggestOptimizations(context: map<string, Scalar>) returns (suggestions: seq<Suggestion>)
      ensures suggestions == Suggestions(Insights(tracker.metrics), context)
    {
      var insights := tracker.GenerateInsights();
      suggestions := ConfidentSuggestions(insights);
      if "task_type" in context && context["task_type"] == Text("refactoring") {
        suggestions := suggestions + [RefactoringAdvice];
      }
    }
  }
}
