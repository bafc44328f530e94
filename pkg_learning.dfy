/** The metrics tracker and feedback loop of `autonomous_dev/learning.py`, the second copy
    of the learning module: windowed mean, minimum, maximum and endpoint slope, two rules
    whose confidences grow with the trend and are capped at 1.0, and suggestions that
    keep only priorities of at least 0.7. */
module PkgLearning {
  import opened Python
  import opened Stats

  /** `datetime.now(UTC).isoformat(timespec="seconds")`, supplied by the caller. */
  type Timestamp = string

  /** One recorded measurement (the dataclass `MetricEntry`). */
  datatype MetricEntry = MetricEntry(timestamp: Timestamp, metricName: string, value: real, metadata: Metadata)

  datatype Category = Performance | Quality | Refactoring

  /** The fixed recommendation attached to each insight and suggestion. */
  datatype Advice = OptimizeTestBottlenecks | AddTestsForChangedCode | SimplifyComplexFunctions

  /** `LearningInsight`; its free-text description is not modelled. */
  datatype Insight = Insight(category: Category, confidence: real, action: Advice)

  /** One entry of the list `suggest_optimizations` returns. */
  datatype Suggestion = Suggestion(category: Category, action: Advice, priority: real)

  /** The dictionary `analyze_trends` returns. */
  datatype Trends = Trends(mean: real, min: real, max: real, trendDirection: real)

  const TestDuration := "test_duration"
  const CoveragePercent := "coverage_percent"

  /** The window both rules analyse, and the number of records a rule needs. */
  const RuleWindow := 10
  const MinHistory := 5
  /** The default `window_size` of `analyze_trends`. */
  const DefaultWindow := 10

  /** The `1e-6` added to the denominators of the confidence formulas. */
  const Epsilon: real := 0.000001

  const RefactoringAdvice := Suggestion(Refactoring, SimplifyComplexFunctions, 0.85)

  function Abs(x: real): real { if x < 0.0 then -x else x }

  /** The builtin `min(a, b)`. */
  function MinOf(a: real, b: real): real { if b < a then b else a }

  // ---------------------------------------------------------------------------
  // Queries over the log

  /** The entries of the log with the given name, in log order. */
  function Named(log: seq<MetricEntry>, name: string): seq<MetricEntry>
  {
    if log == [] then []
    else
      var last := log[|log| - 1];
      Named(log[..|log| - 1], name) + (if last.metricName == name then [last] else [])
  }

  /** `get_metrics(metric_name)`: a copy of the whole log for None, else the entries of
      that name. */
  function GetMetrics(log: seq<MetricEntry>, name: Option<string>): seq<MetricEntry>
  {
    match name
    case None => log
    case Some(n) => Named(log, n)
  }

  /** Filtering the log by name distributes over concatenation: recording more entries
      only appends to every filtered view, so each view keeps insertion order. */
  lemma {:induction false} NamedAppend(a: seq<MetricEntry>, b: seq<MetricEntry>, name: string)
    ensures Named(a + b, name) == Named(a, name) + Named(b, name)
    decreases |b|
  {
    if b == [] {
      assert a + b == a;
    } else {
      var c := b[..|b| - 1];
      assert (a + b)[..|a + b| - 1] == a + c;
      NamedAppend(a, c, name);
    }
  }

  /** An entry is in the view of a name exactly when it is in the log with that name. */
  lemma {:induction false} NamedMembers(log: seq<MetricEntry>, name: string)
    ensures forall m :: m in Named(log, name) <==> m in log && m.metricName == name
    decreases |log|
  {
    if log != [] {
      var init := log[..|log| - 1];
      NamedMembers(init, name);
      assert log == init + [log[|log| - 1]];
    }
  }

  /** `get_metrics(n)` holds exactly the entries named n, each as many times as it occurs
      in the log; `get_metrics(None)` is the whole log. */
  lemma {:induction false} GetMetricsExact(log: seq<MetricEntry>, name: Option<string>)
    ensures name.None? ==> GetMetrics(log, name) == log
    ensures name.Some? ==> forall m :: multiset(GetMetrics(log, name))[m]
                                       == if m.metricName == name.value then multiset(log)[m] else 0
    ensures name.Some? ==> forall m :: m in GetMetrics(log, name) ==> m.metricName == name.value
    decreases |log|
  {
    if name.Some? && log != [] {
      var init := log[..|log| - 1];
      GetMetricsExact(init, name);
      assert log == init + [log[|log| - 1]];
    }
    if name.Some? {
      forall m | m in GetMetrics(log, name) ensures m.metricName == name.value {
        assert multiset(GetMetrics(log, name))[m] > 0;
      }
    }
  }

  function Values(ms: seq<MetricEntry>): (vs: seq<real>)
    ensures |vs| == |ms|
  {
    seq(|ms|, i requires 0 <= i < |ms| => ms[i].value)
  }

  /** The slope between the first and the last value: `(last - first) / (n - 1)`, and
      0 for a single value. */
  function EndpointSlope(data: seq<real>): real
    requires |data| > 0
  {
    if |data| > 1 then (data[|data| - 1] - data[0]) / (|data| - 1) as real else 0.0
  }

  /** `analyze_trends(metric_name, window_size)`: the statistics of the values of the
      slice `[-window_size:]` of that name's values, or zeros when the slice is empty. */
  function AnalyzeTrends(log: seq<MetricEntry>, name: string, windowSize: int): Trends
  {
    var data := Suffix(Values(Named(log, name)), windowSize);
    if data == [] then Trends(0.0, 0.0, 0.0, 0.0)
    else Trends(Mean(data), Min(data), Max(data), EndpointSlope(data))
  }

  /** Without data every statistic is 0; with data the mean is `sum / len` and lies
      between the minimum and the maximum, which are values of the window; for a
      positive window the data are the last `window_size` values of the name. */
  lemma AnalyzeTrendsStats(log: seq<MetricEntry>, name: string, windowSize: int)
    ensures var data := Suffix(Values(Named(log, name)), windowSize);
            var t := AnalyzeTrends(log, name, windowSize);
            && (data == [] ==> t == Trends(0.0, 0.0, 0.0, 0.0))
            && (data != [] ==> t.mean == Sum(data) / |data| as real
                               && t.min <= t.mean <= t.max
                               && t.min in data && t.max in data)
            && (Named(log, name) == [] ==> data == [])
            && (windowSize > 0 ==> |data| == MinInt(windowSize, |Named(log, name)|))
  {
    var data := Suffix(Values(Named(log, name)), windowSize);
    SuffixShape(Values(Named(log, name)), windowSize);
    if data != [] {
      MeanBetween(data);
    }
  }

  predicate Rising(data: seq<real>)
  {
    forall i :: 0 <= i < |data| - 1 ==> data[i] < data[i + 1]
  }

  /** In a window where each value exceeds the one before, the last exceeds the first. */
  lemma {:induction false} RisingEnds(data: seq<real>)
    requires |data| > 1 && Rising(data)
    ensures data[0] < data[|data| - 1]
    decreases |data|
  {
    if |data| > 2 {
      var init := data[..|data| - 1];
      assert Rising(init);
      RisingEnds(init);
    }
  }

  /** A strictly increasing window of two or more values has a positive trend. */
  lemma RisingSlope(data: seq<real>)
    requires |data| > 1 && Rising(data)
    ensures EndpointSlope(data) > 0.0
  {
    RisingEnds(data);
  }

  /** A log whose entries all carry one name is its own view of that name. */
  lemma {:induction false} NamedAll(log: seq<MetricEntry>, name: string)
    requires forall i :: 0 <= i < |log| ==> log[i].metricName == name
    ensures Named(log, name) == log
    decreases |log|
  {
    if log != [] {
      NamedAll(log[..|log| - 1], name);
    }
  }

  /** The values 0.0, 1.0, ..., 9.0, in that order. */
  predicate ZeroToNine(data: seq<real>)
  {
    |data| == 10 && forall i :: 0 <= i < 10 ==> data[i] == i as real
  }

  /** The values k, k + 1, ..., 9 sum to (10 - k)(9 + k) / 2. */
  lemma {:induction false} ZeroToNineTail(data: seq<real>, k: nat)
    requires ZeroToNine(data) && k <= 10
    ensures Sum(data[k..]) == ((10 - k) * (9 + k)) as real / 2.0
    decreases 10 - k
  {
    if k < 10 {
      ZeroToNineTail(data, k + 1);
      assert data[k..][1..] == data[k + 1..];
      assert (10 - k) * (9 + k) == (10 - (k + 1)) * (9 + (k + 1)) + 2 * k;
    }
  }

  /** The values 0.0, 1.0, ..., 9.0 sum to 45.0. */
  lemma ZeroToNineSum(data: seq<real>)
    requires ZeroToNine(data)
    ensures Sum(data) == 45.0
  {
    ZeroToNineTail(data, 0);
    assert data[0..] == data;
  }

  /** The values 0.0, 1.0, ..., 9.0 have mean 4.5, minimum 0.0, maximum 9.0 and an
      endpoint slope of 1.0. */
  lemma ZeroToNineStats(data: seq<real>)
    requires ZeroToNine(data)
    ensures Mean(data) == 4.5 && Min(data) == 0.0 && Max(data) == 9.0 && EndpointSlope(data) == 1.0
  {
    ZeroToNineSum(data);
    forall x | x in data ensures 0.0 <= x <= 9.0 {
      var k :| 0 <= k < |data| && data[k] == x;
    }
    assert data[0] in data && data[9] in data;
  }

  /** The test of `analyze_trends`: durations 0.0, 1.0, ..., 9.0 recorded in turn and
      analysed over a window of ten give mean 4.5, minimum 0.0, maximum 9.0 and a
      positive trend. */
  lemma ZeroToNineTrends()
    ensures var log := seq(10, i requires 0 <= i < 10 => MetricEntry("", TestDuration, i as real, map[]));
            AnalyzeTrends(log, TestDuration, DefaultWindow) == Trends(4.5, 0.0, 9.0, 1.0)
  {
    var log := seq(10, i requires 0 <= i < 10 => MetricEntry("", TestDuration, i as real, map[]));
    NamedAll(log, TestDuration);
    var data := Values(log);
    assert ZeroToNine(data);
    assert Suffix(data, 10) == data;
    ZeroToNineStats(data);
  }

  // ---------------------------------------------------------------------------
  // Insight rules

  /** The performance rule on the statistics of the last ten test durations and the
      number of test durations recorded. */
  function PerformanceRule(stats: Trends, count: nat): Result<Option<Insight>>
  {
    var trend := stats.trendDirection;
    if trend > 0.1 && count >= MinHistory then
      var denominator := stats.mean + Epsilon;
      if denominator == 0.0 then Err(ZeroDivisionError)
      else
        var confidence := MinOf(1.0, 0.7 + MinOf(0.3, Abs(trend) / denominator));
        Ok(Some(Insight(Performance, confidence, OptimizeTestBottlenecks)))
    else Ok(None)
  }

  /** `_generate_performance_insight()`: when the test-duration trend over the last ten
      values exceeds 0.1 and there are at least five test durations, an insight of
      confidence `min(1, 0.7 + min(0.3, |trend| / (mean + 1e-6)))`; dividing by zero
      raises. */
  function PerformanceInsight(log: seq<MetricEntry>): Result<Option<Insight>>
  {
    PerformanceRule(AnalyzeTrends(log, TestDuration, RuleWindow), |Named(log, TestDuration)|)
  }

  /** The quality rule on the statistics of the last ten coverage values and the number
      of coverage values recorded. */
  function QualityRule(stats: Trends, count: nat): Option<Insight>
  {
    var trend := stats.trendDirection;
    if trend < -0.1 && count >= MinHistory then
      var confidence := MinOf(1.0, 0.75 + MinOf(0.25, Abs(trend) / (Abs(stats.mean) + Epsilon)));
      Some(Insight(Quality, confidence, AddTestsForChangedCode))
    else None
  }

  /** `_generate_quality_insight()`: when the coverage trend over the last ten values is
      below -0.1 and there are at least five coverage values, an insight of confidence
      `min(1, 0.75 + min(0.25, |trend| / (|mean| + 1e-6)))`. */
  function QualityInsight(log: seq<MetricEntry>): Option<Insight>
  {
    QualityRule(AnalyzeTrends(log, CoveragePercent, RuleWindow), |Named(log, CoveragePercent)|)
  }

  /** The performance rule fires exactly when its trend and history conditions hold. It
      raises only when the mean of the window is exactly -1e-6. Its confidence is at most
      1.0, and at least 0.7 whenever the mean is not negative. */
  lemma PerformanceRuleSpec(stats: Trends, count: nat)
    ensures var fires := stats.trendDirection > 0.1 && count >= MinHistory;
            var r := PerformanceRule(stats, count);
            && (r.Err? <==> fires && stats.mean == -Epsilon)
            && (r.Ok? && r.value.Some? <==> fires && stats.mean != -Epsilon)
            && (r.Ok? && r.value.Some? ==> r.value.value.category == Performance
                                           && r.value.value.confidence <= 1.0)
            && (r.Ok? && r.value.Some? && stats.mean >= 0.0 ==> 0.7 <= r.value.value.confidence)
  {
    var trend := stats.trendDirection;
    if stats.mean >= 0.0 && trend > 0.1 {
      var denominator := stats.mean + Epsilon;
      assert denominator > 0.0;
      assert Abs(trend) / denominator >= 0.0;
    }
  }

  /** The quality rule fires exactly when its trend and history conditions hold, never
      raises, and its confidence lies between 0.75 and 1.0. */
  lemma QualityRuleSpec(stats: Trends, count: nat)
    ensures var r := QualityRule(stats, count);
            && (r.Some? <==> stats.trendDirection < -0.1 && count >= MinHistory)
            && (r.Some? ==> r.value.category == Quality && 0.75 <= r.value.confidence <= 1.0)
  {
    var denominator := Abs(stats.mean) + Epsilon;
    assert denominator > 0.0;
    assert Abs(stats.trendDirection) / denominator >= 0.0;
  }

  /** Test durations are never negative in practice; then the performance rule cannot
      divide by zero. */
  lemma NonNegativeDurationsNeverRaise(log: seq<MetricEntry>)
    requires forall m :: m in Named(log, TestDuration) ==> m.value >= 0.0
    ensures PerformanceInsight(log).Ok?
  {
    var values := Values(Named(log, TestDuration));
    var data := Suffix(values, RuleWindow);
    SuffixShape(values, RuleWindow);
    if data != [] {
      forall x | x in data ensures 0.0 <= x <= Max(data) {
        var i :| 0 <= i < |data| && data[i] == x;
        var k := |values| - |data| + i;
        assert values[k] == x;
        assert Named(log, TestDuration)[k] in Named(log, TestDuration);
      }
      MeanWithin(data, 0.0, Max(data));
    }
    PerformanceRuleSpec(AnalyzeTrends(log, TestDuration, RuleWindow), |Named(log, TestDuration)|);
  }

  function OptionToSeq(o: Option<Insight>): seq<Insight>
  {
    match o
    case None => []
    case Some(x) => [x]
  }

  /** The performance insight, if any, then the quality insight, if any; an exception of
      the performance rule propagates. */
  function Combine(perf: Result<Option<Insight>>, qual: Option<Insight>): Result<seq<Insight>>
  {
    match perf
    case Err(e) => Err(e)
    case Ok(p) => Ok(OptionToSeq(p) + OptionToSeq(qual))
  }

  /** `generate_insights()`. */
  function Insights(log: seq<MetricEntry>): Result<seq<Insight>>
  {
    Combine(PerformanceInsight(log), QualityInsight(log))
  }

  /** Combining a performance outcome with a quality outcome: at most two insights, the
      performance one first, failing exactly when the performance rule does. */
  lemma CombineOrder(perf: Result<Option<Insight>>, qual: Option<Insight>)
    requires perf.Ok? && perf.value.Some? ==> perf.value.value.category == Performance
    requires qual.Some? ==> qual.value.category == Quality
    ensures Combine(perf, qual).Err? <==> perf.Err?
    ensures Combine(perf, qual).Ok? ==>
              var ins := Combine(perf, qual).value;
              && |ins| <= 2
              && (forall i :: 0 <= i < |ins| ==> ins[i].category != Refactoring)
              && (perf.value.Some? ==> ins[0].category == Performance)
              && (qual.Some? ==> ins[|ins| - 1].category == Quality)
              && (|ins| == 2 ==> ins[0].category == Performance && ins[1].category == Quality)
  {
  }

  /** At most two insights, the performance one first; the call fails exactly when the
      performance rule does. */
  lemma InsightsOrder(log: seq<MetricEntry>)
    ensures Insights(log).Err? <==> PerformanceInsight(log).Err?
    ensures Insights(log).Ok? ==>
              var ins := Insights(log).value;
              && |ins| <= 2
              && (forall i :: 0 <= i < |ins| ==> ins[i].category != Refactoring)
              && (PerformanceInsight(log).value.Some? ==> ins[0].category == Performance)
              && (QualityInsight(log).Some? ==> ins[|ins| - 1].category == Quality)
              && (|ins| == 2 ==> ins[0].category == Performance && ins[1].category == Quality)
  {
    PerformanceRuleSpec(AnalyzeTrends(log, TestDuration, RuleWindow), |Named(log, TestDuration)|);
    QualityRuleSpec(AnalyzeTrends(log, CoveragePercent, RuleWindow), |Named(log, CoveragePercent)|);
    CombineOrder(PerformanceInsight(log), QualityInsight(log));
  }

  // ---------------------------------------------------------------------------
  // Suggestions

  function ToSuggestion(insight: Insight): Suggestion
  {
    Suggestion(insight.category, insight.action, insight.confidence)
  }

  /** One suggestion per insight of confidence at least 0.7, in order. */
  function Confident(insights: seq<Insight>): seq<Suggestion>
  {
    if insights == [] then []
    else
      var last := insights[|insights| - 1];
      Confident(insights[..|insights| - 1]) + (if last.confidence >= 0.7 then [ToSuggestion(last)] else [])
  }

  /** The closing list comprehension: the suggestions of priority at least 0.7, in order. */
  function HighPriority(suggestions: seq<Suggestion>): seq<Suggestion>
  {
    if suggestions == [] then []
    else
      var last := suggestions[|suggestions| - 1];
      HighPriority(suggestions[..|suggestions| - 1]) + (if last.priority >= 0.7 then [last] else [])
  }

  /** `str(context.get("task_type", "")).lower() == "refactoring"`. */
  predicate IsRefactoring(context: map<string, Scalar>)
  {
    "task_type" in context && context["task_type"].Text? && Lower(context["task_type"].s) == "refactoring"
  }

  /** `suggest_optimizations(context)` for a given list of insights. */
  function Suggestions(insights: seq<Insight>, context: map<string, Scalar>): seq<Suggestion>
  {
    HighPriority(Confident(insights) + (if IsRefactoring(context) then [RefactoringAdvice] else []))
  }

  /** The final filter keeps exactly the suggestions of priority at least 0.7, in order. */
  lemma {:induction false} HighPrioritySpec(s: seq<Suggestion>)
    ensures forall x :: x in HighPriority(s) ==> x in s && x.priority >= 0.7
    ensures forall x :: x in s && x.priority >= 0.7 ==> x in HighPriority(s)
    ensures forall t :: HighPriority(s + t) == HighPriority(s) + HighPriority(t)
    decreases |s|
  {
    if s != [] {
      var init := s[..|s| - 1];
      HighPrioritySpec(init);
      assert s == init + [s[|s| - 1]];
    }
    forall t ensures HighPriority(s + t) == HighPriority(s) + HighPriority(t) {
      HighPriorityAppend(s, t);
    }
  }

  lemma {:induction false} HighPriorityAppend(s: seq<Suggestion>, t: seq<Suggestion>)
    ensures HighPriority(s + t) == HighPriority(s) + HighPriority(t)
    decreases |t|
  {
    if t == [] {
      assert s + t == s;
    } else {
      var init := t[..|t| - 1];
      assert (s + t)[..|s + t| - 1] == s + init;
      HighPriorityAppend(s, init);
    }
  }

  /** Insights below 0.7 give no suggestion; the others become suggestions in order. */
  lemma {:induction false} ConfidentSpec(insights: seq<Insight>)
    ensures forall x :: x in Confident(insights) ==>
              exists i :: 0 <= i < |insights| && insights[i].confidence >= 0.7 && x == ToSuggestion(insights[i])
    ensures forall i :: 0 <= i < |insights| && insights[i].confidence >= 0.7 ==> ToSuggestion(insights[i]) in Confident(insights)
    ensures forall x :: x in Confident(insights) ==> x.priority >= 0.7
    decreases |insights|
  {
    if insights != [] {
      var init := insights[..|insights| - 1];
      ConfidentSpec(init);
      forall i | 0 <= i < |insights| - 1 ensures insights[i] == init[i] { }
    }
  }

  /** When every priority is at least 0.7 the final filter removes nothing. */
  lemma {:induction false} HighPriorityKeepsAll(s: seq<Suggestion>)
    requires forall x :: x in s ==> x.priority >= 0.7
    ensures HighPriority(s) == s
    decreases |s|
  {
    if s != [] {
      var init, last := s[..|s| - 1], s[|s| - 1];
      forall x | x in init ensures x.priority >= 0.7 {
        assert x in s;
      }
      HighPriorityKeepsAll(init);
      assert last in s;
      assert HighPriority(s) == init + [last];
      assert s == init + [last];
    }
  }

  /** The suggestions are the confident insights in order, followed by the refactoring
      advice exactly when the lower-cased task type is "refactoring": every priority is
      at least 0.7, so the closing filter never removes anything. */
  lemma SuggestionsSpec(insights: seq<Insight>, context: map<string, Scalar>)
    requires forall i :: 0 <= i < |insights| ==> insights[i].category != Refactoring
    ensures Suggestions(insights, context)
            == Confident(insights) + (if IsRefactoring(context) then [RefactoringAdvice] else [])
    ensures forall x :: x in Suggestions(insights, context) ==> x.priority >= 0.7
    ensures forall x :: x in Suggestions(insights, context) ==>
              x == RefactoringAdvice
              || exists i :: 0 <= i < |insights| && insights[i].confidence >= 0.7 && x == ToSuggestion(insights[i])
    ensures forall i :: 0 <= i < |insights| && insights[i].confidence >= 0.7
                        ==> ToSuggestion(insights[i]) in Suggestions(insights, context)
    ensures RefactoringAdvice in Suggestions(insights, context) <==> IsRefactoring(context)
  {
    var c := Confident(insights);
    var all := c + (if IsRefactoring(context) then [RefactoringAdvice] else []);
    ConfidentSpec(insights);
    HighPriorityKeepsAll(all);
  }

  // ---------------------------------------------------------------------------
  // Loading stored entries

  /** A stored value as `float()` sees it: a number, or something it rejects. */
  datatype RawValue = Number(r: real) | Unconvertible

  /** One item of the stored JSON list: a mapping whose keys may be missing, or an item
      that is not a mapping at all. */
  datatype RawItem =
    | RawRecord(timestamp: Option<string>, metricName: Option<string>, value: Option<RawValue>,
                metadata: Option<Metadata>)
    | NotAMapping

  /** An item the constructor's loop can turn into an entry without raising. */
  predicate Loadable(item: RawItem)
  {
    item.RawRecord? && (item.value.None? || item.value.value.Number?)
  }

  /** The entry built from a loadable item, with the defaults of `raw.get`. */
  function ToEntry(item: RawItem): MetricEntry
    requires Loadable(item)
  {
    MetricEntry(
      match item.timestamp case None => "" case Some(t) => t,
      match item.metricName case None => "" case Some(n) => n,
      match item.value case None => 0.0 case Some(v) => v.r,
      OrEmpty(item.metadata))
  }

  /** The number of leading loadable items. */
  function LoadablePrefix(items: seq<RawItem>): (k: nat)
    ensures k <= |items|
    ensures forall i :: 0 <= i < k ==> Loadable(items[i])
    ensures k < |items| ==> !Loadable(items[k])
  {
    if items == [] || !Loadable(items[0]) then 0 else 1 + LoadablePrefix(items[1..])
  }

  /** What the constructor keeps: the entries of the leading loadable items; the first
      item that raises ends the loop and the exception is swallowed. */
  function Loaded(items: seq<RawItem>): seq<MetricEntry>
  {
    var k := LoadablePrefix(items);
    seq(k, i requires 0 <= i < k => ToEntry(items[i]))
  }

  // ---------------------------------------------------------------------------
  // State

  /** `MetricsTracker`; writing the file back is not modelled. */
  class MetricsTracker {
    var metrics: seq<MetricEntry>

    /** `MetricsTracker(storage_path)`: `stored` is the list read from the file, empty
        when there is no file or it does not parse. */
    constructor (stored: seq<RawItem>)
      ensures metrics == Loaded(stored)
    {
      var loaded: seq<MetricEntry> := [];
      var i := 0;
      while i < |stored| && Loadable(stored[i])
        invariant 0 <= i <= LoadablePrefix(stored)
        invariant loaded == seq(i, j requires 0 <= j < i => ToEntry(stored[j]))
      {
        loaded := loaded + [ToEntry(stored[i])];
        i := i + 1;
      }
      metrics := loaded;
    }

    /** `record_metric`: appends one entry, with `metadata or {}`, and returns it. */
    method RecordMetric(name: string, value: real, metadata: Option<Metadata>, now: Timestamp)
      returns (entry: MetricEntry)
      modifies this
      ensures entry == MetricEntry(now, name, value, OrEmpty(metadata))
      ensures metrics == old(metrics) + [entry]
    {
      entry := MetricEntry(now, name, value, OrEmpty(metadata));
      metrics := metrics + [entry];
    }

    /** `generate_insights()`. */
    method GenerateInsights() returns (insights: Result<seq<Insight>>)
      ensures insights == Insights(metrics)
    {
      var perf := PerformanceInsight(metrics);
      if perf.Err? {
        return Err(perf.error);
      }
      var list: seq<Insight> := [];
      if perf.value.Some? {
        list := list + [perf.value.value];
      }
      assert list == OptionToSeq(perf.value);
      var qual := QualityInsight(metrics);
      if qual.Some? {
        list := list + [qual.value];
      }
      assert list == OptionToSeq(perf.value) + OptionToSeq(qual);
      insights := Ok(list);
    }
  }

  /** The entries `evaluate_iteration` adds for a batch, in the batch's iteration order. */
  function Recorded(batch: seq<(string, real)>, now: Timestamp): (ms: seq<MetricEntry>)
    ensures |ms| == |batch|
  {
    seq(|batch|, i requires 0 <= i < |batch| => MetricEntry(now, batch[i].0, batch[i].1, map[]))
  }

  /** The loop of `suggest_optimizations` over the insights: one suggestion per insight of
      confidence at least 0.7, in order. */
  method ConfidentSuggestions(insights: seq<Insight>) returns (list: seq<Suggestion>)
    ensures list == Confident(insights)
  {
    list := [];
    var i := 0;
    while i < |insights|
      invariant 0 <= i <= |insights|
      invariant list == Confident(insights[..i])
    {
      assert insights[..i + 1][..i] == insights[..i];
      if insights[i].confidence >= 0.7 {
        list := list + [ToSuggestion(insights[i])];
      }
      i := i + 1;
    }
    assert insights[..i] == insights;
  }

  /** `FeedbackLoop` over a tracker it shares with its caller. */
  class FeedbackLoop {
    const tracker: MetricsTracker

    constructor (tracker: MetricsTracker)
      ensures this.tracker == tracker
    {
      this.tracker := tracker;
    }

    /** `evaluate_iteration(metrics)`: records every entry in iteration order, then
        returns the insights of the updated log (or the exception they raise, after the
        entries have been recorded). */
    method EvaluateIteration(batch: seq<(string, real)>, now: Timestamp) returns (insights: Result<seq<Insight>>)
      modifies tracker
      ensures tracker.metrics == old(tracker.metrics) + Recorded(batch, now)
      ensures insights == Insights(tracker.metrics)
    {
      var i := 0;
      while i < |batch|
        invariant 0 <= i <= |batch|
        invariant tracker.metrics == old(tracker.metrics) + Recorded(batch[..i], now)
      {
        var (name, value) := batch[i];
        var _ := tracker.RecordMetric(name, value, None, now);
        assert Recorded(batch[..i + 1], now) == Recorded(batch[..i], now) + [MetricEntry(now, name, value, map[])];
        i := i + 1;
      }
      assert batch[..i] == batch;
      insights := tracker.GenerateInsights();
    }

    /** `suggest_optimizations(context)`: reads the tracker and changes nothing. */
    method SuggestOptimizations(context: map<string, Scalar>) returns (suggestions: Result<seq<Suggestion>>)
      ensures Insights(tracker.metrics).Err? ==> suggestions == Err(Insights(tracker.metrics).error)
      ensures Insights(tracker.metrics).Ok? ==>
                suggestions == Ok(Suggestions(Insights(tracker.metrics).value, context))
    {
      var generated := tracker.GenerateInsights();
      if generated.Err? {
        return Err(generated.error);
      }
      var insights := generated.value;
      var list := ConfidentSuggestions(insights);
      var taskType := if "task_type" in context then context["task_type"] else Text("");
      if taskType.Text? && Lower(taskType.s) == "refactoring" {
        list := list + [RefactoringAdvice];
      }
      assert list == Confident(insights) + (if IsRefactoring(context) then [RefactoringAdvice] else []);
      assert HighPriority(list) == Suggestions(insights, context);
      suggestions := Ok(HighPriority(list));
    }
  }
}
