# Autonomous development helpers, modelled in Dafny

This project models the in-memory logic of the AI-PRO autonomous development
helpers and proves properties about it. It covers these parts:

- **`SrcLearning`** (`src_learning.dfy`): the metrics tracker and feedback loop of
  `src/autonomous_dev/learning.py`.
  - An append-only log of named measurements.
  - Windowed mean, median and half-against-half trend.
  - Three threshold rules with fixed confidences.
  - Suggestions built from the insights and the `task_type` of a context.
- **`PkgLearning`** (`pkg_learning.dfy`): the second, diverging copy in
  `autonomous_dev/learning.py`.
  - Windowed mean, minimum, maximum and endpoint slope.
  - Two rules whose confidence grows with the trend.
  - A closing filter that keeps only priorities of at least 0.7.
  - The constructor's loading loop.
- **`Performance`** (`performance.dfy`): the LRU cache `SimpleCache`, the memoising
  wrapper built by `cached`, and the `OptimizationStrategy` helpers
  `batch_operations`, `should_parallelize` and `estimate_complexity`.
- **`CheckVersion`** (`check_version.dfy`): the commit-summary pattern
  `COMMIT_REGEX`, `classify_commits`, `expected_bump_from_versions` and the exit
  code of `main`.
- **`Example`** (`example.dfy`): `add` and `sum_all`.
- **Shared modules**:
  - `Python` (`python.dfy`) holds the pieces of Python's built-ins the models rely
    on: `None`, exceptions as results, the slice `s[-k:]`, `str.lower`, the `in`
    test on strings, `str.splitlines` and `\w`.
  - `Stats` (`stats.dfy`) holds `sum`, `statistics.mean`, `min`, `max` and
    `statistics.median`.

**How the source's form is kept:**
- Objects whose methods update fields are classes.
  - `MetricsTracker` has its list of records as a `seq` field.
  - `SimpleCache` has its `OrderedDict` as a `seq` of keys plus a `map`.
- Loops are `while` loops with invariants: recording a batch, building suggestions,
  loading stored entries, cutting batches and classifying commits.
- Each loop method is proved against a specification function.
- Properties are proved as lemmas about those functions.

**Numbers and inputs:**
- Measurements are `real`.
- Python integers are unbounded, like Dafny's `int`.
- Clock readings, git output and file contents are parameters supplied by the
  caller.

## Model

| member | source | states |
|---|---|---|
| Python.SuffixShape | src/autonomous_dev/learning.py:122 | the slice `s[-k:]` keeps the last k items for k > 0, the whole sequence for k = 0, and drops the first -k items for k < 0 |
| Python.Lower | scripts/check_version.py:58-59 | lower-casing keeps the length and maps each character on its own |
| Python.ContainsOccurs | scripts/check_version.py:59 | the substring test holds exactly when the text occurs as a contiguous block at some index |
| Python.SplitLinesHaveNoBreaks | scripts/check_version.py:54 | no line produced by `splitlines` contains a line break |
| Stats.MeanBetween | autonomous_dev/learning.py:86-88 | the mean of a non-empty window lies between its minimum and maximum |
| Stats.Min | autonomous_dev/learning.py:87 | the minimum is a value of the window and no value is below it |
| Stats.Max | autonomous_dev/learning.py:88 | the maximum is a value of the window and no value is above it |
| Stats.ConstantStats | autonomous_dev/learning.py:86-88 | a window of equal values has that value as mean, minimum and maximum |
| Stats.SortAscendingSorts | src/autonomous_dev/learning.py:127 | the sort `statistics.median` performs yields a sorted permutation of the data |
| Stats.MedianBetween | src/autonomous_dev/learning.py:127 | the median lies between the minimum and the maximum |
| Stats.ConstantMedian | src/autonomous_dev/learning.py:127 | the median of a window of equal values is that value |
| SrcLearning.MetricsTracker.constructor | src/autonomous_dev/learning.py:55-65 | a new tracker has an empty log |
| SrcLearning.MetricsTracker.RecordMetric | src/autonomous_dev/learning.py:67-85 | appends exactly one record with the given name, value and `metadata or {}`; earlier records are unchanged |
| SrcLearning.GetMetricsExact | src/autonomous_dev/learning.py:90-101 | `get_metrics(None)` is the whole log; `get_metrics(n)` holds exactly the records named n, each as often as in the log |
| SrcLearning.NamedAppend | src/autonomous_dev/learning.py:85-101 | the view of one name of an extended log is the old view followed by the new records of that name, so insertion order is kept |
| SrcLearning.AnalyzeTrendsWindow | src/autonomous_dev/learning.py:103-142 | zeros for a name with no records; an error exactly when a negative window empties the slice; otherwise mean, median and trend of the last `window_size` values (all of them for 0) |
| SrcLearning.DefaultWindowNeverFails | src/autonomous_dev/learning.py:103-142 | with the default window of 5, `analyze_trends` never raises and analyses the last min(5, count) records of the name |
| SrcLearning.HalvesTrendSplit | src/autonomous_dev/learning.py:129-136 | with two or more values the first half `values[:mid]` is non-empty and the two halves make up the window, so the `values[0]` fallback at line 132 never applies; one value gives trend 0 |
| SrcLearning.ConstantWindow | src/autonomous_dev/learning.py:126-136 | a window of equal values has that value as mean and median, and no trend |
| SrcLearning.IncreasingWindowTrend | src/autonomous_dev/learning.py:129-136 | a strictly increasing window of two or more values has a positive trend |
| SrcLearning.EmitRules | src/autonomous_dev/learning.py:150-194 | each rule's insight is emitted exactly when its rule fires and never twice; at most three insights, slow tests first and slow builds last when they fire, confidences between 0.7 and 0.85, none of category best_practice |
| SrcLearning.InsightRules | src/autonomous_dev/learning.py:144-194 | the slow-tests, falling-coverage and slow-builds insights appear exactly when, with at least five records of the name, the trend of the last five test_duration values exceeds 0.5, the trend of the last five coverage_percent values is below -2.0, or the mean of the last five build_time values exceeds 300; at most three, all distinct, slow tests first and slow builds last when present, none of category best_practice |
| SrcLearning.ShortHistoryNoInsights | src/autonomous_dev/learning.py:153-194 | with fewer than five records of every watched name there are no insights |
| SrcLearning.MetricsTracker.GenerateInsights | src/autonomous_dev/learning.py:144-194 | the list built rule by rule is the insights of the current log |
| SrcLearning.ConfidentKeepsAll | src/autonomous_dev/learning.py:269-278 | when every insight has confidence at least 0.7, each becomes the suggestion at its own position with priority = confidence |
| SrcLearning.SuggestionsFor | src/autonomous_dev/learning.py:266-291 | one suggestion per rule insight in order, then the priority-0.9 best_practice suggestion exactly when `task_type` is exactly "refactoring"; every priority is at least 0.7 |
| SrcLearning.FeedbackLoop.constructor | src/autonomous_dev/learning.py:232-238 | the loop works on the tracker it is given |
| SrcLearning.FeedbackLoop.EvaluateIteration | src/autonomous_dev/learning.py:241-255 | records every entry of the batch in iteration order, then returns the insights of the updated log |
| SrcLearning.ConfidentSuggestions | src/autonomous_dev/learning.py:269-278 | the loop over the insights builds one suggestion per insight of confidence at least 0.7, in order |
| SrcLearning.FeedbackLoop.SuggestOptimizations | src/autonomous_dev/learning.py:257-291 | returns the suggestions for the tracker's insights and the context, and changes nothing |
| PkgLearning.LoadablePrefix | autonomous_dev/learning.py:39-47 | the number of leading stored items that load without raising: all of them are loadable and the next one, if any, is not |
| PkgLearning.MetricsTracker.constructor | autonomous_dev/learning.py:33-50 | keeps the entries of the leading loadable stored items, with the defaults of `raw.get`; the first item that raises ends loading |
| PkgLearning.MetricsTracker.RecordMetric | autonomous_dev/learning.py:52-64 | appends exactly one entry with `metadata or {}` and returns it |
| PkgLearning.GetMetricsExact | autonomous_dev/learning.py:77-80 | `get_metrics(None)` is the whole log; `get_metrics(n)` holds exactly the entries named n, each as often as in the log |
| PkgLearning.NamedAppend | autonomous_dev/learning.py:62-80 | the view of one name of an extended log is the old view followed by the new entries of that name, so insertion order is kept |
| PkgLearning.NamedMembers | autonomous_dev/learning.py:77-80 | an entry is in the view of a name exactly when it is in the log and carries that name |
| PkgLearning.NamedAll | autonomous_dev/learning.py:77-80 | a log whose entries all carry one name is its own view of that name |
| PkgLearning.AnalyzeTrendsStats | autonomous_dev/learning.py:82-95 | zeros for an empty slice (always so for an unrecorded name); otherwise mean = sum / len, min <= mean <= max, and min and max are values of the window; a positive window holds the last min(window_size, count) values |
| PkgLearning.RisingEnds | autonomous_dev/learning.py:89 | in a window where each value exceeds the one before, the last exceeds the first |
| PkgLearning.RisingSlope | autonomous_dev/learning.py:89 | a strictly increasing window of two or more values has a positive endpoint slope |
| PkgLearning.ZeroToNineSum | autonomous_dev/learning.py:82-95 | the values 0 to 9 sum to 45 |
| PkgLearning.ZeroToNineStats | autonomous_dev/learning.py:82-95 | the values 0..9 have mean 4.5, minimum 0, maximum 9 and slope 1 |
| PkgLearning.ZeroToNineTrends | autonomous_dev/learning.py:82-95 | ten test durations 0..9 analysed with the default window of ten give mean 4.5, minimum 0, maximum 9 and trend 1 |
| PkgLearning.PerformanceRuleSpec | autonomous_dev/learning.py:97-117 | the performance insight appears exactly when trend > 0.1 and there are at least five test durations; the division raises only when the mean is -1e-6; confidence <= 1.0, and >= 0.7 when the mean is not negative |
| PkgLearning.QualityRuleSpec | autonomous_dev/learning.py:119-134 | the quality insight appears exactly when trend < -0.1 and there are at least five coverage values; it never raises; confidence lies in [0.75, 1.0] |
| PkgLearning.NonNegativeDurationsNeverRaise | autonomous_dev/learning.py:97-104 | when no test duration is negative the performance rule cannot divide by zero |
| PkgLearning.CombineOrder | autonomous_dev/learning.py:136-144 | at most two insights, the performance one first, failing exactly when the performance rule fails |
| PkgLearning.InsightsOrder | autonomous_dev/learning.py:136-144 | at most two insights, the performance one before the quality one; the call fails exactly when the performance rule does |
| PkgLearning.MetricsTracker.GenerateInsights | autonomous_dev/learning.py:136-144 | the list built rule by rule is the insights of the current log |
| PkgLearning.HighPrioritySpec | autonomous_dev/learning.py:182 | the closing filter keeps exactly the suggestions of priority at least 0.7, in order, and distributes over concatenation |
| PkgLearning.HighPriorityAppend | autonomous_dev/learning.py:182 | filtering a concatenation is concatenating the filtered parts |
| PkgLearning.HighPriorityKeepsAll | autonomous_dev/learning.py:182 | when every priority is at least 0.7 the closing filter removes nothing |
| PkgLearning.ConfidentSpec | autonomous_dev/learning.py:159-168 | every suggestion comes from an insight of confidence at least 0.7, and every such insight yields one |
| PkgLearning.SuggestionsSpec | autonomous_dev/learning.py:156-182 | the suggestions are the confident insights in order, followed by the priority-0.85 refactoring suggestion exactly when the lower-cased task type is "refactoring"; every priority is at least 0.7 |
| PkgLearning.FeedbackLoop.constructor | autonomous_dev/learning.py:147-149 | the loop works on the tracker it is given |
| PkgLearning.FeedbackLoop.EvaluateIteration | autonomous_dev/learning.py:151-154 | records every entry of the batch in iteration order, then returns the insights of the updated log or the exception they raise |
| PkgLearning.ConfidentSuggestions | autonomous_dev/learning.py:159-168 | the loop over the insights builds one suggestion per insight of confidence at least 0.7, in order |
| PkgLearning.FeedbackLoop.SuggestOptimizations | autonomous_dev/learning.py:156-182 | returns the suggestions for the tracker's insights, or the exception generating them raises, and changes nothing |
| Performance.DistinctAppend | src/autonomous_dev/performance.py:53-56 | appending a key keeps the keys distinct exactly when it was absent |
| Performance.RemoveSpec | src/autonomous_dev/performance.py:43 | taking a key out of the order keeps every other key and no copy of it; in a distinct order that holds it, one key fewer |
| Performance.RemoveRemovesLast | src/autonomous_dev/performance.py:43 | taking out a key that was just appended gives the order back |
| Performance.GetSpec | src/autonomous_dev/performance.py:30-44 | `get` returns the value exactly when the key is present; a missing key leaves the cache unchanged; a present key becomes most recent and every other key keeps its relative order |
| Performance.LoweredBound | src/autonomous_dev/performance.py:46-60 | when the cache holds more than max(max_size, 0) entries, `set` drops at most one: a new key keeps the size, an overwrite takes one off, so a cache more than one over the bound stays over it |
| Performance.SetKeepsBound | src/autonomous_dev/performance.py:46-60 | after `set` the keys stay distinct and match the values, and the size stays within max(max_size, 0); it grows by one only for a new key below capacity |
| Performance.OverwriteSpec | src/autonomous_dev/performance.py:53-56 | `set` on a present key replaces its value, makes it most recent and keeps the size |
| Performance.EvictSpec | src/autonomous_dev/performance.py:56-60 | `set` of a new key into a full cache evicts exactly the least recently used key; below capacity nothing is evicted; with max_size <= 0 the cache stays empty |
| Performance.SetThenGet | src/autonomous_dev/performance.py:30-60 | with room for one entry, `get` right after `set` finds the stored value |
| Performance.LruScenarios | src/autonomous_dev/performance.py:30-60 | with room for two, storing a, b, c evicts a; reading a between the stores of b and c evicts b instead |
| Performance.SimpleCache.constructor | src/autonomous_dev/performance.py:21-28 | a new cache is empty and valid |
| Performance.SimpleCache.Get | src/autonomous_dev/performance.py:30-44 | returns the value and new contents of the `get` specification and keeps the cache valid |
| Performance.SimpleCache.Set | src/autonomous_dev/performance.py:46-60 | the new contents are those of the `set` specification and the cache stays valid |
| Performance.SimpleCache.Clear | src/autonomous_dev/performance.py:62-64 | the cache becomes empty |
| Performance.SimpleCache.Size | src/autonomous_dev/performance.py:66-72 | the number of entries, never more than max(max_size, 0) |
| Performance.DistinctCard | src/autonomous_dev/performance.py:66-72 | a distinct order has as many keys as its set of keys, so the order and the mapping have the same size |
| Performance.CallSpec | src/autonomous_dev/performance.py:95-103 | for a cache key k the wrapper returns f(k), keeps every resident entry equal to the function's result, and runs the function exactly when the key is not resident with a non-None result |
| Performance.CallTwice | src/autonomous_dev/performance.py:95-103 | two calls in a row with one key run the function once, unless it returns None, which is recomputed every time |
| Performance.Cached.Call | src/autonomous_dev/performance.py:89-103 | performs one step of the wrapper specification on the cache and keeps it faithful to the function |
| Performance.CeilDiv | src/autonomous_dev/performance.py:127 | the number of steps of `range(0, n, b)` is (n + b - 1) / b |
| Performance.DivUnique | src/autonomous_dev/performance.py:127 | a number between k * b and k * b + b - 1 divides by b to k |
| Performance.ChunksSpec | src/autonomous_dev/performance.py:126-128 | the batches of a positive step join back into the items, all hold `batch_size` items but the last (which holds between 1 and `batch_size`), and there are ceil(len / batch_size) of them |
| Performance.BatchOperations | src/autonomous_dev/performance.py:115-129 | a batch size of 0 raises ValueError; a negative one gives no batches; a positive one gives the consecutive slices of `batch_size` items, which join back into the items, all of size batch_size but the last (which is non-empty and no larger), ceil(len / batch_size) of them |
| Performance.ParallelizeMonotone | src/autonomous_dev/performance.py:131-142 | parallelising is recommended from the threshold on, and more items or a lower threshold never withdraw the recommendation |
| Performance.EstimateComplexitySpec | src/autonomous_dev/performance.py:144-164 | unknown kinds give the linear estimate; linear is n and raises OverflowError exactly when the magnitude of n reaches 2^1024 - 2^970 (where `float()` overflows); quadratic is n * n and raises exactly when n * n reaches that limit, and when it does not raise it is non-negative, the linear one does not raise either and lies no higher; constant is 1; the logarithm is taken only for n > 0; neither of those two raises |
| Performance.DefaultArguments | src/autonomous_dev/performance.py:115-164 | with the default threshold of 10 parallelising starts at ten items; the default complexity type is the linear estimate (n, or OverflowError past the float range); the default batch size of 10 cuts items into ceil(len / 10) batches that join back into the items |
| Performance.QuadraticOverflowsFirst | src/autonomous_dev/performance.py:155-160 | for n = 2^512 the quadratic estimate raises OverflowError while the linear one returns n |
| Performance.EstimateComplexityTested | src/autonomous_dev/performance.py:155-164 | linear 100 is 100, quadratic 10 is 100, unknown 50 is 50, logarithmic 100 is log2(100) |
| CheckVersion.WordPrefix | scripts/check_version.py:28 | the captured type is the longest run of word characters at the start of the line |
| CheckVersion.MatchesIsPattern | scripts/check_version.py:28 | a line matches exactly when a non-empty run of word characters at its start is followed, later on, by ':' |
| CheckVersion.ClassifyCommits | scripts/check_version.py:52-66 | the loop with its early return computes the classification of the lines of the log |
| CheckVersion.OnlyMatchingLinesCount | scripts/check_version.py:54-57 | lines the pattern does not match never affect the result |
| CheckVersion.BreakingWins | scripts/check_version.py:58-61 | a matching line with '!' after its type or "breaking change" in any case makes the result "major" |
| CheckVersion.SettledStays | scripts/check_version.py:62-65 | without breaking lines, an impact once found is final: a later feat does not raise "patch", a later fix does not lower "minor" |
| CheckVersion.FirstQualifyingWins | scripts/check_version.py:52-66 | without breaking lines the first line asking for a bump fixes the result (feat: minor; fix, perf, refactor, docs, chore, test: patch; type lower-cased); None exactly when no line asks for one |
| CheckVersion.TypedLineImpact | scripts/check_version.py:52-65 | a line shorter than "breaking change" whose type runs up to ':' asks for minor when its lower-cased type is feat, for patch when it is one of the patch types, for nothing otherwise |
| CheckVersion.FixLine | scripts/check_version.py:58-65 | "fix: a" asks for a patch bump |
| CheckVersion.FeatLine | scripts/check_version.py:58-65 | "feat: b" asks for a minor bump |
| CheckVersion.PatchHidesLaterMinor | scripts/check_version.py:62-65 | a patch line followed by a minor line is classified "patch" although "minor" is the highest impact |
| CheckVersion.FixThenFeat | scripts/check_version.py:52-66 | the log "fix: a", "feat: b" is classified "patch"; its highest impact is "minor" |
| CheckVersion.HighestImpactSplit | scripts/check_version.py:3-11 | the highest impact of two parts of a log is the higher of theirs |
| CheckVersion.MaxImpactCommutes | scripts/check_version.py:3-11 | the higher of two impacts does not depend on their order |
| CheckVersion.HighestImpactSwap | scripts/check_version.py:3-11 | the highest impact does not depend on the order of the commits |
| CheckVersion.HighestImpactSpec | scripts/check_version.py:3-11 | the highest impact is asked for by some line and no line asks for more; None exactly when no line asks for a bump |
| CheckVersion.SplitDots | scripts/check_version.py:71 | `split(".")` always yields at least one part |
| CheckVersion.SplitDotsPartsHaveNoDot | scripts/check_version.py:71 | no part of a split holds a dot |
| CheckVersion.SplitDotsNoDot | scripts/check_version.py:71 | a text without dots splits into itself alone |
| CheckVersion.SplitDotsCons | scripts/check_version.py:71 | splitting "x.rest" for x without a dot gives x followed by the parts of rest |
| CheckVersion.ShowNatValue | scripts/check_version.py:72 | the decimal text of n is all digits, has no dot, and reads back as n |
| CheckVersion.ParseShowNat | scripts/check_version.py:72 | `int` reads the decimal text of a natural number back as that number |
| CheckVersion.SplitThree | scripts/check_version.py:71 | three dot-free texts joined by dots split back into those three |
| CheckVersion.SplitShowVersion | scripts/check_version.py:71 | the text of three natural numbers splits into their three decimal texts |
| CheckVersion.ParseShowVersion | scripts/check_version.py:70-75 | parsing "major.minor.patch" written from three natural numbers gives them back |
| CheckVersion.ParseVersionErrors | scripts/check_version.py:70-75 | fewer than three parts raise ValueError; with three or more, parsing succeeds exactly when `int` accepts each of the first three parts, and then gives those three integers |
| CheckVersion.SplitDotsAppend | scripts/check_version.py:71 | splitting "v.x" at its dots gives the parts of v followed by the parts of x |
| CheckVersion.ExtraPartsIgnored | scripts/check_version.py:70-75 | parts after the third are ignored: a version of at least three parts followed by ".x" parses as the version alone |
| CheckVersion.OrderedBumpSpec | scripts/check_version.py:69-82 | the corrected bump is major, minor or patch exactly for a later major, minor or patch component, None when the new version is not later; the written comparison agrees on every move that does not go back and gives None for equal versions |
| CheckVersion.DowngradeReadAsMinor | scripts/check_version.py:69-82 | 2.0.0 to 1.5.0 is reported as a minor bump as written, as no bump by the corrected comparison |
| CheckVersion.MainDecisionSpec | scripts/check_version.py:85-120 | 2 when the base or its version is unavailable; unchanged version: 1 exactly when the commits ask for a bump; changed version: ValueError when a version does not parse, 1 exactly when no bump is recognised or the commits ask for another, 0 only when they ask for none or the one performed |
| Example.Add | src/autonomous_dev/example.py:8-17 | the result minus either argument is the other argument |
| Example.SumAllAppend | src/autonomous_dev/example.py:20-25 | the sum of a concatenation is the `add` of the sums of the parts |
| Example.SumAllSmall | src/autonomous_dev/example.py:20-25 | the empty sum is 0, the sum of one value is that value, and of two values their `add` |
| Example.TestedValues | src/autonomous_dev/example.py:8-25 | `add(2, 3) == 5` and `sum_all([1, 2, 3]) == 6` |

## Findings

| source | as written | input that shows it | evidently intended | confidence | as-written member | corrected member |
|---|---|---|---|---|---|---|
| scripts/check_version.py:62-65 | the first qualifying commit fixes the result: `highest or "minor"` keeps an earlier "patch", and a fix is recorded only while nothing is | the log "fix: a" followed by "feat: b" is classified "patch" | the highest impact among the commits, as the module docstring says (lines 3-4), here "minor" | not executed; the input follows directly from the code | CheckVersion.FixThenFeat | CheckVersion.HighestImpactSpec |
| scripts/check_version.py:76-82 | each component is compared on its own, so a lower major with a higher minor counts as a minor bump | old "2.0.0", new "1.5.0" gives "minor" | versions compared in order: no bump when the new version is not later | not executed; the input follows directly from the code | CheckVersion.DowngradeReadAsMinor | CheckVersion.OrderedBumpSpec |

`MainDecision` models `main` as written. It therefore uses the written
comparison `ExpectedBump`. `OrderedBumpSpec` proves that the corrected comparison
gives the same answer on every version change that does not go back. So the
decision only differs for a downgrade. In the same way, `classify_commits` and the
corrected `HighestImpact` agree whenever the first qualifying line asks for the
highest bump (`FirstQualifyingWins`, `HighestImpactSpec`).

## Left out

**Persistence and the clock**
- File persistence is left out: `_save_metrics`, `_load_metrics` and `_save`, and
  the JSON encoding behind them.
  - The second tracker's constructor loop is modelled.
  - It reads an already decoded list of items. An unreadable file is the empty list.
- Clock readings (`datetime.now`, `isoformat`) are parameters. One batch uses one
  reading for all its records, while the source reads the clock once per record.

**Values and numbers**
- Values are exact reals.
  - Float rounding is not modelled.
  - `round(confidence, 2)` in the second feedback loop is not modelled. It cannot
    lower a priority of at least 0.7 below 0.7.
  - `float()` of a stored number is the number itself.
- Metadata values are a closed set: number, text and flag. Python's `Any` is wider.
- PkgLearning.IsRefactoring compares text values only. The `str()` of a number or a
  flag is never "refactoring" after lower-casing.

**Library functions**
- `str.lower`, `\w` and `int()` are modelled for ASCII only.
  - `int()` is modelled for an optional sign followed by decimal digits.
  - It does not accept surrounding whitespace or `_` digit separators.
- The `math.log2` branch of `estimate_complexity` returns a symbolic `Log2Of(n)`.
- Performance.EstimateComplexitySpec and Performance.DefaultArguments state integer counts where `estimate_complexity` returns floats.
  - The OverflowError of `float()` is modelled: it is raised from 2^1024 - 2^970 on.
  - Below that limit, `float()` rounds counts above 2^53 to the nearest double. This rounding is not modelled.

**Unreachable or aliasing behaviour**
- SrcLearning.AnalyzeTrends omits the `values[0]` fallback (src/autonomous_dev/learning.py:132). For two or more values n // 2 is at least 1, so the fallback cannot run.
- `get_metrics(None)` of the first tracker returns the tracker's own list, not a
  copy. Aliasing of that list is not modelled.

**The cache wrapper**
- Performance.Cached.Call takes the cache key as given.
  - Building the key from `str()` of the arguments and the sorted keyword arguments is not modelled.
  - `functools.wraps` is not modelled.
  - Attaching `_cache` to the wrapper is not modelled.
  - The wrapped function is a pure function of the key. A function with side effects or varying results is not covered.
- Performance.CallSpec: "returns f(k)" is for the key k only. In the source, different calls can build one key.
  - `f(1)` and `f("1")` both give "f:1".
  - `f("a|b")` and `f("a", "b")` both give "f:a|b".
  - The second of such calls returns the first call's cached result, not its own.
  - The model does not capture this, because it takes the key, not the arguments.

**Default arguments and mutable bounds**
- Python default arguments are named constants that callers pass explicitly. Dafny has no default parameters.
  - `DefaultMaxSize` (100) names the default of `SimpleCache`. The class takes `max_size` as a constructor argument, so the default is not used in any proof.
  - `CachedMaxSize` (128) names the default of `cached`. It too is not used in any proof.
  - `batch_operations` uses `DefaultBatchSize` (10) in `DefaultArguments`.
  - `should_parallelize` uses `DefaultThreshold` (10).
  - `estimate_complexity` uses `DefaultComplexity` ("linear").
  - `analyze_trends` uses `SrcLearning.DefaultWindow` (5) and `PkgLearning.DefaultWindow` (10).
- Performance.SimpleCache keeps `max_size` as a constant. In the source it is a public attribute that can be reassigned.
  - Lowering it is not modelled on the class.
  - `LoweredBound` states on the ordered dictionary what `set` then does: it pops one entry at most, so the cache can stay above its new bound.

**Not modelled at all**
- `PerformanceProfiler` measures wall-clock time.
- These parts of `check_version.py` are not modelled:
  - `run`, `get_base_ref` and `read_version`;
  - the slicing of git output at line 93;
  - the printed messages.
- `main` receives their outcomes as parameters. The `SystemExit` of a missing version
  in `pyproject.toml` is not modelled.
- Insight and suggestion descriptions are free text. Each is replaced by a fixed
  advice value.
- `scripts/autofix.py` and the package `__init__` files are not part of this model.
