/**
 * modelApp/score.py: the manipulation score of a unified analysis, its interpretation
 * as a risk band, and the flat details dictionary that joins the two. Metrics are exact
 * real numbers; Python's `round` is not modelled.
 */
module Score {
  import opened Wrappers
  import opened AnalysisTypes
  import Merge

  // ---------------------------------------------------------------------------
  // Counting
  // ---------------------------------------------------------------------------

  /** The number of technique lists of an argument that are non-empty (a list is truthy when non-empty). */
  function TechniquesUsed(cols: seq<Column>): (c: nat)
    ensures c <= |cols|
    ensures c == 0 <==> forall k :: 0 <= k < |cols| ==> cols[k].instances == []
    ensures c == |cols| <==> forall k :: 0 <= k < |cols| ==> cols[k].instances != []
  {
    if cols == [] then 0
    else TechniquesUsed(cols[1..]) + (if cols[0].instances != [] then 1 else 0)
  }

  /** `techniques_per_argument`: one count per argument, in argument order. */
  function TechniqueCounts(args: seq<ApiArgument>): (cs: seq<nat>)
    ensures |cs| == |args|
    ensures forall i :: 0 <= i < |args| ==> cs[i] == TechniquesUsed(args[i].manipulations)
  {
    seq(|args|, i requires 0 <= i < |args| => TechniquesUsed(args[i].manipulations))
  }

  /** The number of arguments with at least one technique. */
  function CountPositive(cs: seq<nat>): (m: nat)
    ensures m <= |cs|
    ensures m == 0 <==> forall i :: 0 <= i < |cs| ==> cs[i] == 0
    ensures m == |cs| <==> forall i :: 0 <= i < |cs| ==> cs[i] > 0
  {
    if cs == [] then 0 else CountPositive(cs[1..]) + (if cs[0] > 0 then 1 else 0)
  }

  /** `sum(techniques_per_argument)`: the total of the counts; SumBounded, SumUpdate and SumOfTens state its properties. */
  function Sum(cs: seq<nat>): (s: nat)
  {
    if cs == [] then 0 else cs[0] + Sum(cs[1..])
  }

  function Max(cs: seq<nat>): (mx: nat)
    requires |cs| > 0
    ensures forall i :: 0 <= i < |cs| ==> cs[i] <= mx
    ensures exists i :: 0 <= i < |cs| && cs[i] == mx
  {
    MaxOfFirst(cs, |cs|)
  }

  /** The largest of the first n counts. */
  function MaxOfFirst(cs: seq<nat>, n: nat): (mx: nat)
    requires 0 < n <= |cs|
    ensures forall i :: 0 <= i < n ==> cs[i] <= mx
    ensures exists i :: 0 <= i < n && cs[i] == mx
  {
    if n == 1 then cs[0]
    else
      var rest := MaxOfFirst(cs, n - 1);
      if cs[n - 1] >= rest then cs[n - 1] else rest
  }

  /** Each count at most b bounds the total by b times the number of counts. */
  lemma {:induction false} SumBounded(cs: seq<nat>, b: nat)
    requires forall i :: 0 <= i < |cs| ==> cs[i] <= b
    ensures Sum(cs) <= b * |cs|
  {
    if cs != [] {
      SumBounded(cs[1..], b);
      assert b * |cs| == b * |cs[1..]| + b;
    }
  }

  lemma {:induction false} SumUpdate(cs: seq<nat>, i: nat, v: nat)
    requires i < |cs|
    ensures Sum(cs[i := v]) == Sum(cs) - cs[i] + v
  {
    if i > 0 {
      assert cs[i := v][1..] == cs[1..][i - 1 := v];
      SumUpdate(cs[1..], i - 1, v);
    }
  }

  lemma {:induction false} CountPositiveGrows(cs: seq<nat>, i: nat, v: nat)
    requires i < |cs| && v >= cs[i]
    ensures CountPositive(cs[i := v]) >= CountPositive(cs)
  {
    if i > 0 {
      assert cs[i := v][1..] == cs[1..][i - 1 := v];
      CountPositiveGrows(cs[1..], i - 1, v);
    }
  }

  // ---------------------------------------------------------------------------
  // calculate_manipulation_score
  // ---------------------------------------------------------------------------

  datatype ScoreRecord = ScoreRecord(
    overall: real,
    density: real,
    ratio: real,
    average: real,
    maxTechniques: nat)

  /** The five metrics of a list of per-argument technique counts. */
  function ScoreFromCounts(cs: seq<nat>): (r: ScoreRecord)
    ensures cs == [] ==> r == ScoreRecord(0.0, 0.0, 0.0, 0.0, 0)
    ensures forall i :: 0 <= i < |cs| ==> cs[i] <= r.maxTechniques
    ensures cs != [] ==> r.maxTechniques in cs
  {
    if cs == [] then ScoreRecord(0.0, 0.0, 0.0, 0.0, 0)
    else Metrics(|cs|, CountPositive(cs), Sum(cs), Max(cs))
  }

  /** The metrics of n arguments, m of them using a technique, s techniques in all, at most mx in one. */
  function Metrics(n: nat, m: nat, s: nat, mx: nat): (r: ScoreRecord)
    requires n > 0
    ensures r.ratio * n as real == m as real
    ensures r.average * n as real == s as real
    ensures r.density * 10.0 == r.average
    ensures r.maxTechniques == mx
  {
    var ratio := m as real / n as real;
    var average := s as real / n as real;
    var density := s as real / (n as real * 10.0);
    DivTen(s as real, n as real);
    ScoreRecord(Weighted(ratio, density, mx as real), density, ratio, average, mx)
  }

  /** The weighted sum: 40% breadth, 40% density, 20% of the largest count out of ten, scaled to 100. */
  function Weighted(ratio: real, density: real, mx: real): (r: real)
    ensures 0.0 <= ratio <= 1.0 && 0.0 <= density <= 1.0 && 0.0 <= mx <= 10.0 ==> 0.0 <= r <= 100.0
    ensures ratio == 1.0 && density == 1.0 && mx == 10.0 ==> r == 100.0
    ensures ratio == 0.0 && density == 0.0 && mx == 0.0 ==> r == 0.0
  {
    (ratio * 0.4 + density * 0.4 + mx / 10.0 * 0.2) * 100.0
  }

  /** `calculate_manipulation_score` of a unified analysis. */
  function CalculateManipulationScore(a: ApiAnalysis): (r: ScoreRecord)
    ensures a.arguments == [] ==> r == ScoreRecord(0.0, 0.0, 0.0, 0.0, 0)
    ensures forall i :: 0 <= i < |a.arguments| ==> TechniquesUsed(a.arguments[i].manipulations) <= r.maxTechniques
  {
    ScoreFromCounts(TechniqueCounts(a.arguments))
  }

  // Facts of real division used by the score lemmas.

  lemma DivTen(s: real, n: real)
    requires n > 0.0
    ensures s / (n * 10.0) == (s / n) / 10.0
  {
  }

  lemma DivBounded(a: real, b: real, c: real)
    requires b > 0.0 && 0.0 <= a <= c * b
    ensures 0.0 <= a / b <= c
  {
  }

  lemma DivMonotone(a: real, a': real, b: real)
    requires b > 0.0 && a <= a'
    ensures a / b <= a' / b
  {
  }

  lemma DivStrict(a: real, a': real, b: real)
    requires b > 0.0 && a < a'
    ensures a / b < a' / b
  {
  }

  lemma DivMultiple(c: real, n: real)
    requires n > 0.0
    ensures (c * n) / n == c
  {
  }

  lemma WeightedClosedForm(p: real, q: real, mx: real)
    ensures Weighted(p, q / 10.0, mx) == 40.0 * p + 4.0 * q + 2.0 * mx
  {
  }

  /**
   * The overall score in closed form, 40 m / n + 4 S / n + 2 max, with m the arguments
   * using a technique, S the sum of the counts and max their maximum.
   */
  lemma MetricsClosedForm(n: nat, m: nat, s: nat, mx: nat)
    requires n > 0
    ensures Metrics(n, m, s, mx).overall ==
      40.0 * (m as real / n as real) + 4.0 * (s as real / n as real) + 2.0 * (mx as real)
  {
    DivTen(s as real, n as real);
    WeightedClosedForm(m as real / n as real, s as real / n as real, mx as real);
  }

  lemma OverallClosedForm(cs: seq<nat>)
    requires cs != []
    ensures var n := |cs| as real;
      ScoreFromCounts(cs).overall ==
        40.0 * (CountPositive(cs) as real / n) + 4.0 * (Sum(cs) as real / n) + 2.0 * (Max(cs) as real)
  {
    MetricsClosedForm(|cs|, CountPositive(cs), Sum(cs), Max(cs));
  }

  /** With every count at most ten, as for arguments holding only the ten technique keys, every metric is bounded. */
  lemma ScoreBounds(cs: seq<nat>)
    requires forall i :: 0 <= i < |cs| ==> cs[i] <= 10
    ensures var r := ScoreFromCounts(cs);
      && 0.0 <= r.ratio <= 1.0
      && 0.0 <= r.density <= 1.0
      && 0.0 <= r.average <= 10.0
      && r.maxTechniques <= 10
      && 0.0 <= r.overall <= 100.0
  {
    if cs != [] {
      SumBounded(cs, 10);
      MetricsBounds(|cs|, CountPositive(cs), Sum(cs), Max(cs));
    }
  }

  lemma MetricsBounds(n: nat, m: nat, s: nat, mx: nat)
    requires 0 < n && m <= n && s <= 10 * n && mx <= 10
    ensures var r := Metrics(n, m, s, mx);
      && 0.0 <= r.ratio <= 1.0
      && 0.0 <= r.density <= 1.0
      && 0.0 <= r.average <= 10.0
      && 0.0 <= r.overall <= 100.0
  {
    var nr := n as real;
    DivBounded(m as real, nr, 1.0);
    DivBounded(s as real, nr * 10.0, 1.0);
    DivBounded(s as real, nr, 10.0);
    MetricsClosedForm(n, m, s, mx);
  }

  /** Adding one more technique to one argument strictly raises the overall score. */
  lemma ScoreMonotone(cs: seq<nat>, i: nat)
    requires i < |cs|
    ensures ScoreFromCounts(cs[i := cs[i] + 1]).overall > ScoreFromCounts(cs).overall
  {
    var cs' := cs[i := cs[i] + 1];
    SumUpdate(cs, i, cs[i] + 1);
    CountPositiveGrows(cs, i, cs[i] + 1);
    MaxGrows(cs, i, cs[i] + 1);
    ScoreGrows(cs, cs');
  }

  /** Counts with one more technique in all, and no fewer affected arguments or a smaller maximum, score higher. */
  lemma ScoreGrows(cs: seq<nat>, cs': seq<nat>)
    requires cs != [] && |cs'| == |cs|
    requires CountPositive(cs) <= CountPositive(cs') && Sum(cs') == Sum(cs) + 1 && Max(cs) <= Max(cs')
    ensures ScoreFromCounts(cs').overall > ScoreFromCounts(cs).overall
  {
    MetricsGrow(|cs|, CountPositive(cs), CountPositive(cs'), Sum(cs), Sum(cs'), Max(cs), Max(cs'));
  }

  lemma MaxGrows(cs: seq<nat>, i: nat, v: nat)
    requires i < |cs| && v >= cs[i]
    ensures Max(cs[i := v]) >= Max(cs)
  {
    var k :| 0 <= k < |cs| && cs[k] == Max(cs);
    assert cs[i := v][k] >= cs[k];
  }

  lemma MetricsGrow(n: nat, m: nat, m': nat, s: nat, s': nat, mx: nat, mx': nat)
    requires 0 < n && m <= m' && s' == s + 1 && mx <= mx'
    ensures Metrics(n, m', s', mx').overall > Metrics(n, m, s, mx).overall
  {
    MetricsClosedForm(n, m, s, mx);
    MetricsClosedForm(n, m', s', mx');
    DivMonotone(m as real, m' as real, n as real);
    DivStrict(s as real, s' as real, n as real);
  }

  /** Counts of arguments that hold exactly the ten technique keys are at most ten. */
  lemma CountsOfKeyedArguments(args: seq<ApiArgument>)
    requires forall i :: 0 <= i < |args| ==> Keys(args[i].manipulations) == TECHNIQUES
    ensures forall i :: 0 <= i < |args| ==> TechniqueCounts(args)[i] <= 10
  {
    forall i | 0 <= i < |args| ensures TechniqueCounts(args)[i] <= 10 {
      assert |Keys(args[i].manipulations)| == |args[i].manipulations|;
    }
  }

  /** Every analysis the merge produces scores between 0 and 100. */
  lemma MergedScoreBounded(aa: Option<AgentResult<Extraction>>, ts: seq<TechniqueResult>)
    requires Merge.MergeSpec(aa, ts).Success?
    ensures 0.0 <= CalculateManipulationScore(Merge.MergeSpec(aa, ts).value).overall <= 100.0
  {
    var a := Merge.MergeSpec(aa, ts).value;
    CountsOfKeyedArguments(a.arguments);
    ScoreBounds(TechniqueCounts(a.arguments));
  }

  // ---------------------------------------------------------------------------
  // interpret_score
  // ---------------------------------------------------------------------------

  datatype Band = Band(low: real, high: real, riskLevel: string, interpretation: string)

  /** `SCORE_INTERPRETATIONS`, in insertion order. */
  const SCORE_BANDS: seq<Band> := [
    Band(0.0, 20.0, "Low", "The text shows minimal signs of manipulation"),
    Band(20.0, 40.0, "Moderate", "The text contains some manipulative elements"),
    Band(40.0, 60.0, "Substantial", "The text shows significant manipulation patterns"),
    Band(60.0, 80.0, "High", "The text is heavily manipulated"),
    Band(80.0, 100.0, "Extreme", "The text shows pervasive manipulation throughout")
  ]

  const METRICS_EXPLANATION: map<string, string> := map[
    "manipulation_density" := "Proportion of total possible manipulation techniques used across all arguments",
    "affected_arguments_ratio" := "Proportion of arguments containing any manipulation",
    "average_techniques_per_argument" := "Average number of manipulation techniques per argument",
    "max_techniques_in_single_argument" := "Highest number of techniques used in any single argument"
  ]

  datatype Interpretation = Interpretation(
    riskLevel: string,
    interpretation: string,
    metricsExplanation: map<string, string>)

  /**
   * Band membership: low <= score < high; with `closedTop`, the last band of `bands`
   * also takes its upper bound.
   */
  predicate InBand(b: Band, score: real, closedTop: bool) {
    b.low <= score && (score < b.high || (closedTop && score == b.high))
  }

  /** `next(...)` over the bands: the first band that holds the score. */
  function FindBand(bands: seq<Band>, score: real, closedTop: bool): (r: Option<Band>)
    ensures r.Some? ==> r.value in bands
    ensures r.None? <==>
      forall k :: 0 <= k < |bands| ==> !InBand(bands[k], score, closedTop && k == |bands| - 1)
  {
    if bands == [] then None
    else if InBand(bands[0], score, closedTop && |bands| == 1) then Some(bands[0])
    else FindBand(bands[1..], score, closedTop)
  }

  /** The first band is taken when it holds the score. */
  lemma {:induction false} FindBandPicks(bands: seq<Band>, score: real, closedTop: bool, k: nat)
    requires k < |bands| && InBand(bands[k], score, closedTop && k == |bands| - 1)
    requires forall k' :: 0 <= k' < k ==> !InBand(bands[k'], score, closedTop && k' == |bands| - 1)
    ensures FindBand(bands, score, closedTop) == Some(bands[k])
  {
    if k > 0 {
      FindBandPicks(bands[1..], score, closedTop, k - 1);
    }
  }

  /**
   * The lookup of `interpret_score`, with the top band open (as written) or closed: "Not
   * Calculated" without a score, "Invalid" when no band holds it, the band's texts otherwise.
   */
  function Interpret(score: Option<real>, closedTop: bool): (r: Interpretation)
    ensures r.metricsExplanation == METRICS_EXPLANATION
    ensures r.riskLevel == "Not Calculated" <==> score.None?
    ensures score.None? ==> r.interpretation == "Score calculation could not be completed"
    ensures score.Some? ==> (r.riskLevel == "Invalid" <==> FindBand(SCORE_BANDS, score.value, closedTop).None?)
    ensures score.Some? && FindBand(SCORE_BANDS, score.value, closedTop).None? ==>
      r.interpretation == "Score outside expected range"
    ensures score.Some? && FindBand(SCORE_BANDS, score.value, closedTop).Some? ==>
      r.riskLevel == FindBand(SCORE_BANDS, score.value, closedTop).value.riskLevel &&
      r.interpretation == FindBand(SCORE_BANDS, score.value, closedTop).value.interpretation
  {
    if score.None? then
      Interpretation("Not Calculated", "Score calculation could not be completed", METRICS_EXPLANATION)
    else
      match FindBand(SCORE_BANDS, score.value, closedTop)
      case None => Interpretation("Invalid", "Score outside expected range", METRICS_EXPLANATION)
      case Some(b) => Interpretation(b.riskLevel, b.interpretation, METRICS_EXPLANATION)
  }

  /** The bands are disjoint, so the band a score lands in is the (only) one that holds it. */
  lemma InterpretPicksBand(score: real, closedTop: bool, k: nat)
    requires k < |SCORE_BANDS| && InBand(SCORE_BANDS[k], score, closedTop && k == |SCORE_BANDS| - 1)
    ensures Interpret(Some(score), closedTop).riskLevel == SCORE_BANDS[k].riskLevel
    ensures Interpret(Some(score), closedTop).interpretation == SCORE_BANDS[k].interpretation
  {
    FindBandPicks(SCORE_BANDS, score, closedTop, k);
  }

  /** Every score in [0, 100) lies in a band of the half-open lookup, and nothing else is "Invalid". */
  lemma OpenCover(score: real)
    ensures forall k :: 0 <= k < |SCORE_BANDS| && InBand(SCORE_BANDS[k], score, false) ==>
      Interpret(Some(score), false).riskLevel == SCORE_BANDS[k].riskLevel &&
      Interpret(Some(score), false).interpretation == SCORE_BANDS[k].interpretation
    ensures Interpret(Some(score), false).riskLevel == "Invalid" <==> !(0.0 <= score < 100.0)
    ensures Interpret(Some(score), false).riskLevel != "Not Calculated"
  {
    forall k | 0 <= k < |SCORE_BANDS| && InBand(SCORE_BANDS[k], score, false)
      ensures Interpret(Some(score), false).riskLevel == SCORE_BANDS[k].riskLevel
      ensures Interpret(Some(score), false).interpretation == SCORE_BANDS[k].interpretation
    {
      InterpretPicksBand(score, false, k);
    }
    if 0.0 <= score < 100.0 {
      var k := if score < 20.0 then 0 else if score < 40.0 then 1 else if score < 60.0 then 2 else if score < 80.0 then 3 else 4;
      InterpretPicksBand(score, false, k);
    }
  }

  /** With the top band closed, every score in [0, 100] lies in a band; only 100 is looked up differently. */
  lemma ClosedCover(score: real)
    ensures Interpret(Some(score), true).riskLevel == "Invalid" <==> !(0.0 <= score <= 100.0)
    ensures Interpret(Some(score), true).riskLevel != "Not Calculated"
    ensures score != 100.0 ==> Interpret(Some(score), true) == Interpret(Some(score), false)
    ensures score == 100.0 ==> Interpret(Some(score), true).riskLevel == "Extreme"
  {
    if 0.0 <= score <= 100.0 {
      var k := if score < 20.0 then 0 else if score < 40.0 then 1 else if score < 60.0 then 2 else if score < 80.0 then 3 else 4;
      InterpretPicksBand(score, true, k);
      if score != 100.0 {
        InterpretPicksBand(score, false, k);
      }
    }
  }

  lemma ExplanationKeys()
    ensures METRICS_EXPLANATION.Keys == {"manipulation_density", "affected_arguments_ratio",
      "average_techniques_per_argument", "max_techniques_in_single_argument"}
  {
  }

  /**
   * `interpret_score` as written: "Not Calculated" without a score, the band with
   * low <= score < high, and "Invalid" for every score outside [0, 100) — including 100.
   */
  function InterpretScore(score: Option<real>): (r: Interpretation)
    ensures r.metricsExplanation == METRICS_EXPLANATION
    ensures r.riskLevel == "Not Calculated" <==> score.None?
    ensures score.None? ==> r.interpretation == "Score calculation could not be completed"
    ensures r.riskLevel == "Invalid" <==> score.Some? && !(0.0 <= score.value < 100.0)
    ensures score.Some? && !(0.0 <= score.value < 100.0) ==> r.interpretation == "Score outside expected range"
    ensures score.Some? ==>
      forall k :: 0 <= k < |SCORE_BANDS| && SCORE_BANDS[k].low <= score.value < SCORE_BANDS[k].high
        ==> r.riskLevel == SCORE_BANDS[k].riskLevel && r.interpretation == SCORE_BANDS[k].interpretation
  {
    if score.None? then Interpret(score, false)
    else OpenCover(score.value); Interpret(score, false)
  }

  /** The interpretation with the top band closed at 100, the score the weights reach at most. */
  function InterpretScoreInclusive(score: Option<real>): (r: Interpretation)
    ensures r.metricsExplanation == METRICS_EXPLANATION
    ensures r.riskLevel == "Not Calculated" <==> score.None?
    ensures score.None? ==> r.interpretation == "Score calculation could not be completed"
    ensures r.riskLevel == "Invalid" <==> score.Some? && !(0.0 <= score.value <= 100.0)
    ensures score.Some? && !(0.0 <= score.value <= 100.0) ==> r.interpretation == "Score outside expected range"
    ensures score != Some(100.0) ==> r == InterpretScore(score)
    ensures score == Some(100.0) ==> r.riskLevel == "Extreme"
  {
    if score.None? then Interpret(score, true)
    else OpenCover(score.value); ClosedCover(score.value); Interpret(score, true)
  }

  /** A score of exactly 100, which every argument using all ten techniques reaches, is called "Invalid". */
  lemma FullScoreIsInvalid(cs: seq<nat>)
    requires cs != [] && forall i :: 0 <= i < |cs| ==> cs[i] == 10
    ensures ScoreFromCounts(cs).overall == 100.0
    ensures InterpretScore(Some(ScoreFromCounts(cs).overall)).riskLevel == "Invalid"
    ensures InterpretScore(Some(ScoreFromCounts(cs).overall)).interpretation == "Score outside expected range"
    ensures InterpretScoreInclusive(Some(ScoreFromCounts(cs).overall)).riskLevel == "Extreme"
  {
    var n := |cs| as real;
    assert CountPositive(cs) == |cs|;
    SumOfTens(cs);
    assert Max(cs) == 10;
    MetricsClosedForm(|cs|, |cs|, 10 * |cs|, 10);
    DivMultiple(1.0, n);
    DivMultiple(10.0, n);
    assert ScoreFromCounts(cs).overall == 100.0;
  }

  lemma {:induction false} SumOfTens(cs: seq<nat>)
    requires forall i :: 0 <= i < |cs| ==> cs[i] == 10
    ensures Sum(cs) == 10 * |cs|
  {
    if cs != [] {
      SumOfTens(cs[1..]);
    }
  }

  // ---------------------------------------------------------------------------
  // get_score_details
  // ---------------------------------------------------------------------------

  /** A value of the details dictionary: a number, or a string such as 'not_calculated'. */
  datatype Value = Number(x: real) | Text(s: string)

  const NOT_CALCULATED := "not_calculated"

  /**
   * The keys of the dictionary `calculate_manipulation_score` returns: "overall_score",
   * "manipulation_density", "affected_arguments_ratio", "average_techniques_per_argument"
   * and "max_techniques_in_single_argument", in that order.
   */
  datatype Metric =
    | OverallScore
    | ManipulationDensity
    | AffectedArgumentsRatio
    | AverageTechniquesPerArgument
    | MaxTechniquesInSingleArgument

  /** The dictionary `calculate_manipulation_score` returns. */
  function ScoreDict(r: ScoreRecord): map<Metric, real> {
    map[
      OverallScore := r.overall,
      ManipulationDensity := r.density,
      AffectedArgumentsRatio := r.ratio,
      AverageTechniquesPerArgument := r.average,
      MaxTechniquesInSingleArgument := r.maxTechniques as real
    ]
  }

  /** Every metric is a key of the dictionary, mapped to its value. */
  lemma ScoreDictFacts(r: ScoreRecord)
    ensures OverallScore in ScoreDict(r) && ScoreDict(r)[OverallScore] == r.overall
    ensures ManipulationDensity in ScoreDict(r) && ScoreDict(r)[ManipulationDensity] == r.density
    ensures AffectedArgumentsRatio in ScoreDict(r) && ScoreDict(r)[AffectedArgumentsRatio] == r.ratio
    ensures AverageTechniquesPerArgument in ScoreDict(r) && ScoreDict(r)[AverageTechniquesPerArgument] == r.average
    ensures MaxTechniquesInSingleArgument in ScoreDict(r) && ScoreDict(r)[MaxTechniquesInSingleArgument] == r.maxTechniques as real
  {
  }

  /** `dict.get(key, default)`. */
  function Get(m: map<Metric, real>, key: Metric, default: Value): Value {
    if key in m then Number(m[key]) else default
  }

  /** `dict.get(key)`, None when absent. */
  function GetOption(m: map<Metric, real>, key: Metric): Option<real> {
    if key in m then Some(m[key]) else None
  }

  datatype ScoreDetails = ScoreDetails(
    overallScore: Value,
    manipulationDensity: Value,
    affectedArgumentsRatio: Value,
    averageTechniquesPerArgument: Value,
    maxTechniquesInSingleArgument: Value,
    riskLevel: Value,
    interpretation: Value,
    metricsExplanation: map<string, string>)

  /**
   * The details record read from the two dictionaries, each field falling back to
   * 'not_calculated' when its key is missing.
   */
  function Assemble(scores: map<Metric, real>, interpreted: Interpretation): (d: ScoreDetails)
    ensures OverallScore in scores ==> d.overallScore == Number(scores[OverallScore])
    ensures ManipulationDensity in scores ==> d.manipulationDensity == Number(scores[ManipulationDensity])
    ensures AffectedArgumentsRatio in scores ==> d.affectedArgumentsRatio == Number(scores[AffectedArgumentsRatio])
    ensures AverageTechniquesPerArgument in scores ==>
      d.averageTechniquesPerArgument == Number(scores[AverageTechniquesPerArgument])
    ensures MaxTechniquesInSingleArgument in scores ==>
      d.maxTechniquesInSingleArgument == Number(scores[MaxTechniquesInSingleArgument])
    ensures OverallScore !in scores ==> d.overallScore == Text(NOT_CALCULATED)
    ensures ManipulationDensity !in scores ==> d.manipulationDensity == Text(NOT_CALCULATED)
    ensures AffectedArgumentsRatio !in scores ==> d.affectedArgumentsRatio == Text(NOT_CALCULATED)
    ensures AverageTechniquesPerArgument !in scores ==> d.averageTechniquesPerArgument == Text(NOT_CALCULATED)
    ensures MaxTechniquesInSingleArgument !in scores ==> d.maxTechniquesInSingleArgument == Text(NOT_CALCULATED)
    ensures d.riskLevel == Text(interpreted.riskLevel)
    ensures d.interpretation == Text(interpreted.interpretation)
    ensures d.metricsExplanation == interpreted.metricsExplanation
  {
    ScoreDetails(
      Get(scores, OverallScore, Text(NOT_CALCULATED)),
      Get(scores, ManipulationDensity, Text(NOT_CALCULATED)),
      Get(scores, AffectedArgumentsRatio, Text(NOT_CALCULATED)),
      Get(scores, AverageTechniquesPerArgument, Text(NOT_CALCULATED)),
      Get(scores, MaxTechniquesInSingleArgument, Text(NOT_CALCULATED)),
      Text(interpreted.riskLevel),
      Text(interpreted.interpretation),
      interpreted.metricsExplanation)
  }

  /**
   * The details of the metrics `r`: the overall score is read back and interpreted, with
   * the top band open as written or, for the corrected variant, closed.
   */
  function DetailsOf(r: ScoreRecord, closedTop: bool): (d: ScoreDetails)
    ensures d.overallScore == Number(r.overall)
    ensures d.manipulationDensity == Number(r.density)
    ensures d.affectedArgumentsRatio == Number(r.ratio)
    ensures d.averageTechniquesPerArgument == Number(r.average)
    ensures d.maxTechniquesInSingleArgument == Number(r.maxTechniques as real)
    ensures d.riskLevel == Text(Interpret(Some(r.overall), closedTop).riskLevel)
    ensures d.interpretation == Text(Interpret(Some(r.overall), closedTop).interpretation)
    ensures d.metricsExplanation == METRICS_EXPLANATION
  {
    var scores := ScoreDict(r);
    ScoreDictFacts(r);
    Assemble(scores, Interpret(GetOption(scores, OverallScore), closedTop))
  }

  /**
   * `get_score_details`: the metrics of the analysis and their interpretation by
   * `interpret_score` as written, in one record. Every key is present in both dictionaries
   * read, so no field falls back to 'not_calculated'.
   */
  function GetScoreDetails(a: ApiAnalysis): (d: ScoreDetails)
    ensures var r := CalculateManipulationScore(a);
      && d.overallScore == Number(r.overall)
      && d.manipulationDensity == Number(r.density)
      && d.affectedArgumentsRatio == Number(r.ratio)
      && d.averageTechniquesPerArgument == Number(r.average)
      && d.maxTechniquesInSingleArgument == Number(r.maxTechniques as real)
      && d.riskLevel == Text(InterpretScore(Some(r.overall)).riskLevel)
      && d.interpretation == Text(InterpretScore(Some(r.overall)).interpretation)
    ensures d.metricsExplanation == METRICS_EXPLANATION
  {
    DetailsOf(CalculateManipulationScore(a), false)
  }

  /** The corrected `get_score_details`: the same record, interpreted with the top band closed. */
  function GetScoreDetailsInclusive(a: ApiAnalysis): (d: ScoreDetails)
    ensures var r := CalculateManipulationScore(a);
      && d.overallScore == Number(r.overall)
      && d.manipulationDensity == Number(r.density)
      && d.affectedArgumentsRatio == Number(r.ratio)
      && d.averageTechniquesPerArgument == Number(r.average)
      && d.maxTechniquesInSingleArgument == Number(r.maxTechniques as real)
      && d.riskLevel == Text(InterpretScoreInclusive(Some(r.overall)).riskLevel)
      && d.interpretation == Text(InterpretScoreInclusive(Some(r.overall)).interpretation)
    ensures d.metricsExplanation == METRICS_EXPLANATION
  {
    DetailsOf(CalculateManipulationScore(a), true)
  }

  /** As written, a score within [0, 100] is "Invalid" exactly at 100 and otherwise in a band. */
  lemma InterpretBounded(s: real)
    requires 0.0 <= s <= 100.0
    ensures InterpretScore(Some(s)).riskLevel == "Invalid" <==> s == 100.0
    ensures s != 100.0 ==>
      exists k :: 0 <= k < |SCORE_BANDS| && InterpretScore(Some(s)).riskLevel == SCORE_BANDS[k].riskLevel
  {
    if s != 100.0 {
      var k := if s < 20.0 then 0 else if s < 40.0 then 1 else if s < 60.0 then 2 else if s < 80.0 then 3 else 4;
      assert SCORE_BANDS[k].low <= s < SCORE_BANDS[k].high;
    }
  }

  /** Corrected: a score within [0, 100] is always in a band. */
  lemma InterpretInclusiveBounded(s: real)
    requires 0.0 <= s <= 100.0
    ensures exists k :: 0 <= k < |SCORE_BANDS| && InterpretScoreInclusive(Some(s)).riskLevel == SCORE_BANDS[k].riskLevel
  {
    var k := if s < 20.0 then 0 else if s < 40.0 then 1 else if s < 60.0 then 2 else if s < 80.0 then 3 else 4;
    InterpretPicksBand(s, true, k);
  }

  /**
   * As written, the details of an analysis scoring within [0, 100] are "Invalid" exactly
   * when it scores 100, and otherwise name one of the five bands.
   */
  lemma BoundedDetails(a: ApiAnalysis)
    requires 0.0 <= CalculateManipulationScore(a).overall <= 100.0
    ensures GetScoreDetails(a).riskLevel == Text("Invalid") <==> CalculateManipulationScore(a).overall == 100.0
    ensures CalculateManipulationScore(a).overall != 100.0 ==>
      exists k :: 0 <= k < |SCORE_BANDS| && GetScoreDetails(a).riskLevel == Text(SCORE_BANDS[k].riskLevel)
  {
    var s := CalculateManipulationScore(a).overall;
    InterpretBounded(s);
    assert GetScoreDetails(a).riskLevel == Text(InterpretScore(Some(s)).riskLevel);
  }

  /** Corrected: the details of an analysis scoring within [0, 100] always name one of the five bands. */
  lemma BoundedInclusiveDetails(a: ApiAnalysis)
    requires 0.0 <= CalculateManipulationScore(a).overall <= 100.0
    ensures exists k :: 0 <= k < |SCORE_BANDS| && GetScoreDetailsInclusive(a).riskLevel == Text(SCORE_BANDS[k].riskLevel)
  {
    var s := CalculateManipulationScore(a).overall;
    InterpretInclusiveBounded(s);
    assert GetScoreDetailsInclusive(a).riskLevel == Text(InterpretScoreInclusive(Some(s)).riskLevel);
  }

  /**
   * As written, the details of a merged analysis are "Invalid" exactly when it scores 100,
   * and otherwise name one of the five bands.
   */
  lemma MergedDetailsInvalidIffFull(aa: Option<AgentResult<Extraction>>, ts: seq<TechniqueResult>)
    requires Merge.MergeSpec(aa, ts).Success?
    ensures var a := Merge.MergeSpec(aa, ts).value;
      GetScoreDetails(a).riskLevel == Text("Invalid") <==> CalculateManipulationScore(a).overall == 100.0
    ensures var a := Merge.MergeSpec(aa, ts).value;
      CalculateManipulationScore(a).overall != 100.0 ==>
        exists k :: 0 <= k < |SCORE_BANDS| && GetScoreDetails(a).riskLevel == Text(SCORE_BANDS[k].riskLevel)
  {
    MergedScoreBounded(aa, ts);
    BoundedDetails(Merge.MergeSpec(aa, ts).value);
  }

  /** Corrected: the details of a merged analysis always name one of the five bands, never "Invalid". */
  lemma MergedInclusiveDetailsInBand(aa: Option<AgentResult<Extraction>>, ts: seq<TechniqueResult>)
    requires Merge.MergeSpec(aa, ts).Success?
    ensures exists k ::
      0 <= k < |SCORE_BANDS| && GetScoreDetailsInclusive(Merge.MergeSpec(aa, ts).value).riskLevel == Text(SCORE_BANDS[k].riskLevel)
  {
    MergedScoreBounded(aa, ts);
    BoundedInclusiveDetails(Merge.MergeSpec(aa, ts).value);
  }

  /**
   * An analysis in which every argument uses all ten techniques gets "Invalid" from
   * `get_score_details` as written and "Extreme" from the corrected one.
   */
  lemma FullAnalysisIsInvalid(a: ApiAnalysis)
    requires a.arguments != []
    requires forall i :: 0 <= i < |a.arguments| ==> |a.arguments[i].manipulations| == 10
    requires forall i, k :: 0 <= i < |a.arguments| && 0 <= k < |a.arguments[i].manipulations| ==>
      a.arguments[i].manipulations[k].instances != []
    ensures GetScoreDetails(a).riskLevel == Text("Invalid")
    ensures GetScoreDetails(a).interpretation == Text("Score outside expected range")
    ensures GetScoreDetailsInclusive(a).riskLevel == Text("Extreme")
  {
    var cs := TechniqueCounts(a.arguments);
    assert forall i :: 0 <= i < |cs| ==> cs[i] == 10;
    FullScoreIsInvalid(cs);
  }
}
