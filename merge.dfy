/**
 * `TextAnalysisSystem.raw_data_to_api_format` (modelApp/app.py): pops the extractor's
 * result out of the raw results dictionary, builds one record per extracted argument with
 * ten empty technique lists, and then, technique by technique and argument by argument,
 * appends the instances of the first raw entry whose `argument_text` equals the
 * argument's statement and whose `contains_manipulation` is truthy.
 *
 * The module has three layers: a declarative description of the result (`MergeSpec`,
 * built from `FirstMatch`, `Contribution`, `FirstFailure` and `Gathered`); step functions
 * that follow the loops (`ArgumentStep`, `TechniqueStep`); and the methods that run the
 * loops, proved against the step functions and, at the top, against `MergeSpec`.
 */
module Merge {
  import opened Wrappers
  import opened AnalysisTypes
  import ResponseParsing
  import Agents

  /** The exceptions the Python merge can raise, which end the request. */
  datatype MergeError =
    | MissingArgumentAnalysis                      // `pop` of an absent key
    | MissingMainHypothesis                        // `.get` on the None of a missing `main_hypothesis`
    | MissingArgumentList                          // iterating the None of a missing `arguments`
    | MissingTechniqueArguments(technique: string) // a technique result without an `arguments` list
    | MissingInstanceList(technique: string)       // a matching entry without a `manipulations` list
    | UnknownTechnique(technique: string)          // appending to the None of an unknown technique key

  // ---------------------------------------------------------------------------
  // Declarative description
  // ---------------------------------------------------------------------------

  /** A raw entry is taken for an argument when its text equals the statement and it claims a manipulation. */
  predicate Matches(e: RawEntry, statement: Option<string>) {
    e.argumentText == statement && e.containsManipulation
  }

  /** The first raw entry taken for a statement. */
  function FirstMatch(raws: seq<RawEntry>, statement: Option<string>): (r: Option<RawEntry>)
    ensures r.Some? ==> r.value in raws && Matches(r.value, statement)
    ensures r.None? <==> forall k :: 0 <= k < |raws| ==> !Matches(raws[k], statement)
  {
    if raws == [] then None
    else if Matches(raws[0], statement) then Some(raws[0])
    else FirstMatch(raws[1..], statement)
  }

  /** The entry at k is taken when it matches and no earlier entry does. */
  lemma {:induction false} FirstMatchIsFirst(raws: seq<RawEntry>, statement: Option<string>, k: nat)
    requires k < |raws| && Matches(raws[k], statement)
    requires forall k' :: 0 <= k' < k ==> !Matches(raws[k'], statement)
    ensures FirstMatch(raws, statement) == Some(raws[k])
  {
    if k > 0 {
      FirstMatchIsFirst(raws[1..], statement, k - 1);
    }
  }

  /** An entry that does not match a statement can be put anywhere without changing what is taken for it. */
  lemma {:induction false} FirstMatchIgnores(raws: seq<RawEntry>, p: nat, e: RawEntry, statement: Option<string>)
    requires p <= |raws| && !Matches(e, statement)
    ensures FirstMatch(raws[..p] + [e] + raws[p..], statement) == FirstMatch(raws, statement)
  {
    var with := raws[..p] + [e] + raws[p..];
    if p == 0 {
      assert with[1..] == raws;
    } else {
      assert with[0] == raws[0];
      assert with[1..] == raws[1..][..p - 1] + [e] + raws[1..][p - 1..];
      FirstMatchIgnores(raws[1..], p - 1, e, statement);
    }
  }

  /** A technique result's `arguments` list: a parse-error dictionary has none. */
  function ReportEntries(report: AgentResult<TechniqueReport>): Option<seq<RawEntry>> {
    if report.Parsed? then report.value.arguments else None
  }

  /**
   * What technique `t` appends to the list of its name for an argument with this
   * statement, or the exception the merge raises there.
   */
  function Contribution(t: TechniqueResult, statement: Option<string>): (r: Result<seq<Instance>, MergeError>)
    ensures r.Success? ==> ReportEntries(t.1).Some? && r.value == Delivered(ReportEntries(t.1).value, statement)
    ensures ReportEntries(t.1).None? ==> r == Failure(MissingTechniqueArguments(t.0))
    ensures r.Failure? ==>
      r.error == MissingTechniqueArguments(t.0) || r.error == MissingInstanceList(t.0) || r.error == UnknownTechnique(t.0)
  {
    match ReportEntries(t.1)
    case None => Failure(MissingTechniqueArguments(t.0))
    case Some(raws) =>
      match FirstMatch(raws, statement)
      case None => Success([])
      case Some(e) =>
        if e.manipulations.None? then Failure(MissingInstanceList(t.0))
        else if t.0 !in TECHNIQUES && e.manipulations.value != [] then Failure(UnknownTechnique(t.0))
        else Success(e.manipulations.value)
  }

  /** The instances of the entry taken for a statement, in received order, or none. */
  function Delivered(raws: seq<RawEntry>, statement: Option<string>): seq<Instance> {
    match FirstMatch(raws, statement)
    case None => []
    case Some(e) => if e.manipulations.Some? then e.manipulations.value else []
  }

  /** The first exception technique `t` raises, scanning the arguments in order. */
  function TechniqueFailure(t: TechniqueResult, stmts: seq<Option<string>>): Option<MergeError>
    decreases |stmts|
  {
    if stmts == [] then None
    else
      var earlier := TechniqueFailure(t, stmts[..|stmts| - 1]);
      if earlier.Some? then earlier
      else
        var c := Contribution(t, stmts[|stmts| - 1]);
        if c.Failure? then Some(c.error) else None
  }

  /** The first exception of the merge, scanning techniques in order and arguments within each. */
  function FirstFailure(ts: seq<TechniqueResult>, stmts: seq<Option<string>>): Option<MergeError>
    decreases |ts|
  {
    if ts == [] then None
    else
      var earlier := FirstFailure(ts[..|ts| - 1], stmts);
      if earlier.Some? then earlier else TechniqueFailure(ts[|ts| - 1], stmts)
  }

  /** Everything the techniques named `key` append for a statement, in technique order. */
  function Gathered(ts: seq<TechniqueResult>, key: string, statement: Option<string>): seq<Instance>
    decreases |ts|
  {
    if ts == [] then []
    else
      var t := ts[|ts| - 1];
      var c := Contribution(t, statement);
      Gathered(ts[..|ts| - 1], key, statement) + (if t.0 == key && c.Success? then c.value else [])
  }

  /** The ten technique lists of an argument once the techniques `ts` are merged. */
  function Columns(ts: seq<TechniqueResult>, statement: Option<string>): (cols: seq<Column>)
    ensures Keys(cols) == TECHNIQUES
  {
    seq(|TECHNIQUES|, k requires 0 <= k < |TECHNIQUES| =>
      Column(TECHNIQUES[k], Gathered(ts, TECHNIQUES[k], statement)))
  }

  /** The record of one extracted argument once the techniques `ts` are merged. */
  function Record(e: ExtractedArgument, ts: seq<TechniqueResult>): ApiArgument {
    ApiArgument(e.kind, e.statement, e.connection, Columns(ts, e.statement))
  }

  function Populated(ext: seq<ExtractedArgument>, ts: seq<TechniqueResult>): (args: seq<ApiArgument>)
    ensures |args| == |ext|
  {
    seq(|ext|, i requires 0 <= i < |ext| => Record(ext[i], ts))
  }

  function Statements(ext: seq<ExtractedArgument>): (stmts: seq<Option<string>>)
    ensures |stmts| == |ext|
    ensures forall i :: 0 <= i < |ext| ==> stmts[i] == ext[i].statement
  {
    seq(|ext|, i requires 0 <= i < |ext| => ext[i].statement)
  }

  /** The popped extractor result has a `main_hypothesis` and an `arguments` list. */
  predicate ExtractionOk(aa: Option<AgentResult<Extraction>>) {
    && aa.Some? && aa.value.Parsed?
    && aa.value.value.mainHypothesis.Some? && aa.value.value.arguments.Some?
  }

  function ExtractedArguments(aa: Option<AgentResult<Extraction>>): seq<ExtractedArgument>
    requires ExtractionOk(aa)
  {
    aa.value.value.arguments.value
  }

  function ExtractedStatements(aa: Option<AgentResult<Extraction>>): seq<Option<string>> {
    if ExtractionOk(aa) then Statements(ExtractedArguments(aa)) else []
  }

  /**
   * The unified analysis: the extractor's thesis and one record per extracted argument,
   * in order, each holding exactly the ten technique keys; or the first exception.
   */
  function MergeSpec(aa: Option<AgentResult<Extraction>>, ts: seq<TechniqueResult>): (r: Result<ApiAnalysis, MergeError>)
    ensures aa.None? ==> r == Failure(MissingArgumentAnalysis)
    ensures r.Success? ==> ExtractionOk(aa)
    ensures r.Success? ==>
      var ext := ExtractedArguments(aa);
      && r.value.thesis == aa.value.value.mainHypothesis.value.statement
      && |r.value.arguments| == |ext|
      && forall i :: 0 <= i < |ext| ==>
        && r.value.arguments[i].kind == ext[i].kind
        && r.value.arguments[i].statement == ext[i].statement
        && r.value.arguments[i].connection == ext[i].connection
        && Keys(r.value.arguments[i].manipulations) == TECHNIQUES
    ensures r.Success? ==>
      forall i, i' ::
        0 <= i < |r.value.arguments| && 0 <= i' < |r.value.arguments| &&
        r.value.arguments[i].statement == r.value.arguments[i'].statement
        ==> r.value.arguments[i].manipulations == r.value.arguments[i'].manipulations
  {
    if aa.None? then Failure(MissingArgumentAnalysis)
    else if aa.value.ParseError? || aa.value.value.mainHypothesis.None? then Failure(MissingMainHypothesis)
    else if aa.value.value.arguments.None? then Failure(MissingArgumentList)
    else
      var ext := aa.value.value.arguments.value;
      match FirstFailure(ts, Statements(ext))
      case Some(e) => Failure(e)
      case None => Success(ApiAnalysis(aa.value.value.mainHypothesis.value.statement, Populated(ext, ts)))
  }

  // ---------------------------------------------------------------------------
  // Properties of the declarative description
  // ---------------------------------------------------------------------------

  lemma {:induction false} TechniqueFailureNone(t: TechniqueResult, stmts: seq<Option<string>>)
    ensures TechniqueFailure(t, stmts).None? <==>
      forall i :: 0 <= i < |stmts| ==> Contribution(t, stmts[i]).Success?
    decreases |stmts|
  {
    if stmts != [] {
      var front := stmts[..|stmts| - 1];
      TechniqueFailureNone(t, front);
      assert forall i :: 0 <= i < |front| ==> front[i] == stmts[i];
    }
  }

  lemma {:induction false} FirstFailureNone(ts: seq<TechniqueResult>, stmts: seq<Option<string>>)
    ensures FirstFailure(ts, stmts).None? <==>
      forall j, i :: 0 <= j < |ts| && 0 <= i < |stmts| ==> Contribution(ts[j], stmts[i]).Success?
    decreases |ts|
  {
    if ts != [] {
      var front := ts[..|ts| - 1];
      FirstFailureNone(front, stmts);
      TechniqueFailureNone(ts[|ts| - 1], stmts);
      assert forall j :: 0 <= j < |front| ==> front[j] == ts[j];
    }
  }

  /**
   * The merge succeeds exactly when the extractor result is usable and no technique raises
   * for any argument; in particular a technique result without an `arguments` list fails
   * the merge as soon as there is one argument, and is harmless when there is none.
   */
  lemma MergeSucceedsIff(aa: Option<AgentResult<Extraction>>, ts: seq<TechniqueResult>)
    ensures MergeSpec(aa, ts).Success? <==>
      && ExtractionOk(aa)
      && forall j, i :: 0 <= j < |ts| && 0 <= i < |ExtractedArguments(aa)| ==>
           Contribution(ts[j], ExtractedArguments(aa)[i].statement).Success?
  {
    if ExtractionOk(aa) {
      var ext := ExtractedArguments(aa);
      FirstFailureNone(ts, Statements(ext));
    }
  }

  /** A technique result without an `arguments` list, such as a parse-error dictionary, makes the merge fail once there is an argument. */
  lemma MergeFailsWithoutTechniqueArguments(aa: Option<AgentResult<Extraction>>, ts: seq<TechniqueResult>, j: nat)
    requires ExtractionOk(aa) && |ExtractedArguments(aa)| > 0
    requires j < |ts| && ReportEntries(ts[j].1).None?
    ensures MergeSpec(aa, ts).Failure?
  {
    MergeSucceedsIff(aa, ts);
    assert !Contribution(ts[j], ExtractedArguments(aa)[0].statement).Success?;
  }

  /** With zero extracted arguments no technique result is ever read: the merge always succeeds. */
  lemma MergeWithoutArguments(aa: Option<AgentResult<Extraction>>, ts: seq<TechniqueResult>)
    requires ExtractionOk(aa) && ExtractedArguments(aa) == []
    ensures MergeSpec(aa, ts).Success? && MergeSpec(aa, ts).value.arguments == []
  {
    MergeSucceedsIff(aa, ts);
  }

  lemma {:induction false} GatheredAbsent(ts: seq<TechniqueResult>, key: string, statement: Option<string>)
    requires forall j :: 0 <= j < |ts| ==> ts[j].0 != key
    ensures Gathered(ts, key, statement) == []
    decreases |ts|
  {
    if ts != [] {
      GatheredAbsent(ts[..|ts| - 1], key, statement);
    }
  }

  /** With distinct technique names, a key's list is exactly what its own technique contributes. */
  lemma {:induction false} GatheredDistinct(ts: seq<TechniqueResult>, j: nat, statement: Option<string>)
    requires j < |ts|
    requires forall a, b :: 0 <= a < b < |ts| ==> ts[a].0 != ts[b].0
    requires Contribution(ts[j], statement).Success?
    ensures Gathered(ts, ts[j].0, statement) == Contribution(ts[j], statement).value
    decreases |ts|
  {
    var front := ts[..|ts| - 1];
    if j == |ts| - 1 {
      GatheredAbsent(front, ts[j].0, statement);
    } else {
      GatheredDistinct(front, j, statement);
    }
  }

  /**
   * Round trip of one technique: when technique names are distinct, the list under a
   * technique's key for an argument holds exactly the instances, in received order, of
   * the first raw entry of that technique whose text equals the argument's statement and
   * which claims a manipulation; it is empty when no entry is taken, so the instances of
   * an entry with `contains_manipulation` false never appear.
   */
  lemma MergeDelivers(aa: Option<AgentResult<Extraction>>, ts: seq<TechniqueResult>, j: nat, i: nat, k: nat)
    requires MergeSpec(aa, ts).Success?
    requires forall a, b :: 0 <= a < b < |ts| ==> ts[a].0 != ts[b].0
    requires j < |ts| && k < |TECHNIQUES| && ts[j].0 == TECHNIQUES[k]
    requires i < |MergeSpec(aa, ts).value.arguments|
    ensures ReportEntries(ts[j].1).Some?
    ensures MergeSpec(aa, ts).value.arguments[i].manipulations[k].instances ==
      Delivered(ReportEntries(ts[j].1).value, MergeSpec(aa, ts).value.arguments[i].statement)
  {
    var ext := ExtractedArguments(aa);
    MergeSucceedsIff(aa, ts);
    var s := ext[i].statement;
    assert Contribution(ts[j], s).Success?;
    GatheredDistinct(ts, j, s);
  }

  lemma {:induction false} SameTechniqueFailure(t: TechniqueResult, t': TechniqueResult, stmts: seq<Option<string>>)
    requires forall i :: 0 <= i < |stmts| ==> Contribution(t, stmts[i]) == Contribution(t', stmts[i])
    ensures TechniqueFailure(t, stmts) == TechniqueFailure(t', stmts)
    decreases |stmts|
  {
    if stmts != [] {
      var front := stmts[..|stmts| - 1];
      assert forall i :: 0 <= i < |front| ==> front[i] == stmts[i];
      SameTechniqueFailure(t, t', front);
    }
  }

  /** The merge depends on each technique result only through what it contributes to each statement. */
  lemma {:induction false} SameFirstFailure(ts: seq<TechniqueResult>, ts': seq<TechniqueResult>, stmts: seq<Option<string>>)
    requires |ts| == |ts'|
    requires forall j, i :: 0 <= j < |ts| && 0 <= i < |stmts| ==>
      Contribution(ts[j], stmts[i]) == Contribution(ts'[j], stmts[i])
    ensures FirstFailure(ts, stmts) == FirstFailure(ts', stmts)
    decreases |ts|
  {
    if ts != [] {
      var n := |ts|;
      SameFirstFailure(ts[..n - 1], ts'[..n - 1], stmts);
      SameTechniqueFailure(ts[n - 1], ts'[n - 1], stmts);
    }
  }

  lemma {:induction false} SameGathered(ts: seq<TechniqueResult>, ts': seq<TechniqueResult>, key: string, statement: Option<string>)
    requires |ts| == |ts'|
    requires forall j :: 0 <= j < |ts| ==> ts[j].0 == ts'[j].0
    requires forall j :: 0 <= j < |ts| ==> Contribution(ts[j], statement) == Contribution(ts'[j], statement)
    ensures Gathered(ts, key, statement) == Gathered(ts', key, statement)
    decreases |ts|
  {
    if ts != [] {
      var n := |ts|;
      SameGathered(ts[..n - 1], ts'[..n - 1], key, statement);
    }
  }

  /** `ts` with entry e inserted at position p of technique j's `arguments` list. */
  function WithEntry(ts: seq<TechniqueResult>, j: nat, p: nat, e: RawEntry): seq<TechniqueResult>
    requires j < |ts| && ReportEntries(ts[j].1).Some? && p <= |ReportEntries(ts[j].1).value|
  {
    var raws := ReportEntries(ts[j].1).value;
    ts[j := (ts[j].0, Parsed(TechniqueReport(Some(raws[..p] + [e] + raws[p..]))))]
  }

  /**
   * A raw entry that is taken for no argument changes nothing: neither one whose text
   * matches no statement (it is dropped) nor a matching one whose
   * `contains_manipulation` is false (scanning goes on past it).
   */
  lemma MergeIgnoresNonMatching(aa: Option<AgentResult<Extraction>>, ts: seq<TechniqueResult>, j: nat, p: nat, e: RawEntry)
    requires j < |ts| && ReportEntries(ts[j].1).Some? && p <= |ReportEntries(ts[j].1).value|
    requires forall s :: s in ExtractedStatements(aa) ==> !Matches(e, s)
    ensures MergeSpec(aa, WithEntry(ts, j, p, e)) == MergeSpec(aa, ts)
  {
    if ExtractionOk(aa) {
      var ext := ExtractedArguments(aa);
      var stmts := Statements(ext);
      var ts' := WithEntry(ts, j, p, e);
      var raws := ReportEntries(ts[j].1).value;
      forall j', i | 0 <= j' < |ts| && 0 <= i < |stmts|
        ensures Contribution(ts[j'], stmts[i]) == Contribution(ts'[j'], stmts[i])
      {
        if j' == j {
          assert stmts[i] in ExtractedStatements(aa);
          FirstMatchIgnores(raws, p, e, stmts[i]);
        }
      }
      SameFirstFailure(ts, ts', stmts);
      assert Populated(ext, ts) == Populated(ext, ts') by {
        forall i | 0 <= i < |ext| ensures Record(ext[i], ts) == Record(ext[i], ts') {
          assert stmts[i] == ext[i].statement;
          forall k | 0 <= k < |TECHNIQUES|
            ensures Gathered(ts, TECHNIQUES[k], stmts[i]) == Gathered(ts', TECHNIQUES[k], stmts[i])
          {
            SameGathered(ts, ts', TECHNIQUES[k], stmts[i]);
          }
          assert Columns(ts, stmts[i]) == Columns(ts', stmts[i]);
        }
      }
    }
  }

  /**
   * End to end: in the raw results that `analyze_text` builds, technique k's own reply is
   * what lands under key k of every argument.
   */
  lemma AnalysisDeliversEachTechnique(
    definitions: seq<string>,
    text: string,
    replies: seq<string>,
    parseExtraction: string -> Result<Extraction, string>,
    parseReport: string -> Result<TechniqueReport, string>,
    show: AgentResult<Extraction> -> string,
    i: nat, k: nat)
    requires |definitions| == |TECHNIQUES| && |replies| == 1 + |TECHNIQUES|
    requires var results := Agents.AnalyzeText(definitions, text, replies, parseExtraction, parseReport, show).results;
      MergeSpec(Some(results.argumentAnalysis), results.techniques).Success?
    requires var results := Agents.AnalyzeText(definitions, text, replies, parseExtraction, parseReport, show).results;
      i < |MergeSpec(Some(results.argumentAnalysis), results.techniques).value.arguments|
    requires k < |TECHNIQUES|
    ensures var results := Agents.AnalyzeText(definitions, text, replies, parseExtraction, parseReport, show).results;
      var analysis := MergeSpec(Some(results.argumentAnalysis), results.techniques).value;
      var report := ResponseParsing.ParseResponse(replies[k + 1], parseReport);
      report.Parsed? && report.value.arguments.Some? &&
      analysis.arguments[i].manipulations[k].instances ==
        Delivered(report.value.arguments.value, analysis.arguments[i].statement)
  {
    var results := Agents.AnalyzeText(definitions, text, replies, parseExtraction, parseReport, show).results;
    var ts := results.techniques;
    TechniquesDistinct();
    forall a, b | 0 <= a < b < |ts| ensures ts[a].0 != ts[b].0 {
      assert ts[a].0 == TECHNIQUES[a] && ts[b].0 == TECHNIQUES[b];
    }
    MergeDelivers(Some(results.argumentAnalysis), ts, k, i, k);
  }

  // ---------------------------------------------------------------------------
  // Step functions that follow the loops
  // ---------------------------------------------------------------------------

  /** `dict.get(name)` on a `manipulations` dictionary: the index of the key, if present. */
  function ColumnIndex(cols: seq<Column>, name: string): (r: Option<nat>)
    ensures r.Some? ==> r.value < |cols| && cols[r.value].technique == name
    ensures r.None? <==> forall k :: 0 <= k < |cols| ==> cols[k].technique != name
  {
    if cols == [] then None
    else if cols[0].technique == name then Some(0)
    else
      match ColumnIndex(cols[1..], name)
      case None => None
      case Some(k) => Some(k + 1)
  }

  /** Appends instances to the list at index k. */
  function AppendAt(cols: seq<Column>, k: nat, xs: seq<Instance>): (r: seq<Column>)
    requires k < |cols|
    ensures |r| == |cols| && Keys(r) == Keys(cols)
    ensures r[k].instances == cols[k].instances + xs
    ensures forall k' :: 0 <= k' < |cols| && k' != k ==> r[k'] == cols[k']
  {
    cols[k := cols[k].(instances := cols[k].instances + xs)]
  }

  /** One processed argument against one technique's `arguments` list (the innermost loop and its `break`). */
  function ArgumentStep(arg: ApiArgument, name: string, raws: seq<RawEntry>): (r: Result<ApiArgument, MergeError>)
    ensures r.Success? ==>
      && r.value.kind == arg.kind && r.value.statement == arg.statement && r.value.connection == arg.connection
      && Keys(r.value.manipulations) == Keys(arg.manipulations)
    ensures r.Failure? ==> r.error == MissingInstanceList(name) || r.error == UnknownTechnique(name)
    ensures FirstMatch(raws, arg.statement).None? ==> r == Success(arg)
  {
    match FirstMatch(raws, arg.statement)
    case None => Success(arg)
    case Some(e) =>
      if e.manipulations.None? then Failure(MissingInstanceList(name))
      else
        match ColumnIndex(arg.manipulations, name)
        case None => if e.manipulations.value == [] then Success(arg) else Failure(UnknownTechnique(name))
        case Some(k) => Success(arg.(manipulations := AppendAt(arg.manipulations, k, e.manipulations.value)))
  }

  /** One technique against the processed arguments, in order, stopping at the first exception. */
  function TechniqueStep(args: seq<ApiArgument>, t: TechniqueResult): (r: Result<seq<ApiArgument>, MergeError>)
    ensures r.Success? ==> |r.value| == |args|
    ensures r.Failure? ==>
      r.error == MissingTechniqueArguments(t.0) || r.error == MissingInstanceList(t.0) || r.error == UnknownTechnique(t.0)
    decreases |args|
  {
    if args == [] then Success([])
    else
      match TechniqueStep(args[..|args| - 1], t)
      case Failure(e) => Failure(e)
      case Success(done) =>
        match ReportEntries(t.1)
        case None => Failure(MissingTechniqueArguments(t.0))
        case Some(raws) =>
          match ArgumentStep(args[|args| - 1], t.0, raws)
          case Failure(e) => Failure(e)
          case Success(a) => Success(done + [a])
  }

  /** The empty technique lists of a fresh record. */
  function EmptyColumns(): (cols: seq<Column>)
    ensures Keys(cols) == TECHNIQUES
    ensures forall k :: 0 <= k < |cols| ==> cols[k].instances == []
  {
    seq(|TECHNIQUES|, k requires 0 <= k < |TECHNIQUES| => Column(TECHNIQUES[k], []))
  }

  // ---------------------------------------------------------------------------
  // The step functions agree with the declarative description
  // ---------------------------------------------------------------------------

  lemma SkeletonIsPopulated(ext: seq<ExtractedArgument>)
    ensures forall i :: 0 <= i < |ext| ==>
      Populated(ext, [])[i] == ApiArgument(ext[i].kind, ext[i].statement, ext[i].connection, EmptyColumns())
  {
    forall i | 0 <= i < |ext|
      ensures Populated(ext, [])[i] == ApiArgument(ext[i].kind, ext[i].statement, ext[i].connection, EmptyColumns())
    {
      assert Columns([], ext[i].statement) == EmptyColumns();
    }
  }

  lemma GatheredSnoc(ts: seq<TechniqueResult>, t: TechniqueResult, key: string, statement: Option<string>)
    ensures var c := Contribution(t, statement);
      Gathered(ts + [t], key, statement) == Gathered(ts, key, statement) + (if t.0 == key && c.Success? then c.value else [])
  {
    assert (ts + [t])[..|ts|] == ts;
  }

  lemma ColumnIndexOfColumns(ts: seq<TechniqueResult>, statement: Option<string>, name: string)
    ensures name !in TECHNIQUES ==> ColumnIndex(Columns(ts, statement), name).None?
    ensures forall k :: 0 <= k < |TECHNIQUES| && TECHNIQUES[k] == name ==>
      ColumnIndex(Columns(ts, statement), name) == Some(k)
  {
    TechniquesDistinct();
    var cols := Columns(ts, statement);
    assert forall k :: 0 <= k < |cols| ==> cols[k].technique == TECHNIQUES[k];
  }

  /** Merging one technique into a record of the declarative result gives the next record, or the same exception. */
  lemma ArgumentStepOnRecord(e: ExtractedArgument, ts: seq<TechniqueResult>, t: TechniqueResult, raws: seq<RawEntry>)
    requires ReportEntries(t.1) == Some(raws)
    ensures var c := Contribution(t, e.statement);
      ArgumentStep(Record(e, ts), t.0, raws) == if c.Failure? then Failure(c.error) else Success(Record(e, ts + [t]))
  {
    var s := e.statement;
    var c := Contribution(t, s);
    var cols := Columns(ts, s);
    var cols' := Columns(ts + [t], s);
    forall k | 0 <= k < |TECHNIQUES| ensures cols'[k].instances == cols[k].instances + (if t.0 == TECHNIQUES[k] && c.Success? then c.value else []) {
      GatheredSnoc(ts, t, TECHNIQUES[k], s);
    }
    ColumnIndexOfColumns(ts, s, t.0);
    TechniquesDistinct();
    match FirstMatch(raws, s)
    case None =>
      assert c == Success([]);
      assert forall k :: 0 <= k < |TECHNIQUES| ==> cols'[k] == cols[k];
      assert cols' == cols;
    case Some(m) =>
      if m.manipulations.Some? {
        match ColumnIndex(cols, t.0)
        case None =>
          assert forall k :: 0 <= k < |TECHNIQUES| ==> TECHNIQUES[k] != t.0 by {
            assert forall k :: 0 <= k < |cols| ==> cols[k].technique == TECHNIQUES[k];
          }
          if m.manipulations.value == [] {
            assert c == Success([]);
            assert forall k :: 0 <= k < |TECHNIQUES| ==> cols'[k] == cols[k];
            assert cols' == cols;
          }
        case Some(k0) =>
          var app := AppendAt(cols, k0, m.manipulations.value);
          assert cols[k0].technique == TECHNIQUES[k0] == t.0;
          assert c == Success(m.manipulations.value);
          forall k | 0 <= k < |TECHNIQUES| ensures cols'[k] == app[k] {
            if k != k0 {
              assert TECHNIQUES[k] != t.0;
            }
          }
          assert cols' == app;
      }
  }

  lemma {:induction false} TechniqueStepOnPopulated(ext: seq<ExtractedArgument>, ts: seq<TechniqueResult>, t: TechniqueResult)
    ensures TechniqueStep(Populated(ext, ts), t) ==
      match TechniqueFailure(t, Statements(ext))
      case Some(err) => Failure(err)
      case None => Success(Populated(ext, ts + [t]))
    decreases |ext|
  {
    if ext != [] {
      var n := |ext|;
      var front := ext[..n - 1];
      assert Populated(ext, ts)[..n - 1] == Populated(front, ts);
      assert Statements(ext)[..n - 1] == Statements(front);
      assert Populated(ext, ts + [t]) == Populated(front, ts + [t]) + [Record(ext[n - 1], ts + [t])];
      TechniqueStepOnPopulated(front, ts, t);
      if ReportEntries(t.1).Some? {
        ArgumentStepOnRecord(ext[n - 1], ts, t, ReportEntries(t.1).value);
      }
    } else {
      assert Populated(ext, ts) == [];
    }
  }

  lemma {:induction false} TechniqueStepPrefixFailure(args: seq<ApiArgument>, m: nat, t: TechniqueResult)
    requires m <= |args| && TechniqueStep(args[..m], t).Failure?
    ensures TechniqueStep(args, t) == TechniqueStep(args[..m], t)
    decreases |args| - m
  {
    if m < |args| {
      var front := args[..|args| - 1];
      assert front[..m] == args[..m];
      TechniqueStepPrefixFailure(front, m, t);
    } else {
      assert args[..m] == args;
    }
  }

  lemma {:induction false} FirstFailurePrefix(ts: seq<TechniqueResult>, m: nat, stmts: seq<Option<string>>)
    requires m <= |ts| && FirstFailure(ts[..m], stmts).Some?
    ensures FirstFailure(ts, stmts) == FirstFailure(ts[..m], stmts)
    decreases |ts| - m
  {
    if m < |ts| {
      var front := ts[..|ts| - 1];
      assert front[..m] == ts[..m];
      FirstFailurePrefix(front, m, stmts);
    } else {
      assert ts[..m] == ts;
    }
  }

  // ---------------------------------------------------------------------------
  // The loops
  // ---------------------------------------------------------------------------

  /** The first loop: one record per extracted argument, in order, each with ten empty lists. */
  method BuildSkeleton(ext: seq<ExtractedArgument>) returns (args: seq<ApiArgument>)
    ensures |args| == |ext|
    ensures forall i :: 0 <= i < |ext| ==>
      args[i] == ApiArgument(ext[i].kind, ext[i].statement, ext[i].connection, EmptyColumns())
  {
    args := [];
    for i := 0 to |ext|
      invariant |args| == i
      invariant forall i' :: 0 <= i' < i ==>
        args[i'] == ApiArgument(ext[i'].kind, ext[i'].statement, ext[i'].connection, EmptyColumns())
    {
      var argument := ext[i];
      args := args + [ApiArgument(argument.kind, argument.statement, argument.connection, EmptyColumns())];
    }
  }

  /** The innermost loop: scan the raw entries for the first one taken, append its instances one by one, then `break`. */
  method MergeIntoArgument(arg: ApiArgument, name: string, raws: seq<RawEntry>) returns (r: Result<ApiArgument, MergeError>)
    ensures r == ArgumentStep(arg, name, raws)
  {
    var k := 0;
    while k < |raws|
      invariant 0 <= k <= |raws|
      invariant FirstMatch(raws[k..], arg.statement) == FirstMatch(raws, arg.statement)
    {
      var raw := raws[k];
      if raw.argumentText == arg.statement && raw.containsManipulation {
        var index := ColumnIndex(arg.manipulations, name);
        if raw.manipulations.None? {
          return Failure(MissingInstanceList(name));
        }
        var ms := raw.manipulations.value;
        var cols := arg.manipulations;
        var q := 0;
        assert index.Some? ==> cols == AppendAt(arg.manipulations, index.value, ms[..0]) by {
          if index.Some? {
            assert arg.manipulations[index.value].instances + ms[..0] == arg.manipulations[index.value].instances;
          }
        }
        while q < |ms|
          invariant 0 <= q <= |ms|
          invariant index.None? ==> q == 0 && cols == arg.manipulations
          invariant index.Some? ==> cols == AppendAt(arg.manipulations, index.value, ms[..q])
        {
          if index.None? {
            return Failure(UnknownTechnique(name));
          }
          var i := index.value;
          assert ms[..q + 1] == ms[..q] + [ms[q]];
          assert arg.manipulations[i].instances + ms[..q + 1] == cols[i].instances + [ms[q]];
          cols := cols[i := cols[i].(instances := cols[i].instances + [ms[q]])];
          q := q + 1;
        }
        assert ms[..q] == ms;
        assert raws[k..][0] == raw;
        return Success(arg.(manipulations := cols));
      }
      assert raws[k..][1..] == raws[k + 1..];
      k := k + 1;
    }
    return Success(arg);
  }

  /** The middle loop: one technique against every processed argument, in order. */
  method MergeTechnique(args: seq<ApiArgument>, t: TechniqueResult) returns (r: Result<seq<ApiArgument>, MergeError>)
    ensures r == TechniqueStep(args, t)
  {
    var out := args;
    for i := 0 to |args|
      invariant |out| == |args|
      invariant out[i..] == args[i..]
      invariant TechniqueStep(args[..i], t) == Success(out[..i])
    {
      assert args[..i + 1][..i] == args[..i];
      assert args[..i + 1][i] == out[i];
      var raws := ReportEntries(t.1);
      if raws.None? {
        TechniqueStepPrefixFailure(args, i + 1, t);
        return Failure(MissingTechniqueArguments(t.0));
      }
      var step := MergeIntoArgument(out[i], t.0, raws.value);
      if step.Failure? {
        TechniqueStepPrefixFailure(args, i + 1, t);
        return Failure(step.error);
      }
      assert out[..i] + [step.value] == out[i := step.value][..i + 1];
      assert out[i := step.value][i + 1..] == out[i + 1..];
      out := out[i := step.value];
    }
    assert args[..|args|] == args && out[..|args|] == out;
    return Success(out);
  }

  /** The raw results dictionary; `raw_data_to_api_format` pops its `argument_analysis` entry. */
  class RawAnalysis {
    var argumentAnalysis: Option<AgentResult<Extraction>>
    var techniques: seq<TechniqueResult>

    constructor (results: RawResults)
      ensures argumentAnalysis == Some(results.argumentAnalysis)
      ensures techniques == results.techniques
    {
      argumentAnalysis := Some(results.argumentAnalysis);
      techniques := results.techniques;
    }

    /** `dict.pop('argument_analysis')`; `None` stands for the KeyError of an absent key. */
    method PopArgumentAnalysis() returns (r: Option<AgentResult<Extraction>>)
      modifies this
      ensures r == old(argumentAnalysis)
      ensures argumentAnalysis.None? && techniques == old(techniques)
    {
      r := argumentAnalysis;
      argumentAnalysis := None;
    }
  }

  /**
   * `raw_data_to_api_format`: returns the unified analysis `MergeSpec` describes (or its
   * exception) and leaves the dictionary without its `argument_analysis` entry, so that
   * entry is never merged as a technique.
   */
  method RawDataToApiFormat(raw: RawAnalysis) returns (r: Result<ApiAnalysis, MergeError>)
    modifies raw
    ensures r == MergeSpec(old(raw.argumentAnalysis), old(raw.techniques))
    ensures raw.argumentAnalysis.None? && raw.techniques == old(raw.techniques)
  {
    var popped := raw.PopArgumentAnalysis();
    if popped.None? {
      return Failure(MissingArgumentAnalysis);
    }
    var aa := popped.value;
    if aa.ParseError? || aa.value.mainHypothesis.None? {
      return Failure(MissingMainHypothesis);
    }
    var thesis := aa.value.mainHypothesis.value.statement;
    if aa.value.arguments.None? {
      return Failure(MissingArgumentList);
    }
    var ext := aa.value.arguments.value;
    var processed := BuildSkeleton(ext);
    SkeletonIsPopulated(ext);
    assert processed == Populated(ext, []);
    var ts := raw.techniques;
    ghost var stmts := Statements(ext);
    for j := 0 to |ts|
      invariant processed == Populated(ext, ts[..j])
      invariant FirstFailure(ts[..j], stmts) == None
      invariant raw.argumentAnalysis.None? && raw.techniques == ts
    {
      assert ts[..j + 1][..j] == ts[..j] && ts[..j + 1][j] == ts[j];
      TechniqueStepOnPopulated(ext, ts[..j], ts[j]);
      var step := MergeTechnique(processed, ts[j]);
      if step.Failure? {
        FirstFailurePrefix(ts, j + 1, stmts);
        return Failure(step.error);
      }
      assert ts[..j] + [ts[j]] == ts[..j + 1];
      processed := step.value;
    }
    assert ts[..|ts|] == ts;
    return Success(ApiAnalysis(thesis, processed));
  }

  /**
   * modelApp's `analyze_text`: the raw results of the model calls, merged. The returned
   * analysis is the merge of those results.
   */
  method AnalyzeTextApi(
    definitions: seq<string>,
    text: string,
    replies: seq<string>,
    parseExtraction: string -> Result<Extraction, string>,
    parseReport: string -> Result<TechniqueReport, string>,
    show: AgentResult<Extraction> -> string) returns (r: Result<ApiAnalysis, MergeError>)
    requires |definitions| == |TECHNIQUES| && |replies| == 1 + |TECHNIQUES|
    ensures var results := Agents.AnalyzeText(definitions, text, replies, parseExtraction, parseReport, show).results;
      r == MergeSpec(Some(results.argumentAnalysis), results.techniques)
  {
    var run := Agents.AnalyzeText(definitions, text, replies, parseExtraction, parseReport, show);
    var raw := new RawAnalysis(run.results);
    r := RawDataToApiFormat(raw);
  }
}
