/**
 * The data the analysis pipeline passes around: what the argument extractor and the
 * technique analyzers return once their JSON has been decoded, and the unified
 * per-argument analysis that the merge builds and the front end displays.
 * A field that the Python code reads with `dict.get` is an `Option`: `None` stands for
 * a missing key.
 */
module AnalysisTypes {
  import opened Wrappers

  /** The ten manipulation techniques, in the order the skeleton lists them. */
  const TECHNIQUES: seq<string> := [
    "ad_populum",
    "unspecified_authority_fallacy",
    "appeal_to_pride",
    "false_dilemma",
    "cherry_picking_data",
    "stork_fallacy",
    "fallacy_of_composition",
    "fallacy_of_division",
    "hasty_generalization",
    "texas_sharpshooter_fallacy"
  ]

  /** No technique name is listed twice. */
  lemma TechniquesDistinct()
    ensures |TECHNIQUES| == 10
    ensures forall a, b :: 0 <= a < b < |TECHNIQUES| ==> TECHNIQUES[a] != TECHNIQUES[b]
  {
  }

  /** One flagged excerpt and why it was flagged. */
  datatype Instance = Instance(instance: string, explanation: string)

  /** One entry of an argument's `manipulations` dictionary: a technique and its instances. */
  datatype Column = Column(technique: string, instances: seq<Instance>)

  /** One argument of the unified analysis. */
  datatype ApiArgument = ApiArgument(
    kind: Option<string>,               // `_type`
    statement: Option<string>,
    connection: Option<string>,         // `connection_to_hypothesis`
    manipulations: seq<Column>)

  /** The unified analysis returned by the merge. */
  datatype ApiAnalysis = ApiAnalysis(thesis: Option<string>, arguments: seq<ApiArgument>)

  /** The keys of a `manipulations` dictionary, in order. */
  function Keys(cols: seq<Column>): (ks: seq<string>)
    ensures |ks| == |cols|
    ensures forall k :: 0 <= k < |cols| ==> ks[k] == cols[k].technique
  {
    seq(|cols|, k requires 0 <= k < |cols| => cols[k].technique)
  }

  // ---- decoded model responses ----

  /** One argument as the extractor lists it. */
  datatype ExtractedArgument = ExtractedArgument(
    kind: Option<string>, statement: Option<string>, connection: Option<string>)

  /** `main_hypothesis`, whose `statement` becomes the thesis. */
  datatype Hypothesis = Hypothesis(statement: Option<string>)

  /** The extractor's decoded JSON object. */
  datatype Extraction = Extraction(
    mainHypothesis: Option<Hypothesis>, arguments: Option<seq<ExtractedArgument>>)

  /**
   * One entry of a technique analyzer's `arguments` list. `containsManipulation` is the
   * Python truthiness of the `contains_manipulation` value (false when it is missing).
   */
  datatype RawEntry = RawEntry(
    argumentText: Option<string>, containsManipulation: bool, manipulations: Option<seq<Instance>>)

  /** A technique analyzer's decoded JSON object; only its `arguments` list is read. */
  datatype TechniqueReport = TechniqueReport(arguments: Option<seq<RawEntry>>)

  /**
   * What an agent's `analyze` returns: the decoded object, or the error dictionary
   * `{error, raw_response}` built when decoding fails.
   */
  datatype AgentResult<T> = Parsed(value: T) | ParseError(error: string, rawResponse: string)

  /** One technique's entry of the raw results dictionary: its name and its result. */
  type TechniqueResult = (string, AgentResult<TechniqueReport>)

  /**
   * The raw results dictionary: the `argument_analysis` entry and then one entry per
   * technique, in insertion order.
   */
  datatype RawResults = RawResults(
    argumentAnalysis: AgentResult<Extraction>, techniques: seq<TechniqueResult>)

  /** The keys of the raw results dictionary, in insertion order. */
  function ResultKeys(r: RawResults): (ks: seq<string>)
    ensures |ks| == 1 + |r.techniques|
    ensures ks[0] == "argument_analysis"
    ensures forall j :: 0 <= j < |r.techniques| ==> ks[j + 1] == r.techniques[j].0
  {
    ["argument_analysis"] + seq(|r.techniques|, j requires 0 <= j < |r.techniques| => r.techniques[j].0)
  }
}
