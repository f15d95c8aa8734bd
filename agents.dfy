/**
 * The orchestration of the language-model calls (`TextAnalysisSystem.analyze_text` in
 * multi_agent.py, `_analyze_raw` in modelApp/app.py): one argument-extraction call, then
 * one call per technique, each given that technique's definition text, the original text
 * and the printed extraction result. The model's replies are inputs, in call order; the
 * definition texts and the printing of a Python dictionary (`str(...)`) are parameters.
 */
module Agents {
  import opened Wrappers
  import opened AnalysisTypes
  import opened ResponseParsing

  /** The variable part of a prompt; the prompt templates themselves are fixed text. */
  datatype Prompt =
    | ArgumentPrompt(text: string)
    | TechniquePrompt(definition: string, text: string, arguments: string)

  /**
   * The calls made, in order (the extraction call, then the technique calls), and the raw
   * results dictionary built from the replies.
   */
  datatype Run = Run(extractionPrompt: Prompt, techniquePrompts: seq<Prompt>, results: RawResults)

  /** One technique prompt per definition, in order, each with the same text and printed extraction. */
  function TechniqueCalls(definitions: seq<string>, text: string, shown: string): (calls: seq<Prompt>)
    ensures |calls| == |definitions|
    ensures forall k :: 0 <= k < |definitions| ==> calls[k] == TechniquePrompt(definitions[k], text, shown)
  {
    if definitions == [] then []
    else [TechniquePrompt(definitions[0], text, shown)] + TechniqueCalls(definitions[1..], text, shown)
  }

  /** The technique entries of the raw results: `names[k]` mapped to the parse of `replies[k]`. */
  function TechniqueResults(
    names: seq<string>,
    replies: seq<string>,
    parseReport: string -> Result<TechniqueReport, string>): (rs: seq<TechniqueResult>)
    requires |replies| == |names|
    ensures |rs| == |names|
    ensures forall k :: 0 <= k < |names| ==> rs[k] == (names[k], ParseResponse(replies[k], parseReport))
  {
    if names == [] then []
    else [(names[0], ParseResponse(replies[0], parseReport))] + TechniqueResults(names[1..], replies[1..], parseReport)
  }

  /**
   * Runs the extractor on `replies[0]` and the technique `names[k]`, described to the model
   * by `definitions[k]`, on `replies[k + 1]`. Every technique prompt carries the same text
   * and the same printed extraction result, which therefore exists before the first
   * technique call is made; the name is only the key of the technique's result.
   */
  function Orchestrate(
    names: seq<string>,
    definitions: seq<string>,
    text: string,
    replies: seq<string>,
    parseExtraction: string -> Result<Extraction, string>,
    parseReport: string -> Result<TechniqueReport, string>,
    show: AgentResult<Extraction> -> string): (run: Run)
    requires |definitions| == |names| && |replies| == 1 + |names|
    ensures run.extractionPrompt == ArgumentPrompt(text)
    ensures |run.techniquePrompts| == |names|
    ensures run.results.argumentAnalysis == ParseResponse(replies[0], parseExtraction)
    ensures |run.results.techniques| == |names|
    ensures forall k :: 0 <= k < |names| ==>
      run.techniquePrompts[k] == TechniquePrompt(definitions[k], text, show(run.results.argumentAnalysis))
    ensures forall k :: 0 <= k < |names| ==>
      run.results.techniques[k] == (names[k], ParseResponse(replies[k + 1], parseReport))
  {
    var analysis := ParseResponse(replies[0], parseExtraction);
    Run(ArgumentPrompt(text), TechniqueCalls(definitions, text, show(analysis)), RawResults(analysis, TechniqueResults(names, replies[1..], parseReport)))
  }

  /** `analyze_text` over the ten techniques, in their fixed order, with their definition texts. */
  function AnalyzeText(
    definitions: seq<string>,
    text: string,
    replies: seq<string>,
    parseExtraction: string -> Result<Extraction, string>,
    parseReport: string -> Result<TechniqueReport, string>,
    show: AgentResult<Extraction> -> string): (run: Run)
    requires |definitions| == |TECHNIQUES| && |replies| == 1 + |TECHNIQUES|
    ensures run.extractionPrompt == ArgumentPrompt(text)
    ensures |run.techniquePrompts| == |TECHNIQUES|
    ensures run.results.argumentAnalysis == ParseResponse(replies[0], parseExtraction)
    ensures |run.results.techniques| == |TECHNIQUES|
    ensures forall k :: 0 <= k < |TECHNIQUES| ==>
      run.techniquePrompts[k] == TechniquePrompt(definitions[k], text, show(run.results.argumentAnalysis))
    ensures forall k :: 0 <= k < |TECHNIQUES| ==>
      run.results.techniques[k] == (TECHNIQUES[k], ParseResponse(replies[k + 1], parseReport))
  {
    Orchestrate(TECHNIQUES, definitions, text, replies, parseExtraction, parseReport, show)
  }

  /** "argument_analysis" has 17 characters and no technique name does. */
  lemma NoTechniqueIsArgumentAnalysis()
    ensures "argument_analysis" !in TECHNIQUES
  {
    assert |"argument_analysis"| == 17;
    assert forall k :: 0 <= k < |TECHNIQUES| ==> |TECHNIQUES[k]| != 17;
  }

  /** Putting a new element in front of a list without repetitions keeps it without repetitions. */
  lemma PrependedDistinct(x: string, names: seq<string>)
    requires x !in names
    requires forall a, b :: 0 <= a < b < |names| ==> names[a] != names[b]
    ensures forall a, b :: 0 <= a < b < |[x] + names| ==> ([x] + names)[a] != ([x] + names)[b]
  {
    var ks := [x] + names;
    forall a, b | 0 <= a < b < |ks| ensures ks[a] != ks[b] {
      assert ks[b] == names[b - 1];
      if a > 0 {
        assert ks[a] == names[a - 1];
      }
    }
  }

  /** The keys of results built over `names` are "argument_analysis" followed by `names`. */
  lemma KeysAreNames(r: RawResults, names: seq<string>)
    requires |r.techniques| == |names|
    requires forall k :: 0 <= k < |names| ==> r.techniques[k].0 == names[k]
    ensures ResultKeys(r) == ["argument_analysis"] + names
  {
    var ks := ResultKeys(r);
    assert forall j :: 0 <= j < |ks| ==> ks[j] == (["argument_analysis"] + names)[j];
  }

  /**
   * The raw results dictionary has exactly eleven keys: "argument_analysis" followed by the
   * ten technique names, all distinct; each name maps to its own technique's result.
   */
  lemma AnalyzeTextKeys(
    definitions: seq<string>,
    text: string,
    replies: seq<string>,
    parseExtraction: string -> Result<Extraction, string>,
    parseReport: string -> Result<TechniqueReport, string>,
    show: AgentResult<Extraction> -> string)
    requires |definitions| == |TECHNIQUES| && |replies| == 1 + |TECHNIQUES|
    ensures var ks := ResultKeys(AnalyzeText(definitions, text, replies, parseExtraction, parseReport, show).results);
      && ks == ["argument_analysis"] + TECHNIQUES
      && |ks| == 11
      && forall a, b :: 0 <= a < b < |ks| ==> ks[a] != ks[b]
  {
    var results := AnalyzeText(definitions, text, replies, parseExtraction, parseReport, show).results;
    KeysAreNames(results, TECHNIQUES);
    TechniquesDistinct();
    NoTechniqueIsArgumentAnalysis();
    PrependedDistinct("argument_analysis", TECHNIQUES);
  }
}
