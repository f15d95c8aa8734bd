# Manipulation analysis: a verified model of the analysis core

The system checks a news article or similar text for rhetorical manipulation.

1. An extraction agent asks a language model for the text's main hypothesis and its arguments.
2. One technique agent per manipulation technique asks the model which arguments use that technique. There are ten techniques, such as "ad populum" and "false dilemma".
3. The service merges the eleven raw answers into one unified analysis. Each argument carries exactly the ten technique lists.
4. The service scores the analysis and gives it a risk band.
5. A browser side panel shows the result, most manipulated argument first, with a coloured score ring and a sentence.

This project models that core in Dafny:

- `ResponseParsing` (`response_parsing.dfy`): how each agent turns a reply into a decoded object or an error dictionary. It strips whitespace, cuts the optional "```json" fence with the slice `[7:-3]`, and hands the rest to the decoder.
- `Agents` (`agents.dfy`): `analyze_text` / `_analyze_raw` in both versions. This covers the prompts each agent receives and the raw results dictionary they build.
- `Merge` (`merge.dfy`): `raw_data_to_api_format`, in three layers:
  - a declarative description, `MergeSpec`;
  - step functions that follow the loops;
  - methods that run the loops, with an object whose dictionary the merge pops.

  The methods are proved against the description, and the properties are proved about the description.
- `Score` (`score.dfy`): `calculate_manipulation_score`, `interpret_score` and `get_score_details`.
- `SidePanel` (`side_panel.dfy`): the side panel's loading, error and content state and its click handler. This includes the argument sort, modelled as an in-place stable insertion sort on an array, and its comparator.
- `ScoreView` (`score_view.dfy`): the ring colour and the sentence of the score view.
- `AnalysisTypes` and `Wrappers`: the data model and the `Option` / `Result` types.

Calls into code outside the model are parameters:

- the language model: its replies are a sequence given to `AnalyzeText`;
- `json.loads`: a function that returns a value or the decoder's message;
- the definition text of each technique and `str()` of the extraction result, both inserted into the technique prompts;
- the number formatting of the score view.

## Model

| member | source | states |
|---|---|---|
| AnalysisTypes.TechniquesDistinct | modelApp/app.py:247-258 | There are ten technique names in the skeleton, and they are pairwise distinct. |
| AnalysisTypes.ResultKeys | modelApp/app.py:211-223 | The raw results dictionary has "argument_analysis" first, then one key per technique result, in order. |
| ResponseParsing.IsSpace | modelApp/app.py:94 | The characters Python's `str.isspace()` accepts: tab to carriage return, the separators 0x1C to 0x1F, space, and the Unicode spaces. It has no contract of its own. |
| ResponseParsing.TrimStart | modelApp/app.py:94 | Left stripping: the result is a suffix of the input, everything removed is whitespace, and the result does not start with whitespace. |
| ResponseParsing.TrimEnd | modelApp/app.py:94 | Right stripping: the result is a prefix of the input, everything removed is whitespace, and the result does not end with whitespace. |
| ResponseParsing.Strip | modelApp/app.py:94 | The stripped reply is no longer than the reply and neither starts nor ends with whitespace. |
| ResponseParsing.StripIsSlice | modelApp/app.py:94 | Stripping removes exactly the outer whitespace: the result is a slice of the reply with only whitespace before and after it. |
| ResponseParsing.StripWrapped | modelApp/app.py:94 | Stripping a body padded with whitespace gives back exactly the body. |
| ResponseParsing.ClampIndex | modelApp/app.py:96 | A Python slice bound against a length: one within [0, n] stays, a negative one counts from the end, one above n becomes n, and one below -n becomes 0. |
| ResponseParsing.PySlice | modelApp/app.py:96 | With a non-negative start and a negative stop, as in `[7:-3]`, the slice runs from the start to that many characters before the end, and is empty when those overlap. |
| ResponseParsing.StartsWith | modelApp/app.py:95 | `str.startswith`: the prefix is an initial segment of the text. It has no contract of its own; `StripFence`, `FencedBody` and `UnfencedBody` use it. |
| ResponseParsing.StripFence | modelApp/app.py:94-96 | When the stripped reply starts with "```json", the decoder gets characters 7 to len-3, or the empty string for ten characters or fewer. Otherwise it gets the stripped reply. |
| ResponseParsing.FencedBody | modelApp/app.py:94-96 | A fenced reply, with any whitespace around it, hands exactly its body to the decoder. |
| ResponseParsing.FencedLikePlain | multi_agent.py:58-60 | A fenced reply hands the decoder the same text as its bare body would. |
| ResponseParsing.UnfencedBody | multi_agent.py:58-60 | A reply without outer whitespace and without a fence reaches the decoder unchanged. |
| ResponseParsing.ParseResponse | modelApp/app.py:88-99 | The result is the decoded value exactly when the decoder accepts the de-fenced text. Otherwise it is an error whose message is "Failed to parse JSON response: " plus the decoder's message, and whose raw response is the unstripped reply. |
| ResponseParsing.FencedParsesLikePlain | multi_agent.py:57-63 | A fenced reply decodes to the same value as its bare body, or both fail with the same message. Only the error dictionary's `raw_response` differs, since it is each reply as received. |
| Agents.TechniqueCalls | modelApp/app.py:213-222 | Technique call k receives technique k's definition text, the text, and the shown extraction result. |
| Agents.TechniqueResults | modelApp/app.py:213-222 | Result k is technique k's name paired with the parse of reply k. |
| Agents.Orchestrate | modelApp/app.py:206-225 | For any technique list: the extractor gets the text and its reply's parse becomes "argument_analysis". Each technique agent gets its definition text, the text and the shown extraction result, and its reply's parse lands under its name, in order. |
| Agents.AnalyzeText | multi_agent.py:168-198 | The same, for the ten techniques of the service and their definition texts. |
| Agents.AnalyzeTextKeys | multi_agent.py:186-198 | The raw results dictionary has eleven distinct keys: "argument_analysis" and then the ten technique names. |
| Merge.FirstMatch | modelApp/app.py:275-285 | The entry taken is the first entry whose `argument_text` equals the statement and whose `contains_manipulation` holds. No entry is taken exactly when none qualifies. |
| Merge.FirstMatchIsFirst | modelApp/app.py:275-285 | A qualifying entry with no qualifying entry before it is the one taken. |
| Merge.FirstMatchIgnores | modelApp/app.py:275-285 | Inserting an entry that does not qualify anywhere in the list does not change the entry taken. |
| Merge.Contribution | modelApp/app.py:268-285 | What one technique adds for an argument is the instances of the first qualifying entry, or empty. A result without an `arguments` list raises, and every exception raised names that technique. |
| Merge.MergeSpec | modelApp/app.py:228-294 | A missing extractor result raises. A success carries the extractor's thesis and one record per extracted argument, in order, with its kind, statement and connection, and with exactly the ten technique keys. Arguments with equal statements get equal lists. |
| Merge.Columns | modelApp/app.py:247-258 | Every record's technique keys are exactly the ten technique names, in order. |
| Merge.TechniqueFailureNone | modelApp/app.py:268-287 | A technique raises for no argument exactly when its contribution to every argument succeeds. |
| Merge.FirstFailureNone | modelApp/app.py:265-287 | The merge loop raises nothing exactly when every technique contributes to every argument without error. |
| Merge.MergeSucceedsIff | modelApp/app.py:228-294 | The merge succeeds if and only if the extractor result has a hypothesis and an argument list, and no technique raises for any argument. |
| Merge.MergeFailsWithoutTechniqueArguments | modelApp/app.py:270-274 | A technique result without an `arguments` list, such as a parse-error dictionary, fails the merge once there is at least one argument. |
| Merge.MergeWithoutArguments | modelApp/app.py:238-287 | With no extracted arguments the merge succeeds with no arguments, whatever the technique results are. |
| Merge.GatheredAbsent | modelApp/app.py:281-284 | A key no technique result is named after collects nothing. |
| Merge.GatheredDistinct | modelApp/app.py:281-284 | With distinct names, a key's list is exactly what its own technique contributes. |
| Merge.MergeDelivers | modelApp/app.py:265-287 | With distinct technique names, the list under a technique's key for an argument holds exactly the instances of the first qualifying raw entry, in received order. It is empty when no entry qualifies. |
| Merge.SameTechniqueFailure | modelApp/app.py:268-287 | A technique's first exception depends only on what it contributes to each argument. |
| Merge.SameFirstFailure | modelApp/app.py:265-287 | The merge's first exception depends only on what each technique contributes to each argument. |
| Merge.SameGathered | modelApp/app.py:265-287 | The lists collected for a statement depend only on the technique names and their contributions. |
| Merge.MergeIgnoresNonMatching | modelApp/app.py:275-285 | Adding a raw entry that qualifies for no argument changes nothing. This covers an entry whose text matches no statement and a matching entry whose `contains_manipulation` is false. |
| Merge.AnalysisDeliversEachTechnique | modelApp/app.py:201-294 | End to end: in the analysis of the text, the list under technique k of every argument comes from technique k's own reply. |
| Merge.ColumnIndex | modelApp/app.py:281 | `dict.get` on the technique lists finds the position of the key, or reports that no key has that name. |
| Merge.AppendAt | modelApp/app.py:283-284 | Appending to one list extends exactly that list and keeps every key. |
| Merge.ArgumentStep | modelApp/app.py:275-285 | One step of the inner loop keeps the argument's kind, statement, connection and keys. It leaves the argument unchanged when no entry qualifies, and raises only errors that name the technique. |
| Merge.TechniqueStep | modelApp/app.py:267-287 | One pass over the arguments keeps their number, and raises only errors that name the technique. |
| Merge.EmptyColumns | modelApp/app.py:247-258 | The skeleton's lists are the ten technique keys, each empty. |
| Merge.SkeletonIsPopulated | modelApp/app.py:239-260 | The skeleton is the merge of no technique results. |
| Merge.GatheredSnoc | modelApp/app.py:265-287 | One more technique appends its own contribution to the collected lists. |
| Merge.ColumnIndexOfColumns | modelApp/app.py:281 | In a record, only the ten technique names are found, each at its own position. |
| Merge.ArgumentStepOnRecord | modelApp/app.py:275-285 | The inner loop's step for one argument extends the record exactly by the technique's contribution, or raises that technique's error. |
| Merge.TechniqueStepOnPopulated | modelApp/app.py:268-287 | One pass of the outer loop takes the merge of the earlier techniques to the merge of one more, or to its first error. |
| Merge.TechniqueStepPrefixFailure | modelApp/app.py:268-287 | An error raised within the first arguments ends the pass there. |
| Merge.FirstFailurePrefix | modelApp/app.py:265-287 | An error raised within the first techniques is the merge's error. |
| Merge.BuildSkeleton | modelApp/app.py:239-260 | The loop builds one record per extracted argument, in order, with its fields copied and the ten empty technique lists. |
| Merge.MergeIntoArgument | modelApp/app.py:275-285 | The inner scan over the raw entries computes the step function for one argument. |
| Merge.MergeTechnique | modelApp/app.py:268-287 | The loop over arguments computes the step function for one technique. |
| Merge.RawAnalysis.constructor | modelApp/app.py:206-225 | The raw results object holds the extractor result and the technique results. |
| Merge.RawAnalysis.PopArgumentAnalysis | modelApp/app.py:231 | `pop` returns the extractor result, removes it, and leaves the technique results unchanged. |
| Merge.RawDataToApiFormat | modelApp/app.py:228-294 | The merge method returns exactly `MergeSpec` of the raw results it received. It pops the extractor result and leaves the technique results untouched. |
| Merge.AnalyzeTextApi | modelApp/app.py:201-204 | `analyze_text` returns the merge of the raw results that the agents produce from the text and the replies. |
| Score.TechniquesUsed | modelApp/score.py:53-56 | At most one count per technique list. No technique is used exactly when every list is empty. |
| Score.TechniqueCounts | modelApp/score.py:53-56 | One count per argument, in order. |
| Score.CountPositive | modelApp/score.py:60 | The number of arguments using a technique is at most the number of arguments. It is 0 exactly when none uses one, and all of them exactly when every argument uses one. |
| Score.Max | modelApp/score.py:69 | The maximum count is at least every count and is one of them. |
| Score.Sum | modelApp/score.py:70 | The total number of techniques. It has no contract of its own; `SumBounded`, `SumUpdate` and `SumOfTens` state its properties. |
| Score.SumBounded | modelApp/score.py:70 | Counts of at most b sum to at most b times their number. |
| Score.SumUpdate | modelApp/score.py:70 | Changing one count changes the sum by the difference. |
| Score.CountPositiveGrows | modelApp/score.py:60 | Raising one count never lowers the number of arguments using a technique. |
| Score.MaxGrows | modelApp/score.py:69 | Raising one count never lowers the maximum. |
| Score.Metrics | modelApp/score.py:60-74 | The ratio times the number of arguments is the number of manipulated arguments. The average times that number is the total. The density is a tenth of the average, and the maximum is kept. |
| Score.Weighted | modelApp/score.py:78-82 | For a ratio and a density in [0, 1] and a maximum in [0, 10], the weighted sum lies in [0, 100]. It is 100 at the top of each and 0 at the bottom. |
| Score.ScoreFromCounts | modelApp/score.py:44-90 | No arguments give all-zero metrics. The recorded maximum bounds every count and is one of them. |
| Score.CalculateManipulationScore | modelApp/score.py:28-90 | An analysis without arguments scores 0 on every metric. The maximum bounds every argument's technique count. |
| Score.WeightedClosedForm | modelApp/score.py:78-82 | The weighted sum is 40 times the ratio, plus 4 times the average, plus 2 times the largest count. |
| Score.MetricsClosedForm | modelApp/score.py:60-82 | The overall score of n arguments, m of them manipulated, s techniques and at most mx in one, is 40·m/n + 4·s/n + 2·mx. |
| Score.OverallClosedForm | modelApp/score.py:53-82 | The same closed form, in terms of the per-argument counts. |
| Score.ScoreBounds | modelApp/score.py:60-82 | With every count at most ten, the ratio and the density lie in [0, 1], the average in [0, 10], the maximum is at most 10, and the overall score lies in [0, 100]. |
| Score.MetricsBounds | modelApp/score.py:60-82 | The same bounds for the metrics built from n, m, s and mx. |
| Score.ScoreMonotone | modelApp/score.py:53-82 | One more technique in any argument strictly raises the overall score. |
| Score.ScoreGrows | modelApp/score.py:60-82 | More manipulated arguments, one more technique in total and no smaller maximum give a strictly higher score. |
| Score.MetricsGrow | modelApp/score.py:60-82 | The same, for the metrics built from n, m, s and mx. |
| Score.CountsOfKeyedArguments | modelApp/score.py:53-56 | An argument holding only the ten technique keys uses at most ten techniques. |
| Score.MergedScoreBounded | modelApp/score.py:28-90 | The overall score of any successful merge lies in [0, 100]. |
| Score.FindBand | modelApp/score.py:129-134 | The band found is one of the bands. No band is found exactly when the score lies in none of them. |
| Score.FindBandPicks | modelApp/score.py:129-134 | The first band containing the score is the one found. |
| Score.InterpretPicksBand | modelApp/score.py:120-142 | A score in band k gets band k's risk level and interpretation. |
| Score.Interpret | modelApp/score.py:120-142 | The lookup with the top band open or closed gives "Not Calculated", with "Score calculation could not be completed", exactly without a score. It gives "Invalid", with "Score outside expected range", exactly when no band holds the score. Otherwise it gives the found band's texts, and the explanation dictionary in every case. |
| Score.OpenCover | modelApp/score.py:97-134 | With the bands as written, the result is "Invalid" exactly for scores outside [0, 100). It is never "Not Calculated" for a present score. |
| Score.ClosedCover | modelApp/score.py:97-134 | With the top band closed, the result is "Invalid" exactly outside [0, 100]. It agrees with the bands as written everywhere but at 100, which is "Extreme". |
| Score.ExplanationKeys | modelApp/score.py:137-142 | The explanation dictionary has exactly the four metric keys. |
| Score.InterpretScore | modelApp/score.py:92-144 | The code as written. A missing score is "Not Calculated", with "Score calculation could not be completed". A score outside [0, 100) is "Invalid", with "Score outside expected range". Any other score gets its band's level and text. Every result carries the explanation dictionary. |
| Score.InterpretScoreInclusive | modelApp/score.py:92-144 | Corrected interpretation: "Not Calculated" exactly for a missing score and "Invalid" exactly outside [0, 100], each with the same fallback text as the code. It agrees with `InterpretScore` except at 100, which is "Extreme", and it carries the explanation dictionary. |
| Score.FullScoreIsInvalid | modelApp/score.py:129-134 | When every argument uses all ten techniques, the score is exactly 100. The code as written calls that "Invalid", "Score outside expected range", and the corrected interpretation calls it "Extreme". |
| Score.SumOfTens | modelApp/score.py:70 | Counts that are all ten sum to ten times their number. |
| Score.ScoreDictFacts | modelApp/score.py:84-90 | The score dictionary holds all five metrics, each with its computed value. |
| Score.Assemble | modelApp/score.py:5-26 | Each of the five metric details is the dictionary's value when its key is present and "not_calculated" when it is missing. The risk level, interpretation and explanation come from the interpretation. |
| Score.DetailsOf | modelApp/score.py:5-26 | The details of a score record carry its five metrics, the interpretation of its overall score with the top band open or closed, and the explanation dictionary. |
| Score.GetScoreDetails | modelApp/score.py:5-26 | `get_score_details` as written. The details carry the five computed metrics as numbers, none falling back to "not_calculated". The risk level and interpretation are those `interpret_score` gives the overall score, and the explanation dictionary is included. |
| Score.GetScoreDetailsInclusive | modelApp/score.py:5-26 | Corrected `get_score_details`. The same record, with the risk level and interpretation of the top band closed at 100. |
| Score.InterpretBounded | modelApp/score.py:129-134 | As written, a score in [0, 100] is "Invalid" exactly when it is 100, and otherwise gets one of the five bands. |
| Score.InterpretInclusiveBounded | modelApp/score.py:129-134 | Corrected, a score in [0, 100] always gets one of the five bands. |
| Score.BoundedDetails | modelApp/score.py:5-26 | As written, the details of an analysis scoring in [0, 100] are "Invalid" exactly when it scores 100, and otherwise name one of the five bands. |
| Score.BoundedInclusiveDetails | modelApp/score.py:5-26 | Corrected, the details of an analysis scoring in [0, 100] always name one of the five bands. |
| Score.MergedDetailsInvalidIffFull | modelApp/score.py:5-26 | As written, the details of a successful merge are "Invalid" exactly when it scores 100, and otherwise name one of the five bands. |
| Score.MergedInclusiveDetailsInBand | modelApp/score.py:5-26 | Corrected, the details of any successful merge name one of the five bands, never "Invalid". |
| Score.FullAnalysisIsInvalid | modelApp/score.py:5-26 | An analysis in which every argument has all ten technique lists non-empty gets "Invalid" and "Score outside expected range" from `get_score_details` as written. The corrected version gives it "Extreme". |
| SidePanel.Compare | frontend/src/components/SidePanel/SidePanel.tsx:37-53 | The comparator returns -1, 0 or 1. It is negative exactly when the first argument has more instances, positive exactly when it has fewer, and zero exactly when they have the same number. |
| SidePanel.CountingRules | frontend/src/components/SidePanel/SidePanel.tsx:38-45 | The sort key counts instances, which bound the techniques the score counts. Both are zero together, and a technique listed twice makes them differ. |
| SidePanel.Insert | frontend/src/components/SidePanel/SidePanel.tsx:37-53 | Inserting one element into the order adds exactly one element. Its order properties are the Insert lemmas below. |
| SidePanel.SortByKey | frontend/src/components/SidePanel/SidePanel.tsx:37-53 | The stable descending order keeps the length. `SortByKeySorted`, `SortByKeyPermutes` and `SortByKeyStable` state what it is. |
| SidePanel.InsertPermutes | frontend/src/components/SidePanel/SidePanel.tsx:37-53 | Inserting adds exactly the one element. |
| SidePanel.InsertBounded | frontend/src/components/SidePanel/SidePanel.tsx:37-53 | Insertion keeps a bound on the keys. |
| SidePanel.InsertSorted | frontend/src/components/SidePanel/SidePanel.tsx:37-53 | Inserting into a list sorted by decreasing key keeps it sorted. |
| SidePanel.InsertWithKey | frontend/src/components/SidePanel/SidePanel.tsx:37-53 | Inserting puts the element before every element with its key. |
| SidePanel.SortByKeySorted | frontend/src/components/SidePanel/SidePanel.tsx:37-53 | The sorted list is in decreasing key order. |
| SidePanel.SortByKeyPermutes | frontend/src/components/SidePanel/SidePanel.tsx:37-53 | The sorted list is a permutation of the input. |
| SidePanel.SortByKeyStable | frontend/src/components/SidePanel/SidePanel.tsx:37-53 | Elements with equal keys keep their relative order. |
| SidePanel.InsertAfterLarger | frontend/src/components/SidePanel/SidePanel.tsx:37-53 | Insertion places the element right after the leading elements with larger keys. |
| SidePanel.PlacedSeq | frontend/src/components/SidePanel/SidePanel.tsx:37-53 | An array that holds the prefix, the larger elements, the element and the rest, in that order, equals that concatenation. |
| SidePanel.SortInPlace | frontend/src/components/SidePanel/SidePanel.tsx:37-53 | The in-place sort leaves the array holding the sorted version of its old contents. |
| SidePanel.InsertIntoTail | frontend/src/components/SidePanel/SidePanel.tsx:37-53 | One pass moves the element at i into place in the sorted tail after it, and leaves the prefix before i unchanged. |
| SidePanel.SortByCountSorted | frontend/src/components/SidePanel/SidePanel.tsx:37-53 | The ordered arguments never put a pair the comparator would swap out of order. |
| SidePanel.SortByCountPermutes | frontend/src/components/SidePanel/SidePanel.tsx:37-53 | The ordered arguments are a permutation of the received ones. |
| SidePanel.SortByCountStable | frontend/src/components/SidePanel/SidePanel.tsx:37-53 | Arguments with equally many instances keep their received order. |
| SidePanel.SortArguments | frontend/src/components/SidePanel/SidePanel.tsx:37-53 | `sort` on the arguments array leaves it holding the ordered arguments. |
| SidePanel.SidePanel.constructor | frontend/src/components/SidePanel/SidePanel.tsx:18-26 | The panel starts neither loading nor in error, with the stored content. |
| SidePanel.SidePanel.RenderedAnalysis | frontend/src/components/SidePanel/SidePanel.tsx:73-74 | An analysis is shown exactly when the content is not "undefined", and it is that content. |
| SidePanel.SidePanel.HandleClick | frontend/src/components/SidePanel/SidePanel.tsx:28-36 | A click sets loading, clears the error, and sets the content to "undefined". |
| SidePanel.SidePanel.OnResponse | frontend/src/components/SidePanel/SidePanel.tsx:36-60 | A response becomes the content with its arguments ordered, and loading ends. The error flag is unchanged. |
| SidePanel.SidePanel.OnFailure | frontend/src/components/SidePanel/SidePanel.tsx:61-64 | A failure sets the error flag and ends loading. The content is unchanged. |
| SidePanel.ClickThenRespond | frontend/src/components/SidePanel/SidePanel.tsx:28-60 | After a click and a response, the panel shows the response with its arguments sorted by decreasing instance count and permuted, not reordered otherwise. Thesis and score are unchanged, and there is no error and no loading. |
| SidePanel.ClickThenFail | frontend/src/components/SidePanel/SidePanel.tsx:28-64 | After a click and a failure, the panel shows an error, is not loading, and shows no analysis, because the click cleared the content. |
| ScoreView.ToNumber | frontend/src/components/SidePanel/ScoreDetails.tsx:9 | A numeric overall score is read as that number. The text "not_calculated" is not a number. |
| ScoreView.ScoreColour | frontend/src/components/SidePanel/ScoreDetails.tsx:10-11 | The ring is red exactly above 75, yellow exactly in (25, 75], and green otherwise, which includes a non-number. |
| ScoreView.ColourMonotone | frontend/src/components/SidePanel/ScoreDetails.tsx:10-11 | A higher score never gets a milder colour. |
| ScoreView.ToLower | frontend/src/components/SidePanel/ScoreDetails.tsx:26 | Capitals become lower case, characters without case stay, and no result is a capital. |
| ScoreView.ToLowerIdempotent | frontend/src/components/SidePanel/ScoreDetails.tsx:26 | Lowering twice is lowering once. |
| ScoreView.LowerFirst | frontend/src/components/SidePanel/ScoreDetails.tsx:26-27 | Only the first character is lowered, and the length is kept. |
| ScoreView.LowerFirstIdempotent | frontend/src/components/SidePanel/ScoreDetails.tsx:26-27 | Lowering the first character twice is doing it once. |
| ScoreView.RenderScore | frontend/src/components/SidePanel/ScoreDetails.tsx:9-28 | The ring shows the number and its colour. The sentence is "The score of", the label, "means that", and the interpretation with its first character lowered. The rest of the interpretation appears unchanged at the end. |

## Left out

- The language model calls are not modelled. Their replies are an input sequence, one per agent. A prompt is reduced to the values inserted into its fixed template.
- `json.loads` is a parameter that returns a value or the decoder's message. JSON syntax is not part of this model.
- `str()` of the extraction result passed to the technique agents is a parameter, as is the score view's formatting of a number.
- The web service, the API gateway, logging, the extension's background messaging, local storage persistence and all asynchrony are left out. Only their order of effects on the panel's state is modelled: click, then response or failure.
- Agents.TechniqueCalls: the definition text of each technique is a parameter. Its wording is not reproduced, and it differs between modelApp/app.py:170-199 and multi_agent.py:135-166.
- Agents.AnalyzeText: the model calls run one after another and nothing may fail between them. A call that raises, rather than returning an unparsable reply, is not modelled.
- Score.CalculateManipulationScore: the metrics are exact reals, not floats. Python's `round(…, 2)` on the returned metrics is not modelled, so band boundaries are compared on exact values.
- Score.ScoreDict: the five metric keys are an enumeration rather than strings.
- ScoreView.ToNumber: unary `+` on a numeric string and `NaN` behaviour are not modelled. "not_calculated" is treated as a non-number, which is green.
- ScoreView.ToLower: lowers ASCII and Latin-1 capitals only. JavaScript's full Unicode `toLowerCase` is not modelled.
- ScoreView.RenderScore: requires a non-empty interpretation. In the source, `interpretation[0]` is then undefined and `.toLowerCase()` throws, and that crash is not modelled.
- SidePanel.SortArguments: the model copies the response's arguments into a fresh array and sorts it. The source sorts the response's own array in place, so aliasing with the response object is not captured. The sort is a stable insertion sort. Any stable sort gives the same order, and the engine's sort is stable.
- SidePanel.SidePanel.OnResponse: a null response, for which `response?.arguments` is undefined, is not modelled.
- ResponseParsing.Strip: its own contract gives only the length bound and whitespace-free ends. That exactly the outer whitespace is removed is stated by `ResponseParsing.StripIsSlice`.
- SidePanel.TotalInstances: has no contract of its own. Its properties are stated in `SidePanel.CountingRules`.
- The extractor's `main_hypothesis` key is read only for its statement. Other fields of the hypothesis are dropped, as in the code.
- `contains_manipulation` is modelled as a boolean. Python truthiness of other JSON values is not.
- The merge order follows the code. The outer loop runs over techniques and the inner loop over arguments, so the first exception is the first one in that order.
- The risk bands follow the code, which has five (Low, Moderate, Substantial, High, Extreme).

## Findings

| source | as written | input that shows it | evidently intended | confidence | as-written member | corrected member |
|---|---|---|---|---|---|---|
| modelApp/score.py:129-134 | Every band is half open, `low <= score < high`, and the top band ends at 100. A score of exactly 100 falls in no band and is reported as "Invalid". | An analysis in which every argument uses all ten techniques. Its overall score is 40 + 40 + 20 = 100. | The top band, "Extreme", includes 100, the largest score the formula can produce. | not executed | Score.FullAnalysisIsInvalid | Score.GetScoreDetailsInclusive |
