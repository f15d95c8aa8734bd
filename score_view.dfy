/**
 * frontend/src/components/SidePanel/ScoreDetails.tsx: the score ring's colour and the
 * sentence that explains the score.
 */
module ScoreView {
  import opened Wrappers
  import Score

  datatype Colour = Red | Yellow | Green

  /**
   * The unary `+` on the score field: a number stays itself; the back end's only string
   * value, 'not_calculated', becomes NaN (None).
   */
  function ToNumber(v: Score.Value): (n: Option<real>)
    ensures v.Number? ==> n == Some(v.x)
    ensures v.Text? ==> n.None?
  {
    match v
    case Number(x) => Some(x)
    case Text(_) => None
  }

  /** The nested conditional: above 75 red, above 25 yellow, otherwise (NaN included) green. */
  function ScoreColour(score: Option<real>): (c: Colour)
    ensures c == Red <==> score.Some? && score.value > 75.0
    ensures c == Yellow <==> score.Some? && 25.0 < score.value <= 75.0
    ensures c == Green <==> score.None? || score.value <= 25.0
  {
    if score.Some? && score.value > 75.0 then Red
    else if score.Some? && score.value > 25.0 then Yellow
    else Green
  }

  function Rank(c: Colour): nat {
    match c
    case Green => 0
    case Yellow => 1
    case Red => 2
  }

  /** A higher score never gets a milder colour. */
  lemma ColourMonotone(s: real, s': real)
    requires s <= s'
    ensures Rank(ScoreColour(Some(s))) <= Rank(ScoreColour(Some(s')))
  {
  }

  /** `toLowerCase` of one character: ASCII and Latin-1 capitals map to their small letters. */
  function ToLower(c: char): (r: char)
    ensures 'A' <= c <= 'Z' ==> r as int == c as int + 32
    ensures !('A' <= c <= 'Z') && !('À' <= c <= 'Þ' && c != '×') ==> r == c
    ensures !('A' <= r <= 'Z')
  {
    if 'A' <= c <= 'Z' || ('À' <= c <= 'Þ' && c != '×') then (c as int + 32) as char
    else c
  }

  lemma ToLowerIdempotent(c: char)
    ensures ToLower(ToLower(c)) == ToLower(c)
  {
  }

  /** `s[0].toLowerCase() + s.slice(1)`: only the first character changes. */
  function LowerFirst(s: string): (r: string)
    requires |s| > 0
    ensures |r| == |s| && r[0] == ToLower(s[0]) && r[1..] == s[1..]
  {
    [ToLower(s[0])] + s[1..]
  }

  /** Lower-casing the first letter twice is lower-casing it once. */
  lemma LowerFirstIdempotent(s: string)
    requires |s| > 0
    ensures LowerFirst(LowerFirst(s)) == LowerFirst(s)
  {
    ToLowerIdempotent(s[0]);
    assert LowerFirst(s)[1..] == s[1..];
  }

  const MESSAGE_PREFIX := "The score of "
  const MESSAGE_MIDDLE := " means that "

  datatype View = View(ringValue: Option<real>, ringColour: Colour, ringLabel: string, message: string)

  /**
   * The ring and the sentence. The ring's section value and its label show the same
   * number; `show` stands for the template literal's number-to-text conversion. An empty
   * interpretation makes `interpretation[0]` undefined and the render throw.
   */
  function RenderScore(overall: Score.Value, interpretation: string, show: Option<real> -> string): (v: View)
    requires |interpretation| > 0
    ensures v.ringValue == ToNumber(overall) && v.ringLabel == show(v.ringValue)
    ensures v.ringColour == ScoreColour(v.ringValue)
    ensures v.message == MESSAGE_PREFIX + v.ringLabel + MESSAGE_MIDDLE + LowerFirst(interpretation)
    ensures |v.message| == |MESSAGE_PREFIX| + |v.ringLabel| + |MESSAGE_MIDDLE| + |interpretation|
    ensures v.message[|v.message| - |interpretation| + 1..] == interpretation[1..]
  {
    var overallScore := ToNumber(overall);
    var ringLabel := show(overallScore);
    var message := MESSAGE_PREFIX + ringLabel + MESSAGE_MIDDLE + LowerFirst(interpretation);
    assert message[|message| - |interpretation|..] == LowerFirst(interpretation);
    View(overallScore, ScoreColour(overallScore), ringLabel, message)
  }
}
