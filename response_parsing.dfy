/**
 * How both agents turn the language model's reply into a decoded object: strip
 * surrounding whitespace, cut an optional "```json" fence with the slice [7:-3], and hand
 * the rest to the JSON decoder. The decoder itself is a parameter: it either returns a
 * value or fails with the decoder's message.
 */
module ResponseParsing {
  import opened Wrappers
  import opened AnalysisTypes

  /** Python's `str.isspace()` for one character. */
  predicate IsSpace(c: char) {
    var n := c as int;
    (9 <= n <= 13) || (28 <= n <= 32) || n == 0x85 || n == 0xA0 || n == 0x1680
    || (0x2000 <= n <= 0x200A) || n == 0x2028 || n == 0x2029 || n == 0x202F
    || n == 0x205F || n == 0x3000
  }

  predicate AllSpace(s: string) {
    forall k :: 0 <= k < |s| ==> IsSpace(s[k])
  }

  /** Drops leading whitespace. */
  function TrimStart(s: string): (r: string)
    ensures |r| <= |s| && r == s[|s| - |r|..]
    ensures AllSpace(s[..|s| - |r|])
    ensures r != [] ==> !IsSpace(r[0])
    decreases |s|
  {
    if s != [] && IsSpace(s[0]) then TrimStart(s[1..]) else s
  }

  /** Drops trailing whitespace. */
  function TrimEnd(s: string): (r: string)
    ensures |r| <= |s| && r == s[..|r|]
    ensures AllSpace(s[|r|..])
    ensures r != [] ==> !IsSpace(r[|r| - 1])
    decreases |s|
  {
    if s != [] && IsSpace(s[|s| - 1]) then
      var r := TrimEnd(s[..|s| - 1]);
      assert s[|r|..] == s[..|s| - 1][|r|..] + [s[|s| - 1]];
      r
    else s
  }

  /** Python's `str.strip()` with no argument. */
  function Strip(s: string): (r: string)
    ensures |r| <= |s|
    ensures r != [] ==> !IsSpace(r[0]) && !IsSpace(r[|r| - 1])
  {
    TrimEnd(TrimStart(s))
  }

  /** `strip()` removes exactly the outer whitespace: what is left is a slice with only whitespace around it. */
  lemma StripIsSlice(s: string)
    ensures exists i, j :: 0 <= i <= j <= |s| && Strip(s) == s[i..j] && AllSpace(s[..i]) && AllSpace(s[j..])
  {
    var t := TrimStart(s);
    var r := TrimEnd(t);
    var i := |s| - |t|;
    assert s[i..i + |r|] == t[..|r|];
    assert s[i + |r|..] == t[|r|..];
  }

  lemma {:induction false} TrimStartOfSpaces(pre: string, rest: string)
    requires AllSpace(pre)
    requires rest != [] && !IsSpace(rest[0])
    ensures TrimStart(pre + rest) == rest
    decreases |pre|
  {
    if pre == [] {
      assert pre + rest == rest;
    } else {
      assert (pre + rest)[0] == pre[0] && IsSpace(pre[0]);
      assert (pre + rest)[1..] == pre[1..] + rest;
      assert AllSpace(pre[1..]) by {
        forall k | 0 <= k < |pre[1..]| ensures IsSpace(pre[1..][k]) {
          assert pre[1..][k] == pre[k + 1];
        }
      }
      TrimStartOfSpaces(pre[1..], rest);
    }
  }

  lemma {:induction false} TrimEndOfSpaces(rest: string, post: string)
    requires AllSpace(post)
    requires rest != [] && !IsSpace(rest[|rest| - 1])
    ensures TrimEnd(rest + post) == rest
    decreases |post|
  {
    if post == [] {
      assert rest + post == rest;
    } else {
      var s := rest + post;
      assert s[..|s| - 1] == rest + post[..|post| - 1];
      TrimEndOfSpaces(rest, post[..|post| - 1]);
    }
  }

  /** Whitespace around a text that begins and ends with a visible character is all `strip` removes. */
  lemma StripWrapped(pre: string, body: string, post: string)
    requires AllSpace(pre) && AllSpace(post)
    requires body != [] && !IsSpace(body[0]) && !IsSpace(body[|body| - 1])
    ensures Strip(pre + body + post) == body
  {
    assert pre + body + post == pre + (body + post);
    TrimStartOfSpaces(pre, body + post);
    TrimEndOfSpaces(body, post);
  }

  predicate StartsWith(s: string, prefix: string) {
    |prefix| <= |s| && s[..|prefix|] == prefix
  }

  /** Python's normalisation of a slice bound against a length. */
  function ClampIndex(i: int, n: nat): (r: nat)
    ensures r <= n
    ensures 0 <= i <= n ==> r == i
    ensures i < 0 && n + i >= 0 ==> r == n + i
    ensures i > n ==> r == n
    ensures n + i < 0 ==> r == 0
  {
    if i < 0 then (if n + i < 0 then 0 else n + i) else if i > n then n else i
  }

  /**
   * Python's `s[start:stop]`; with a non-negative start and a negative stop, as in `[7:-3]`,
   * it is the characters from `start` up to `-stop` characters before the end, or nothing
   * when those overlap.
   */
  function PySlice(s: string, start: int, stop: int): (r: string)
    ensures |r| <= |s|
    ensures 0 <= start && stop < 0 && start <= |s| + stop ==> r == s[start..|s| + stop]
    ensures 0 <= start && stop < 0 && start >= |s| + stop ==> r == []
  {
    var lo := ClampIndex(start, |s|);
    var hi := ClampIndex(stop, |s|);
    if lo < hi then s[lo..hi] else []
  }

  const FENCE_OPEN: string := "```json"
  const FENCE_CLOSE: string := "```"

  /**
   * The text handed to the decoder: the stripped reply, and when it starts with
   * "```json", its characters [7, len - 3). The last three characters are dropped
   * without looking at them, so the result is empty when the stripped reply has at most
   * ten characters.
   */
  function StripFence(content: string): (r: string)
    ensures var s := Strip(content);
      StartsWith(s, FENCE_OPEN) ==> r == (if |s| > 10 then s[7..|s| - 3] else [])
    ensures var s := Strip(content);
      !StartsWith(s, FENCE_OPEN) ==> r == s
  {
    var s := Strip(content);
    if StartsWith(s, FENCE_OPEN) then PySlice(s, 7, -3) else s
  }

  /** A fenced reply, with any whitespace around it, decodes from exactly its body. */
  lemma FencedBody(pre: string, body: string, post: string)
    requires AllSpace(pre) && AllSpace(post)
    ensures StripFence(pre + FENCE_OPEN + body + FENCE_CLOSE + post) == body
  {
    var fenced := FENCE_OPEN + body + FENCE_CLOSE;
    assert fenced[0] == '`' && fenced[|fenced| - 1] == '`';
    assert pre + FENCE_OPEN + body + FENCE_CLOSE + post == pre + fenced + post;
    StripWrapped(pre, fenced, post);
    assert fenced[..7] == FENCE_OPEN;
    assert fenced[7..|fenced| - 3] == body;
  }

  /**
   * A fenced reply decodes as its unfenced body would: both hand the decoder the same
   * text, provided the body has no surrounding whitespace and no fence of its own.
   */
  lemma FencedLikePlain(pre: string, body: string, post: string)
    requires AllSpace(pre) && AllSpace(post)
    requires body != [] && !IsSpace(body[0]) && !IsSpace(body[|body| - 1])
    requires !StartsWith(body, FENCE_OPEN)
    ensures StripFence(pre + FENCE_OPEN + body + FENCE_CLOSE + post) == StripFence(body)
  {
    FencedBody(pre, body, post);
    UnfencedBody(body);
  }

  /** A reply without surrounding whitespace and without a fence reaches the decoder unchanged. */
  lemma UnfencedBody(body: string)
    requires body != [] && !IsSpace(body[0]) && !IsSpace(body[|body| - 1])
    requires !StartsWith(body, FENCE_OPEN)
    ensures StripFence(body) == body
  {
    assert [] + body + [] == body;
    StripWrapped([], body, []);
  }

  const PARSE_ERROR_PREFIX: string := "Failed to parse JSON response: "

  /**
   * Decodes a reply. On a decoding failure the result is the error dictionary, whose
   * `raw_response` is the reply as received, before stripping.
   */
  function ParseResponse<T>(content: string, parse: string -> Result<T, string>): (r: AgentResult<T>)
    ensures r.Parsed? <==> parse(StripFence(content)).Success?
    ensures r.Parsed? ==> r.value == parse(StripFence(content)).value
    ensures r.ParseError? ==>
      r.rawResponse == content && r.error == PARSE_ERROR_PREFIX + parse(StripFence(content)).error
  {
    match parse(StripFence(content))
    case Success(v) => Parsed(v)
    case Failure(msg) => ParseError(PARSE_ERROR_PREFIX + msg, content)
  }

  /**
   * Scenario of a fenced reply: it decodes to what its plain body decodes to, or fails with
   * the same message; only the `raw_response` of the error dictionary differs, since it
   * is each reply as received.
   */
  lemma FencedParsesLikePlain<T>(pre: string, body: string, post: string, parse: string -> Result<T, string>)
    requires AllSpace(pre) && AllSpace(post)
    requires body != [] && !IsSpace(body[0]) && !IsSpace(body[|body| - 1])
    requires !StartsWith(body, FENCE_OPEN)
    ensures var fenced := ParseResponse(pre + FENCE_OPEN + body + FENCE_CLOSE + post, parse);
      var plain := ParseResponse(body, parse);
      && (fenced.Parsed? <==> plain.Parsed?)
      && (plain.Parsed? ==> fenced.value == plain.value)
      && (plain.ParseError? ==> fenced.error == plain.error)
  {
    FencedLikePlain(pre, body, post);
  }
}
