/** The part of the insight generator that runs after the chat service has answered:
    the reply text is stripped of surrounding white space and split at its first line
    break into a one-line summary and the remaining recommendations. The chat call itself
    (prompt, model, temperature, token limit) is a foreign service; only its reply is modelled. */
module OpenAIClient {
  import opened Wrappers

  /** Stored as the recommendations when the reply has a single line. */
  const NoRecommendations := "No recommendations."

  /** What the chat service gave back: an error raised by the client library, or a
      completion whose choices each carry a message content that may be null. */
  datatype ChatReply = ServiceError | Completion(choices: seq<Option<string>>)

  /** The (summary, recommendations) pair; both are None after any failure. */
  datatype InsightPair = InsightPair(summary: Option<string>, recommendations: Option<string>)

  /** Python's str.isspace() on one character. */
  predicate IsSpace(c: char)
  {
    || c == ' '
    || '\t' <= c <= '\r'
    || '\U{1c}' <= c <= '\U{1f}'
    || c == '\U{85}' || c == '\U{a0}' || c == '\U{1680}'
    || '\U{2000}' <= c <= '\U{200a}'
    || c == '\U{2028}' || c == '\U{2029}' || c == '\U{202f}' || c == '\U{205f}' || c == '\U{3000}'
  }

  predicate AllSpace(s: string)
  {
    forall i :: 0 <= i < |s| ==> IsSpace(s[i])
  }

  /** How many characters str.lstrip() removes: the white space before the first other
      character. */
  function LeadingSpace(s: string): (n: nat)
    ensures n <= |s|
    ensures forall i :: 0 <= i < n ==> IsSpace(s[i])
    ensures n == |s| || !IsSpace(s[n])
  {
    if s == [] || !IsSpace(s[0]) then 0 else 1 + LeadingSpace(s[1..])
  }

  /** How many characters str.rstrip() removes: the white space after the last other
      character. */
  function TrailingSpace(s: string): (n: nat)
    ensures n <= |s|
    ensures forall i :: |s| - n <= i < |s| ==> IsSpace(s[i])
    ensures n == |s| || !IsSpace(s[|s| - 1 - n])
  {
    if s == [] || !IsSpace(s[|s| - 1]) then 0 else 1 + TrailingSpace(s[..|s| - 1])
  }

  /** str.strip(): `s` without its leading white space and then without its trailing
      white space. Neither end of the result is white space, and only white space lies
      around it in `s`. */
  function Strip(s: string): (r: string)
    ensures r == [] || (!IsSpace(r[0]) && !IsSpace(r[|r| - 1]))
    ensures var lead := LeadingSpace(s);
      && lead + |r| <= |s| && r == s[lead..lead + |r|]
      && (forall i :: 0 <= i < lead ==> IsSpace(s[i]))
      && (forall i :: lead + |r| <= i < |s| ==> IsSpace(s[i]))
  {
    var lead := LeadingSpace(s);
    s[lead..][..|s| - lead - TrailingSpace(s[lead..])]
  }

  /** The index of the first line break in `s`, if any. */
  function FindNewline(s: string): (r: Option<nat>)
    ensures r.None? <==> '\n' !in s
    ensures r.Some? ==> r.value < |s| && s[r.value] == '\n' && '\n' !in s[..r.value]
  {
    if s == [] then None
    else if s[0] == '\n' then Some(0)
    else match FindNewline(s[1..])
      case None => None
      case Some(i) =>
        assert s[..i + 1] == [s[0]] + s[1..][..i];
        Some(i + 1)
  }

  /** Python's s.split("\n", 1): one part when `s` has no line break, otherwise the
      text before the first line break and the text after it. */
  function SplitFirstLine(s: string): (parts: seq<string>)
    ensures |parts| == 1 || |parts| == 2
    ensures '\n' !in parts[0]
    ensures |parts| == 1 <==> '\n' !in s
    ensures |parts| == 1 ==> parts[0] == s
    ensures |parts| == 2 ==> parts[0] + "\n" + parts[1] == s
  {
    match FindNewline(s)
    case None => [s]
    case Some(i) =>
      assert s == s[..i] + "\n" + s[i + 1..];
      [s[..i], s[i + 1..]]
  }

  /** The summary and recommendations carved out of a reply's content. */
  function SplitReply(content: string): (r: (string, string))
    ensures '\n' !in r.0
    ensures '\n' in Strip(content) ==> r.0 + "\n" + r.1 == Strip(content)
    ensures '\n' !in Strip(content) ==> r.0 == Strip(content) && r.1 == NoRecommendations
  {
    var parts := SplitFirstLine(Strip(content));
    (parts[0], if |parts| > 1 then parts[1] else NoRecommendations)
  }

  /** generate_insights after the service call: any failure (an error from the service,
      no choices, a null content) gives (None, None); otherwise the split reply. */
  function GenerateInsights(reply: ChatReply): (r: InsightPair)
    ensures r.summary.Some? <==> r.recommendations.Some?
    ensures r.summary.Some? <==> reply.Completion? && |reply.choices| > 0 && reply.choices[0].Some?
    ensures r.summary.Some? ==> '\n' !in r.summary.value
    ensures r.summary.Some? ==> (r.summary.value, r.recommendations.value) == SplitReply(reply.choices[0].value)
  {
    match reply
    case ServiceError => InsightPair(None, None)
    case Completion(choices) =>
      if |choices| == 0 || choices[0].None? then InsightPair(None, None)
      else
        var (summary, recommendations) := SplitReply(choices[0].value);
        InsightPair(Some(summary), Some(recommendations))
  }

  /** Both parts present and non-empty: the condition under which the pipeline stores them. */
  predicate Usable(p: InsightPair)
  {
    p.summary.Some? && p.recommendations.Some? && p.summary.value != "" && p.recommendations.value != ""
  }

  /** Stripping is empty exactly when the content is all white space. */
  lemma StripEmptyIff(s: string)
    ensures Strip(s) == [] <==> AllSpace(s)
  {
  }

  /** Stripping a stripped text changes nothing. */
  lemma StripIdempotent(s: string)
    ensures Strip(Strip(s)) == Strip(s)
  {
  }

  /** The recommendations part is never empty: either the sentinel, or the text after a
      line break that cannot be the last character of a stripped reply. */
  lemma RecommendationsNeverEmpty(content: string)
    ensures SplitReply(content).1 != ""
  {
  }

  /** The summary is empty exactly when the reply content is nothing but white space. */
  lemma SummaryEmptyIff(content: string)
    ensures SplitReply(content).0 == "" <==> AllSpace(content)
  {
  }

  /** The pipeline stores an insight exactly when the service answered with a first
      choice whose content has a character that is not white space. */
  lemma UsableIff(reply: ChatReply)
    ensures Usable(GenerateInsights(reply)) <==>
      reply.Completion? && |reply.choices| > 0 && reply.choices[0].Some? && !AllSpace(reply.choices[0].value)
  {
  }

  /** Text that neither starts nor ends with white space is left alone by Strip. */
  lemma StripKeepsTrimmed(s: string)
    requires s == [] || (!IsSpace(s[0]) && !IsSpace(s[|s| - 1]))
    ensures Strip(s) == s
  {
  }

  /** Splitting inverts joining with a line break, whenever the first part has none. */
  lemma {:induction false} SplitFirstLineOfJoin(a: string, b: string)
    requires '\n' !in a
    ensures SplitFirstLine(a + "\n" + b) == [a, b]
  {
    var s := a + "\n" + b;
    var i := FindNewline(s).value;
    assert s[|a|] == '\n';
    assert s[..|a|] == a && s[|a| + 1..] == b;
  }

  /** A reply made of a first line and a remainder, with no white space around it,
      splits back into exactly those two parts. */
  lemma SplitReplyOfJoin(a: string, b: string)
    requires '\n' !in a && a != [] && !IsSpace(a[0])
    requires b != [] && !IsSpace(b[|b| - 1])
    ensures SplitReply(a + "\n" + b) == (a, b)
  {
    var s := a + "\n" + b;
    assert s[0] == a[0] && s[|s| - 1] == b[|b| - 1];
    StripKeepsTrimmed(s);
    SplitFirstLineOfJoin(a, b);
  }

  /** A three-line reply: the first line, then the other two lines joined as they were. */
  lemma SplitReplyThreeLines()
    ensures SplitReply("Line A\nLine B\nLine C") == ("Line A", "Line B\nLine C")
  {
    var a, b := "Line A", "Line B\nLine C";
    assert a + "\n" + b == "Line A\nLine B\nLine C";
    assert forall i :: 0 <= i < |a| ==> a[i] != '\n';
    SplitReplyOfJoin(a, b);
  }

  /** A one-line reply: the line, and the sentinel for the recommendations. */
  lemma SplitReplyOneLine()
    ensures SplitReply("OnlyLine") == ("OnlyLine", NoRecommendations)
  {
    var s := "OnlyLine";
    StripKeepsTrimmed(s);
    assert forall i :: 0 <= i < |s| ==> s[i] != '\n';
  }

  /** A trailing line break is stripped before the split, so it gives no second part. */
  lemma SplitReplyTrailingNewline()
    ensures SplitReply("A\n") == ("A", NoRecommendations)
  {
    assert LeadingSpace("A\n") == 0;
    assert TrailingSpace("A\n") == 1;
    assert Strip("A\n") == "A";
  }
}
