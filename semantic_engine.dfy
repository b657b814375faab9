/** Semantic engine (backend/src/agent/semanticEngine.js): the keyword
    heuristic, the mode selection by API-key presence, and the post-processing
    of the language model's reply. */
module SemanticEngine {
  import opened Wrappers
  import opened Strings

  datatype Sentiment = Positive | Neutral

  /** One pre-authored illustration from the language model's JSON. */
  datatype Illustration = Illustration(prompt: string, rationale: string, visualMetaphor: string)

  /** The analysis object. Fields that one of the two paths never sets are
      `None` there: the heuristic sets `entities` but not `rawOutput` or
      `illustrations`; the provider path sets `rawOutput` and `illustrations`
      (possibly still absent) but not `entities`. */
  datatype Analysis = Analysis(
    summary: string,
    keywords: seq<string>,
    sentiment: Sentiment,
    coreMessage: string,
    entities: Option<seq<string>>,
    rawOutput: Option<string>,
    illustrations: Option<seq<Illustration>>)

  /** The two fields read from a parsed reply object (`article_tone`,
      `illustrations`); either may be missing. */
  datatype ParsedReply = ParsedReply(articleTone: Option<string>, illustrations: Option<seq<Illustration>>)

  /** The language-model provider: `complete(text)` is the chat request and the
      read of `output.choices[0].message.content` (`None` when either throws);
      `parseJson` is `JSON.parse` (`None` when it throws). */
  datatype LlmProvider = LlmProvider(complete: string -> Option<string>, parseJson: string -> Option<ParsedReply>)

  const SummaryLength: nat := 100
  const MaxKeywords: nat := 5
  const Ellipsis: string := "..."
  const MockEntities: seq<string> := ["Person", "Landscape"]
  const MockCoreMessage: string := "The essence of the article described visually."
  const ProviderKeywords: seq<string> := ["AI", "Qwen", "Generated"]

  // ---------------------------------------------------------------------------
  // Heuristic mode

  /** A word qualifies as a keyword when it is longer than five characters. */
  predicate IsLong(w: string) {
    |w| > 5
  }

  /** `words.filter((w) => w.length > 5)`. */
  function LongWords(words: seq<string>): (r: seq<string>)
    ensures |r| <= |words|
    ensures forall k :: 0 <= k < |r| ==> IsLong(r[k]) && r[k] in words
    ensures r == [] <==> forall k :: 0 <= k < |words| ==> !IsLong(words[k])
  {
    if words == [] then []
    else if IsLong(words[0]) then [words[0]] + LongWords(words[1..])
    else LongWords(words[1..])
  }

  /** The keywords of the heuristic: `text.split(" ").filter(...).slice(0, 5)`. */
  function MockKeywords(text: string): seq<string> {
    Take(LongWords(Split(text, ' ')), MaxKeywords)
  }

  /** Sentiment is positive exactly when "good" or "success" occurs in the text. */
  function MockSentiment(text: string): (s: Sentiment)
    ensures s == Positive <==> Includes(text, "good") || Includes(text, "success")
  {
    if Includes(text, "good") || Includes(text, "success") then Positive else Neutral
  }

  /** `mockAnalysis(text)`. */
  function MockAnalysis(text: string): (a: Analysis)
    ensures |a.keywords| <= MaxKeywords
    ensures forall k :: 0 <= k < |a.keywords| ==> |a.keywords[k]| >= 6 && ' ' !in a.keywords[k]
    ensures a.sentiment == Positive <==> Includes(text, "good") || Includes(text, "success")
    ensures |a.summary| == (if |text| < SummaryLength then |text| else SummaryLength) + |Ellipsis|
    ensures EndsWith(a.summary, Ellipsis) && StartsWith(text, a.summary[..|a.summary| - |Ellipsis|])
    ensures a.illustrations.None? && a.rawOutput.None?
    ensures a.entities == Some(MockEntities) && a.coreMessage == MockCoreMessage
  {
    var kw := MockKeywords(text);
    assert forall k :: 0 <= k < |kw| ==> kw[k] in Split(text, ' ');
    Analysis(
      summary := Take(text, SummaryLength) + Ellipsis,
      keywords := kw,
      sentiment := MockSentiment(text),
      coreMessage := MockCoreMessage,
      entities := Some(MockEntities),
      rawOutput := None,
      illustrations := None)
  }

  /** The filter keeps the words in their order: the first long word comes
      first, followed by the long words after it. */
  lemma {:induction false} LongWordsOrder(words: seq<string>, i: nat)
    requires i < |words| && IsLong(words[i])
    requires forall k :: 0 <= k < i ==> !IsLong(words[k])
    ensures LongWords(words) == [words[i]] + LongWords(words[i + 1..])
  {
    if i > 0 {
      LongWordsOrder(words[1..], i - 1);
      assert words[1..][i..] == words[i + 1..];
    }
  }

  /** The first keyword is the first space-separated word longer than five
      characters. */
  lemma FirstKeyword(text: string, i: nat)
    requires i < |Split(text, ' ')| && IsLong(Split(text, ' ')[i])
    requires forall k :: 0 <= k < i ==> !IsLong(Split(text, ' ')[k])
    ensures MockAnalysis(text).keywords != [] && MockAnalysis(text).keywords[0] == Split(text, ' ')[i]
  {
    LongWordsOrder(Split(text, ' '), i);
  }

  /** No keywords exactly when no space-separated word is longer than five
      characters. */
  lemma NoKeywords(text: string)
    ensures MockAnalysis(text).keywords == [] <==>
      forall k :: 0 <= k < |Split(text, ' ')| ==> |Split(text, ' ')[k]| <= 5
  {}

  /** When there are at least five long words the heuristic returns exactly
      five keywords; otherwise it returns all of them. */
  lemma KeywordCount(text: string)
    ensures |MockAnalysis(text).keywords| ==
      if |LongWords(Split(text, ' '))| < MaxKeywords then |LongWords(Split(text, ' '))| else MaxKeywords
  {}

  /** Every keyword occurs in the text. */
  lemma KeywordsOccurInText(text: string)
    ensures forall k :: 0 <= k < |MockAnalysis(text).keywords| ==> Includes(text, MockAnalysis(text).keywords[k])
  {
    var words := Split(text, ' ');
    SplitPiecesOccur(text, ' ');
    var kw := MockAnalysis(text).keywords;
    forall k | 0 <= k < |kw| ensures Includes(text, kw[k]) {
      assert kw[k] in words;
      var j :| 0 <= j < |words| && words[j] == kw[k];
      assert Includes(text, words[j]);
    }
  }

  /** Every piece of `s.split(sep)` occurs in `s`; the first one at index 0. */
  lemma {:induction false} SplitPiecesOccur(s: string, sep: char)
    ensures StartsWith(s, Split(s, sep)[0])
    ensures forall k :: 0 <= k < |Split(s, sep)| ==> Includes(s, Split(s, sep)[k])
  {
    var parts := Split(s, sep);
    if s == [] {
      assert OccursAt(s, parts[0], 0);
    } else {
      SplitPiecesOccur(s[1..], sep);
      var rest := Split(s[1..], sep);
      forall k | 0 <= k < |rest| ensures Includes(s, rest[k]) {
        var i :| 0 <= i <= |s[1..]| - |rest[k]| && OccursAt(s[1..], rest[k], i);
        assert s[i + 1..i + 1 + |rest[k]|] == s[1..][i..i + |rest[k]|];
        assert OccursAt(s, rest[k], i + 1);
      }
      if s[0] == sep {
        assert parts == [""] + rest;
        assert OccursAt(s, parts[0], 0);
        forall k | 1 <= k < |parts| ensures Includes(s, parts[k]) {
          assert parts[k] == rest[k - 1];
        }
      } else {
        assert parts == [[s[0]] + rest[0]] + rest[1..];
        assert s[..|parts[0]|] == [s[0]] + s[1..][..|rest[0]|];
        assert OccursAt(s, parts[0], 0);
        forall k | 1 <= k < |parts| ensures Includes(s, parts[k]) {
          assert parts[k] == rest[k];
        }
      }
    }
  }

  // ---------------------------------------------------------------------------
  // Provider mode

  /** `content.match(/\{[\s\S]*\}/)`: from the first '{' to the last '}' after
      it, or nothing when there is no such pair. */
  function JsonCandidate(content: string): (r: Option<string>)
    ensures r.None? <==> !exists a, b :: 0 <= a < b < |content| && content[a] == '{' && content[b] == '}'
    ensures r.Some? ==> exists i, j ::
      && 0 <= i < j < |content| && r.value == content[i..j + 1]
      && content[i] == '{' && content[j] == '}'
      && (forall k :: 0 <= k < i ==> content[k] != '{')
      && (forall k :: j < k < |content| ==> content[k] != '}')
  {
    match IndexOf(content, '{')
    case None => None
    case Some(i) =>
      match LastIndexOf(content, '}')
      case None => None
      case Some(j) =>
        if i < j then Some(content[i..j + 1]) else None
  }

  /** The parsed reply object, or nothing when there is no candidate or
      `JSON.parse` throws: the `parsedContent` of the source, where `{}` is
      `None`. */
  function ParseReply(content: string, llm: LlmProvider): Option<ParsedReply> {
    match JsonCandidate(content)
    case Some(candidate) => llm.parseJson(candidate)
    case None => None
  }

  /** The result `callAlibabaLLM` builds from the reply text `content`. */
  function ProviderAnalysis(content: string, llm: LlmProvider): (a: Analysis)
    ensures a.sentiment == Positive && a.keywords == ProviderKeywords
    ensures a.coreMessage == content && a.rawOutput == Some(content) && a.entities.None?
    ensures ParseReply(content, llm).None? ==> a.summary == Take(content, SummaryLength) && a.illustrations.None?
    ensures ParseReply(content, llm).Some? ==>
      a.summary == OrDefault(ParseReply(content, llm).value.articleTone, Take(content, SummaryLength)) &&
      a.illustrations == ParseReply(content, llm).value.illustrations
  {
    var parsed := ParseReply(content, llm);
    Analysis(
      summary := OrDefault(if parsed.Some? then parsed.value.articleTone else None, Take(content, SummaryLength)),
      keywords := ProviderKeywords,
      sentiment := Positive,
      coreMessage := content,
      entities := None,
      rawOutput := Some(content),
      illustrations := if parsed.Some? then parsed.value.illustrations else None)
  }

  /** `callAlibabaLLM(text)`: any error thrown before the reply text is read
      yields the heuristic analysis. */
  function CallLlm(text: string, llm: LlmProvider): (a: Analysis)
    ensures llm.complete(text).None? ==> a == MockAnalysis(text)
    ensures llm.complete(text).Some? ==> a == ProviderAnalysis(llm.complete(text).value, llm)
    ensures llm.complete(text).Some? ==> a.sentiment == Positive && a.keywords == ProviderKeywords
  {
    match llm.complete(text)
    case None => MockAnalysis(text)
    case Some(content) => ProviderAnalysis(content, llm)
  }

  /** `analyzeSemantics(text)`: the provider is used only when the API key is
      configured, otherwise the heuristic. */
  function AnalyzeSemantics(text: string, hasApiKey: bool, llm: LlmProvider): (a: Analysis)
    ensures !hasApiKey ==> a == MockAnalysis(text)
    ensures hasApiKey ==> a == CallLlm(text, llm)
    ensures a.illustrations.Some? ==> hasApiKey && llm.complete(text).Some?
  {
    if hasApiKey then CallLlm(text, llm) else MockAnalysis(text)
  }

  /** A reply with no '{' before a '}' keeps its first 100 characters as the
      summary and carries no illustrations, whatever the parser would say. */
  lemma UnparsableReply(content: string, llm: LlmProvider)
    requires forall a, b :: 0 <= a < b < |content| && content[a] == '{' ==> content[b] != '}'
    ensures ProviderAnalysis(content, llm).summary == Take(content, SummaryLength)
    ensures ProviderAnalysis(content, llm).illustrations.None?
  {}
}
