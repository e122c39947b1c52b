/** The gateway to the hosted language model (gemini.ts): the deterministic
    parts around the two SDK calls. The SDK itself is opaque, so each call is
    an input describing how it went, and `JSON.parse` is a function parameter. */
module Gemini {
  import opened Types

  /** How one gateway call went. The SDK client is constructed before the
      `try` block (gemini.ts:9 and 76), so a throwing constructor rejects the
      whole promise; a failure inside the `try` is caught and replaced by a
      fallback; otherwise the SDK answered. */
  datatype Call<T> = ClientThrew | RequestFailed | Answered(answer: T)

  /** What `analyzeContent` resolves to, as the scanner sees it after the
      unchecked cast: a value with every verdict field; the number zero (JSON
      `0` or `-0`); another falsy value (JSON `null`, `false` or `""`); or any
      other value that lacks a list the verdict panel maps over, such as the
      `{}` an empty reply becomes. */
  datatype Analysis = Verdict(result: AnalysisResult) | Zero | Falsy | Shapeless

  /** What `JSON.parse(text)` makes of a reply: it throws, or yields a value. */
  datatype Parsed = ParseError | Parsed(value: Analysis)

  /** The analysis kinds of the scanner tabs. */
  datatype InputKind = Url | Email | Message

  /** Substitute verdict returned whenever an analysis request fails. */
  const FallbackResult := AnalysisResult(
    true, 0, "Low", "Unknown",
    ["Analysis failed due to a technical error. Treat with caution."],
    ["Scan timed out or encountered an API error"],
    ["Manually verify the sender.", "Do not click links if unsure."])

  /** Apology returned whenever a chat request fails. */
  const ChatFailureText :=
    "I'm having trouble connecting to my knowledge base right now. Please try again or refer to our Knowledge Hub."

  /** `response.text || "{}"`: a missing or empty reply is read as an empty
      JSON object; any other reply text is parsed as it is. */
  function AnalysisText(text: Option<string>): (r: string)
    ensures r != ""
    ensures text.Some? && text.value != "" ==> r == text.value
    ensures text.None? || text.value == "" ==> r == "{}"
  {
    if text.Some? && text.value != "" then text.value else "{}"
  }

  /** `analyzeContent`: `None` when the promise rejects. Once the client
      exists the caller always gets something: the fallback verdict on any
      failure, otherwise exactly what the model's text parsed to, unchecked. */
  function AnalyzeContent(call: Call<Option<string>>, parse: string -> Parsed): (r: Option<Analysis>)
    ensures r.None? <==> call.ClientThrew?
    ensures call.RequestFailed? ==> r == Some(Verdict(FallbackResult))
    ensures call.Answered? && parse(AnalysisText(call.answer)).ParseError? ==> r == Some(Verdict(FallbackResult))
    ensures call.Answered? && parse(AnalysisText(call.answer)).Parsed? ==>
              r == Some(parse(AnalysisText(call.answer)).value)
    ensures r.Some? && r.value != Verdict(FallbackResult) ==>
              call.Answered? && parse(AnalysisText(call.answer)) == Parsed(r.value)
  {
    match call
    case ClientThrew => None
    case RequestFailed => Some(Verdict(FallbackResult))
    case Answered(text) =>
      match parse(AnalysisText(text))
      case ParseError => Some(Verdict(FallbackResult))
      case Parsed(value) => Some(value)
  }

  /** The fallback verdict claims safety with score 0 and level Low; only the
      attack type "Unknown" and its fixed texts tell it apart from a genuine
      safe verdict. */
  lemma FallbackShape()
    ensures FallbackResult.isSafe && FallbackResult.riskScore == 0
    ensures ParseRiskLevel(FallbackResult.riskLevel) == Some(Low)
    ensures FallbackResult.attackType == "Unknown"
    ensures |FallbackResult.reasoning| == 1 && |FallbackResult.suspiciousPatterns| == 1
    ensures |FallbackResult.recommendations| == 2
  {
  }

  /** No validation: whatever verdict the reply parses to, however far its
      score lies outside 0..100 or its level outside the four levels, reaches
      the caller unchanged, for every parser. */
  lemma AnalyzeDoesNotValidate(text: string, parse: string -> Parsed, verdict: AnalysisResult)
    requires text != ""
    requires parse(text) == Parsed(Verdict(verdict))
    ensures AnalyzeContent(Answered(Some(text)), parse) == Some(Verdict(verdict))
  {
  }

  /** A missing or empty reply is parsed as `{}`. `JSON.parse("{}")` is an
      object with no fields, and the gateway returns it as it is: the caller
      gets neither a verdict nor the fallback. */
  lemma EmptyReplyParsedAsEmptyObject(parse: string -> Parsed)
    requires parse("{}") == Parsed(Shapeless)
    ensures AnalyzeContent(Answered(None), parse) == Some(Shapeless)
    ensures AnalyzeContent(Answered(Some("")), parse) == Some(Shapeless)
  {
  }

  /** A grounding citation's `web` part. */
  datatype WebSource = WebSource(title: Option<string>, uri: string)

  /** One grounding chunk; only chunks carrying `web` become links. */
  datatype GroundingChunk = GroundingChunk(web: Option<WebSource>)

  /** The parts of a chat answer the gateway reads: `response.text` and the
      first candidate's `groundingMetadata.groundingChunks`, each possibly absent. */
  datatype ChatResponse = ChatResponse(text: Option<string>, groundingChunks: Option<seq<GroundingChunk>>)

  /** What `chatWithAssistant` resolves to. */
  datatype ChatReply = ChatReply(text: string, links: seq<Link>)

  /** One replayed turn in the SDK's format: `{ role, parts: [{ text }] }`. */
  datatype Content = Content(role: ChatRole, text: string)

  /** The history sent to the SDK: one turn per message in the same order, the
      user's turns as 'user' and all others as 'model', content only. */
  function HistoryContents(history: seq<ChatMessage>): (r: seq<Content>)
    ensures |r| == |history|
    ensures forall i :: 0 <= i < |history| ==>
              r[i].text == history[i].content && (r[i].role == UserTurn <==> history[i].role == UserTurn)
  {
    if |history| == 0 then []
    else
      var m := history[0];
      [Content(if m.role == UserTurn then UserTurn else ModelTurn, m.content)] + HistoryContents(history[1..])
  }

  /** Timestamps and links never reach the model: two transcripts with the
      same roles and contents replay identically. */
  lemma HistoryForwardsOnlyContent(a: seq<ChatMessage>, b: seq<ChatMessage>)
    requires |a| == |b|
    requires forall i :: 0 <= i < |a| ==> a[i].role == b[i].role && a[i].content == b[i].content
    ensures HistoryContents(a) == HistoryContents(b)
  {
    var x, y := HistoryContents(a), HistoryContents(b);
    forall i | 0 <= i < |x|
      ensures x[i] == y[i]
    {
      assert x[i].role == UserTurn <==> y[i].role == UserTurn;
    }
  }

  /** `chunk.web.title || 'Source'`, with the uri copied as it is. */
  function ToLink(web: WebSource): (l: Link)
    ensures l.uri == web.uri
    ensures l.title != ""
    ensures web.title.Some? && web.title.value != "" ==> l.title == web.title.value
    ensures web.title.None? || web.title.value == "" ==> l.title == "Source"
  {
    Link(if web.title.Some? && web.title.value != "" then web.title.value else "Source", web.uri)
  }

  /** Number of chunks that carry a web source. */
  function WebCount(chunks: seq<GroundingChunk>): nat {
    if |chunks| == 0 then 0 else (if chunks[0].web.Some? then 1 else 0) + WebCount(chunks[1..])
  }

  /** `filter(chunk => chunk.web).map(...)`: one link per web chunk, nothing
      dropped or invented, every title non-empty. */
  function ExtractLinks(chunks: seq<GroundingChunk>): (r: seq<Link>)
    ensures |r| == WebCount(chunks)
    ensures forall l :: l in r ==> l.title != ""
    ensures (set l | l in r) == (set c | c in chunks && c.web.Some? :: ToLink(c.web.value))
  {
    if |chunks| == 0 then []
    else
      var rest := ExtractLinks(chunks[1..]);
      var r := if chunks[0].web.Some? then [ToLink(chunks[0].web.value)] + rest else rest;
      var all := set c | c in chunks && c.web.Some? :: ToLink(c.web.value);
      var tail := set c | c in chunks[1..] && c.web.Some? :: ToLink(c.web.value);
      var head: set<Link> := if chunks[0].web.Some? then {ToLink(chunks[0].web.value)} else {};
      forall l
        ensures l in all <==> l in head + tail
      {
        if l in all {
          var c :| c in chunks && c.web.Some? && l == ToLink(c.web.value);
          if c != chunks[0] {
            assert c in chunks[1..];
          }
        }
        if l in tail {
          var c :| c in chunks[1..] && c.web.Some? && l == ToLink(c.web.value);
          assert c in chunks;
        }
      }
      assert all == head + tail;
      r
  }

  /** Extraction distributes over concatenation, so links keep the order of
      their chunks. */
  lemma {:induction false} ExtractLinksAppend(a: seq<GroundingChunk>, b: seq<GroundingChunk>)
    ensures ExtractLinks(a + b) == ExtractLinks(a) + ExtractLinks(b)
  {
    if |a| == 0 {
      assert a + b == b;
    } else {
      assert (a + b)[1..] == a[1..] + b;
      ExtractLinksAppend(a[1..], b);
    }
  }

  /** No truncation: when every chunk is a web chunk, every one yields a link,
      at the same position. */
  lemma {:induction false} ExtractLinksKeepsAll(chunks: seq<GroundingChunk>)
    requires forall i :: 0 <= i < |chunks| ==> chunks[i].web.Some?
    ensures |ExtractLinks(chunks)| == |chunks|
    ensures forall i :: 0 <= i < |chunks| ==> ExtractLinks(chunks)[i] == ToLink(chunks[i].web.value)
  {
    if |chunks| > 0 {
      var tail := chunks[1..];
      ExtractLinksKeepsAll(tail);
      var r := ExtractLinks(chunks);
      assert r == [ToLink(chunks[0].web.value)] + ExtractLinks(tail);
      forall i | 0 <= i < |chunks|
        ensures r[i] == ToLink(chunks[i].web.value)
      {
        if i > 0 {
          assert r[i] == ExtractLinks(tail)[i - 1];
          assert tail[i - 1] == chunks[i];
        }
      }
    }
  }

  /** `chatWithAssistant`: `None` when the promise rejects; the fixed apology
      with no links on a failed request; otherwise the answer text (empty when
      missing) with every extracted link. */
  function ChatWithAssistant(call: Call<ChatResponse>): (r: Option<ChatReply>)
    ensures r.None? <==> call.ClientThrew?
    ensures call.RequestFailed? ==> r == Some(ChatReply(ChatFailureText, []))
    ensures call.Answered? ==>
              && r.Some?
              && r.value.text == call.answer.text.GetOr("")
              && r.value.links == ExtractLinks(call.answer.groundingChunks.GetOr([]))
  {
    match call
    case ClientThrew => None
    case RequestFailed => Some(ChatReply(ChatFailureText, []))
    case Answered(response) =>
      Some(ChatReply(response.text.GetOr(""), ExtractLinks(response.groundingChunks.GetOr([]))))
  }

  /** The request half of `chatWithAssistant`: the replayed history and the
      new message, as handed to the SDK. */
  datatype ChatRequest = ChatRequest(history: seq<Content>, message: string)

  function BuildChatRequest(message: string, history: seq<ChatMessage>): (r: ChatRequest)
    ensures r.message == message && |r.history| == |history|
    ensures forall i :: 0 <= i < |history| ==>
              r.history[i].text == history[i].content
              && (r.history[i].role == UserTurn <==> history[i].role == UserTurn)
  {
    ChatRequest(HistoryContents(history), message)
  }
}
