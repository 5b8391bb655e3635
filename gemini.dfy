/**
 * The model-side half of the relay (server/services/gemini.js): how the
 * conversation history is handed to the chat SDK, which prompt is sent, and
 * which tokens are passed to the caller's callback while the reply streams.
 * The SDK itself is not modelled: what its stream yields is an input.
 */
module Gemini {
  import opened Wrappers
  import opened JsStrings

  datatype Role = User | Model

  /** One conversation turn `{role, content}`, as the relay stores it. */
  datatype Turn = Turn(role: Role, content: string)

  function RoleName(r: Role): string {
    match r
    case User => "user"
    case Model => "model"
  }

  /** The SDK's history entry `{role, parts: [{text}]}`. */
  datatype Part = Part(text: string)
  datatype ChatEntry = ChatEntry(role: string, parts: seq<Part>)

  /** What the SDK is called with: `startChat({history})`, then `sendMessageStream(prompt)`. */
  datatype ChatRequest = ChatRequest(history: seq<ChatEntry>, prompt: string)

  function ToChatEntry(t: Turn): ChatEntry {
    ChatEntry(RoleName(t.role), [Part(t.content)])
  }

  /** `history.map(msg => ({role: msg.role, parts: [{text: msg.content}]}))`. */
  function ToChatHistory(h: seq<Turn>): (r: seq<ChatEntry>)
    ensures |r| == |h|
    ensures forall i :: 0 <= i < |h| ==> r[i] == ToChatEntry(h[i])
  {
    seq(|h|, i requires 0 <= i < |h| => ToChatEntry(h[i]))
  }

  /** Reads a history entry back; `None` for an entry the mapping never produces. */
  function FromChatEntry(e: ChatEntry): Option<Turn> {
    if |e.parts| != 1 then None
    else if e.role == "user" then Some(Turn(User, e.parts[0].text))
    else if e.role == "model" then Some(Turn(Model, e.parts[0].text))
    else None
  }

  function FromChatHistory(es: seq<ChatEntry>): Option<seq<Turn>> {
    if es == [] then Some([])
    else match (FromChatHistory(es[..|es| - 1]), FromChatEntry(es[|es| - 1]))
      case (Some(h), Some(t)) => Some(h + [t])
      case _ => None
  }

  /** The mapping loses nothing: every turn, its role and its content can be read back, in order. */
  lemma {:induction false} ChatHistoryRoundTrip(h: seq<Turn>)
    ensures FromChatHistory(ToChatHistory(h)) == Some(h)
    decreases |h|
  {
    if h != [] {
      var init, t := h[..|h| - 1], h[|h| - 1];
      var r := ToChatHistory(h);
      assert r[..|r| - 1] == ToChatHistory(init) && r[|r| - 1] == ToChatEntry(t);
      EntryRoundTrip(t);
      ChatHistoryRoundTrip(init);
      assert FromChatHistory(r) == Some(init + [t]);
      assert init + [t] == h;
    }
  }

  lemma EntryRoundTrip(t: Turn)
    ensures FromChatEntry(ToChatEntry(t)) == Some(t)
  {
  }

  /** The history handed to the SDK on a later call extends the one handed on an earlier call. */
  lemma {:induction false} ChatHistoryAppend(a: seq<Turn>, b: seq<Turn>)
    ensures ToChatHistory(a + b) == ToChatHistory(a) + ToChatHistory(b)
  {
  }

  /** `history[history.length - 1]?.content || ''`. */
  function LastUserMessage(h: seq<Turn>): (r: string)
    ensures h == [] ==> r == ""
  {
    if h == [] then "" else h[|h| - 1].content
  }

  /** Once the relay has pushed the user's turn, the prompt is built around exactly that text. */
  lemma LastUserMessageOfNewTurn(h: seq<Turn>, message: string)
    ensures LastUserMessage(h + [Turn(User, message)]) == message
  {
  }

  /** The prompt template around `${lastUserMessage}` (gemini.js:24-36). */
  const PromptHead: string :=
    "\n      You are a thoughtful, empathetic assistant having a conversation with a human. \n"
    + "      You listen carefully to what they say and respond in a natural, conversational tone \U{2014} like you're chatting with a friend or a helpful guide.\n"
    + "\n"
    + "      The user just said:\n"
    + "      \""
  const PromptTail: string :=
    "\"\n"
    + "\n"
    + "      Please respond in a warm, engaging, and friendly way \U{2014} showing that you understood what they said. \n"
    + "      Feel free to ask a follow-up question if it makes sense, or give advice, encouragement, or insight based on their message.\n"
    + "      Make sure it feels like a two-way conversation, not just data delivery.\n"
    + "\n"
    + "      Avoid overly robotic or generic responses. Just be real, helpful, and human.\n"
    + "    "

  /** The styled prompt sent to the chat, built around the last message. */
  function StyledPrompt(last: string): (r: string)
    ensures |r| == |PromptHead| + |last| + |PromptTail|
  {
    PromptHead + last + PromptTail
  }

  /** The prompt holds the last message verbatim, between the template's quotes. */
  lemma StyledPromptQuotes(last: string)
    ensures var r := StyledPrompt(last);
      && |r| == |PromptHead| + |last| + |PromptTail|
      && r[|PromptHead|..|PromptHead| + |last|] == last
      && r[|PromptHead| - 1] == '"' && r[|PromptHead| + |last|] == '"'
  {
  }

  /** Different messages give different prompts: the prompt determines the message it quotes. */
  lemma StyledPromptInjective(a: string, b: string)
    requires StyledPrompt(a) == StyledPrompt(b)
    ensures a == b
  {
    var pa, pb := StyledPrompt(a), StyledPrompt(b);
    StyledPromptQuotes(a);
    StyledPromptQuotes(b);
    assert |a| == |b|;
    assert a == pa[|PromptHead|..|PromptHead| + |a|] == pb[|PromptHead|..|PromptHead| + |b|] == b;
  }

  /** The request `streamGeminiResponse` builds from the history it is given. */
  function RequestFor(h: seq<Turn>): (r: ChatRequest)
    ensures |r.history| == |h|
    ensures FromChatHistory(r.history) == Some(h)
  {
    ChatHistoryRoundTrip(h);
    ChatRequest(ToChatHistory(h), StyledPrompt(LastUserMessage(h)))
  }

  /**
   * The request carries the whole history, every turn recoverable in order,
   * and a prompt quoting the content of the last turn verbatim.
   */
  lemma RequestCarriesHistory(h: seq<Turn>)
    ensures FromChatHistory(RequestFor(h).history) == Some(h)
    ensures var p := RequestFor(h).prompt; var m := LastUserMessage(h);
      |p| == |PromptHead| + |m| + |PromptTail| && p[|PromptHead|..|PromptHead| + |m|] == m
    ensures h != [] ==> RequestFor(h).prompt == StyledPrompt(h[|h| - 1].content)
  {
    ChatHistoryRoundTrip(h);
    StyledPromptQuotes(LastUserMessage(h));
  }

  /** The end-of-reply sentinel and the text emitted in place of it on failure. */
  const Sentinel: string := "[__END__]"
  const StreamError: string := "An error occurred while generating the response."

  /**
   * What the SDK produced for one request: the texts of the chunks its stream
   * yielded, in order, and whether it then threw (`failed`) instead of ending
   * normally. A failure before the stream opens (in `startChat` or
   * `sendMessageStream`) is a run with no chunks that failed.
   */
  datatype StreamRun = StreamRun(chunks: seq<string>, failed: bool)

  /** The chunks `if (chunkText)` lets through: the non-empty ones, in stream order. */
  function Forwarded(chunks: seq<string>): (r: seq<string>)
    ensures |r| <= |chunks|
    ensures forall i :: 0 <= i < |r| ==> r[i] != "" && r[i] in chunks
  {
    if chunks == [] then []
    else Forwarded(chunks[..|chunks| - 1]) + (if chunks[|chunks| - 1] != "" then [chunks[|chunks| - 1]] else [])
  }

  /** Forwarding is chunk by chunk: the filter of a concatenation is the concatenation of the filters. */
  lemma {:induction false} ForwardedAppend(a: seq<string>, b: seq<string>)
    ensures Forwarded(a + b) == Forwarded(a) + Forwarded(b)
    decreases |b|
  {
    if b == [] {
      assert a + b == a;
    } else {
      var b' := b[..|b| - 1];
      assert (a + b)[..|a + b| - 1] == a + b';
      ForwardedAppend(a, b');
    }
  }

  /** Every non-empty chunk is forwarded, and dropping empty chunks loses no text. */
  lemma {:induction false} ForwardedKeepsText(chunks: seq<string>)
    ensures Concat(Forwarded(chunks)) == Concat(chunks)
    ensures (forall i :: 0 <= i < |chunks| ==> chunks[i] != "") ==> Forwarded(chunks) == chunks
    decreases |chunks|
  {
    if chunks != [] {
      var init := chunks[..|chunks| - 1];
      var last := chunks[|chunks| - 1];
      assert init + [last] == chunks;
      ForwardedKeepsText(init);
      assert Concat(chunks) == Concat(init) + last;
      if last != "" {
        assert Forwarded(chunks) == Forwarded(init) + [last];
        ConcatAppend(Forwarded(init), [last]);
        assert Concat([last]) == Concat([]) + last;
      } else {
        assert Forwarded(chunks) == Forwarded(init);
      }
    }
  }

  /** The tokens passed to the callback, in order: forwarded chunks, then the sentinel or the error text. */
  function Emitted(run: StreamRun): (r: seq<string>)
    ensures |r| >= 1 && r[..|r| - 1] == Forwarded(run.chunks)
    ensures r[|r| - 1] == (if run.failed then StreamError else Sentinel)
  {
    Forwarded(run.chunks) + [if run.failed then StreamError else Sentinel]
  }

  /** The number of occurrences of `x` in `s`. */
  function Count(s: seq<string>, x: string): nat {
    if s == [] then 0 else Count(s[..|s| - 1], x) + (if s[|s| - 1] == x then 1 else 0)
  }

  lemma {:induction false} CountForwarded(chunks: seq<string>)
    ensures Count(Forwarded(chunks), Sentinel) == Count(chunks, Sentinel)
    decreases |chunks|
  {
    if chunks != [] {
      var init := chunks[..|chunks| - 1];
      var last := chunks[|chunks| - 1];
      CountForwarded(init);
      if last != "" {
        var f := Forwarded(init) + [last];
        assert f == Forwarded(chunks);
        assert f[..|f| - 1] == Forwarded(init);
        assert Count(f, Sentinel) == Count(Forwarded(init), Sentinel) + (if last == Sentinel then 1 else 0);
      } else {
        assert Forwarded(chunks) == Forwarded(init);
      }
      assert Count(chunks, Sentinel) == Count(init, Sentinel) + (if last == Sentinel then 1 else 0);
    }
  }

  /**
   * A successful run ends with one sentinel more than the chunks themselves
   * carry; a failed run emits exactly as many sentinels as its chunks carry.
   */
  lemma SentinelCount(run: StreamRun)
    ensures Count(Emitted(run), Sentinel) == Count(run.chunks, Sentinel) + (if run.failed then 0 else 1)
  {
    var e := Emitted(run);
    assert e[..|e| - 1] == Forwarded(run.chunks);
    CountForwarded(run.chunks);
  }

  /**
   * On normal completion, when no chunk is itself the sentinel text, the
   * sentinel is emitted exactly once, as the last token.
   */
  lemma SentinelOnceLast(run: StreamRun)
    requires !run.failed
    requires Sentinel !in run.chunks
    ensures var e := Emitted(run); e[|e| - 1] == Sentinel && forall i :: 0 <= i < |e| - 1 ==> e[i] != Sentinel
  {
  }

  lemma {:induction false} CountPositive(s: seq<string>, x: string)
    ensures x in s <==> Count(s, x) > 0
    decreases |s|
  {
    if s != [] {
      CountPositive(s[..|s| - 1], x);
      assert s == s[..|s| - 1] + [s[|s| - 1]];
    }
  }

  /**
   * On failure the chunks already forwarded stay forwarded, the error text
   * comes last, and no sentinel is emitted unless a chunk carried its text.
   */
  lemma FailureEmitsError(run: StreamRun)
    requires run.failed
    ensures Emitted(run) == Forwarded(run.chunks) + [StreamError]
    ensures Sentinel in Emitted(run) <==> Sentinel in run.chunks
  {
    SentinelCount(run);
    CountPositive(Emitted(run), Sentinel);
    CountPositive(run.chunks, Sentinel);
  }

  /**
   * `streamGeminiResponse(history, onTokenCallback)`: the request it hands
   * the SDK for `history` and, once the SDK has produced `run`, the tokens
   * passed to the callback, in order.
   */
  method StreamResponse(history: seq<Turn>, run: StreamRun) returns (request: ChatRequest, emitted: seq<string>)
    ensures request == RequestFor(history)
    ensures emitted == Emitted(run)
  {
    request := ChatRequest(ToChatHistory(history), StyledPrompt(LastUserMessage(history)));
    emitted := [];
    var i := 0;
    while i < |run.chunks|
      invariant 0 <= i <= |run.chunks|
      invariant emitted == Forwarded(run.chunks[..i])
    {
      var chunkText := run.chunks[i];
      assert run.chunks[..i + 1][..i] == run.chunks[..i];
      if chunkText != "" {
        emitted := emitted + [chunkText];
      }
      i := i + 1;
    }
    assert run.chunks[..i] == run.chunks;
    if run.failed {
      emitted := emitted + [StreamError];
    } else {
      emitted := emitted + [Sentinel];
    }
  }
}
