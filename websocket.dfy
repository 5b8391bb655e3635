/**
 * The per-connection relay of server/websocket.js: a table from connection to
 * conversation history, and the `connection`, `message` and `close` handlers.
 *
 * The pure step functions over `Relay` are the specification; `RelayServer`
 * is the handler code, whose methods are proved to take exactly those steps.
 * Each handler runs to completion before the next event on any connection.
 */
module Relay {
  import opened Wrappers
  import opened SeqFacts
  import opened JsStrings
  import opened Gemini

  /** The identity of one websocket connection (the `ws` object used as key). */
  type ConnId = nat

  /**
   * An inbound frame after `JSON.parse(data)` and `const {message, type} = parsed`.
   * `Malformed` is a frame on which either of those throws (text that is not
   * JSON, or the JSON value `null`); otherwise the two fields are read.
   */
  datatype Inbound = Malformed | Message(kind: Option<string>, message: string)

  /** An outbound frame: `{partial: token}` or `{error: text}`. */
  datatype Frame = Partial(token: string) | ErrorFrame(error: string)

  const EndKind: string := "end"
  const InternalError: string := "Internal error occurred."

  /** The server's state: the `sessions` map and, per connection, every frame sent on it. */
  datatype Relay = Relay(sessions: map<ConnId, seq<Turn>>, sent: map<ConnId, seq<Frame>>)

  const Empty: Relay := Relay(map[], map[])

  /** `sessions.get(ws) || []`. */
  function HistoryOf(s: Relay, c: ConnId): seq<Turn> {
    if c in s.sessions then s.sessions[c] else []
  }

  function SentTo(s: Relay, c: ConnId): seq<Frame> {
    if c in s.sent then s.sent[c] else []
  }

  /** What `fullResponse` holds once every token has gone through the callback. */
  function Reply(tokens: seq<string>): string {
    if tokens == [] then ""
    else
      var last := tokens[|tokens| - 1];
      Reply(tokens[..|tokens| - 1]) + (if last != Sentinel then last else "")
  }

  /** Without sentinel-valued tokens, the reply is every token joined in order. */
  lemma {:induction false} ReplyWithoutSentinel(tokens: seq<string>)
    requires Sentinel !in tokens
    ensures Reply(tokens) == Concat(tokens)
    decreases |tokens|
  {
    if tokens != [] {
      ReplyWithoutSentinel(tokens[..|tokens| - 1]);
    }
  }

  /** One `{partial: token}` frame per token, in order. */
  function PartialFrames(tokens: seq<string>): seq<Frame> {
    if tokens == [] then [] else PartialFrames(tokens[..|tokens| - 1]) + [Partial(tokens[|tokens| - 1])]
  }

  /** Frame and token correspond one to one, in emission order. */
  lemma {:induction false} PartialFramesAt(tokens: seq<string>)
    ensures |PartialFrames(tokens)| == |tokens|
    ensures forall i :: 0 <= i < |tokens| ==> PartialFrames(tokens)[i] == Partial(tokens[i])
    decreases |tokens|
  {
    if tokens != [] {
      PartialFramesAt(tokens[..|tokens| - 1]);
    }
  }

  /** The history the streamer receives for `message`: the stored one, then the new user turn. */
  function Context(s: Relay, c: ConnId, message: string): seq<Turn> {
    HistoryOf(s, c) + [Turn(User, message)]
  }

  /** The `connection` handler: a new connection starts with an empty history. */
  function Connect(s: Relay, c: ConnId): (r: Relay)
    ensures c in r.sessions && r.sessions[c] == []
    ensures r.sent == s.sent
    ensures forall d :: d != c ==> HistoryOf(r, d) == HistoryOf(s, d) && (d in r.sessions <==> d in s.sessions)
  {
    s.(sessions := s.sessions[c := []])
  }

  /** The `close` handler: the connection's session is removed. */
  function Close(s: Relay, c: ConnId): (r: Relay)
    ensures c !in r.sessions && r.sent == s.sent
    ensures forall d :: d != c ==> HistoryOf(r, d) == HistoryOf(s, d) && (d in r.sessions <==> d in s.sessions)
  {
    s.(sessions := s.sessions - {c})
  }

  /** The `message` handler for frame `data` on `c`; `run` is what the SDK yields for this turn. */
  function Deliver(s: Relay, c: ConnId, data: Inbound, run: StreamRun): (r: Relay)
    // only the receiving connection's entry is read or written
    ensures forall d :: d != c ==>
      && HistoryOf(r, d) == HistoryOf(s, d) && (d in r.sessions <==> d in s.sessions)
      && SentTo(r, d) == SentTo(s, d)
    // a frame that does not parse: one error frame, history untouched
    ensures data.Malformed? ==>
      r.sessions == s.sessions && SentTo(r, c) == SentTo(s, c) + [ErrorFrame(InternalError)]
    // `type === 'end'`: the session is deleted and nothing is sent
    ensures data.Message? && data.kind == Some(EndKind) ==>
      c !in r.sessions && SentTo(r, c) == SentTo(s, c)
    // any other type: user turn, then the model turn; one partial frame per emitted token
    ensures data.Message? && data.kind != Some(EndKind) ==>
      var h := HistoryOf(s, c);
      var tokens := Emitted(run);
      && c in r.sessions
      && r.sessions[c] == h + [Turn(User, data.message), Turn(Model, Reply(tokens))]
      && SentTo(r, c) == SentTo(s, c) + PartialFrames(tokens)
  {
    match data
    case Malformed =>
      s.(sent := s.sent[c := SentTo(s, c) + [ErrorFrame(InternalError)]])
    case Message(kind, message) =>
      if kind == Some(EndKind) then s.(sessions := s.sessions - {c})
      else Respond(s, c, message, run)
  }

  /** One response cycle: the user turn, the streamed partial frames, the model turn. */
  function Respond(s: Relay, c: ConnId, message: string, run: StreamRun): Relay {
    var tokens := Emitted(run);
    Relay(s.sessions[c := Context(s, c, message) + [Turn(Model, Reply(tokens))]],
          s.sent[c := SentTo(s, c) + PartialFrames(tokens)])
  }

  /**
   * The SDK request the `message` handler makes for frame `data` on `c`:
   * none for a malformed frame or `end`; otherwise the one the streamer builds
   * from the stored history with the user turn already appended.
   */
  function Ask(s: Relay, c: ConnId, data: Inbound): (r: Option<ChatRequest>)
    ensures r.Some? <==> data.Message? && data.kind != Some(EndKind)
  {
    if data.Message? && data.kind != Some(EndKind) then Some(RequestFor(Context(s, c, data.message))) else None
  }

  lemma {:induction false} ReplyAppend(a: seq<string>, b: seq<string>)
    ensures Reply(a + b) == Reply(a) + Reply(b)
    decreases |b|
  {
    if b == [] {
      assert a + b == a;
    } else {
      var b' := b[..|b| - 1];
      assert (a + b)[..|a + b| - 1] == a + b';
      ReplyAppend(a, b');
    }
  }

  /**
   * The stored model turn: on success it is every chunk the SDK yielded,
   * joined; on failure the same followed by the error text (websocket.js:37
   * keeps whatever is not the sentinel). This holds when no chunk is itself
   * the sentinel text, which the relay would drop.
   */
  lemma ModelTurnContent(run: StreamRun)
    requires Sentinel !in run.chunks
    ensures Reply(Emitted(run)) == Concat(run.chunks) + (if run.failed then StreamError else "")
  {
    var f := Forwarded(run.chunks);
    ForwardedKeepsText(run.chunks);
    assert Sentinel !in f;
    ReplyAppend(f, [if run.failed then StreamError else Sentinel]);
    ReplyWithoutSentinel(f);
    assert Reply([StreamError]) == Reply([]) + StreamError;
    assert Reply([Sentinel]) == Reply([]) + "";
  }

  /** The texts the client reads from the `partial` frames it receives. */
  function PartialTexts(frames: seq<Frame>): seq<string> {
    if frames == [] then []
    else
      var last := frames[|frames| - 1];
      PartialTexts(frames[..|frames| - 1]) + (if last.Partial? then [last.token] else [])
  }

  /** Frame/turn correspondence: the client can reassemble the stored reply from the partial frames. */
  lemma {:induction false} FramesCarryReply(tokens: seq<string>)
    ensures PartialTexts(PartialFrames(tokens)) == tokens
    ensures Reply(PartialTexts(PartialFrames(tokens))) == Reply(tokens)
    decreases |tokens|
  {
    if tokens != [] {
      FramesCarryReply(tokens[..|tokens| - 1]);
      var f := PartialFrames(tokens);
      assert f[..|f| - 1] == PartialFrames(tokens[..|tokens| - 1]);
    }
  }

  /** The turns that non-`end` messages `ms`, answered by `runs`, add to a history. */
  function Exchanges(ms: seq<string>, runs: seq<StreamRun>): (r: seq<Turn>)
    requires |ms| == |runs|
    ensures |r| == 2 * |ms|
  {
    if ms == [] then []
    else
      var last := [Turn(User, ms[|ms| - 1]), Turn(Model, Reply(Emitted(runs[|runs| - 1])))];
      Exchanges(ms[..|ms| - 1], runs[..|runs| - 1]) + last
  }

  /** Frames whose `type` fields `kinds` are never `'end'`. */
  predicate NoEnd(kinds: seq<Option<string>>) {
    forall i :: 0 <= i < |kinds| ==> kinds[i] != Some(EndKind)
  }

  /**
   * The server state after messages `ms` on `c`, the i-th with `type` field
   * `kinds[i]` and answered by `runs[i]`.
   */
  function Converse(s: Relay, c: ConnId, kinds: seq<Option<string>>, ms: seq<string>, runs: seq<StreamRun>): Relay
    requires |kinds| == |ms| == |runs|
  {
    if ms == [] then s
    else
      var n := |ms| - 1;
      Deliver(Converse(s, c, kinds[..n], ms[..n], runs[..n]), c, Message(kinds[n], ms[n]), runs[n])
  }

  /** One non-`end` message appends its exchange to c's history. */
  lemma RespondStep(s: Relay, c: ConnId, kind: Option<string>, message: string, run: StreamRun)
    requires kind != Some(EndKind)
    ensures HistoryOf(Deliver(s, c, Message(kind, message), run), c)
         == HistoryOf(s, c) + [Turn(User, message), Turn(Model, Reply(Emitted(run)))]
  {
  }

  /**
   * History order: after a conversation without `end`, the stored history is
   * the starting history followed by each user turn and its reply, in order;
   * nothing else is stored.
   */
  lemma {:induction false} ConversationHistory(s: Relay, c: ConnId, kinds: seq<Option<string>>, ms: seq<string>,
                                               runs: seq<StreamRun>)
    requires |kinds| == |ms| == |runs| && NoEnd(kinds)
    ensures HistoryOf(Converse(s, c, kinds, ms, runs), c) == HistoryOf(s, c) + Exchanges(ms, runs)
    decreases |ms|
  {
    if ms != [] {
      var n := |ms| - 1;
      assert NoEnd(kinds[..n]) && kinds[n] != Some(EndKind);
      var before := Converse(s, c, kinds[..n], ms[..n], runs[..n]);
      var step := [Turn(User, ms[n]), Turn(Model, Reply(Emitted(runs[n])))];
      ConversationHistory(s, c, kinds[..n], ms[..n], runs[..n]);
      RespondStep(before, c, kinds[n], ms[n], runs[n]);
      assert Converse(s, c, kinds, ms, runs) == Deliver(before, c, Message(kinds[n], ms[n]), runs[n]);
      assert Exchanges(ms, runs) == Exchanges(ms[..n], runs[..n]) + step;
      Assoc(HistoryOf(s, c), Exchanges(ms[..n], runs[..n]), step);
    }
  }

  /** A conversation on c leaves every other connection's history as it was. */
  lemma {:induction false} ConversationIsolated(s: Relay, c: ConnId, kinds: seq<Option<string>>, ms: seq<string>,
                                                runs: seq<StreamRun>, d: ConnId)
    requires |kinds| == |ms| == |runs| && d != c
    ensures HistoryOf(Converse(s, c, kinds, ms, runs), d) == HistoryOf(s, d)
    decreases |ms|
  {
    if ms != [] {
      var n := |ms| - 1;
      ConversationIsolated(s, c, kinds[..n], ms[..n], runs[..n], d);
    }
  }

  /**
   * The request made for the n-th message of a conversation without `end`
   * carries every earlier user and model turn in their original order, then
   * the n-th message, and its prompt quotes that message.
   */
  lemma ContextOfNthMessage(s: Relay, c: ConnId, kinds: seq<Option<string>>, ms: seq<string>,
                            runs: seq<StreamRun>, n: nat)
    requires |kinds| == |ms| == |runs| && NoEnd(kinds) && n < |ms|
    ensures var ask := Ask(Converse(s, c, kinds[..n], ms[..n], runs[..n]), c, Message(kinds[n], ms[n]));
      var context := HistoryOf(s, c) + Exchanges(ms[..n], runs[..n]) + [Turn(User, ms[n])];
      && ask == Some(RequestFor(context))
      && FromChatHistory(ask.value.history) == Some(context)
      && ask.value.prompt == StyledPrompt(ms[n])
  {
    var context := HistoryOf(s, c) + Exchanges(ms[..n], runs[..n]) + [Turn(User, ms[n])];
    assert NoEnd(kinds[..n]) && kinds[n] != Some(EndKind);
    ConversationHistory(s, c, kinds[..n], ms[..n], runs[..n]);
    RequestCarriesHistory(context);
  }

  /** After `end` (or a close), a later message starts again from an empty history. */
  lemma RestartAfterEnd(s: Relay, c: ConnId, endRun: StreamRun, kind: Option<string>, message: string, run: StreamRun)
    requires kind != Some(EndKind)
    ensures var r := Deliver(Deliver(s, c, Message(Some(EndKind), ""), endRun), c, Message(kind, message), run);
      r.sessions[c] == [Turn(User, message), Turn(Model, Reply(Emitted(run)))]
    ensures var r := Deliver(Close(s, c), c, Message(kind, message), run);
      r.sessions[c] == [Turn(User, message), Turn(Model, Reply(Emitted(run)))]
  {
  }

  /** Relaying one more token adds its frame and, unless it is the sentinel, its text. */
  lemma ExtendByOne(tokens: seq<string>, i: nat)
    requires i < |tokens|
    ensures Reply(tokens[..i + 1]) == Reply(tokens[..i]) + (if tokens[i] != Sentinel then tokens[i] else "")
    ensures PartialFrames(tokens[..i + 1]) == PartialFrames(tokens[..i]) + [Partial(tokens[i])]
  {
    assert tokens[..i + 1][..i] == tokens[..i];
  }

  /** The websocket server: the `sessions` map and the frames sent on each connection. */
  class RelayServer {
    var sessions: map<ConnId, seq<Turn>>
    var sent: map<ConnId, seq<Frame>>

    function State(): Relay
      reads this
    {
      Relay(sessions, sent)
    }

    constructor ()
      ensures State() == Empty
    {
      sessions := map[];
      sent := map[];
    }

    /** `ws.send(JSON.stringify(frame))`. */
    method Send(c: ConnId, frame: Frame)
      modifies this
      ensures sessions == old(sessions)
      ensures sent == old(sent)[c := (if c in old(sent) then old(sent)[c] else []) + [frame]]
    {
      var log := if c in sent then sent[c] else [];
      sent := sent[c := log + [frame]];
    }

    method OnConnection(c: ConnId)
      modifies this
      ensures State() == Connect(old(State()), c)
    {
      sessions := sessions[c := []];
    }

    method OnClose(c: ConnId)
      modifies this
      ensures State() == Close(old(State()), c)
    {
      sessions := sessions - {c};
    }

    /**
     * The `message` handler; `run` is what the SDK's stream yields for this
     * turn, and `request` is what the SDK was asked, if anything.
     */
    method OnMessage(c: ConnId, data: Inbound, run: StreamRun) returns (request: Option<ChatRequest>)
      modifies this
      ensures State() == Deliver(old(State()), c, data, run)
      ensures request == Ask(old(State()), c, data)
    {
      if data.Malformed? {
        Send(c, ErrorFrame(InternalError));
        return None;
      }
      var message, kind := data.message, data.kind;
      if kind == Some(EndKind) {
        sessions := sessions - {c};
        return None;
      }
      var history, asked := OnContinue(c, message, run);
      request := Some(asked);
    }

    /** The rest of the `message` handler, for any type other than `'end'`. */
    method OnContinue(c: ConnId, message: string, run: StreamRun) returns (history: seq<Turn>, request: ChatRequest)
      modifies this
      ensures State() == Respond(old(State()), c, message, run)
      ensures history == Context(old(State()), c, message) && request == RequestFor(history)
    {
      ghost var s0 := State();
      history := (if c in sessions then sessions[c] else []) + [Turn(User, message)];
      assert history == Context(s0, c, message);
      if c in sessions {
        // the stored history array itself is pushed to (websocket.js:30)
        sessions := sessions[c := history];
      }
      var fullResponse;
      request, fullResponse := Stream(c, history, run);
      sessions := sessions[c := history + [Turn(Model, fullResponse)]];
      if c in s0.sessions {
        Overwrite(s0.sessions, c, history, history + [Turn(Model, fullResponse)]);
      }
    }

    /**
     * `await streamGeminiResponse(history, callback)` with the relay's
     * callback: the SDK is asked `RequestFor(history)`, every emitted token is
     * sent on c, and the reply is accumulated.
     */
    method Stream(c: ConnId, history: seq<Turn>, run: StreamRun) returns (request: ChatRequest, fullResponse: string)
      modifies this
      ensures request == RequestFor(history)
      ensures fullResponse == Reply(Emitted(run))
      ensures sessions == old(sessions)
      ensures sent == old(sent)[c := SentTo(old(State()), c) + PartialFrames(Emitted(run))]
    {
      var tokens;
      request, tokens := StreamResponse(history, run);
      assert tokens != [];
      fullResponse := RelayTokens(c, tokens);
    }

    /** The streaming callback: send `token` as a `{partial}` frame and, unless it is the sentinel, add it to the reply. */
    method OnToken(c: ConnId, token: string, reply: string) returns (fullResponse: string)
      modifies this
      ensures fullResponse == reply + (if token != Sentinel then token else "")
      ensures sessions == old(sessions)
      ensures sent == old(sent)[c := SentTo(old(State()), c) + [Partial(token)]]
    {
      Send(c, Partial(token));
      fullResponse := reply;
      if token != Sentinel {
        fullResponse := fullResponse + token;
      }
    }

    /** The streaming callback applied to each token in turn. */
    method RelayTokens(c: ConnId, tokens: seq<string>) returns (fullResponse: string)
      modifies this
      ensures fullResponse == Reply(tokens)
      ensures sessions == old(sessions)
      ensures tokens == [] ==> sent == old(sent)
      ensures tokens != [] ==> sent == old(sent)[c := SentTo(old(State()), c) + PartialFrames(tokens)]
    {
      ghost var log := SentTo(State(), c);
      ghost var before := sent;
      fullResponse := "";
      var i := 0;
      while i < |tokens|
        invariant 0 <= i <= |tokens|
        invariant fullResponse == Reply(tokens[..i])
        invariant sessions == old(sessions)
        invariant i == 0 ==> sent == before
        invariant i > 0 ==> sent == before[c := log + PartialFrames(tokens[..i])]
      {
        ExtendByOne(tokens, i);
        assert tokens[..0] == [];
        assert SentTo(State(), c) == log + PartialFrames(tokens[..i]);
        ghost var frames := log + PartialFrames(tokens[..i]);
        Assoc(log, PartialFrames(tokens[..i]), [Partial(tokens[i])]);
        fullResponse := OnToken(c, tokens[i], fullResponse);
        Overwrite(before, c, frames, frames + [Partial(tokens[i])]);
        i := i + 1;
      }
      assert tokens[..i] == tokens;
    }
  }
}
