# Real-time voice AI: relay, token stream, transcript and TTS guards

A Dafny model of the parts of the real-time voice assistant whose behaviour can be stated:

- **Relay** (`websocket.dfy`, from `server/websocket.js`). The websocket server keeps a table from connection to conversation history. A frame of type `end` deletes the connection's entry. Any other frame appends a user turn, relays every token the model streams back as a `{partial}` frame, and appends the accumulated reply as a model turn. Closing the connection deletes its entry. The pure step functions `Connect`, `Deliver` and `Close` on a `Relay` value are the specification. The class `RelayServer` holds the `sessions` map and the frames sent on each connection. Its handlers are proved to take exactly those steps.
- **Gemini** (`gemini.dfy`, from `server/services/gemini.js`). This covers how the history is handed to the chat SDK and which prompt is built around the last message. It also covers which tokens reach the callback: the non-empty chunks, in order, then the `[__END__]` sentinel on normal completion, or the error text on failure. What the SDK's stream yields is an input (`StreamRun`).
- **VoicePage** (`page.dfy`, from `client/src/app/page.js`). This is the browser page. `onresult` splits results into final and interim text. `onstart` resets the buffer. `onend` sends the trimmed buffer only when it is non-empty. A tap starts or stops the recognizer, which is created at most once. Clear resets the buffer, and the reply text has fallbacks. The class `Home` holds the component's state and refs.
- **SpeakSarvam** (`speak_sarvam.dfy`, from `client/src/app/api/Speak_Sarvam/route.js`). The TTS route is a pure function. It maps the request body, the API key and the upstream outcome to a status and a payload through an ordered ladder of guards. It also returns the request it would send upstream.
- `js_strings.dfy` models JavaScript's `trim` (ECMAScript whitespace and line terminators) and repeated `+=`. `wrappers.dfy` is an `Option` type, and `seq_facts.dfy` holds the regrouping facts about sequences, multisets and maps that the proofs call.

Inputs that replace the outside world:

- The Gemini SDK's output is a `StreamRun`: the chunk texts yielded, in order, and whether the stream then threw. A failure before the stream opens is a run with no chunks that failed.
- The Sarvam `fetch` is an `Upstream` value: unreachable, or an answer with a status, a body text and the parsed JSON.
- The `/api/Geminires` answer is an `ApiOutcome`.
- Recognizer events are `ResultEvent` values.
- Whether the browser offers `SpeechRecognition` is the argument of `Home`'s constructor, held in a constant field.
- The environment's API key is an `Option<string>`.

Behaviours of the code worth knowing:

- websocket.js handles no `init` message and has no sentiment, memory-lookup or summarisation step; `end` only deletes the session.
- The streamer never throws, so after a generation failure the relay still stores a model turn. That turn holds the chunks forwarded so far plus the error text (websocket.js:37).
- On failure the streamer emits no sentinel. A client waiting for `[__END__]` then never sees one.
- The sentinel travels in-band. A chunk whose text is exactly `[__END__]` would be forwarded, shown to the client as an end of reply, and left out of the stored reply. The sentinel lemmas therefore assume that no chunk carries that text. `SentinelCount` states the general count.

## Model

| member | source | states |
|---|---|---|
| `JsStrings.Trim` | client/src/app/page.js:57 | `trim` yields no more than the input, with no whitespace at either end, and the result is empty exactly when the input is all whitespace; `TrimIsSlice` and `TrimSurroundedByWhitespace` say which piece it is |
| `JsStrings.TrimIsSlice` | client/src/app/page.js:57 | what `trim` keeps is the contiguous part of the input that starts right after the leading whitespace |
| `JsStrings.TrimSurroundedByWhitespace` | client/src/app/page.js:57 | only whitespace precedes the kept part and only whitespace follows it, so together with `TrimIsSlice` and `Trim` the kept part is exactly the input without its leading and trailing whitespace |
| `JsStrings.TrimIdempotent` | client/src/app/page.js:57 | trimming an already trimmed text changes nothing, so the text sent is already trimmed |
| `Gemini.ToChatHistory` | server/services/gemini.js:14-18 | the SDK history has the same length and order as the conversation, and entry i is `{role, parts:[{text: content}]}` of turn i |
| `Gemini.ChatHistoryRoundTrip` | server/services/gemini.js:15-18 | the mapping loses nothing: every turn can be read back from the SDK history, with its role and content, in order |
| `Gemini.ChatHistoryAppend` | server/services/gemini.js:14-18 | the history mapping commutes with appending turns, so a later call's SDK history extends an earlier one's |
| `Gemini.LastUserMessage` | server/services/gemini.js:22 | an empty history gives `''` |
| `Gemini.LastUserMessageOfNewTurn` | server/services/gemini.js:22 | after the relay pushes a user turn, the selected message is exactly that turn's text |
| `Gemini.StyledPrompt` | server/services/gemini.js:24-36 | the prompt is the template head, the message, then the template tail, nothing lost or added: its length is the sum of the three |
| `Gemini.StyledPromptQuotes` | server/services/gemini.js:24-36 | the prompt contains the last message verbatim, between the template's quotes, at a fixed offset |
| `Gemini.StyledPromptInjective` | server/services/gemini.js:24-36 | two messages that give the same prompt are the same message |
| `Gemini.RequestFor` | server/services/gemini.js:14-38 | the request `streamGeminiResponse` makes has one SDK history entry per turn, and that history reads back to exactly the given turns |
| `Gemini.RequestCarriesHistory` | server/services/gemini.js:14-38 | the SDK request carries the whole history, recoverable in order, and a prompt quoting the last turn's content |
| `Gemini.Forwarded` | server/services/gemini.js:40-45 | only non-empty chunks are forwarded, each one a chunk of the stream |
| `Gemini.ForwardedAppend` | server/services/gemini.js:40-45 | forwarding is chunk by chunk and keeps stream order: filtering a concatenation gives the concatenated filters |
| `Gemini.ForwardedKeepsText` | server/services/gemini.js:40-45 | dropping empty chunks loses no text, and when no chunk is empty every chunk is forwarded |
| `Gemini.Emitted` | server/services/gemini.js:40-51 | the forwarded chunks come first, and the last token is the sentinel on success or the error string on failure |
| `Gemini.SentinelCount` | server/services/gemini.js:47-50 | a successful run emits one more sentinel than its chunks carry; a failed run emits no extra sentinel |
| `Gemini.SentinelOnceLast` | server/services/gemini.js:47 | on success, when no chunk is the sentinel text, the sentinel is emitted exactly once, as the last token |
| `Gemini.FailureEmitsError` | server/services/gemini.js:48-51 | on failure the chunks already forwarded stay forwarded, then the error string is emitted, and a sentinel appears only if a chunk carried it |
| `Gemini.StreamResponse` | server/services/gemini.js:9-51 | the SDK is asked exactly `RequestFor(history)`, and the loop passes exactly `Emitted(run)` to the callback, in order |
| `Relay.Connect` | server/websocket.js:10-12 | a new connection starts with an empty history; other connections and all sent frames are untouched |
| `Relay.Close` | server/websocket.js:50-53 | disconnect removes the connection's session and nothing else |
| `Relay.Deliver` | server/websocket.js:14-47 | a malformed frame sends one `{error:'Internal error occurred.'}` and leaves every history as it was. `end` deletes the session and sends nothing. Any other type appends the user turn, then the model turn holding the reply, and sends one `{partial}` frame per emitted token. Other connections are unaffected. |
| `Relay.Ask` | server/websocket.js:16-35 | the SDK is asked something exactly when the frame parses and its type is not `end`; `ContextOfNthMessage` says what it is asked |
| `Relay.PartialFramesAt` | server/websocket.js:35-38 | each emitted token, the sentinel included, becomes one `{partial: token}` frame, in emission order |
| `Relay.FramesCarryReply` | server/websocket.js:35-41 | the client can read back every token from the partial frames, and so rebuild the stored reply |
| `Relay.ReplyAppend` | server/websocket.js:35-38 | `fullResponse` is accumulated token by token: the reply of a concatenation is the concatenation of the replies |
| `Relay.ExtendByOne` | server/websocket.js:35-38 | one more token through the callback adds its `{partial}` frame and, unless it is the sentinel, its text to the reply |
| `Relay.ReplyWithoutSentinel` | server/websocket.js:37 | without sentinel-valued tokens, the accumulated reply is all tokens joined in order |
| `Relay.ModelTurnContent` | server/websocket.js:32-41 | the stored model turn is every chunk joined, followed by the error string on failure |
| `Relay.RespondStep` | server/websocket.js:27-42 | one message of a type other than `end` appends exactly its user turn and then its reply turn to the connection's history |
| `Relay.ConversationHistory` | server/websocket.js:27-42 | after a sequence of messages of any types other than `end` on one connection, its history is the start history followed by each user turn and its reply, in order |
| `Relay.ConversationIsolated` | server/websocket.js:10-53 | a conversation on one connection leaves every other connection's history as it was: the session map is keyed by the socket |
| `Relay.ContextOfNthMessage` | server/websocket.js:27-35 | the SDK request made for the n-th message of a conversation without `end` carries a history that reads back to every earlier turn in original order followed by the n-th message, and a prompt built around that message |
| `Relay.RestartAfterEnd` | server/websocket.js:19-27 | after `end` or close, a later message of any type other than `end` starts from `[]`, and the re-inserted history holds just that exchange |
| `Relay.RelayServer.constructor` | server/websocket.js:5 | the session store starts empty and nothing has been sent |
| `Relay.RelayServer.OnConnection` | server/websocket.js:10-12 | the `connection` handler takes exactly the `Connect` step |
| `Relay.RelayServer.OnClose` | server/websocket.js:50-53 | the `close` handler takes exactly the `Close` step |
| `Relay.RelayServer.OnMessage` | server/websocket.js:14-48 | the `message` handler takes exactly the `Deliver` step, and what it asks the SDK is exactly what `Ask` gives |
| `Relay.RelayServer.OnContinue` | server/websocket.js:25-42 | a non-`end` message pushes the user turn, streams, and stores the model turn, as `Respond` says; the history handed to the streamer already ends with the user turn, and the SDK is asked `RequestFor` of it |
| `Relay.RelayServer.Stream` | server/websocket.js:35-38 | the streamer is called with the history as pushed: the SDK is asked `RequestFor(history)`, every emitted token is sent on this connection only, and the reply is accumulated from them; the sessions are not touched |
| `Relay.RelayServer.OnToken` | server/websocket.js:35-38 | the callback sends one `{partial: token}` frame on this connection and appends the token to the reply unless it is the sentinel |
| `Relay.RelayServer.RelayTokens` | server/websocket.js:35-38 | the callback loop sends one partial frame per token, in order, on this connection only, and accumulates the non-sentinel tokens |
| `Relay.RelayServer.Send` | server/websocket.js:36 | a frame is appended to this connection's log and to no other |
| `VoicePage.SplitResults` | client/src/app/page.js:64-74 | `final` and `interim` are the in-order concatenations of the final and the non-final transcripts from `resultIndex` on |
| `VoicePage.Window` | client/src/app/page.js:67 | the loop visits exactly the results from `resultIndex` to the end, in order (the k-th visited is result `resultIndex + k`), and none when `resultIndex` is past the end |
| `VoicePage.SplitIsPartition` | client/src/app/page.js:67-74 | every result goes to exactly one of the two texts: together they hold every transcript character, each as often as in the input |
| `VoicePage.AllFinal` | client/src/app/page.js:67-74 | when every result is final, there is no interim text and `final` is the whole transcript |
| `VoicePage.NoFinal` | client/src/app/page.js:67-74 | with no final result in the window, `final` stays `''` |
| `VoicePage.SelectedAppend` | client/src/app/page.js:67-74 | selection keeps result order across concatenation |
| `VoicePage.BufferStep` | client/src/app/page.js:77 | one more result event appends exactly its final text to the buffer |
| `VoicePage.BufferAfterAppend` | client/src/app/page.js:51-77 | the buffer only grows, in event order: after two runs of events it is the first run's buffer followed by the second's |
| `VoicePage.Utterance` | client/src/app/page.js:57-60 | `onend` sends something exactly when the buffer is not all whitespace, and what it sends is the trimmed, non-empty buffer |
| `VoicePage.InterimNeverBuffered` | client/src/app/page.js:63-78 | interim text never enters the buffer: a session of interim results leaves it empty and sends nothing |
| `VoicePage.ResponseText` | client/src/app/page.js:26-30 | the response shows `data.reply`, or `"No response from Gemini."` when that is missing or empty, or `"Error: Could not connect to AI."` on exception; it is never blank |
| `VoicePage.Home.constructor` | client/src/app/page.js:6-16 | the initial `useState`/`useRef` values, and whether the browser offers `SpeechRecognition`, fixed for the page's lifetime |
| `VoicePage.Home.Tap` | client/src/app/page.js:34-92 | in a browser without speech recognition a tap only alerts, and no recognizer ever exists. Otherwise the recognizer is created at most once, and recognition is started when not recognizing and stopped otherwise. |
| `VoicePage.Home.OnStart` | client/src/app/page.js:46-52 | recognition flags on; buffer, transcription and response reset to `''` |
| `VoicePage.Home.OnResult` | client/src/app/page.js:63-78 | the display is `final + interim` of this event, and the buffer grows by exactly `final` |
| `VoicePage.Home.OnEnd` | client/src/app/page.js:54-61 | recognition flags off; one request with the trimmed buffer if it is non-empty, none otherwise |
| `VoicePage.Home.OnError` | client/src/app/page.js:80-84 | the error message is shown and listening stops |
| `VoicePage.Home.OnApiResult` | client/src/app/page.js:18-32 | the response text becomes `ResponseText` of the outcome |
| `VoicePage.Home.Clear` | client/src/app/page.js:134-138 | transcription, response and buffer reset to `''` |
| `SpeakSarvam.CheckText` | client/src/app/api/Speak_Sarvam/route.js:9 | absent, falsy or all-whitespace text is blank, a truthy non-string makes `trim` throw, and any other string is usable |
| `SpeakSarvam.SarvamBody` | client/src/app/api/Speak_Sarvam/route.js:3-39 | the upstream body has `inputs:[text]`, the requested language or `hi-IN`, always speaker `"Anushka"`, model `bulbul:v2`, rate 8000 and preprocessing on |
| `SpeakSarvam.AfterCall` | client/src/app/api/Speak_Sarvam/route.js:26-85 | a rejected `fetch`, a status outside 200-599, the null body status 304 (which `new Response` refuses with a body) or an unparsable reply gives 500 `{error:"Internal server error", details}`. Any other non-OK answer passes its own status through with `"TTS API error"`. An OK answer without a first audio gives 502, and one with it gives 200 `{audio}`. Status 200 happens exactly in that last case. |
| `SpeakSarvam.Post` | client/src/app/api/Speak_Sarvam/route.js:1-86 | an unreadable body, or a truthy non-string text, gives the catch-all 500 with no call. Blank text gives 400 before anything else. A missing key gives 500, but only after the text passed and before any call. The service is called exactly when the text is usable and there is a key, and the call carries `inputs:[text]`, the requested language, or `hi-IN` when none is given, and always speaker `"Anushka"`. Once the call is made, the answer is `AfterCall`'s, so the post-call exceptions also give the catch-all 500. Every answer has a status in 200-599. |
| `SpeakSarvam.SpeakerIgnored` | client/src/app/api/Speak_Sarvam/route.js:6-17 | the requested speaker has no effect on the call or the answer |
| `SpeakSarvam.SuccessIff` | client/src/app/api/Speak_Sarvam/route.js:9-74 | 200 is answered exactly when every guard passes and the service returned a non-empty first audio, which is then the payload |
| `SpeakSarvam.OnlySuccessIsOk` | client/src/app/api/Speak_Sarvam/route.js:42-74 | no failure answer has a 2xx status, and the audio payload goes with status 200 and only with it |

## Left out

- The Gemini SDK calls (`getGenerativeModel`, `startChat`, `sendMessageStream`), the Sarvam `fetch`, the `/api/Geminires` `fetch` and `ws.send` are external services. They are replaced by inputs (`StreamRun`, `Upstream`, `ApiOutcome`) and by the per-connection log of sent frames. JSON serialisation of frames is not modelled.
- Concurrency within one connection is not modelled: each handler runs to completion before the next event. Under real interleaving, a `close` that arrives during streaming would be undone by the `sessions.set` at websocket.js:42.
- The streaming callback is assumed not to throw. A `ws.send` that threw inside the try block of gemini.js would make the streamer also emit the error string.
- A frame's `message` field is modelled as a string. An absent or non-string `message` (stored as `undefined` or another value) is not modelled.
- Other JSON fields are narrowed to the types they are meant to have. The TTS body's `target_language_code` is absent or a string: a `null` or non-string language, which the route sends upstream as it is, is not modelled. The service's `audios` is absent or an array of strings: a truthy non-string first element, or a string `audios`, which the route would return as the audio, is not modelled. The `/api/Geminires` `reply` is absent or a string: a truthy non-string `reply`, which the page would show, is not modelled.
- `Relay.Inbound.Malformed` stands for every frame on which `JSON.parse` or the destructuring throws. The model does not tell those cases apart.
- `Gemini.SentinelOnceLast`: assumes that no chunk's text is exactly `[__END__]`. The code does not promise anything for that input. `Gemini.SentinelCount` covers the general case.
- `Relay.ModelTurnContent`: assumes that no chunk's text is exactly `[__END__]`, since the relay would drop such a chunk from the stored reply. `Relay.ReplyAppend` and `Relay.ExtendByOne` cover the general accumulation.
- The model name `gemini-1.5-flash`, the recognizer settings (`lang`, `continuous`, `interimResults`) and log output have no behaviour to state.
- Only the first alternative of each speech result is modelled (`event.results[i][0]`). A result with no alternative, which would throw, is not modelled.
- React state updates are modelled as taking effect at once. In the component, `startListening` reads `isRecognizing` from the last render.
- The text of the browser `alert`.
- In the TTS route, a rejection of `sarvamResponse.text()` is not modelled. The exception message in `details` is an input for the exceptions the environment raises. For the three the platform raises itself (`trim` on a non-string, an out-of-range status, a 304 given a body), it is a fixed text.
- Auth screens and helpers, the vector store, the emotion service, `server/routes/llm.js`, the other API routes and the server wiring are not part of this model.
