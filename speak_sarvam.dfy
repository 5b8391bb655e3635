/**
 * The text-to-speech route of client/src/app/api/Speak_Sarvam/route.js: an
 * ordered ladder of guards from the request body, the API key and the Sarvam
 * service's answer to an HTTP status and a JSON payload. The `fetch` to the
 * service is not modelled: its outcome is an input, consulted only when the
 * route reaches the call, and the request it would carry is part of the result.
 */
module SpeakSarvam {
  import opened Wrappers
  import opened JsStrings

  /**
   * The body's `text` field as JavaScript sees it: absent or `null`, a
   * string, or a value of another type (a number, a boolean, an object),
   * which is either falsy or truthy.
   */
  datatype TextField = Missing | Str(s: string) | Other(truthy: bool)

  /** `await request.json()` after destructuring; `Unreadable` when it rejects or yields `null`. */
  datatype RequestBody =
    | Unreadable(reason: string)
    | Body(text: TextField, targetLanguage: Option<string>, speaker: Option<string>)

  /** What `sarvamResponse.json()` yields: `Unparsable` when it rejects or yields `null`. */
  datatype ParsedReply = Unparsable(reason: string) | Fields(audios: Option<seq<string>>)

  /** The outcome of the `fetch`: it rejected, or the service answered. */
  datatype Upstream =
    | Unreachable(reason: string)
    | Answered(status: int, bodyText: string, parsed: ParsedReply)

  /** The JSON body sent to the service. */
  datatype SarvamRequest = SarvamRequest(
    inputs: seq<string>,
    targetLanguageCode: string,
    speaker: string,
    model: string,
    speechSampleRate: nat,
    enablePreprocessing: bool)

  datatype Payload =
    | ErrorBody(error: string)
    | ErrorWithDetails(error: string, details: string)
    | AudioBody(audio: string)

  datatype Response = Response(status: int, payload: Payload)

  /** The route's answer, and the request it sent to the service, if it got that far. */
  datatype Handled = Handled(call: Option<SarvamRequest>, response: Response)

  const DefaultLanguage: string := "hi-IN"
  const FixedSpeaker: string := "Anushka"
  const TtsModel: string := "bulbul:v2"
  const SampleRate: nat := 8000

  const EmptyText: string := "Text must not be empty."
  const MissingKey: string := "API key is missing"
  const TtsApiError: string := "TTS API error"
  const NoAudio: string := "No audio received from Sarvam API"
  const InternalError: string := "Internal server error"
  /**
   * What the platform throws for `text.trim()` on a non-string, for a status
   * outside 200-599, and for a null body status given a body: the only status
   * that reaches the last one is 304, since 101 and 103 fail the range check
   * first and 204 and 205 are OK answers, which the route never passes through.
   */
  const TrimTypeError: string := "text.trim is not a function"
  const StatusRangeError: string := "init[\"status\"] must be in the range of 200 to 599, inclusive."
  const NullBodyStatusError: string := "Response constructor: Invalid response status code 304"

  /** `response.ok` of the Fetch standard. */
  predicate IsOk(status: int) {
    200 <= status <= 299
  }

  /** The statuses `new Response(...)` accepts at all. */
  predicate IsValidStatus(status: int) {
    200 <= status <= 599
  }

  /** The Fetch standard's null body statuses: `new Response(body, {status})` throws for them when `body` is not null. */
  predicate IsNullBodyStatus(status: int) {
    status == 101 || status == 103 || status == 204 || status == 205 || status == 304
  }

  /** `!sarvamData.audios || !sarvamData.audios[0]`: there is no first audio, or it is empty. */
  predicate HasFirstAudio(audios: Option<seq<string>>) {
    audios.Some? && |audios.value| > 0 && audios.value[0] != ""
  }

  /** The upstream body: the text as given, the requested or default language, always the fixed speaker. */
  function SarvamBody(text: string, targetLanguage: Option<string>): (r: SarvamRequest)
    ensures r.inputs == [text] && r.speaker == FixedSpeaker
    ensures r.targetLanguageCode == if targetLanguage.Some? then targetLanguage.value else DefaultLanguage
    ensures r.model == TtsModel && r.speechSampleRate == SampleRate && r.enablePreprocessing
  {
    SarvamRequest([text], if targetLanguage.Some? then targetLanguage.value else DefaultLanguage,
                  FixedSpeaker, TtsModel, SampleRate, true)
  }

  /** The catch-all answer: 500 with the exception's message as `details`, and no call recorded. */
  function Internal(reason: string): Handled {
    Handled(None, Response(500, ErrorWithDetails(InternalError, reason)))
  }

  /** How `!text || text.trim() === ""` comes out: true, throws, or false with a usable string. */
  datatype TextCheck = Blank | TrimThrows | Usable(s: string)

  function CheckText(text: TextField): (r: TextCheck)
    ensures r == Blank <==> text.Missing? || text == Other(false) || (text.Str? && AllWhitespace(text.s))
    ensures r == TrimThrows <==> text == Other(true)
    ensures r.Usable? <==> text.Str? && !AllWhitespace(text.s)
    ensures r.Usable? ==> r.s == text.s
  {
    match text
    case Missing => Blank
    case Other(truthy) => if truthy then TrimThrows else Blank
    case Str(s) => if s == "" || Trim(s) == "" then Blank else Usable(s)
  }

  /** What happens once the request is sent: the three upstream guards and the success answer. */
  function AfterCall(req: SarvamRequest, upstream: Upstream): (h: Handled)
    ensures h.call == Some(req)
    // the exceptions after the call is sent become the catch-all 500: a rejected `fetch`,
    // a status `new Response` refuses, a reply that is not JSON
    ensures upstream.Unreachable? ==> h.response == Response(500, ErrorWithDetails(InternalError, upstream.reason))
    ensures upstream.Answered? && !IsValidStatus(upstream.status)
      ==> h.response == Response(500, ErrorWithDetails(InternalError, StatusRangeError))
    ensures upstream.Answered? && !IsOk(upstream.status) && IsValidStatus(upstream.status) && IsNullBodyStatus(upstream.status)
      ==> h.response == Response(500, ErrorWithDetails(InternalError, NullBodyStatusError))
    ensures upstream.Answered? && IsOk(upstream.status) && upstream.parsed.Unparsable?
      ==> h.response == Response(500, ErrorWithDetails(InternalError, upstream.parsed.reason))
    ensures upstream.Answered? && !IsOk(upstream.status) && IsValidStatus(upstream.status) && !IsNullBodyStatus(upstream.status)
      ==> h.response == Response(upstream.status, ErrorWithDetails(TtsApiError, upstream.bodyText))
    ensures upstream.Answered? && IsOk(upstream.status) && upstream.parsed.Fields?
      ==> h.response == if HasFirstAudio(upstream.parsed.audios)
                        then Response(200, AudioBody(upstream.parsed.audios.value[0]))
                        else Response(502, ErrorBody(NoAudio))
    ensures IsValidStatus(h.response.status)
    ensures h.response.status == 200 <==> h.response.payload.AudioBody?
    ensures h.response.status == 200 <==>
      upstream.Answered? && IsOk(upstream.status) && upstream.parsed.Fields? && HasFirstAudio(upstream.parsed.audios)
  {
    match upstream
    case Unreachable(reason) => Handled(Some(req), Response(500, ErrorWithDetails(InternalError, reason)))
    case Answered(status, bodyText, parsed) =>
      if !IsOk(status) then
        if !IsValidStatus(status) then Handled(Some(req), Response(500, ErrorWithDetails(InternalError, StatusRangeError)))
        else if IsNullBodyStatus(status) then Handled(Some(req), Response(500, ErrorWithDetails(InternalError, NullBodyStatusError)))
        else Handled(Some(req), Response(status, ErrorWithDetails(TtsApiError, bodyText)))
      else
        match parsed
        case Unparsable(reason) => Handled(Some(req), Response(500, ErrorWithDetails(InternalError, reason)))
        case Fields(audios) =>
          if !HasFirstAudio(audios) then Handled(Some(req), Response(502, ErrorBody(NoAudio)))
          else Handled(Some(req), Response(200, AudioBody(audios.value[0])))
  }

  /** The `POST` handler. */
  function Post(body: RequestBody, apiKey: Option<string>, upstream: Upstream): (h: Handled)
    // a body that cannot be read, or a text `trim` throws on, is the catch-all 500, before any call
    ensures body.Unreadable? ==> h == Internal(body.reason)
    ensures body.Body? && body.text == Other(true) ==> h == Internal(TrimTypeError)
    // empty or blank text is refused first, before the key is looked at or the service called
    ensures body.Body? && (body.text.Missing? || body.text == Other(false) || (body.text.Str? && AllWhitespace(body.text.s)))
      ==> h == Handled(None, Response(400, ErrorBody(EmptyText)))
    // a missing key is refused only after the text passed, and before any call
    ensures body.Body? && body.text.Str? && !AllWhitespace(body.text.s) && (apiKey.None? || apiKey.value == "")
      ==> h == Handled(None, Response(500, ErrorBody(MissingKey)))
    // the service is called exactly when the text is usable and there is a key, always with the fixed speaker
    ensures body.Body? && body.text.Str? && !AllWhitespace(body.text.s) && apiKey.Some? && apiKey.value != ""
      ==> h.call == Some(SarvamBody(body.text.s, body.targetLanguage))
    ensures h.call.Some? ==>
      && body.Body? && body.text.Str? && !AllWhitespace(body.text.s) && apiKey.Some? && apiKey.value != ""
      && h.call.value == SarvamBody(body.text.s, body.targetLanguage)
      && h.call.value.speaker == FixedSpeaker && h.call.value.inputs == [body.text.s]
    // once the call is made, the answer is what the service's outcome gives:
    ensures h.call.Some? ==> h == AfterCall(h.call.value, upstream)
    // a rejected `fetch`, a status `new Response` refuses, or a reply that is not JSON is the catch-all 500
    ensures h.call.Some? && upstream.Unreachable?
      ==> h.response == Response(500, ErrorWithDetails(InternalError, upstream.reason))
    ensures h.call.Some? && upstream.Answered? && !IsValidStatus(upstream.status)
      ==> h.response == Response(500, ErrorWithDetails(InternalError, StatusRangeError))
    ensures h.call.Some? && upstream.Answered? && IsOk(upstream.status) && upstream.parsed.Unparsable?
      ==> h.response == Response(500, ErrorWithDetails(InternalError, upstream.parsed.reason))
    ensures h.call.Some? && upstream.Answered? && !IsOk(upstream.status) && IsValidStatus(upstream.status)
                         && IsNullBodyStatus(upstream.status)
      ==> h.response == Response(500, ErrorWithDetails(InternalError, NullBodyStatusError))
    // any other non-OK answer is passed through with the service's own status
    ensures h.call.Some? && upstream.Answered? && !IsOk(upstream.status) && IsValidStatus(upstream.status)
                         && !IsNullBodyStatus(upstream.status)
      ==> h.response == Response(upstream.status, ErrorWithDetails(TtsApiError, upstream.bodyText))
    // an OK answer without a first audio is a bad gateway; with one, it is returned
    ensures h.call.Some? && upstream.Answered? && IsOk(upstream.status) && upstream.parsed.Fields?
      ==> h.response == if HasFirstAudio(upstream.parsed.audios)
                        then Response(200, AudioBody(upstream.parsed.audios.value[0]))
                        else Response(502, ErrorBody(NoAudio))
    // every answer carries a status `new Response` accepts
    ensures IsValidStatus(h.response.status)
  {
    match body
    case Unreadable(reason) => Internal(reason)
    case Body(text, targetLanguage, _) =>
      match CheckText(text)
      case Blank => Handled(None, Response(400, ErrorBody(EmptyText)))
      case TrimThrows => Internal(TrimTypeError)
      case Usable(s) =>
        if apiKey.None? || apiKey.value == "" then Handled(None, Response(500, ErrorBody(MissingKey)))
        else AfterCall(SarvamBody(s, targetLanguage), upstream)
  }

  /** The requested speaker never reaches the service: any two requests differing only in it are answered alike. */
  lemma SpeakerIgnored(text: TextField, lang: Option<string>, a: Option<string>, b: Option<string>,
                       apiKey: Option<string>, upstream: Upstream)
    ensures Post(Body(text, lang, a), apiKey, upstream) == Post(Body(text, lang, b), apiKey, upstream)
  {
  }

  /** The route answers 200 exactly when every guard passes and the service returned a first audio. */
  lemma SuccessIff(body: RequestBody, apiKey: Option<string>, upstream: Upstream)
    ensures Post(body, apiKey, upstream).response.status == 200 <==>
      && body.Body? && body.text.Str? && !AllWhitespace(body.text.s)
      && apiKey.Some? && apiKey.value != ""
      && upstream.Answered? && IsOk(upstream.status)
      && upstream.parsed.Fields? && HasFirstAudio(upstream.parsed.audios)
    ensures Post(body, apiKey, upstream).response.status == 200 ==>
      Post(body, apiKey, upstream).response.payload == AudioBody(upstream.parsed.audios.value[0])
  {
  }

  /** Only the success answer has a 2xx status: the passed-through status of a failed call never does. */
  lemma OnlySuccessIsOk(body: RequestBody, apiKey: Option<string>, upstream: Upstream)
    ensures IsOk(Post(body, apiKey, upstream).response.status) ==> Post(body, apiKey, upstream).response.status == 200
    ensures Post(body, apiKey, upstream).response.payload.AudioBody? <==> Post(body, apiKey, upstream).response.status == 200
  {
  }
}
