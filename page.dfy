/**
 * The voice page of client/src/app/page.js: the handlers it installs on the
 * browser's speech recognizer, the tap that starts or stops recognition, the
 * Clear button and the reply shown from `/api/Geminires`. The recognizer and
 * the HTTP call are not modelled: their events and results are inputs.
 */
module VoicePage {
  import opened Wrappers
  import opened SeqFacts
  import opened JsStrings

  /** One entry of `event.results`: whether it is final, and the transcript of its first alternative. */
  datatype SpeechResult = SpeechResult(isFinal: bool, transcript: string)

  /** A `result` event: the recognizer's results so far and the index of the first changed one. */
  datatype ResultEvent = ResultEvent(results: seq<SpeechResult>, resultIndex: nat)

  /** The transcripts of the results whose `isFinal` equals `wantFinal`, joined in order. */
  function Selected(rs: seq<SpeechResult>, wantFinal: bool): string {
    if rs == [] then ""
    else
      var last := rs[|rs| - 1];
      Selected(rs[..|rs| - 1], wantFinal) + (if last.isFinal == wantFinal then last.transcript else "")
  }

  /** Every transcript of `rs`, joined in order. */
  function AllText(rs: seq<SpeechResult>): string {
    if rs == [] then "" else AllText(rs[..|rs| - 1]) + rs[|rs| - 1].transcript
  }

  /** The results the `for` loop visits: from `resultIndex` to the end (none if it is past the end). */
  function Window(e: ResultEvent): (r: seq<SpeechResult>)
    ensures e.resultIndex <= |e.results| ==> |r| == |e.results| - e.resultIndex
    ensures e.resultIndex >= |e.results| ==> r == []
    ensures forall k :: 0 <= k < |r| ==> e.resultIndex + k < |e.results| && r[k] == e.results[e.resultIndex + k]
  {
    if e.resultIndex <= |e.results| then e.results[e.resultIndex..] else []
  }

  lemma {:induction false} SelectedAppend(a: seq<SpeechResult>, b: seq<SpeechResult>, wantFinal: bool)
    ensures Selected(a + b, wantFinal) == Selected(a, wantFinal) + Selected(b, wantFinal)
    decreases |b|
  {
    if b == [] {
      assert a + b == a;
    } else {
      var b' := b[..|b| - 1];
      assert (a + b)[..|a + b| - 1] == a + b';
      SelectedAppend(a, b', wantFinal);
    }
  }

  /**
   * Every result goes to exactly one of `final` and `interim`: together they
   * hold every character of the window's transcripts, each as often as there.
   */
  lemma {:induction false} SplitIsPartition(rs: seq<SpeechResult>)
    ensures multiset(Selected(rs, true) + Selected(rs, false)) == multiset(AllText(rs))
    ensures |Selected(rs, true)| + |Selected(rs, false)| == |AllText(rs)|
    decreases |rs|
  {
    if rs != [] {
      var init, last := rs[..|rs| - 1], rs[|rs| - 1];
      SplitIsPartition(init);
      var f, i, t := Selected(init, true), Selected(init, false), last.transcript;
      MultisetOfJoin(AllText(init), t);
      MultisetOfJoin(f, i);
      if last.isFinal {
        MultisetOfJoin(f + t, i);
        MultisetOfJoin(f, t);
      } else {
        MultisetOfJoin(f, i + t);
        MultisetOfJoin(i, t);
      }
    }
  }

  /** When every result is final there is no interim text, and `final` is the whole transcript. */
  lemma {:induction false} AllFinal(rs: seq<SpeechResult>)
    requires forall k :: 0 <= k < |rs| ==> rs[k].isFinal
    ensures Selected(rs, false) == "" && Selected(rs, true) == AllText(rs)
    decreases |rs|
  {
    if rs != [] {
      AllFinal(rs[..|rs| - 1]);
    }
  }

  /** The `for` loop of `onresult` (page.js:67-74): the final and the interim text of `e`. */
  method SplitResults(e: ResultEvent) returns (final: string, interim: string)
    ensures final == Selected(Window(e), true)
    ensures interim == Selected(Window(e), false)
  {
    interim := "";
    final := "";
    var i := e.resultIndex;
    while i < |e.results|
      invariant e.resultIndex <= i
      invariant i <= |e.results| ==> final == Selected(e.results[e.resultIndex..i], true)
      invariant i <= |e.results| ==> interim == Selected(e.results[e.resultIndex..i], false)
      invariant i > |e.results| ==> final == "" && interim == "" && i == e.resultIndex
    {
      var r := e.results[i];
      assert e.results[e.resultIndex..i + 1][..i - e.resultIndex] == e.results[e.resultIndex..i];
      if r.isFinal {
        final := final + r.transcript;
      } else {
        interim := interim + r.transcript;
      }
      i := i + 1;
    }
    assert i <= |e.results| ==> e.results[e.resultIndex..i] == Window(e);
  }

  /** The final-transcript buffer after `onstart` and then the result events `es`. */
  function BufferAfter(es: seq<ResultEvent>): string {
    if es == [] then "" else BufferAfter(es[..|es| - 1]) + Selected(Window(es[|es| - 1]), true)
  }

  /** The buffer only grows, event by event and in event order. */
  lemma {:induction false} BufferAfterAppend(a: seq<ResultEvent>, b: seq<ResultEvent>)
    ensures BufferAfter(a + b) == BufferAfter(a) + BufferAfter(b)
    decreases |b|
  {
    if b == [] {
      assert a + b == a;
    } else {
      var b', e := b[..|b| - 1], b[|b| - 1];
      LastSplit(b);
      Assoc(a, b', [e]);
      BufferStep(a + b', e);
      BufferStep(b', e);
      BufferAfterAppend(a, b');
      Assoc(BufferAfter(a), BufferAfter(b'), Selected(Window(e), true));
    }
  }

  lemma BufferStep(es: seq<ResultEvent>, e: ResultEvent)
    ensures BufferAfter(es + [e]) == BufferAfter(es) + Selected(Window(e), true)
  {
    assert (es + [e])[..|es|] == es;
  }

  /** What `onend` sends to the API: the trimmed buffer, and nothing when that is empty. */
  function Utterance(buffer: string): (r: Option<string>)
    ensures r.Some? <==> !AllWhitespace(buffer)
    ensures r.Some? ==> r.value == Trim(buffer) && r.value != ""
  {
    var finalText := Trim(buffer);
    if finalText != "" then Some(finalText) else None
  }

  /** Interim text never enters the buffer: a session of interim results sends nothing. */
  lemma {:induction false} InterimNeverBuffered(es: seq<ResultEvent>)
    requires forall n, k :: 0 <= n < |es| && 0 <= k < |Window(es[n])| ==> !Window(es[n])[k].isFinal
    ensures BufferAfter(es) == ""
    ensures Utterance(BufferAfter(es)).None?
    decreases |es|
  {
    if es != [] {
      var last := Window(es[|es| - 1]);
      InterimNeverBuffered(es[..|es| - 1]);
      assert forall k :: 0 <= k < |last| ==> last[k].isFinal == false;
      NoFinal(last);
    }
  }

  lemma {:induction false} NoFinal(rs: seq<SpeechResult>)
    requires forall k :: 0 <= k < |rs| ==> !rs[k].isFinal
    ensures Selected(rs, true) == ""
    decreases |rs|
  {
    if rs != [] {
      NoFinal(rs[..|rs| - 1]);
    }
  }

  /**
   * How the `/api/Geminires` call ended: `Unreachable` when the `fetch` or
   * `response.json()` rejects, or the body is `null` so that reading `reply`
   * throws; otherwise a body whose `reply` is a string or absent.
   */
  datatype ApiOutcome = Unreachable | Answered(reply: Option<string>)

  const NoReply: string := "No response from Gemini."
  const ConnectError: string := "Error: Could not connect to AI."

  /** The text `sendToAPI` shows: the reply, a fallback when it is missing or empty, or the error text. */
  function ResponseText(o: ApiOutcome): (r: string)
    ensures r != ""
    ensures o.Unreachable? ==> r == ConnectError
    ensures o.Answered? && o.reply.Some? && o.reply.value != "" ==> r == o.reply.value
    ensures o.Answered? && (o.reply.None? || o.reply.value == "") ==> r == NoReply
  {
    match o
    case Unreachable => ConnectError
    case Answered(reply) => if reply.Some? && reply.value != "" then reply.value else NoReply
  }

  /** A call the page makes on its recognizer. */
  datatype Command = Start | Stop

  const RecognitionProblem: string := "There was a problem with voice recognition."

  /** The page component `Home`: its state, its refs, and what it has asked of the world. */
  class Home {
    var isListening: bool
    var isRecognizing: bool
    var transcription: string
    var responseText: string
    var finalTranscript: string  // finalTranscriptRef.current
    var hasRecognizer: bool      // recognitionRef.current !== null
    var recognizersCreated: nat  // calls to `new SpeechRecognition()`
    var commands: seq<Command>   // start()/stop() calls on the recognizer
    var requests: seq<string>    // texts sent to /api/Geminires
    var alerts: nat              // "not supported" alerts
    const supported: bool        // the browser offers `SpeechRecognition` (page.js:6-8)

    /**
     * The recognizer is created at most once, is never used before it exists,
     * and never exists in a browser without speech recognition.
     */
    ghost predicate Valid()
      reads this
    {
      && recognizersCreated == (if hasRecognizer then 1 else 0)
      && (commands != [] ==> hasRecognizer)
      && (!supported ==> !hasRecognizer)
    }

    constructor (supported: bool)
      ensures Valid() && this.supported == supported
      ensures !isListening && !isRecognizing && transcription == "" && responseText == ""
      ensures finalTranscript == "" && !hasRecognizer && commands == [] && requests == [] && alerts == 0
    {
      isListening, isRecognizing := false, false;
      transcription, responseText, finalTranscript := "", "", "";
      hasRecognizer, recognizersCreated := false, 0;
      commands, requests, alerts := [], [], 0;
      this.supported := supported;
    }

    /** A tap on the microphone area (`startListening`). */
    method Tap()
      requires Valid()
      modifies this
      ensures Valid()
      ensures !supported ==> alerts == old(alerts) + 1 && commands == old(commands) && hasRecognizer == old(hasRecognizer)
      ensures supported ==> alerts == old(alerts) && hasRecognizer
      ensures supported ==> recognizersCreated == 1 && (old(hasRecognizer) ==> recognizersCreated == old(recognizersCreated))
      ensures supported ==> commands == old(commands) + [if old(isRecognizing) then Stop else Start]
      ensures isListening == old(isListening) && isRecognizing == old(isRecognizing)
      ensures transcription == old(transcription) && responseText == old(responseText)
      ensures finalTranscript == old(finalTranscript) && requests == old(requests)
    {
      if !supported {
        alerts := alerts + 1;
        return;
      }
      if !hasRecognizer {
        hasRecognizer := true;
        recognizersCreated := recognizersCreated + 1;
      }
      if !isRecognizing {
        commands := commands + [Start];
      } else {
        commands := commands + [Stop];
      }
    }

    /** `onstart`: recognition is on and the buffer, transcription and response are reset. */
    method OnStart()
      requires Valid()
      modifies this
      ensures Valid()
      ensures isRecognizing && isListening
      ensures transcription == "" && responseText == "" && finalTranscript == ""
      ensures hasRecognizer == old(hasRecognizer) && commands == old(commands)
      ensures requests == old(requests) && alerts == old(alerts)
    {
      isRecognizing := true;
      isListening := true;
      transcription := "";
      responseText := "";
      finalTranscript := "";
    }

    /** `onresult`: the display shows this event's text; the buffer grows by its final text only. */
    method OnResult(e: ResultEvent)
      requires Valid()
      modifies this
      ensures Valid()
      ensures transcription == Selected(Window(e), true) + Selected(Window(e), false)
      ensures finalTranscript == old(finalTranscript) + Selected(Window(e), true)
      ensures isListening == old(isListening) && isRecognizing == old(isRecognizing)
      ensures responseText == old(responseText) && hasRecognizer == old(hasRecognizer)
      ensures commands == old(commands) && requests == old(requests) && alerts == old(alerts)
    {
      var final, interim := SplitResults(e);
      transcription := final + interim;
      finalTranscript := finalTranscript + final;
    }

    /** `onend`: recognition is off; the trimmed buffer is sent if it is not empty. */
    method OnEnd()
      requires Valid()
      modifies this
      ensures Valid()
      ensures !isRecognizing && !isListening
      ensures requests == old(requests) + (match Utterance(old(finalTranscript)) case Some(t) => [t] case None => [])
      ensures transcription == old(transcription) && responseText == old(responseText)
      ensures finalTranscript == old(finalTranscript) && hasRecognizer == old(hasRecognizer)
      ensures commands == old(commands) && alerts == old(alerts)
    {
      isRecognizing := false;
      isListening := false;
      var finalText := Trim(finalTranscript);
      if finalText != "" {
        requests := requests + [finalText];
      }
    }

    /** `onerror`: the problem is shown and the listening indicator goes off. */
    method OnError()
      requires Valid()
      modifies this
      ensures Valid()
      ensures transcription == RecognitionProblem && !isListening
      ensures isRecognizing == old(isRecognizing) && responseText == old(responseText)
      ensures finalTranscript == old(finalTranscript) && hasRecognizer == old(hasRecognizer)
      ensures commands == old(commands) && requests == old(requests) && alerts == old(alerts)
    {
      transcription := RecognitionProblem;
      isListening := false;
    }

    /** The answer to a `sendToAPI` call arrives. */
    method OnApiResult(o: ApiOutcome)
      requires Valid()
      modifies this
      ensures Valid()
      ensures responseText == ResponseText(o)
      ensures isListening == old(isListening) && isRecognizing == old(isRecognizing)
      ensures transcription == old(transcription) && finalTranscript == old(finalTranscript)
      ensures hasRecognizer == old(hasRecognizer) && commands == old(commands)
      ensures requests == old(requests) && alerts == old(alerts)
    {
      responseText := ResponseText(o);
    }

    /** The Clear button: transcription, response and buffer are reset. */
    method Clear()
      requires Valid()
      modifies this
      ensures Valid()
      ensures transcription == "" && responseText == "" && finalTranscript == ""
      ensures isListening == old(isListening) && isRecognizing == old(isRecognizing)
      ensures hasRecognizer == old(hasRecognizer) && commands == old(commands)
      ensures requests == old(requests) && alerts == old(alerts)
    {
      transcription := "";
      responseText := "";
      finalTranscript := "";
    }
  }
}
