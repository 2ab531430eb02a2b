/** The caption route: rejects a request without text, answers a random
    fixed caption when no API key is configured or the text-generation call
    answers with a status that is not `ok`, answers 500 when that call
    throws, and otherwise cleans the generated text, replacing it by a fixed
    caption when fewer than 10 characters are left. The upstream outcome
    and the value of `Math.random()` are inputs. */
module GenerateCaption {
  import opened Common
  import opened JsString

  /** The six anime-style captions used whenever no generated caption is usable. */
  const FallbackCaptions: seq<string> := [
    "N-NANI?! This wasn't in the manga!",
    "My power level is OVER 9000!!!",
    "I'm not crying... it's just raining on my face!",
    "This isn't even my final form!",
    "Omae wa mou shindeiru (You are already dead)",
    "B-BAKA! It's not like I made this meme for you!"
  ]

  /** A caption is only answered when it has at least this many characters. */
  const MinCaptionLength: nat := 10

  /** The index drawn from a random number in [0, 1): the number scaled by
      the count of captions, rounded down (app/api/generate-caption/route.ts:25). */
  function FallbackIndex(random: real): (i: nat)
    requires 0.0 <= random < 1.0
    ensures i < |FallbackCaptions|
  {
    (random * |FallbackCaptions| as real).Floor
  }

  /** The fixed caption picked by the random draw; every one is long enough. */
  function Fallback(random: real): (c: string)
    requires 0.0 <= random < 1.0
    ensures c in FallbackCaptions
    ensures |c| >= MinCaptionLength
  {
    FallbackCaptions[FallbackIndex(random)]
  }

  /** How the text-generation request ended: the request or the reading of
      its JSON body threw (the `fetch` rejected, or an `ok` body was not
      JSON), a response that is not `ok` with its body text, or an `ok`
      response whose first element's `generated_text` is given when present. */
  datatype Upstream = Threw | Failed(body: string) | Succeeded(generatedText: Option<string>)

  /** The 200 answer: `{ caption, isApiConfigured, error? }`. */
  datatype CaptionResponse = CaptionResponse(caption: string, isApiConfigured: bool, error: Option<string>)

  /** The generated text of the first result, with the empty string when it
      is absent or falsy (app/api/generate-caption/route.ts:75). */
  function FirstGeneratedText(generatedText: Option<string>): (r: string)
    ensures r == "" <==> !Truthy(generatedText)
    ensures r != "" ==> generatedText == Some(r)
  {
    if Truthy(generatedText) then generatedText.value else ""
  }

  /** The generated text with the echoed prompt cut out, then trimmed. */
  function Clean(generated: string): (c: string)
    ensures |c| <= |generated|
    ensures c == [] || (!IsSpace(c[0]) && !IsSpace(c[|c| - 1]))
    ensures !Includes(generated, EchoPrefix) ==> c == Trim(generated)
  {
    Trim(RemovePromptEcho(generated))
  }

  /** The caption answered after a successful generation: the cleaned text
      when it is long enough, a fixed caption otherwise. */
  function CaptionFor(generated: string, random: real): (c: string)
    requires 0.0 <= random < 1.0
    ensures |c| >= MinCaptionLength
    ensures |Clean(generated)| >= MinCaptionLength ==> c == Clean(generated)
    ensures |Clean(generated)| < MinCaptionLength ==> c in FallbackCaptions
  {
    var caption := Clean(generated);
    if caption == "" || |caption| < MinCaptionLength then Fallback(random) else caption
  }

  /** The route handler. `apiKey` is the configured key, `upstream` the
      outcome of the generation request the handler would send, and `random`
      the value `Math.random()` returns. */
  function Post(text: Option<string>, apiKey: Option<string>, upstream: Upstream, random: real): (r: Result<CaptionResponse>)
    requires 0.0 <= random < 1.0
    ensures r.Err? <==> !Truthy(text) || (Truthy(apiKey) && upstream.Threw?)
    ensures r.Err? && !Truthy(text) ==> r.error == HttpError(400, "No text provided")
    ensures r.Err? && Truthy(text) ==> r.error == HttpError(500, "Internal server error")
    ensures r.Ok? ==> |r.value.caption| >= MinCaptionLength
    ensures r.Ok? ==> (r.value.isApiConfigured <==> Truthy(apiKey))
    ensures r.Ok? && !Truthy(apiKey) ==> r.value.caption in FallbackCaptions && r.value.error.None?
    ensures r.Ok? && Truthy(apiKey) && upstream.Failed? ==>
              r.value.caption in FallbackCaptions && r.value.error == Some(upstream.body)
    ensures r.Ok? && Truthy(apiKey) && upstream.Succeeded? ==> r.value.error.None?
  {
    if !Truthy(text) then Err(HttpError(400, "No text provided"))
    else if !Truthy(apiKey) then Ok(CaptionResponse(Fallback(random), false, None))
    else
      match upstream
      case Threw => Err(HttpError(500, "Internal server error"))
      case Failed(body) => Ok(CaptionResponse(Fallback(random), true, Some(body)))
      case Succeeded(generatedText) =>
        Ok(CaptionResponse(CaptionFor(FirstGeneratedText(generatedText), random), true, None))
  }

  /** Without a key the upstream is never consulted: its outcome cannot
      change the answer. */
  lemma NoKeyIgnoresUpstream(text: Option<string>, apiKey: Option<string>, u: Upstream, u': Upstream, random: real)
    requires 0.0 <= random < 1.0
    requires !Truthy(apiKey)
    ensures Post(text, apiKey, u, random) == Post(text, apiKey, u', random)
  {
  }

  /** Cleaning a generation that echoes the sent prompt leaves the trimmed
      continuation (for text without quotes or line breaks). */
  lemma CleanEchoedGeneration(text: string, continuation: string)
    requires forall m :: 0 <= m < |text| ==> text[m] != '"' && !IsLineTerminator(text[m])
    ensures Clean(PromptFor(text) + continuation) == Trim(continuation)
  {
    EchoedPromptRemoved(text, continuation);
  }

  /** On success with a key, a generation whose cleaned text is long enough
      is answered as that cleaned text. */
  lemma UsableGenerationAnswered(text: string, apiKey: string, generated: string, random: real)
    requires 0.0 <= random < 1.0
    requires text != "" && apiKey != ""
    ensures |Clean(generated)| >= MinCaptionLength ==>
              Post(Some(text), Some(apiKey), Succeeded(Some(generated)), random) ==
              Ok(CaptionResponse(Clean(generated), true, None))
  {
    UsableCaption(generated, random);
  }

  /** A long enough cleaned generation is the caption itself: a non-empty
      text is the first generated text as is. */
  lemma UsableCaption(generated: string, random: real)
    requires 0.0 <= random < 1.0
    ensures |Clean(generated)| >= MinCaptionLength ==>
              CaptionFor(FirstGeneratedText(Some(generated)), random) == Clean(generated)
  {
    if |Clean(generated)| >= MinCaptionLength {
      assert generated != "";
    }
  }

  /** When the model echoes the prompt it was sent and continues with at
      least 10 characters of caption, the answer is exactly that
      continuation, trimmed (for text without quotes or line breaks). */
  lemma EchoedGenerationYieldsContinuation(text: string, apiKey: string, continuation: string, random: real)
    requires 0.0 <= random < 1.0
    requires text != "" && apiKey != ""
    requires forall m :: 0 <= m < |text| ==> text[m] != '"' && !IsLineTerminator(text[m])
    requires |Trim(continuation)| >= MinCaptionLength
    ensures Post(Some(text), Some(apiKey), Succeeded(Some(PromptFor(text) + continuation)), random) ==
            Ok(CaptionResponse(Trim(continuation), true, None))
  {
    CleanEchoedGeneration(text, continuation);
    UsableGenerationAnswered(text, apiKey, PromptFor(text) + continuation, random);
  }

  /** On success with a key, a generation whose cleaned text is too short
      is replaced by the fixed caption the random draw picks. */
  lemma UnusableGenerationFallsBack(text: string, apiKey: string, generated: string, random: real)
    requires 0.0 <= random < 1.0
    requires text != "" && apiKey != ""
    ensures |Clean(generated)| < MinCaptionLength ==>
              Post(Some(text), Some(apiKey), Succeeded(Some(generated)), random) ==
              Ok(CaptionResponse(Fallback(random), true, None))
  {
    if |Clean(generated)| < MinCaptionLength {
      var first := FirstGeneratedText(Some(generated));
      assert first == generated by {
        if generated == "" {
          assert first == "";
        }
      }
      assert CaptionFor(generated, random) == Fallback(random);
    }
  }

  /** An `ok` response without a generated text (or with an empty one) is
      treated as the empty caption, which is too short: a fixed caption is
      answered. */
  lemma MissingGenerationFallsBack(text: string, apiKey: string, generatedText: Option<string>, random: real)
    requires 0.0 <= random < 1.0
    requires text != "" && apiKey != ""
    requires !Truthy(generatedText)
    ensures Post(Some(text), Some(apiKey), Succeeded(generatedText), random) ==
            Ok(CaptionResponse(Fallback(random), true, None))
  {
    assert |Clean("")| == 0;
  }

  /** A generation that is only the echoed prompt plus white space is
      replaced by a fixed caption. */
  lemma BareEchoFallsBack(text: string, apiKey: string, spaces: string, random: real)
    requires 0.0 <= random < 1.0
    requires text != "" && apiKey != ""
    requires forall m :: 0 <= m < |text| ==> text[m] != '"' && !IsLineTerminator(text[m])
    requires AllSpace(spaces)
    ensures Post(Some(text), Some(apiKey), Succeeded(Some(PromptFor(text) + spaces)), random) ==
            Ok(CaptionResponse(Fallback(random), true, None))
  {
    CleanEchoedGeneration(text, spaces);
    assert Trim(spaces) == [];
    UnusableGenerationFallsBack(text, apiKey, PromptFor(text) + spaces, random);
  }
}
