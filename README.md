# MemeKage request logic, in Dafny

MemeKage is a voice-to-meme web application. The user speaks, the speech
becomes text, and a route derives a caption and an emotion label from it.
A background image is picked for that emotion, and the user edits the look
of the meme in a settings panel. This project models the parts of it that
are self-contained logic. Each is proved against a specification.

- **Keyword emotion classifier** (`detect_emotion.dfy`, module
  `DetectEmotion`). The text is lowercased and scored against three fixed
  keyword lists. A list's score is the number of its entries that occur as
  substrings. A `while` loop over the table keeps the running maximum.
  The loop is proved to return the first emotion, in table order, that has
  the largest score. Its answer is tied to `Respond`, a function of the
  request.
- **Settings editor** (`meme_customizer.dfy`, module `MemeCustomizer`). The
  nested `MemeSettings` record is a datatype. Each of the six handlers is a
  function from the current settings to the new value that it passes to
  `onCustomize`. Fields are addressed by path (`Get`/`Set`), so every handler
  can state "this field takes the value, every other field keeps its own".
  The filter and sticker toggles are the list operation "remove every
  occurrence if present, else append".
- **Meme route** (`generate_meme.dfy`, module `GenerateMeme`). The caption is
  checked. The emotion is looked up in the three-entry image table, falling
  back to `surprised`.
- **Caption route** (`generate_caption.dfy`, module `GenerateCaption`). It
  rejects missing text and otherwise answers one of six fixed captions when
  no API key is set or the generation call answers with a status that is
  not `ok`. When that call throws (the `fetch` rejects, or an `ok` body is
  not JSON) the route answers 500. On success it cuts the
  echoed prompt out of the generated text, trims it, and replaces it by a
  fixed caption when fewer than 10 characters are left. The upstream
  response and the value of `Math.random()` are parameters.
- **String built-ins** (`js_string.dfy`, module `JsString`). `toLowerCase`,
  `includes`, `trim` and the one regular-expression `replace` are modelled
  over ASCII. The regex `/Convert this to a funny anime meme caption: ".*?"/`
  is modelled exactly: the leftmost start, a lazy match up to the first
  quote, and `.` not matching line terminators.
- `common.dfy` (module `Common`) holds the optional request field, the
  route result with its HTTP error, and JavaScript truthiness of a string.

Each route is a function (or, for the scoring loop, a method) from the
request fields to either `Ok(body)` or `Err(HttpError(status, message))`.
A missing JSON field is `None`. The source's `!x` test on a string is
`Truthy`: present and non-empty.

Two behaviours of the settings handlers are worth stating plainly:
- `filters` (and `stickers`) is a list, not a set. The toggle removes every
  copy of an id that is present, or appends one copy of an id that is absent.
- The effect handlers store whatever value they are given; they do not clamp
  it. The slider ranges live only in the UI.

## Model

| member | source | states |
|---|---|---|
| `JsString.ToLower` | app/api/detect-emotion/route.ts:72 | lowercasing keeps the length, lowers every ASCII letter, leaves every other character alone, and leaves no upper-case letter |
| `JsString.LowerCaseFixed` | app/api/detect-emotion/route.ts:72 | text without upper-case letters is its own lower case |
| `JsString.ToLowerIdempotent` | app/api/detect-emotion/route.ts:72 | lowercasing twice equals lowercasing once |
| `JsString.Includes` | app/api/detect-emotion/route.ts:78 | `includes` is true for the empty needle and for the text itself, and false for a needle longer than the text |
| `JsString.IncludesIffOccurs` | app/api/detect-emotion/route.ts:78 | `includes` holds exactly when the needle occurs at some index of the text |
| `JsString.ContentStart` | app/api/generate-caption/route.ts:78 | the scan from an index stops at the first character that is not white space, or at the end, and passes only white space |
| `JsString.ContentEnd` | app/api/generate-caption/route.ts:78 | the scan back from an index stops just after the last character that is not white space, or at the lower bound, and passes only white space |
| `JsString.Trim` | app/api/generate-caption/route.ts:78 | the result occurs inside the input with only white space on either side, and neither starts nor ends with white space |
| `JsString.ClosingQuote` | app/api/generate-caption/route.ts:78 | the lazy `.*?"` ends at the first quote when no line terminator precedes it, and fails exactly when every quote comes after a line terminator |
| `JsString.MatchAt` | app/api/generate-caption/route.ts:78 | the pattern matches at an index exactly when the literal prefix occurs there and a closing quote follows with no line terminator before it; the match ends after the prefix |
| `JsString.MatchEndsAfterFirstQuote` | app/api/generate-caption/route.ts:78 | a match ends just after a quote, and between the prefix and that quote there is neither a quote nor a line terminator |
| `JsString.QuoteClosesMatch` | app/api/generate-caption/route.ts:78 | the prefix, a run without quotes or line terminators, and a quote always form a match ending after that quote |
| `JsString.FindEcho` | app/api/generate-caption/route.ts:78 | the match found is the leftmost one; none is found only when no index matches |
| `JsString.RemovePromptEcho` | app/api/generate-caption/route.ts:78 | `replace` never lengthens the text, and keeps it unchanged when the prefix does not occur |
| `JsString.NoMatchKeepsText` | app/api/generate-caption/route.ts:78 | where the pattern matches at no index, `replace` keeps the text unchanged |
| `JsString.CutsLeftmostMatch` | app/api/generate-caption/route.ts:78 | for any text, when the pattern matches `s[b..e]` and at no earlier index, `replace` removes exactly that span |
| `JsString.EchoCutAtFirstQuote` | app/api/generate-caption/route.ts:78 | the prefix, a run without quotes or line breaks, and a quote are cut, leaving exactly what follows |
| `JsString.EchoedPromptRemoved` | app/api/generate-caption/route.ts:41-78 | generated text that echoes the sent prompt loses exactly that prompt, when the user's text has no quote or line break |
| `JsString.QuoteInTextCutsEchoShort` | app/api/generate-caption/route.ts:41-78 | a quote inside the user's text ends the match early, so the rest of the text and the closing quote stay in the caption |
| `JsString.PromptFor` | app/api/generate-caption/route.ts:41 | the prompt sent upstream is the literal prefix, then the user's text, then a closing quote |
| `Common.Truthy` | app/api/generate-caption/route.ts:7-13 | `!x` on a JSON string field is false exactly for an absent field and for the empty string |
| `DetectEmotion.Name` | app/api/detect-emotion/route.ts:15-28 | the answered label is always one of `surprised`, `blushing`, `shocked` |
| `DetectEmotion.Rank` | app/api/detect-emotion/route.ts:15-28 | each emotion has its own entry in the table, in declaration order |
| `DetectEmotion.MatchCount` | app/api/detect-emotion/route.ts:78 | the score is at most the list length, and is positive exactly when some entry of the list occurs in the text |
| `DetectEmotion.MatchCountAppend` | app/api/detect-emotion/route.ts:78 | the score of a concatenated list is the sum of the scores of its parts |
| `DetectEmotion.MatchCountDependsOnEntriesOnly` | app/api/detect-emotion/route.ts:78 | the score counts entries that occur, not occurrences: texts in which the same entries occur score the same |
| `DetectEmotion.WowCountsTwice` | app/api/detect-emotion/route.ts:17-18 | the duplicated entry "wow" alone gives "surprised" a score of at least 2 |
| `DetectEmotion.Winner` | app/api/detect-emotion/route.ts:73-83 | the reference winner has the maximum score, and every emotion before it in table order scores strictly less |
| `DetectEmotion.WinnerIsFirstMaximum` | app/api/detect-emotion/route.ts:77-83 | the reference winner has the maximum score with every earlier emotion strictly lower, and it is the only emotion with that property |
| `DetectEmotion.ScoreKeywords` | app/api/detect-emotion/route.ts:73-83 | the loop returns the maximum score and an emotion that reaches it; ties go to the earliest emotion in table order, because the update needs a strictly larger score |
| `DetectEmotion.Respond` | app/api/detect-emotion/route.ts:32-89 | falsy text is an error; otherwise the answered emotion is the first maximum of the scores of the lowered text, with confidence "high" exactly when its score is positive |
| `DetectEmotion.Post` | app/api/detect-emotion/route.ts:32-89 | missing or empty text gives 400 "No text provided"; otherwise the answer has method "keyword" and equals `Respond` |
| `DetectEmotion.HighIffSomeKeyword` | app/api/detect-emotion/route.ts:78-88 | the confidence is "high" exactly when some keyword of some list occurs in the lowered text |
| `DetectEmotion.NoKeywordGivesSurprisedLow` | app/api/detect-emotion/route.ts:73-88 | with no keyword present the answer is "surprised" with confidence "low" |
| `DetectEmotion.SingleEmotionWins` | app/api/detect-emotion/route.ts:77-88 | when only one emotion's keywords occur, that emotion is answered with confidence "high" |
| `DetectEmotion.CaseInsensitive` | app/api/detect-emotion/route.ts:32-72 | a text and its lower case get the same answer, whatever `useAI` is |
| `DetectEmotion.SameEntriesSameAnswer` | app/api/detect-emotion/route.ts:78 | texts in which the same keyword entries occur get the same answer, however often each one occurs |
| `MemeCustomizer.Get` | components/meme-customizer.tsx:26-55 | every field holds a value of its declared type |
| `MemeCustomizer.Set` | components/meme-customizer.tsx:92-152 | the spread update gives the addressed field the new value, and every other field keeps its value |
| `MemeCustomizer.TextExtensional` | components/meme-customizer.tsx:27-40 | two text settings that agree on every text field are equal |
| `MemeCustomizer.EffectsExtensional` | components/meme-customizer.tsx:41-46 | two effect settings that agree on every effect field are equal |
| `MemeCustomizer.DalleExtensional` | components/meme-customizer.tsx:49-54 | two DALL-E settings that agree on every DALL-E field are equal |
| `MemeCustomizer.SettingsExtensional` | components/meme-customizer.tsx:26-55 | two settings values that agree on every field are equal, so the field-wise contracts determine each handler's result |
| `MemeCustomizer.SetCurrentValueIsIdentity` | components/meme-customizer.tsx:92-152 | writing a field's current value back returns the same settings |
| `MemeCustomizer.SetLastWriteWins` | components/meme-customizer.tsx:92-152 | of two edits to one field, only the later one shows |
| `MemeCustomizer.SetsCommute` | components/meme-customizer.tsx:92-152 | edits to different fields can be applied in either order |
| `MemeCustomizer.RemoveAll` | components/meme-customizer.tsx:114 | `filter` drops every occurrence of the id, keeps every other element with its multiplicity, and keeps their order |
| `MemeCustomizer.Toggle` | components/meme-customizer.tsx:113-115 | membership of the toggled id flips and membership of every other id is unchanged; present ids are removed everywhere, absent ids are appended at the end with the old list untouched |
| `MemeCustomizer.RemoveAllAbsent` | components/meme-customizer.tsx:114 | removing an id that is absent changes nothing |
| `MemeCustomizer.RemoveAllAppend` | components/meme-customizer.tsx:114 | removal distributes over concatenation |
| `MemeCustomizer.ToggleTwiceAbsent` | components/meme-customizer.tsx:112-116 | toggling an absent id twice restores the list |
| `MemeCustomizer.ToggleTwicePresent` | components/meme-customizer.tsx:112-116 | toggling a present id twice leaves one copy, moved to the end |
| `MemeCustomizer.ToggleKeepsNoDuplicates` | components/meme-customizer.tsx:112-116 | a duplicate-free list stays duplicate-free |
| `MemeCustomizer.ToggleStaysWithin` | components/meme-customizer.tsx:112-116 | toggling an id of a catalogue keeps a list within that catalogue |
| `MemeCustomizer.HandleTextChange` | components/meme-customizer.tsx:92-100 | the chosen text field takes the value; every other text field and every other top-level field is unchanged |
| `MemeCustomizer.HandleEffectChange` | components/meme-customizer.tsx:102-110 | the chosen effect takes the value; everything else is unchanged |
| `MemeCustomizer.HandleFilterToggle` | components/meme-customizer.tsx:112-121 | `filters` becomes the toggled list; no other field changes |
| `MemeCustomizer.HandleStickerToggle` | components/meme-customizer.tsx:123-132 | `stickers` becomes the toggled list; no other field changes |
| `MemeCustomizer.HandleDalleToggle` | components/meme-customizer.tsx:134-142 | only `dalle.enabled` changes; prompt, style, size and all other settings are unchanged |
| `MemeCustomizer.HandleDalleChange` | components/meme-customizer.tsx:144-152 | the chosen DALL-E field takes the value; everything else is unchanged |
| `MemeCustomizer.FilterToggleTwiceRestores` | components/meme-customizer.tsx:112-121 | clicking an inactive filter twice gives back the original settings |
| `MemeCustomizer.StickerToggleTwiceRestores` | components/meme-customizer.tsx:123-132 | clicking an unselected sticker twice gives back the original settings |
| `MemeCustomizer.FilterButtonsKeepCatalogue` | components/meme-customizer.tsx:335-338 | the filter buttons keep `filters` duplicate-free and within the five known filter ids |
| `MemeCustomizer.StickerButtonsKeepCatalogue` | components/meme-customizer.tsx:353-359 | the sticker buttons keep `stickers` duplicate-free and within the nine known sticker names |
| `GenerateMeme.LookupFalsy` | app/api/generate-meme/route.ts:20 | the lookup is falsy exactly for a key that is not in the table, since no entry is empty |
| `GenerateMeme.ValidEmotion` | app/api/generate-meme/route.ts:19-22 | a known emotion is kept; a missing, empty or unknown one becomes "surprised"; the result is always a key of the table |
| `GenerateMeme.Post` | app/api/generate-meme/route.ts:14-28 | missing or empty caption gives 400 "No caption provided"; otherwise the image path is the table entry of the emotion, or the surprised image as fallback, and the caption and the constant message are echoed |
| `GenerateMeme.ImagePathIsBundled` | app/api/generate-meme/route.ts:4-26 | the image path is always one of the three bundled images |
| `GenerateMeme.DetectedEmotionKeepsItsImage` | app/api/generate-meme/route.ts:4-26 | every label the emotion route answers is a key of the table, so it gets its own image and never the fallback |
| `GenerateCaption.FallbackIndex` | app/api/generate-caption/route.ts:25 | `floor(random * 6)` lies in [0, 6) for `random` in [0, 1) |
| `GenerateCaption.Fallback` | app/api/generate-caption/route.ts:17-25 | the drawn caption is one of the six fixed captions and has at least 10 characters |
| `GenerateCaption.FirstGeneratedText` | app/api/generate-caption/route.ts:75 | the text is empty exactly when the first generated text is absent or falsy, and otherwise is that text |
| `GenerateCaption.Clean` | app/api/generate-caption/route.ts:75-78 | the cleaned caption is no longer than the generated text, has no white space at either end, and is the trimmed text when the prompt prefix does not occur |
| `GenerateCaption.CaptionFor` | app/api/generate-caption/route.ts:75-92 | a cleaned caption of 10 or more characters is answered as is; a shorter or empty one is replaced by a fixed caption |
| `GenerateCaption.Post` | app/api/generate-caption/route.ts:5-100 | missing text gives 400 before anything else; without a key a fixed caption with `isApiConfigured` false; with a key, a call that throws gives 500 "Internal server error", and a response that is not `ok` gives a fixed caption, `isApiConfigured` true and the error body; every 200 caption has at least 10 characters |
| `GenerateCaption.NoKeyIgnoresUpstream` | app/api/generate-caption/route.ts:12-30 | without a key the upstream outcome cannot affect the answer |
| `GenerateCaption.CleanEchoedGeneration` | app/api/generate-caption/route.ts:41-78 | cleaning a generation that starts with the echoed prompt leaves exactly the trimmed continuation, when the user's text has no quote or line break |
| `GenerateCaption.UsableCaption` | app/api/generate-caption/route.ts:75-92 | a generation whose cleaned text has at least 10 characters is non-empty and becomes that cleaned text |
| `GenerateCaption.UsableGenerationAnswered` | app/api/generate-caption/route.ts:72-97 | with a key and a successful call, a cleaned generation of at least 10 characters is answered as is, with `isApiConfigured` true and no error |
| `GenerateCaption.EchoedGenerationYieldsContinuation` | app/api/generate-caption/route.ts:41-97 | when the model echoes its prompt and continues with at least 10 characters, the caption is exactly that continuation, trimmed |
| `GenerateCaption.UnusableGenerationFallsBack` | app/api/generate-caption/route.ts:72-97 | with a key and a successful call, a cleaned generation shorter than 10 characters is replaced by the fixed caption the random draw picks |
| `GenerateCaption.MissingGenerationFallsBack` | app/api/generate-caption/route.ts:72-92 | an `ok` response with no generated text, or an empty one, defaults to the empty caption and gets a fixed caption |
| `GenerateCaption.BareEchoFallsBack` | app/api/generate-caption/route.ts:75-92 | a generation that is only the echoed prompt and white space is replaced by a fixed caption |

## Left out

- The 500 "Internal server error" answers of the `catch` blocks are modelled only for the caption route's generation call (`Upstream.Threw`: the `fetch` rejects or an `ok` body is not JSON). The 500s that arise when `request.json()` fails or a non-string field reaches a string method are not modelled: request fields are modelled as absent or a string.
- The commented-out OpenAI branch of the emotion route is not modelled. `useAI` is accepted and has no effect, as in the code.
- `toLowerCase` and `trim` are modelled over ASCII letters and ASCII white space only. Lengths are counted in characters, not UTF-16 code units.
- The Hugging Face request (app/api/generate-caption/route.ts:34-48), reading the API key from the environment, and `Math.random()` are inputs: an `Upstream` outcome, an optional key string, and a real number in [0, 1).
- An `ok` body that is JSON but whose first element cannot be read (for example `null`, which makes `result[0]` throw) is one more way to reach `Threw`. Otherwise the first `generated_text` is given as an optional string.
- `console` logging is left out.
- `EmotionImages` is a finite map over exactly its three keys. In JavaScript, an object-prototype key such as `"toString"` would pass the lookup check; the model does not capture that.
- MemeCustomizer.HandleTextChange requires a value of the field's declared type, although the handler's value parameter is typed `any`; a wrongly typed value stored by JavaScript is not modelled.
- MemeCustomizer.HandleDalleChange requires a value of the field's declared type, for the same reason.
- Numbers in the settings are `real`, not IEEE doubles. The handlers do no arithmetic on them.
- React state (`activeTab`), rendering, the slider ranges and the `onCustomize` callback itself are left out. A handler's result is the value it passes to `onCustomize`.
- The position sliders that build a new `position` value before calling `handleTextChange` (components/meme-customizer.tsx:262, 272) are UI code and are left out.
- The canvas compositing, word wrap and image filters are not modelled: no such code is in the files this model covers.
- The two `meme-generator.tsx` components (recording, `fetch` orchestration, download and share), and the storage, transcription, background, health and fallback routes are I/O glue and are not modelled.
