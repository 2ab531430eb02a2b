/** The meme route: checks the caption, falls back to "surprised" for a
    missing or unknown emotion, and answers with the background image path
    for client-side drawing. */
module GenerateMeme {
  import opened Common
  import DetectEmotion

  /** `EMOTION_IMAGES`, as a finite map over exactly its three keys. */
  const EmotionImages: map<string, string> := map[
    "surprised" := "/images/surprised.jpg",
    "blushing" := "/images/blushing.jpg",
    "shocked" := "/images/shocked.jpg"
  ]

  const ClientSideMessage: string := "Use client-side canvas for meme generation"

  /** The 200 answer: `{ imagePath, caption, message }`. */
  datatype MemeResponse = MemeResponse(imagePath: string, caption: string, message: string)

  /** The table lookup is falsy: undefined or the empty string. No entry of
      the table is empty, so this is exactly an unknown key. */
  predicate LookupFalsy(e: string): (r: bool)
    ensures r <==> e !in EmotionImages
  {
    e !in EmotionImages || EmotionImages[e] == ""
  }

  /** `validEmotion` after the fallback: the requested emotion when it is a
      key of the table, "surprised" otherwise (missing, empty or unknown). */
  function ValidEmotion(emotion: Option<string>): (r: string)
    ensures r in EmotionImages
    ensures emotion.Some? && emotion.value in EmotionImages ==> r == emotion.value
    ensures !(emotion.Some? && emotion.value in EmotionImages) ==> r == "surprised"
  {
    if !Truthy(emotion) || LookupFalsy(emotion.value) then "surprised" else emotion.value
  }

  /** The route handler. */
  function Post(caption: Option<string>, emotion: Option<string>): (r: Result<MemeResponse>)
    ensures r.Err? <==> !Truthy(caption)
    ensures r.Err? ==> r.error == HttpError(400, "No caption provided")
    ensures r.Ok? ==> r.value.caption == caption.value && r.value.message == ClientSideMessage
    ensures r.Ok? ==> r.value.imagePath in EmotionImages.Values
    ensures r.Ok? && emotion.Some? && emotion.value in EmotionImages ==>
              r.value.imagePath == EmotionImages[emotion.value]
    ensures r.Ok? && !(emotion.Some? && emotion.value in EmotionImages) ==>
              r.value.imagePath == "/images/surprised.jpg"
  {
    if !Truthy(caption) then Err(HttpError(400, "No caption provided"))
    else
      var validEmotion := ValidEmotion(emotion);
      Ok(MemeResponse(EmotionImages[validEmotion], caption.value, ClientSideMessage))
  }

  /** The image path is always one of the three bundled images. */
  lemma ImagePathIsBundled(caption: Option<string>, emotion: Option<string>)
    requires Truthy(caption)
    ensures Post(caption, emotion).Ok?
    ensures Post(caption, emotion).value.imagePath in
              {"/images/surprised.jpg", "/images/blushing.jpg", "/images/shocked.jpg"}
  {
    assert EmotionImages.Values == {"/images/surprised.jpg", "/images/blushing.jpg", "/images/shocked.jpg"} by {
      assert EmotionImages["surprised"] == "/images/surprised.jpg";
      assert EmotionImages["blushing"] == "/images/blushing.jpg";
      assert EmotionImages["shocked"] == "/images/shocked.jpg";
    }
  }

  /** Every label the emotion route can answer is a key of the table, so
      the fallback never replaces a detected emotion: its own image is used. */
  lemma DetectedEmotionKeepsItsImage(caption: string, e: DetectEmotion.Emotion)
    requires caption != ""
    ensures Post(Some(caption), Some(DetectEmotion.Name(e))) ==
              Ok(MemeResponse("/images/" + DetectEmotion.Name(e) + ".jpg", caption, ClientSideMessage))
  {
    match e
    case Surprised => assert EmotionImages["surprised"] == "/images/" + "surprised" + ".jpg";
    case Blushing => assert EmotionImages["blushing"] == "/images/" + "blushing" + ".jpg";
    case Shocked => assert EmotionImages["shocked"] == "/images/" + "shocked" + ".jpg";
  }
}
