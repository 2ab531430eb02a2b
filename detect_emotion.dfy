/** The keyword classifier of the emotion-detection route: the lowered text
    is scored against a fixed keyword list per emotion, and the emotion with
    the strictly largest score wins, starting from "surprised" with 0. */
module DetectEmotion {
  import opened Common
  import opened JsString

  datatype Emotion = Surprised | Blushing | Shocked

  /** The label the route answers with, also the key of the image table. */
  function Name(e: Emotion): (r: string)
    ensures r in {"surprised", "blushing", "shocked"}
  {
    match e
    case Surprised => "surprised"
    case Blushing => "blushing"
    case Shocked => "shocked"
  }

  datatype Confidence = High | Low

  /** The 200 answer of the route: `{ emotion, method, confidence }` (`methodName` is `method`). */
  datatype Detection = Detection(emotion: Emotion, methodName: string, confidence: Confidence)

  // "wow" is listed twice, and an occurrence of it counts for both entries.
  const SurprisedKeywords: seq<string> := [
    "wow", "oh", "what", "surprise", "amazing", "unexpected", "shock", "surprised",
    "surprising", "incredible", "unbelievable", "wow", "whoa", "holy", "my god"
  ]

  const BlushingKeywords: seq<string> := [
    "cute", "adorable", "embarrassed", "shy", "blush", "flustered", "nervous",
    "awkward", "sweet", "lovely", "pretty", "beautiful", "handsome", "attractive"
  ]

  const ShockedKeywords: seq<string> := [
    "shocked", "horrified", "terrified", "scared", "frightened", "afraid",
    "fear", "horror", "terror", "scary", "frightening", "terrifying"
  ]

  /** The keyword table in declaration order, the order `Object.entries` visits it. */
  const Table: seq<(Emotion, seq<string>)> := [
    (Surprised, SurprisedKeywords),
    (Blushing, BlushingKeywords),
    (Shocked, ShockedKeywords)
  ]

  /** The position of an emotion's entry in the table. */
  function Rank(e: Emotion): (r: nat)
    ensures r < |Table| && Table[r].0 == e
  {
    match e
    case Surprised => 0
    case Blushing => 1
    case Shocked => 2
  }

  function KeywordsOf(e: Emotion): seq<string>
  {
    Table[Rank(e)].1
  }

  /** The number of list entries that occur in the text, however often each
      occurs: the length of the keyword list filtered by `includes`
      (app/api/detect-emotion/route.ts:78). */
  function MatchCount(lowerText: string, keywords: seq<string>): (r: nat)
    ensures r <= |keywords|
    ensures r > 0 <==> exists i :: 0 <= i < |keywords| && Includes(lowerText, keywords[i])
  {
    if keywords == [] then 0
    else
      var rest := MatchCount(lowerText, keywords[1..]);
      assert forall i :: 0 < i < |keywords| ==> keywords[i] == keywords[1..][i - 1];
      (if Includes(lowerText, keywords[0]) then 1 else 0) + rest
  }

  /** The score of one emotion. */
  function Count(lowerText: string, e: Emotion): nat
  {
    MatchCount(lowerText, KeywordsOf(e))
  }

  /** Counting distributes over splitting the keyword list. */
  lemma {:induction false} MatchCountAppend(lowerText: string, a: seq<string>, b: seq<string>)
    ensures MatchCount(lowerText, a + b) == MatchCount(lowerText, a) + MatchCount(lowerText, b)
  {
    if a != [] {
      assert (a + b)[0] == a[0] && (a + b)[1..] == a[1..] + b;
      MatchCountAppend(lowerText, a[1..], b);
    } else {
      assert a + b == b;
    }
  }

  /** The score depends only on WHICH entries occur: two texts in which the
      same entries occur score the same, whatever the number of occurrences. */
  lemma {:induction false} MatchCountDependsOnEntriesOnly(t1: string, t2: string, keywords: seq<string>)
    requires forall i :: 0 <= i < |keywords| ==> (Includes(t1, keywords[i]) <==> Includes(t2, keywords[i]))
    ensures MatchCount(t1, keywords) == MatchCount(t2, keywords)
  {
    if keywords != [] {
      assert forall i :: 0 <= i < |keywords| - 1 ==> keywords[1..][i] == keywords[i + 1];
      MatchCountDependsOnEntriesOnly(t1, t2, keywords[1..]);
    }
  }

  /** The duplicated entry "wow" scores two for "surprised" on its own. */
  lemma WowCountsTwice(lowerText: string)
    requires Includes(lowerText, "wow")
    ensures Count(lowerText, Surprised) >= 2
  {
    var ks := SurprisedKeywords;
    assert ks == ks[..11] + ks[11..];
    MatchCountAppend(lowerText, ks[..11], ks[11..]);
    assert ks[..11][0] == "wow" && ks[11..][0] == "wow";
  }

  /** The emotion `e` with score `n` is the one the scoring loop must pick:
      its score is the maximum, and every emotion before it in the table
      scores strictly less (the update needs a strictly larger score). */
  predicate IsFirstMaximum(lowerText: string, e: Emotion, n: nat)
  {
    && Count(lowerText, e) == n
    && (forall e' :: Count(lowerText, e') <= n)
    && (forall e' :: Rank(e') < Rank(e) ==> Count(lowerText, e') < n)
  }

  /** The first maximum, written out for the three entries of the table. */
  function Winner(lowerText: string): (r: Emotion)
    ensures forall e :: Count(lowerText, e) <= Count(lowerText, r)
    ensures forall e :: Rank(e) < Rank(r) ==> Count(lowerText, e) < Count(lowerText, r)
  {
    var s, b, h := Count(lowerText, Surprised), Count(lowerText, Blushing), Count(lowerText, Shocked);
    if s >= b && s >= h then Surprised
    else if b >= h then Blushing
    else Shocked
  }

  /** `Winner` is the first maximum, and the only one. */
  lemma WinnerIsFirstMaximum(lowerText: string, e: Emotion, n: nat)
    ensures IsFirstMaximum(lowerText, Winner(lowerText), Count(lowerText, Winner(lowerText)))
    ensures IsFirstMaximum(lowerText, e, n) ==> e == Winner(lowerText)
  {
  }

  /** The `for` loop over the table: keeps the running maximum `maxMatches`
      and the first emotion that reached it. */
  method ScoreKeywords(lowerText: string) returns (detected: Emotion, maxMatches: nat)
    ensures Count(lowerText, detected) == maxMatches
    ensures forall e :: Count(lowerText, e) <= maxMatches
    ensures forall e :: Rank(e) < Rank(detected) ==> Count(lowerText, e) < maxMatches
  {
    maxMatches := 0;
    detected := Surprised;
    var i := 0;
    while i < |Table|
      invariant 0 <= i <= |Table|
      invariant i == 0 ==> detected == Surprised && maxMatches == 0
      invariant i > 0 ==> Rank(detected) < i && Count(lowerText, detected) == maxMatches
      invariant forall e :: Rank(e) < i ==> Count(lowerText, e) <= maxMatches
      invariant forall e :: Rank(e) < Rank(detected) ==> Count(lowerText, e) < maxMatches
    {
      var (emotion, keywords) := Table[i];
      assert Rank(emotion) == i && keywords == KeywordsOf(emotion);
      var matches := MatchCount(lowerText, keywords);
      if matches > maxMatches {
        maxMatches := matches;
        detected := emotion;
      }
      i := i + 1;
    }
  }

  /** What the route answers, as a function of the request. `useAI` is read
      and ignored: the AI branch is commented out in the source. */
  function Respond(text: Option<string>, useAI: bool): (r: Result<Detection>)
    ensures r.Err? <==> !Truthy(text)
    ensures r.Ok? ==> IsFirstMaximum(ToLower(text.value), r.value.emotion, Count(ToLower(text.value), r.value.emotion))
    ensures r.Ok? ==> (r.value.confidence == High <==> Count(ToLower(text.value), r.value.emotion) > 0)
  {
    if !Truthy(text) then Err(HttpError(400, "No text provided"))
    else
      var lower := ToLower(text.value);
      var e := Winner(lower);
      Ok(Detection(e, "keyword", if Count(lower, e) > 0 then High else Low))
  }

  /** The route handler. */
  method Post(text: Option<string>, useAI: bool) returns (r: Result<Detection>)
    ensures r.Err? <==> !Truthy(text)
    ensures r.Err? ==> r.error == HttpError(400, "No text provided")
    ensures r.Ok? ==> r.value.methodName == "keyword"
    ensures r == Respond(text, useAI)
  {
    if !Truthy(text) {
      return Err(HttpError(400, "No text provided"));
    }
    var lowerText := ToLower(text.value);
    var detected, maxMatches := ScoreKeywords(lowerText);
    WinnerIsFirstMaximum(lowerText, detected, maxMatches);
    r := Ok(Detection(detected, "keyword", if maxMatches > 0 then High else Low));
  }

  /** The confidence is "high" exactly when some keyword of some list occurs. */
  lemma HighIffSomeKeyword(text: string, useAI: bool)
    requires text != ""
    ensures Respond(Some(text), useAI).Ok?
    ensures Respond(Some(text), useAI).value.confidence == High <==>
            exists e, i :: 0 <= i < |KeywordsOf(e)| && Includes(ToLower(text), KeywordsOf(e)[i])
  {
    var lower := ToLower(text);
    WinnerIsFirstMaximum(lower, Surprised, 0);
    if exists e, i :: 0 <= i < |KeywordsOf(e)| && Includes(lower, KeywordsOf(e)[i]) {
      var e, i :| 0 <= i < |KeywordsOf(e)| && Includes(lower, KeywordsOf(e)[i]);
      assert Count(lower, e) > 0;
    }
  }

  /** No keyword at all: "surprised" with confidence "low". */
  lemma NoKeywordGivesSurprisedLow(text: string, useAI: bool)
    requires text != ""
    requires forall e, i :: 0 <= i < |KeywordsOf(e)| ==> !Includes(ToLower(text), KeywordsOf(e)[i])
    ensures Respond(Some(text), useAI) == Ok(Detection(Surprised, "keyword", Low))
  {
    var lower := ToLower(text);
    assert Count(lower, Surprised) == 0 && Count(lower, Blushing) == 0 && Count(lower, Shocked) == 0;
  }

  /** Text whose keywords all belong to one emotion's list yields that emotion
      with confidence "high". */
  lemma SingleEmotionWins(text: string, e: Emotion, useAI: bool)
    requires text != ""
    requires Count(ToLower(text), e) > 0
    requires forall e' :: e' != e ==> Count(ToLower(text), e') == 0
    ensures Respond(Some(text), useAI) == Ok(Detection(e, "keyword", High))
  {
    var lower := ToLower(text);
    WinnerIsFirstMaximum(lower, e, Count(lower, e));
  }

  /** Matching ignores case, and the `useAI` flag changes nothing. */
  lemma CaseInsensitive(text: string, useAI: bool, useAI': bool)
    ensures Respond(Some(text), useAI) == Respond(Some(ToLower(text)), useAI')
  {
    ToLowerIdempotent(text);
  }

  /** Repeating a keyword, or any edit that keeps the same set of occurring
      entries, does not change the answer. */
  lemma SameEntriesSameAnswer(t1: string, t2: string, useAI: bool)
    requires t1 != "" && t2 != ""
    requires forall e, i :: 0 <= i < |KeywordsOf(e)| ==>
               (Includes(ToLower(t1), KeywordsOf(e)[i]) <==> Includes(ToLower(t2), KeywordsOf(e)[i]))
    ensures Respond(Some(t1), useAI) == Respond(Some(t2), useAI)
  {
    var l1, l2 := ToLower(t1), ToLower(t2);
    forall e ensures Count(l1, e) == Count(l2, e) {
      MatchCountDependsOnEntriesOnly(l1, l2, KeywordsOf(e));
    }
  }
}
