/** The JavaScript string built-ins the routes rely on, over ASCII:
    `toLowerCase`, `includes`, `trim`, and the one regular-expression
    `replace` that strips the echoed prompt from generated text. */
module JsString {
  import opened Common

  // ---------------------------------------------------------------------
  // toLowerCase

  predicate IsUpper(c: char)
  {
    'A' <= c <= 'Z'
  }

  function LowerChar(c: char): (r: char)
    ensures !IsUpper(r)
    ensures IsUpper(c) ==> r as int == c as int + 32
    ensures !IsUpper(c) ==> r == c
  {
    if IsUpper(c) then (c as int + 32) as char else c
  }

  /** A string with no upper-case letter. */
  predicate IsLowerCase(s: string)
  {
    forall i :: 0 <= i < |s| ==> !IsUpper(s[i])
  }

  /** `s.toLowerCase()`: same length, every letter lowered, nothing else touched. */
  function ToLower(s: string): (r: string)
    ensures |r| == |s| && IsLowerCase(r)
    ensures forall i :: 0 <= i < |s| ==> r[i] == LowerChar(s[i])
  {
    seq(|s|, i requires 0 <= i < |s| => LowerChar(s[i]))
  }

  /** A lower-case string is its own lower case. */
  lemma LowerCaseFixed(s: string)
    requires IsLowerCase(s)
    ensures ToLower(s) == s
  {
    assert forall i :: 0 <= i < |s| ==> ToLower(s)[i] == s[i];
  }

  /** Lowering twice is lowering once. */
  lemma ToLowerIdempotent(s: string)
    ensures ToLower(ToLower(s)) == ToLower(s)
  {
    LowerCaseFixed(ToLower(s));
  }

  // ---------------------------------------------------------------------
  // includes

  /** `needle` occurs in `hay` starting at index `i`. */
  predicate OccursAt(hay: string, needle: string, i: int)
  {
    0 <= i && i + |needle| <= |hay| && hay[i..i + |needle|] == needle
  }

  /** `hay.includes(needle)`: true for the empty needle and for the text
      itself, false for a needle longer than the text. */
  predicate Includes(hay: string, needle: string): (r: bool)
    ensures r ==> |needle| <= |hay|
    ensures needle == [] || needle == hay ==> r
    decreases |hay|
  {
    if needle <= hay then true
    else if |hay| <= |needle| then false
    else Includes(hay[1..], needle)
  }

  /** `includes` holds exactly when the needle occurs at some index. */
  lemma {:induction false} IncludesIffOccurs(hay: string, needle: string)
    ensures Includes(hay, needle) <==> exists i :: OccursAt(hay, needle, i)
    decreases |hay|
  {
    if needle <= hay {
      assert OccursAt(hay, needle, 0);
    } else if |hay| <= |needle| {
      // the only index that fits is 0, where the needle would equal hay
    } else {
      IncludesIffOccurs(hay[1..], needle);
      if Includes(hay, needle) {
        var i :| OccursAt(hay[1..], needle, i);
        assert hay[1..][i..i + |needle|] == hay[i + 1..i + 1 + |needle|];
        assert OccursAt(hay, needle, i + 1);
      } else {
        forall i | OccursAt(hay, needle, i)
          ensures OccursAt(hay[1..], needle, i - 1)
        {
          assert hay[1..][i - 1..i - 1 + |needle|] == hay[i..i + |needle|];
        }
      }
    }
  }

  // ---------------------------------------------------------------------
  // trim

  /** White space removed by `trim`, restricted to ASCII. */
  predicate IsSpace(c: char)
  {
    c == ' ' || c == '\t' || c == '\n' || c == '\r' || c == '\U{000B}' || c == '\U{000C}'
  }

  predicate AllSpace(s: string)
  {
    forall k :: 0 <= k < |s| ==> IsSpace(s[k])
  }

  /** The index of the first character at or after `i` that is not white
      space, or `|s|` when there is none. */
  function ContentStart(s: string, i: nat): (n: nat)
    requires i <= |s|
    ensures i <= n <= |s|
    ensures forall k :: i <= k < n ==> IsSpace(s[k])
    ensures n == |s| || !IsSpace(s[n])
    decreases |s| - i
  {
    if i < |s| && IsSpace(s[i]) then ContentStart(s, i + 1) else i
  }

  /** The index just after the last character before `j` that is not white
      space, looking no further back than `lo`. */
  function ContentEnd(s: string, lo: nat, j: nat): (n: nat)
    requires lo <= j <= |s|
    ensures lo <= n <= j
    ensures forall k :: n <= k < j ==> IsSpace(s[k])
    ensures n == lo || !IsSpace(s[n - 1])
  {
    if lo < j && IsSpace(s[j - 1]) then ContentEnd(s, lo, j - 1) else j
  }

  /** `s.trim()`: the middle of `s` left once the white space at both ends is
      cut off; it neither starts nor ends with white space. */
  function Trim(s: string): (r: string)
    ensures |r| <= |s|
    ensures r == [] || (!IsSpace(r[0]) && !IsSpace(r[|r| - 1]))
    ensures exists i :: OccursAt(s, r, i) && AllSpace(s[..i]) && AllSpace(s[i + |r|..])
  {
    var i := ContentStart(s, 0);
    var j := ContentEnd(s, i, |s|);
    assert OccursAt(s, s[i..j], i);
    assert AllSpace(s[..i]) && AllSpace(s[j..]);
    s[i..j]
  }

  // ---------------------------------------------------------------------
  // replace(/Convert this to a funny anime meme caption: ".*?"/, "")

  /** The literal part of the pattern, up to and including its first quote. */
  const EchoPrefix: string := "Convert this to a funny anime meme caption: \""

  /** The prompt the caption route sends upstream for the user's text. */
  function PromptFor(text: string): (r: string)
    ensures |r| == |EchoPrefix| + |text| + 1
    ensures OccursAt(r, EchoPrefix, 0) && OccursAt(r, text, |EchoPrefix|)
    ensures r[|r| - 1] == '"'
  {
    EchoPrefix + text + "\""
  }

  /** Characters that `.` does not match in a JavaScript regular expression. */
  predicate IsLineTerminator(c: char)
  {
    c == '\n' || c == '\r' || c == '\U{2028}' || c == '\U{2029}'
  }

  /** `.*` can match `s[k..j]`. */
  predicate DotsMatch(s: string, k: int, j: int)
    requires 0 <= k <= j <= |s|
  {
    forall m :: k <= m < j ==> !IsLineTerminator(s[m])
  }

  /** Where the lazy `.*?"` that starts at `k` ends: the first quote at or
      after `k`, provided no line terminator comes before it. */
  function ClosingQuote(s: string, k: nat): (r: Option<nat>)
    requires k <= |s|
    ensures r.Some? ==> k <= r.value < |s| && s[r.value] == '"' && DotsMatch(s, k, r.value)
    ensures r.Some? ==> forall j :: k <= j < r.value ==> s[j] != '"'
    ensures r.None? ==> forall j :: k <= j < |s| && s[j] == '"' ==> !DotsMatch(s, k, j)
    decreases |s| - k
  {
    if k == |s| then None
    else if s[k] == '"' then Some(k)
    else if IsLineTerminator(s[k]) then None
    else ClosingQuote(s, k + 1)
  }

  /** The end of the match of the whole pattern when it starts at `i`, if any. */
  function MatchAt(s: string, i: nat): (r: Option<nat>)
    requires i <= |s|
    ensures r.Some? <==> OccursAt(s, EchoPrefix, i) && ClosingQuote(s, i + |EchoPrefix|).Some?
    ensures r.Some? ==> i + |EchoPrefix| < r.value <= |s|
  {
    if OccursAt(s, EchoPrefix, i) then
      match ClosingQuote(s, i + |EchoPrefix|)
      case Some(j) => Some(j + 1)
      case None => None
    else None
  }

  /** A match ends just after the first quote that follows the prefix: the
      last matched character is a quote, and the characters between the
      prefix and it are neither quotes nor line terminators. */
  lemma MatchEndsAfterFirstQuote(s: string, i: nat)
    requires i <= |s|
    requires MatchAt(s, i).Some?
    ensures s[MatchAt(s, i).value - 1] == '"'
    ensures forall j :: i + |EchoPrefix| <= j < MatchAt(s, i).value - 1 ==>
              s[j] != '"' && !IsLineTerminator(s[j])
  {
    var k := ClosingQuote(s, i + |EchoPrefix|).value;
    assert MatchAt(s, i).value == k + 1;
    assert DotsMatch(s, i + |EchoPrefix|, k);
  }

  /** Conversely, the prefix followed by a run without quotes or line
      terminators and then a quote is a match ending just after that quote. */
  lemma QuoteClosesMatch(s: string, i: nat, k: nat)
    requires OccursAt(s, EchoPrefix, i)
    requires i + |EchoPrefix| <= k < |s| && s[k] == '"'
    requires forall j :: i + |EchoPrefix| <= j < k ==> s[j] != '"' && !IsLineTerminator(s[j])
    ensures MatchAt(s, i) == Some(k + 1)
  {
    assert DotsMatch(s, i + |EchoPrefix|, k);
  }

  /** The leftmost match starting at or after `i`, as (start, end). */
  function FindEcho(s: string, i: nat): (r: Option<(nat, nat)>)
    requires i <= |s|
    ensures r.Some? ==> i <= r.value.0 < r.value.1 <= |s| && MatchAt(s, r.value.0) == Some(r.value.1)
    ensures r.Some? ==> forall b :: i <= b < r.value.0 ==> MatchAt(s, b).None?
    ensures r.None? ==> forall b :: i <= b <= |s| ==> MatchAt(s, b).None?
    decreases |s| - i
  {
    if MatchAt(s, i).Some? then Some((i, MatchAt(s, i).value))
    else if i == |s| then None
    else FindEcho(s, i + 1)
  }

  /** `s.replace(pattern, "")` with the non-global pattern above: the
      leftmost match, if any, is cut out. Text without the prefix is kept. */
  function RemovePromptEcho(s: string): (r: string)
    ensures |r| <= |s|
    ensures !Includes(s, EchoPrefix) ==> r == s
  {
    match FindEcho(s, 0)
    case None => s
    case Some((b, e)) =>
      IncludesIffOccurs(s, EchoPrefix);
      s[..b] + s[e..]
  }

  /** Where the pattern matches at no index, the text is kept as it is. */
  lemma NoMatchKeepsText(s: string)
    requires forall b :: 0 <= b <= |s| ==> MatchAt(s, b).None?
    ensures RemovePromptEcho(s) == s
  {
  }

  /** Whatever the text, the cut is the leftmost match: when the pattern
      matches `s[b..e]` and at no earlier index, exactly that span goes. */
  lemma CutsLeftmostMatch(s: string, b: nat, e: nat)
    requires b <= |s|
    requires MatchAt(s, b) == Some(e)
    requires forall b' :: 0 <= b' < b ==> MatchAt(s, b').None?
    ensures b < e <= |s|
    ensures RemovePromptEcho(s) == s[..b] + s[e..]
  {
    var found := FindEcho(s, 0);
    assert found.Some?;
    assert found.value.0 == b;
  }

  /** Text that starts with the prefix, then a run with no quote and no
      line break, then a quote: exactly that span is cut. */
  lemma EchoCutAtFirstQuote(before: string, tail: string)
    requires forall m :: 0 <= m < |before| ==> before[m] != '"' && !IsLineTerminator(before[m])
    ensures RemovePromptEcho(EchoPrefix + before + "\"" + tail) == tail
  {
    var s := EchoPrefix + before + "\"" + tail;
    var p := |EchoPrefix|;
    var q := p + |before|;
    assert s[..p] == EchoPrefix;
    assert OccursAt(s, EchoPrefix, 0);
    assert s[q] == '"';
    forall m | p <= m < q
      ensures s[m] == before[m - p]
    {
    }
    assert DotsMatch(s, p, q);
    assert ClosingQuote(s, p) == Some(q);
    assert MatchAt(s, 0) == Some(q + 1);
    assert FindEcho(s, 0) == Some((0, q + 1));
    assert s[q + 1..] == tail;
  }

  /** When the generated text starts with the prompt that was sent, and the
      user's text holds no quote and no line break, cutting the echo leaves
      exactly the continuation the model produced. */
  lemma EchoedPromptRemoved(text: string, continuation: string)
    requires forall m :: 0 <= m < |text| ==> text[m] != '"' && !IsLineTerminator(text[m])
    ensures RemovePromptEcho(PromptFor(text) + continuation) == continuation
  {
    assert PromptFor(text) + continuation == EchoPrefix + text + "\"" + continuation;
    EchoCutAtFirstQuote(text, continuation);
  }

  /** The lazy match stops at the first quote: when the user's text itself
      holds a quote, only the prompt up to that quote is cut, and the rest of
      the text with the closing quote stays in front of the continuation. */
  lemma QuoteInTextCutsEchoShort(before: string, after: string, continuation: string)
    requires forall m :: 0 <= m < |before| ==> before[m] != '"' && !IsLineTerminator(before[m])
    ensures RemovePromptEcho(PromptFor(before + "\"" + after) + continuation) == after + "\"" + continuation
  {
    assert PromptFor(before + "\"" + after) + continuation ==
           EchoPrefix + before + "\"" + (after + "\"" + continuation);
    EchoCutAtFirstQuote(before, after + "\"" + continuation);
  }
}
