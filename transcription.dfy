/**
 * The filter transcribe_audio (drone_backend/src/llm/stt.py) applies to a
 * speech transcription before handing it on: it drops short recordings,
 * hallucinated phrases, texts too short or without letters and digits, and
 * texts mostly outside ASCII. Strings are sequences of code points, as in
 * Python; what Python's Unicode tables say about non-ASCII characters is a
 * parameter.
 */
module Transcription {
  import opened Wrappers

  /** isalnum, isspace and lower for characters outside ASCII. */
  datatype UnicodeTables = UnicodeTables(
    isAlnum: char -> bool,
    isSpace: char -> bool,
    lower: char -> string)

  /** Recordings smaller than this many bytes are not sent for transcription. */
  const MinFileSize := 5000
  const MinLength := 3
  /** The ASCII-ratio rule applies only to texts longer than this. */
  const RatioMinLength := 5

  /** Phrases speech recognition produces on silence or music. */
  const HallucinationKeywords: seq<string> := [
    "thank", "watching", "subscribe", "like",
    "감사합니다", "시청",
    "gracias", "merci", "danke",
    "谢谢", "ありがとう",
    "♪", "[music]", "[applause]", "subtitles", "..."
  ]

  predicate IsAscii(c: char)
  {
    (c as int) < 128
  }

  /** str.isspace: in ASCII, tab to carriage return, the four separators 0x1C-0x1F, and space. */
  predicate IsSpace(u: UnicodeTables, c: char)
  {
    if IsAscii(c) then 9 <= c as int <= 13 || 28 <= c as int <= 32
    else u.isSpace(c)
  }

  predicate IsAlnum(u: UnicodeTables, c: char)
  {
    if IsAscii(c) then '0' <= c <= '9' || 'a' <= c <= 'z' || 'A' <= c <= 'Z'
    else u.isAlnum(c)
  }

  function LowerChar(u: UnicodeTables, c: char): string
  {
    if 'A' <= c <= 'Z' then [(c as int + 32) as char]
    else if IsAscii(c) then [c]
    else u.lower(c)
  }

  /** str.lower, character by character (a non-ASCII character may lower to several). */
  function Lower(u: UnicodeTables, s: string): (l: string)
    ensures (forall i :: 0 <= i < |s| ==> IsAscii(s[i])) ==> |l| == |s|
    ensures (forall i :: 0 <= i < |s| ==> IsAscii(s[i])) ==>
              forall i :: 0 <= i < |s| ==> l[i] == if 'A' <= s[i] <= 'Z' then (s[i] as int + 32) as char else s[i]
  {
    if s == [] then [] else LowerChar(u, s[0]) + Lower(u, s[1..])
  }

  /** Leading whitespace removed. */
  function StripStart(u: UnicodeTables, s: string): (r: string)
    ensures |r| <= |s| && r == s[|s| - |r|..]
    ensures r != [] ==> !IsSpace(u, r[0])
    ensures forall i :: 0 <= i < |s| - |r| ==> IsSpace(u, s[i])
  {
    if s != [] && IsSpace(u, s[0]) then StripStart(u, s[1..]) else s
  }

  /** Trailing whitespace removed. */
  function StripEnd(u: UnicodeTables, s: string): (r: string)
    ensures |r| <= |s| && r == s[..|r|]
    ensures r != [] ==> !IsSpace(u, r[|r| - 1])
    ensures forall i :: |r| <= i < |s| ==> IsSpace(u, s[i])
  {
    if s != [] && IsSpace(u, s[|s| - 1]) then StripEnd(u, s[..|s| - 1]) else s
  }

  /** The number of leading whitespace characters str.strip removes. */
  function Leading(u: UnicodeTables, s: string): nat
  {
    |s| - |StripStart(u, s)|
  }

  /**
   * str.strip: the slice of `s` left after removing whitespace at both
   * ends; it neither starts nor ends with whitespace, and everything cut
   * away is whitespace.
   */
  function Strip(u: UnicodeTables, s: string): (r: string)
    ensures Leading(u, s) + |r| <= |s|
    ensures r == s[Leading(u, s)..Leading(u, s) + |r|]
    ensures r != [] ==> !IsSpace(u, r[0]) && !IsSpace(u, r[|r| - 1])
    ensures forall i :: 0 <= i < |s| && !(Leading(u, s) <= i < Leading(u, s) + |r|) ==> IsSpace(u, s[i])
  {
    StripEnd(u, StripStart(u, s))
  }

  /** `k` occurs in `s` starting at position `i`. */
  predicate OccursAt(k: string, s: string, i: int)
  {
    0 <= i <= |s| - |k| && s[i..i + |k|] == k
  }

  /** `k in s` for strings: `k` occurs at some position of `s`. */
  predicate Occurs(k: string, s: string)
  {
    exists i :: 0 <= i <= |s| - |k| && OccursAt(k, s, i)
  }

  /** Substring search, trying each position from the left. */
  function Contains(s: string, k: string): bool
    decreases |s|
  {
    if |s| < |k| then false
    else k <= s || Contains(s[1..], k)
  }

  lemma {:induction false} ContainsOccurs(s: string, k: string)
    ensures Contains(s, k) <==> Occurs(k, s)
    decreases |s|
  {
    if |s| >= |k| && k <= s {
      assert OccursAt(k, s, 0);
    } else if |s| >= |k| {
      assert s != [];
      ContainsOccurs(s[1..], k);
      if Occurs(k, s) {
        var i :| 0 <= i <= |s| - |k| && OccursAt(k, s, i);
        assert i != 0;
        TailSlice(s, i - 1, |k|);
        assert OccursAt(k, s[1..], i - 1);
      }
      if Occurs(k, s[1..]) {
        var i :| 0 <= i <= |s[1..]| - |k| && OccursAt(k, s[1..], i);
        TailSlice(s, i, |k|);
        assert OccursAt(k, s, i + 1);
      }
    }
  }

  /** A slice of the tail is the slice of the whole one position further on. */
  lemma TailSlice(s: string, i: nat, n: nat)
    requires s != [] && i + n <= |s| - 1
    ensures s[1..][i..i + n] == s[i + 1..i + 1 + n]
  {
    var slice := s[1..][i..i + n];
    assert forall j :: 0 <= j < n ==> slice[j] == s[i + 1 + j];
  }

  /**
   * The keyword loop: the first listed keyword found in the text or in its
   * lower-cased form.
   */
  function FirstKeyword(text: string, lower: string, keywords: seq<string>): (r: Option<string>)
    ensures r.Some? ==> r.value in keywords && (Occurs(r.value, text) || Occurs(r.value, lower))
    ensures r.None? ==> forall k :: k in keywords ==> !Occurs(k, text) && !Occurs(k, lower)
  {
    if keywords == [] then None
    else
      ContainsOccurs(text, keywords[0]);
      ContainsOccurs(lower, keywords[0]);
      if Contains(text, keywords[0]) || Contains(lower, keywords[0]) then Some(keywords[0])
      else
        var rest := FirstKeyword(text, lower, keywords[1..]);
        assert forall k :: k in keywords ==> k == keywords[0] || k in keywords[1..];
        rest
  }

  /** any(c.isalnum() for c in text) */
  function AnyAlnum(u: UnicodeTables, s: string): (b: bool)
    ensures b <==> exists i :: 0 <= i < |s| && IsAlnum(u, s[i])
  {
    if s == [] then false
    else if IsAlnum(u, s[0]) then true
    else
      var b := AnyAlnum(u, s[1..]);
      assert forall i :: 0 < i < |s| ==> s[i] == s[1..][i - 1];
      b
  }

  /** sum(1 for c in text if ord(c) < 128) */
  function AsciiCount(s: string): (n: nat)
    ensures n <= |s|
    ensures n == |s| <==> forall i :: 0 <= i < |s| ==> IsAscii(s[i])
  {
    if s == [] then 0
    else
      var n := (if IsAscii(s[0]) then 1 else 0) + AsciiCount(s[1..]);
      assert forall i :: 0 < i < |s| ==> s[i] == s[1..][i - 1];
      n
  }

  /** The ratio rule as written: more than 5 characters and an ASCII share below one half. */
  function MostlyNonAscii(s: string): (b: bool)
    ensures b <==> |s| > RatioMinLength && 2 * AsciiCount(s) < |s|
  {
    if |s| > RatioMinLength then
      RatioBelowHalf(AsciiCount(s), |s|);
      (AsciiCount(s) as real) / (|s| as real) < 0.5
    else false
  }

  /** For a positive length, a share below one half is twice the count below the length. */
  lemma RatioBelowHalf(count: nat, length: nat)
    requires length > 0
    ensures (count as real) / (length as real) < 0.5 <==> 2 * count < length
  {
    ShareBelow(count as real, length as real, 0.5);
  }

  lemma ShareBelow(part: real, whole: real, bound: real)
    requires whole > 0.0
    ensures part / whole < bound <==> part < bound * whole
  {
    var share := part / whole;
    assert share * whole == part;
  }

  /** The text checks, in source order, on an already stripped transcription. */
  function Filter(u: UnicodeTables, text: string): Option<string>
  {
    if FirstKeyword(text, Lower(u, text), HallucinationKeywords).Some? then None
    else if |text| < MinLength then None
    else if !AnyAlnum(u, text) then None
    else if MostlyNonAscii(text) then None
    else Some(text)
  }

  /** What an accepted transcription satisfies, stated without the loops. */
  predicate Acceptable(u: UnicodeTables, text: string)
  {
    && (forall k :: k in HallucinationKeywords ==> !Occurs(k, text) && !Occurs(k, Lower(u, text)))
    && |text| >= MinLength
    && (exists i :: 0 <= i < |text| && IsAlnum(u, text[i]))
    && (|text| > RatioMinLength ==> 2 * AsciiCount(text) >= |text|)
  }

  /**
   * transcribe_audio after the upload: `fileSize` is None when saving the
   * upload raised, `response` is None when the transcription call raised;
   * any exception yields None.
   */
  function TranscribeAudio(u: UnicodeTables, fileSize: Option<nat>, response: Option<string>): (r: Option<string>)
    ensures r.Some? <==>
              && fileSize.Some? && fileSize.value >= MinFileSize
              && response.Some? && Acceptable(u, Strip(u, response.value))
    ensures r.Some? ==> r.value == Strip(u, response.value)
  {
    if fileSize.None? || fileSize.value < MinFileSize then None
    else if response.None? then None
    else Filter(u, Strip(u, response.value))
  }

  /** A recording under 5000 bytes is dropped whatever it says. */
  lemma SmallRecordingRejected(u: UnicodeTables, fileSize: nat, response: Option<string>)
    requires fileSize < MinFileSize
    ensures TranscribeAudio(u, Some(fileSize), response) == None
  {
  }

  /** Any text containing a listed keyword, in its own case or lower-cased, is dropped. */
  lemma KeywordRejected(u: UnicodeTables, fileSize: Option<nat>, text: string, k: string)
    requires k in HallucinationKeywords
    requires Occurs(k, Strip(u, text)) || Occurs(k, Lower(u, Strip(u, text)))
    ensures TranscribeAudio(u, fileSize, Some(text)) == None
  {
  }

  /** For instance, an ordinary phrase containing "like" never gets through. */
  lemma LikeRejected(u: UnicodeTables)
    ensures TranscribeAudio(u, Some(8000), Some("I like this")) == None
  {
    var t := "I like this";
    assert StripStart(u, t) == t;
    assert StripEnd(u, t) == t;
    assert OccursAt("like", t, 2);
    KeywordRejected(u, Some(8000), t, "like");
  }

  /** Texts of five characters or fewer are never rejected by the ratio rule. */
  lemma ShortTextsPassRatioRule(s: string)
    requires |s| <= RatioMinLength
    ensures !MostlyNonAscii(s)
  {
  }

  /** An accepted text is the stripped transcription, at least three characters long. */
  lemma AcceptedIsStrippedAndLongEnough(u: UnicodeTables, fileSize: Option<nat>, response: Option<string>)
    requires TranscribeAudio(u, fileSize, response).Some?
    ensures var t := TranscribeAudio(u, fileSize, response).value;
      |t| >= MinLength && !IsSpace(u, t[0]) && !IsSpace(u, t[|t| - 1])
  {
  }
}
