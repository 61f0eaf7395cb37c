/** The pure parts of the enrichment service: the conversation history as it
    is written into the prompt, and the result returned when the model call
    or the parsing of its answer fails (the service never rejects). */
module GeminiService {
  import opened Types

  const NoHistory: string := "No history yet."
  const FallbackEnglish: string := "Translation failed"

  function SpeakerLabel(s: Speaker): string {
    if s == User then "User" else "AI"
  }

  /** `${speaker === 'user' ? 'User' : 'AI'}: ${english}` */
  function HistoryLine(h: HistoryItem): string {
    SpeakerLabel(h.speaker) + ": " + h.english
  }

  function HistoryLines(history: seq<HistoryItem>): (lines: seq<string>)
    ensures |lines| == |history|
    ensures forall i :: 0 <= i < |history| ==> lines[i] == HistoryLine(history[i])
  {
    if history == [] then [] else [HistoryLine(history[0])] + HistoryLines(history[1..])
  }

  /** `lines.join('\n')`: the lines with one newline between neighbours and
      none at the end. */
  function Join(lines: seq<string>): string {
    if |lines| == 0 then ""
    else if |lines| == 1 then lines[0]
    else lines[0] + "\n" + Join(lines[1..])
  }

  /** `history.length > 0 ? history.map(...).join('\n') : "No history yet."` */
  function HistoryText(history: seq<HistoryItem>): (r: string)
    ensures |history| == 0 ==> r == NoHistory
  {
    if |history| > 0 then Join(HistoryLines(history)) else NoHistory
  }

  /** `s.split('\n')`: the pieces between newlines, always at least one. */
  function Split(s: string): (pieces: seq<string>)
    ensures |pieces| >= 1
    decreases |s|
  {
    if |s| == 0 then [""]
    else
      var rest := Split(s[1..]);
      if s[0] == '\n' then [""] + rest else [[s[0]] + rest[0]] + rest[1..]
  }

  lemma {:induction false} SplitWithoutNewline(a: string)
    requires '\n' !in a
    ensures Split(a) == [a]
    decreases |a|
  {
    if |a| > 0 {
      SplitWithoutNewline(a[1..]);
      assert [a[0]] + a[1..] == a;
    }
  }

  lemma {:induction false} SplitAfterLine(a: string, b: string)
    requires '\n' !in a
    ensures Split(a + "\n" + b) == [a] + Split(b)
    decreases |a|
  {
    var s := a + "\n" + b;
    if |a| == 0 {
      assert s == "\n" + b && s[1..] == b;
    } else {
      assert s[1..] == a[1..] + "\n" + b;
      SplitAfterLine(a[1..], b);
      assert [a[0]] + a[1..] == a;
    }
  }

  /** Splitting the joined lines on newlines gives the lines back, as long as
      no line holds a newline of its own. */
  lemma {:induction false} SplitJoin(lines: seq<string>)
    requires |lines| > 0
    requires forall i :: 0 <= i < |lines| ==> '\n' !in lines[i]
    ensures Split(Join(lines)) == lines
  {
    if |lines| == 1 {
      SplitWithoutNewline(lines[0]);
    } else {
      SplitJoin(lines[1..]);
      SplitAfterLine(lines[0], Join(lines[1..]));
      assert [lines[0]] + lines[1..] == lines;
    }
  }

  /** A non-empty history is written as exactly one line per entry, in order,
      each with its speaker tag, and no trailing newline (a trailing newline
      would split off one more, empty, line). */
  lemma HistoryTextIsOneLinePerEntry(history: seq<HistoryItem>)
    requires |history| > 0
    requires forall i :: 0 <= i < |history| ==> '\n' !in history[i].english
    ensures var lines := Split(HistoryText(history));
      |lines| == |history| &&
      forall i :: 0 <= i < |history| ==> lines[i] == SpeakerLabel(history[i].speaker) + ": " + history[i].english
  {
    var lines := HistoryLines(history);
    forall i | 0 <= i < |lines| ensures '\n' !in lines[i] {
      assert lines[i] == SpeakerLabel(history[i].speaker) + ": " + history[i].english;
    }
    SplitJoin(lines);
  }

  lemma JoinStartsWithFirst(lines: seq<string>)
    requires |lines| > 0
    ensures lines[0] <= Join(lines)
  {
    if |lines| > 1 {
      assert Join(lines) == lines[0] + ("\n" + Join(lines[1..]));
    }
  }

  /** A non-empty history is never mistaken for the empty-history text: it
      begins with a speaker tag. */
  lemma HistoryTextStartsWithLabel(history: seq<HistoryItem>)
    requires |history| > 0
    ensures var tag := SpeakerLabel(history[0].speaker) + ": ";
      var r := HistoryText(history);
      |tag| <= |r| && r[..|tag|] == tag && r != NoHistory
  {
    var lines := HistoryLines(history);
    var tag := SpeakerLabel(history[0].speaker) + ": ";
    assert lines[0] == tag + history[0].english;
    JoinStartsWithFirst(lines);
    var r := HistoryText(history);
    assert tag <= lines[0] <= r;
    assert r[0] == tag[0] != NoHistory[0];
  }

  // ---------------------------------------------------------------------
  // The fallback result
  // ---------------------------------------------------------------------

  /** A code point in the range of the character class `[一-龥]`. */
  predicate IsCjk(c: char) {
    '\U{4E00}' <= c <= '\U{9FA5}'
  }

  /** Some character of `text` is in the class `[一-龥]`. */
  predicate ContainsCjk(text: string) {
    exists i :: 0 <= i < |text| && IsCjk(text[i])
  }

  /** `/[一-龥]/.test(text)` as the regular-expression engine runs it: a
      left-to-right scan for a character of the class.  `Fallback` uses it;
      `ContainsCjk` is what it decides. */
  function ScanCjk(text: string): bool {
    if text == [] then false else IsCjk(text[0]) || ScanCjk(text[1..])
  }

  lemma {:induction false} ScanCjkIsContainsCjk(text: string)
    ensures ScanCjk(text) <==> ContainsCjk(text)
  {
    if text != [] {
      ScanCjkIsContainsCjk(text[1..]);
      if ContainsCjk(text[1..]) {
        var i :| 0 <= i < |text[1..]| && IsCjk(text[1..][i]);
        assert IsCjk(text[i + 1]);
      }
      if ContainsCjk(text) && !IsCjk(text[0]) {
        var i :| 0 <= i < |text| && IsCjk(text[i]);
        assert IsCjk(text[1..][i - 1]);
      }
    }
  }

  /** The result returned when the enrichment call fails: text containing a
      Chinese character is taken to be Chinese, anything else to be English;
      never any phonetics. */
  function Fallback(text: string): (r: EnrichmentData)
    ensures r.phonetics == []
    ensures ContainsCjk(text) ==> r.english == FallbackEnglish && r.chinese == text
    ensures !ContainsCjk(text) ==> r.english == text && r.chinese == TranslationFailed
  {
    ScanCjkIsContainsCjk(text);
    var isChinese := ScanCjk(text);
    EnrichmentData(
      if isChinese then FallbackEnglish else text,
      if isChinese then text else TranslationFailed,
      [])
  }

  /** The fallback keeps the original text on one of its two sides, and it
      shows the failure sentinel as the translation exactly when the text has
      no Chinese character (or is the sentinel itself, which has). */
  lemma FallbackKeepsText(text: string)
    ensures Fallback(text).english == text || Fallback(text).chinese == text
    ensures Fallback(text).chinese == TranslationFailed <==> !ContainsCjk(text) || text == TranslationFailed
    ensures Fallback(text).english == FallbackEnglish <==> ContainsCjk(text) || text == FallbackEnglish
  {
    if text == TranslationFailed {
      assert IsCjk(TranslationFailed[0]);
    }
    assert !ContainsCjk(FallbackEnglish) by {
      forall i | 0 <= i < |FallbackEnglish| ensures !IsCjk(FallbackEnglish[i]) { }
    }
  }

  /** `enrichTranscription` never rejects: a parsed model `response` is
      returned as it is, and every failure (network, model, JSON) yields the
      fallback.  The prompt is not modelled beyond `HistoryText`. */
  function EnrichTranscription(text: string, response: Option<EnrichmentData>): (r: EnrichmentData)
    ensures response.Some? ==> r == response.value
    ensures response.None? ==> r == Fallback(text)
    ensures response.None? ==> r.phonetics == [] && (r.english == text || r.chinese == text)
  {
    FallbackKeepsText(text);
    match response
    case Some(data) => data
    case None => Fallback(text)
  }
}
