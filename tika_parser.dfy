/**
  The document parser around Apache Tika: it refuses empty input, lets Tika
  extract the text, collapses whitespace, refuses a result without text,
  and reports the given content type or else the detected one. Tika's
  extraction and detection are oracles.
*/
module TikaParser {
  import opened Wrappers
  import opened JavaText

  const FileContentIsEmpty := "File content is empty"
  const NoExtractableText := "Parsed document has no extractable text (is it empty or scanned?)"
  const UnableToParse := "Unable to parse document content"

  // ---------------------------------------------------------------------------
  // Whitespace normalisation

  /** `s` without its leading `\s` characters. */
  function DropSpaces(s: string): (r: string)
    ensures |r| <= |s| && r == s[|s| - |r|..]
    ensures r == [] || !IsRegexSpace(r[0])
  {
    if s != [] && IsRegexSpace(s[0]) then DropSpaces(s[1..]) else s
  }

  /** Every `\s` character is a plain space and no two of them are adjacent. */
  predicate SpacesCollapsed(s: string) {
    && (forall i :: 0 <= i < |s| && IsRegexSpace(s[i]) ==> s[i] == ' ')
    && (forall i :: 0 <= i < |s| - 1 ==> !(IsRegexSpace(s[i]) && IsRegexSpace(s[i + 1])))
  }

  /** `replaceAll("\\s+", " ")`: every maximal run of `\s` characters becomes one space. */
  function Collapse(s: string): (r: string)
    ensures (r == []) == (s == [])
    ensures r != [] ==> IsRegexSpace(r[0]) == IsRegexSpace(s[0])
    ensures SpacesCollapsed(r)
    decreases |s|
  {
    if s == [] then []
    else if IsRegexSpace(s[0]) then
      var rest := Collapse(DropSpaces(s[1..]));
      assert forall i :: 1 <= i < |rest| + 1 ==> ([' '] + rest)[i] == rest[i - 1];
      [' '] + rest
    else
      var rest := Collapse(s[1..]);
      assert forall i :: 1 <= i < |rest| + 1 ==> ([s[0]] + rest)[i] == rest[i - 1];
      [s[0]] + rest
  }

  /** A slice of a collapsed string is collapsed. */
  lemma SliceCollapsed(s: string, lo: nat, hi: nat)
    requires SpacesCollapsed(s) && lo <= hi <= |s|
    ensures SpacesCollapsed(s[lo..hi])
  {
    var t := s[lo..hi];
    assert forall i :: 0 <= i < |t| ==> t[i] == s[lo + i];
  }

  /** `normalize`: "" for null, otherwise the collapsed text, trimmed. */
  function Normalize(parsedText: Option<string>): (r: string)
    ensures parsedText.None? ==> r == ""
    ensures r == [] || (!IsTrimmed(r[0]) && !IsTrimmed(r[|r| - 1]))
    ensures SpacesCollapsed(r)
  {
    if parsedText.None? then ""
    else
      var collapsed := Collapse(parsedText.value);
      var r := Trim(collapsed);
      SliceCollapsed(collapsed, TrimOffset(collapsed), TrimOffset(collapsed) + |r|);
      r
  }

  /** Collapsing a collapsed string changes nothing. */
  lemma {:induction false} CollapseIdentity(s: string)
    requires SpacesCollapsed(s)
    ensures Collapse(s) == s
    decreases |s|
  {
    if s != [] {
      var tail := s[1..];
      SliceCollapsed(s, 1, |s|);
      CollapseIdentity(tail);
      if IsRegexSpace(s[0]) {
        assert tail == [] || !IsRegexSpace(tail[0]) by {
          if tail != [] {
            assert tail[0] == s[1];
          }
        }
        assert Collapse(s) == [' '] + Collapse(DropSpaces(tail));
      } else {
        assert Collapse(s) == [s[0]] + Collapse(tail);
      }
      assert s == [s[0]] + tail;
    }
  }

  /** Normalising twice is normalising once. */
  lemma NormalizeIdempotent(parsedText: Option<string>)
    ensures Normalize(Some(Normalize(parsedText))) == Normalize(parsedText)
  {
    var y := Normalize(parsedText);
    CollapseIdentity(y);
    TrimIdentity(y);
  }

  /** The characters neither `trim` nor the collapsing ever removes (those
      above U+0020), in order. */
  function Visible(s: string): string {
    if s == [] then [] else (if IsTrimmed(s[0]) then [] else [s[0]]) + Visible(s[1..])
  }

  lemma {:induction false} VisibleConcat(a: string, b: string)
    ensures Visible(a + b) == Visible(a) + Visible(b)
  {
    if a != [] {
      assert (a + b)[1..] == a[1..] + b;
      VisibleConcat(a[1..], b);
    } else {
      assert a + b == b;
    }
  }

  lemma {:induction false} VisibleOfDropSpaces(s: string)
    ensures Visible(DropSpaces(s)) == Visible(s)
  {
    if s != [] && IsRegexSpace(s[0]) {
      VisibleOfDropSpaces(s[1..]);
    }
  }

  /** Collapsing keeps the visible characters in order. */
  lemma {:induction false} CollapseKeepsVisible(s: string)
    ensures Visible(Collapse(s)) == Visible(s)
    decreases |s|
  {
    if s != [] {
      if IsRegexSpace(s[0]) {
        var rest := DropSpaces(s[1..]);
        CollapseKeepsVisible(rest);
        VisibleOfDropSpaces(s[1..]);
        assert ([' '] + Collapse(rest))[1..] == Collapse(rest);
      } else {
        CollapseKeepsVisible(s[1..]);
        assert ([s[0]] + Collapse(s[1..]))[1..] == Collapse(s[1..]);
      }
    }
  }

  lemma {:induction false} TrimStartKeepsVisible(s: string)
    ensures Visible(TrimStart(s)) == Visible(s)
  {
    if s != [] && IsTrimmed(s[0]) {
      TrimStartKeepsVisible(s[1..]);
    }
  }

  lemma {:induction false} TrimEndKeepsVisible(s: string)
    ensures Visible(TrimEnd(s)) == Visible(s)
  {
    if s != [] && IsTrimmed(s[|s| - 1]) {
      var init := s[..|s| - 1];
      TrimEndKeepsVisible(init);
      assert s == init + [s[|s| - 1]];
      VisibleConcat(init, [s[|s| - 1]]);
      assert Visible([s[|s| - 1]]) == [];
    }
  }

  /** Trimming keeps the visible characters in order. */
  lemma TrimKeepsVisible(s: string)
    ensures Visible(Trim(s)) == Visible(s)
  {
    TrimStartKeepsVisible(s);
    TrimEndKeepsVisible(TrimStart(s));
  }

  /** Normalising keeps every character above U+0020, in its original order. */
  lemma NormalizeKeepsVisible(text: string)
    ensures Visible(Normalize(Some(text))) == Visible(text)
  {
    CollapseKeepsVisible(text);
    TrimKeepsVisible(Collapse(text));
  }

  /** Four words separated by runs of `\s` characters normalise to the words
      separated by single spaces. */
  lemma {:induction false} FourWords(w1: string, w2: string, w3: string, w4: string, g1: string, g2: string, g3: string)
    requires NoRegexSpace(w1) && NoRegexSpace(w2) && NoRegexSpace(w3) && NoRegexSpace(w4)
    requires AllRegexSpace(g1) && AllRegexSpace(g2) && AllRegexSpace(g3)
    requires w1 != [] && !IsTrimmed(w1[0]) && w2 != [] && w3 != [] && w4 != [] && !IsTrimmed(w4[|w4| - 1])
    ensures Normalize(Some(w1 + g1 + (w2 + g2 + (w3 + g3 + w4)))) == w1 + " " + (w2 + " " + (w3 + " " + w4))
  {
    CollapseWords(w3, w4, g3);
    CollapseWords(w2, w3 + g3 + w4, g2);
    CollapseWords(w1, w2 + g2 + (w3 + g3 + w4), g1);
    var c := w1 + " " + (w2 + " " + (w3 + " " + w4));
    assert NoRegexSpace(w4) ==> Collapse(w4) == w4 by {
      assert SpacesCollapsed(w4);
      CollapseIdentity(w4);
    }
    assert c[0] == w1[0] && c[|c| - 1] == w4[|w4| - 1];
    TrimIdentity(c);
  }

  /** A line break and runs of spaces each become one space. */
  lemma PlainTextExample()
    ensures Normalize(Some("Hello\nWorld   via   Tika")) == "Hello World via Tika"
  {
    var input := "Hello" + "\n" + ("World" + "   " + ("via" + "   " + "Tika"));
    var output := "Hello" + " " + ("World" + " " + ("via" + " " + "Tika"));
    assert input == "Hello\nWorld   via   Tika" by { }
    assert output == "Hello World via Tika" by { }
    assert Normalize(Some(input)) == output by {
      PlainTextWords();
    }
  }

  lemma PlainTextWords()
    ensures Normalize(Some("Hello" + "\n" + ("World" + "   " + ("via" + "   " + "Tika"))))
         == "Hello" + " " + ("World" + " " + ("via" + " " + "Tika"))
  {
    FourWords("Hello", "World", "via", "Tika", "\n", "   ", "   ");
  }

  predicate NoRegexSpace(s: string) {
    forall i :: 0 <= i < |s| ==> !IsRegexSpace(s[i])
  }

  predicate AllRegexSpace(s: string) {
    s != [] && forall i :: 0 <= i < |s| ==> IsRegexSpace(s[i])
  }

  /** A word, a run of `\s` characters, and the rest. */
  lemma CollapseWords(word: string, rest: string, gap: string)
    requires NoRegexSpace(word) && AllRegexSpace(gap)
    requires rest == [] || !IsRegexSpace(rest[0])
    ensures Collapse(word + gap + rest) == word + " " + Collapse(rest)
  {
    assert word + gap + rest == word + (gap + rest);
    CollapseOfWord(word, gap + rest);
    CollapseOfGap(gap, rest);
  }

  /** Characters outside `\s` pass through unchanged. */
  lemma {:induction false} CollapseOfWord(word: string, tail: string)
    requires NoRegexSpace(word)
    ensures Collapse(word + tail) == word + Collapse(tail)
    decreases |word|
  {
    if word == [] {
      assert word + tail == tail;
    } else {
      var s := word + tail;
      assert s[0] == word[0] && !IsRegexSpace(s[0]);
      assert s[1..] == word[1..] + tail;
      assert NoRegexSpace(word[1..]) by {
        assert forall i :: 0 <= i < |word| - 1 ==> word[1..][i] == word[i + 1];
      }
      assert Collapse(s[1..]) == word[1..] + Collapse(tail) by {
        CollapseOfWord(word[1..], tail);
      }
      assert Collapse(s) == [word[0]] + Collapse(s[1..]);
      assert [word[0]] + (word[1..] + Collapse(tail)) == word + Collapse(tail);
    }
  }

  /** A run of `\s` characters becomes one space. */
  lemma CollapseOfGap(gap: string, rest: string)
    requires AllRegexSpace(gap)
    requires rest == [] || !IsRegexSpace(rest[0])
    ensures Collapse(gap + rest) == " " + Collapse(rest)
  {
    var s := gap + rest;
    assert s[0] == gap[0] && IsRegexSpace(s[0]);
    assert s[1..] == gap[1..] + rest;
    assert DropSpaces(s[1..]) == rest by {
      DropSpacesOfGap(gap[1..], rest);
    }
  }

  lemma {:induction false} DropSpacesOfGap(gap: string, rest: string)
    requires forall i :: 0 <= i < |gap| ==> IsRegexSpace(gap[i])
    requires rest == [] || !IsRegexSpace(rest[0])
    ensures DropSpaces(gap + rest) == rest
  {
    if gap != [] {
      assert (gap + rest)[1..] == gap[1..] + rest;
      DropSpacesOfGap(gap[1..], rest);
    } else {
      assert gap + rest == rest;
    }
  }

  // ---------------------------------------------------------------------------
  // Parsing

  /** The text and content type a parse yields. */
  datatype ParsedDocument = ParsedDocument(text: string, contentType: string)

  /** What `parseToString` gives: a (possibly null) text, or an
      `IOException` or `TikaException`. */
  datatype Extraction = Extracted(text: Option<string>) | ExtractionFailed

  /** The outcome of `parse` once Tika has extracted `extraction` and, when
      asked, detected the type `detected`. */
  function ParseResult(content: Option<seq<bv8>>, contentType: Option<string>, extraction: Extraction,
                       detected: string): (r: Result<ParsedDocument>)
    ensures content.None? || content.value == [] ==> r == Err(IllegalArgument(FileContentIsEmpty))
    ensures (content.Some? && content.value != [] && extraction.ExtractionFailed?)
      ==> r == Err(IllegalArgument(UnableToParse))
    ensures (content.Some? && content.value != [] && extraction.Extracted?)
      ==> (r.Ok? <==> HasText(Some(Normalize(extraction.text))))
    ensures (r.Err? && content.Some? && content.value != [] && extraction.Extracted?)
      ==> r.failure == IllegalArgument(NoExtractableText)
    ensures r.Ok? ==> extraction.Extracted? && r.value.text == Normalize(extraction.text)
    ensures r.Ok? ==> r.value.contentType == if HasText(contentType) then contentType.value else detected
  {
    if content.None? || content.value == [] then Err(IllegalArgument(FileContentIsEmpty))
    else
      match extraction
      case ExtractionFailed => Err(IllegalArgument(UnableToParse))
      case Extracted(parsedText) =>
        var detectedType := if HasText(contentType) then contentType.value else detected;
        var normalized := Normalize(parsedText);
        if !HasText(Some(normalized)) then Err(IllegalArgument(NoExtractableText))
        else Ok(ParsedDocument(normalized, detectedType))
  }

  /** A parsed text has text, no space at either end, no run of spaces, and
      normalising it again changes nothing. */
  lemma ParsedTextIsNormal(content: Option<seq<bv8>>, contentType: Option<string>, extraction: Extraction, detected: string)
    requires ParseResult(content, contentType, extraction, detected).Ok?
    ensures var text := ParseResult(content, contentType, extraction, detected).value.text;
      && HasText(Some(text)) && text != []
      && !IsTrimmed(text[0]) && !IsTrimmed(text[|text| - 1])
      && SpacesCollapsed(text)
      && Normalize(Some(text)) == text
  {
    NormalizeIdempotent(extraction.text);
  }

  /** The Tika facade: extraction and detection as fixed functions of their
      inputs, with a record of the calls made. */
  class Tika {
    const extract: seq<bv8> -> Extraction
    const detect: (seq<bv8>, Option<string>) -> string
    /** The contents handed to `parseToString`, oldest first. */
    var extractions: seq<seq<bv8>>
    /** The arguments of each `detect` call, oldest first. */
    var detections: seq<(seq<bv8>, Option<string>)>

    constructor (extract: seq<bv8> -> Extraction, detect: (seq<bv8>, Option<string>) -> string)
      ensures this.extract == extract && this.detect == detect
      ensures extractions == [] && detections == []
    {
      this.extract := extract;
      this.detect := detect;
      extractions := [];
      detections := [];
    }

    method ParseToString(content: seq<bv8>) returns (extraction: Extraction)
      modifies this
      ensures extraction == extract(content)
      ensures extractions == old(extractions) + [content] && detections == old(detections)
    {
      extraction := extract(content);
      extractions := extractions + [content];
    }

    method Detect(content: seq<bv8>, filename: Option<string>) returns (mediaType: string)
      modifies this
      ensures mediaType == detect(content, filename)
      ensures detections == old(detections) + [(content, filename)] && extractions == old(extractions)
    {
      mediaType := detect(content, filename);
      detections := detections + [(content, filename)];
    }
  }

  class TikaDocumentParser {
    const tika: Tika

    constructor (tika: Tika)
      ensures this.tika == tika
    {
      this.tika := tika;
    }

    /** `parse`: empty input is refused before Tika sees it; the detector
        runs only when extraction succeeded and no content type was given. */
    method Parse(content: Option<seq<bv8>>, filename: Option<string>, contentType: Option<string>)
      returns (result: Result<ParsedDocument>)
      modifies tika
      ensures content.None? || content.value == [] ==>
        && result == Err(IllegalArgument(FileContentIsEmpty))
        && tika.extractions == old(tika.extractions) && tika.detections == old(tika.detections)
      ensures content.Some? && content.value != [] ==>
        var extraction := tika.extract(content.value);
        var detects := extraction.Extracted? && !HasText(contentType);
        && tika.extractions == old(tika.extractions) + [content.value]
        && tika.detections == old(tika.detections) + (if detects then [(content.value, filename)] else [])
        && result == ParseResult(content, contentType, extraction, tika.detect(content.value, filename))
    {
      if content.None? || content.value == [] {
        return Err(IllegalArgument(FileContentIsEmpty));
      }
      var extraction := tika.ParseToString(content.value);
      if extraction.ExtractionFailed? {
        return Err(IllegalArgument(UnableToParse));
      }
      var detectedType: string;
      if HasText(contentType) {
        detectedType := contentType.value;
      } else {
        detectedType := tika.Detect(content.value, filename);
      }
      var normalized := Normalize(extraction.text);
      if !HasText(Some(normalized)) {
        return Err(IllegalArgument(NoExtractableText));
      }
      result := Ok(ParsedDocument(normalized, detectedType));
    }
  }
}
