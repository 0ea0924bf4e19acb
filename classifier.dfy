/**
 * `classifyText` of the translate endpoint: the input is trimmed, then four
 * regular expressions are tried in a fixed order on the trimmed text. Each
 * expression is written below as its own predicate on characters.
 */
module Classifier {
  import opened Wrappers
  import opened Text

  /** The classes of the `TextClass` enumeration. */
  datatype TextClass = Word | Phrase | Paragraph | MultipleLines | Unclassified

  /** What `classifyText` returns: "Empty input" or one of the classes. */
  datatype Classification = EmptyInput | Classified(textClass: TextClass)

  /** `\w` of a JavaScript regular expression without the `u` flag. */
  predicate IsWordChar(c: char)
  {
    ('A' <= c <= 'Z') || ('a' <= c <= 'z') || ('0' <= c <= '9') || c == '_'
  }

  predicate IsUpperAscii(c: char)
  {
    'A' <= c <= 'Z'
  }

  /** `[\.\?\!]` */
  predicate IsSentenceEnd(c: char)
  {
    c == '.' || c == '?' || c == '!'
  }

  /** `/^\w+$/` */
  predicate WordRegex(t: string)
  {
    |t| > 0 && forall i :: 0 <= i < |t| ==> IsWordChar(t[i])
  }

  /** `/^[A-Z].*[\.\?\!]$/`, where `.` matches anything but a line terminator. */
  predicate SentenceRegex(t: string)
  {
    && |t| >= 2
    && IsUpperAscii(t[0])
    && IsSentenceEnd(t[|t| - 1])
    && forall i :: 1 <= i < |t| - 1 ==> !IsLineTerminator(t[i])
  }

  /** `/^[^\n]{50,}$/`: without the `u` flag the count is of UTF-16 code units. */
  predicate ParagraphRegex(t: string)
  {
    Utf16Length(t) >= 50 && forall i :: 0 <= i < |t| ==> t[i] != '\n'
  }

  /**
   * `/^(.+(\n)+)+.+$/`, by the shape of the strings it accepts: only `\n`
   * among the line terminators, a `\n` somewhere, and none at either end.
   */
  predicate MultiLineRegex(t: string)
  {
    && |t| > 0
    && t[0] != '\n'
    && t[|t| - 1] != '\n'
    && (exists i :: 0 <= i < |t| && t[i] == '\n')
    && forall i :: 0 <= i < |t| ==> t[i] == '\n' || !IsLineTerminator(t[i])
  }

  /** The four tests, in their order, on the trimmed text. */
  function ClassOf(t: string): TextClass
  {
    if WordRegex(t) then Word
    else if ParagraphRegex(t) then Paragraph
    else if MultiLineRegex(t) then MultipleLines
    else if SentenceRegex(t) then Phrase
    else Unclassified
  }

  function Classify(text: string): (r: Classification)
    ensures r == EmptyInput <==> Trim(text) == []
    ensures r.Classified? ==> r.textClass == ClassOf(Trim(text))
  {
    var t := Trim(text);
    if t == [] then EmptyInput else Classified(ClassOf(t))
  }

  // ---------------------------------------------------------------------
  // The regular expression (.+\n+)+.+ read literally, and its equivalence
  // with the shape used by the classifier.

  /** `.+` */
  ghost predicate Dots(s: string)
  {
    |s| > 0 && forall i :: 0 <= i < |s| ==> !IsLineTerminator(s[i])
  }

  /** `\n+` */
  ghost predicate Newlines(s: string)
  {
    |s| > 0 && forall i :: 0 <= i < |s| ==> s[i] == '\n'
  }

  /** `(.+\n+)+.+`: a line, a run of newlines, and then either a last line or more of the same. */
  ghost predicate Lines(s: string)
    decreases |s|
  {
    exists i, j :: 0 < i < j < |s| && Dots(s[..i]) && Newlines(s[i..j]) && (Dots(s[j..]) || Lines(s[j..]))
  }

  lemma {:induction false} LinesHasShape(s: string)
    requires Lines(s)
    ensures MultiLineRegex(s)
  {
    var i, j :| 0 < i < j < |s| && Dots(s[..i]) && Newlines(s[i..j]) && (Dots(s[j..]) || Lines(s[j..]));
    var rest := s[j..];
    if !Dots(rest) {
      LinesHasShape(rest);
    }
    assert s[0] == s[..i][0];
    assert s[i] == s[i..j][0];
    assert s[|s| - 1] == rest[|rest| - 1];
    forall k | 0 <= k < |s| ensures s[k] == '\n' || !IsLineTerminator(s[k]) {
      if k < i { assert s[k] == s[..i][k]; }
      else if k < j { assert s[k] == s[i..j][k - i]; }
      else { assert s[k] == rest[k - j]; }
    }
  }

  /** The end of the run of newlines that starts at `i`. */
  function SkipNewlines(s: string, i: nat): (j: nat)
    requires i <= |s|
    decreases |s| - i
    ensures i <= j <= |s| && (j < |s| ==> s[j] != '\n')
    ensures forall k :: i <= k < j ==> s[k] == '\n'
  {
    if i < |s| && s[i] == '\n' then SkipNewlines(s, i + 1) else i
  }

  lemma {:induction false} ShapeIsLines(s: string)
    requires MultiLineRegex(s)
    ensures Lines(s)
    decreases |s|
  {
    var first := IndexOf(s, "\n", 0);
    var w :| 0 <= w < |s| && s[w] == '\n';
    assert OccursAt(s, "\n", w);
    var i := first.value;
    assert s[i] == '\n';
    assert i > 0;
    var j := SkipNewlines(s, i);
    assert s[|s| - 1] != '\n' && i <= |s| - 1;
    assert j < |s|;
    assert j > i;
    assert Dots(s[..i]) by {
      forall k | 0 <= k < i ensures !IsLineTerminator(s[..i][k]) {
        assert !OccursAt(s, "\n", k);
        assert s[k..k + 1] == [s[k]];
      }
    }
    assert Newlines(s[i..j]);
    var rest := s[j..];
    assert rest[0] == s[j] && rest[|rest| - 1] == s[|s| - 1];
    assert forall k :: 0 <= k < |rest| ==> rest[k] == s[j + k];
    if exists k :: 0 <= k < |rest| && rest[k] == '\n' {
      ShapeIsLines(rest);
    } else {
      assert Dots(rest);
    }
  }

  /** The classifier's multi-line test accepts exactly the strings the regular expression does. */
  lemma MultiLineRegexIsLines(s: string)
    ensures MultiLineRegex(s) <==> Lines(s)
  {
    if MultiLineRegex(s) { ShapeIsLines(s); }
    if Lines(s) { LinesHasShape(s); }
  }

  // ---------------------------------------------------------------------
  // What the classifier promises.

  /** Every test runs on the trimmed text, so surrounding spaces never change the class. */
  lemma ClassifyIgnoresSurroundingSpace(text: string)
    ensures Classify(Trim(text)) == Classify(text)
  {
    TrimIdempotent(text);
  }

  /** "Empty input" exactly for text made only of spaces and line terminators. */
  lemma EmptyInputIffBlank(text: string)
    ensures Classify(text) == EmptyInput <==> AllSpace(text)
  {
    TrimEmptyIffAllSpace(text);
  }

  /** Word exactly when the trimmed text is one or more ASCII letters, digits or underscores. */
  lemma WordIff(text: string)
    ensures Classify(text) == Classified(Word) <==> WordRegex(Trim(text))
  {
    var t := Trim(text);
    assert t == [] ==> !WordRegex(t);
  }

  /** A text holding any character outside `[A-Za-z0-9_]` other than a space, such as 'é' or '-', is never a Word. */
  lemma {:induction false} ForeignCharNeverWord(text: string, i: nat)
    requires i < |text| && !IsJsSpace(text[i]) && !IsWordChar(text[i])
    ensures Classify(text) != Classified(Word)
  {
    TrimKeepsNonSpace(text, i);
    var t := Trim(text);
    var k :| 0 <= k < |t| && t[k] == text[i];
    assert !WordRegex(t);
  }

  /** Paragraph exactly when the text is not a Word, is 50 or more UTF-16 code units long after trimming, and has no `\n`. */
  lemma ParagraphIff(text: string)
    ensures Classify(text) == Classified(Paragraph)
      <==> !WordRegex(Trim(text)) && Utf16Length(Trim(text)) >= 50 && '\n' !in Trim(text)
  {
    var t := Trim(text);
    assert ParagraphRegex(t) <==> Utf16Length(t) >= 50 && '\n' !in t;
  }

  /**
   * MultipleLines exactly when the trimmed text is two or more non-empty
   * lines separated by runs of `\n`, none of which holds another line terminator.
   */
  lemma {:induction false} MultipleLinesIff(text: string)
    ensures Classify(text) == Classified(MultipleLines) <==> Lines(Trim(text))
  {
    var t := Trim(text);
    MultiLineRegexIsLines(t);
    if MultiLineRegex(t) {
      var w :| 0 <= w < |t| && t[w] == '\n';
      assert !IsWordChar(t[w]);
      assert !ParagraphRegex(t);
    }
  }

  /** A `\r\n` line break (or a bare `\r`) keeps a text out of MultipleLines. */
  lemma {:induction false} CarriageReturnNotMultipleLines(text: string, i: nat)
    requires i < |Trim(text)| && Trim(text)[i] == '\r'
    ensures Classify(text) != Classified(MultipleLines)
  {
    var t := Trim(text);
    assert !(t[i] == '\n' || !IsLineTerminator(t[i]));
  }

  /**
   * Precedence between Paragraph and Phrase: a capitalised single line that
   * ends in `.`, `?` or `!` is a Phrase when shorter than 50 UTF-16 code
   * units and a Paragraph otherwise; it is never a Word or MultipleLines.
   */
  lemma {:induction false} SentencePrecedence(text: string)
    requires SentenceRegex(Trim(text))
    ensures Classify(text) == Classified(if Utf16Length(Trim(text)) >= 50 then Paragraph else Phrase)
  {
    var t := Trim(text);
    assert !WordRegex(t) by {
      assert !IsWordChar(t[|t| - 1]);
    }
    assert forall i :: 0 <= i < |t| ==> t[i] != '\n' by {
      assert !IsLineTerminator(t[0]) && !IsLineTerminator(t[|t| - 1]);
    }
    if Utf16Length(t) >= 50 {
      assert ParagraphRegex(t);
    } else {
      assert !ParagraphRegex(t);
      assert !MultiLineRegex(t);
    }
  }

  /** Phrase exactly when the trimmed text is a sentence of fewer than 50 UTF-16 code units. */
  lemma {:induction false} PhraseIff(text: string)
    ensures Classify(text) == Classified(Phrase) <==> SentenceRegex(Trim(text)) && Utf16Length(Trim(text)) < 50
  {
    if SentenceRegex(Trim(text)) { SentencePrecedence(text); }
  }

  /** Unclassified exactly when the text is not blank and none of the four expressions accepts it. */
  lemma UnclassifiedIff(text: string)
    ensures Classify(text) == Classified(Unclassified) <==>
      Trim(text) != [] && !WordRegex(Trim(text)) && !ParagraphRegex(Trim(text))
      && !Lines(Trim(text)) && !SentenceRegex(Trim(text))
  {
    MultiLineRegexIsLines(Trim(text));
  }

  /**
   * A single line of fewer than 50 UTF-16 code units that is not one word and does
   * not end in `.`, `?` or `!` falls through to Unclassified, even when it
   * starts with a capital.
   */
  lemma UnpunctuatedUnclassified(text: string, i: nat)
    requires i < |Trim(text)| && !IsWordChar(Trim(text)[i])
    requires Utf16Length(Trim(text)) < 50 && !IsSentenceEnd(Trim(text)[|Trim(text)| - 1])
    requires forall k :: 0 <= k < |Trim(text)| ==> Trim(text)[k] != '\n'
    ensures Classify(text) == Classified(Unclassified)
  {
    var t := Trim(text);
    assert !WordRegex(t);
    assert !MultiLineRegex(t);
    assert !SentenceRegex(t);
  }

  /** "Hello there" is such a clause. */
  lemma UnpunctuatedClauseUnclassified(text: string)
    requires text == "Hello there"
    ensures Classify(text) == Classified(Unclassified)
  {
    assert !IsJsSpace(text[0]) && !IsJsSpace(text[|text| - 1]);
    assert TrimStart(text) == text;
    assert TrimEnd(text) == text;
    assert forall k :: 0 <= k < |text| ==> text[k] != '\n';
    UnpunctuatedUnclassified(text, 5);
  }

  /**
   * Twenty-five emoji are fifty code units, so the paragraph test accepts
   * them although they are only twenty-five characters.
   */
  lemma AstralRunIsParagraph()
    ensures Classify(seq(25, _ => '\U{1F600}')) == Classified(Paragraph)
  {
    var t: string := seq(25, _ => '\U{1F600}');
    assert !IsJsSpace(t[0]) && !IsJsSpace(t[|t| - 1]);
    assert TrimStart(t) == t;
    assert TrimEnd(t) == t;
    Utf16LengthAstral(t);
    assert !IsWordChar(t[0]);
  }
}
