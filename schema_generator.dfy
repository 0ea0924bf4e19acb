/**
 * `getSchemaInstructions(exampleCount, word, wordType)`: the instructions
 * the translate endpoint appends to its user message. The text is a fixed
 * template with three "... if <wordType> is ..." branches; the word type is
 * only interpolated into the headings, so every branch is always present and
 * the model is left to pick one. The Word branch lists the example lines
 * and the French conjugation shape, the Multiple-lines branch has one entry
 * per line of the input.
 */
module SchemaGenerator {
  import opened Text
  import opened PromptText
  import opened ConjugationTemplate

  /** The line break and indentation before each "... if" branch. */
  const BranchIndent: string :=
    "\n                "

  const WordHeadingTail: string :=
    " is a \"Word\", include:"

  /** The Word shape up to the example lines. */
  const WordShapeOpen: string :=
    "\n                \"{"
    + "\n                  \"language\": \"LanguageName\","
    + "\n                  \"meaning\": ["
    + "\n                    {"
    + "\n                      \"value\": \"meaning-in-this-language\","
    + "\n                      \"type\": \"part-of-speech\","
    + "\n                      "

  /** Between the example lines and the conjugation branch. */
  const WordShapeMid: string :=
    "\n                    }"
    + "\n                  ],"
    + "\n                  "

  /** The end of the Word shape. */
  const WordShapeClose: string :=
    "\n                }"

  const PhraseHeadingTail: string :=
    " is a \"Phrase or Sentence\" or a \"Paragraph\", do not include examples, only include:"

  /** The Phrase/Paragraph shape: one meaning with a value only. */
  const PhraseShape: string :=
    "\n                \"{"
    + "\n                  \"language\": \"LanguageName\","
    + "\n                  \"meaning\": ["
    + "\n                    {"
    + "\n                      \"value\": \"meaning-in-this-language\","
    + "\n                    }"
    + "\n                  ]"
    + "\n                }"

  const MultiHeadingTail: string :=
    " is a \"Multiple lines\", do not include examples, only include:"

  /** The Multiple-lines shape up to its entries. */
  const MultiShapeOpen: string :=
    "\n                \"{"
    + "\n                  \"language\": \"LanguageName\","
    + "\n                  \"meaning\": ["
    + "\n                    ..."

  /** The end of the Multiple-lines shape. */
  const MultiShapeClose: string :=
    "\n                  ]"
    + "\n                }"

  /** The text of one multi-line entry before the trimmed line. */
  const EntryOpen: string :=
    "{"
    + "\n                      \"value\": \"meaning-of-'"

  /** The text of one multi-line entry after the trimmed line. */
  const EntryClose: string :=
    "'-in-this-language\""
    + "\n                    }"

  /** The separator `',\n' + 20 spaces` between multi-line entries. */
  const EntrySeparator: string :=
    ","
    + "\n                    "

  /** The text of the instructions before the branches. */
  const Preamble: string :=
    "\n      Return the response as a valid JSON object with exactly this structure, note that the conjugation part should be outside the meaning:"
    + "\n      ["
    + "\n        "

  /** The text of the instructions after the branches. */
  const Trailer: string :=
    "\n      ]"
    + "\n      "
    + "\n      Do not include any explanation, just return valid JSON that can be parsed directly."
    + "\n      "

  const BranchIf: string := "... if "

  function WordHeading(wordType: string): string
  {
    BranchIf + wordType + WordHeadingTail
  }

  function PhraseHeading(wordType: string): string
  {
    BranchIf + wordType + PhraseHeadingTail
  }

  function MultiHeading(wordType: string): string
  {
    BranchIf + wordType + MultiHeadingTail
  }

  /** The entry for one line of the input: the trimmed line inside the value placeholder. */
  function MultiLineEntry(line: string): string
  {
    EntryOpen + Trim(line) + EntryClose
  }

  /** `word.split('\n').map(line => entry(line))` */
  function MultiLineEntries(word: string): (r: seq<string>)
    ensures |r| == |Split(word, '\n')|
  {
    var lines := Split(word, '\n');
    seq(|lines|, i requires 0 <= i < |lines| => MultiLineEntry(lines[i]))
  }

  /** The entries joined by `EntrySeparator`. */
  function MultiLineSection(word: string): string
  {
    Join(MultiLineEntries(word), EntrySeparator)
  }

  /** The Word branch's shape after the example lines: the conjugation branch and the closing brace. */
  const WordShapeRest: string := WordShapeMid + ConjugationBlock + WordShapeClose

  /** The Word shape, holding the example lines. */
  function WordShape(exampleCount: nat): string
  {
    WordShapeOpen + ExampleSection(exampleCount) + WordShapeRest
  }

  /** The Multiple-lines shape, holding one entry per line. */
  function MultiShape(word: string): string
  {
    MultiShapeOpen + MultiLineSection(word) + MultiShapeClose
  }

  function WordBranch(exampleCount: nat, wordType: string): string
  {
    BranchIndent + WordHeading(wordType) + WordShape(exampleCount)
  }

  function PhraseBranch(wordType: string): string
  {
    BranchIndent + PhraseHeading(wordType) + PhraseShape
  }

  function MultiBranch(word: string, wordType: string): string
  {
    BranchIndent + MultiHeading(wordType) + MultiShape(word)
  }

  /** The three branches, in the order the template writes them. */
  function Branches(exampleCount: nat, word: string, wordType: string): string
  {
    WordBranch(exampleCount, wordType) + PhraseBranch(wordType) + MultiBranch(word, wordType)
  }

  /**
   * `getSchemaInstructions(exampleCount, word, wordType)`: the literal text
   * of the template and its interpolations (the three headings, the example
   * lines, the conjugation branch and the multi-line entries), in order.
   */
  function Instructions(exampleCount: nat, word: string, wordType: string): string
  {
    Concat([Preamble, Branches(exampleCount, word, wordType), Trailer])
  }

  /*
   * Whatever the word type, the instructions hold all three branches, each
   * heading naming that word type: the word type selects no branch and the
   * reply's shape is left to the model.
   */

  /** Every branch occurs in the instructions. */
  lemma BranchesPresent(exampleCount: nat, word: string, wordType: string)
    ensures Contains(Instructions(exampleCount, word, wordType), WordBranch(exampleCount, wordType))
    ensures Contains(Instructions(exampleCount, word, wordType), PhraseBranch(wordType))
    ensures Contains(Instructions(exampleCount, word, wordType), MultiBranch(word, wordType))
  {
    var ins := Instructions(exampleCount, word, wordType);
    var bs := Branches(exampleCount, word, wordType);
    ConcatThree(Preamble, bs, Trailer);
    ContainsThird(Preamble, bs, Trailer);
    ContainsThird(WordBranch(exampleCount, wordType), PhraseBranch(wordType), MultiBranch(word, wordType));
    ContainsTrans(ins, bs, WordBranch(exampleCount, wordType));
    ContainsTrans(ins, bs, PhraseBranch(wordType));
    ContainsTrans(ins, bs, MultiBranch(word, wordType));
  }

  /** The Word branch: its heading and the example lines. */
  lemma WordBranchPresent(exampleCount: nat, word: string, wordType: string)
    ensures Contains(Instructions(exampleCount, word, wordType), WordHeading(wordType))
    ensures Contains(Instructions(exampleCount, word, wordType), ExampleSection(exampleCount))
  {
    var ins := Instructions(exampleCount, word, wordType);
    var wb := WordBranch(exampleCount, wordType);
    BranchesPresent(exampleCount, word, wordType);
    ContainsThird(BranchIndent, WordHeading(wordType), WordShape(exampleCount));
    ContainsThird(WordShapeOpen, ExampleSection(exampleCount), WordShapeRest);
    ContainsTrans(ins, wb, WordHeading(wordType));
    ContainsTrans(ins, wb, WordShape(exampleCount));
    ContainsTrans(ins, WordShape(exampleCount), ExampleSection(exampleCount));
  }

  /** The conjugation branch inside the Word branch. */
  lemma ConjugationBranchPresent(exampleCount: nat, word: string, wordType: string)
    ensures Contains(Instructions(exampleCount, word, wordType), ConjugationBlock)
  {
    var ins := Instructions(exampleCount, word, wordType);
    BranchesPresent(exampleCount, word, wordType);
    ContainsThird(BranchIndent, WordHeading(wordType), WordShape(exampleCount));
    ContainsThird(WordShapeOpen, ExampleSection(exampleCount), WordShapeRest);
    ContainsThird(WordShapeMid, ConjugationBlock, WordShapeClose);
    ContainsTrans(ins, WordBranch(exampleCount, wordType), WordShape(exampleCount));
    ContainsTrans(ins, WordShape(exampleCount), WordShapeRest);
    ContainsTrans(ins, WordShapeRest, ConjugationBlock);
  }

  /** The Phrase/Paragraph branch. */
  lemma PhraseBranchPresent(exampleCount: nat, word: string, wordType: string)
    ensures Contains(Instructions(exampleCount, word, wordType), PhraseHeading(wordType))
    ensures Contains(Instructions(exampleCount, word, wordType), PhraseShape)
  {
    var ins := Instructions(exampleCount, word, wordType);
    BranchesPresent(exampleCount, word, wordType);
    ContainsThird(BranchIndent, PhraseHeading(wordType), PhraseShape);
    ContainsTrans(ins, PhraseBranch(wordType), PhraseHeading(wordType));
    ContainsTrans(ins, PhraseBranch(wordType), PhraseShape);
  }

  /** The Multiple-lines branch: its heading and one entry per line of the input. */
  lemma MultiBranchPresent(exampleCount: nat, word: string, wordType: string)
    ensures Contains(Instructions(exampleCount, word, wordType), MultiHeading(wordType))
    ensures Contains(Instructions(exampleCount, word, wordType), MultiLineSection(word))
  {
    var ins := Instructions(exampleCount, word, wordType);
    var mb := MultiBranch(word, wordType);
    BranchesPresent(exampleCount, word, wordType);
    ContainsThird(BranchIndent, MultiHeading(wordType), MultiShape(word));
    ContainsThird(MultiShapeOpen, MultiLineSection(word), MultiShapeClose);
    ContainsTrans(ins, mb, MultiHeading(wordType));
    ContainsTrans(ins, mb, MultiShape(word));
    ContainsTrans(ins, MultiShape(word), MultiLineSection(word));
  }

  /**
   * A text made of lines without line breaks gets one entry per line, in
   * order, each holding that line trimmed.
   */
  lemma MultiLineSectionLines(lines: seq<string>)
    requires |lines| >= 1
    requires forall p :: p in lines ==> '\n' !in p
    ensures |MultiLineEntries(Join(lines, "\n"))| == |lines|
    ensures forall i :: 0 <= i < |lines| ==>
      MultiLineEntries(Join(lines, "\n"))[i] == EntryOpen + Trim(lines[i]) + EntryClose
  {
    SplitJoin(lines, '\n');
    assert ['\n'] == "\n";
  }

  /** An input with no line break gets exactly one entry. */
  lemma SingleLineSection(word: string)
    requires '\n' !in word
    ensures MultiLineSection(word) == EntryOpen + Trim(word) + EntryClose
  {
    assert Split(word, '\n') == [word] by {
      SplitJoin([word], '\n');
      assert Join([word], ['\n']) == word;
    }
  }

  /**
   * The number of entries is one more than the number of line breaks, and
   * no entry's trimmed line holds a line break.
   */
  lemma MultiLineEntryCount(word: string)
    ensures |MultiLineEntries(word)| == Count(word, '\n') + 1
    ensures forall i :: 0 <= i < |Split(word, '\n')| ==> '\n' !in Split(word, '\n')[i]
  {
    SplitPieces(word, '\n');
    forall i | 0 <= i < |Split(word, '\n')| ensures '\n' !in Split(word, '\n')[i] {
      assert Split(word, '\n')[i] in Split(word, '\n');
    }
  }
}
