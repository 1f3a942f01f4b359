/**
 * Worked lines: what the `vue` rule table produces for typical Vue script
 * text, from the stack the line starts with.
 */
module VueExamples {
  import opened Patterns
  import opened VueLanguage
  import opened Tokenizer
  import opened VueFacts
  import opened VueLines

  // ---------------------------------------------------------------------
  // One-token lines

  /** `ref` is in the keyword list. */
  lemma RefIsKeyword()
    ensures Tokenize("ref", InitialState) == Ok(LineTokens([Token(0, Keyword)], InitialState))
  {
    LowerIdentifierLine("ref", InitialState);
  }

  /** `refs` only starts with a keyword: the whole run decides. */
  lemma RefsIsIdentifier()
    ensures Tokenize("refs", InitialState) == Ok(LineTokens([Token(0, Identifier)], InitialState))
  {
    LowerIdentifierLine("refs", InitialState);
  }

  lemma ComponentNameIsTypeIdentifier()
    ensures Tokenize("MyComponent", InitialState) == Ok(LineTokens([Token(0, TypeIdentifier)], InitialState))
  {
    UpperIdentifierLine("MyComponent", InitialState);
  }

  lemma LineCommentExample()
    ensures Tokenize("// comment text", InitialState) == Ok(LineTokens([Token(0, Comment)], InitialState))
  {
    LineCommentLine("// comment text", InitialState);
  }

  /** An unclosed string is flagged on its own line and leaves the root state in place. */
  lemma UnclosedStringExample()
    ensures Tokenize("\"abc", InitialState) == Ok(LineTokens([Token(0, StringInvalid)], InitialState))
  {
    assert EscapedFrom('"', "\"abc", 1);
    UnterminatedStringLine("\"abc", InitialState);
  }

  lemma FloatExample()
    ensures Tokenize("3.14e10", InitialState) == Ok(LineTokens([Token(0, NumberFloat)], InitialState))
  {
    assert FloatLen("3.14e10") == 7;
    FloatStep("3.14e10");
    OneTokenLine("3.14e10", InitialState);
  }

  lemma FractionExample()
    ensures Tokenize(".5", InitialState) == Ok(LineTokens([Token(0, NumberFloat)], InitialState))
  {
    assert FloatLen(".5") == 2;
    FloatStep(".5");
    OneTokenLine(".5", InitialState);
  }

  lemma HexExample()
    ensures Tokenize("0xFF", InitialState) == Ok(LineTokens([Token(0, NumberHex)], InitialState))
  {
    assert FloatLen("0xFF") == 0 && HexLen("0xFF") == 4;
    HexStep("0xFF");
    OneTokenLine("0xFF", InitialState);
  }

  lemma NumberExample()
    ensures Tokenize("42", InitialState) == Ok(LineTokens([Token(0, Number)], InitialState))
  {
    assert FloatLen("42") == 0 && HexLen("42") == 0 && Run("42", 0, Digit) == 2;
    DigitsStep("42");
    DigitsStepLength("42");
    OneTokenLine("42", InitialState);
  }

  /** A close of a comment on a stack with nothing under it is the engine's pop error. */
  lemma PopOfLastStateExample()
    ensures Tokenize("*/", [InComment]) == Err(PopOfLastState(0))
  {
    assert "*/"[0..] == "*/";
    assert Step(InComment, "*/") == StepResult(Comment, 2, Pop);
  }

  // ---------------------------------------------------------------------
  // Lines of several tokens
  //
  // From here on most lemmas take the line as a parameter that a `requires`
  // pins to one literal, rather than writing the literal in the contract.
  // Dafny evaluates functions applied to literals eagerly, and a whole line
  // of tokenizer steps evaluated that way is far too costly to verify; with
  // a parameter the proof goes one step at a time, through the `At` (one
  // step) and `From` (rest of the line) lemmas below.

  /** A comment opened on a line and not closed carries into the next line. */
  lemma OpenCommentExample()
    ensures Tokenize("/* start", InitialState)
         == Ok(LineTokens([Token(0, Comment), Token(2, Comment)], [Root, InComment]))
  {
    assert InitialState + [InComment] == [Root, InComment];
    OpenCommentLine("/* start", InitialState);
  }

  /** The comment closes and the stack returns to the root. */
  lemma CloseCommentExample(line: string)
    requires line == "end */"
    ensures Tokenize(line, [Root, InComment])
         == Ok(LineTokens([Token(0, Comment), Token(4, Comment)], [Root]))
  {
    CloseCommentAt0(line);
    CloseCommentFrom4(line);
    StepThen(line, 0, [Root, InComment], Step(InComment, line[0..]), [Root, InComment],
             LineTokens([Token(4, Comment)], [Root]));
    assert [Token(0, Comment)] + [Token(4, Comment)] == [Token(0, Comment), Token(4, Comment)];
  }

  lemma CloseCommentAt0(line: string)
    requires line == "end */"
    ensures Step(InComment, line[0..]) == StepResult(Comment, 4, Stay)
  {
    assert line[0..] == line && Run("end */", 0, CommentBody) == 4;
    CommentTextStep(line);
  }

  lemma CloseCommentFrom4(line: string)
    requires line == "end */"
    ensures TokenizeFrom(line, 4, [Root, InComment]) == Ok(LineTokens([Token(4, Comment)], [Root]))
  {
    assert line[4..] == "*/";
    CommentCloseStep(line[4..]);
    assert [Root, InComment][..1] == [Root];
    StepLast(line, 4, [Root, InComment], Step(InComment, line[4..]), [Root]);
  }

  /** A closed string with an escape: quote, text, escape, text, quote, and back to the root. */
  lemma EscapeExample(line: string)
    requires line == "\"a\\tb\""
    ensures Tokenize(line, InitialState)
         == Ok(LineTokens([Token(0, String), Token(1, String), Token(2, StringEscape),
                           Token(4, String), Token(5, String)], InitialState))
  {
    EscapeFrom0(line);
  }

  lemma EscapeFrom0(line: string)
    requires line == "\"a\\tb\""
    ensures TokenizeFrom(line, 0, [Root])
         == Ok(LineTokens([Token(0, String), Token(1, String), Token(2, StringEscape),
                           Token(4, String), Token(5, String)], [Root]))
  {
    EscapeAt0(line);
    EscapeFrom1(line);
    assert [Root] + [InString('"')] == [Root, InString('"')];
    StepThen(line, 0, [Root], StepResult(String, 1, Push(InString('"'))), [Root, InString('"')],
             LineTokens([Token(1, String), Token(2, StringEscape), Token(4, String), Token(5, String)], [Root]));
    assert [Token(0, String)] + [Token(1, String), Token(2, StringEscape), Token(4, String), Token(5, String)]
        == [Token(0, String), Token(1, String), Token(2, StringEscape), Token(4, String), Token(5, String)];
  }

  lemma EscapeAt0(line: string)
    requires line == "\"a\\tb\""
    ensures Step(Root, line[0..]) == StepResult(String, 1, Push(InString('"')))
  {
    assert !EscapedFrom('"', line, 5);
    assert !EscapedFrom('"', line, 4);
    assert !EscapedFrom('"', line, 2);
    assert line[0..] == line && !EscapedFrom('"', line, 1);
    OpeningQuoteStep(line);
  }

  lemma EscapeFrom1(line: string)
    requires line == "\"a\\tb\""
    ensures TokenizeFrom(line, 1, [Root, InString('"')])
         == Ok(LineTokens([Token(1, String), Token(2, StringEscape), Token(4, String), Token(5, String)], [Root]))
  {
    var q := InString('"');
    EscapeAt1(line);
    EscapeFrom2(line);
    StepThen(line, 1, [Root, q], Step(q, line[1..]), [Root, q],
             LineTokens([Token(2, StringEscape), Token(4, String), Token(5, String)], [Root]));
    assert [Token(1, String)] + [Token(2, StringEscape), Token(4, String), Token(5, String)]
        == [Token(1, String), Token(2, StringEscape), Token(4, String), Token(5, String)];
  }

  lemma EscapeAt1(line: string)
    requires line == "\"a\\tb\""
    ensures Step(InString('"'), line[1..]) == StepResult(String, 1, Stay)
  {
    assert line[1..] == "a\\tb\"" && Run("a\\tb\"", 0, StringBody) == 1;
    StringTextStep('"', line[1..]);
  }

  lemma EscapeFrom2(line: string)
    requires line == "\"a\\tb\""
    ensures TokenizeFrom(line, 2, [Root, InString('"')])
         == Ok(LineTokens([Token(2, StringEscape), Token(4, String), Token(5, String)], [Root]))
  {
    var q := InString('"');
    EscapeFrom4(line);
    EscapeAt2(line);
    StepThen(line, 2, [Root, q], Step(q, line[2..]), [Root, q],
             LineTokens([Token(4, String), Token(5, String)], [Root]));
    assert [Token(2, StringEscape)] + [Token(4, String), Token(5, String)]
        == [Token(2, StringEscape), Token(4, String), Token(5, String)];
  }

  lemma EscapeAt2(line: string)
    requires line == "\"a\\tb\""
    ensures Step(InString('"'), line[2..]) == StepResult(StringEscape, 2, Stay)
  {
    assert line[2..] == "\\tb\"" && EscapeLen("\\tb\"") == 2;
    StringEscapeStep('"', line[2..]);
  }

  lemma EscapeFrom4(line: string)
    requires line == "\"a\\tb\""
    ensures TokenizeFrom(line, 4, [Root, InString('"')])
         == Ok(LineTokens([Token(4, String), Token(5, String)], [Root]))
  {
    var q := InString('"');
    EscapeAt4(line);
    EscapeFrom5(line);
    StepThen(line, 4, [Root, q], Step(q, line[4..]), [Root, q], LineTokens([Token(5, String)], [Root]));
    assert [Token(4, String)] + [Token(5, String)] == [Token(4, String), Token(5, String)];
  }

  lemma EscapeAt4(line: string)
    requires line == "\"a\\tb\""
    ensures Step(InString('"'), line[4..]) == StepResult(String, 1, Stay)
  {
    assert line[4..] == "b\"" && Run("b\"", 0, StringBody) == 1;
    StringTextStep('"', line[4..]);
  }

  lemma EscapeFrom5(line: string)
    requires line == "\"a\\tb\""
    ensures TokenizeFrom(line, 5, [Root, InString('"')]) == Ok(LineTokens([Token(5, String)], [Root]))
  {
    var q := InString('"');
    assert line[5..] == "\"";
    StringQuoteStep('"', line[5..]);
    assert [Root, q][..1] == [Root];
    StepLast(line, 5, [Root, q], Step(q, line[5..]), [Root]);
  }

  /** The other kind of quote inside a string is text: five `string` tokens, and back to the root. */
  lemma OtherQuoteExample(line: string)
    requires line == "'a\"b'"
    ensures Tokenize(line, InitialState)
         == Ok(LineTokens([Token(0, String), Token(1, String), Token(2, String),
                           Token(3, String), Token(4, String)], InitialState))
  {
    OtherQuoteFrom0(line);
  }

  lemma OtherQuoteFrom0(line: string)
    requires line == "'a\"b'"
    ensures TokenizeFrom(line, 0, [Root])
         == Ok(LineTokens([Token(0, String), Token(1, String), Token(2, String),
                           Token(3, String), Token(4, String)], [Root]))
  {
    var q := InString('\'');
    OtherQuoteAt0(line);
    OtherQuoteFrom1(line);
    assert [Root] + [q] == [Root, q];
    StepThen(line, 0, [Root], StepResult(String, 1, Push(q)), [Root, q],
             LineTokens([Token(1, String), Token(2, String), Token(3, String), Token(4, String)], [Root]));
    assert [Token(0, String)] + [Token(1, String), Token(2, String), Token(3, String), Token(4, String)]
        == [Token(0, String), Token(1, String), Token(2, String), Token(3, String), Token(4, String)];
  }

  lemma OtherQuoteAt0(line: string)
    requires line == "'a\"b'"
    ensures Step(Root, line[0..]) == StepResult(String, 1, Push(InString('\'')))
  {
    assert !EscapedFrom('\'', line, 4);
    assert !EscapedFrom('\'', line, 3);
    assert !EscapedFrom('\'', line, 2);
    assert line[0..] == line && !EscapedFrom('\'', line, 1);
    OpeningQuoteStep(line);
  }

  lemma OtherQuoteFrom1(line: string)
    requires line == "'a\"b'"
    ensures TokenizeFrom(line, 1, [Root, InString('\'')])
         == Ok(LineTokens([Token(1, String), Token(2, String), Token(3, String), Token(4, String)], [Root]))
  {
    var q := InString('\'');
    OtherQuoteAt1(line);
    OtherQuoteFrom2(line);
    StepThen(line, 1, [Root, q], StepResult(String, 1, Stay), [Root, q],
             LineTokens([Token(2, String), Token(3, String), Token(4, String)], [Root]));
    assert [Token(1, String)] + [Token(2, String), Token(3, String), Token(4, String)]
        == [Token(1, String), Token(2, String), Token(3, String), Token(4, String)];
  }

  lemma OtherQuoteAt1(line: string)
    requires line == "'a\"b'"
    ensures Step(InString('\''), line[1..]) == StepResult(String, 1, Stay)
  {
    assert line[1..] == "a\"b'" && Run("a\"b'", 0, StringBody) == 1;
    StringTextStep('\'', line[1..]);
  }

  lemma OtherQuoteFrom2(line: string)
    requires line == "'a\"b'"
    ensures TokenizeFrom(line, 2, [Root, InString('\'')])
         == Ok(LineTokens([Token(2, String), Token(3, String), Token(4, String)], [Root]))
  {
    var q := InString('\'');
    assert line[2..] == "\"b'";
    StringQuoteStep('\'', line[2..]);
    OtherQuoteFrom3(line);
    StepThen(line, 2, [Root, q], StepResult(String, 1, Stay), [Root, q],
             LineTokens([Token(3, String), Token(4, String)], [Root]));
    assert [Token(2, String)] + [Token(3, String), Token(4, String)]
        == [Token(2, String), Token(3, String), Token(4, String)];
  }

  lemma OtherQuoteFrom3(line: string)
    requires line == "'a\"b'"
    ensures TokenizeFrom(line, 3, [Root, InString('\'')])
         == Ok(LineTokens([Token(3, String), Token(4, String)], [Root]))
  {
    var q := InString('\'');
    OtherQuoteAt3(line);
    OtherQuoteFrom4(line);
    StepThen(line, 3, [Root, q], StepResult(String, 1, Stay), [Root, q], LineTokens([Token(4, String)], [Root]));
    assert [Token(3, String)] + [Token(4, String)] == [Token(3, String), Token(4, String)];
  }

  lemma OtherQuoteAt3(line: string)
    requires line == "'a\"b'"
    ensures Step(InString('\''), line[3..]) == StepResult(String, 1, Stay)
  {
    assert line[3..] == "b'" && Run("b'", 0, StringBody) == 1;
    StringTextStep('\'', line[3..]);
  }

  lemma OtherQuoteFrom4(line: string)
    requires line == "'a\"b'"
    ensures TokenizeFrom(line, 4, [Root, InString('\'')]) == Ok(LineTokens([Token(4, String)], [Root]))
  {
    var q := InString('\'');
    assert line[4..] == "'";
    StringQuoteStep('\'', line[4..]);
    assert [Root, q][..1] == [Root];
    StepLast(line, 4, [Root, q], StepResult(String, 1, Pop), [Root]);
  }

  /**
   * A backslash ending the line matches none of the string rules: it is one
   * default token, and the string stays open into the next line.
   */
  lemma TrailingBackslashExample(line: string)
    requires line == "\"abc\\"
    ensures Tokenize(line, InitialState)
         == Ok(LineTokens([Token(0, String), Token(1, String), Token(4, Default)], [Root, InString('"')]))
  {
    TrailingBackslashFrom0(line);
  }

  lemma TrailingBackslashFrom0(line: string)
    requires line == "\"abc\\"
    ensures TokenizeFrom(line, 0, [Root])
         == Ok(LineTokens([Token(0, String), Token(1, String), Token(4, Default)], [Root, InString('"')]))
  {
    var q := InString('"');
    TrailingBackslashAt0(line);
    TrailingBackslashFrom1(line);
    assert [Root] + [q] == [Root, q];
    StepThen(line, 0, [Root], StepResult(String, 1, Push(q)), [Root, q],
             LineTokens([Token(1, String), Token(4, Default)], [Root, q]));
    assert [Token(0, String)] + [Token(1, String), Token(4, Default)]
        == [Token(0, String), Token(1, String), Token(4, Default)];
  }

  lemma TrailingBackslashAt0(line: string)
    requires line == "\"abc\\"
    ensures Step(Root, line[0..]) == StepResult(String, 1, Push(InString('"')))
  {
    assert !EscapedFrom('"', line, 4);
    assert !EscapedFrom('"', line, 3);
    assert !EscapedFrom('"', line, 2);
    assert line[0..] == line && !EscapedFrom('"', line, 1);
    OpeningQuoteStep(line);
  }

  lemma TrailingBackslashFrom1(line: string)
    requires line == "\"abc\\"
    ensures TokenizeFrom(line, 1, [Root, InString('"')])
         == Ok(LineTokens([Token(1, String), Token(4, Default)], [Root, InString('"')]))
  {
    var q := InString('"');
    TrailingBackslashAt1(line);
    assert line[4..] == "\\";
    StringDanglingBackslashStep('"', line[4..]);
    StepLast(line, 4, [Root, q], StepResult(Default, 1, Stay), [Root, q]);
    StepThen(line, 1, [Root, q], StepResult(String, 3, Stay), [Root, q],
             LineTokens([Token(4, Default)], [Root, q]));
    assert [Token(1, String)] + [Token(4, Default)] == [Token(1, String), Token(4, Default)];
  }

  lemma TrailingBackslashAt1(line: string)
    requires line == "\"abc\\"
    ensures Step(InString('"'), line[1..]) == StepResult(String, 3, Stay)
  {
    assert line[1..] == "abc\\" && Run("abc\\", 0, StringBody) == 3;
    StringTextStep('"', line[1..]);
  }

  // ---------------------------------------------------------------------
  // Several lines (the lines are parameters for the same reason)

  /** A comment opened on one line and closed on the next; the document returns to the root state. */
  lemma TwoLineCommentExample(first: string, second: string)
    requires first == "/* a" && second == "b */ ref"
    ensures TokenizeLines([first, second], InitialState)
         == Ok(([[Token(0, Comment), Token(2, Comment)],
                 [Token(0, Comment), Token(2, Comment), Token(4, White), Token(5, Keyword)]], InitialState))
  {
    var closing := [Token(0, Comment), Token(2, Comment), Token(4, White), Token(5, Keyword)];
    OpeningLine(first);
    ClosingDocument(second);
    TokenizeLinesCons(first, [second], InitialState, LineTokens([Token(0, Comment), Token(2, Comment)], [Root, InComment]),
                      ([closing], [Root]));
    assert [first] + [second] == [first, second];
    assert [[Token(0, Comment), Token(2, Comment)]] + [closing] == [[Token(0, Comment), Token(2, Comment)], closing];
  }

  lemma ClosingDocument(line: string)
    requires line == "b */ ref"
    ensures TokenizeLines([line], [Root, InComment])
         == Ok(([[Token(0, Comment), Token(2, Comment), Token(4, White), Token(5, Keyword)]], [Root]))
  {
    var closing := [Token(0, Comment), Token(2, Comment), Token(4, White), Token(5, Keyword)];
    ClosingLineFrom0(line);
    assert TokenizeLines([], [Root]) == Ok(([], [Root]));
    TokenizeLinesCons(line, [], [Root, InComment], LineTokens(closing, [Root]), ([], [Root]));
    assert [line] + [] == [line] && [closing] + [] == [closing];
  }

  lemma OpeningLine(line: string)
    requires line == "/* a"
    ensures Tokenize(line, InitialState) == Ok(LineTokens([Token(0, Comment), Token(2, Comment)], [Root, InComment]))
  {
    assert InitialState + [InComment] == [Root, InComment];
    OpenCommentLine(line, InitialState);
  }

  lemma ClosingLineFrom0(line: string)
    requires line == "b */ ref"
    ensures TokenizeFrom(line, 0, [Root, InComment])
         == Ok(LineTokens([Token(0, Comment), Token(2, Comment), Token(4, White), Token(5, Keyword)], [Root]))
  {
    ClosingLineAt0(line);
    ClosingLineFrom2(line);
    StepThen(line, 0, [Root, InComment], StepResult(Comment, 2, Stay), [Root, InComment],
             LineTokens([Token(2, Comment), Token(4, White), Token(5, Keyword)], [Root]));
    assert [Token(0, Comment)] + [Token(2, Comment), Token(4, White), Token(5, Keyword)]
        == [Token(0, Comment), Token(2, Comment), Token(4, White), Token(5, Keyword)];
  }

  lemma ClosingLineAt0(line: string)
    requires line == "b */ ref"
    ensures Step(InComment, line[0..]) == StepResult(Comment, 2, Stay)
  {
    assert Run(line, 2, CommentBody) == 0 && Run(line, 1, CommentBody) == 1;
    assert line[0..] == line && Run(line, 0, CommentBody) == 2;
    CommentTextStep(line);
  }

  lemma ClosingLineFrom2(line: string)
    requires line == "b */ ref"
    ensures TokenizeFrom(line, 2, [Root, InComment])
         == Ok(LineTokens([Token(2, Comment), Token(4, White), Token(5, Keyword)], [Root]))
  {
    assert line[2..] == "*/ ref";
    CommentCloseStep(line[2..]);
    ClosingLineFrom4(line);
    assert [Root, InComment][..1] == [Root];
    StepThen(line, 2, [Root, InComment], StepResult(Comment, 2, Pop), [Root],
             LineTokens([Token(4, White), Token(5, Keyword)], [Root]));
    assert [Token(2, Comment)] + [Token(4, White), Token(5, Keyword)]
        == [Token(2, Comment), Token(4, White), Token(5, Keyword)];
  }

  lemma ClosingLineFrom4(line: string)
    requires line == "b */ ref"
    ensures TokenizeFrom(line, 4, [Root]) == Ok(LineTokens([Token(4, White), Token(5, Keyword)], [Root]))
  {
    ClosingLineAt4(line);
    ClosingLineAt5(line);
    StepLast(line, 5, [Root], StepResult(Keyword, 3, Stay), [Root]);
    StepThen(line, 4, [Root], StepResult(White, 1, Stay), [Root], LineTokens([Token(5, Keyword)], [Root]));
    assert [Token(4, White)] + [Token(5, Keyword)] == [Token(4, White), Token(5, Keyword)];
  }

  lemma ClosingLineAt4(line: string)
    requires line == "b */ ref"
    ensures Step(Root, line[4..]) == StepResult(White, 1, Stay)
  {
    assert line[4..] == " ref" && Run(" ref", 0, Space) == 1;
    BlanksStep(line[4..]);
  }

  lemma ClosingLineAt5(line: string)
    requires line == "b */ ref"
    ensures Step(Root, line[5..]) == StepResult(Keyword, 3, Stay)
  {
    var s := line[5..];
    assert s == "ref" && s[..3] == s;
    assert Run(s, 1, IdentPart) == 2;
    StepByRule(Root, s, 0);
  }
}
