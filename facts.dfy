/**
 * What one step of the `vue` rule table does to each kind of text at the
 * cursor: one lemma per rule, in the order of the rule lists, and the
 * default step where no rule matches.
 */
module VueFacts {
  import opened Patterns
  import opened VueLanguage
  import opened Tokenizer

  /** Rule `i` of `top` matches at the start of `s`, and no rule before it does. */
  predicate WinsAt(top: State, s: seq<char>, i: nat) {
    && i < |Rules(top)|
    && MatchLen(Rules(top)[i].pattern, s) > 0
    && forall j :: 0 <= j < i ==> MatchLen(Rules(top)[j].pattern, s) == 0
  }

  /** `WinsAt` is the first-match condition stated over the matchers, `FirstMatching` the same over the expressions' languages. */
  lemma WinsAtIsFirstMatching(top: State, s: seq<char>, i: nat)
    ensures WinsAt(top, s, i) <==> FirstMatching(top, s, i)
  {
    var rules := Rules(top);
    forall j | 0 <= j < |rules|
      ensures MatchLen(rules[j].pattern, s) > 0 <==> exists k: nat :: MatchesAt(rules[j].pattern, s, k)
    {
      MatchLenIsLongest(rules[j].pattern, s);
      if MatchLen(rules[j].pattern, s) > 0 {
        assert MatchesAt(rules[j].pattern, s, MatchLen(rules[j].pattern, s));
      }
    }
  }

  lemma StepByRule(top: State, s: seq<char>, i: nat)
    requires |s| > 0 && WinsAt(top, s, i)
    ensures Step(top, s).length == MatchLen(Rules(top)[i].pattern, s)
    ensures (Step(top, s).category, Step(top, s).next)
         == Resolve(Rules(top)[i].action, s[..MatchLen(Rules(top)[i].pattern, s)], top)
  {
    var hit := FirstMatchFrom(Rules(top), s, 0);
    assert hit.Some? && hit.value.index == i;
  }

  // ---------------------------------------------------------------------
  // Root state: identifiers

  /**
   * A run starting with a-z, `_` or `$` is one token: `keyword` exactly when
   * the whole run is in the keyword list, `identifier` otherwise.
   */
  lemma LowerIdentifierStep(s: seq<char>)
    requires |s| > 0 && IsLowerIdentStart(s[0])
    ensures IsLongestMatch(LowerIdent, s, Step(Root, s).length)
    ensures Step(Root, s).next == Stay
    ensures Step(Root, s).category == Keyword <==> s[..Step(Root, s).length] in Keywords
    ensures Step(Root, s).category == Identifier <==> s[..Step(Root, s).length] !in Keywords
  {
    MatchLenIsLongest(LowerIdent, s);
  }

  /** A run starting with A-Z is a type identifier; the keyword list plays no part. */
  lemma UpperIdentifierStep(s: seq<char>)
    requires |s| > 0 && IsUpper(s[0])
    ensures IsLongestMatch(UpperIdent, s, Step(Root, s).length)
    ensures Step(Root, s) == StepResult(TypeIdentifier, Step(Root, s).length, Stay)
  {
    MatchLenIsLongest(UpperIdent, s);
    StepByRule(Root, s, 1);
  }

  // ---------------------------------------------------------------------
  // Root state: the whitespace rules spliced in

  lemma BlanksStep(s: seq<char>)
    requires |s| > 0 && In(s[0], Space)
    ensures IsLongestMatch(Blanks, s, Step(Root, s).length)
    ensures Step(Root, s) == StepResult(White, Run(s, 0, Space), Stay)
  {
    MatchLenIsLongest(Blanks, s);
    StepByRule(Root, s, 2);
  }

  /** Slash star is a comment token and enters the comment state. */
  lemma BlockCommentOpenStep(s: seq<char>)
    requires |s| >= 2 && s[0] == '/' && s[1] == '*'
    ensures Step(Root, s) == StepResult(Comment, 2, Push(InComment))
  {
    StepByRule(Root, s, 3);
  }

  /** Two slashes starting a line remainder free of line terminators: one comment token to the end of the line. */
  lemma LineCommentStep(s: seq<char>)
    requires |s| >= 2 && s[0] == '/' && s[1] == '/'
    requires forall i :: 2 <= i < |s| ==> !IsLineTerminator(s[i])
    ensures Step(Root, s) == StepResult(Comment, |s|, Stay)
  {
    AllInSlice(s, 2, |s|, NotLineEnd);
    StepByRule(Root, s, 4);
  }

  // ---------------------------------------------------------------------
  // Root state: quotes

  /**
   * A quote whose remainder is an escaped body not closed on the line is one
   * `string.invalid` token to the end of the line, and no state is pushed.
   */
  lemma UnterminatedStringStep(s: seq<char>)
    requires |s| > 0 && IsQuote(s[0]) && EscapedFrom(s[0], s, 1)
    ensures Step(Root, s) == StepResult(StringInvalid, |s|, Stay)
  {
    StepByRule(Root, s, if s[0] == '"' then 5 else 6);
  }

  /** Any other quote is a `string` token that enters the string state of that quote. */
  lemma OpeningQuoteStep(s: seq<char>)
    requires |s| > 0 && IsQuote(s[0]) && !EscapedFrom(s[0], s, 1)
    ensures Step(Root, s) == StepResult(String, 1, Push(InString(s[0])))
  {
    StepByRule(Root, s, if s[0] == '"' then 7 else 8);
  }

  // ---------------------------------------------------------------------
  // Root state: numbers

  /** A float (optional digits, point, digits, optional exponent) is tried first of the number rules. */
  lemma FloatStep(s: seq<char>)
    requires FloatLen(s) > 0
    ensures IsLongestMatch(Float, s, Step(Root, s).length)
    ensures Step(Root, s) == StepResult(NumberFloat, FloatLen(s), Stay)
  {
    assert IsDigit(s[0]) || s[0] == '.';
    MatchLenIsLongest(Float, s);
    StepByRule(Root, s, 9);
  }

  /** Then `0x` or `0X` and hex digits. */
  /** No float starts with `0x` or `0X`: the hex rule is never shadowed by the float rule before it. */
  lemma HexIsNoFloat(s: seq<char>)
    requires HexLen(s) > 0
    ensures FloatLen(s) == 0
  {
    assert Run(s, 1, Digit) == 0;
  }

  lemma HexStep(s: seq<char>)
    requires HexLen(s) > 0
    ensures IsLongestMatch(Hex, s, Step(Root, s).length)
    ensures Step(Root, s) == StepResult(NumberHex, HexLen(s), Stay)
  {
    HexIsNoFloat(s);
    MatchLenIsLongest(Hex, s);
    StepByRule(Root, s, 10);
  }

  /** Then a plain digit run. */
  lemma DigitsStep(s: seq<char>)
    requires |s| > 0 && IsDigit(s[0]) && FloatLen(s) == 0 && HexLen(s) == 0
    ensures IsLongestMatch(Digits, s, Step(Root, s).length)
    ensures Step(Root, s) == StepResult(Number, Step(Root, s).length, Stay)
  {
    MatchLenIsLongest(Digits, s);
    assert MatchLen(RootRules[2].pattern, s) == 0;
    assert MatchLen(RootRules[5].pattern, s) == 0;
    assert MatchLen(RootRules[6].pattern, s) == 0;
    StepByRule(Root, s, 11);
  }

  /** The number token is the whole run of digits. */
  lemma DigitsStepLength(s: seq<char>)
    requires |s| > 0 && IsDigit(s[0]) && FloatLen(s) == 0 && HexLen(s) == 0
    ensures Step(Root, s).length == Run(s, 0, Digit)
  {
    DigitsStep(s);
    MatchLenIsLongest(Digits, s);
    LongestMatchUnique(Digits, s, Step(Root, s).length, MatchLen(Digits, s));
  }

  /** A point that starts no float is one default token. */
  lemma LonePointStep(s: seq<char>)
    requires |s| > 0 && s[0] == '.' && FloatLen(s) == 0
    ensures Step(Root, s) == StepResult(Default, 1, Stay)
  {
  }

  /** A character that starts none of the root rules is one default token. */
  lemma RootDefaultStep(s: seq<char>)
    requires |s| > 0
    requires !IsLowerIdentStart(s[0]) && !IsUpper(s[0]) && !In(s[0], Space) && !IsQuote(s[0])
    requires !IsDigit(s[0]) && s[0] != '/' && s[0] != '.'
    ensures Step(Root, s) == StepResult(Default, 1, Stay)
  {
  }

  /** Two slashes with a line terminator later on the line start no line comment: the first slash is one default token. */
  lemma BrokenLineCommentStep(s: seq<char>)
    requires |s| >= 2 && s[0] == '/' && s[1] == '/'
    requires exists i :: 2 <= i < |s| && IsLineTerminator(s[i])
    ensures Step(Root, s) == StepResult(Default, 1, Stay)
  {
    var i :| 2 <= i < |s| && IsLineTerminator(s[i]);
    assert s[2..|s|][i - 2] == s[i];
    AllInSlice(s, 2, |s|, NotLineEnd);
    assert MatchLen(LineComment, s) == 0;
  }

  /** A slash that starts neither kind of comment is one default token. */
  lemma LoneSlashStep(s: seq<char>)
    requires |s| > 0 && s[0] == '/' && (|s| == 1 || (s[1] != '/' && s[1] != '*'))
    ensures Step(Root, s) == StepResult(Default, 1, Stay)
  {
  }

  // ---------------------------------------------------------------------
  // Comment state

  /**
   * In a block comment everything is `comment`: star slash pops, a run of
   * characters other than `/` and `*` or a single stray `/` or `*` stays.
   */
  lemma CommentStep(s: seq<char>)
    requires |s| > 0
    ensures Step(InComment, s).category == Comment
    ensures Step(InComment, s).next == Pop <==> |s| >= 2 && s[0] == '*' && s[1] == '/'
    ensures Step(InComment, s).next != Pop ==> Step(InComment, s).next == Stay
    ensures Step(InComment, s).next == Pop ==> Step(InComment, s).length == 2
    ensures s[0] != '/' && s[0] != '*' ==> IsLongestMatch(CommentText, s, Step(InComment, s).length)
    ensures (s[0] == '/' || s[0] == '*') && Step(InComment, s).next == Stay ==> Step(InComment, s).length == 1
  {
    MatchLenIsLongest(CommentText, s);
  }

  /** Star slash closes the comment. */
  lemma CommentCloseStep(s: seq<char>)
    requires |s| >= 2 && s[0] == '*' && s[1] == '/'
    ensures Step(InComment, s) == StepResult(Comment, 2, Pop)
  {
    StepByRule(InComment, s, 1);
  }

  /** Comment text up to the next `/` or `*` is one token. */
  lemma CommentTextStep(s: seq<char>)
    requires |s| > 0 && In(s[0], CommentBody)
    ensures Step(InComment, s) == StepResult(Comment, Run(s, 0, CommentBody), Stay)
  {
    MatchLenIsLongest(CommentText, s);
    CommentStep(s);
    LongestMatchUnique(CommentText, s, Step(InComment, s).length, MatchLen(CommentText, s));
  }

  // ---------------------------------------------------------------------
  // String state

  /** A quote ends the string only when it is the quote that opened it. */
  lemma StringQuoteStep(q: char, s: seq<char>)
    requires |s| > 0 && IsQuote(s[0])
    ensures Step(InString(q), s) == StepResult(String, 1, if s[0] == q then Pop else Stay)
  {
    assert s[..1] == [s[0]];
  }

  /** A backslash starting a valid escape is a `string.escape` token of the escape's length. */
  lemma StringEscapeStep(q: char, s: seq<char>)
    requires |s| > 0 && s[0] == '\\' && EscapeLen(s) > 0
    ensures Step(InString(q), s) == StepResult(StringEscape, EscapeLen(s), Stay)
  {
  }

  /** A backslash and any other character (but a line terminator) is `string.escape.invalid`. */
  lemma StringInvalidEscapeStep(q: char, s: seq<char>)
    requires |s| >= 2 && s[0] == '\\' && EscapeLen(s) == 0 && !IsLineTerminator(s[1])
    ensures Step(InString(q), s) == StepResult(StringEscapeInvalid, 2, Stay)
  {
  }

  /** A backslash at the end of the line, or before a line terminator, matches no string rule. */
  lemma StringDanglingBackslashStep(q: char, s: seq<char>)
    requires |s| > 0 && s[0] == '\\' && (|s| == 1 || IsLineTerminator(s[1]))
    ensures Step(InString(q), s) == StepResult(Default, 1, Stay)
  {
  }

  /** Any other text is a `string` run up to the next backslash or quote. */
  lemma StringTextStep(q: char, s: seq<char>)
    requires |s| > 0 && In(s[0], StringBody)
    ensures Step(InString(q), s) == StepResult(String, Run(s, 0, StringBody), Stay)
  {
    StringTextRule(q, s);
    StringTextLen(s);
  }

  lemma StringTextLen(s: seq<char>)
    ensures MatchLen(StringText, s) == Run(s, 0, StringBody)
  {
  }

  /** The same step with its length left as the match of the rule's expression. */
  lemma StringTextRule(q: char, s: seq<char>)
    requires |s| > 0 && In(s[0], StringBody)
    ensures Step(InString(q), s) == StepResult(String, MatchLen(StringText, s), Stay)
  {
    StepByRule(InString(q), s, 0);
  }
}
