/**
 * What the `vue` rule table does to whole lines: the token list and the
 * outgoing stack for identifier lines, line comments, unterminated strings
 * and lines inside a block comment.
 */
module VueLines {
  import opened Patterns
  import opened VueLanguage
  import opened Tokenizer
  import opened VueFacts

  /** A step in the state on top of `stack` that consumes the whole line and keeps the stack makes a one-token line. */
  lemma OneTokenLine(line: seq<char>, stack: seq<State>)
    requires |line| > 0 && |stack| > 0
    requires Step(stack[|stack| - 1], line).length == |line|
    requires Step(stack[|stack| - 1], line).next == Stay
    ensures Tokenize(line, stack)
         == Ok(LineTokens([Token(0, Step(stack[|stack| - 1], line).category)], stack))
  {
    assert line[0..] == line;
    StepLast(line, 0, stack, Step(stack[|stack| - 1], line), stack);
  }

  /** A step at `pos` gives the first token of the rest of the line; the tokens after it follow. */
  lemma StepThen(line: seq<char>, pos: nat, stack: seq<State>, r: StepResult, stack': seq<State>, rest: LineTokens)
    requires pos < |line| && |stack| > 0 && r == Step(stack[|stack| - 1], line[pos..])
    requires Apply(r.next, stack) == Some(stack')
    requires TokenizeFrom(line, pos + r.length, stack') == Ok(rest)
    ensures TokenizeFrom(line, pos, stack) == Ok(LineTokens([Token(pos, r.category)] + rest.tokens, rest.endState))
  {
  }

  /** A step that reaches the end of the line gives its last token and the outgoing stack. */
  lemma StepLast(line: seq<char>, pos: nat, stack: seq<State>, r: StepResult, stack': seq<State>)
    requires pos < |line| && |stack| > 0 && r == Step(stack[|stack| - 1], line[pos..])
    requires Apply(r.next, stack) == Some(stack') && pos + r.length == |line|
    ensures TokenizeFrom(line, pos, stack) == Ok(LineTokens([Token(pos, r.category)], stack'))
  {
    assert TokenizeFrom(line, pos + r.length, stack') == Ok(LineTokens([], stack'));
    StepThen(line, pos, stack, r, stack', LineTokens([], stack'));
    assert [Token(pos, r.category)] + [] == [Token(pos, r.category)];
  }

  /** Every character of `line` from `from` on is an identifier character. */
  predicate IdentTail(line: seq<char>, from: nat) {
    forall i :: from <= i < |line| ==> In(line[i], IdentPart)
  }

  lemma RunOfIdentTail(line: seq<char>)
    requires |line| > 0 && IdentTail(line, 1)
    ensures Run(line, 1, IdentPart) == |line| - 1
  {
    RunWhole(line, 1, IdentPart);
  }

  /**
   * A line that is one identifier starting with a-z, `_` or `$`, in the root
   * state, is one token: `keyword` when the line is in the keyword list,
   * `identifier` otherwise; the stack is unchanged.
   */
  lemma LowerIdentifierLine(line: seq<char>, stack: seq<State>)
    requires |line| > 0 && IsLowerIdentStart(line[0]) && IdentTail(line, 1)
    requires |stack| > 0 && stack[|stack| - 1] == Root
    ensures Tokenize(line, stack)
         == Ok(LineTokens([Token(0, if line in Keywords then Keyword else Identifier)], stack))
  {
    RunOfIdentTail(line);
    StepByRule(Root, line, 0);
    assert line[..|line|] == line;
    OneTokenLine(line, stack);
  }

  /** A line that is one identifier starting with A-Z is one `type.identifier` token. */
  lemma UpperIdentifierLine(line: seq<char>, stack: seq<State>)
    requires |line| > 0 && IsUpper(line[0]) && IdentTail(line, 1)
    requires |stack| > 0 && stack[|stack| - 1] == Root
    ensures Tokenize(line, stack) == Ok(LineTokens([Token(0, TypeIdentifier)], stack))
  {
    RunOfIdentTail(line);
    StepByRule(Root, line, 1);
    OneTokenLine(line, stack);
  }

  /**
   * The type keywords of the table reach no rule: each of them, alone on a
   * line, is an ordinary `identifier`.
   */
  lemma TypeKeywordIsIdentifier(w: string)
    requires w in TypeKeywords
    ensures Tokenize(w, InitialState) == Ok(LineTokens([Token(0, Identifier)], InitialState))
  {
    assert w == "true" || w == "false" || w == "null" || w == "undefined";
    assert w !in Keywords;
    assert IdentTail(w, 1);
    LowerIdentifierLine(w, InitialState);
  }

  /** Two slashes in the root state: the rest of the line is one `comment` token. */
  lemma LineCommentLine(line: seq<char>, stack: seq<State>)
    requires |line| >= 2 && line[0] == '/' && line[1] == '/'
    requires forall i :: 2 <= i < |line| ==> !IsLineTerminator(line[i])
    requires |stack| > 0 && stack[|stack| - 1] == Root
    ensures Tokenize(line, stack) == Ok(LineTokens([Token(0, Comment)], stack))
  {
    LineCommentStep(line);
    OneTokenLine(line, stack);
  }

  /**
   * A quote in the root state whose remainder is an escaped body never closed
   * on the line: one `string.invalid` token, and the line leaves no string
   * state behind.
   */
  lemma UnterminatedStringLine(line: seq<char>, stack: seq<State>)
    requires |line| > 0 && IsQuote(line[0]) && EscapedFrom(line[0], line, 1)
    requires |stack| > 0 && stack[|stack| - 1] == Root
    ensures Tokenize(line, stack) == Ok(LineTokens([Token(0, StringInvalid)], stack))
  {
    UnterminatedStringStep(line);
    OneTokenLine(line, stack);
  }

  /**
   * Slash star and comment text to the end of the line, in the root state:
   * two `comment` tokens, and the line leaves the comment state pushed.
   */
  lemma OpenCommentLine(line: seq<char>, stack: seq<State>)
    requires |line| > 2 && line[0] == '/' && line[1] == '*'
    requires forall i :: 2 <= i < |line| ==> In(line[i], CommentBody)
    requires |stack| > 0 && stack[|stack| - 1] == Root
    ensures Tokenize(line, stack)
         == Ok(LineTokens([Token(0, Comment), Token(2, Comment)], stack + [InComment]))
  {
    var text := line[2..];
    assert forall i :: 0 <= i < |text| ==> text[i] == line[i + 2];
    RunWhole(text, 0, CommentBody);
    assert line[0..] == line;
    BlockCommentOpenStep(line);
    CommentTextStep(text);
    var pushed := stack + [InComment];
    assert pushed[|pushed| - 1] == InComment;
    StepLast(line, 2, pushed, Step(InComment, text), pushed);
    StepThen(line, 0, stack, Step(Root, line), pushed, LineTokens([Token(2, Comment)], pushed));
    assert [Token(0, Comment)] + [Token(2, Comment)] == [Token(0, Comment), Token(2, Comment)];
  }

  /** No star slash starts at or after `pos`. */
  predicate NoCommentClose(line: seq<char>, pos: nat) {
    forall i :: pos <= i < |line| - 1 ==> !(line[i] == '*' && line[i + 1] == '/')
  }

  /**
   * Inside a block comment, a line remainder without a star slash is all
   * `comment` and leaves the stack as it found it: the comment goes on into
   * the next line.
   */
  lemma {:induction false} CommentContinues(line: seq<char>, pos: nat, stack: seq<State>)
    requires pos <= |line| && |stack| > 0 && stack[|stack| - 1] == InComment
    requires NoCommentClose(line, pos)
    ensures TokenizeFrom(line, pos, stack).Ok?
    ensures TokenizeFrom(line, pos, stack).value.endState == stack
    ensures forall i :: 0 <= i < |TokenizeFrom(line, pos, stack).value.tokens|
              ==> TokenizeFrom(line, pos, stack).value.tokens[i].category == Comment
    decreases |line| - pos
  {
    if pos < |line| {
      var step := CommentLineStep(line, pos);
      CommentContinues(line, pos + step.length, stack);
      var rest := TokenizeFrom(line, pos + step.length, stack).value;
      CommentTokenThen(line, pos, stack, step, rest);
      var tokens := [Token(pos, Comment)] + rest.tokens;
      forall i | 0 <= i < |tokens| ensures tokens[i].category == Comment {
        if i > 0 {
          assert tokens[i] == rest.tokens[i - 1];
        }
      }
    }
  }

  /** A `comment` token that keeps the stack, followed by the tokens of the rest of the line. */
  lemma CommentTokenThen(line: seq<char>, pos: nat, stack: seq<State>, step: StepResult, rest: LineTokens)
    requires pos < |line| && |stack| > 0 && stack[|stack| - 1] == InComment
    requires step == Step(InComment, line[pos..]) && step.next == Stay && step.category == Comment
    requires TokenizeFrom(line, pos + step.length, stack) == Ok(rest) && rest.endState == stack
    ensures TokenizeFrom(line, pos, stack) == Ok(LineTokens([Token(pos, Comment)] + rest.tokens, stack))
  {
    StepThen(line, pos, stack, step, stack, rest);
  }

  /** One step at `pos` inside a comment, with no star slash ahead, is a `comment` token that keeps the stack. */
  lemma CommentLineStep(line: seq<char>, pos: nat) returns (step: StepResult)
    requires pos < |line| && NoCommentClose(line, pos)
    ensures step == Step(InComment, line[pos..])
    ensures step.next == Stay && step.category == Comment
  {
    var s := line[pos..];
    CommentStep(s);
    assert |s| >= 2 ==> s[0] == line[pos] && s[1] == line[pos + 1];
    step := Step(InComment, s);
  }
}
