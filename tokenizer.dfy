/**
 * The line tokenizer the `vue` rule table configures: a cursor moves over
 * one line, each step applies the first matching rule of the state on top of
 * the stack, and the stack left at the end of the line is handed to the next
 * one. The stack is a sequence whose last element is its top.
 */
module Tokenizer {
  import opened Patterns
  import opened VueLanguage

  /** A token starts at `offset` and runs up to the next token's offset, or to the end of the line. */
  datatype Token = Token(offset: nat, category: Category)

  datatype LineTokens = LineTokens(tokens: seq<Token>, endState: seq<State>)

  /** A pop on a stack holding one state, which Monarch refuses with an error. */
  datatype TokenizeError = PopOfLastState(offset: nat)

  datatype Result<T, E> = Ok(value: T) | Err(error: E)

  /** The stack a document starts with. */
  const InitialState: seq<State> := [Root]

  /** The stack after a rule's action. */
  function Apply(next: Next, stack: seq<State>): (r: Option<seq<State>>)
    requires |stack| > 0
    ensures r.None? <==> next == Pop && |stack| == 1
    ensures r.Some? ==> |r.value| > 0 && r.value[0] == stack[0]
    ensures next.Stay? ==> r == Some(stack)
    ensures next.Push? ==> r.Some? && |r.value| == |stack| + 1
    ensures next.Push? ==> r.value[..|stack|] == stack && r.value[|stack|] == next.state
    ensures next.Pop? && |stack| > 1 ==> r.Some? && r.value == stack[..|stack| - 1]
  {
    match next
    case Stay => Some(stack)
    case Push(st) => Some(stack + [st])
    case Pop => if |stack| > 1 then Some(stack[..|stack| - 1]) else None
  }

  /**
   * The tokens tile `[from, to)`: none when the range is empty; otherwise the
   * first starts at `from`, offsets strictly increase and all lie in the range,
   * so every position belongs to exactly one token.
   */
  ghost predicate Tiles(tokens: seq<Token>, from: nat, to: nat) {
    && from <= to
    && (|tokens| == 0 <==> from == to)
    && (|tokens| > 0 ==> tokens[0].offset == from)
    && (forall i :: 0 <= i < |tokens| ==> from <= tokens[i].offset < to)
    && (forall i, j :: 0 <= i < j < |tokens| ==> tokens[i].offset < tokens[j].offset)
  }

  /**
   * The stacks a document can reach from `InitialState`: pushes happen only in
   * root and pops only outside it, so the root never leaves the bottom and at
   * most one context sits above it.
   */
  ghost predicate Reachable(stack: seq<State>) {
    && 1 <= |stack| <= 2
    && stack[0] == Root
    && (|stack| == 2 ==> stack[1] == InComment || stack[1] == InString('"') || stack[1] == InString('\''))
  }

  /** Tokenizes `line` from the cursor `pos` with the state stack `stack`. */
  function TokenizeFrom(line: seq<char>, pos: nat, stack: seq<State>): (r: Result<LineTokens, TokenizeError>)
    requires pos <= |line| && |stack| > 0
    ensures r.Ok? ==> |r.value.endState| > 0
    decreases |line| - pos, 1
  {
    if pos == |line| then Ok(LineTokens([], stack))
    else Advance(line, pos, stack, Step(stack[|stack| - 1], line[pos..]))
  }

  /** Emits the token of `step` at `pos`, applies its stack action and goes on after the match. */
  function Advance(line: seq<char>, pos: nat, stack: seq<State>, step: StepResult): (r: Result<LineTokens, TokenizeError>)
    requires pos < |line| && |stack| > 0 && 1 <= step.length <= |line| - pos
    ensures r.Ok? ==> |r.value.endState| > 0
    decreases |line| - pos, 0
  {
    match Apply(step.next, stack)
    case None => Err(PopOfLastState(pos))
    case Some(stack') =>
      match TokenizeFrom(line, pos + step.length, stack')
      case Err(e) => Err(e)
      case Ok(rest) => Ok(LineTokens([Token(pos, step.category)] + rest.tokens, rest.endState))
  }

  /** The tokens cover the rest of the line; an error lies in it. */
  lemma {:induction false} TokenizeFromTiles(line: seq<char>, pos: nat, stack: seq<State>)
    requires pos <= |line| && |stack| > 0
    ensures TokenizeFrom(line, pos, stack).Ok? ==> Tiles(TokenizeFrom(line, pos, stack).value.tokens, pos, |line|)
    ensures TokenizeFrom(line, pos, stack).Err? ==> pos <= TokenizeFrom(line, pos, stack).error.offset < |line|
    decreases |line| - pos, 1
  {
    if pos < |line| {
      AdvanceTiles(line, pos, stack, Step(stack[|stack| - 1], line[pos..]));
    }
  }

  lemma {:induction false} AdvanceTiles(line: seq<char>, pos: nat, stack: seq<State>, step: StepResult)
    requires pos < |line| && |stack| > 0 && 1 <= step.length <= |line| - pos
    ensures Advance(line, pos, stack, step).Ok? ==> Tiles(Advance(line, pos, stack, step).value.tokens, pos, |line|)
    ensures Advance(line, pos, stack, step).Err? ==> pos <= Advance(line, pos, stack, step).error.offset < |line|
    decreases |line| - pos, 0
  {
    var next := Apply(step.next, stack);
    if next.Some? {
      TokenizeFromTiles(line, pos + step.length, next.value);
      var rest := TokenizeFrom(line, pos + step.length, next.value);
      if rest.Ok? {
        TilesCons(Token(pos, step.category), rest.value.tokens, pos + step.length, |line|);
      }
    }
  }

  /** A token at `from` followed by tokens tiling `[next, to)` tiles `[from, to)`. */
  lemma TilesCons(first: Token, tokens: seq<Token>, next: nat, to: nat)
    requires first.offset < next && Tiles(tokens, next, to) && next <= to
    ensures Tiles([first] + tokens, first.offset, to)
  {
    var all := [first] + tokens;
    forall i | 0 < i < |all| ensures all[i] == tokens[i - 1] && next <= all[i].offset < to {
    }
  }

  /** With the root at the bottom of the stack no pop fails, and the root stays at the bottom. */
  lemma {:induction false} TokenizeFromKeepsRoot(line: seq<char>, pos: nat, stack: seq<State>)
    requires pos <= |line| && |stack| > 0 && stack[0] == Root
    ensures TokenizeFrom(line, pos, stack).Ok? && TokenizeFrom(line, pos, stack).value.endState[0] == Root
    decreases |line| - pos, 1
  {
    if pos < |line| {
      AdvanceKeepsRoot(line, pos, stack, Step(stack[|stack| - 1], line[pos..]));
    }
  }

  lemma {:induction false} AdvanceKeepsRoot(line: seq<char>, pos: nat, stack: seq<State>, step: StepResult)
    requires pos < |line| && |stack| > 0 && stack[0] == Root && 1 <= step.length <= |line| - pos
    requires FitsStack(step, stack[|stack| - 1])
    ensures Advance(line, pos, stack, step).Ok? && Advance(line, pos, stack, step).value.endState[0] == Root
    decreases |line| - pos, 0
  {
    TokenizeFromKeepsRoot(line, pos + step.length, Apply(step.next, stack).value);
  }

  /** A line started from a reachable stack ends with a reachable stack. */
  lemma {:induction false} TokenizeFromReachable(line: seq<char>, pos: nat, stack: seq<State>)
    requires pos <= |line| && Reachable(stack)
    ensures TokenizeFrom(line, pos, stack).Ok? && Reachable(TokenizeFrom(line, pos, stack).value.endState)
    decreases |line| - pos, 1
  {
    if pos < |line| {
      AdvanceReachable(line, pos, stack, Step(stack[|stack| - 1], line[pos..]));
    }
  }

  lemma {:induction false} AdvanceReachable(line: seq<char>, pos: nat, stack: seq<State>, step: StepResult)
    requires pos < |line| && Reachable(stack) && 1 <= step.length <= |line| - pos
    requires FitsStack(step, stack[|stack| - 1])
    ensures Advance(line, pos, stack, step).Ok? && Reachable(Advance(line, pos, stack, step).value.endState)
    decreases |line| - pos, 0
  {
    TokenizeFromReachable(line, pos + step.length, Apply(step.next, stack).value);
  }

  /** The tokens of one line and the stack to carry into the next. */
  function Tokenize(line: seq<char>, stack: seq<State>): (r: Result<LineTokens, TokenizeError>)
    requires |stack| > 0
    ensures r.Ok? ==> Tiles(r.value.tokens, 0, |line|)
    ensures stack[0] == Root ==> r.Ok? && |r.value.endState| > 0 && r.value.endState[0] == Root
  {
    TokenizeFromTiles(line, 0, stack);
    if stack[0] == Root then TokenizeFromKeepsRoot(line, 0, stack); TokenizeFrom(line, 0, stack)
    else TokenizeFrom(line, 0, stack)
  }

  /** At most one token per character: the work per line is linear in its length. */
  lemma {:induction false} TokenCountBound(tokens: seq<Token>, from: nat, to: nat)
    requires Tiles(tokens, from, to)
    ensures |tokens| <= to - from
    decreases |tokens|
  {
    if |tokens| > 1 {
      TokenCountBound(tokens[1..], tokens[1].offset, to);
    }
  }

  /**
   * Lines of a document tokenized in order, each starting from the stack the
   * previous one ended with.
   */
  function TokenizeLines(lines: seq<seq<char>>, stack: seq<State>): (r: Result<(seq<seq<Token>>, seq<State>), TokenizeError>)
    requires |stack| > 0
    ensures r.Ok? ==> |r.value.0| == |lines| && |r.value.1| > 0
    decreases |lines|
  {
    if |lines| == 0 then Ok(([], stack))
    else
      match Tokenize(lines[0], stack)
      case Err(e) => Err(e)
      case Ok(first) =>
        match TokenizeLines(lines[1..], first.endState)
        case Err(e) => Err(e)
        case Ok(rest) => Ok(([first.tokens] + rest.0, rest.1))
  }

  /** A document started from a reachable stack is tokenized without error and ends with a reachable stack. */
  lemma {:induction false} TokenizeLinesReachable(lines: seq<seq<char>>, stack: seq<State>)
    requires Reachable(stack)
    ensures TokenizeLines(lines, stack).Ok? && Reachable(TokenizeLines(lines, stack).value.1)
    decreases |lines|
  {
    if |lines| > 0 {
      TokenizeFromReachable(lines[0], 0, stack);
      TokenizeLinesReachable(lines[1..], TokenizeFrom(lines[0], 0, stack).value.endState);
    }
  }

  /** Every line's tokens tile that line. */
  lemma {:induction false} TokenizeLinesTiles(lines: seq<seq<char>>, stack: seq<State>)
    requires |stack| > 0
    ensures TokenizeLines(lines, stack).Ok? ==>
              forall i :: 0 <= i < |lines| ==> Tiles(TokenizeLines(lines, stack).value.0[i], 0, |lines[i]|)
    decreases |lines|
  {
    if |lines| > 0 && TokenizeLines(lines, stack).Ok? {
      var first := Tokenize(lines[0], stack).value;
      TokenizeLinesTiles(lines[1..], first.endState);
      var all := TokenizeLines(lines, stack).value.0;
      var rest := TokenizeLines(lines[1..], first.endState).value.0;
      assert all == [first.tokens] + rest;
      forall i | 0 <= i < |lines| ensures Tiles(all[i], 0, |lines[i]|) {
        if i > 0 {
          assert all[i] == rest[i - 1] && lines[i] == lines[1..][i - 1];
        }
      }
    }
  }

  /** A document of one more line: that line's tokens, then the rest from the stack it ends with. */
  lemma TokenizeLinesCons(line: seq<char>, lines: seq<seq<char>>, stack: seq<State>,
                          first: LineTokens, rest: (seq<seq<Token>>, seq<State>))
    requires |stack| > 0 && Tokenize(line, stack) == Ok(first)
    requires |first.endState| > 0 && TokenizeLines(lines, first.endState) == Ok(rest)
    ensures TokenizeLines([line] + lines, stack) == Ok(([first.tokens] + rest.0, rest.1))
  {
    assert ([line] + lines)[0] == line && ([line] + lines)[1..] == lines;
  }
}
