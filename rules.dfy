/**
 * The `vue` Monarch language: display categories, lexer states, the keyword
 * lists and the ordered rule list of each state, with Monarch's selection of
 * the first rule whose expression matches at the cursor and its `cases`
 * dispatch.
 */
module VueLanguage {
  import opened Patterns

  datatype Option<T> = None | Some(value: T)

  /** The display categories the table assigns. */
  datatype Category =
    | Default              // the table's default token: the empty category
    | Keyword
    | Identifier
    | TypeIdentifier
    | White
    | Comment
    | StringInvalid
    | String
    | StringEscape
    | StringEscapeInvalid
    | NumberFloat
    | NumberHex
    | Number

  /** The category's Monarch token name. */
  function Name(c: Category): string {
    match c
    case Default => ""
    case Keyword => "keyword"
    case Identifier => "identifier"
    case TypeIdentifier => "type.identifier"
    case White => "white"
    case Comment => "comment"
    case StringInvalid => "string.invalid"
    case String => "string"
    case StringEscape => "string.escape"
    case StringEscapeInvalid => "string.escape.invalid"
    case NumberFloat => "number.float"
    case NumberHex => "number.hex"
    case Number => "number"
  }

  const TokenPostfix: string := ".vue"

  /** The token type handed to the host: the name with the language postfix; the empty default stays empty. */
  function TokenType(c: Category): string {
    if Name(c) == "" then "" else Name(c) + TokenPostfix
  }

  /** Lexer states: the entries of the state stack. */
  datatype State =
    | Root
    | InComment
    | InString(quote: char)   // `string.` followed by the opening quote

  /** Monarch's `$S2`: the second dot-separated part of the state's name, empty when it has none. */
  function StatePart2(st: State): (r: string)
    ensures r != "" <==> st.InString?
    ensures st.InString? ==> r == [st.quote]
  {
    if st.InString? then [st.quote] else ""
  }

  const Keywords: seq<string> := [
    "template", "script", "style", "setup",
    "defineProps", "defineEmits", "defineExpose", "withDefaults",
    "ref", "reactive", "computed", "watch", "onMounted", "onUnmounted"
  ]

  /** Declared by the table, and consulted by no rule. */
  const TypeKeywords: seq<string> := ["true", "false", "null", "undefined"]

  /** What a rule does to the state stack. */
  datatype Next = Stay | Push(state: State) | Pop

  datatype Action =
    | Emit(category: Category, next: Next)
    | KeywordCases         // keyword when the matched text is in Keywords, identifier otherwise
    | ClosingQuoteCases    // string and pop when the matched quote is `$S2`, string otherwise

  datatype Rule = Rule(pattern: Pattern, action: Action)

  const WhitespaceRules: seq<Rule> := [
    Rule(Blanks, Emit(White, Stay)),
    Rule(BlockCommentOpen, Emit(Comment, Push(InComment))),
    Rule(LineComment, Emit(Comment, Stay))
  ]

  /** The root rules, with the whitespace rules spliced in where the table includes them. */
  const RootRules: seq<Rule> :=
    [ Rule(LowerIdent, KeywordCases),
      Rule(UpperIdent, Emit(TypeIdentifier, Stay)) ]
    + WhitespaceRules
    + [ Rule(UnterminatedString('"'), Emit(StringInvalid, Stay)),
        Rule(UnterminatedString('\''), Emit(StringInvalid, Stay)),
        Rule(Quote('"'), Emit(String, Push(InString('"')))),
        Rule(Quote('\''), Emit(String, Push(InString('\'')))),
        Rule(Float, Emit(NumberFloat, Stay)),
        Rule(Hex, Emit(NumberHex, Stay)),
        Rule(Digits, Emit(Number, Stay)) ]

  const CommentRules: seq<Rule> := [
    Rule(CommentText, Emit(Comment, Stay)),
    Rule(BlockCommentClose, Emit(Comment, Pop)),
    Rule(CommentDelimiter, Emit(Comment, Stay))
  ]

  const StringRules: seq<Rule> := [
    Rule(StringText, Emit(String, Stay)),
    Rule(Escape, Emit(StringEscape, Stay)),
    Rule(BackslashAny, Emit(StringEscapeInvalid, Stay)),
    Rule(AnyQuote, ClosingQuoteCases)
  ]

  /** The rules of a state. A state `string.<q>` has no rules of its own and uses those of `string`. */
  function Rules(st: State): (r: seq<Rule>)
    ensures |r| > 0
    ensures st == Root ==> |r| == 12 && r[2..5] == WhitespaceRules
    ensures st.InString? ==> r == StringRules
  {
    match st
    case Root => RootRules
    case InComment => CommentRules
    case InString(_) => StringRules
  }

  /** The category and stack action of a rule that matched `matched` in state `top`. */
  function Resolve(a: Action, matched: string, top: State): (r: (Category, Next))
    ensures a.Emit? ==> r == (a.category, a.next)
    ensures a.KeywordCases? ==> r.1 == Stay && (r.0 == Keyword <==> matched in Keywords) && (r.0 != Keyword ==> r.0 == Identifier)
    ensures a.ClosingQuoteCases? ==> r.0 == String && (r.1 == Pop <==> matched == StatePart2(top))
    ensures a.ClosingQuoteCases? && matched != "" ==> (r.1 == Pop <==> top.InString? && matched == [top.quote])
    ensures a.ClosingQuoteCases? && r.1 != Pop ==> r.1 == Stay
  {
    match a
    case Emit(c, next) => (c, next)
    case KeywordCases => if matched in Keywords then (Keyword, Stay) else (Identifier, Stay)
    case ClosingQuoteCases => if matched == StatePart2(top) then (String, Pop) else (String, Stay)
  }

  datatype Hit = Hit(index: nat, length: nat)

  /** The first rule at or after `from` whose expression matches at the start of `s`. */
  function FirstMatchFrom(rules: seq<Rule>, s: seq<char>, from: nat): (r: Option<Hit>)
    requires from <= |rules|
    ensures r.Some? ==> from <= r.value.index < |rules|
    ensures r.Some? ==> 0 < r.value.length == MatchLen(rules[r.value.index].pattern, s)
    ensures r.Some? ==> forall j :: from <= j < r.value.index ==> MatchLen(rules[j].pattern, s) == 0
    ensures r.None? ==> forall j :: from <= j < |rules| ==> MatchLen(rules[j].pattern, s) == 0
    decreases |rules| - from
  {
    if from == |rules| then None
    else if MatchLen(rules[from].pattern, s) > 0 then Some(Hit(from, MatchLen(rules[from].pattern, s)))
    else FirstMatchFrom(rules, s, from + 1)
  }

  /** When no rule at or after `from` matches, there is no hit. */
  lemma {:induction false} FirstMatchNone(rules: seq<Rule>, s: seq<char>, from: nat)
    requires from <= |rules|
    requires forall j :: from <= j < |rules| ==> MatchLen(rules[j].pattern, s) == 0
    ensures FirstMatchFrom(rules, s, from) == None
    decreases |rules| - from
  {
    if from < |rules| {
      FirstMatchNone(rules, s, from + 1);
    }
  }

  datatype StepResult = StepResult(category: Category, length: nat, next: Next)

  /**
   * One step of the tokenizer in state `top` at the start of `rest`: the first
   * matching rule's category, match length and stack action, or the default
   * category for exactly one character when no rule matches.
   */
  function Step(top: State, rest: seq<char>): (r: StepResult)
    requires |rest| > 0
    ensures 1 <= r.length <= |rest|
    ensures FitsStack(r, top)
  {
    match FirstMatchFrom(Rules(top), rest, 0)
    case None => StepResult(Default, 1, Stay)
    case Some(hit) =>
      var (category, next) := Resolve(Rules(top)[hit.index].action, rest[..hit.length], top);
      StepResult(category, hit.length, next)
  }

  /** Pushes happen only in the root state and enter a comment or string state; pops happen only outside the root. */
  predicate FitsStack(step: StepResult, top: State) {
    && (step.next.Pop? ==> top != Root)
    && (step.next.Push? ==> top == Root)
    && (step.next.Push? ==> step.next.state in {InComment, InString('"'), InString('\'')})
  }

  /** Rule `i` is the first rule of `top` whose expression matches at the start of `rest`. */
  ghost predicate FirstMatching(top: State, rest: seq<char>, i: nat) {
    && i < |Rules(top)|
    && (exists k: nat :: MatchesAt(Rules(top)[i].pattern, rest, k))
    && (forall j: nat, k: nat :: j < i ==> !MatchesAt(Rules(top)[j].pattern, rest, k))
  }

  /**
   * Monarch's selection: the first rule whose expression matches wins, with
   * the longest match of its expression, and its action decides category and
   * stack action.
   */
  lemma StepSelectsFirstMatchingRule(top: State, rest: seq<char>, i: nat)
    requires |rest| > 0 && FirstMatching(top, rest, i)
    ensures IsLongestMatch(Rules(top)[i].pattern, rest, Step(top, rest).length)
    ensures (Step(top, rest).category, Step(top, rest).next)
         == Resolve(Rules(top)[i].action, rest[..Step(top, rest).length], top)
  {
    var rules := Rules(top);
    forall j | 0 <= j <= i ensures IsLongestMatch(rules[j].pattern, rest, MatchLen(rules[j].pattern, rest)) {
      MatchLenIsLongest(rules[j].pattern, rest);
    }
    var k: nat :| MatchesAt(rules[i].pattern, rest, k);
    assert MatchLen(rules[i].pattern, rest) > 0;
    var hit := FirstMatchFrom(rules, rest, 0);
    assert hit.Some? && hit.value.index == i;
  }

  /** When no rule of `top` matches, the step is one character of the default category. */
  lemma StepDefaultsWhenNothingMatches(top: State, rest: seq<char>)
    requires |rest| > 0
    requires forall j: nat, k: nat :: j < |Rules(top)| ==> !MatchesAt(Rules(top)[j].pattern, rest, k)
    ensures Step(top, rest) == StepResult(Default, 1, Stay)
  {
    forall j | 0 <= j < |Rules(top)| ensures MatchLen(Rules(top)[j].pattern, rest) == 0 {
      MatchLenIsLongest(Rules(top)[j].pattern, rest);
    }
    FirstMatchNone(Rules(top), rest, 0);
  }

  /** Distinct categories reach the host as distinct token types. */
  lemma TokenTypeInjective(a: Category, b: Category)
    ensures TokenType(a) == TokenType(b) ==> a == b
  {
    if TokenType(a) == TokenType(b) && a != Default && b != Default {
      assert Name(a) == TokenType(a)[..|TokenType(a)| - |TokenPostfix|];
      assert Name(b) == TokenType(b)[..|TokenType(b)| - |TokenPostfix|];
    }
  }
}
