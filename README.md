# The `vue` Monarch tokenizer

This project models the syntax-highlighting rule table that the editor setup registers
for the `vue` language (`src/monaco-setup.ts:31-88`). It also models the part of
Monarch's line tokenizer that the table relies on.

Monarch gets one line of text and the state stack left by the previous line. At the
cursor it takes the rules of the state on top of the stack, in order. The first rule
whose regular expression matches there, anchored at the cursor, decides three things:
the token's category, how far the cursor moves, and whether a state is pushed or
popped. When no rule matches, one character gets the default category `''`. At the end
of the line the stack is handed on to the next line.

The project has six modules:

- `Patterns` (`patterns.dfy`) defines the character classes and one hand-written
  matcher per regular expression of the table (`MatchLen`). Each expression also has a
  declarative language (`Denotes`). `MatchLenIsLongest` proves that every matcher
  returns the longest prefix of the text that lies in its expression's language. For
  these expressions that prefix is also the match JavaScript's backtracking finds first.
- `VueLanguage` (`rules.dfy`) holds the categories and states, the keyword lists and
  the rule list of each state, with `include: '@whitespace'` spliced into `root`. It
  also holds the `cases` dispatch (`Resolve`) and one tokenizer step (`Step`):
  first match wins, and the default covers one character.
- `Tokenizer` (`tokenizer.dfy`) is the line tokenizer, written as recursion on the
  cursor. The stack is a sequence whose last element is its top. It also holds the
  document-level fold over lines, and the invariants: the tokens tile the line, the
  root stays at the bottom, and reachable stacks have at most one state above the root.
- `VueFacts` (`facts.dfy`) proves what one step does to each kind of text, one lemma
  per rule.
- `VueLines` (`lines.dfy`) proves what whole lines produce.
- `VueExamples` (`examples.dfy`) works through concrete lines and a two-line document.

An unterminated string leaves no open-string state for the next line only when the
rest of the line is a valid escaped body. In a line such as `"abc\`, the backslash
at the end cannot start `\\.`, because `.` needs a character after the backslash. So
`"([^"\\]|\\.)*$` does not match, and the `"` rule pushes `string."` (lines 55 and
57). The backslash then matches no string rule and gets the default category, and the
line ends with `[root, string."]`. The model follows the code
(`VueExamples.TrailingBackslashExample`).

## Model

| member | source | states |
|---|---|---|
| Patterns.RunExtent | src/monaco-setup.ts:61 | every character of a run lies in the class, and the run stops at the first character outside it |
| Patterns.AllInSlice | src/monaco-setup.ts:65 | a slice consists only of characters of a class exactly when it lies within the run that starts there |
| Patterns.RunWhole | src/monaco-setup.ts:71 | text made only of a class's characters is one run to its end |
| Patterns.LongestMatchUnique | src/monaco-setup.ts:45-86 | an expression has at most one longest match at a position |
| Patterns.MatchLen | src/monaco-setup.ts:43-79 | the matcher of each expression of the table; its own contract only bounds the match by the rest of the line, and what it matches is stated by `Patterns.MatchLenIsLongest` and the lemmas below |
| Patterns.MatchLenIsLongest | src/monaco-setup.ts:43-85 | every matcher returns the longest prefix in its expression's language, 0 meaning no match, and honours the end-of-line anchor |
| Patterns.IdentLongest | src/monaco-setup.ts:47-53 | `[a-z_$][\w$]*` and `[A-Z][\w\$]*` match the whole identifier run and nothing longer |
| Patterns.LineCommentLongest | src/monaco-setup.ts:67 | `\/\/.*$` matches only a rest of line that starts with two slashes and has no line terminator, and then matches all of it |
| Patterns.RunLongest | src/monaco-setup.ts:61-77 | the one-class repetitions (blanks, digits, comment text, string text) match their maximal run |
| Patterns.HexLongest | src/monaco-setup.ts:60 | `0[xX][0-9a-fA-F]+` matches the prefix, the x and every hex digit that follows |
| Patterns.FloatLongest | src/monaco-setup.ts:59 | `\d*\.\d+([eE][\-+]?\d+)?` matches the longest float, taking an exponent only when digits follow it |
| Patterns.EscapeLongest | src/monaco-setup.ts:43 | `escapes` matches a one-letter escape, `x` and up to four hex digits, `u` and four, or `U` and eight |
| Patterns.FixedLongest | src/monaco-setup.ts:55-80 | the fixed-length expressions (quotes, slash star, star slash, a lone `/` or `*`, backslash and any character but a line terminator) match their one text or nothing, and the unterminated-string expressions match the whole line or nothing |
| VueLanguage.StatePart2 | src/monaco-setup.ts:82 | `$S2` is empty exactly for the root and comment states, and is the quote of a `string.<q>` state |
| VueLanguage.Rules | src/monaco-setup.ts:45-86 | each state has rules; root has twelve, with the whitespace rules spliced in at the position of `include: '@whitespace'` (line 54, `RootRules`); every `string.<q>` state uses the `string` rules; the order of the rules is used by `VueFacts.StepByRule` and the classification lemmas |
| VueLanguage.Resolve | src/monaco-setup.ts:47-85 | a plain action gives its category and stack action; the keyword `cases` (lines 48-51) give `keyword` exactly when the text is in the list and `identifier` otherwise, with no stack change; the quote `cases` (lines 81-84) give `string` and pop exactly when the text equals `$S2`, which for a non-empty text means the opening quote; `VueFacts.LowerIdentifierStep` and `VueFacts.StringQuoteStep` state them as steps |
| VueLanguage.FirstMatchFrom | src/monaco-setup.ts:45-86 | the hit is the first rule at or after the start index whose expression matches; every earlier rule fails; no hit means no rule matches |
| VueLanguage.FirstMatchNone | src/monaco-setup.ts:45-86 | when no rule matches there is no hit |
| VueLanguage.Step | src/monaco-setup.ts:32-86 | a step consumes between one character and the rest of the line; it pushes only in root, and only the comment or a string state; it pops only outside root |
| VueLanguage.StepSelectsFirstMatchingRule | src/monaco-setup.ts:45-86 | with rule i the first rule whose expression matches, the step's length is that rule's longest match, and its category and stack action come from that rule's action |
| VueLanguage.StepDefaultsWhenNothingMatches | src/monaco-setup.ts:32 | when no rule matches, the step is one character of the default category, with the stack unchanged |
| VueLanguage.TokenTypeInjective | src/monaco-setup.ts:32-33 | the postfixed token types of distinct categories are distinct |
| Tokenizer.Apply | src/monaco-setup.ts:57-58 | push appends the state; pop drops the top, which fails only on a one-state stack; the bottom state never changes |
| Tokenizer.TokenizeFrom | src/monaco-setup.ts:45-86 | a successful line leaves a non-empty stack |
| Tokenizer.Advance | src/monaco-setup.ts:45-86 | a successful rest of line leaves a non-empty stack |
| Tokenizer.TokenizeFromTiles | src/monaco-setup.ts:32 | the tokens cover the rest of the line without gaps or overlaps, in increasing order; a pop error lies within the line |
| Tokenizer.AdvanceTiles | src/monaco-setup.ts:32 | the same after a given step of at least one character |
| Tokenizer.TilesCons | src/monaco-setup.ts:32 | a token in front of a tiling of the following range tiles the whole range |
| Tokenizer.TokenizeFromKeepsRoot | src/monaco-setup.ts:66-82 | with root at the bottom of the stack no pop fails, and root is still at the bottom at the end of the line |
| Tokenizer.AdvanceKeepsRoot | src/monaco-setup.ts:66-82 | the same after a step that pushes only in root and pops only outside it |
| Tokenizer.TokenizeFromReachable | src/monaco-setup.ts:57-82 | from `[root]` or from root plus one comment or string state, a line ends with such a stack, without error |
| Tokenizer.AdvanceReachable | src/monaco-setup.ts:57-82 | the same after a step that pushes only in root and pops only outside it |
| Tokenizer.TokenCountBound | src/monaco-setup.ts:32 | a line gets at most one token per character |
| Tokenizer.TokenizeLines | src/monaco-setup.ts:31-88 | a successful document gives one token list per line and a non-empty final stack |
| Tokenizer.Tokenize | src/monaco-setup.ts:31-88 | the tokens of one line tile the line; with root at the bottom of the incoming stack the line has no error and root stays at the bottom |
| Tokenizer.TokenizeLinesTiles | src/monaco-setup.ts:31-88 | in a successful document every line's tokens tile that line |
| Tokenizer.TokenizeLinesReachable | src/monaco-setup.ts:57-82 | a document started from a reachable stack has no error, and its final stack is reachable |
| VueFacts.WinsAtIsFirstMatching | src/monaco-setup.ts:45-86 | a rule is the first to match by its matcher exactly when it is the first whose expression's language has a match at the cursor |
| VueFacts.LowerIdentifierStep | src/monaco-setup.ts:35-52 | a lower-case run is one longest-match token: `keyword` exactly when the whole run is in the keyword list, `identifier` exactly when it is not |
| VueFacts.UpperIdentifierStep | src/monaco-setup.ts:53 | an upper-case run is one `type.identifier` token, whatever the keywords are |
| VueFacts.BlanksStep | src/monaco-setup.ts:65 | blanks, tabs, CRs and LFs are one `white` token covering the whole run |
| VueFacts.BlockCommentOpenStep | src/monaco-setup.ts:66 | slash star is a two-character `comment` token that pushes the comment state |
| VueFacts.LineCommentStep | src/monaco-setup.ts:67 | two slashes followed by no line terminator start one `comment` token to the end of the line, with the stack unchanged |
| VueFacts.UnterminatedStringStep | src/monaco-setup.ts:55-56 | a quote before an escaped body never closed on the line is one `string.invalid` token to the end of the line, no push |
| VueFacts.OpeningQuoteStep | src/monaco-setup.ts:57-58 | any other quote is a one-character `string` token that pushes the string state of that quote |
| VueFacts.FloatStep | src/monaco-setup.ts:59 | a float is one longest `number.float` token |
| VueFacts.HexIsNoFloat | src/monaco-setup.ts:59-60 | no float starts with `0x` or `0X`, so the float rule before the hex rule never shadows it |
| VueFacts.HexStep | src/monaco-setup.ts:60 | `0x` or `0X` and hex digits are one longest `number.hex` token |
| VueFacts.DigitsStep | src/monaco-setup.ts:61 | where neither a float nor a hex number starts, a digit run is one longest `number` token |
| VueFacts.DigitsStepLength | src/monaco-setup.ts:61 | that token is the whole digit run |
| VueFacts.LonePointStep | src/monaco-setup.ts:32 | a point that starts no float is one default character |
| VueFacts.RootDefaultStep | src/monaco-setup.ts:32 | a character that starts no root rule is one default character |
| VueFacts.BrokenLineCommentStep | src/monaco-setup.ts:66-67 | two slashes with a line terminator later on the line match no root rule: the first slash is one default character |
| VueFacts.LoneSlashStep | src/monaco-setup.ts:32 | a slash that starts no comment is one default character |
| VueFacts.CommentStep | src/monaco-setup.ts:70-74 | inside a comment every step is `comment`; it pops exactly at star slash, which is two characters, and stays otherwise; text is the longest run of characters other than `/` and `*`, and a stray `/` or `*` is one character |
| VueFacts.CommentCloseStep | src/monaco-setup.ts:72 | star slash is a two-character `comment` token that pops |
| VueFacts.CommentTextStep | src/monaco-setup.ts:71 | comment text is one token up to the next `/` or `*` |
| VueFacts.StringQuoteStep | src/monaco-setup.ts:80-85 | a quote in a string state is a `string` token that pops exactly when it is the opening quote |
| VueFacts.StringEscapeStep | src/monaco-setup.ts:43 | a valid escape is one `string.escape` token of the escape's length |
| VueFacts.StringInvalidEscapeStep | src/monaco-setup.ts:79 | a backslash and any other character but a line terminator is a two-character `string.escape.invalid` token |
| VueFacts.StringDanglingBackslashStep | src/monaco-setup.ts:77-85 | a backslash at the end of the line, or before a line terminator, matches no string rule and is one default character |
| VueFacts.StringTextStep | src/monaco-setup.ts:77 | string text is one `string` token up to the next backslash or quote |
| VueFacts.StringTextRule | src/monaco-setup.ts:77 | string text is the first string rule: its match gives the step |
| VueLines.RunOfIdentTail | src/monaco-setup.ts:47 | an identifier tail with no other characters is one run to the end of the line |
| VueLines.LowerIdentifierLine | src/monaco-setup.ts:35-52 | a line that is one lower-case identifier is one token, `keyword` exactly when the line is a keyword, and the stack is unchanged |
| VueLines.UpperIdentifierLine | src/monaco-setup.ts:53 | a line that is one upper-case identifier is one `type.identifier` token |
| VueLines.TypeKeywordIsIdentifier | src/monaco-setup.ts:41 | `true`, `false`, `null` and `undefined` are plain `identifier`s: no rule consults the type keywords |
| VueLines.LineCommentLine | src/monaco-setup.ts:67 | a line comment line is one `comment` token, with the stack unchanged |
| VueLines.UnterminatedStringLine | src/monaco-setup.ts:55-56 | an unterminated string line is one `string.invalid` token and leaves no string state |
| VueLines.OpenCommentLine | src/monaco-setup.ts:66-71 | slash star and comment text give two `comment` tokens and leave the comment state pushed |
| VueLines.CommentContinues | src/monaco-setup.ts:70-74 | inside a comment, a rest of line without star slash is all `comment` and keeps the stack |
| VueLines.CommentLineStep | src/monaco-setup.ts:71-73 | with no star slash ahead, a step in a comment is `comment` and keeps the stack |
| VueExamples.RefIsKeyword | src/monaco-setup.ts:38 | `ref` is `keyword` |
| VueExamples.RefsIsIdentifier | src/monaco-setup.ts:47-52 | `refs` is `identifier`: the whole run decides |
| VueExamples.ComponentNameIsTypeIdentifier | src/monaco-setup.ts:53 | `MyComponent` is `type.identifier` |
| VueExamples.LineCommentExample | src/monaco-setup.ts:67 | `// comment text` is one `comment` token |
| VueExamples.UnclosedStringExample | src/monaco-setup.ts:55 | `"abc` is one `string.invalid` token and the line ends in `[root]` |
| VueExamples.FloatExample | src/monaco-setup.ts:59 | `3.14e10` is one `number.float` token |
| VueExamples.FractionExample | src/monaco-setup.ts:59 | `.5` is one `number.float` token |
| VueExamples.HexExample | src/monaco-setup.ts:60 | `0xFF` is one `number.hex` token |
| VueExamples.NumberExample | src/monaco-setup.ts:61 | `42` is one `number` token |
| VueExamples.PopOfLastStateExample | src/monaco-setup.ts:72 | star slash on a comment state with nothing under it is the engine's pop error |
| VueExamples.OpenCommentExample | src/monaco-setup.ts:66-71 | `/* start` gives two `comment` tokens and ends with `[root, comment]` |
| VueExamples.CloseCommentExample | src/monaco-setup.ts:71-72 | `end */` from `[root, comment]` gives two `comment` tokens and ends with `[root]` |
| VueExamples.EscapeExample | src/monaco-setup.ts:43-85 | `"a\tb"` gives string, string, string.escape, string, string, and ends in `[root]` |
| VueExamples.OtherQuoteExample | src/monaco-setup.ts:58-85 | in `'a"b'` the inner `"` is plain `string`, and only the closing `'` pops |
| VueExamples.TrailingBackslashExample | src/monaco-setup.ts:55-85 | `"abc\` leaves `string."` on the stack: the closing backslash is one default character |
| VueExamples.TwoLineCommentExample | src/monaco-setup.ts:66-72 | a comment opened on one line and closed on the next, followed by `ref`, takes the document back to `[root]` |

## Left out

- The `MonacoEnvironment.getWorker` label-to-worker factory (`src/monaco-setup.ts:8-25`) is left out: it only constructs Web Workers.
- `monaco.languages.register` (`src/monaco-setup.ts:28`) and the call that registers the provider are left out: they are calls into the editor's API and hold no logic.
- `vite.config.ts` is not part of this model. It is bundler configuration.
- Monarch's general regular-expression engine is left out. Each expression of the table is a hand-written matcher, proved against that expression's language.
- Merging adjacent tokens of the same category is left out. It is engine behaviour the table does not configure, so the model emits one token per matched rule.
- Appending the `.vue` postfix is modelled only as `TokenType`. The tokenizer's tokens carry categories rather than postfixed strings.
- Per-document caching, re-tokenization, threading and parallelism are left out. They belong to the host.
- Unicode: `\w` and `\d` are ASCII in JavaScript, and so are the model's classes. Character codes above U+FFFF appear as one `char`, because strings are sequences of Dafny `char`s, not UTF-16 code units.
- The line passed to the tokenizer is taken without its line break, which is Monarch's default. `$` is therefore end of line, and CR and LF appear only when the host passes them in.
- A pop on a one-state stack is what the engine does with the table rather than part of the table. It is modelled as the error `PopOfLastState`, which the root at the bottom of the stack rules out (`Tokenizer.TokenizeFromKeepsRoot`).
