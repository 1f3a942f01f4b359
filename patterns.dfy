/**
 * Character classes and hand-written matchers for the regular expressions of
 * the `vue` Monarch rule table.
 *
 * Monarch tries a rule's expression anchored at the cursor, against the rest
 * of the line. `MatchLen(p, s)` is the length of the text that expression `p`
 * matches at the start of `s`, and 0 when it does not match: no expression of
 * the table matches the empty text. For every expression of the table the
 * match JavaScript's backtracking finds first (greedy repetition, leftmost
 * alternative) is also the longest prefix in the expression's language, so
 * each matcher is stated against that language (`Denotes`) by
 * `MatchLenIsLongest`.
 */
module Patterns {

  predicate IsLower(c: char) { 'a' <= c <= 'z' }
  predicate IsUpper(c: char) { 'A' <= c <= 'Z' }
  predicate IsDigit(c: char) { '0' <= c <= '9' }
  predicate IsHexDigit(c: char) { IsDigit(c) || 'a' <= c <= 'f' || 'A' <= c <= 'F' }

  /** The characters JavaScript's `.` does not match. */
  predicate IsLineTerminator(c: char) {
    c == '\n' || c == '\r' || c == '\U{2028}' || c == '\U{2029}'
  }

  /** First character of a lower-case identifier: a-z, `_` or `$`. */
  predicate IsLowerIdentStart(c: char) { IsLower(c) || c == '_' || c == '$' }

  predicate IsQuote(c: char) { c == '"' || c == '\'' }

  /** The letter after a backslash in a one-letter escape. */
  predicate IsSimpleEscape(c: char) {
    c == 'a' || c == 'b' || c == 'f' || c == 'n' || c == 'r' || c == 't' || c == 'v'
    || c == '\\' || c == '"' || c == '\''
  }

  /** The one-character classes that the table repeats. */
  datatype CharClass =
    | Digit        // decimal digit
    | HexDigit     // 0-9, a-f, A-F
    | IdentPart    // word character (letter, digit, `_`) or `$`
    | Space        // blank, tab, CR or LF
    | CommentBody  // anything but `/` and `*`
    | StringBody   // anything but a backslash and the two quotes
    | NotLineEnd   // what JavaScript's `.` matches

  predicate In(c: char, k: CharClass) {
    match k
    case Digit => IsDigit(c)
    case HexDigit => IsHexDigit(c)
    case IdentPart => IsLower(c) || IsUpper(c) || IsDigit(c) || c == '_' || c == '$'
    case Space => c == ' ' || c == '\t' || c == '\r' || c == '\n'
    case CommentBody => c != '/' && c != '*'
    case StringBody => c != '\\' && c != '"' && c != '\''
    case NotLineEnd => !IsLineTerminator(c)
  }

  ghost predicate AllIn(t: seq<char>, k: CharClass) {
    forall i :: 0 <= i < |t| ==> In(t[i], k)
  }

  /** Length of the longest run of characters of class `k` in `s` starting at index `i`. */
  function Run(s: seq<char>, i: nat, k: CharClass): (n: nat)
    requires i <= |s|
    ensures i + n <= |s|
    decreases |s| - i
  {
    if i == |s| || !In(s[i], k) then 0 else 1 + Run(s, i + 1, k)
  }

  /** Every character of the run is of class `k`, and the run stops at the first character that is not. */
  lemma {:induction false} RunExtent(s: seq<char>, i: nat, k: CharClass)
    requires i <= |s|
    ensures forall m :: i <= m < i + Run(s, i, k) ==> In(s[m], k)
    ensures i + Run(s, i, k) < |s| ==> !In(s[i + Run(s, i, k)], k)
    decreases |s| - i
  {
    if i < |s| && In(s[i], k) {
      RunExtent(s, i + 1, k);
    }
  }

  /** The slice `s[a..b]` is all of class `k` exactly when it lies within the run starting at `a`. */
  lemma AllInSlice(s: seq<char>, a: nat, b: nat, k: CharClass)
    requires a <= b <= |s|
    ensures AllIn(s[a..b], k) <==> b - a <= Run(s, a, k)
  {
    RunExtent(s, a, k);
    if b - a > Run(s, a, k) {
      assert s[a..b][Run(s, a, k)] == s[a + Run(s, a, k)];
    }
  }

  lemma AllInPrefix(s: seq<char>, m: nat, k: CharClass)
    requires m <= |s|
    ensures AllIn(s[..m], k) <==> m <= Run(s, 0, k)
  {
    assert s[..m] == s[0..m];
    AllInSlice(s, 0, m, k);
  }

  /** A text all of class `k` from `i` on is its own run. */
  lemma RunWhole(s: seq<char>, i: nat, k: CharClass)
    requires i <= |s| && forall m :: i <= m < |s| ==> In(s[m], k)
    ensures Run(s, i, k) == |s| - i
  {
    RunExtent(s, i, k);
  }

  /**
   * From index `i` on, `s` is the body of a quoted text never closed on its
   * line: a sequence of items, each either one character other than the
   * quote `q` and the backslash, or a backslash followed by a character other
   * than a line terminator.
   */
  predicate EscapedFrom(q: char, s: seq<char>, i: nat)
    requires i <= |s|
    decreases |s| - i
  {
    if i == |s| then true
    else if s[i] == '\\' then i + 1 < |s| && !IsLineTerminator(s[i + 1]) && EscapedFrom(q, s, i + 2)
    else s[i] != q && EscapedFrom(q, s, i + 1)
  }

  /** The regular expressions of the rule table. */
  datatype Pattern =
    | LowerIdent                        // a-z, `_` or `$`, then identifier characters
    | UpperIdent                        // A-Z, then identifier characters
    | Blanks                            // one or more blanks, tabs, CRs, LFs
    | BlockCommentOpen                  // slash star
    | LineComment                       // two slashes, then anything to the end of the line
    | UnterminatedString(quote: char)   // a quote whose escaped body runs to the end of the line
    | Quote(quote: char)                // that one quote character
    | Float                             // digits, point, digits, optional exponent
    | Hex                               // 0x or 0X, then hex digits
    | Digits                            // one or more digits
    | CommentText                       // one or more characters other than `/` and `*`
    | BlockCommentClose                 // star slash
    | CommentDelimiter                  // one `/` or one `*`
    | StringText                        // one or more characters other than backslash and quotes
    | Escape                            // the `escapes` expression
    | BackslashAny                      // a backslash and any character but a line terminator
    | AnyQuote                          // either quote

  /** Expressions that end with the end-of-line anchor. */
  predicate Anchored(p: Pattern) {
    p.LineComment? || p.UnterminatedString?
  }

  // ---------------------------------------------------------------------
  // Matchers

  /** Length of an exponent (`e` or `E`, optional sign, digits) at index `j` of `s`, or 0. */
  function ExponentLen(s: seq<char>, j: nat): (n: nat)
    requires j <= |s|
    ensures j + n <= |s|
  {
    if j + 2 <= |s| && (s[j] == 'e' || s[j] == 'E') then
      if (s[j + 1] == '+' || s[j + 1] == '-') && Run(s, j + 2, Digit) > 0 then 2 + Run(s, j + 2, Digit)
      else if Run(s, j + 1, Digit) > 0 then 1 + Run(s, j + 1, Digit)
      else 0
    else 0
  }

  /** Optional digits, a point, at least one digit, then an optional exponent. */
  function FloatLen(s: seq<char>): (n: nat)
    ensures n <= |s|
  {
    var d := Run(s, 0, Digit);
    if d < |s| && s[d] == '.' && Run(s, d + 1, Digit) > 0 then
      var j := d + 1 + Run(s, d + 1, Digit);
      j + ExponentLen(s, j)
    else 0
  }

  function HexLen(s: seq<char>): (n: nat)
    ensures n <= |s|
  {
    if |s| >= 2 && s[0] == '0' && (s[1] == 'x' || s[1] == 'X') && Run(s, 2, HexDigit) > 0 then
      2 + Run(s, 2, HexDigit)
    else 0
  }

  /**
   * The `escapes` expression: a backslash followed by a one-letter escape, by
   * `x` and one to four hex digits (as many as there are), by `u` and four hex
   * digits, or by `U` and eight hex digits.
   */
  function EscapeLen(s: seq<char>): (n: nat)
    ensures n <= |s|
  {
    if |s| >= 2 && s[0] == '\\' then
      var h := Run(s, 2, HexDigit);
      if IsSimpleEscape(s[1]) then 2
      else if s[1] == 'x' && h >= 1 then 2 + (if h < 4 then h else 4)
      else if s[1] == 'u' && h >= 4 then 6
      else if s[1] == 'U' && h >= 8 then 10
      else 0
    else 0
  }

  /** Length of the match of `p` at the start of `s`; 0 when `p` does not match. */
  function MatchLen(p: Pattern, s: seq<char>): (n: nat)
    ensures n <= |s|
  {
    match p
    case LowerIdent => if |s| > 0 && IsLowerIdentStart(s[0]) then 1 + Run(s, 1, IdentPart) else 0
    case UpperIdent => if |s| > 0 && IsUpper(s[0]) then 1 + Run(s, 1, IdentPart) else 0
    case Blanks => Run(s, 0, Space)
    case BlockCommentOpen => if |s| >= 2 && s[0] == '/' && s[1] == '*' then 2 else 0
    case LineComment =>
      if |s| >= 2 && s[0] == '/' && s[1] == '/' && Run(s, 2, NotLineEnd) == |s| - 2 then |s| else 0
    case UnterminatedString(q) => if |s| >= 1 && s[0] == q && EscapedFrom(q, s, 1) then |s| else 0
    case Quote(q) => if |s| >= 1 && s[0] == q then 1 else 0
    case Float => FloatLen(s)
    case Hex => HexLen(s)
    case Digits => Run(s, 0, Digit)
    case CommentText => Run(s, 0, CommentBody)
    case BlockCommentClose => if |s| >= 2 && s[0] == '*' && s[1] == '/' then 2 else 0
    case CommentDelimiter => if |s| >= 1 && (s[0] == '/' || s[0] == '*') then 1 else 0
    case StringText => Run(s, 0, StringBody)
    case Escape => EscapeLen(s)
    case BackslashAny => if |s| >= 2 && s[0] == '\\' && !IsLineTerminator(s[1]) then 2 else 0
    case AnyQuote => if |s| >= 1 && IsQuote(s[0]) then 1 else 0
  }

  // ---------------------------------------------------------------------
  // The languages the expressions denote

  ghost predicate ExponentText(v: seq<char>) {
    v == [] ||
    (|v| >= 2 && (v[0] == 'e' || v[0] == 'E') &&
     (AllIn(v[1..], Digit) || (|v| >= 3 && (v[1] == '+' || v[1] == '-') && AllIn(v[2..], Digit))))
  }

  /** `t` is a float whose point is at `i` and whose fraction ends at `j`. */
  ghost predicate FloatSplit(t: seq<char>, i: nat, j: nat)
    requires i < j <= |t|
  {
    AllIn(t[..i], Digit) && t[i] == '.' && i + 1 < j && AllIn(t[i + 1..j], Digit) && ExponentText(t[j..])
  }

  ghost predicate FloatText(t: seq<char>) {
    exists i: nat, j: nat :: i < j <= |t| && FloatSplit(t, i, j)
  }

  ghost predicate EscapeText(t: seq<char>) {
    |t| >= 2 && t[0] == '\\' &&
    ((|t| == 2 && IsSimpleEscape(t[1])) ||
     (t[1] == 'x' && 3 <= |t| <= 6 && AllIn(t[2..], HexDigit)) ||
     (t[1] == 'u' && |t| == 6 && AllIn(t[2..], HexDigit)) ||
     (t[1] == 'U' && |t| == 10 && AllIn(t[2..], HexDigit)))
  }

  /** `t` is in the language of the expression `p`. */
  ghost predicate Denotes(p: Pattern, t: seq<char>) {
    match p
    case LowerIdent => |t| >= 1 && IsLowerIdentStart(t[0]) && AllIn(t[1..], IdentPart)
    case UpperIdent => |t| >= 1 && IsUpper(t[0]) && AllIn(t[1..], IdentPart)
    case Blanks => |t| >= 1 && AllIn(t, Space)
    case BlockCommentOpen => t == "/*"
    case LineComment => |t| >= 2 && t[0] == '/' && t[1] == '/' && AllIn(t[2..], NotLineEnd)
    case UnterminatedString(q) => |t| >= 1 && t[0] == q && EscapedFrom(q, t, 1)
    case Quote(q) => t == [q]
    case Float => FloatText(t)
    case Hex => |t| >= 3 && t[0] == '0' && (t[1] == 'x' || t[1] == 'X') && AllIn(t[2..], HexDigit)
    case Digits => |t| >= 1 && AllIn(t, Digit)
    case CommentText => |t| >= 1 && AllIn(t, CommentBody)
    case BlockCommentClose => t == "*/"
    case CommentDelimiter => t == "/" || t == "*"
    case StringText => |t| >= 1 && AllIn(t, StringBody)
    case Escape => EscapeText(t)
    case BackslashAny => |t| == 2 && t[0] == '\\' && !IsLineTerminator(t[1])
    case AnyQuote => t == "\"" || t == "'"
  }

  /** `p` matches the first `k` characters of `s`, anchored at the start (and at the end when `p` is). */
  ghost predicate MatchesAt(p: Pattern, s: seq<char>, k: nat) {
    k <= |s| && Denotes(p, s[..k]) && (Anchored(p) ==> k == |s|)
  }

  /** `n` is the longest match of `p` at the start of `s`, with 0 standing for none. */
  ghost predicate IsLongestMatch(p: Pattern, s: seq<char>, n: nat) {
    && n <= |s|
    && !MatchesAt(p, s, 0)
    && (n > 0 ==> MatchesAt(p, s, n))
    && (forall k: nat :: n < k <= |s| ==> !MatchesAt(p, s, k))
  }

  /** There is only one longest match. */
  lemma LongestMatchUnique(p: Pattern, s: seq<char>, n: nat, m: nat)
    requires IsLongestMatch(p, s, n) && IsLongestMatch(p, s, m)
    ensures n == m
  {
  }

  // ---------------------------------------------------------------------
  // Each matcher finds the longest match

  lemma MatchLenIsLongest(p: Pattern, s: seq<char>)
    ensures IsLongestMatch(p, s, MatchLen(p, s))
  {
    match p
    case LowerIdent => IdentLongest(p, s);
    case UpperIdent => IdentLongest(p, s);
    case Blanks => RunLongest(p, s, Space);
    case Digits => RunLongest(p, s, Digit);
    case CommentText => RunLongest(p, s, CommentBody);
    case StringText => RunLongest(p, s, StringBody);
    case LineComment => LineCommentLongest(s);
    case Float => FloatLongest(s);
    case Hex => HexLongest(s);
    case Escape => EscapeLongest(s);
    case _ => FixedLongest(p, s);
  }

  lemma RunLongest(p: Pattern, s: seq<char>, k: CharClass)
    requires (p.Blanks? && k == Space) || (p.Digits? && k == Digit)
          || (p.CommentText? && k == CommentBody) || (p.StringText? && k == StringBody)
    ensures IsLongestMatch(p, s, MatchLen(p, s))
  {
    forall m: nat | m <= |s| ensures Denotes(p, s[..m]) <==> 1 <= m <= Run(s, 0, k) {
      AllInPrefix(s, m, k);
    }
  }

  lemma IdentLongest(p: Pattern, s: seq<char>)
    requires p.LowerIdent? || p.UpperIdent?
    ensures IsLongestMatch(p, s, MatchLen(p, s))
  {
    forall m: nat | 1 <= m <= |s| ensures Denotes(p, s[..m]) <==> MatchLen(p, s) >= m {
      assert s[..m][1..] == s[1..m];
      AllInSlice(s, 1, m, IdentPart);
    }
  }

  lemma LineCommentLongest(s: seq<char>)
    ensures IsLongestMatch(LineComment, s, MatchLen(LineComment, s))
  {
    assert s[..|s|] == s;
    if |s| >= 2 {
      AllInSlice(s, 2, |s|, NotLineEnd);
    }
  }

  lemma HexLongest(s: seq<char>)
    ensures IsLongestMatch(Hex, s, MatchLen(Hex, s))
  {
    forall m: nat | 3 <= m <= |s| ensures Denotes(Hex, s[..m]) <==> MatchLen(Hex, s) >= m {
      assert s[..m][2..] == s[2..m];
      AllInSlice(s, 2, m, HexDigit);
    }
  }

  lemma EscapeLongest(s: seq<char>)
    ensures IsLongestMatch(Escape, s, MatchLen(Escape, s))
  {
    var n := EscapeLen(s);
    if n > 0 {
      assert s[..n][2..] == s[2..n];
      AllInSlice(s, 2, n, HexDigit);
    }
    forall m: nat | n < m <= |s| ensures !EscapeText(s[..m]) {
      if m >= 2 {
        assert s[..m][2..] == s[2..m];
        AllInSlice(s, 2, m, HexDigit);
      }
    }
  }

  /** The expressions that match one fixed text (or nothing, or the whole line). */
  lemma FixedLongest(p: Pattern, s: seq<char>)
    requires p.BlockCommentOpen? || p.UnterminatedString? || p.Quote? || p.BlockCommentClose?
          || p.CommentDelimiter? || p.BackslashAny? || p.AnyQuote?
    ensures IsLongestMatch(p, s, MatchLen(p, s))
  {
    assert s[..|s|] == s;
    if |s| >= 1 { assert s[..1] == [s[0]]; }
    if |s| >= 2 { assert s[..2] == [s[0], s[1]]; }
  }

  /** The exponent `ExponentLen` finds at `j` is in the exponent language. */
  lemma ExponentMatches(s: seq<char>, j: nat)
    requires j <= |s|
    ensures ExponentText(s[j..j + ExponentLen(s, j)])
  {
    var e := j + ExponentLen(s, j);
    if e > j {
      assert s[j..e][1..] == s[j + 1..e];
      assert s[j..e][2..] == s[j + 2..e];
      AllInSlice(s, j + 1, e, Digit);
      AllInSlice(s, j + 2, e, Digit);
    }
  }

  /** An exponent at `j` is never longer than the one `ExponentLen` finds. */
  lemma ExponentWithin(s: seq<char>, j: nat, k: nat)
    requires j <= k <= |s| && ExponentText(s[j..k])
    ensures k <= j + ExponentLen(s, j)
  {
    if k >= j + 2 {
      assert s[j..k][1..] == s[j + 1..k];
      assert s[j..k][2..] == s[j + 2..k];
      AllInSlice(s, j + 1, k, Digit);
      AllInSlice(s, j + 2, k, Digit);
    }
  }

  /** In a float prefix of `s`, the point is right after the leading digits, and the fraction is the whole digit run after it unless nothing follows. */
  lemma FloatSplitPoint(s: seq<char>, k: nat, i: nat, j: nat)
    requires i < j <= k <= |s| && FloatSplit(s[..k], i, j)
    ensures i == Run(s, 0, Digit) && s[i] == '.'
    ensures 0 < j - i - 1 <= Run(s, i + 1, Digit)
    ensures j < i + 1 + Run(s, i + 1, Digit) ==> j == k
  {
    var t := s[..k];
    assert t[..i] == s[..i];
    AllInPrefix(s, i, Digit);
    RunExtent(s, 0, Digit);
    assert t[i + 1..j] == s[i + 1..j];
    AllInSlice(s, i + 1, j, Digit);
    RunExtent(s, i + 1, Digit);
    if j < k {
      assert t[j..][0] == s[j];
    }
  }

  lemma FloatLongest(s: seq<char>)
    ensures IsLongestMatch(Float, s, MatchLen(Float, s))
  {
    var n := FloatLen(s);
    if n > 0 {
      FloatMatchesAtLen(s);
    }
    forall k: nat | n < k <= |s| ensures !Denotes(Float, s[..k]) {
      FloatNoLonger(s, k);
    }
    assert !Denotes(Float, s[..0]);
  }

  lemma FloatMatchesAtLen(s: seq<char>)
    requires FloatLen(s) > 0
    ensures FloatText(s[..FloatLen(s)])
  {
    var d := Run(s, 0, Digit);
    var j := d + 1 + Run(s, d + 1, Digit);
    var n := FloatLen(s);
    var t := s[..n];
    ExponentMatches(s, j);
    assert t[..d] == s[..d];
    AllInPrefix(s, d, Digit);
    assert t[d + 1..j] == s[d + 1..j];
    AllInSlice(s, d + 1, j, Digit);
    assert t[j..] == s[j..n];
    assert FloatSplit(t, d, j);
  }

  lemma FloatNoLonger(s: seq<char>, k: nat)
    requires FloatLen(s) < k <= |s|
    ensures !FloatText(s[..k])
  {
    if FloatText(s[..k]) {
      var i: nat, j: nat :| i < j <= k && FloatSplit(s[..k], i, j);
      FloatSplitPoint(s, k, i, j);
      assert s[..k][j..] == s[j..k];
      if j == i + 1 + Run(s, i + 1, Digit) {
        ExponentWithin(s, j, k);
      }
      assert false;
    }
  }
}
