/** The regular expressions of the threat analyzer and of the request middleware, each as
    an exact recognizer of "the expression matches somewhere in the string" (what `test`
    answers when it starts at index 0). Every expression here is written with ASCII
    letters only, so the `i` flag is ASCII case folding (`Lower`); quantifiers such as
    `\s*` or `[^>]*` only decide whether some match exists, so greedy and lazy forms need
    no distinction. */
module Patterns {
  import opened Text

  /** The shapes of expression the honeypot uses. */
  datatype Pattern =
      /** A fixed text (written in lower case when `ignoreCase`), e.g. `/root/i` or an
          `includes('Mozilla/4.0')` test. */
    | Literal(text: string, ignoreCase: bool)
      /** `'|(\\')|(;)|(\\;)|(--)|(\s*(union|select|...|execute)\s+)` with the `i` flag. */
    | SqlMetaOrKeyword
      /** `((%27)|')\s*((%6F)|o|(%4F))\s*((%72)|r|(%52))` with the `i` flag; when
          `spaced` is false the two `\s*` are absent (the leading `\w*` of that variant
          never decides whether it matches). */
    | QuoteOr(spaced: bool)
      /** `<tag[^>]*>.*?<\/tag>` with the `i` flag. */
    | TagBlock(tag: string)
      /** `on\w+\s*=` with the `i` flag. */
    | EventHandlerAttribute
      /** `dot dot [\/\\]` with the `i` flag, `dot` being `.`, `%2e` or `%252e`. */
    | DotDotSeparator(dot: string)
      /** `text\b` with the `i` flag (`text` ends with a word character). */
    | WordEnd(text: string)
      /** `first.*second` with the `i` flag. */
    | OnOneLine(first: string, second: string)

  // ---------------------------------------------------------------- the tables

  const SqlKeywords: seq<string> :=
    ["union", "select", "insert", "delete", "update", "drop", "create", "alter", "exec", "execute"]

  /** threatAnalyzer.js `sqlInjection`. */
  const SqlInjectionPatterns: seq<Pattern> := [SqlMetaOrKeyword, QuoteOr(true), QuoteOr(false)]

  /** threatAnalyzer.js `xssInjection`. */
  const XssPatterns: seq<Pattern> :=
    [TagBlock("script"), Literal("javascript:", true), EventHandlerAttribute, TagBlock("iframe")]

  /** threatAnalyzer.js `directoryTraversal`. */
  const TraversalPatterns: seq<Pattern> :=
    [DotDotSeparator("."), DotDotSeparator("%2e"), DotDotSeparator("%252e")]

  /** threatAnalyzer.js `adminTargeting`. */
  const AdminPatterns: seq<Pattern> :=
    [Literal("admin", true), Literal("administrator", true), Literal("root", true),
     Literal("superuser", true), WordEnd("sa")]

  /** threatAnalyzer.js `botPatterns`. */
  const BotPatterns: seq<Pattern> :=
    [Literal("bot", true), Literal("crawler", true), Literal("spider", true),
     Literal("scraper", true), Literal("curl", true), Literal("wget", true),
     Literal("python", true), Literal("java", true), Literal("automated", true),
     Literal("script", true)]

  /** threatAnalyzer.js `suspiciousAgents`, tested with `includes` (case-sensitive). */
  const SuspiciousAgents: seq<Pattern> :=
    [Literal("Mozilla/4.0", false), Literal("Mozilla/5.0 (compatible;", false)]

  /** security.js `suspiciousPatterns`. */
  const RequestPatterns: seq<Pattern> :=
    [DotDotSeparator("."), Literal("<script", true), Literal("javascript:", true),
     OnOneLine("union", "select"), OnOneLine("drop", "table"), Literal("exec(", true),
     Literal("eval(", true)]

  // ---------------------------------------------------------------- matching

  predicate MatchesAny(table: seq<Pattern>, s: string) {
    exists k | 0 <= k < |table| :: Matches(table[k], s)
  }

  predicate Matches(p: Pattern, s: string) {
    var t := Lower(s);
    match p
    case Literal(text, ignoreCase) => if ignoreCase then Contains(t, text) else Contains(s, text)
    case SqlMetaOrKeyword =>
      || Contains(s, "'") || Contains(s, ";") || Contains(s, "--")
      || exists k, i | 0 <= k < |SqlKeywords| && 0 <= i <= |t| :: KeywordSpaceAt(t[i..], SqlKeywords[k])
    case QuoteOr(spaced) => exists i | 0 <= i <= |t| :: QuoteOrAt(t[i..], spaced)
    case TagBlock(tag) => exists i | 0 <= i <= |t| :: TagBlockAt(t[i..], tag)
    case EventHandlerAttribute => exists i | 0 <= i <= |t| :: EventHandlerAt(t[i..])
    case DotDotSeparator(dot) => exists i | 0 <= i <= |t| :: DotDotAt(t[i..], dot)
    case WordEnd(text) => exists i | 0 <= i <= |t| :: WordEndAt(t[i..], text)
    case OnOneLine(first, second) => exists i | 0 <= i <= |t| :: OnOneLineAt(t[i..], first, second)
  }

  /** `keyword\s+` at the start of `u` (one space already decides the match). */
  predicate KeywordSpaceAt(u: string, keyword: string) {
    |keyword| < |u| && u[..|keyword|] == keyword && IsSpace(u[|keyword|])
  }

  /** The length of a quote token (`%27` or `'`) at the start of `u`, 0 when none. */
  function QuoteLength(u: string): (n: nat)
    ensures n <= |u|
  {
    if StartsWith(u, "%27") then 3 else if StartsWith(u, "'") then 1 else 0
  }

  /** The length of a letter token at the start of `u` (its two percent-escapes or the
      letter itself), 0 when none. */
  function LetterLength(u: string, letter: char, lowerEscape: string, upperEscape: string): (n: nat)
    requires !IsSpace(letter) && |lowerEscape| == 3 && |upperEscape| == 3
    requires lowerEscape[0] == '%' && upperEscape[0] == '%'
    ensures n <= |u|
    ensures n > 0 ==> !IsSpace(u[0])
  {
    if StartsWith(u, lowerEscape) || StartsWith(u, upperEscape) then 3 else if StartsWith(u, [letter]) then 1 else 0
  }

  /** An `o` token: `%6f`, `o` or `%4f`. */
  function OLength(u: string): nat {
    LetterLength(u, 'o', "%6f", "%4f")
  }

  /** An `r` token: `%72`, `r` or `%52`. */
  function RLength(u: string): nat {
    LetterLength(u, 'r', "%72", "%52")
  }

  /** Where `\s*` stands between tokens: every leading space is skipped (no token starts
      with a space, so no shorter skip can succeed). */
  function Gap(u: string, spaced: bool): string {
    if spaced then TrimStart(u) else u
  }

  predicate QuoteOrAt(u: string, spaced: bool) {
    var q := QuoteLength(u);
    q > 0 &&
      var v := Gap(u[q..], spaced);
      var o := OLength(v);
      o > 0 && RLength(Gap(v[o..], spaced)) > 0
  }

  predicate NoLineBreak(x: string) {
    forall k | 0 <= k < |x| :: !IsLineTerminator(x[k])
  }

  /** `.*?close` at the start of `w`. */
  predicate SameLineThen(w: string, close: string) {
    exists c | 0 <= c <= |w| :: NoLineBreak(w[..c]) && StartsWith(w[c..], close)
  }

  /** `<tag[^>]*>.*?<\/tag>` at the start of `u`. */
  predicate TagBlockAt(u: string, tag: string) {
    var open := "<" + tag;
    StartsWith(u, open) &&
      var v := u[|open|..];
      exists b | 0 <= b < |v| :: v[b] == '>' && '>' !in v[..b] && SameLineThen(v[b + 1..], "</" + tag + ">")
  }

  /** `\s*=` at the start of `u`. */
  predicate AssignAfterSpaces(u: string) {
    var v := TrimStart(u);
    |v| > 0 && v[0] == '='
  }

  /** `\w+\s*=` at the start of `u`. */
  predicate WordsThenAssign(u: string) {
    |u| > 0 && IsWordChar(u[0]) && (AssignAfterSpaces(u[1..]) || WordsThenAssign(u[1..]))
  }

  /** `on\w+\s*=` at the start of `u`. */
  predicate EventHandlerAt(u: string) {
    StartsWith(u, "on") && WordsThenAssign(u[2..])
  }

  predicate DotDotAt(u: string, dot: string) {
    var n := 2 * |dot|;
    n < |u| && u[..n] == dot + dot && (u[n] == '/' || u[n] == '\\')
  }

  /** `text\b` at the start of `u`. */
  predicate WordEndAt(u: string, text: string) {
    StartsWith(u, text) && (|u| == |text| || !IsWordChar(u[|text|]))
  }

  predicate OnOneLineAt(u: string, first: string, second: string) {
    StartsWith(u, first) && SameLineThen(u[|first|..], second)
  }

  // ---------------------------------------------------------------- properties

  /** A single quote, a semicolon or a `--` anywhere already matches the first SQL
      injection expression. */
  lemma MetaCharacterIsSqlInjection(s: string)
    requires Contains(s, "'") || Contains(s, ";") || Contains(s, "--")
    ensures Matches(SqlMetaOrKeyword, s) && MatchesAny(SqlInjectionPatterns, s)
  {
    assert SqlInjectionPatterns[0] == SqlMetaOrKeyword;
  }

  /** The third SQL injection expression never matches where the second does not: it is
      the second without the optional spaces. */
  lemma TightQuoteOrIsRedundant(s: string)
    requires Matches(QuoteOr(false), s)
    ensures Matches(QuoteOr(true), s)
  {
    var t := Lower(s);
    var i :| 0 <= i <= |t| && QuoteOrAt(t[i..], false);
    var u := t[i..];
    var q := QuoteLength(u);
    var o := OLength(u[q..]);
    assert TrimStart(u[q..]) == u[q..];
    assert TrimStart(u[q..][o..]) == u[q..][o..];
    assert QuoteOrAt(u, true);
  }

  /** `/administrator/i` never matches where `/admin/i` does not. */
  lemma AdministratorIsRedundant(s: string)
    requires Matches(Literal("administrator", true), s)
    ensures Matches(Literal("admin", true), s)
  {
    ContainsPrefixOfNeedle(Lower(s), "administrator", "admin");
  }

  /** `Lower` distributes over concatenation. */
  lemma LowerConcat(a: string, b: string)
    ensures Lower(a + b) == Lower(a) + Lower(b)
  {
  }

  /** Admin targeting is a case-insensitive substring test: any text around a
      differently-cased "admin" matches, so "administration" or "Badminton" do too. */
  lemma AdminAnywhereMatches(before: string, word: string, after: string)
    requires Lower(word) == "admin"
    ensures MatchesAny(AdminPatterns, before + word + after)
  {
    LowerConcat(before + word, after);
    LowerConcat(before, word);
    ContainsInfix(Lower(before), "admin", Lower(after));
    assert Matches(AdminPatterns[0], before + word + after);
  }
}
