/** The catalog of LTL token categories (verification/ltl.py, the `LTL`
    enumeration), with each category's display symbol, its spellings and
    the classification tables the parser uses. */
module LtlCatalog {

  /** One token category per member of the enumeration, in declaration order. */
  datatype Kind =
    | And | Or | Not | Impl | Equiv | Xor
    | Next | Until | Weak | Release | Finally | Globally
    | LeftPar | RightPar
    | True | False
    | Proposition
    | Whitespace
    | Error
    | Eof

  /** What a category accepts at a position: a list of fixed spellings tried
      in order, a maximal run of word characters (`\w+`), a maximal run of
      white space (`\s+`), any single character but a newline (`.`), or the
      empty string. */
  datatype Pattern =
    | Literals(spellings: seq<string>)
    | WordRun
    | SpaceRun
    | AnyChar
    | Empty

  /** The categories in declaration order: the order in which the combined
      scanner tries them at every position. */
  const Catalog: seq<Kind> :=
    [And, Or, Not, Impl, Equiv, Xor, Next, Until, Weak, Release, Finally, Globally,
     LeftPar, RightPar, True, False, Proposition, Whitespace, Error, Eof]

  /** The position of a category in the catalog. */
  function Rank(k: Kind): (r: nat)
    ensures r < |Catalog| && Catalog[r] == k
  {
    match k
    case And => 0
    case Or => 1
    case Not => 2
    case Impl => 3
    case Equiv => 4
    case Xor => 5
    case Next => 6
    case Until => 7
    case Weak => 8
    case Release => 9
    case Finally => 10
    case Globally => 11
    case LeftPar => 12
    case RightPar => 13
    case True => 14
    case False => 15
    case Proposition => 16
    case Whitespace => 17
    case Error => 18
    case Eof => 19
  }

  // Non-ASCII spellings and symbols are written by code point:
  // U+2227 is ∧, U+2228 ∨, U+00AC ¬, U+21D2 ⇒, U+21D4 ⇔, U+25C7 ◇, U+2610 ☐.

  /** Every spelling consumes at least one character. */
  predicate NonEmptySpellings(spellings: seq<string>)
  {
    forall l :: l in spellings ==> |l| > 0
  }

  /** The spellings of each category, as listed in the enumeration; none of
      them is empty. */
  function PatternOf(k: Kind): (p: Pattern)
    ensures p.Literals? ==> NonEmptySpellings(p.spellings)
  {
    match k
    case And => Literals(["&", "/\\", "\U{2227}"])
    case Or => Literals(["|", "\\/", "\U{2228}"])
    case Not => Literals(["!", "~", "\U{00AC}"])
    case Impl => Literals(["->", "\U{21D2}"])
    case Equiv => Literals(["=", "\U{21D4}"])
    case Xor => Literals(["^"])
    case Next => Literals(["X"])
    case Until => Literals(["U"])
    case Weak => Literals(["W"])
    case Release => Literals(["R"])
    case Finally => Literals(["F", "<>", "\U{25C7}"])
    case Globally => Literals(["G", "[]", "\U{2610}"])
    case LeftPar => Literals(["("])
    case RightPar => Literals([")"])
    case True => Literals(["true"])
    case False => Literals(["false"])
    case Proposition => WordRun
    case Whitespace => SpaceRun
    case Error => AnyChar
    case Eof => Empty
  }

  /** The display symbol of the categories an AST node can carry. */
  function Symbol(k: Kind): string
  {
    match k
    case And => "\U{2227}"
    case Or => "\U{2228}"
    case Not => "\U{00AC}"
    case Impl => "\U{21D2}"
    case Equiv => "\U{21D4}"
    case Xor => "^"
    case Next => "X"
    case Until => "U"
    case Weak => "W"
    case Release => "R"
    case Finally => "F"
    case Globally => "G"
    case LeftPar => "("
    case RightPar => ")"
    case True => "true"
    case False => "false"
    case Proposition => "proposition"
    case Whitespace => ""
    case Error => ""
    case Eof => ""
  }

  /** Word characters (`\w`), approximated by their ASCII members. */
  predicate IsWordChar(c: char)
  {
    ('a' <= c <= 'z') || ('A' <= c <= 'Z') || ('0' <= c <= '9') || c == '_'
  }

  /** White space (`\s`), approximated by its ASCII members: the six
      usual ones and the four separators `\x1c`-`\x1f`. */
  predicate IsSpace(c: char)
  {
    c == ' ' || c == '\t' || c == '\n' || c == '\r' || c == '\U{000B}' || c == '\U{000C}'
    || c == '\U{001C}' || c == '\U{001D}' || c == '\U{001E}' || c == '\U{001F}'
  }

  /** `_atoms`: note that it holds PROPOSITION as well as the two constants. */
  predicate IsAtomKind(k: Kind)
  {
    k == True || k == False || k == Proposition
  }

  /** `_unary_operators`. */
  predicate IsUnaryKind(k: Kind)
  {
    k == Not || k == Next || k == Finally || k == Globally
  }

  /** The keys of `_binary_operators`. */
  predicate IsBinaryKind(k: Kind)
  {
    k == Or || k == And || k == Impl || k == Equiv || k == Xor
    || k == Until || k == Weak || k == Release
  }

  /** `_binary_operators`: the precedence of each binary operator; a higher
      number binds tighter. */
  function Precedence(k: Kind): nat
    requires IsBinaryKind(k)
  {
    match k
    case Or => 3
    case And => 4
    case Impl => 2
    case Equiv => 1
    case Xor => 5
    case Until => 0
    case Weak => 0
    case Release => 0
  }
}
