/** Printing and parsing are inverse (verification/ltl.py, `__str__` of the
    AST classes against `parse`): every formula the parser can build prints
    as text that parses back to the same formula. */
module LtlPrintParse {
  import opened Wrappers
  import opened LtlCatalog
  import opened LtlScanner
  import opened LtlAst
  import opened LtlParser
  import opened LtlRoundTrip
  import opened LtlRescan

  /** The two end-of-input lexemes that close every complete stream. */
  function EndLexemes(): seq<Lexeme>
  {
    [Lexeme(Eof, ""), Lexeme(Eof, "")]
  }

  /** The lexemes of a printed formula are the formula's tokens followed
      by the end of input. */
  lemma PrintedLexemes(t: Ast)
    requires Printable(t)
    ensures Spells(Lexemes(Lex(Render(t))), 0, t)
    ensures Size(t) <= |Lexemes(Lex(Render(t)))|
    ensures Lexemes(Lex(Render(t)))[Size(t)..] == EndLexemes()
  {
    var ls := Lexemes(Lex(Render(t)));
    LexPrinted(t);
    SpellOntoIsSpelling(t, EndLexemes());
    assert ls[0..] == ls;
    SpelledFromSpelling(ls, 0, t, EndLexemes());
  }

  /** The stream of a printed formula holds the formula's tokens from the
      start and the end of input right after them. */
  lemma PrintedStream(t: Ast)
    requires Printable(t)
    ensures ValidStream(Lex(Render(t)))
    ensures SpelledAt(Lex(Render(t)), 0, t)
    ensures Size(t) < |Lex(Render(t))| && TokenIs(Lex(Render(t)), Size(t), Eof)
  {
    var items := Lex(Render(t));
    LexFromValid(Render(t), 0);
    PrintedLexemes(t);
    ItemsSpell(items, 0, t);
    LexemeAt(Lexemes(items), Size(t), Lexeme(Eof, ""), [Lexeme(Eof, "")]);
    TokenAt(items, Size(t));
  }

  /** The parser's unary level, from each position of a stream. */
  function ParserOf(items: seq<Item>): nat -> Result<Parsed, ParseError>
  {
    (x: nat) => if At(items, x) then PUnary(items, x) else Err(LexError(x))
  }

  lemma ParserParses(items: seq<Item>)
    requires ValidStream(items)
    ensures Parses(items, ParserOf(items))
  {
  }

  /** The unary level reads the tokens of a formula at the start of a
      stream and stops right after them. */
  lemma ReadsBack(items: seq<Item>, t: Ast)
    requires ValidStream(items) && WellFormed(t) && SpelledAt(items, 0, t)
    requires Size(t) < |items| && items[Size(t)].Tok?
    ensures PUnary(items, 0) == Ok(Parsed(t, Size(t)))
  {
    ParserParses(items);
    UnaryRoundTrip(items, 0, t, ParserOf(items));
  }

  /** The parser reads the tokens of a formula followed by the end of
      input as the formula. */
  lemma ParsesBack(items: seq<Item>, t: Ast)
    requires ValidStream(items) && WellFormed(t) && SpelledAt(items, 0, t)
    requires TokenIs(items, Size(t), Eof)
    ensures ParseItems(items) == Ok(t)
  {
    ReadsBack(items, t);
    SpelledStartsWithToken(items, 0, t);
    BinaryFromUnary(items, 0, 0);
    LoopStops(items, t, Size(t), 0);
  }

  /** `parse(str(t)) == t` for every tree whose proposition names are valid
      names: the printed form parses back to the tree it came from. */
  lemma ParsePrinted(t: Ast)
    requires Printable(t)
    ensures Parse(Render(t)) == Ok(t)
  {
    PrintedStream(t);
    PrintableIsWellFormed(t);
    ParsesBack(Lex(Render(t)), t);
  }

  /** No two printable trees print alike. */
  lemma RenderInjective(a: Ast, b: Ast)
    requires Printable(a) && Printable(b)
    ensures Render(a) == Render(b) <==> a == b
  {
    ParsePrinted(a);
    ParsePrinted(b);
  }

  /** Parsing a formula's printed form is idempotent: once text parses, its
      printed form parses to the same tree, and printing that tree again
      gives the same text. */
  lemma ParseRenderIdempotent(s: string)
    ensures Parse(s).Ok? ==> Parse(Render(Parse(s).value)) == Parse(s)
  {
    if Parse(s).Ok? {
      ParsePrinted(Parse(s).value);
    }
  }
}
