/** The scanner reads a printed formula back as the formula's tokens
    (verification/ltl.py, `__str__` of the AST classes against `tokenize`).

    The scanner's output is described by any function `L` from offsets to
    lexemes that agrees with it (`Scans`); the proof then needs the scanner
    only through the single steps `LexParen`, `LexSymbol`, `LexSpace` and
    `LexLeaf`, and the printed text only through the slices `HoldsAt`. */
module LtlRescan {
  import opened LtlCatalog
  import opened LtlScanner
  import opened LtlAst
  import opened LtlRoundTrip

  /** `s` holds the text `w` at offset `i`. */
  predicate HoldsAt(s: string, i: nat, w: string)
  {
    i + |w| <= |s| && s[i..i + |w|] == w
  }

  /** No word character continues the text at `e`. */
  predicate EndsAt(s: string, e: nat)
  {
    e <= |s| && (e == |s| || !IsWordChar(s[e]))
  }

  /** Where `s` holds `a + b`, it holds `a` and then `b`. */
  lemma HoldsConcat(s: string, i: nat, a: string, b: string)
    requires HoldsAt(s, i, a + b)
    ensures HoldsAt(s, i, a) && HoldsAt(s, i + |a|, b)
  {
    assert s[i..i + |a|] == s[i..i + |a + b|][..|a|];
    assert s[i + |a|..i + |a| + |b|] == s[i..i + |a + b|][|a|..];
  }

  /** Where `s` holds a non-empty text, its first character is there. */
  lemma HoldsFirst(s: string, i: nat, w: string)
    requires HoldsAt(s, i, w) && |w| > 0
    ensures i < |s| && s[i] == w[0]
  {
    assert s[i..i + |w|][0] == s[i];
  }

  /** The operators print as one character. */
  lemma SymbolWidth(k: Kind)
    requires IsUnaryKind(k) || IsBinaryKind(k)
    ensures |Symbol(k)| == 1
  {
  }

  /** A printed formula is not empty and does not start with white
      space. */
  lemma RenderStart(t: Ast)
    requires Printable(t)
    ensures |Render(t)| > 0 && !IsSpace(Render(t)[0])
  {
    match t
    case Atom(k) =>
    case Prop(n) =>
    case Unary(k, o) =>
      SymbolWidth(k);
      assert Render(t)[0] == Symbol(k)[0];
    case Binary(k, l, r) =>
      assert Render(t)[0] == '(';
  }

  /** Where `s` holds a printed formula, its first character is no white
      space. */
  lemma PrintedStart(s: string, j: nat, t: Ast)
    requires Printable(t) && HoldsAt(s, j, Render(t))
    ensures j < |s| && !IsSpace(s[j])
  {
    RenderStart(t);
    HoldsFirst(s, j, Render(t));
  }

  /** Where `s` holds a parenthesised infix text, it holds each part of it. */
  lemma InfixSlices(s: string, i: nat, x: string, op: string, y: string, a: nat, b: nat)
    requires |op| == 1 && a == i + 1 + |x| && b == a + 3 + |y|
    requires HoldsAt(s, i, "(" + x + " " + op + " " + y + ")")
    ensures s[i] == '(' && HoldsAt(s, i + 1, x)
    ensures s[a] == ' ' && HoldsAt(s, a + 1, op) && s[a + 2] == ' '
    ensures HoldsAt(s, a + 3, y) && s[b] == ')'
  {
    var w := "(" + x + " " + op + " " + y + ")";
    assert forall j :: 0 <= j < |w| ==> s[i + j] == w[j] by {
      forall j | 0 <= j < |w| ensures s[i + j] == w[j] {
        assert s[i..i + |w|][j] == s[i + j];
      }
    }
    forall j | 0 <= j < |x| ensures s[i + 1 + j] == x[j] {
      assert s[i + (1 + j)] == w[1 + j];
    }
    forall j | 0 <= j < |y| ensures s[a + 3 + j] == y[j] {
      assert s[i + (4 + |x| + j)] == w[4 + |x| + j];
    }
    assert s[i + (2 + |x|)] == w[2 + |x|] == op[0];
    assert s[a] == w[1 + |x|] && s[a + 2] == w[3 + |x|] && s[b] == w[|w| - 1];
    assert s[i + 1..i + 1 + |x|] == x;
    assert s[a + 3..a + 3 + |y|] == y;
    assert s[a + 1..a + 2] == op;
  }

  /** The operators print as one character, which the scanner reads back as
      the operator. */
  lemma SymbolScans(s: string, i: nat, k: Kind)
    requires IsUnaryKind(k) || IsBinaryKind(k)
    requires i < |s| && s[i] == Symbol(k)[0]
    ensures |Symbol(k)| == 1
    ensures Classify(s, i) == Match(k, i + 1)
  {
  }

  lemma ParenScans(s: string, i: nat)
    requires i < |s|
    ensures s[i] == '(' ==> Classify(s, i) == Match(LeftPar, i + 1)
    ensures s[i] == ')' ==> Classify(s, i) == Match(RightPar, i + 1)
  {
  }

  lemma SpaceScans(s: string, a: nat)
    requires a + 1 < |s| && s[a] == ' ' && !IsSpace(s[a + 1])
    ensures Classify(s, a) == Match(Whitespace, a + 1)
  {
    assert SpaceEnd(s, a + 1) == a + 1;
  }

  /** A constant or a proposition name is one token. */
  lemma LeafScans(s: string, i: nat, t: Ast)
    requires Printable(t) && (t.Atom? || t.Prop?) && HoldsAt(s, i, Render(t))
    requires EndsAt(s, i + |Render(t)|)
    ensures Classify(s, i) == Match(KindOf(t), i + |Render(t)|)
  {
    if t.Atom? {
      StartsWithSlice(s, i, Symbol(t.kind));
    } else {
      ClassifyValidName(s, i, t.name);
    }
  }

  /** One token: the stream from `i` is that token, then the stream from the
      end of its match. */
  lemma LexOne(s: string, i: nat, k: Kind, e: nat)
    requires i <= |s| && Classify(s, i) == Match(k, e)
    requires k !in {Whitespace, Error, Eof}
    ensures Lexemes(LexFrom(s, i)) == [Lexeme(k, s[i..e])] + Lexemes(LexFrom(s, e))
  {
    LexemesConcat([Tok(Token(k, i, e, s[i..e]))], LexFrom(s, e));
  }

  /** `L` gives the lexemes that the scanner produces from each offset of
      `s`. */
  predicate Scans(s: string, L: nat -> seq<Lexeme>)
  {
    forall x: nat {:trigger LexFrom(s, x)} :: x <= |s| ==> L(x) == Lexemes(LexFrom(s, x))
  }

  /** A parenthesis scans as itself. */
  lemma LexParen(s: string, i: nat, L: nat -> seq<Lexeme>)
    requires Scans(s, L) && i < |s| && (s[i] == '(' || s[i] == ')')
    ensures s[i] == '(' ==> L(i) == [Lexeme(LeftPar, "(")] + L(i + 1)
    ensures s[i] == ')' ==> L(i) == [Lexeme(RightPar, ")")] + L(i + 1)
  {
    ParenScans(s, i);
    assert s[i..i + 1] == [s[i]];
    if s[i] == '(' {
      LexOne(s, i, LeftPar, i + 1);
    } else {
      LexOne(s, i, RightPar, i + 1);
    }
  }

  /** An operator symbol scans as the operator. */
  lemma LexSymbol(s: string, i: nat, k: Kind, L: nat -> seq<Lexeme>)
    requires Scans(s, L) && (IsUnaryKind(k) || IsBinaryKind(k))
    requires HoldsAt(s, i, Symbol(k))
    ensures L(i) == [Lexeme(k, Symbol(k))] + L(i + 1)
  {
    SymbolWidth(k);
    HoldsFirst(s, i, Symbol(k));
    SymbolScans(s, i, k);
    LexOne(s, i, k, i + 1);
  }

  /** A single space before a character that is not white space is
      dropped. */
  lemma LexSpace(s: string, a: nat, L: nat -> seq<Lexeme>)
    requires Scans(s, L) && a + 1 < |s| && s[a] == ' ' && !IsSpace(s[a + 1])
    ensures L(a) == L(a + 1)
  {
    SpaceScans(s, a);
    assert LexFrom(s, a) == LexFrom(s, a + 1);
  }

  /** A constant or a proposition name, not followed by a word character,
      scans as one token. */
  lemma LexLeaf(s: string, i: nat, t: Ast, L: nat -> seq<Lexeme>)
    requires Scans(s, L) && Printable(t) && (t.Atom? || t.Prop?) && HoldsAt(s, i, Render(t))
    requires EndsAt(s, i + |Render(t)|)
    ensures L(i) == SpellOnto(t, L(i + |Render(t)|))
  {
    LeafScans(s, i, t);
    LexOne(s, i, KindOf(t), i + |Render(t)|);
  }

  /** The scanner reads the printed form of a formula, found at `i` and not
      followed by a word character, as the tokens of the formula. */
  lemma {:induction false} LexRender(s: string, i: nat, t: Ast, L: nat -> seq<Lexeme>)
    requires Scans(s, L) && Printable(t) && HoldsAt(s, i, Render(t))
    requires EndsAt(s, i + |Render(t)|)
    ensures L(i) == SpellOnto(t, L(i + |Render(t)|))
    decreases t, 3
  {
    match t
    case Atom(k) => LexLeaf(s, i, t, L);
    case Prop(n) => LexLeaf(s, i, t, L);
    case Unary(k, o) => LexPrefixForm(s, i, t, L);
    case Binary(k, l, r) => LexInfixForm(s, i, t, L);
  }

  /** The width of a printed operator form. */
  lemma RenderWidth(t: Ast)
    requires Printable(t) && (t.Unary? || t.Binary?)
    ensures t.Unary? ==> |Render(t)| == 2 + |Render(t.operand)|
    ensures t.Binary? ==> |Render(t)| == |Render(t.left)| + |Render(t.right)| + 5
  {
    SymbolWidth(t.kind);
  }

  /** The prefix form: the operator, a space and the operand. */
  lemma {:induction false} LexPrefixForm(s: string, i: nat, t: Ast, L: nat -> seq<Lexeme>)
    requires Scans(s, L) && t.Unary? && Printable(t) && HoldsAt(s, i, Render(t))
    requires EndsAt(s, i + |Render(t)|)
    ensures L(i) == SpellOnto(t, L(i + |Render(t)|))
    decreases t, 2
  {
    RenderWidth(t);
    LexPrefixParts(s, i, t.kind, t.operand, L);
  }

  /** The prefix form, given as its parts. */
  lemma {:induction false} LexPrefixParts(s: string, i: nat, k: Kind, o: Ast, L: nat -> seq<Lexeme>)
    requires Scans(s, L) && IsUnaryKind(k) && Printable(o)
    requires HoldsAt(s, i, Symbol(k) + " " + Render(o))
    requires EndsAt(s, i + 2 + |Render(o)|)
    ensures L(i) == SpellOnto(Unary(k, o), L(i + 2 + |Render(o)|))
    decreases Unary(k, o), 1
  {
    var x := Render(o);
    PrefixParts(s, i, k, x);
    RenderStart(o);
    HoldsFirst(s, i + 2, x);
    LexRender(s, i + 2, o, L);
    PrefixSteps(s, i, k, L);
  }

  /** The parts of a printed prefix form. */
  lemma PrefixParts(s: string, i: nat, k: Kind, x: string)
    requires IsUnaryKind(k) && HoldsAt(s, i, Symbol(k) + " " + x)
    ensures HoldsAt(s, i, Symbol(k)) && s[i + 1] == ' ' && HoldsAt(s, i + 2, x)
  {
    SymbolWidth(k);
    HoldsConcat(s, i, Symbol(k) + " ", x);
    HoldsConcat(s, i, Symbol(k), " ");
    HoldsFirst(s, i + 1, " ");
  }

  /** The punctuation of a prefix form: the operator and its space. */
  lemma PrefixSteps(s: string, i: nat, k: Kind, L: nat -> seq<Lexeme>)
    requires Scans(s, L) && IsUnaryKind(k)
    requires HoldsAt(s, i, Symbol(k)) && i + 2 < |s| && s[i + 1] == ' ' && !IsSpace(s[i + 2])
    ensures L(i) == [Lexeme(k, Symbol(k))] + L(i + 2)
  {
    SymbolWidth(k);
    LexSymbol(s, i, k, L);
    LexSpace(s, i + 1, L);
  }

  /** The infix form: parenthesis, left operand, space, operator, space,
      right operand, parenthesis. */
  lemma {:induction false} LexInfixForm(s: string, i: nat, t: Ast, L: nat -> seq<Lexeme>)
    requires Scans(s, L) && t.Binary? && Printable(t) && HoldsAt(s, i, Render(t))
    ensures L(i) == SpellOnto(t, L(i + |Render(t)|))
    decreases t, 2
  {
    var x, y := Render(t.left), Render(t.right);
    var a := i + 1 + |x|;
    var b := a + 3 + |y|;
    assert b + 1 == i + |Render(t)| by { RenderWidth(t); }
    assert |Symbol(t.kind)| == 1 by { SymbolWidth(t.kind); }
    InfixSlices(s, i, x, Symbol(t.kind), y, a, b);
    LexInfixParts(s, i, t.kind, t.left, t.right, a, b, L);
  }

  /** The infix form, given as its parts at offsets `i`, `a` and `b`. */
  lemma {:induction false} LexInfixParts(s: string, i: nat, k: Kind, l: Ast, r: Ast, a: nat, b: nat, L: nat -> seq<Lexeme>)
    requires Scans(s, L) && IsBinaryKind(k) && Printable(l) && Printable(r)
    requires a == i + 1 + |Render(l)| && b == a + 3 + |Render(r)| && b < |s|
    requires s[i] == '(' && HoldsAt(s, i + 1, Render(l)) && s[a] == ' '
    requires HoldsAt(s, a + 1, Symbol(k)) && s[a + 2] == ' '
    requires HoldsAt(s, a + 3, Render(r)) && s[b] == ')'
    ensures L(i) == SpellOnto(Binary(k, l, r), L(b + 1))
    decreases Binary(k, l, r), 1
  {
    InfixLeft(s, i, l, a, L);
    InfixRight(s, a, r, b, L);
    InfixPunctuation(s, i, k, a, b, L);
    InfixChain(k, l, r, L, i, a, b);
  }

  /** The left operand of an infix form, followed by a space. */
  lemma {:induction false} InfixLeft(s: string, i: nat, l: Ast, a: nat, L: nat -> seq<Lexeme>)
    requires Scans(s, L) && Printable(l)
    requires HoldsAt(s, i + 1, Render(l)) && a == i + 1 + |Render(l)| && a < |s| && s[a] == ' '
    ensures L(i + 1) == SpellOnto(l, L(a))
    decreases l, 4
  {
    LexRender(s, i + 1, l, L);
  }

  /** The right operand of an infix form, followed by a parenthesis. */
  lemma {:induction false} InfixRight(s: string, a: nat, r: Ast, b: nat, L: nat -> seq<Lexeme>)
    requires Scans(s, L) && Printable(r)
    requires HoldsAt(s, a + 3, Render(r)) && b == a + 3 + |Render(r)| && b < |s| && s[b] == ')'
    ensures L(a + 3) == SpellOnto(r, L(b))
    ensures !IsSpace(s[a + 3])
    decreases r, 4
  {
    LexRender(s, a + 3, r, L);
    PrintedStart(s, a + 3, r);
  }

  /** The punctuation of a printed infix form scans as the parentheses and
      the operator. */
  lemma InfixPunctuation(s: string, i: nat, k: Kind, a: nat, b: nat, L: nat -> seq<Lexeme>)
    requires Scans(s, L) && IsBinaryKind(k)
    requires i < a && a + 3 < b < |s|
    requires s[i] == '(' && s[a] == ' ' && HoldsAt(s, a + 1, Symbol(k)) && s[a + 2] == ' '
    requires !IsSpace(s[a + 3]) && s[b] == ')'
    ensures L(i) == [Lexeme(LeftPar, "(")] + L(i + 1)
    ensures L(a) == [Lexeme(k, Symbol(k))] + L(a + 3)
    ensures L(b) == [Lexeme(RightPar, ")")] + L(b + 1)
  {
    LexParen(s, i, L);
    InfixOperator(s, a, k, L);
    LexParen(s, b, L);
  }

  /** The operator between its two spaces. */
  lemma InfixOperator(s: string, a: nat, k: Kind, L: nat -> seq<Lexeme>)
    requires Scans(s, L) && IsBinaryKind(k)
    requires a + 3 < |s| && s[a] == ' ' && HoldsAt(s, a + 1, Symbol(k)) && s[a + 2] == ' '
    requires !IsSpace(s[a + 3])
    ensures L(a) == [Lexeme(k, Symbol(k))] + L(a + 3)
  {
    SymbolWidth(k);
    LexSymbol(s, a + 1, k, L);
    LexSpace(s, a, L);
    LexSpace(s, a + 2, L);
  }

  /** The lexemes of the parts of an infix form make up its spelling. */
  lemma InfixChain(k: Kind, l: Ast, r: Ast, L: nat -> seq<Lexeme>, i: nat, a: nat, b: nat)
    requires L(i) == [Lexeme(LeftPar, "(")] + L(i + 1)
    requires L(i + 1) == SpellOnto(l, L(a))
    requires L(a) == [Lexeme(k, Symbol(k))] + L(a + 3)
    requires L(a + 3) == SpellOnto(r, L(b))
    requires L(b) == [Lexeme(RightPar, ")")] + L(b + 1)
    ensures L(i) == SpellOnto(Binary(k, l, r), L(b + 1))
  {
  }

  /** The lexemes the scanner produces from each offset of `s`. */
  function ScannerLexemes(s: string): nat -> seq<Lexeme>
  {
    (x: nat) => if x <= |s| then Lexemes(LexFrom(s, x)) else []
  }

  lemma ScannerScans(s: string)
    ensures Scans(s, ScannerLexemes(s))
  {
  }

  /** The printed form of a printable formula scans to the formula's tokens
      followed by the two EOF tokens. */
  lemma LexPrinted(t: Ast)
    requires Printable(t)
    ensures Lexemes(Lex(Render(t))) == Spelling(t) + [Lexeme(Eof, ""), Lexeme(Eof, "")]
  {
    var s := Render(t);
    assert s[0..|s|] == s;
    var L := ScannerLexemes(s);
    ScannerScans(s);
    LexRender(s, 0, t, L);
    SpellOntoIsSpelling(t, L(|s|));
    EndStep(s);
    assert L(|s|) == Lexemes(LexFrom(s, |s|));
    assert L(0) == Lexemes(Lex(s));
  }
}
