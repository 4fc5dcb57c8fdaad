/** Printing and parsing are inverse (verification/ltl.py, `__str__` of the
    AST classes against `tokenize` and `parse`): the printed form of a
    formula scans to the tokens of the formula, and those tokens parse back
    to the formula. */
module LtlRoundTrip {
  import opened LtlCatalog
  import opened Wrappers
  import opened LtlScanner
  import opened LtlAst
  import opened LtlParser

  /** What the parser looks at in an item: the category and text of a
      token, or the failure. */
  datatype Lexeme = Lexeme(kind: Kind, text: string) | Failure

  function LexemeOf(it: Item): Lexeme
  {
    if it.Tok? then Lexeme(it.token.kind, it.token.value) else Failure
  }

  /** The lexemes of a stream, item by item. */
  function Lexemes(items: seq<Item>): (ls: seq<Lexeme>)
    ensures |ls| == |items|
    ensures forall j :: 0 <= j < |items| ==> ls[j] == LexemeOf(items[j])
  {
    seq(|items|, j requires 0 <= j < |items| => LexemeOf(items[j]))
  }

  lemma LexemesConcat(a: seq<Item>, b: seq<Item>)
    ensures Lexemes(a + b) == Lexemes(a) + Lexemes(b)
  {
    assert forall j :: 0 <= j < |a + b| ==> Lexemes(a + b)[j] == (Lexemes(a) + Lexemes(b))[j];
  }

  /** The tokens of a formula's printed form, in order. */
  function Spelling(t: Ast): seq<Lexeme>
  {
    match t
    case Atom(k) => [Lexeme(k, Symbol(k))]
    case Prop(n) => [Lexeme(Proposition, n)]
    case Unary(k, o) => [Lexeme(k, Symbol(k))] + Spelling(o)
    case Binary(k, l, r) =>
      [Lexeme(LeftPar, "(")] + Spelling(l) + [Lexeme(k, Symbol(k))] + Spelling(r) + [Lexeme(RightPar, ")")]
  }

  /** The number of tokens in a formula's printed form. */
  function Size(t: Ast): nat
  {
    match t
    case Atom(_) => 1
    case Prop(_) => 1
    case Unary(_, o) => 1 + Size(o)
    case Binary(_, l, r) => Size(l) + Size(r) + 3
  }

  lemma {:induction false} SizeIsLength(t: Ast)
    ensures Size(t) == |Spelling(t)|
  {
    match t
    case Atom(_) =>
    case Prop(_) =>
    case Unary(_, o) => SizeIsLength(o);
    case Binary(_, l, r) =>
      SizeIsLength(l);
      SizeIsLength(r);
  }

  /** The lexeme at `q` is a token of category `k`. */
  predicate KindAt(ls: seq<Lexeme>, q: nat, k: Kind)
  {
    q < |ls| && ls[q].Lexeme? && ls[q].kind == k
  }

  /** The lexemes hold, from position `p` on, the tokens of `t` as far as
      the parser looks at them: the category of every token and the text
      of proposition names. */
  predicate Spells(ls: seq<Lexeme>, p: nat, t: Ast)
    decreases t
  {
    match t
    case Atom(k) => KindAt(ls, p, k)
    case Prop(n) => KindAt(ls, p, Proposition) && ls[p].text == n
    case Unary(k, o) => KindAt(ls, p, k) && Spells(ls, p + 1, o)
    case Binary(k, l, r) =>
      && KindAt(ls, p, LeftPar) && Spells(ls, p + 1, l)
      && KindAt(ls, p + 1 + Size(l), k) && Spells(ls, p + 2 + Size(l), r)
      && KindAt(ls, p + 2 + Size(l) + Size(r), RightPar)
  }

  /** The item at `q` is a token of category `k`. */
  predicate TokenIs(items: seq<Item>, q: nat, k: Kind)
  {
    q < |items| && items[q].Tok? && items[q].token.kind == k
  }

  /** The stream holds, from position `p` on, the tokens of `t` as far as
      the parser looks at them. */
  predicate SpelledAt(items: seq<Item>, p: nat, t: Ast)
    decreases t
  {
    match t
    case Atom(k) => TokenIs(items, p, k)
    case Prop(n) => TokenIs(items, p, Proposition) && items[p].token.value == n
    case Unary(k, o) => TokenIs(items, p, k) && SpelledAt(items, p + 1, o)
    case Binary(k, l, r) =>
      && TokenIs(items, p, LeftPar) && SpelledAt(items, p + 1, l)
      && TokenIs(items, p + 1 + Size(l), k) && SpelledAt(items, p + 2 + Size(l), r)
      && TokenIs(items, p + 2 + Size(l) + Size(r), RightPar)
  }

  /** The stream spells what its lexemes spell. */
  lemma {:induction false} ItemsSpell(items: seq<Item>, p: nat, t: Ast)
    requires Spells(Lexemes(items), p, t)
    ensures SpelledAt(items, p, t)
    decreases t, 1
  {
    TokenAt(items, p);
    match t
    case Atom(_) =>
    case Prop(_) =>
    case Unary(_, o) => ItemsSpell(items, p + 1, o);
    case Binary(k, l, r) => InfixItemsSpell(items, p, k, l, r);
  }

  lemma {:induction false} InfixItemsSpell(items: seq<Item>, p: nat, k: Kind, l: Ast, r: Ast)
    requires Spells(Lexemes(items), p, Binary(k, l, r))
    ensures SpelledAt(items, p, Binary(k, l, r))
    decreases Binary(k, l, r), 0
  {
    var q1, q2 := p + 1 + Size(l), p + 2 + Size(l) + Size(r);
    assert TokenIs(items, p, LeftPar) && SpelledAt(items, p + 1, l) by {
      InfixTokensOpen(items, p, k, l, r);
      ItemsSpell(items, p + 1, l);
    }
    assert TokenIs(items, q1, k) && SpelledAt(items, q1 + 1, r) by {
      InfixTokensOperator(items, p, k, l, r, q1);
      ItemsSpell(items, q1 + 1, r);
    }
    assert TokenIs(items, q2, RightPar) by { InfixTokensClose(items, p, k, l, r, q2); }
    SpelledAtBinary(items, p, k, l, r, q1, q2);
  }

  /** The opening parenthesis of an infix spelling, and the lexemes of its
      left operand. */
  lemma InfixTokensOpen(items: seq<Item>, p: nat, k: Kind, l: Ast, r: Ast)
    requires Spells(Lexemes(items), p, Binary(k, l, r))
    ensures TokenIs(items, p, LeftPar) && Spells(Lexemes(items), p + 1, l)
  {
    TokenAt(items, p);
  }

  /** The operator of an infix spelling, and the lexemes of its right
      operand. */
  lemma InfixTokensOperator(items: seq<Item>, p: nat, k: Kind, l: Ast, r: Ast, q1: nat)
    requires q1 == p + 1 + Size(l)
    requires Spells(Lexemes(items), p, Binary(k, l, r))
    ensures TokenIs(items, q1, k) && Spells(Lexemes(items), q1 + 1, r)
  {
    TokenAt(items, q1);
  }

  /** The closing parenthesis of an infix spelling. */
  lemma InfixTokensClose(items: seq<Item>, p: nat, k: Kind, l: Ast, r: Ast, q2: nat)
    requires q2 == p + 2 + Size(l) + Size(r)
    requires Spells(Lexemes(items), p, Binary(k, l, r))
    ensures TokenIs(items, q2, RightPar)
  {
    TokenAt(items, q2);
  }

  /** The parts of an infix spelling in a stream make up the whole. */
  lemma SpelledAtBinary(items: seq<Item>, p: nat, k: Kind, l: Ast, r: Ast, q1: nat, q2: nat)
    requires q1 == p + 1 + Size(l) && q2 == q1 + 1 + Size(r)
    requires TokenIs(items, p, LeftPar) && SpelledAt(items, p + 1, l)
    requires TokenIs(items, q1, k) && SpelledAt(items, q1 + 1, r)
    requires TokenIs(items, q2, RightPar)
    ensures SpelledAt(items, p, Binary(k, l, r))
  {
  }

  /** The tokens of a formula's printed form, put in front of `rest`. */
  function SpellOnto(t: Ast, rest: seq<Lexeme>): seq<Lexeme>
  {
    match t
    case Atom(k) => [Lexeme(k, Symbol(k))] + rest
    case Prop(n) => [Lexeme(Proposition, n)] + rest
    case Unary(k, o) => [Lexeme(k, Symbol(k))] + SpellOnto(o, rest)
    case Binary(k, l, r) =>
      [Lexeme(LeftPar, "(")] + SpellOnto(l, [Lexeme(k, Symbol(k))] + SpellOnto(r, [Lexeme(RightPar, ")")] + rest))
  }

  lemma AppendAssoc<T>(a: seq<T>, b: seq<T>, c: seq<T>)
    ensures a + (b + c) == (a + b) + c
  {
  }

  lemma {:induction false} SpellOntoIsSpelling(t: Ast, rest: seq<Lexeme>)
    ensures SpellOnto(t, rest) == Spelling(t) + rest
  {
    match t
    case Atom(_) =>
    case Prop(_) =>
    case Unary(k, o) =>
      SpellOntoIsSpelling(o, rest);
      AppendAssoc([Lexeme(k, Symbol(k))], Spelling(o), rest);
    case Binary(k, l, r) =>
      var K, P, Q := [Lexeme(k, Symbol(k))], [Lexeme(LeftPar, "(")], [Lexeme(RightPar, ")")];
      SpellOntoIsSpelling(r, Q + rest);
      SpellOntoIsSpelling(l, K + SpellOnto(r, Q + rest));
      AppendAssoc(Spelling(r), Q, rest);
      AppendAssoc(K, Spelling(r) + Q, rest);
      AppendAssoc(Spelling(l), K + Spelling(r) + Q, rest);
      AppendAssoc(P, Spelling(l) + K + Spelling(r) + Q, rest);
      assert Spelling(t) == P + Spelling(l) + K + Spelling(r) + Q;
      assert P + Spelling(l) + K + Spelling(r) + Q == P + (Spelling(l) + (K + (Spelling(r) + Q)));
  }

  /** Lexemes that are, from `p` on, the spelling of `t` followed by
      `rest` spell `t` there, and `rest` follows it. */
  lemma {:induction false} SpelledFromSpelling(ls: seq<Lexeme>, p: nat, t: Ast, rest: seq<Lexeme>)
    requires p <= |ls| && ls[p..] == SpellOnto(t, rest)
    ensures Spells(ls, p, t) && p + Size(t) <= |ls| && ls[p + Size(t)..] == rest
    decreases t, 2
  {
    match t
    case Atom(k) =>
      LexemeAt(ls, p, Lexeme(k, Symbol(k)), rest);
    case Prop(n) =>
      LexemeAt(ls, p, Lexeme(Proposition, n), rest);
    case Unary(k, o) => PrefixSpelled(ls, p, k, o, rest);
    case Binary(k, l, r) => InfixSpelled(ls, p, k, l, r, rest);
  }

  lemma {:induction false} PrefixSpelled(ls: seq<Lexeme>, p: nat, k: Kind, o: Ast, rest: seq<Lexeme>)
    requires p <= |ls| && ls[p..] == SpellOnto(Unary(k, o), rest)
    ensures Spells(ls, p, Unary(k, o)) && p + Size(Unary(k, o)) <= |ls|
    ensures ls[p + Size(Unary(k, o))..] == rest
    decreases Unary(k, o), 1
  {
    LexemeAt(ls, p, Lexeme(k, Symbol(k)), SpellOnto(o, rest));
    SpelledFromSpelling(ls, p + 1, o, rest);
    assert p + 1 + Size(o) == p + Size(Unary(k, o));
  }

  lemma {:induction false} InfixSpelled(ls: seq<Lexeme>, p: nat, k: Kind, l: Ast, r: Ast, rest: seq<Lexeme>)
    requires p <= |ls| && ls[p..] == SpellOnto(Binary(k, l, r), rest)
    ensures Spells(ls, p, Binary(k, l, r)) && p + Size(Binary(k, l, r)) <= |ls|
    ensures ls[p + Size(Binary(k, l, r))..] == rest
    decreases Binary(k, l, r), 1
  {
    var q1 := p + 1 + Size(l);
    var q2 := q1 + 1 + Size(r);
    InfixLeftSpelled(ls, p, k, l, r, rest);
    InfixRightSpelled(ls, q1, k, r, rest);
    SpellsInfix(ls, p, k, l, r, q1, q2);
  }

  /** The opening parenthesis and the left operand of an infix spelling. */
  lemma {:induction false} InfixLeftSpelled(ls: seq<Lexeme>, p: nat, k: Kind, l: Ast, r: Ast, rest: seq<Lexeme>)
    requires p <= |ls| && ls[p..] == SpellOnto(Binary(k, l, r), rest)
    ensures KindAt(ls, p, LeftPar) && Spells(ls, p + 1, l) && p + 1 + Size(l) <= |ls|
    ensures ls[p + 1 + Size(l)..] == [Lexeme(k, Symbol(k))] + SpellOnto(r, [Lexeme(RightPar, ")")] + rest)
    decreases Binary(k, l, r), 0
  {
    var right := [Lexeme(k, Symbol(k))] + SpellOnto(r, [Lexeme(RightPar, ")")] + rest);
    LexemeAt(ls, p, Lexeme(LeftPar, "("), SpellOnto(l, right));
    SpelledFromSpelling(ls, p + 1, l, right);
  }

  /** The operator, the right operand and the closing parenthesis of an
      infix spelling. */
  lemma {:induction false} InfixRightSpelled(ls: seq<Lexeme>, q: nat, k: Kind, r: Ast, rest: seq<Lexeme>)
    requires q <= |ls| && ls[q..] == [Lexeme(k, Symbol(k))] + SpellOnto(r, [Lexeme(RightPar, ")")] + rest)
    ensures KindAt(ls, q, k) && Spells(ls, q + 1, r) && KindAt(ls, q + 1 + Size(r), RightPar)
    ensures q + 2 + Size(r) <= |ls| && ls[q + 2 + Size(r)..] == rest
    decreases r, 3
  {
    var close := [Lexeme(RightPar, ")")] + rest;
    LexemeAt(ls, q, Lexeme(k, Symbol(k)), SpellOnto(r, close));
    SpelledFromSpelling(ls, q + 1, r, close);
    LexemeAt(ls, q + 1 + Size(r), Lexeme(RightPar, ")"), rest);
  }

  /** The parts of an infix spelling make up the whole. */
  lemma SpellsInfix(ls: seq<Lexeme>, p: nat, k: Kind, l: Ast, r: Ast, q1: nat, q2: nat)
    requires q1 == p + 1 + Size(l) && q2 == q1 + 1 + Size(r)
    requires KindAt(ls, p, LeftPar) && Spells(ls, p + 1, l)
    requires KindAt(ls, q1, k) && Spells(ls, q1 + 1, r) && KindAt(ls, q2, RightPar)
    ensures Spells(ls, p, Binary(k, l, r))
  {
  }

  /** Where the lexemes from `q` on are `x` followed by `rest`, `x` is at
      `q`. */
  lemma LexemeAt(ls: seq<Lexeme>, q: nat, x: Lexeme, rest: seq<Lexeme>)
    requires q <= |ls| && ls[q..] == [x] + rest
    ensures q < |ls| && ls[q] == x && ls[q + 1..] == rest
  {
    assert ls[q] == ls[q..][0];
    assert ls[q + 1..] == ls[q..][1..];
  }

  /** The item behind a lexeme of a stream is a token with the lexeme's
      category and text. */
  lemma TokenAt(items: seq<Item>, q: nat)
    requires q < |items| && Lexemes(items)[q].Lexeme?
    ensures items[q].Tok? && items[q].token.kind == Lexemes(items)[q].kind
    ensures items[q].token.value == Lexemes(items)[q].text
  {
  }

  /** `P` gives the outcome of `PUnary` at each position of the stream. */
  predicate Parses(items: seq<Item>, P: nat -> Result<Parsed, ParseError>)
  {
    ValidStream(items) &&
    forall x: nat {:trigger PUnary(items, x)} :: x < |items| && items[x].Tok? ==> P(x) == PUnary(items, x)
  }

  /** The parser reads the tokens of a formula back as the formula, and
      stops right after them, whatever token follows. */
  lemma {:induction false} UnaryRoundTrip(items: seq<Item>, p: nat, t: Ast, P: nat -> Result<Parsed, ParseError>)
    requires Parses(items, P) && WellFormed(t) && SpelledAt(items, p, t)
    requires p + Size(t) < |items| && items[p + Size(t)].Tok?
    ensures P(p) == Ok(Parsed(t, p + Size(t)))
    decreases t, 2
  {
    match t
    case Atom(k) => LeafStep(items, p, t, P);
    case Prop(n) => LeafStep(items, p, t, P);
    case Unary(k, o) => UnaryFormRoundTrip(items, p, t, P);
    case Binary(k, l, r) => BinaryRoundTrip(items, p, t, P);
  }

  lemma {:induction false} UnaryFormRoundTrip(items: seq<Item>, p: nat, t: Ast, P: nat -> Result<Parsed, ParseError>)
    requires Parses(items, P) && WellFormed(t) && SpelledAt(items, p, t) && t.Unary?
    requires p + Size(t) < |items| && items[p + Size(t)].Tok?
    ensures P(p) == Ok(Parsed(t, p + Size(t)))
    decreases t, 1
  {
    var k, o := t.kind, t.operand;
    assert p + Size(t) == p + 1 + Size(o);
    PrefixRoundTrip(items, p, k, o, p + 1 + Size(o), P);
  }

  lemma {:induction false} BinaryRoundTrip(items: seq<Item>, p: nat, t: Ast, P: nat -> Result<Parsed, ParseError>)
    requires Parses(items, P) && WellFormed(t) && SpelledAt(items, p, t) && t.Binary?
    requires p + Size(t) < |items| && items[p + Size(t)].Tok?
    ensures P(p) == Ok(Parsed(t, p + Size(t)))
    decreases t, 1
  {
    var k, l, r := t.kind, t.left, t.right;
    var q1, q2 := p + 1 + Size(l), p + 2 + Size(l) + Size(r);
    assert p + Size(t) == q2 + 1;
    SpelledInfixOpen(items, p, k, l, r);
    SpelledInfixOperator(items, p, k, l, r, q1);
    SpelledInfixClose(items, p, k, l, r, q2);
    InfixRoundTrip(items, p, k, l, r, q1, q2, P);
  }

  lemma {:induction false} PrefixRoundTrip(items: seq<Item>, p: nat, k: Kind, o: Ast, q: nat, P: nat -> Result<Parsed, ParseError>)
    requires Parses(items, P) && IsUnaryKind(k) && WellFormed(o)
    requires q == p + 1 + Size(o)
    requires TokenIs(items, p, k) && SpelledAt(items, p + 1, o)
    requires q < |items| && items[q].Tok?
    ensures P(p) == Ok(Parsed(Unary(k, o), q))
    decreases Unary(k, o), 0
  {
    SpelledStartsWithToken(items, p + 1, o);
    UnaryRoundTrip(items, p + 1, o, P);
    PrefixStep(items, p, k, o, q, P);
  }

  lemma {:induction false} InfixRoundTrip(items: seq<Item>, p: nat, k: Kind, l: Ast, r: Ast, q1: nat, q2: nat,
                                          P: nat -> Result<Parsed, ParseError>)
    requires Parses(items, P) && IsBinaryKind(k) && WellFormed(l) && WellFormed(r)
    requires q1 == p + 1 + Size(l) && q2 == q1 + 1 + Size(r)
    requires TokenIs(items, p, LeftPar) && SpelledAt(items, p + 1, l)
    requires TokenIs(items, q1, k) && SpelledAt(items, q1 + 1, r)
    requires TokenIs(items, q2, RightPar) && q2 + 1 < |items| && items[q2 + 1].Tok?
    ensures P(p) == Ok(Parsed(Binary(k, l, r), q2 + 1))
    decreases Binary(k, l, r), 0
  {
    assert P(p + 1) == Ok(Parsed(l, q1)) by {
      SpelledStartsWithToken(items, p + 1, l);
      UnaryRoundTrip(items, p + 1, l, P);
    }
    assert P(q1 + 1) == Ok(Parsed(r, q2)) by {
      SpelledStartsWithToken(items, q1 + 1, r);
      UnaryRoundTrip(items, q1 + 1, r, P);
    }
    InfixStep(items, p, k, l, r, q1, q2, P);
  }

  /** The opening parenthesis and the left operand of a spelled infix
      formula. */
  lemma SpelledInfixOpen(items: seq<Item>, p: nat, k: Kind, l: Ast, r: Ast)
    requires SpelledAt(items, p, Binary(k, l, r))
    ensures TokenIs(items, p, LeftPar) && SpelledAt(items, p + 1, l)
  {
  }

  /** The operator and the right operand of a spelled infix formula. */
  lemma SpelledInfixOperator(items: seq<Item>, p: nat, k: Kind, l: Ast, r: Ast, q1: nat)
    requires q1 == p + 1 + Size(l)
    requires SpelledAt(items, p, Binary(k, l, r))
    ensures TokenIs(items, q1, k) && SpelledAt(items, q1 + 1, r)
  {
  }

  /** The closing parenthesis of a spelled infix formula. */
  lemma SpelledInfixClose(items: seq<Item>, p: nat, k: Kind, l: Ast, r: Ast, q2: nat)
    requires q2 == p + 2 + Size(l) + Size(r)
    requires SpelledAt(items, p, Binary(k, l, r))
    ensures TokenIs(items, q2, RightPar)
  {
  }

  lemma SpelledStartsWithToken(items: seq<Item>, p: nat, t: Ast)
    requires SpelledAt(items, p, t)
    ensures p < |items| && items[p].Tok?
  {
  }

  /** A constant or a proposition is a primary expression. */
  lemma LeafStep(items: seq<Item>, p: nat, t: Ast, P: nat -> Result<Parsed, ParseError>)
    requires Parses(items, P) && WellFormed(t) && (t.Atom? || t.Prop?) && SpelledAt(items, p, t)
    requires p + 1 < |items| && items[p + 1].Tok?
    ensures P(p) == Ok(Parsed(t, p + 1))
  {
    assert Step(items, p) == Ok(p + 1);
    assert PPrimary(items, p) == Ok(Parsed(t, p + 1));
    assert PUnary(items, p) == Ok(Parsed(t, p + 1));
  }

  /** A unary operator followed by its operand is a unary expression. */
  lemma PrefixStep(items: seq<Item>, p: nat, k: Kind, o: Ast, q: nat, P: nat -> Result<Parsed, ParseError>)
    requires Parses(items, P) && WellFormed(Unary(k, o))
    requires p + 1 < |items| && items[p].Tok? && items[p].token.kind == k && items[p + 1].Tok?
    requires P(p + 1) == Ok(Parsed(o, q))
    ensures P(p) == Ok(Parsed(Unary(k, o), q))
  {
    assert Step(items, p) == Ok(p + 1);
    assert P(p + 1) == PUnary(items, p + 1);
    assert PUnary(items, p) == Ok(Parsed(Unary(k, o), q));
  }

  /** `InfixParses`, stated over `P`. */
  lemma InfixStep(items: seq<Item>, p: nat, k: Kind, l: Ast, r: Ast, q1: nat, q2: nat, P: nat -> Result<Parsed, ParseError>)
    requires Parses(items, P) && WellFormed(Binary(k, l, r))
    requires p < q1 < q2 < |items| - 1
    requires items[p].Tok? && items[p].token.kind == LeftPar && items[p + 1].Tok?
    requires items[q1].Tok? && items[q1].token.kind == k && items[q1 + 1].Tok?
    requires items[q2].Tok? && items[q2].token.kind == RightPar && items[q2 + 1].Tok?
    requires P(p + 1) == Ok(Parsed(l, q1))
    requires P(q1 + 1) == Ok(Parsed(r, q2))
    ensures P(p) == Ok(Parsed(Binary(k, l, r), q2 + 1))
  {
    assert P(p + 1) == PUnary(items, p + 1);
    assert P(q1 + 1) == PUnary(items, q1 + 1);
    InfixParses(items, p, k, l, r, q1, q2);
  }

  /** The parenthesised infix form, once both operands are known to parse. */
  lemma InfixParses(items: seq<Item>, p: nat, k: Kind, l: Ast, r: Ast, q1: nat, q2: nat)
    requires ValidStream(items) && WellFormed(Binary(k, l, r))
    requires p < q1 < q2 < |items| - 1
    requires items[p].Tok? && items[p].token.kind == LeftPar && items[p + 1].Tok?
    requires items[q1].Tok? && items[q1].token.kind == k && items[q1 + 1].Tok?
    requires items[q2].Tok? && items[q2].token.kind == RightPar && items[q2 + 1].Tok?
    requires PUnary(items, p + 1) == Ok(Parsed(l, q1))
    requires PUnary(items, q1 + 1) == Ok(Parsed(r, q2))
    ensures PUnary(items, p) == Ok(Parsed(Binary(k, l, r), q2 + 1))
  {
    LoopStops(items, r, q2, Precedence(k) + 1);
    BinaryFromUnary(items, q1 + 1, Precedence(k) + 1);
    LoopTakes(items, l, q1, 0);
    LoopStops(items, Binary(k, l, r), q2, 0);
    BinaryFromUnary(items, p + 1, 0);
    ParenParses(items, p, Binary(k, l, r), q2);
  }

  lemma {:induction false} PrintableIsWellFormed(t: Ast)
    requires Printable(t)
    ensures WellFormed(t)
  {
    match t
    case Atom(_) =>
    case Prop(_) =>
    case Unary(_, o) => PrintableIsWellFormed(o);
    case Binary(_, l, r) =>
      PrintableIsWellFormed(l);
      PrintableIsWellFormed(r);
  }
}
