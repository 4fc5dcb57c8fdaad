/** The LTL parser (verification/ltl.py, `Tokenizer` and the `_parse_*`
    functions): precedence climbing over the token stream.

    The functions `Step`, `PPrimary`, `PUnary`, `PBinary` and `PLoop` state
    what the parser computes, as functions of the stream and the cursor
    position; the `Cursor` class and the methods `ParsePrimary`,
    `ParseUnary`, `ParseBinary` and `ParseFormula` are the imperative
    parser, each proved to agree with its function. */
module LtlParser {
  import opened LtlCatalog
  import opened Wrappers
  import opened LtlScanner
  import opened LtlAst

  /** The four ways `parse` raises: the scanner meets an unknown character,
      a primary expression starts with a token that cannot start one, a
      parenthesised formula is not closed, or input is left after the
      formula. */
  datatype ParseError =
    | LexError(offset: nat)
    | Unexpected(token: Token)
    | ExpectedClosingParen(token: Token)
    | ExpectedEnd(token: Token)

  /** A parse that succeeded: the tree and the position of the cursor
      after it. */
  datatype Parsed = Parsed(ast: Ast, next: nat)

  /** A position the cursor can stand on: a token of a stream of the shape
      the scanner produces. */
  predicate At(items: seq<Item>, p: nat)
  {
    ValidStream(items) && p < |items| && items[p].Tok?
  }

  /** Only the two EOF tokens at its end are non-ordinary tokens. */
  lemma OrdinaryHasNext(items: seq<Item>, p: nat)
    requires At(items, p)
    ensures Ordinary(items[p]) ==> p + 1 < |items|
    ensures !Ordinary(items[p]) ==> IsEof(items[p]) && p + 2 >= |items|
  {
  }

  /** `advance`: the cursor moves to the next item. Pulling the failure
      raises the scanner's error; after the last EOF the generator is
      exhausted and the cursor stays where it is. */
  function Step(items: seq<Item>, p: nat): (r: Result<nat, ParseError>)
    requires At(items, p)
    ensures r.Ok? ==> At(items, r.value) && p <= r.value <= p + 1
    ensures r.Ok? && Ordinary(items[p]) ==> r.value == p + 1
    ensures r.Err? <==> p + 1 < |items| && items[p + 1].LexFail?
    ensures r.Err? ==> r.error == LexError(items[p + 1].offset)
  {
    OrdinaryHasNext(items, p);
    if p + 1 == |items| then Ok(p)
    else if items[p + 1].LexFail? then Err(LexError(items[p + 1].offset))
    else Ok(p + 1)
  }

  /** Every proposition token of the stream carries a valid name. */
  predicate NamesValid(items: seq<Item>)
  {
    forall j :: 0 <= j < |items| && items[j].Tok? && items[j].token.kind == Proposition ==>
      ValidName(items[j].token.value)
  }

  /** `_parse_primary_expression`: a proposition, a constant, or a formula
      in parentheses. */
  function PPrimary(items: seq<Item>, p: nat): (r: Result<Parsed, ParseError>)
    requires At(items, p)
    ensures r.Ok? ==> p < r.value.next && At(items, r.value.next)
    ensures r.Ok? ==> WellFormed(r.value.ast)
    ensures r.Ok? && NamesValid(items) ==> Printable(r.value.ast)
    ensures r.Err? && r.error.LexError? ==> LexFail(r.error.offset) in items
    decreases |items| - p, 0
  {
    var t := items[p].token;
    if t.kind == Proposition then
      match Step(items, p)
      case Err(e) => Err(e)
      case Ok(q) => Ok(Parsed(Prop(t.value), q))
    else if IsAtomKind(t.kind) then
      match Step(items, p)
      case Err(e) => Err(e)
      case Ok(q) => Ok(Parsed(Atom(t.kind), q))
    else if t.kind == LeftPar then
      match Step(items, p)
      case Err(e) => Err(e)
      case Ok(q) =>
        match PBinary(items, q, 0)
        case Err(e) => Err(e)
        case Ok(inner) =>
          var closing := items[inner.next].token;
          match Step(items, inner.next)
          case Err(e) => Err(e)
          case Ok(q') =>
            if closing.kind != RightPar then Err(ExpectedClosingParen(closing))
            else Ok(Parsed(inner.ast, q'))
    else Err(Unexpected(t))
  }

  /** `_parse_unary_expression`: any number of prefix operators, then a
      primary expression. */
  function PUnary(items: seq<Item>, p: nat): (r: Result<Parsed, ParseError>)
    requires At(items, p)
    ensures r.Ok? ==> p < r.value.next && At(items, r.value.next)
    ensures r.Ok? ==> WellFormed(r.value.ast)
    ensures r.Ok? && NamesValid(items) ==> Printable(r.value.ast)
    ensures r.Err? && r.error.LexError? ==> LexFail(r.error.offset) in items
    decreases |items| - p, 1
  {
    var t := items[p].token;
    if IsUnaryKind(t.kind) then
      match Step(items, p)
      case Err(e) => Err(e)
      case Ok(q) =>
        match PUnary(items, q)
        case Err(e) => Err(e)
        case Ok(o) => Ok(Parsed(Unary(t.kind, o.ast), o.next))
    else PPrimary(items, p)
  }

  /** `_parse_binary_expression`: a unary expression, then the loop that
      takes every binary operator of precedence at least `min`. */
  function PBinary(items: seq<Item>, p: nat, min: nat): (r: Result<Parsed, ParseError>)
    requires At(items, p)
    ensures r.Ok? ==> p < r.value.next && At(items, r.value.next)
    ensures r.Ok? ==> WellFormed(r.value.ast)
    ensures r.Ok? && NamesValid(items) ==> Printable(r.value.ast)
    ensures r.Err? && r.error.LexError? ==> LexFail(r.error.offset) in items
    decreases |items| - p, 3
  {
    match PUnary(items, p)
    case Err(e) => Err(e)
    case Ok(l) => PLoop(items, l.ast, l.next, min)
  }

  /** The `while` loop of `_parse_binary_expression` with `left` parsed and
      the cursor at `q`: the right operand is parsed with precedence one
      higher than the operator's, which makes operators of equal precedence
      associate to the left. */
  function PLoop(items: seq<Item>, left: Ast, q: nat, min: nat): (r: Result<Parsed, ParseError>)
    requires At(items, q) && WellFormed(left)
    ensures r.Ok? ==> q <= r.value.next && At(items, r.value.next)
    ensures r.Ok? ==> WellFormed(r.value.ast)
    ensures r.Ok? && NamesValid(items) && Printable(left) ==> Printable(r.value.ast)
    ensures r.Err? && r.error.LexError? ==> LexFail(r.error.offset) in items
    decreases |items| - q, 2
  {
    var t := items[q].token;
    if IsBinaryKind(t.kind) && Precedence(t.kind) >= min then
      match Step(items, q)
      case Err(e) => Err(e)
      case Ok(q1) =>
        match PBinary(items, q1, Precedence(t.kind) + 1)
        case Err(e) => Err(e)
        case Ok(right) => PLoop(items, Binary(t.kind, left, right.ast), right.next, min)
    else Ok(Parsed(left, q))
  }

  /** `parse` on a token stream: creating the cursor pulls the first item,
      the formula is parsed at precedence 0, and the cursor must then stand
      on EOF. */
  function ParseItems(items: seq<Item>): (r: Result<Ast, ParseError>)
    requires ValidStream(items)
    ensures r.Ok? ==> WellFormed(r.value)
    ensures r.Ok? && NamesValid(items) ==> Printable(r.value)
    ensures r.Err? && r.error.LexError? ==> LexFail(r.error.offset) in items
  {
    if items[0].LexFail? then Err(LexError(items[0].offset))
    else
      match PBinary(items, 0, 0)
      case Err(e) => Err(e)
      case Ok(res) =>
        var t := items[res.next].token;
        if t.kind == Eof then Ok(res.ast) else Err(ExpectedEnd(t))
  }

  /** `parse`: scan the text, then parse the stream. */
  function Parse(s: string): (r: Result<Ast, ParseError>)
    ensures r.Ok? ==> Printable(r.value)
    ensures r.Err? && r.error.LexError? ==>
      r.error.offset < |s| && MatchAt(s, r.error.offset).kind == Error
  {
    LexFromValid(s, 0);
    LexNamesValid(s);
    var r := ParseItems(Lex(s));
    if r.Err? && r.error.LexError? then
      LexFailFaithful(s, r.error.offset);
      r
    else r
  }

  /** The stream of any input names only valid propositions. */
  lemma LexNamesValid(s: string)
    ensures NamesValid(Lex(s))
  {
    LexFromFaithful(s, 0);
    var items := Lex(s);
    forall j | 0 <= j < |items| && items[j].Tok? && items[j].token.kind == Proposition
      ensures ValidName(items[j].token.value)
    {
      assert Faithful(s, items[j]);
      PropositionIsValidName(s, items[j].token.start);
    }
  }

  /** A failure item in the stream of `s` sits on an unknown character. */
  lemma LexFailFaithful(s: string, o: nat)
    requires LexFail(o) in Lex(s)
    ensures o < |s| && MatchAt(s, o).kind == Error
  {
    LexFromFaithful(s, 0);
    var j :| 0 <= j < |Lex(s)| && Lex(s)[j] == LexFail(o);
    assert Faithful(s, Lex(s)[j]);
  }

  /** `Tokenizer`: a cursor over the token stream holding the current token.
      The stream is `items`; `pos` is how far the generator has been
      pulled. */
  class Cursor {
    const items: seq<Item>
    var pos: nat
    var current: Token

    ghost predicate Valid()
      reads this
    {
      At(items, pos) && current == items[pos].token
    }

    /** `__init__`: pull the first item; the caller has checked that it is
        not the scanner's failure. */
    constructor(items: seq<Item>)
      requires ValidStream(items) && items[0].Tok?
      ensures Valid() && this.items == items && pos == 0
    {
      this.items := items;
      pos := 0;
      current := items[0].token;
    }

    /** `advance`: return the current token and move to the next one. */
    method Advance() returns (r: Result<Token, ParseError>)
      requires Valid()
      modifies this
      ensures Step(items, old(pos)).Ok? ==>
        r == Ok(old(current)) && Valid() && pos == Step(items, old(pos)).value
      ensures Step(items, old(pos)).Err? ==> r == Err(Step(items, old(pos)).error)
    {
      var previous := current;
      if pos + 1 < |items| {
        if items[pos + 1].LexFail? {
          return Err(LexError(items[pos + 1].offset));
        }
        pos := pos + 1;
        current := items[pos].token;
      }
      return Ok(previous);
    }

    function IsAtom(): bool
      reads this
    {
      IsAtomKind(current.kind)
    }

    function IsProposition(): bool
      reads this
    {
      current.kind == Proposition
    }

    function IsBinaryOperator(): bool
      reads this
    {
      IsBinaryKind(current.kind)
    }

    function IsUnaryOperator(): bool
      reads this
    {
      IsUnaryKind(current.kind)
    }

    function IsEnd(): bool
      reads this
    {
      current.kind == Eof
    }

    function CurrentPrecedence(): nat
      reads this
      requires IsBinaryOperator()
    {
      Precedence(current.kind)
    }
  }

  /** The outcome a parse method returns for the outcome of its function. */
  function Outcome(res: Result<Parsed, ParseError>): Result<Ast, ParseError>
  {
    match res
    case Ok(p) => Ok(p.ast)
    case Err(e) => Err(e)
  }

  /** A parse method agrees with its function: same tree or same error,
      and on success the cursor stands where the function says. */
  ghost predicate Agrees(c: Cursor, res: Result<Parsed, ParseError>, r: Result<Ast, ParseError>)
    reads c
  {
    r == Outcome(res) && (res.Ok? ==> c.Valid() && c.pos == res.value.next)
  }

  method ParsePrimary(c: Cursor) returns (r: Result<Ast, ParseError>)
    requires c.Valid()
    modifies c
    ensures Agrees(c, PPrimary(c.items, old(c.pos)), r)
    decreases |c.items| - c.pos, 0
  {
    if c.IsProposition() {
      var t := c.Advance();
      if t.Err? {
        return Err(t.error);
      }
      return Ok(Prop(t.value.value));
    } else if c.IsAtom() {
      var t := c.Advance();
      if t.Err? {
        return Err(t.error);
      }
      return Ok(Atom(t.value.kind));
    } else if c.current.kind == LeftPar {
      var t := c.Advance();
      if t.Err? {
        return Err(t.error);
      }
      var expression := ParseBinary(c, 0);
      if expression.Err? {
        return expression;
      }
      var closing := c.Advance();
      if closing.Err? {
        return Err(closing.error);
      }
      if closing.value.kind != RightPar {
        return Err(ExpectedClosingParen(closing.value));
      }
      return expression;
    } else {
      return Err(Unexpected(c.current));
    }
  }

  method ParseUnary(c: Cursor) returns (r: Result<Ast, ParseError>)
    requires c.Valid()
    modifies c
    ensures Agrees(c, PUnary(c.items, old(c.pos)), r)
    decreases |c.items| - c.pos, 1
  {
    if c.IsUnaryOperator() {
      var operator := c.Advance();
      if operator.Err? {
        return Err(operator.error);
      }
      var operand := ParseUnary(c);
      if operand.Err? {
        return operand;
      }
      return Ok(Unary(operator.value.kind, operand.value));
    } else {
      r := ParsePrimary(c);
    }
  }

  method ParseBinary(c: Cursor, min: nat) returns (r: Result<Ast, ParseError>)
    requires c.Valid()
    modifies c
    ensures Agrees(c, PBinary(c.items, old(c.pos), min), r)
    decreases |c.items| - c.pos, 3
  {
    ghost var p0 := c.pos;
    var l := ParseUnary(c);
    if l.Err? {
      return l;
    }
    var left := l.value;
    while c.IsBinaryOperator() && c.CurrentPrecedence() >= min
      invariant c.Valid() && p0 < c.pos && WellFormed(left)
      invariant PLoop(c.items, left, c.pos, min) == PBinary(c.items, p0, min)
      decreases |c.items| - c.pos
    {
      var precedence := c.CurrentPrecedence();
      var operator := c.Advance();
      if operator.Err? {
        return Err(operator.error);
      }
      var right := ParseBinary(c, precedence + 1);
      if right.Err? {
        return right;
      }
      left := Binary(operator.value.kind, left, right.value);
    }
    return Ok(left);
  }

  /** `parse`. */
  method ParseFormula(s: string) returns (r: Result<Ast, ParseError>)
    ensures r == Parse(s)
  {
    var items := Tokenize(s);
    LexFromValid(s, 0);
    if items[0].LexFail? {
      return Err(LexError(items[0].offset));
    }
    var c := new Cursor(items);
    var ast := ParseBinary(c, 0);
    if ast.Err? {
      return ast;
    }
    if !c.IsEnd() {
      return Err(ExpectedEnd(c.current));
    }
    return ast;
  }

  /** The loop ends at a token that is not a binary operator of precedence
      at least `min`. */
  lemma LoopStops(items: seq<Item>, left: Ast, q: nat, min: nat)
    requires At(items, q) && WellFormed(left)
    requires !(IsBinaryKind(items[q].token.kind) && Precedence(items[q].token.kind) >= min)
    ensures PLoop(items, left, q, min) == Ok(Parsed(left, q))
  {
  }

  /** One turn of the loop: the operator takes `left` and the operand parsed
      at the next precedence level, and the loop goes on from there. */
  lemma LoopTakes(items: seq<Item>, left: Ast, q: nat, min: nat)
    requires At(items, q) && WellFormed(left)
    requires IsBinaryKind(items[q].token.kind) && Precedence(items[q].token.kind) >= min
    requires items[q + 1].Tok?
    ensures var k := items[q].token.kind;
      PBinary(items, q + 1, Precedence(k) + 1).Ok? ==>
      PLoop(items, left, q, min)
      == PLoop(items, Binary(k, left, PBinary(items, q + 1, Precedence(k) + 1).value.ast),
               PBinary(items, q + 1, Precedence(k) + 1).value.next, min)
  {
    assert Step(items, q) == Ok(q + 1);
  }

  /** A binary expression starts with a unary one. */
  lemma BinaryFromUnary(items: seq<Item>, p: nat, min: nat)
    requires At(items, p)
    ensures PUnary(items, p).Ok? ==>
      PBinary(items, p, min) == PLoop(items, PUnary(items, p).value.ast, PUnary(items, p).value.next, min)
  {
  }

  /** A parenthesised formula is a primary expression. */
  lemma ParenParses(items: seq<Item>, p: nat, e: Ast, q: nat)
    requires At(items, p) && items[p].token.kind == LeftPar && items[p + 1].Tok?
    requires PBinary(items, p + 1, 0) == Ok(Parsed(e, q))
    requires items[q].Tok? && items[q].token.kind == RightPar
    requires q + 1 < |items| && items[q + 1].Tok?
    ensures PUnary(items, p) == Ok(Parsed(e, q + 1))
  {
    ParenPrimary(items, p, e, q);
  }

  /** The primary expression read at a parenthesis. */
  lemma ParenPrimary(items: seq<Item>, p: nat, e: Ast, q: nat)
    requires At(items, p) && items[p].token.kind == LeftPar && items[p + 1].Tok?
    requires PBinary(items, p + 1, 0) == Ok(Parsed(e, q))
    requires items[q].Tok? && items[q].token.kind == RightPar
    requires q + 1 < |items| && items[q + 1].Tok?
    ensures PPrimary(items, p) == Ok(Parsed(e, q + 1))
  {
    assert Step(items, p) == Ok(p + 1);
    assert Step(items, q) == Ok(q + 1);
  }
}
