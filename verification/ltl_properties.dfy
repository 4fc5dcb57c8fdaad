/** What the precedence-climbing parser of verification/ltl.py makes of
    short token streams: how operators group, how tightly prefix operators
    bind, and which error each kind of malformed input raises. */
module LtlProperties {
  import opened Wrappers
  import opened LtlCatalog
  import opened LtlScanner
  import opened LtlAst
  import opened LtlParser

  /** A token that is a primary expression on its own. */
  predicate IsLeaf(items: seq<Item>, p: nat)
  {
    At(items, p) && (items[p].token.kind == Proposition || items[p].token.kind == True || items[p].token.kind == False)
  }

  /** The tree a leaf token stands for. */
  function LeafOf(tok: Token): Ast
  {
    if tok.kind == Proposition then Prop(tok.value) else Atom(tok.kind)
  }

  /** A token that does not continue a binary expression. */
  predicate Stops(items: seq<Item>, p: nat)
  {
    At(items, p) && !IsBinaryKind(items[p].token.kind)
  }

  /** A binary operator token. */
  predicate OperatorAt(items: seq<Item>, p: nat)
  {
    At(items, p) && IsBinaryKind(items[p].token.kind)
  }

  /** A leaf followed by a token is read as that leaf. */
  lemma LeafParses(items: seq<Item>, p: nat)
    requires IsLeaf(items, p) && p + 1 < |items| && items[p + 1].Tok?
    ensures PUnary(items, p) == Ok(Parsed(LeafOf(items[p].token), p + 1))
  {
    assert Step(items, p) == Ok(p + 1);
  }

  /** A leaf on its own at the loop's level of precedence. */
  lemma LeafAlone(items: seq<Item>, p: nat, min: nat)
    requires IsLeaf(items, p) && Stops(items, p + 1)
    ensures PBinary(items, p, min) == Ok(Parsed(LeafOf(items[p].token), p + 1))
  {
    LeafParses(items, p);
    LoopStops(items, LeafOf(items[p].token), p + 1, min);
  }

  /** `a o b` at a level the operator reaches. */
  lemma InfixAlone(items: seq<Item>, p: nat, min: nat)
    requires IsLeaf(items, p) && OperatorAt(items, p + 1) && IsLeaf(items, p + 2) && Stops(items, p + 3)
    requires Precedence(items[p + 1].token.kind) >= min
    ensures PBinary(items, p, min) ==
      Ok(Parsed(Binary(items[p + 1].token.kind, LeafOf(items[p].token), LeafOf(items[p + 2].token)), p + 3))
  {
    var k := items[p + 1].token.kind;
    var a, b := LeafOf(items[p].token), LeafOf(items[p + 2].token);
    LeafParses(items, p);
    LeafAlone(items, p + 2, Precedence(k) + 1);
    LoopTakes(items, a, p + 1, min);
    LoopStops(items, Binary(k, a, b), p + 3, min);
  }

  /** `a o1 b o2 c` where `o2` binds tighter than `o1`: the right operand of
      `o1` is `b o2 c`. */
  lemma NestsRight(items: seq<Item>, p: nat)
    requires IsLeaf(items, p) && OperatorAt(items, p + 1) && IsLeaf(items, p + 2)
    requires OperatorAt(items, p + 3) && IsLeaf(items, p + 4) && Stops(items, p + 5)
    requires Precedence(items[p + 1].token.kind) < Precedence(items[p + 3].token.kind)
    ensures PBinary(items, p, 0) ==
      Ok(Parsed(Binary(items[p + 1].token.kind, LeafOf(items[p].token),
                       Binary(items[p + 3].token.kind, LeafOf(items[p + 2].token), LeafOf(items[p + 4].token))),
                p + 5))
  {
    var k1 := items[p + 1].token.kind;
    var a := LeafOf(items[p].token);
    var right := Binary(items[p + 3].token.kind, LeafOf(items[p + 2].token), LeafOf(items[p + 4].token));
    LeafParses(items, p);
    InfixAlone(items, p + 2, Precedence(k1) + 1);
    LoopTakes(items, a, p + 1, 0);
    LoopStops(items, Binary(k1, a, right), p + 5, 0);
  }

  /** `a o1 b o2 c` where `o2` binds no tighter than `o1`: `a o1 b` is the
      left operand of `o2`. With equal precedences this is left
      associativity. */
  lemma FoldsLeft(items: seq<Item>, p: nat)
    requires IsLeaf(items, p) && OperatorAt(items, p + 1) && IsLeaf(items, p + 2)
    requires OperatorAt(items, p + 3) && IsLeaf(items, p + 4) && Stops(items, p + 5)
    requires Precedence(items[p + 1].token.kind) >= Precedence(items[p + 3].token.kind)
    ensures PBinary(items, p, 0) ==
      Ok(Parsed(Binary(items[p + 3].token.kind,
                       Binary(items[p + 1].token.kind, LeafOf(items[p].token), LeafOf(items[p + 2].token)),
                       LeafOf(items[p + 4].token)),
                p + 5))
  {
    var k1, k2 := items[p + 1].token.kind, items[p + 3].token.kind;
    var a, b, c := LeafOf(items[p].token), LeafOf(items[p + 2].token), LeafOf(items[p + 4].token);
    LeafParses(items, p);
    LeafParses(items, p + 2);
    LoopStops(items, b, p + 3, Precedence(k1) + 1);
    LoopTakes(items, a, p + 1, 0);
    FoldStep(items, p, Binary(k1, a, b), c);
  }

  /** The second turn of the loop in `FoldsLeft`. */
  lemma FoldStep(items: seq<Item>, p: nat, left: Ast, c: Ast)
    requires OperatorAt(items, p + 3) && IsLeaf(items, p + 4) && Stops(items, p + 5)
    requires WellFormed(left) && c == LeafOf(items[p + 4].token)
    ensures PLoop(items, left, p + 3, 0) == Ok(Parsed(Binary(items[p + 3].token.kind, left, c), p + 5))
  {
    var k2 := items[p + 3].token.kind;
    LeafAlone(items, p + 4, Precedence(k2) + 1);
    LoopTakes(items, left, p + 3, 0);
    LoopStops(items, Binary(k2, left, c), p + 5, 0);
  }

  /** `u a o b`: the prefix operator takes only `a`, however loosely or
      tightly `o` binds. */
  lemma PrefixBindsTighter(items: seq<Item>, p: nat)
    requires At(items, p) && IsUnaryKind(items[p].token.kind)
    requires IsLeaf(items, p + 1) && OperatorAt(items, p + 2) && IsLeaf(items, p + 3) && Stops(items, p + 4)
    ensures PBinary(items, p, 0) ==
      Ok(Parsed(Binary(items[p + 2].token.kind,
                       Unary(items[p].token.kind, LeafOf(items[p + 1].token)),
                       LeafOf(items[p + 3].token)),
                p + 4))
  {
    var k := items[p + 2].token.kind;
    var u := Unary(items[p].token.kind, LeafOf(items[p + 1].token));
    var b := LeafOf(items[p + 3].token);
    assert Step(items, p) == Ok(p + 1);
    LeafParses(items, p + 1);
    assert PUnary(items, p) == Ok(Parsed(u, p + 2));
    LeafAlone(items, p + 3, Precedence(k) + 1);
    LoopTakes(items, u, p + 2, 0);
    LoopStops(items, Binary(k, u, b), p + 4, 0);
  }

  /** Prefix operators nest: `u1 u2 a` is `u1 (u2 a)`. */
  lemma PrefixNests(items: seq<Item>, p: nat)
    requires At(items, p) && IsUnaryKind(items[p].token.kind)
    requires At(items, p + 1) && IsUnaryKind(items[p + 1].token.kind)
    requires IsLeaf(items, p + 2) && p + 3 < |items| && items[p + 3].Tok?
    ensures PUnary(items, p) ==
      Ok(Parsed(Unary(items[p].token.kind, Unary(items[p + 1].token.kind, LeafOf(items[p + 2].token))), p + 3))
  {
    assert Step(items, p) == Ok(p + 1);
    assert Step(items, p + 1) == Ok(p + 2);
    LeafParses(items, p + 2);
  }

  /** A token that cannot start a formula, met where a primary expression
      is expected: every level of the parser reports it as unexpected, and
      so does `parse` when it is the first token. Empty input is the case
      where that token is the end of input. */
  lemma UnexpectedToken(items: seq<Item>, p: nat, min: nat)
    requires At(items, p)
    requires var k := items[p].token.kind; !IsAtomKind(k) && !IsUnaryKind(k) && k != LeftPar
    ensures PPrimary(items, p) == Err(Unexpected(items[p].token))
    ensures PUnary(items, p) == Err(Unexpected(items[p].token))
    ensures PBinary(items, p, min) == Err(Unexpected(items[p].token))
    ensures p == 0 ==> ParseItems(items) == Err(Unexpected(items[0].token))
  {
    assert PPrimary(items, p) == Err(Unexpected(items[p].token));
    assert PUnary(items, p) == Err(Unexpected(items[p].token));
  }

  /** `(` and a complete formula followed by a token other than `)`: the
      closing token is taken first, so a bad character right after it is
      the error; otherwise the parser asks for the closing parenthesis and
      names the token it found instead. */
  lemma UnclosedParen(items: seq<Item>, p: nat, e: Ast, q: nat)
    requires At(items, p) && items[p].token.kind == LeftPar && items[p + 1].Tok?
    requires PBinary(items, p + 1, 0) == Ok(Parsed(e, q))
    requires items[q].token.kind != RightPar
    ensures q + 1 < |items| && items[q + 1].LexFail? ==>
      PPrimary(items, p) == Err(LexError(items[q + 1].offset))
    ensures !(q + 1 < |items| && items[q + 1].LexFail?) ==>
      PPrimary(items, p) == Err(ExpectedClosingParen(items[q].token))
    ensures PUnary(items, p) == PPrimary(items, p)
    ensures p == 0 ==> ParseItems(items) == Err(PPrimary(items, 0).error)
  {
    if q + 1 < |items| && items[q + 1].LexFail? {
      UnclosedParenScanError(items, p, e, q);
    } else {
      UnclosedParenMissing(items, p, e, q);
    }
    assert PUnary(items, p) == PPrimary(items, p);
  }

  /** An unclosed parenthesis whose closing token is followed by a bad
      character. */
  lemma UnclosedParenScanError(items: seq<Item>, p: nat, e: Ast, q: nat)
    requires At(items, p) && items[p].token.kind == LeftPar && items[p + 1].Tok?
    requires PBinary(items, p + 1, 0) == Ok(Parsed(e, q))
    requires q + 1 < |items| && items[q + 1].LexFail?
    ensures PPrimary(items, p) == Err(LexError(items[q + 1].offset))
  {
    assert Step(items, p) == Ok(p + 1);
    assert Step(items, q) == Err(LexError(items[q + 1].offset));
  }

  /** An unclosed parenthesis whose closing token can be taken. */
  lemma UnclosedParenMissing(items: seq<Item>, p: nat, e: Ast, q: nat)
    requires At(items, p) && items[p].token.kind == LeftPar && items[p + 1].Tok?
    requires PBinary(items, p + 1, 0) == Ok(Parsed(e, q))
    requires items[q].token.kind != RightPar
    requires !(q + 1 < |items| && items[q + 1].LexFail?)
    ensures PPrimary(items, p) == Err(ExpectedClosingParen(items[q].token))
  {
    assert Step(items, p) == Ok(p + 1);
    assert Step(items, q).Ok?;
  }

  /** The operator loop ends at a token that is not a binary operator of
      precedence at least `min`. */
  lemma {:induction false} LoopEndsAtStop(items: seq<Item>, left: Ast, q: nat, min: nat)
    requires At(items, q) && WellFormed(left)
    requires PLoop(items, left, q, min).Ok?
    ensures var n := PLoop(items, left, q, min).value.next;
      !(IsBinaryKind(items[n].token.kind) && Precedence(items[n].token.kind) >= min)
    decreases |items| - q
  {
    var t := items[q].token;
    if IsBinaryKind(t.kind) && Precedence(t.kind) >= min {
      var q1 := Step(items, q).value;
      var right := PBinary(items, q1, Precedence(t.kind) + 1).value;
      LoopEndsAtStop(items, Binary(t.kind, left, right.ast), right.next, min);
    }
  }

  /** A complete formula followed by anything but the end of input: the
      token after it cannot continue it (it is no binary operator) and is
      reported as input left over, whatever lies after that token (a bad
      character further on is never scanned). Followed by the end of
      input, the formula is the result. */
  lemma TrailingInput(items: seq<Item>, e: Ast, q: nat)
    requires At(items, 0) && PBinary(items, 0, 0) == Ok(Parsed(e, q))
    ensures !IsBinaryKind(items[q].token.kind)
    ensures items[q].token.kind != Eof ==> ParseItems(items) == Err(ExpectedEnd(items[q].token))
    ensures items[q].token.kind == Eof ==> ParseItems(items) == Ok(e)
  {
    var l := PUnary(items, 0).value;
    LoopEndsAtStop(items, l.ast, l.next, 0);
  }

  /** A bad character is reported when the cursor is about to move onto
      it. At the token before it, each level of the parser raises the scan
      error exactly when it would advance; otherwise it reports the token as
      unexpected, or the loop stops there. */
  lemma LexErrorWhenPulled(items: seq<Item>, p: nat, left: Ast, min: nat)
    requires At(items, p) && p + 1 < |items| && items[p + 1].LexFail?
    ensures var k := items[p].token.kind;
      PPrimary(items, p) ==
        if IsAtomKind(k) || k == LeftPar then Err(LexError(items[p + 1].offset))
        else Err(Unexpected(items[p].token))
    ensures var k := items[p].token.kind;
      PUnary(items, p) ==
        if IsUnaryKind(k) || IsAtomKind(k) || k == LeftPar then Err(LexError(items[p + 1].offset))
        else Err(Unexpected(items[p].token))
    ensures PBinary(items, p, min) == PUnary(items, p)
    ensures var k := items[p].token.kind;
      WellFormed(left) ==>
        PLoop(items, left, p, min) ==
          if IsBinaryKind(k) && Precedence(k) >= min then Err(LexError(items[p + 1].offset))
          else Ok(Parsed(left, p))
  {
    assert Step(items, p) == Err(LexError(items[p + 1].offset));
  }

  /** A stream that ends in a bad character never parses; a bad character
      at the very start is the error `parse` reports. */
  lemma FailureNeverParses(items: seq<Item>)
    requires ValidStream(items) && items[|items| - 1].LexFail?
    ensures ParseItems(items).Err?
    ensures items[0].LexFail? ==> ParseItems(items) == Err(LexError(items[0].offset))
  {
    if items[0].Tok? && PBinary(items, 0, 0).Ok? {
      var n := PBinary(items, 0, 0).value.next;
      assert Ordinary(items[n]);
    }
  }

  /** Empty input: the first token is the end of input, and it is
      unexpected. */
  lemma EmptyInput()
    ensures Parse("") == Err(Unexpected(Token(Eof, 0, 0, "")))
  {
    assert Lex("") == [Tok(Token(Eof, 0, 0, "")), Tok(Token(Eof, 0, 0, ""))];
    UnexpectedToken(Lex(""), 0, 0);
  }

  /** `a b @`: the bad character is never pulled, so the input left over
      after `a` is what gets reported. */
  lemma LazyError()
    ensures Parse("a b @") == Err(ExpectedEnd(Token(Proposition, 2, 3, "b")))
  {
    var s := "a b @";
    LazyErrorLex();
    LexFromValid(s, 0);
    LeafAlone(Lex(s), 0, 0);
    TrailingInput(Lex(s), Prop("a"), 1);
  }

  /** The items of `a b @`. */
  lemma LazyErrorLex()
    ensures Lex("a b @") == [Tok(Token(Proposition, 0, 1, "a")), Tok(Token(Proposition, 2, 3, "b")), LexFail(4)]
  {
    LazyErrorLexOf("a b @");
  }

  lemma LazyErrorLexOf(s: string)
    requires s == "a b @"
    ensures Lex(s) == [Tok(Token(Proposition, 0, 1, "a")), Tok(Token(Proposition, 2, 3, "b")), LexFail(4)]
  {
    var fail := [LexFail(4)];
    FailStep(s, 4);
    SpaceStep(s, 3, fail);
    LetterStep(s, 2, fail);
    var b := [Tok(Token(Proposition, 2, 3, "b"))] + fail;
    SpaceStep(s, 1, b);
    LetterStep(s, 0, b);
  }

  /** `a->b->c` is `(a -> b) -> c`: implication associates to the left. */
  lemma ImplicationFoldsLeft()
    ensures Parse("a->b->c") == Ok(Binary(Impl, Binary(Impl, Prop("a"), Prop("b")), Prop("c")))
  {
    var s := "a->b->c";
    ImplicationsLex();
    LexFromValid(s, 0);
    ImplicationItemsFold(Lex(s));
  }

  /** The parse of the items of `a->b->c`. */
  lemma ImplicationItemsFold(items: seq<Item>)
    requires ValidStream(items)
    requires items == [Tok(Token(Proposition, 0, 1, "a")), Tok(Token(Impl, 1, 3, "->")),
                       Tok(Token(Proposition, 3, 4, "b")), Tok(Token(Impl, 4, 6, "->")),
                       Tok(Token(Proposition, 6, 7, "c")),
                       Tok(Token(Eof, 7, 7, "")), Tok(Token(Eof, 7, 7, ""))]
    ensures ParseItems(items) == Ok(Binary(Impl, Binary(Impl, Prop("a"), Prop("b")), Prop("c")))
  {
    FoldsLeft(items, 0);
  }

  /** The items of `a->b->c`. */
  lemma ImplicationsLex()
    ensures Lex("a->b->c") == [Tok(Token(Proposition, 0, 1, "a")), Tok(Token(Impl, 1, 3, "->")),
                               Tok(Token(Proposition, 3, 4, "b")), Tok(Token(Impl, 4, 6, "->")),
                               Tok(Token(Proposition, 6, 7, "c")),
                               Tok(Token(Eof, 7, 7, "")), Tok(Token(Eof, 7, 7, ""))]
  {
    ImplicationsLexOf("a->b->c");
  }

  lemma ImplicationsLexOf(s: string)
    requires s == "a->b->c"
    ensures Lex(s) == [Tok(Token(Proposition, 0, 1, "a")), Tok(Token(Impl, 1, 3, "->")),
                       Tok(Token(Proposition, 3, 4, "b")), Tok(Token(Impl, 4, 6, "->")),
                       Tok(Token(Proposition, 6, 7, "c")),
                       Tok(Token(Eof, 7, 7, "")), Tok(Token(Eof, 7, 7, ""))]
  {
    var ab := [Tok(Token(Impl, 1, 3, "->")), Tok(Token(Proposition, 3, 4, "b")), Tok(Token(Impl, 4, 6, "->")),
               Tok(Token(Proposition, 6, 7, "c")),
               Tok(Token(Eof, 7, 7, "")), Tok(Token(Eof, 7, 7, ""))];
    ImplicationsTailOf(s);
    LetterStep(s, 0, ab);
  }

  /** The items of `a->b->c` from the first `->` on. */
  lemma ImplicationsTailOf(s: string)
    requires s == "a->b->c"
    ensures LexFrom(s, 1) == [Tok(Token(Impl, 1, 3, "->")), Tok(Token(Proposition, 3, 4, "b")), Tok(Token(Impl, 4, 6, "->")),
                              Tok(Token(Proposition, 6, 7, "c")),
                              Tok(Token(Eof, 7, 7, "")), Tok(Token(Eof, 7, 7, ""))]
  {
    var b := [Tok(Token(Proposition, 3, 4, "b")), Tok(Token(Impl, 4, 6, "->")),
              Tok(Token(Proposition, 6, 7, "c")),
              Tok(Token(Eof, 7, 7, "")), Tok(Token(Eof, 7, 7, ""))];
    ImplicationsRightOf(s);
    ArrowStep(s, 1, b);
  }

  /** The items of `a->b->c` from the `b` on. */
  lemma ImplicationsRightOf(s: string)
    requires s == "a->b->c"
    ensures LexFrom(s, 3) == [Tok(Token(Proposition, 3, 4, "b")), Tok(Token(Impl, 4, 6, "->")),
                              Tok(Token(Proposition, 6, 7, "c")),
                              Tok(Token(Eof, 7, 7, "")), Tok(Token(Eof, 7, 7, ""))]
  {
    var end := [Tok(Token(Eof, 7, 7, "")), Tok(Token(Eof, 7, 7, ""))];
    EndStep(s);
    LetterStep(s, 6, end);
    var c := [Tok(Token(Proposition, 6, 7, "c"))] + end;
    ArrowStep(s, 4, c);
    var bc := [Tok(Token(Impl, 4, 6, "->"))] + c;
    LetterStep(s, 3, bc);
  }

  /** A single lower-case letter other than `t` and `f` (which may start
      a constant) is a proposition token. */
  lemma LetterStep(s: string, i: nat, rest: seq<Item>)
    requires i < |s| && 'a' <= s[i] <= 'e'
    requires i + 1 == |s| || !IsWordChar(s[i + 1])
    requires LexFrom(s, i + 1) == rest
    ensures LexFrom(s, i) == [Tok(Token(Proposition, i, i + 1, [s[i]]))] + rest
  {
    assert WordEnd(s, i + 1) == i + 1;
    assert Classify(s, i) == Match(Proposition, i + 1);
    assert s[i..i + 1] == [s[i]];
  }

  /** A single space is skipped. */
  lemma SpaceStep(s: string, i: nat, rest: seq<Item>)
    requires i + 1 < |s| && s[i] == ' ' && !IsSpace(s[i + 1])
    requires LexFrom(s, i + 1) == rest
    ensures LexFrom(s, i) == rest
  {
    assert SpaceEnd(s, i + 1) == i + 1;
    assert Classify(s, i) == Match(Whitespace, i + 1);
  }

  /** `->` is an implication token. */
  lemma ArrowStep(s: string, i: nat, rest: seq<Item>)
    requires i + 1 < |s| && s[i] == '-' && s[i + 1] == '>'
    requires LexFrom(s, i + 2) == rest
    ensures LexFrom(s, i) == [Tok(Token(Impl, i, i + 2, "->"))] + rest
  {
    assert StartsWith(s, i, "->");
    assert s[i..i + 2] == "->";
  }

  /** `@` matches no pattern, and the scan fails there. */
  lemma FailStep(s: string, i: nat)
    requires i < |s| && s[i] == '@'
    ensures LexFrom(s, i) == [LexFail(i)]
  {
  }
}
