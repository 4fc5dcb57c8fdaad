/** AIGER literals (verification/aig.py, `_literal`): an unsigned integer
    whose lowest bit is negation and whose other bits are a variable index,
    with 0 and 1 standing for the constants false and true. */
module AigLiteral {

  /** What `_literal` returns: a Python bool for the two constants, or a
      signed variable index. Python's bools are integers (`True == 1`), so
      the source cannot tell constant true from positive variable 1; this
      datatype keeps them apart, and `PyEqual` says when Python would call
      two results equal. */
  datatype Lit = Const(value: bool) | Var(index: int)

  /** The integer value Python sees in a result. */
  function PyInt(r: Lit): int
  {
    match r
    case Const(b) => if b then 1 else 0
    case Var(i) => i
  }

  /** Python's `==` on two results. */
  predicate PyEqual(a: Lit, b: Lit)
  {
    PyInt(a) == PyInt(b)
  }

  /** `_literal` on the integer the text stands for. Python's `//` floors
      and `& 1` is the parity of the two's-complement form; Dafny's `/` and
      `%` by a positive divisor floor and give that same parity. */
  function Literal(l: int): (r: Lit)
    ensures l == 0 <==> r == Const(false)
    ensures l == 1 <==> r == Const(true)
  {
    if l == 1 then Const(true)
    else if l == 0 then Const(false)
    else if l % 2 == 1 then Var(-(l / 2))
    else Var(l / 2)
  }

  function Abs(x: int): nat
  {
    if x < 0 then -x else x
  }

  /** The literal an AIGER file writes for a decoded value. */
  function Encode(r: Lit): int
  {
    match r
    case Const(b) => if b then 1 else 0
    case Var(i) => 2 * Abs(i) + (if i < 0 then 1 else 0)
  }

  /** The values a literal of a well-formed file decodes to: a constant,
      or a variable whose index is not zero. */
  predicate Decodable(r: Lit)
  {
    r.Var? ==> r.index != 0
  }

  /** For a literal of at least 2: the variable index is the literal
      without its lowest bit, and the result is negative exactly when that
      bit is set. */
  lemma LiteralOfVariable(l: int)
    requires l >= 2
    ensures Literal(l).Var?
    ensures Abs(Literal(l).index) == l / 2 >= 1
    ensures Literal(l).index < 0 <==> l % 2 == 1
  {
  }

  /** Encoding undoes decoding on every literal a file can hold. */
  lemma EncodeLiteral(l: int)
    requires l >= 0
    ensures Decodable(Literal(l)) && Encode(Literal(l)) == l
  {
    if l >= 2 {
      LiteralOfVariable(l);
    }
  }

  /** Decoding undoes encoding. */
  lemma LiteralEncode(r: Lit)
    requires Decodable(r)
    ensures Encode(r) >= 0 && Literal(Encode(r)) == r
  {
  }

  /** Distinct literals decode to distinct values. */
  lemma LiteralInjective(a: int, b: int)
    requires a >= 0 && b >= 0 && Literal(a) == Literal(b)
    ensures a == b
  {
    EncodeLiteral(a);
    EncodeLiteral(b);
  }

  /** `abs(literal)`, the key under which the decoder files a signal:
      a variable's index, or the bool constant taken as 0 or 1. */
  function Key(r: Lit): nat
  {
    Abs(PyInt(r))
  }

  /** The key of a variable literal is its index, shared by both signs. */
  lemma KeyOfLiteral(l: int)
    requires l >= 2
    ensures Key(Literal(l)) == l / 2
    ensures Key(Literal(l)) == Key(Literal(l - l % 2)) == Key(Literal(l - l % 2 + 1))
  {
  }

  /** Python's view of the results: constant true equals positive variable
      1 and files under the same key, although the literals differ. */
  lemma ConstantTrueIsVariableOne()
    ensures Literal(1) != Literal(2)
    ensures PyEqual(Literal(1), Literal(2))
    ensures Key(Literal(1)) == Key(Literal(2)) == Key(Literal(3))
  {
  }
}
