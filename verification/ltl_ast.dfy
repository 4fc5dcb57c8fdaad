/** The abstract syntax of LTL formulas (verification/ltl.py, `LTLAst` and
    its three subclasses): structural equality, the hash that agrees with it,
    and the printed form. */
module LtlAst {
  import opened LtlCatalog
  import opened LtlScanner

  /** One node of a formula. `Atom` is a bare `LTLAst` (the constants TRUE
      and FALSE), `Prop` an `LTLProposition`, `Unary` an `LTLUnaryOperator`
      and `Binary` an `LTLBinaryOperator`. */
  datatype Ast =
    | Atom(kind: Kind)
    | Prop(name: string)
    | Unary(kind: Kind, operand: Ast)
    | Binary(kind: Kind, left: Ast, right: Ast)

  /** The `kind` attribute: a proposition node always carries PROPOSITION. */
  function KindOf(t: Ast): Kind
  {
    if t.Prop? then Proposition else t.kind
  }

  /** The trees the parser builds: constants carry TRUE or FALSE, and
      operator nodes carry an operator of their arity. */
  predicate WellFormed(t: Ast)
  {
    match t
    case Atom(k) => k == True || k == False
    case Prop(_) => true
    case Unary(k, o) => IsUnaryKind(k) && WellFormed(o)
    case Binary(k, l, r) => IsBinaryKind(k) && WellFormed(l) && WellFormed(r)
  }

  /** A well-formed tree whose proposition names all read back as single
      proposition tokens. */
  predicate Printable(t: Ast)
  {
    match t
    case Atom(k) => k == True || k == False
    case Prop(n) => ValidName(n)
    case Unary(k, o) => IsUnaryKind(k) && Printable(o)
    case Binary(k, l, r) => IsBinaryKind(k) && Printable(l) && Printable(r)
  }

  /** `is_atom`: the kind is one of the atoms, so propositions count. */
  predicate IsAtom(t: Ast)
  {
    IsAtomKind(KindOf(t))
  }

  /** `is_proposition`, `is_unary_operator`, `is_binary_operator`: the class
      of the node. */
  predicate IsProposition(t: Ast) { t.Prop? }
  predicate IsUnaryOperator(t: Ast) { t.Unary? }
  predicate IsBinaryOperator(t: Ast) { t.Binary? }

  /** On well-formed trees the kind decides the class, and every node is
      exactly one of an atom, a unary operator and a binary operator. */
  lemma {:induction false} Classification(t: Ast)
    requires WellFormed(t)
    ensures IsProposition(t) ==> IsAtom(t)
    ensures IsAtom(t) <==> t.Atom? || t.Prop?
    ensures IsUnaryOperator(t) <==> IsUnaryKind(KindOf(t))
    ensures IsBinaryOperator(t) <==> IsBinaryKind(KindOf(t))
    ensures (IsAtom(t) && !IsUnaryOperator(t) && !IsBinaryOperator(t))
         || (!IsAtom(t) && IsUnaryOperator(t) && !IsBinaryOperator(t))
         || (!IsAtom(t) && !IsUnaryOperator(t) && IsBinaryOperator(t))
  {
    match t
    case Atom(_) =>
    case Prop(_) =>
    case Unary(_, _) =>
    case Binary(_, _, _) =>
  }

  /** `__eq__`, dispatched on the class of the left operand. A bare atom
      compares kinds only; the subclasses compare kinds and then their own
      fields. (Where the right operand is of a subclass, Python asks it
      first, and its answer is the same: the kinds differ.) */
  predicate Equal(a: Ast, b: Ast)
  {
    match a
    case Atom(k) => KindOf(b) == k
    case Prop(n) => KindOf(b) == Proposition && b.Prop? && b.name == n
    case Unary(k, o) => KindOf(b) == k && b.Unary? && Equal(o, b.operand)
    case Binary(k, l, r) =>
      KindOf(b) == k && b.Binary? && Equal(l, b.left) && Equal(r, b.right)
  }

  /** On well-formed trees equality is structural identity. */
  lemma {:induction false} EqualIsStructural(a: Ast, b: Ast)
    requires WellFormed(a) && WellFormed(b)
    ensures Equal(a, b) <==> a == b
  {
    match a
    case Atom(_) =>
    case Prop(_) =>
    case Unary(k, o) =>
      if b.Unary? {
        EqualIsStructural(o, b.operand);
      }
    case Binary(k, l, r) =>
      if b.Binary? {
        EqualIsStructural(l, b.left);
        EqualIsStructural(r, b.right);
      }
  }

  /** `Equal` is an equivalence on well-formed trees. */
  lemma EqualIsEquivalence(a: Ast, b: Ast, c: Ast)
    requires WellFormed(a) && WellFormed(b) && WellFormed(c)
    ensures Equal(a, a)
    ensures Equal(a, b) ==> Equal(b, a)
    ensures Equal(a, b) && Equal(b, c) ==> Equal(a, c)
  {
    EqualIsStructural(a, a);
    EqualIsStructural(a, b);
    EqualIsStructural(b, a);
    EqualIsStructural(b, c);
    EqualIsStructural(a, c);
  }

  /** What `__hash__` feeds to Python's hash: the kind alone, or a tuple of
      the kind with the name or with the hashes of the children. */
  datatype HashInput =
    | OfKind(kind: Kind)
    | OfName(kind: Kind, name: string)
    | OfOne(kind: Kind, operand: int)
    | OfTwo(kind: Kind, left: int, right: int)

  /** `__hash__`, over the hash function `h` of kinds and tuples, which is
      not modelled. */
  function Hash(h: HashInput -> int, t: Ast): int
  {
    match t
    case Atom(k) => h(OfKind(k))
    case Prop(n) => h(OfName(Proposition, n))
    case Unary(k, o) => h(OfOne(k, Hash(h, o)))
    case Binary(k, l, r) => h(OfTwo(k, Hash(h, l), Hash(h, r)))
  }

  /** Equal well-formed trees hash alike, whatever the underlying hash of
      kinds and tuples is. */
  lemma EqualHashesAlike(h: HashInput -> int, a: Ast, b: Ast)
    requires WellFormed(a) && WellFormed(b) && Equal(a, b)
    ensures Hash(h, a) == Hash(h, b)
  {
    EqualIsStructural(a, b);
  }

  /** `__str__`: constants print their keyword, propositions their name,
      unary operators their symbol, a space and the operand, and binary
      operators a fully parenthesised infix form. */
  function Render(t: Ast): string
  {
    match t
    case Atom(k) => Symbol(k)
    case Prop(n) => n
    case Unary(k, o) => Symbol(k) + " " + Render(o)
    case Binary(k, l, r) => "(" + Render(l) + " " + Symbol(k) + " " + Render(r) + ")"
  }
}
