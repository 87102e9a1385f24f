/** A reference meaning for expression trees, used to state what the derivative
    and the simplifier promise.  The program never computes with the numbers in
    the trees it builds, so the meaning is given over any number system: a
    record of its operations, with the algebraic laws the proofs rely on stated
    once (`FieldLaws`).  The real numbers are one such system (`RealArith`). */
module Semantics {
  import opened ExpTrees

  /** The operations of a number system `R`: how a literal is read, and the four
      arithmetic operations.  Division by zero is left to `Eval`, which treats it
      as undefined. */
  datatype Arith<!R> = Arith(
    lit: real -> R,
    add: (R, R) -> R,
    sub: (R, R) -> R,
    mul: (R, R) -> R,
    div: (R, R) -> R)

  function Zero<R>(F: Arith<R>): R { F.lit(0.0) }
  function One<R>(F: Arith<R>): R { F.lit(1.0) }

  /** The laws of a field that the proofs use: zero and one are neutral, zero
      absorbs in products and quotients, one divides trivially, and the square
      of a non-zero element is non-zero. */
  ghost predicate FieldLaws<R(!new)>(F: Arith<R>) {
    && (forall a :: F.add(Zero(F), a) == a)
    && (forall a :: F.add(a, Zero(F)) == a)
    && (forall a :: F.sub(a, Zero(F)) == a)
    && (forall a :: F.mul(a, One(F)) == a)
    && (forall a :: F.mul(One(F), a) == a)
    && (forall a :: F.mul(a, Zero(F)) == Zero(F))
    && (forall a :: F.mul(Zero(F), a) == Zero(F))
    && (forall a :: F.div(a, One(F)) == a)
    && (forall a :: a != Zero(F) ==> F.div(Zero(F), a) == Zero(F))
    && (forall a :: a != Zero(F) ==> F.mul(a, a) != Zero(F))
  }

  type Env<R> = string -> R

  /** Value of a tree; `None` when a node is absent, a symbol is not arithmetic,
      or a divisor is zero.  The children of a leaf are ignored. */
  function Eval<R(==)>(t: Tree, env: Env<R>, F: Arith<R>): Option<R> {
    match t
    case Nil => None
    case Node(tok, l, r) =>
      match tok
      case Number(v) => Some(F.lit(v))
      case Identifier(n) => Some(env(n))
      case Symbol(c) =>
        var a, b := Eval(l, env, F), Eval(r, env, F);
        if a.None? || b.None? then None else Apply(F, c, a.value, b.value)
  }

  /** The arithmetic of one symbol. */
  function Apply<R(==)>(F: Arith<R>, c: char, a: R, b: R): Option<R> {
    if c == '+' then Some(F.add(a, b))
    else if c == '-' then Some(F.sub(a, b))
    else if c == '*' then Some(F.mul(a, b))
    else if c == '/' then (if b == Zero(F) then None else Some(F.div(a, b)))
    else None
  }

  /** A value together with its derivative with respect to `X`. */
  datatype Dual<R> = Dual(val: R, der: R)

  /** Dual-number arithmetic: the sum, difference, product and quotient rules. */
  function DualApply<R(==)>(F: Arith<R>, c: char, a: Dual<R>, b: Dual<R>): Option<Dual<R>> {
    if c == '+' then Some(Dual(F.add(a.val, b.val), F.add(a.der, b.der)))
    else if c == '-' then Some(Dual(F.sub(a.val, b.val), F.sub(a.der, b.der)))
    else if c == '*' then Some(Dual(F.mul(a.val, b.val), F.add(F.mul(a.der, b.val), F.mul(a.val, b.der))))
    else if c == '/' then
      (if b.val == Zero(F) then None
       else Some(Dual(F.div(a.val, b.val),
                      F.div(F.sub(F.mul(a.der, b.val), F.mul(a.val, b.der)), F.mul(b.val, b.val)))))
    else None
  }

  /** Forward-mode evaluation: an independent definition of the value and the
      derivative with respect to `X` of a tree at the point `env`. */
  function DualEval<R(==)>(t: Tree, env: Env<R>, F: Arith<R>): Option<Dual<R>> {
    match t
    case Nil => None
    case Node(tok, l, r) =>
      match tok
      case Number(v) => Some(Dual(F.lit(v), Zero(F)))
      case Identifier(n) => Some(Dual(env(n), if n == X then One(F) else Zero(F)))
      case Symbol(c) =>
        var a, b := DualEval(l, env, F), DualEval(r, env, F);
        if a.None? || b.None? then None else DualApply(F, c, a.value, b.value)
  }

  /** Dual evaluation is defined exactly where evaluation is, and its value part
      is the value. */
  lemma {:induction false} DualEvalValue<R>(t: Tree, env: Env<R>, F: Arith<R>)
    ensures DualEval(t, env, F).Some? <==> Eval(t, env, F).Some?
    ensures DualEval(t, env, F).Some? ==> DualEval(t, env, F).value.val == Eval(t, env, F).value
  {
    match t
    case Nil =>
    case Node(tok, l, r) =>
      DualEvalValue(l, env, F);
      DualEvalValue(r, env, F);
  }

  /** A tree that does not mention `X` has derivative zero wherever it is defined. */
  lemma {:induction false} ConstantHasZeroDerivative<R(!new)>(t: Tree, env: Env<R>, F: Arith<R>)
    requires FieldLaws(F)
    requires !Mentions(t, X)
    requires DualEval(t, env, F).Some?
    ensures DualEval(t, env, F).value.der == Zero(F)
  {
    match t
    case Nil =>
    case Node(tok, l, r) =>
      if tok.Symbol? {
        ConstantHasZeroDerivative(l, env, F);
        ConstantHasZeroDerivative(r, env, F);
      }
  }

  /** The real numbers, with division by zero given an arbitrary value. */
  function RealArith(): Arith<real> {
    Arith(v => v, (a, b) => a + b, (a, b) => a - b, (a, b) => RealMul(a, b), (a, b) => RealDiv(a, b))
  }

  /** Real multiplication has no zero divisors, and 0 and 1 behave as they should. */
  function RealMul(a: real, b: real): (m: real)
    ensures a != 0.0 && b != 0.0 ==> m != 0.0
    ensures a == 0.0 || b == 0.0 ==> m == 0.0
    ensures b == 1.0 ==> m == a
    ensures a == 1.0 ==> m == b
  {
    a * b
  }

  /** Real division; dividing by zero yields zero. */
  function RealDiv(a: real, b: real): (q: real)
    ensures b == 1.0 ==> q == a
    ensures a == 0.0 ==> q == 0.0
  {
    if b == 0.0 then 0.0 else a / b
  }

  /** The real numbers satisfy the laws the proofs use, so the properties stated
      over any number system hold of them. */
  lemma RealArithLaws()
    ensures FieldLaws(RealArith())
  {
  }
}
