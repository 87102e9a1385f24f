/** Deep copy and symbolic differentiation with respect to `X`.

    The program rewrites the tree in place and reports through a flag whether it
    met an `X` leaf; here the rewrite returns the new tree together with the new
    value of the flag. */
module Differentiation {
  import opened ExpTrees
  import opened Semantics

  /** A deep copy: a node with the same token whose present children are copied. */
  function Duplicate(t: Tree): (r: Tree)
    ensures r == t
  {
    match t
    case Nil => Nil
    case Node(tok, l, r) =>
      Node(tok, if l != Nil then Duplicate(l) else Nil, if r != Nil then Duplicate(r) else Nil)
  }

  /** The rewritten tree and the final value of the caller's flag. */
  datatype Derivation = Derivation(tree: Tree, flag: int)

  /** The derivative of `t` with respect to `X`, and the flag, which is cleared
      by every `X` leaf the rewrite reaches and otherwise keeps its value.
      Leaves keep their children; sums and differences are rewritten child by
      child; a product or a quotient differentiates copies of its operands and
      keeps the originals; any other symbol is left alone. */
  function Derive(t: Tree, flag: int): (d: Derivation)
    ensures d.flag == flag || d.flag == 0
    ensures d.tree.Node? <==> t.Node?
  {
    match t
    case Nil => Derivation(Nil, flag)
    case Node(tok, l, r) =>
      match tok
      case Number(_) => Derivation(Node(Number(0.0), l, r), flag)
      case Identifier(n) =>
        if n != X then Derivation(Node(Number(0.0), l, r), flag)
        else Derivation(Node(Number(1.0), l, r), 0)
      case Symbol(c) =>
        if c == '+' || c == '-' then
          var dl := Derive(l, flag);
          var dr := Derive(r, dl.flag);
          Derivation(Node(tok, dl.tree, dr.tree), dr.flag)
        else if c == '*' then
          var dl := Derive(Duplicate(l), flag);
          var dr := Derive(Duplicate(r), dl.flag);
          Derivation(Node(Symbol('+'), Node(Symbol('*'), dl.tree, r), Node(Symbol('*'), l, dr.tree)), dr.flag)
        else if c == '/' then
          var dl := Derive(Duplicate(l), flag);
          var dr := Derive(Duplicate(r), dl.flag);
          var numerator := Node(Symbol('-'), Node(Symbol('*'), dl.tree, r), Node(Symbol('*'), l, dr.tree));
          Derivation(Node(tok, numerator, Node(Symbol('*'), Duplicate(r), Duplicate(r))), dr.flag)
        else
          Derivation(t, flag)
  }

  /** True when the rewrite reaches an `X` leaf: through the operators it
      rewrites, but not into the children of a leaf or of another symbol. */
  predicate Reaches(t: Tree) {
    match t
    case Nil => false
    case Node(tok, l, r) =>
      if tok.Symbol? then IsOperator(tok.symbol) && (Reaches(l) || Reaches(r))
      else tok == Identifier(X)
  }

  /** The flag is cleared exactly when the rewrite reaches an `X` leaf. */
  lemma {:induction false} DeriveFlag(t: Tree, flag: int)
    ensures Derive(t, flag).flag == if Reaches(t) then 0 else flag
  {
    match t
    case Nil =>
    case Node(tok, l, r) =>
      if tok.Symbol? && IsOperator(tok.symbol) {
        DeriveFlag(l, flag);
        DeriveFlag(r, flag);
        DeriveFlag(l, 0);
        DeriveFlag(r, 0);
        var dl := Derive(l, flag);
        DeriveFlag(r, dl.flag);
      }
  }

  /** In a completed tree the rewrite reaches every leaf, so the flag is cleared
      exactly when the expression mentions `X`. */
  lemma {:induction false} DeriveFlagMentions(t: Tree, flag: int)
    requires WellFormed(t)
    ensures Derive(t, flag).flag == if Mentions(t, X) then 0 else flag
  {
    ReachesMentions(t);
    DeriveFlag(t, flag);
  }

  lemma {:induction false} ReachesMentions(t: Tree)
    requires WellFormed(t)
    ensures Reaches(t) <==> Mentions(t, X)
  {
    match t
    case Node(tok, l, r) =>
      if tok.Symbol? {
        ReachesMentions(l);
        ReachesMentions(r);
      }
  }

  /** The derivative of a completed tree is a completed tree. */
  lemma {:induction false} DeriveWellFormed(t: Tree, flag: int)
    requires WellFormed(t)
    ensures WellFormed(Derive(t, flag).tree)
  {
    match t
    case Node(tok, l, r) =>
      if tok.Symbol? {
        var dl := Derive(l, flag);
        DeriveWellFormed(l, flag);
        DeriveWellFormed(r, dl.flag);
      }
  }

  /** The derivative of a tree the simplifier can walk can be walked too. */
  lemma {:induction false} DeriveSimplifiable(t: Tree, flag: int)
    requires Simplifiable(t)
    ensures Simplifiable(Derive(t, flag).tree)
  {
    match t
    case Nil =>
    case Node(tok, l, r) =>
      if tok.Symbol? {
        var dl := Derive(l, flag);
        DeriveSimplifiable(l, flag);
        DeriveSimplifiable(r, dl.flag);
      }
  }

  /** The rewrite computes the derivative: wherever forward-mode evaluation
      yields a value and a derivative, the rewritten tree evaluates to that
      derivative, and the rewritten tree is defined nowhere else. */
  lemma {:induction false} DeriveCorrect<R(!new)>(t: Tree, flag: int, env: Env<R>, F: Arith<R>)
    requires FieldLaws(F)
    ensures Eval(Derive(t, flag).tree, env, F).Some? <==> DualEval(t, env, F).Some?
    ensures DualEval(t, env, F).Some? ==>
              Eval(Derive(t, flag).tree, env, F) == Some(DualEval(t, env, F).value.der)
  {
    match t
    case Nil =>
    case Node(tok, l, r) =>
      if tok.Symbol? {
        assert Duplicate(l) == l && Duplicate(r) == r;
        var dl := Derive(l, flag);
        DeriveCorrect(l, flag, env, F);
        DeriveCorrect(r, dl.flag, env, F);
        DualEvalValue(l, env, F);
        DualEvalValue(r, env, F);
        if tok.symbol == '/' {
          var d := Derive(t, flag).tree;
          assert Eval(d, env, F).Some? ==> Eval(d.left, env, F).Some?;
          assert Eval(d.left, env, F).Some? ==> Eval(d.left.left, env, F).Some? && Eval(d.left.right, env, F).Some?;
        }
        if tok.symbol == '/' && DualEval(l, env, F).Some? && DualEval(r, env, F).Some? {
          var a, b := DualEval(l, env, F).value, DualEval(r, env, F).value;
          var d := Derive(t, flag).tree;
          assert Eval(d.left, env, F) == Some(F.sub(F.mul(a.der, b.val), F.mul(a.val, b.der)));
          assert Eval(d.right, env, F) == Some(F.mul(b.val, b.val));
          assert b.val == Zero(F) <==> F.mul(b.val, b.val) == Zero(F);
        }
      }
  }

  /** When the flag survives, the expression does not depend on `X`: its
      derivative evaluates to zero wherever the expression is defined. */
  lemma FlagKeptMeansConstant<R(!new)>(t: Tree, env: Env<R>, F: Arith<R>)
    requires FieldLaws(F) && WellFormed(t)
    requires Derive(t, 1).flag == 1
    requires DualEval(t, env, F).Some?
    ensures Eval(Derive(t, 1).tree, env, F) == Some(Zero(F))
  {
    DeriveFlagMentions(t, 1);
    ConstantHasZeroDerivative(t, env, F);
    DeriveCorrect(t, 1, env, F);
  }
}
