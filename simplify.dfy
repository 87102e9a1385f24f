/** The simplifier: one bottom-up pass that removes neutral and absorbing
    operands of `* / + -`.

    `Rewrite` follows the program's case analysis on the kinds of the two
    (already simplified) children; `Rule` states the same rewrites as a table
    of patterns, and `Rewrite` is proved to apply exactly that table. */
module Simplifier {
  import opened ExpTrees
  import opened Semantics

  /** True when `t` is a node holding the number `v`. */
  predicate IsNum(t: Tree, v: real) {
    t.Node? && t.tok == Number(v)
  }

  /** What an operand becomes when it replaces its parent: an operator keeps
      its children; a number or an identifier becomes a bare leaf (a leaf's
      own children are dropped). */
  function Promote(t: Tree): (p: Tree)
    ensures t.Node? ==> p.Node? && p.tok == t.tok
    ensures t.Node? && t.tok.Symbol? ==> p == t
    ensures t.Node? && !t.tok.Symbol? ==> p.left == Nil && p.right == Nil
    ensures Size(p) <= Size(t)
  {
    if t.Node? && !t.tok.Symbol? then Leaf(t.tok) else t
  }

  /** The rewrite patterns, tried in this order:
      `X * 1`, `X * 0`, `1 * X`, `0 * X`; `X / 1`; `0 + X`, `X + 0`; `X - 0`.
      `None` when no pattern matches. */
  function Rule(t: Tree): Option<Tree> {
    if t.Nil? || !IsArith(t.tok) then None
    else
      var l, r := t.left, t.right;
      match t.tok.symbol
      case '*' =>
        if IsNum(r, 1.0) then Some(Promote(l))
        else if IsNum(r, 0.0) then Some(Leaf(Number(0.0)))
        else if IsNum(l, 1.0) then Some(Promote(r))
        else if IsNum(l, 0.0) then Some(Leaf(Number(0.0)))
        else None
      case '/' =>
        if IsNum(r, 1.0) then Some(Promote(l)) else None
      case '+' =>
        if IsNum(l, 0.0) then Some(Promote(r))
        else if IsNum(r, 0.0) then Some(Promote(l))
        else None
      case '-' =>
        if IsNum(r, 0.0) then Some(Promote(l)) else None
  }

  /** No node of `t` matches a pattern. */
  predicate NoRedex(t: Tree) {
    match t
    case Nil => true
    case Node(_, l, r) => Rule(t).None? && NoRedex(l) && NoRedex(r)
  }

  /** The rewrite of one node whose children are already simplified, by the kinds
      of its two children.  A match to a leaf overwrites the node's token and
      drops its children; a match to an operator splices the operator's token
      and children into the node. */
  function Rewrite(t: Tree): (r: Tree)
    requires t.Node? && (IsArith(t.tok) ==> t.left.Node? && t.right.Node?)
    ensures r == if Rule(t).Some? then Rule(t).value else t
  {
    var l, r := t.left, t.right;
    if !IsArith(t.tok) then t
    else if t.tok.symbol == '*' then
      if l.tok.Number? && r.tok.Number? then
        if r.tok.number == 1.0 then Leaf(Number(l.tok.number))
        else if r.tok.number == 0.0 then Leaf(Number(0.0))
        else if l.tok.number == 1.0 then Leaf(Number(r.tok.number))
        else if l.tok.number == 0.0 then Leaf(Number(0.0))
        else t
      else if l.tok.Number? && r.tok.Identifier? then
        if l.tok.number == 1.0 then Leaf(Identifier(r.tok.identifier))
        else if l.tok.number == 0.0 then Leaf(Number(0.0))
        else t
      else if l.tok.Number? && r.tok.Symbol? then
        if l.tok.number == 1.0 then Node(Symbol(r.tok.symbol), r.left, r.right)
        else if l.tok.number == 0.0 then Leaf(Number(0.0))
        else t
      else if l.tok.Identifier? && r.tok.Number? then
        if r.tok.number == 1.0 then Leaf(Identifier(l.tok.identifier))
        else if r.tok.number == 0.0 then Leaf(Number(0.0))
        else t
      else if l.tok.Symbol? && r.tok.Number? then
        if r.tok.number == 1.0 then Node(Symbol(l.tok.symbol), l.left, l.right)
        else if r.tok.number == 0.0 then Leaf(Number(0.0))
        else t
      else t
    else if t.tok.symbol == '/' then
      if l.tok.Number? && r.tok.Number? then
        if r.tok.number == 1.0 then Leaf(Number(l.tok.number)) else t
      else if l.tok.Identifier? && r.tok.Number? then
        if r.tok.number == 1.0 then Leaf(Identifier(l.tok.identifier)) else t
      else if l.tok.Symbol? && r.tok.Number? then
        if r.tok.number == 1.0 then Node(Symbol(l.tok.symbol), l.left, l.right) else t
      else t
    else if t.tok.symbol == '+' then
      if l.tok.Number? && r.tok.Number? then
        if l.tok.number == 0.0 then Leaf(Number(r.tok.number))
        else if r.tok.number == 0.0 then Leaf(Number(l.tok.number))
        else t
      else if l.tok.Number? && r.tok.Identifier? then
        if l.tok.number == 0.0 then Leaf(Identifier(r.tok.identifier)) else t
      else if l.tok.Identifier? && r.tok.Number? then
        if r.tok.number == 0.0 then Leaf(Identifier(l.tok.identifier)) else t
      else if l.tok.Number? && r.tok.Symbol? then
        if l.tok.number == 0.0 then Node(Symbol(r.tok.symbol), r.left, r.right) else t
      else if l.tok.Symbol? && r.tok.Number? then
        if r.tok.number == 0.0 then Node(Symbol(l.tok.symbol), l.left, l.right) else t
      else t
    else
      if l.tok.Number? && r.tok.Number? then
        if r.tok.number == 0.0 then Leaf(Number(l.tok.number)) else t
      else if l.tok.Identifier? && r.tok.Number? then
        if r.tok.number == 0.0 then Leaf(Identifier(l.tok.identifier)) else t
      else if l.tok.Symbol? && r.tok.Number? then
        if r.tok.number == 0.0 then Node(Symbol(l.tok.symbol), l.left, l.right) else t
      else t
  }

  /** Simplifies the children, then the node itself.  The result matches no
      pattern anywhere, is no larger, can be walked again, is absent only when
      the input is, and is completed when the input is. */
  function Simplify(t: Tree): (s: Tree)
    requires Simplifiable(t)
    ensures NoRedex(s) && Simplifiable(s)
    ensures Size(s) <= Size(t)
    ensures s.Node? <==> t.Node?
    ensures WellFormed(t) ==> WellFormed(s)
  {
    match t
    case Nil => Nil
    case Node(tok, l, r) =>
      var u := Node(tok, Simplify(l), Simplify(r));
      RewriteStep(u);
      Rewrite(u)
  }

  /** A rewrite of a node whose children match nowhere matches nowhere, keeps
      the shapes the simplifier relies on, and removes nodes or none. */
  lemma RewriteStep(t: Tree)
    requires t.Node? && Simplifiable(t) && NoRedex(t.left) && NoRedex(t.right)
    ensures NoRedex(Rewrite(t)) && Simplifiable(Rewrite(t))
    ensures Size(Rewrite(t)) <= Size(t) && Rewrite(t).Node?
    ensures WellFormed(t) ==> WellFormed(Rewrite(t))
  {
    if Rule(t).Some? {
      var l, r := t.left, t.right;
      assert Rule(t).value in {Promote(l), Promote(r), Leaf(Number(0.0))};
    }
  }

  /** Each rewrite removes at least one node. */
  lemma RuleShrinks(t: Tree)
    requires Rule(t).Some?
    ensures Size(Rule(t).value) < Size(t)
  {
  }

  /** A tree without a match is left as it is. */
  lemma {:induction false} SimplifyNormal(t: Tree)
    requires Simplifiable(t) && NoRedex(t)
    ensures Simplify(t) == t
  {
    match t
    case Nil =>
    case Node(tok, l, r) =>
      SimplifyNormal(l);
      SimplifyNormal(r);
  }

  /** Simplification leaves a tree alone exactly when no node matches. */
  lemma SimplifyFixedPoint(t: Tree)
    requires Simplifiable(t)
    ensures Simplify(t) == t <==> NoRedex(t)
  {
    if NoRedex(t) {
      SimplifyNormal(t);
    }
  }

  /** Simplifying twice is simplifying once. */
  lemma SimplifyIdempotent(t: Tree)
    requires Simplifiable(t)
    ensures Simplify(Simplify(t)) == Simplify(t)
  {
    SimplifyNormal(Simplify(t));
  }

  /** One rewrite keeps the value and the derivative wherever they are defined. */
  lemma RewriteKeepsDual<R(!new)>(t: Tree, env: Env<R>, F: Arith<R>)
    requires FieldLaws(F)
    requires t.Node? && (IsArith(t.tok) ==> t.left.Node? && t.right.Node?)
    requires DualEval(t, env, F).Some?
    ensures DualEval(Rewrite(t), env, F) == DualEval(t, env, F)
  {
    if Rule(t).Some? {
      var l, r := t.left, t.right;
      var a, b := DualEval(l, env, F).value, DualEval(r, env, F).value;
      assert DualEval(Promote(l), env, F) == Some(a);
      assert DualEval(Promote(r), env, F) == Some(b);
      assert IsNum(l, 0.0) ==> a == Dual(Zero(F), Zero(F));
      assert IsNum(l, 1.0) ==> a == Dual(One(F), Zero(F));
      assert IsNum(r, 0.0) ==> b == Dual(Zero(F), Zero(F));
      assert IsNum(r, 1.0) ==> b == Dual(One(F), Zero(F));
    }
  }

  /** Simplification keeps the value and the derivative with respect to `X`
      wherever the input has them (it may define more: `0 * (1 / 0)` becomes
      `0`). */
  lemma {:induction false} SimplifyKeepsDual<R(!new)>(t: Tree, env: Env<R>, F: Arith<R>)
    requires FieldLaws(F) && Simplifiable(t)
    requires DualEval(t, env, F).Some?
    ensures DualEval(Simplify(t), env, F) == DualEval(t, env, F)
  {
    match t
    case Node(tok, l, r) =>
      if tok.Symbol? {
        SimplifyKeepsDual(l, env, F);
        SimplifyKeepsDual(r, env, F);
        RewriteKeepsDual(Node(tok, Simplify(l), Simplify(r)), env, F);
      }
  }

  /** Simplification keeps the value wherever the input has one. */
  lemma SimplifyKeepsValue<R(!new)>(t: Tree, env: Env<R>, F: Arith<R>)
    requires FieldLaws(F) && Simplifiable(t)
    requires Eval(t, env, F).Some?
    ensures Eval(Simplify(t), env, F) == Eval(t, env, F)
  {
    DualEvalValue(t, env, F);
    DualEvalValue(Simplify(t), env, F);
    SimplifyKeepsDual(t, env, F);
  }
}
