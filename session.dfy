/** What one accepted, non-numerical input goes through after the tree is built:
    the tree is simplified, differentiated with the flag set to 1, and the
    derivative is simplified again. */
module Session {
  import opened ExpTrees
  import opened Semantics
  import opened Differentiation
  import opened Simplifier
  import opened Builder
  import opened FlatExpressions

  /** The printed results of one round: the simplified expression, the flag
      after differentiation and the simplified derivative. */
  datatype Round = Round(simplified: Tree, flag: int, derivative: Tree)

  function RunRound(t: Tree): (o: Round)
    requires Simplifiable(t)
    ensures NoRedex(o.simplified) && NoRedex(o.derivative)
    ensures o.flag == 0 || o.flag == 1
  {
    var s := Simplify(t);
    var d := Derive(s, 1);
    DeriveSimplifiable(s, 1);
    Round(s, d.flag, Simplify(d.tree))
  }

  /** Wherever the input has a value and a derivative with respect to `X`, the
      printed expression has that value and the printed derivative evaluates
      to that derivative. */
  lemma RoundCorrect<R(!new)>(t: Tree, env: Env<R>, F: Arith<R>)
    requires FieldLaws(F) && Simplifiable(t)
    requires DualEval(t, env, F).Some?
    ensures Eval(RunRound(t).simplified, env, F) == Eval(t, env, F)
    ensures Eval(RunRound(t).derivative, env, F) == Some(DualEval(t, env, F).value.der)
  {
    var s := Simplify(t);
    SimplifyKeepsDual(t, env, F);
    DualEvalValue(t, env, F);
    DualEvalValue(s, env, F);
    var d := Derive(s, 1);
    DeriveCorrect(s, 1, env, F);
    DeriveSimplifiable(s, 1);
    SimplifyKeepsValue(d.tree, env, F);
  }

  /** For a completed input, both printed trees are completed, and the flag is
      cleared exactly when the simplified expression mentions `X`. */
  lemma RoundShape(t: Tree)
    requires WellFormed(t)
    ensures Simplifiable(t)
    ensures WellFormed(RunRound(t).simplified) && WellFormed(RunRound(t).derivative)
    ensures RunRound(t).flag == if Mentions(RunRound(t).simplified, X) then 0 else 1
  {
    WellFormedIsSimplifiable(t);
    var s := Simplify(t);
    DeriveWellFormed(s, 1);
    DeriveFlagMentions(s, 1);
  }

  /** An operator expression without parentheses is accepted: the builder
      succeeds and reads every token, and the round prints completed trees. */
  lemma FlatRound(T: seq<Token>)
    requires Flat(T)
    ensures NoEmptyGroup(T)
    ensures Build(T, 0, 0, Nil).ok && Build(T, 0, 0, Nil).cursor == |T|
    ensures WellFormed(Build(T, 0, 0, Nil).tree) && Simplifiable(Build(T, 0, 0, Nil).tree)
    ensures WellFormed(RunRound(Build(T, 0, 0, Nil).tree).simplified)
    ensures WellFormed(RunRound(Build(T, 0, 0, Nil).tree).derivative)
  {
    FlatBuild(T, Nil);
    RoundShape(Parse(T));
  }

  /** Over the real numbers. */
  lemma RoundCorrectReal(t: Tree, env: Env<real>)
    requires Simplifiable(t)
    requires DualEval(t, env, RealArith()).Some?
    ensures Eval(RunRound(t).derivative, env, RealArith()) == Some(DualEval(t, env, RealArith()).value.der)
  {
    RealArithLaws();
    RoundCorrect(t, env, RealArith());
  }

  /** `x * x` is printed unchanged, and its derivative is printed as `x + x`. */
  lemma SquareRound()
    ensures RunRound(Node(Symbol('*'), Leaf(Identifier(X)), Leaf(Identifier(X))))
         == Round(Node(Symbol('*'), Leaf(Identifier(X)), Leaf(Identifier(X))), 0,
                  Node(Symbol('+'), Leaf(Identifier(X)), Leaf(Identifier(X))))
  {
  }
}
