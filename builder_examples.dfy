/** The builder on small inputs: the shapes the priority cases produce, the
    inputs it rejects, and the inputs it accepts although they are not
    expressions. */
module BuilderExamples {
  import opened ExpTrees
  import opened Builder
  import opened FlatExpressions

  function N(v: real): Tree { Leaf(Number(v)) }

  function Op(c: char, l: Tree, r: Tree): Tree { Node(Symbol(c), l, r) }

  /** `2 + 3 * 4` groups the product. */
  lemma SumOfProduct(T: seq<Token>)
    requires T == [Number(2.0), Symbol('+'), Number(3.0), Symbol('*'), Number(4.0)]
    ensures NoEmptyGroup(T)
    ensures Build(T, 0, 0, Nil) == Outcome(true, 5, 0, Op('+', N(2.0), Op('*', N(3.0), N(4.0))))
  {
    NoOpenNoEmptyGroup(T);
    var plus, times := Op('+', N(2.0), Nil), Op('*', N(3.0), Nil);
    assert Reduce([N(2.0)], '+', -1) == [plus];
    assert Reduce([plus, N(3.0)], '*', 1) == [plus, times];
    assert Flat(T);
    FirstOperand(T, Nil);
    OperatorOperand(T, 1, 0, -1, [N(2.0)], Nil);
    assert [plus] + [N(3.0)] == [plus, N(3.0)];
    OperatorOperand(T, 3, 0, 1, [plus, N(3.0)], Nil);
    assert [plus, times] + [N(4.0)] == [plus, times, N(4.0)];
    assert [plus, times, N(4.0)][1..] == [times, N(4.0)];
    assert [times, N(4.0)][1..] == [N(4.0)];
    assert Chain([times, N(4.0)]) == Op('*', N(3.0), N(4.0));
    assert Chain([plus, times, N(4.0)]) == SetRight(plus, Chain([times, N(4.0)]));
  }

  /** `8 - 3 - 2` associates to the left. */
  lemma DifferenceChain(T: seq<Token>)
    requires T == [Number(8.0), Symbol('-'), Number(3.0), Symbol('-'), Number(2.0)]
    ensures NoEmptyGroup(T)
    ensures Build(T, 0, 0, Nil) == Outcome(true, 5, 0, Op('-', Op('-', N(8.0), N(3.0)), N(2.0)))
  {
    NoOpenNoEmptyGroup(T);
    var first, second := Op('-', N(8.0), Nil), Op('-', Op('-', N(8.0), N(3.0)), Nil);
    assert Reduce([N(8.0)], '-', -1) == [first];
    assert Reduce([first, N(3.0)], '-', 1) == [second];
    assert Flat(T);
    FirstOperand(T, Nil);
    OperatorOperand(T, 1, 0, -1, [N(8.0)], Nil);
    assert [first] + [N(3.0)] == [first, N(3.0)];
    OperatorOperand(T, 3, 0, 1, [first, N(3.0)], Nil);
    assert [second] + [N(2.0)] == [second, N(2.0)];
    assert [second, N(2.0)][1..] == [N(2.0)];
    assert Chain([second, N(2.0)]) == SetRight(second, N(2.0));
  }

  /** `2 * 3 + 4`: the lower priority links the product before the sum wraps it. */
  lemma ProductThenSum(T: seq<Token>)
    requires T == [Number(2.0), Symbol('*'), Number(3.0), Symbol('+'), Number(4.0)]
    ensures NoEmptyGroup(T)
    ensures Build(T, 0, 0, Nil) == Outcome(true, 5, 0, Op('+', Op('*', N(2.0), N(3.0)), N(4.0)))
  {
    NoOpenNoEmptyGroup(T);
    var times, plus := Op('*', N(2.0), Nil), Op('+', Op('*', N(2.0), N(3.0)), Nil);
    assert Reduce([N(2.0)], '*', -1) == [times];
    assert [times, N(3.0)][1..] == [N(3.0)];
    assert Chain([times, N(3.0)]) == SetRight(times, N(3.0));
    assert Reduce([times, N(3.0)], '+', 2) == [plus];
    assert Flat(T);
    FirstOperand(T, Nil);
    OperatorOperand(T, 1, 0, -1, [N(2.0)], Nil);
    assert [times] + [N(3.0)] == [times, N(3.0)];
    OperatorOperand(T, 3, 0, 2, [times, N(3.0)], Nil);
    assert [plus] + [N(4.0)] == [plus, N(4.0)];
    assert [plus, N(4.0)][1..] == [N(4.0)];
    assert Chain([plus, N(4.0)]) == SetRight(plus, N(4.0));
  }

  /** `2 *` is accepted: the higher-priority case has no end-of-input test, and
      the product is left without a right operand. */
  lemma TrailingOperatorAccepted()
    ensures NoEmptyGroup([Number(2.0), Symbol('*')])
    ensures Build([Number(2.0), Symbol('*')], 0, 0, Nil) == Outcome(true, 2, 0, Op('*', N(2.0), Nil))
  {
  }

  /** `2 + 3 -` is rejected: the equal-priority case tests for the end of input. */
  lemma TrailingOperatorRejected()
    ensures NoEmptyGroup([Number(2.0), Symbol('+'), Number(3.0), Symbol('-')])
    ensures Build([Number(2.0), Symbol('+'), Number(3.0), Symbol('-')], 0, 0, Nil) == Outcome(false, 4, 0, Nil)
  {
  }

  /** `2 3` is rejected, and the operand read so far is still drained into the
      output slot. */
  lemma AdjacentOperands()
    ensures NoEmptyGroup([Number(2.0), Number(3.0)])
    ensures Build([Number(2.0), Number(3.0)], 0, 0, Nil) == Outcome(false, 2, 0, N(2.0))
  {
  }

  /** `+ 2` is rejected: an operator needs a tree on the stack. */
  lemma LeadingOperator()
    ensures NoEmptyGroup([Symbol('+'), Number(2.0)])
    ensures Build([Symbol('+'), Number(2.0)], 0, 0, Nil) == Outcome(false, 1, 0, Nil)
  {
  }

  /** `2 + * 3` is rejected: an operator directly follows an operator. */
  lemma DoubleOperator()
    ensures NoEmptyGroup([Number(2.0), Symbol('+'), Symbol('*'), Number(3.0)])
    ensures Build([Number(2.0), Symbol('+'), Symbol('*'), Number(3.0)], 0, 0, Nil) == Outcome(false, 3, 0, N(2.0))
  {
  }

  /** `( 2` is rejected: the input ends with the counter at 1. */
  lemma UnclosedGroup()
    ensures NoEmptyGroup([Symbol('('), Number(2.0)])
    ensures Build([Symbol('('), Number(2.0)], 0, 0, Nil) == Outcome(false, 2, 1, Nil)
  {
  }

  /** `2 ( 3 )` is accepted: the adjacent-operand test after `2` looks only for a
      number or identifier, the `(` case does not look at the stack, and the
      drain makes the group the right child of the leaf `2`. */
  lemma GroupAfterOperand()
    ensures NoEmptyGroup([Number(2.0), Symbol('('), Number(3.0), Symbol(')')])
    ensures Build([Number(2.0), Symbol('('), Number(3.0), Symbol(')')], 0, 0, Nil)
      == Outcome(true, 4, 0, Node(Number(2.0), Nil, N(3.0)))
  {
    var T := [Number(2.0), Symbol('('), Number(3.0), Symbol(')')];
    assert NoEmptyGroup(T[3..]);
    assert NoEmptyGroup(T[2..]);
    assert NoEmptyGroup(T[1..]);
    calc {
      Build(T, 2, 1, Nil);
      Loop(T, 2, 1, -1, [], Nil);
      Rest(T, 2, 1, -1, -1, [], Nil);
      Operand(T, 2, 1, -1, [], Nil);
      Loop(T, 3, 1, -1, [N(3.0)], Nil);
      Rest(T, 3, 1, -1, -1, [N(3.0)], Nil);
      Finish(T, 4, 0, [N(3.0)], Nil, true);
    }
    calc {
      Build(T, 0, 0, Nil);
      Loop(T, 0, 0, -1, [], Nil);
      Rest(T, 0, 0, -1, -1, [], Nil);
      Operand(T, 0, 0, -1, [], Nil);
      Loop(T, 1, 0, -1, [N(2.0)], Nil);
      { assert [N(2.0)] + [N(3.0)] == [N(2.0), N(3.0)]; }
      Finish(T, 4, 0, [N(2.0), N(3.0)], Nil, true);
    }
    assert [N(2.0), N(3.0)][1..] == [N(3.0)];
  }

  /** `( 3 ) 2` is accepted: the operand after the group is pushed with no test
      against the group, and the drain makes `2` the right child of the leaf `3`. */
  lemma OperandAfterGroup()
    ensures NoEmptyGroup([Symbol('('), Number(3.0), Symbol(')'), Number(2.0)])
    ensures Build([Symbol('('), Number(3.0), Symbol(')'), Number(2.0)], 0, 0, Nil)
      == Outcome(true, 4, 0, Node(Number(3.0), Nil, N(2.0)))
  {
    var T := [Symbol('('), Number(3.0), Symbol(')'), Number(2.0)];
    assert NoEmptyGroup(T[3..]);
    assert NoEmptyGroup(T[2..]);
    assert NoEmptyGroup(T[1..]);
    calc {
      Build(T, 1, 1, Nil);
      Loop(T, 1, 1, -1, [], Nil);
      Rest(T, 1, 1, -1, -1, [], Nil);
      Operand(T, 1, 1, -1, [], Nil);
      Loop(T, 2, 1, -1, [N(3.0)], Nil);
      Rest(T, 2, 1, -1, -1, [N(3.0)], Nil);
      Finish(T, 3, 0, [N(3.0)], Nil, true);
    }
    calc {
      Build(T, 0, 0, Nil);
      Loop(T, 0, 0, -1, [], Nil);
      Group(T, 0, 0, -1, [], Nil);
      Rest(T, 3, 0, -1, 0, [N(3.0)], Nil);
      Operand(T, 3, 0, 0, [N(3.0)], Nil);
      { assert [N(3.0)] + [N(2.0)] == [N(3.0), N(2.0)]; }
      Finish(T, 4, 0, [N(3.0), N(2.0)], Nil, true);
    }
    assert [N(3.0), N(2.0)][1..] == [N(2.0)];
  }

  /** The token list `( 2 + 3 ) * 4` has no empty group. */
  lemma GroupedTokens(T: seq<Token>)
    requires T == [Symbol('('), Number(2.0), Symbol('+'), Number(3.0), Symbol(')'), Symbol('*'), Number(4.0)]
    ensures NoEmptyGroup(T)
  {
    assert NoEmptyGroup(T[6..]);
    assert T[5..][1..] == T[6..];
    assert T[4..][1..] == T[5..];
    assert T[3..][1..] == T[4..];
    assert T[2..][1..] == T[3..];
    assert T[1..][1..] == T[2..];
    assert NoEmptyGroup(T[5..]);
    assert NoEmptyGroup(T[4..]);
    assert NoEmptyGroup(T[3..]);
    assert NoEmptyGroup(T[2..]);
    assert NoEmptyGroup(T[1..]);
  }

  /** Inside `( 2 + 3 ) * 4`, the recursive call reads `2 + 3 )` and returns
      the sum, with the counter back at 0. */
  lemma GroupedSum(T: seq<Token>)
    requires T == [Symbol('('), Number(2.0), Symbol('+'), Number(3.0), Symbol(')'), Symbol('*'), Number(4.0)]
    ensures NoEmptyGroup(T)
    ensures Build(T, 1, 1, Nil) == Outcome(true, 5, 0, Op('+', N(2.0), N(3.0)))
  {
    GroupedTokens(T);
    var plus := Op('+', N(2.0), Nil);
    assert Reduce([N(2.0)], '+', -1) == [plus];
    assert [] + [N(2.0)] == [N(2.0)];
    assert [plus] + [N(3.0)] == [plus, N(3.0)];
    assert [plus, N(3.0)][1..] == [N(3.0)];
    calc {
      Build(T, 1, 1, Nil);
      Loop(T, 1, 1, -1, [], Nil);
      Rest(T, 1, 1, -1, -1, [], Nil);
      Operand(T, 1, 1, -1, [], Nil);
      Loop(T, 2, 1, -1, [N(2.0)], Nil);
      Rest(T, 2, 1, -1, -1, [N(2.0)], Nil);
      Operand(T, 3, 1, 1, [plus], Nil);
      Loop(T, 4, 1, 1, [plus, N(3.0)], Nil);
      Rest(T, 4, 1, 1, 1, [plus, N(3.0)], Nil);
      Finish(T, 5, 0, [plus, N(3.0)], Nil, true);
    }
    assert Chain([plus, N(3.0)]) == SetRight(plus, N(3.0));
  }

  /** `( 2 + 3 ) * 4`: the group is built by the recursive call, pushed, and
      becomes the left operand of the product. */
  lemma GroupedSumTimes(T: seq<Token>)
    requires T == [Symbol('('), Number(2.0), Symbol('+'), Number(3.0), Symbol(')'), Symbol('*'), Number(4.0)]
    ensures NoEmptyGroup(T)
    ensures Build(T, 0, 0, Nil) == Outcome(true, 7, 0, Op('*', Op('+', N(2.0), N(3.0)), N(4.0)))
  {
    GroupedSum(T);
    var sum := Op('+', N(2.0), N(3.0));
    var times := Op('*', sum, Nil);
    LoopGroup(T, 0, 0, -1, [], Nil);
    assert [] + [sum] == [sum];
    assert Reduce([sum], '*', -1) == [times];
    assert [times] + [N(4.0)] == [times, N(4.0)];
    assert [times, N(4.0)][1..] == [N(4.0)];
    calc {
      Build(T, 0, 0, Nil);
      Loop(T, 0, 0, -1, [], Nil);
      Rest(T, 5, 0, -1, 0, [sum], Nil);
      Operand(T, 6, 0, 2, [times], Nil);
      Finish(T, 7, 0, [times, N(4.0)], Nil, true);
    }
    assert Chain([times, N(4.0)]) == SetRight(times, N(4.0));
  }

  /** `2 * ( 3 )` is rejected: the opening parenthesis is a symbol, so it is read
      as a second operator. */
  lemma GroupAfterOperator()
    ensures NoEmptyGroup([Number(2.0), Symbol('*'), Symbol('('), Number(3.0), Symbol(')')])
    ensures Build([Number(2.0), Symbol('*'), Symbol('('), Number(3.0), Symbol(')')], 0, 0, Nil)
      == Outcome(false, 3, 0, N(2.0))
  {
  }
}
