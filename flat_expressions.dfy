/** The builder on operator expressions without parentheses: operands at the
    even positions and one of `+ - * /` at the odd ones.  On such input the
    builder succeeds, reads every token and returns the usual precedence parse:
    `*` and `/` bind tighter than `+` and `-`, and each level associates to the
    left. */
module FlatExpressions {
  import opened ExpTrees
  import opened Builder

  /** An operator of the lower priority, `+` or `-`. */
  predicate IsLow(tok: Token) {
    tok.Symbol? && Precedence(tok.symbol) == 1
  }

  /** An operator of the higher priority, `*` or `/`. */
  predicate IsHigh(tok: Token) {
    tok.Symbol? && Precedence(tok.symbol) == 2
  }

  /** Operand, operator, operand, ..., operand. */
  predicate Flat(T: seq<Token>) {
    |T| % 2 == 1 &&
    forall i :: 0 <= i < |T| ==> if i % 2 == 0 then IsOperand(T[i]) else IsArith(T[i])
  }

  lemma FlatPrefix(T: seq<Token>, n: nat)
    requires Flat(T) && n % 2 == 1 && n <= |T|
    ensures Flat(T[..n])
  {
  }

  lemma FlatSuffix(T: seq<Token>, n: nat)
    requires Flat(T) && n % 2 == 0 && n < |T|
    ensures Flat(T[n..])
  {
    forall i | 0 <= i < |T| - n
      ensures (i + n) % 2 == i % 2
    {
    }
  }

  lemma OperatorsAtOdd(T: seq<Token>, k: nat)
    requires Flat(T) && k < |T| && !IsOperand(T[k])
    ensures k % 2 == 1 && (k + 1) % 2 == 0 && k + 1 < |T|
  {
  }

  /** Token lists without an opening parenthesis have no empty group. */
  lemma {:induction false} NoOpenNoEmptyGroup(T: seq<Token>)
    requires forall i :: 0 <= i < |T| ==> T[i] != Symbol('(')
    ensures NoEmptyGroup(T)
    decreases |T|
  {
    if |T| >= 2 {
      NoOpenNoEmptyGroup(T[1..]);
    }
  }

  /** The position of the last `+` or `-` before `n`, or -1. */
  function LastLow(T: seq<Token>, n: nat): (k: int)
    requires n <= |T|
    ensures -1 <= k < n
    ensures k >= 0 ==> IsLow(T[k])
    ensures forall j :: k < j < n ==> !IsLow(T[j])
  {
    if n == 0 then -1 else if IsLow(T[n - 1]) then n - 1 else LastLow(T, n - 1)
  }

  /** The precedence parse: the root is the last `+` or `-`, or, when there is
      none, the last `*` or `/`. */
  function Parse(T: seq<Token>): Tree
    requires Flat(T)
    decreases |T|
  {
    if |T| == 1 then Leaf(T[0])
    else
      var k := LastLow(T, |T|);
      if k >= 0 then
        OperatorsAtOdd(T, k);
        FlatPrefix(T, k);
        FlatSuffix(T, k + 1);
        Node(T[k], Parse(T[..k]), Parse(T[k + 1..]))
      else
        FlatPrefix(T, |T| - 2);
        Node(T[|T| - 2], Parse(T[..|T| - 2]), Leaf(T[|T| - 1]))
  }

  /** Every flat expression parses to a completed tree. */
  lemma {:induction false} ParseWellFormed(T: seq<Token>)
    requires Flat(T)
    ensures WellFormed(Parse(T))
    decreases |T|
  {
    if |T| > 1 {
      var k := LastLow(T, |T|);
      if k >= 0 {
        OperatorsAtOdd(T, k);
        FlatPrefix(T, k);
        FlatSuffix(T, k + 1);
        ParseWellFormed(T[..k]);
        ParseWellFormed(T[k + 1..]);
      } else {
        FlatPrefix(T, |T| - 2);
        ParseWellFormed(T[..|T| - 2]);
        assert IsOperand(T[|T| - 1]);
      }
    }
  }

  /** A left-to-right reading: the sum read so far (its left operand and its
      `+` or `-`), if any, and the product being read. */
  datatype Sum = NoSum | Sum(left: Tree, op: Token)
  datatype Partial = Partial(sum: Sum, term: Tree)

  function Close(P: Partial): Tree {
    match P.sum
    case NoSum => P.term
    case Sum(a, op) => Node(op, a, P.term)
  }

  /** Reading operator `op` and operand `o`. */
  function Step(P: Partial, op: Token, o: Token): Partial {
    if IsHigh(op) then Partial(P.sum, Node(op, P.term, Leaf(o)))
    else Partial(Sum(Close(P), op), Leaf(o))
  }

  /** The shape of a reading: the product is an operand leaf or a `*`/`/` node
      with a present right child, and the pending sum is a `+` or `-`. */
  predicate Shaped(P: Partial) {
    && P.term.Node?
    && (P.term.tok.Symbol? ==> IsHigh(P.term.tok) && P.term.right.Node?)
    && (P.sum.Sum? ==> IsLow(P.sum.op))
  }

  function Read(T: seq<Token>): (P: Partial)
    requires Flat(T)
    ensures Shaped(P)
    decreases |T|
  {
    if |T| == 1 then Partial(NoSum, Leaf(T[0]))
    else
      FlatPrefix(T, |T| - 2);
      Step(Read(T[..|T| - 2]), T[|T| - 2], T[|T| - 1])
  }

  /** The builder's stack for a reading: the pending sum's node awaiting its
      right child, then the product split into its node awaiting the right
      operand and that operand. */
  function Encode(P: Partial): (S: seq<Tree>)
    requires Shaped(P)
    ensures Pending(S) && 1 <= |S| <= 3
    ensures Rank(P) == -1 <==> |S| == 1
  {
    (if P.sum.Sum? then [Node(P.sum.op, P.sum.left, Nil)] else [])
    + (if P.term.tok.Symbol? then [Node(P.term.tok, P.term.left, Nil), P.term.right] else [P.term])
  }

  /** The builder's priority marker for a reading. */
  function Rank(P: Partial): int {
    if P.term.Node? && P.term.tok.Symbol? then 2 else if P.sum.Sum? then 1 else -1
  }

  lemma ChainEncode(P: Partial)
    requires Shaped(P)
    ensures Chain(Encode(P)) == Close(P)
  {
    var t := P.term;
    if P.sum.NoSum? && t.tok.Symbol? {
      var S := [Node(t.tok, t.left, Nil), t.right];
      assert Encode(P) == S;
      assert S[1..] == [t.right];
    } else if P.sum.Sum? && !t.tok.Symbol? {
      var S := [Node(P.sum.op, P.sum.left, Nil), t];
      assert Encode(P) == S;
      assert S[1..] == [t];
    } else if P.sum.Sum? {
      var S := [Node(P.sum.op, P.sum.left, Nil), Node(t.tok, t.left, Nil), t.right];
      assert Encode(P) == S;
      assert S[1..] == [Node(t.tok, t.left, Nil), t.right];
      assert S[1..][1..] == [t.right];
      assert Chain(S[1..]) == t;
    }
  }

  /** One operator and operand on the stack is one step of the reading. */
  lemma StepEncode(P: Partial, op: Token, o: Token)
    requires Shaped(P) && IsArith(op) && IsOperand(o)
    ensures Precedence(op.symbol) == Rank(P) ==> |Encode(P)| >= 2
    ensures Reduce(Encode(P), op.symbol, Rank(P)) + [Leaf(o)] == Encode(Step(P, op, o))
    ensures Rank(Step(P, op, o)) == Precedence(op.symbol)
  {
    if P.sum.NoSum? && !P.term.tok.Symbol? {
      StepLeaf(P, op, o);
    } else if P.sum.NoSum? {
      StepProduct(P, op, o);
    } else if !P.term.tok.Symbol? {
      StepSumLeaf(P, op, o);
    } else {
      StepSumProduct(P, op, o);
    }
  }

  /** The stack after reading `op` and `o` is the encoding of the next reading. */
  predicate StepAgrees(P: Partial, op: Token, o: Token)
    requires Shaped(P) && IsArith(op) && IsOperand(o)
  {
    && (Precedence(op.symbol) == Rank(P) ==> |Encode(P)| >= 2)
    && Reduce(Encode(P), op.symbol, Rank(P)) + [Leaf(o)] == Encode(Step(P, op, o))
    && Rank(Step(P, op, o)) == Precedence(op.symbol)
  }

  lemma StepLeaf(P: Partial, op: Token, o: Token)
    requires Shaped(P) && IsArith(op) && IsOperand(o)
    requires P.sum.NoSum? && !P.term.tok.Symbol?
    ensures StepAgrees(P, op, o)
  {
    var t := P.term;
    assert Encode(P) == [t];
    assert Reduce([t], op.symbol, -1) == [Node(op, t, Nil)];
  }

  lemma StepProduct(P: Partial, op: Token, o: Token)
    requires Shaped(P) && IsArith(op) && IsOperand(o)
    requires P.sum.NoSum? && P.term.tok.Symbol?
    ensures StepAgrees(P, op, o)
  {
    var t := P.term;
    var S := [Node(t.tok, t.left, Nil), t.right];
    assert Encode(P) == S;
    assert Chain(S) == t by { ChainEncode(P); }
    assert Reduce(S, op.symbol, 2) == [Node(op, t, Nil)];
  }

  lemma StepSumLeaf(P: Partial, op: Token, o: Token)
    requires Shaped(P) && IsArith(op) && IsOperand(o)
    requires P.sum.Sum? && !P.term.tok.Symbol?
    ensures StepAgrees(P, op, o)
  {
    var t := P.term;
    var top := Node(P.sum.op, P.sum.left, Nil);
    assert Encode(P) == [top, t];
    if IsHigh(op) {
      assert Reduce([top, t], op.symbol, 1) == [top, Node(op, t, Nil)];
    } else {
      assert Reduce([top, t], op.symbol, 1) == [Node(op, Close(P), Nil)];
    }
  }

  lemma StepSumProduct(P: Partial, op: Token, o: Token)
    requires Shaped(P) && IsArith(op) && IsOperand(o)
    requires P.sum.Sum? && P.term.tok.Symbol?
    ensures StepAgrees(P, op, o)
  {
    var t := P.term;
    var top := Node(P.sum.op, P.sum.left, Nil);
    var S := [top, Node(t.tok, t.left, Nil), t.right];
    assert Encode(P) == S;
    if IsHigh(op) {
      assert Reduce(S, op.symbol, 2) == [top, Node(op, t, Nil)];
    } else {
      assert Chain(S) == Close(P) by { ChainEncode(P); }
      assert Reduce(S, op.symbol, 2) == [Node(op, Close(P), Nil)];
    }
  }

  /** An operator followed by an operand: one trip round the builder's loop
      reduces the stack and pushes the operand. */
  lemma OperatorOperand(T: seq<Token>, c: nat, p: int, prio: int, S: seq<Tree>, tp: Tree)
    requires c + 1 < |T| && p >= 0 && NoEmptyGroup(T)
    requires IsArith(T[c]) && IsOperand(T[c + 1])
    requires Pending(S) && |S| >= 1 && (prio == -1 || |S| >= 2)
    requires Precedence(T[c].symbol) == prio ==> |S| >= 2
    ensures c + 2 == |T| ==>
      Loop(T, c, p, prio, S, tp) == Finish(T, c + 2, p, Reduce(S, T[c].symbol, prio) + [Leaf(T[c + 1])], tp, true)
    ensures c + 2 < |T| && !IsOperand(T[c + 2]) ==>
      Loop(T, c, p, prio, S, tp) == Loop(T, c + 2, p, Precedence(T[c].symbol), Reduce(S, T[c].symbol, prio) + [Leaf(T[c + 1])], tp)
  {
    calc {
      Loop(T, c, p, prio, S, tp);
      Rest(T, c, p, prio, prio, S, tp);
      Operand(T, c + 1, p, Precedence(T[c].symbol), Reduce(S, T[c].symbol, prio), tp);
    }
  }

  /** From an operator at `c` onwards the builder completes the reading. */
  lemma {:induction false} FlatLoop(T: seq<Token>, c: nat, tp: Tree)
    requires Flat(T) && NoEmptyGroup(T) && c % 2 == 1 && c < |T|
    ensures Flat(T[..c])
    ensures Loop(T, c, 0, Rank(Read(T[..c])), Encode(Read(T[..c])), tp) == Outcome(true, |T|, 0, Close(Read(T)))
    decreases |T| - c
  {
    OperatorsAtOdd(T, c);
    ReadExtend(T, c);
    var P := Read(T[..c]);
    var op, o := T[c], T[c + 1];
    assert IsArith(op) && IsOperand(o);
    StepEncode(P, op, o);
    OperatorOperand(T, c, 0, Rank(P), Encode(P), tp);
    if c + 2 < |T| {
      assert IsArith(T[c + 2]);
      FlatLoop(T, c + 2, tp);
    } else {
      assert T[..c + 2] == T;
      ChainEncode(Read(T));
    }
  }

  /** Reading two more tokens is one more step. */
  lemma ReadExtend(T: seq<Token>, c: nat)
    requires Flat(T) && c % 2 == 1 && c + 2 <= |T|
    ensures Flat(T[..c]) && Flat(T[..c + 2])
    ensures Read(T[..c + 2]) == Step(Read(T[..c]), T[c], T[c + 1])
  {
    FlatPrefix(T, c);
    FlatPrefix(T, c + 2);
    assert T[..c + 2][..c] == T[..c];
  }

  /** The builder reads a flat expression completely, succeeds, and returns its
      precedence parse, which is a completed tree. */
  lemma FlatBuild(T: seq<Token>, tp: Tree)
    requires Flat(T)
    ensures NoEmptyGroup(T)
    ensures Build(T, 0, 0, tp) == Outcome(true, |T|, 0, Parse(T))
    ensures WellFormed(Parse(T))
  {
    NoOpenNoEmptyGroup(T);
    ParseWellFormed(T);
    ReadParse(T);
    FirstOperand(T, tp);
    if |T| > 1 {
      FlatLoop(T, 1, tp);
      assert T[..1] == [T[0]];
    }
  }

  /** The first token of a flat expression is pushed as a leaf, and the loop
      goes on at the first operator, if there is one. */
  lemma FirstOperand(T: seq<Token>, tp: Tree)
    requires Flat(T) && NoEmptyGroup(T)
    ensures Build(T, 0, 0, tp) ==
      if |T| == 1 then Finish(T, 1, 0, [Leaf(T[0])], tp, true)
      else Loop(T, 1, 0, -1, [Leaf(T[0])], tp)
  {
    assert IsOperand(T[0]);
    assert |T| > 1 ==> IsArith(T[1]);
    assert [] + [Leaf(T[0])] == [Leaf(T[0])];
    calc {
      Build(T, 0, 0, tp);
      Loop(T, 0, 0, -1, [], tp);
      Rest(T, 0, 0, -1, -1, [], tp);
      Operand(T, 0, 0, -1, [], tp);
    }
  }

  /** What the reading of `T` holds according to the precedence parse: the
      part before the last `+` or `-` as the pending sum, and the part after it
      as the product. */
  function Expected(T: seq<Token>): Partial
    requires Flat(T)
  {
    var k := LastLow(T, |T|);
    if k >= 0 then
      OperatorsAtOdd(T, k);
      FlatPrefix(T, k);
      FlatSuffix(T, k + 1);
      Partial(Sum(Parse(T[..k]), T[k]), Parse(T[k + 1..]))
    else
      Partial(NoSum, Parse(T))
  }

  lemma CloseExpected(T: seq<Token>)
    requires Flat(T)
    ensures Close(Expected(T)) == Parse(T)
  {
    if |T| == 1 {
      assert !IsLow(T[0]) by { assert IsOperand(T[0]); }
    }
  }

  lemma {:induction false} LastLowPrefix(T: seq<Token>, n: nat, m: nat)
    requires m <= n <= |T|
    ensures LastLow(T[..n], m) == LastLow(T, m)
  {
    if m > 0 {
      LastLowPrefix(T, n, m - 1);
    }
  }

  /** The left-to-right reading holds what the precedence parse says. */
  lemma {:induction false} ReadExpected(T: seq<Token>)
    requires Flat(T)
    ensures Read(T) == Expected(T)
    decreases |T|
  {
    if |T| == 1 {
      assert !IsLow(T[0]) by { assert IsOperand(T[0]); }
    } else {
      FlatPrefix(T, |T| - 2);
      ReadExpected(T[..|T| - 2]);
      ExtendExpected(T);
    }
  }

  /** A flat expression of more than one token ends with an operator and an
      operand. */
  lemma LastOperator(T: seq<Token>)
    requires Flat(T) && |T| > 1
    ensures IsArith(T[|T| - 2]) && IsOperand(T[|T| - 1])
  {
    assert (|T| - 1) % 2 == 0 && (|T| - 2) % 2 == 1;
  }

  /** Reading one more operator and operand keeps the reading what the
      precedence parse says. */
  lemma ExtendExpected(T: seq<Token>)
    requires Flat(T) && |T| > 1
    requires Flat(T[..|T| - 2]) && Read(T[..|T| - 2]) == Expected(T[..|T| - 2])
    ensures Read(T) == Expected(T)
  {
    var n := |T|;
    LastOperator(T);
    if IsHigh(T[n - 2]) {
      LastLowPrefix(T, n - 2, n - 2);
      if LastLow(T, n - 2) >= 0 {
        ProductAfterSum(T);
      } else {
        ProductWithoutSum(T);
      }
    } else {
      SumAfterReading(T);
    }
  }

  /** A `*` or `/` with no `+` or `-` before it extends the only product. */
  lemma ProductWithoutSum(T: seq<Token>)
    requires Flat(T) && |T| > 1 && IsHigh(T[|T| - 2]) && IsOperand(T[|T| - 1])
    requires Flat(T[..|T| - 2]) && Read(T[..|T| - 2]) == Expected(T[..|T| - 2])
    requires LastLow(T[..|T| - 2], |T| - 2) == LastLow(T, |T| - 2) == -1
    ensures Read(T) == Expected(T)
  {
    assert LastLow(T, |T|) == -1;
  }

  /** A `+` or `-` closes the reading so far into the left operand of a sum. */
  lemma SumAfterReading(T: seq<Token>)
    requires Flat(T) && |T| > 1 && IsLow(T[|T| - 2]) && IsOperand(T[|T| - 1])
    requires Flat(T[..|T| - 2]) && Read(T[..|T| - 2]) == Expected(T[..|T| - 2])
    ensures Read(T) == Expected(T)
  {
    CloseExpected(T[..|T| - 2]);
    assert T[|T| - 1..] == [T[|T| - 1]];
  }

  /** A `*` or `/` after the last `+` or `-` extends the product being read. */
  lemma ProductAfterSum(T: seq<Token>)
    requires Flat(T) && |T| > 1 && IsHigh(T[|T| - 2]) && IsOperand(T[|T| - 1])
    requires Flat(T[..|T| - 2]) && Read(T[..|T| - 2]) == Expected(T[..|T| - 2])
    requires LastLow(T[..|T| - 2], |T| - 2) == LastLow(T, |T| - 2) >= 0
    ensures Read(T) == Expected(T)
  {
    var n := |T|;
    var T', op, o := T[..n - 2], T[n - 2], T[n - 1];
    var k := LastLow(T, n - 2);
    assert LastLow(T, n) == k;
    assert |T'| == n - 2 && LastLow(T', n - 2) == k;
    ReadLast(T);
    ExpectedAt(T, k);
    ExpectedAt(T', k);
    TailProduct(T, k);
    assert T'[..k] == T[..k];
  }

  /** The product after the last `+` or `-` at `k` ends with the last operator
      and operand of `T`. */
  lemma TailProduct(T: seq<Token>, k: nat)
    requires Flat(T) && |T| > 1 && k < |T| - 2 && LastLow(T, |T|) == k
    requires Flat(T[k + 1..]) && Flat(T[..|T| - 2][k + 1..])
    ensures Parse(T[k + 1..]) == Node(T[|T| - 2], Parse(T[..|T| - 2][k + 1..]), Leaf(T[|T| - 1]))
  {
    var U := T[k + 1..];
    NoLowAfter(T, k);
    assert U[..|U| - 2] == T[..|T| - 2][k + 1..];
    ParseProduct(U);
  }

  /** With its last `+` or `-` at `k`, the expected reading of `T` is the parse
      before `k` as the pending sum and the parse after it as the product. */
  lemma ExpectedAt(T: seq<Token>, k: nat)
    requires Flat(T) && k < |T| && LastLow(T, |T|) == k
    ensures k % 2 == 1 && Flat(T[..k]) && Flat(T[k + 1..])
    ensures Expected(T) == Partial(Sum(Parse(T[..k]), T[k]), Parse(T[k + 1..]))
  {
    OperatorsAtOdd(T, k);
    FlatPrefix(T, k);
    FlatSuffix(T, k + 1);
  }

  /** The reading of `T` is one step past the reading of `T` without its last
      operator and operand. */
  lemma ReadLast(T: seq<Token>)
    requires Flat(T) && |T| > 1
    ensures Flat(T[..|T| - 2])
    ensures Read(T) == Step(Read(T[..|T| - 2]), T[|T| - 2], T[|T| - 1])
  {
    FlatPrefix(T, |T| - 2);
  }

  lemma NoLowAfter(T: seq<Token>, k: nat)
    requires k < |T| && LastLow(T, |T|) == k
    ensures LastLow(T[k + 1..], |T| - k - 1) == -1
  {
  }

  /** Without `+` or `-`, the root is the last operator. */
  lemma ParseProduct(U: seq<Token>)
    requires Flat(U) && |U| > 1 && LastLow(U, |U|) == -1
    ensures Flat(U[..|U| - 2])
    ensures Parse(U) == Node(U[|U| - 2], Parse(U[..|U| - 2]), Leaf(U[|U| - 1]))
  {
    FlatPrefix(U, |U| - 2);
  }

  /** The left-to-right reading agrees with the precedence parse. */
  lemma ReadParse(T: seq<Token>)
    requires Flat(T)
    ensures Close(Read(T)) == Parse(T)
  {
    ReadExpected(T);
    CloseExpected(T);
  }
}
