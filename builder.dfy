/** The precedence-driven tree builder.

    The builder reads a token list through a cursor, keeps partial trees on a
    stack, and recurses on an opening parenthesis.  An operator node is created
    with an absent right child; the right child is filled in later, either when
    an operator of equal or lower priority arrives or when the stack is drained
    at the end.

    `Build`, `Loop`, `Group`, `Rest`, `Operand` and `Finish` give the builder's
    result as a function of its inputs, one function per stage of the loop body:
    the loop test (`Loop`), the parenthesis case (`Group`), the closing-parenthesis and operator
    cases (`Rest`), the operand case and the adjacent-operand test (`Operand`),
    and the drain with the final parenthesis test (`Finish`).  `BuildTree` is the
    loop itself, over a `Stack`, proved to compute `Build`. */
module Builder {
  import opened ExpTrees
  import opened Stacks

  /** What a call returns: the success flag, the cursor and the parenthesis
      counter it leaves behind, and the tree in the output slot. */
  datatype Outcome = Outcome(ok: bool, cursor: nat, paren: int, tree: Tree)

  /** Operator priority: 1 for `+ -`, 2 for `* /`, 0 for any other symbol. */
  function Precedence(c: char): (r: int)
    ensures 0 <= r <= 2
    ensures r > 0 <==> IsOperator(c)
    ensures r == 2 <==> (c == '*' || c == '/')
  {
    match c
    case '+' => 1
    case '-' => 1
    case '*' => 2
    case '/' => 2
    case _ => 0
  }

  /** `n` with its right child replaced by `r` (the program's `n->right = r`). */
  function SetRight(n: Tree, r: Tree): Tree {
    match n
    case Nil => Nil
    case Node(tok, l, _) => Node(tok, l, r)
  }

  /** Every stacked tree is a node, so the builder may assign its right child. */
  predicate Pending(S: seq<Tree>) {
    forall i :: 0 <= i < |S| ==> S[i].Node?
  }

  /** The stack linked bottom to top along right children: each stacked node
      receives the tree above it as its right child. */
  function Chain(S: seq<Tree>): (t: Tree)
    requires |S| > 0
    ensures S[0].Node? ==> t.Node? && t.tok == S[0].tok && t.left == S[0].left
  {
    if |S| == 1 then S[0] else SetRight(S[0], Chain(S[1..]))
  }

  /** Popping `a` and attaching the tree above it as its right child leaves the
      chain of the stack unchanged. */
  lemma {:induction false} ChainAttach(P: seq<Tree>, a: Tree, f: Tree)
    ensures Chain(P + [a, f]) == Chain(P + [SetRight(a, f)])
  {
    if P != [] {
      assert (P + [a, f])[1..] == P[1..] + [a, f];
      assert (P + [SetRight(a, f)])[1..] == P[1..] + [SetRight(a, f)];
      ChainAttach(P[1..], a, f);
    }
  }

  /** No opening parenthesis is directly followed by a closing one.  The program
      pushes its output slot unread after an empty group `()`, where that slot
      holds an uninitialised or stale pointer; the model excludes such input. */
  predicate NoEmptyGroup(T: seq<Token>)
    decreases |T|
  {
    |T| < 2 || ((T[0] != Symbol('(') || T[1] != Symbol(')')) && NoEmptyGroup(T[1..]))
  }

  lemma {:induction false} NoEmptyGroupAt(T: seq<Token>, i: nat)
    requires NoEmptyGroup(T) && i < |T|
    ensures T[i] == Symbol('(') && i + 1 < |T| ==> T[i + 1] != Symbol(')')
    decreases i
  {
    if i > 0 && |T| >= 2 {
      NoEmptyGroupAt(T[1..], i - 1);
    }
  }

  /** A pair of neighbouring tokens the builder never accepts: two operands in a
      row, or an arithmetic operator directly followed by a symbol. */
  predicate BadPair(T: seq<Token>, i: nat)
    requires i + 1 < |T|
  {
    (IsOperand(T[i]) && IsOperand(T[i + 1])) || (IsArith(T[i]) && T[i + 1].Symbol?)
  }

  /** No bad pair lies wholly within the tokens `lo` up to `hi`. */
  predicate NoBadPair(T: seq<Token>, lo: nat, hi: nat) {
    forall i: nat :: lo <= i && i + 1 < hi && i + 1 < |T| ==> !BadPair(T, i)
  }

  /** A group read from `c` up to `m` joins the pairs read after it: neither the
      opening nor the closing parenthesis is part of a bad pair. */
  lemma GroupJoin(T: seq<Token>, c: nat, m: nat, hi: nat)
    requires c < m <= hi <= |T| && T[c] == Symbol('(')
    requires m == hi || T[m - 1] == Symbol(')')
    requires NoBadPair(T, c + 1, m) && NoBadPair(T, m, hi)
    ensures NoBadPair(T, c, hi)
  {
  }

  /** The drain after the loop: the stack linked into one tree (when it is not
      empty) is stored in the output slot, and the call fails at the end of input
      with unbalanced parentheses. */
  function Finish(T: seq<Token>, c: nat, p: int, S: seq<Tree>, tp: Tree, checker: bool): (r: Outcome)
    ensures r.cursor == c && r.paren == p
    ensures r.ok <==> checker && (c != |T| || p == 0)
    ensures |S| > 0 && S[0].Node? ==> r.tree.Node? && r.tree.tok == S[0].tok && r.tree.left == S[0].left
    ensures |S| == 0 ==> r.tree == tp
  {
    Outcome(checker && !(c == |T| && p != 0), c, p, if |S| == 0 then tp else Chain(S))
  }

  /** A call on the tokens from `c` with counter `p` and output slot `tp`. */
  function Build(T: seq<Token>, c: nat, p: int, tp: Tree): (r: Outcome)
    requires c <= |T| && p >= 0 && NoEmptyGroup(T)
    ensures c <= r.cursor <= |T|
    ensures r.ok ==> r.paren == p - 1 || (r.cursor == |T| && r.paren == 0)
    ensures r.ok && !r.tree.Node? ==>
      r.tree == tp && ((c == |T| && p == 0) || (c < |T| && T[c] == Symbol(')')))
    ensures r.ok && r.cursor == |T| ==> r.paren == 0
    ensures r.ok ==> NoBadPair(T, c, r.cursor)
    ensures r.ok ==> r.cursor == |T| || (c < r.cursor && T[r.cursor - 1] == Symbol(')'))
    ensures r.ok && c < |T| ==> !IsArith(T[c])
    decreases |T| - c, 4
  {
    Loop(T, c, p, -1, [], tp)
  }

  /** The loop test, with priority `prio` and stack `S`. */
  function Loop(T: seq<Token>, c: nat, p: int, prio: int, S: seq<Tree>, tp: Tree): (r: Outcome)
    requires c <= |T| && p >= 0 && NoEmptyGroup(T)
    requires Pending(S) && (prio == -1 || |S| >= 2)
    ensures c <= r.cursor <= |T|
    ensures r.ok ==> r.paren == p - 1 || (r.cursor == |T| && r.paren == 0)
    ensures r.ok && !r.tree.Node? ==>
      S == [] && r.tree == tp && ((c == |T| && p == 0) || (c < |T| && T[c] == Symbol(')')))
    ensures r.ok && r.cursor == |T| ==> r.paren == 0
    ensures r.ok ==> NoBadPair(T, c, r.cursor)
    ensures r.ok ==> r.cursor == |T| || (c < r.cursor && T[r.cursor - 1] == Symbol(')'))
    ensures r.ok && S == [] && c < |T| ==> !IsArith(T[c])
    decreases |T| - c, 3
  {
    if c == |T| then Finish(T, c, p, S, tp, true)
    else if T[c] == Symbol('(') then Group(T, c, p, prio, S, tp)
    else Rest(T, c, p, prio, prio, S, tp)
  }

  /** The parenthesis case: the recursive call on the tokens after `(` yields a
      node that is pushed, and the loop goes on with the token after the group,
      at a priority one above the current one. */
  function Group(T: seq<Token>, c: nat, p: int, prio: int, S: seq<Tree>, tp: Tree): (r: Outcome)
    requires c < |T| && p >= 0 && NoEmptyGroup(T) && T[c] == Symbol('(')
    requires Pending(S) && (prio == -1 || |S| >= 2)
    ensures c < r.cursor <= |T|
    ensures r.ok ==> r.paren == p - 1 || (r.cursor == |T| && r.paren == 0)
    ensures r.ok ==> r.tree.Node?
    ensures r.ok && r.cursor == |T| ==> r.paren == 0
    ensures r.ok ==> NoBadPair(T, c, r.cursor)
    ensures r.ok ==> r.cursor == |T| || T[r.cursor - 1] == Symbol(')')
    decreases |T| - c, 2
  {
    var g := Build(T, c + 1, p + 1, Nil);
    if !g.ok then Outcome(false, g.cursor, g.paren, tp)
    else
      NoEmptyGroupAt(T, c);
      if g.cursor == |T| then
        GroupJoin(T, c, g.cursor, g.cursor);
        Finish(T, g.cursor, g.paren, S + [g.tree], tp, true)
      else
        var r := Rest(T, g.cursor, g.paren, prio, prio + 1, S + [g.tree], tp);
        GroupJoin(T, c, g.cursor, if r.ok then r.cursor else g.cursor);
        r
  }

  /** Input read whole by a successful call has no two operands in a row, no
      arithmetic operator directly followed by a symbol, and does not start with
      an arithmetic operator, which would arrive on an empty stack. */
  lemma AcceptedInput(T: seq<Token>, tp: Tree)
    requires NoEmptyGroup(T)
    ensures var r := Build(T, 0, 0, tp);
      r.ok && r.cursor == |T| ==>
        (|T| > 0 ==> !IsArith(T[0])) &&
        (forall i :: 0 <= i && i + 1 < |T| ==> !(IsOperand(T[i]) && IsOperand(T[i + 1]))) &&
        (forall i :: 0 <= i && i + 1 < |T| ==> !(IsArith(T[i]) && T[i + 1].Symbol?))
  {
    var r := Build(T, 0, 0, tp);
    if r.ok && r.cursor == |T| {
      forall i | 0 <= i && i + 1 < |T|
        ensures !(IsOperand(T[i]) && IsOperand(T[i + 1])) && !(IsArith(T[i]) && T[i + 1].Symbol?)
      {
        assert !BadPair(T, i);
      }
    }
  }

  /** The closing-parenthesis and operator cases at token `c`; `cur` is the
      priority the current iteration has reached. */
  function Rest(T: seq<Token>, c: nat, p: int, prio: int, cur: int, S: seq<Tree>, tp: Tree): (r: Outcome)
    requires c < |T| && p >= 0 && NoEmptyGroup(T)
    requires Pending(S) && (prio == -1 || |S| >= 2) && (cur == -1 || |S| >= 1)
    ensures c <= r.cursor <= |T|
    ensures r.ok ==> r.paren == p - 1 || (r.cursor == |T| && r.paren == 0)
    ensures r.ok && !r.tree.Node? ==> S == [] && r.tree == tp && T[c] == Symbol(')')
    ensures r.ok && r.cursor == |T| ==> r.paren == 0
    ensures r.ok ==> NoBadPair(T, c, r.cursor)
    ensures r.ok ==> r.cursor == |T| || (c < r.cursor && T[r.cursor - 1] == Symbol(')'))
    ensures r.ok && S == [] ==> !IsArith(T[c])
    decreases |T| - c, 1
  {
    if T[c] == Symbol(')') then Finish(T, c + 1, p - 1, S, tp, true)
    else if T[c].Symbol? then
      var ch, c1 := T[c].symbol, c + 1;
      if c1 < |T| && T[c1].Symbol? then Finish(T, c1 + 1, p, S, tp, false)
      else if |S| == 0 then Finish(T, c1, p, S, tp, false)
      else
        var pr := Precedence(ch);
        if pr <= prio && c1 == |T| then Outcome(false, c1, p, tp)
        else Operand(T, c1, p, pr, Reduce(S, ch, prio), tp)
    else Operand(T, c, p, cur, S, tp)
  }

  /** The stack after operator `ch` arrives when the previous priority is `prio`.
      A higher priority wraps the top tree as the left child of a new node; an
      equal one makes the top tree the right child of the node below it and wraps
      that; a lower one links the whole stack into its chain and wraps that. */
  function Reduce(S: seq<Tree>, ch: char, prio: int): (S': seq<Tree>)
    requires Pending(S) && |S| >= 1 && (Precedence(ch) == prio ==> |S| >= 2)
    ensures Pending(S') && 1 <= |S'| <= |S|
    ensures S'[|S'| - 1].tok == Symbol(ch) && S'[|S'| - 1].right == Nil
  {
    var pr := Precedence(ch);
    if pr > prio then S[..|S| - 1] + [Node(Symbol(ch), S[|S| - 1], Nil)]
    else if pr == prio then S[..|S| - 2] + [Node(Symbol(ch), SetRight(S[|S| - 2], S[|S| - 1]), Nil)]
    else [Node(Symbol(ch), Chain(S), Nil)]
  }

  /** The operand case: a number or identifier at `c` is pushed as a leaf, and a
      second operand right after it is an error. */
  function Operand(T: seq<Token>, c: nat, p: int, cur: int, S: seq<Tree>, tp: Tree): (r: Outcome)
    requires c <= |T| && p >= 0 && NoEmptyGroup(T)
    requires Pending(S) && (cur == -1 || |S| >= 1)
    requires c < |T| ==> IsOperand(T[c])
    ensures c <= r.cursor <= |T|
    ensures r.ok ==> r.paren == p - 1 || (r.cursor == |T| && r.paren == 0)
    ensures r.ok && !r.tree.Node? ==> S == [] && r.tree == tp && c == |T| && p == 0
    ensures r.ok && r.cursor == |T| ==> r.paren == 0
    ensures r.ok ==> NoBadPair(T, c, r.cursor)
    ensures r.ok ==> r.cursor == |T| || (c < r.cursor && T[r.cursor - 1] == Symbol(')'))
    decreases |T| - c, 0
  {
    var S' := if c < |T| then S + [Leaf(T[c])] else S;
    var c' := if c < |T| then c + 1 else c;
    if c' < |T| && IsOperand(T[c']) then Finish(T, c' + 1, p, S', tp, false)
    else if c' == |T| then Finish(T, c', p, S', tp, true)
    else Loop(T, c', p, cur, S', tp)
  }

  /** Pops the whole stack, attaching each popped node's successor as its right
      child, and returns the bottom node: the chain of the stack. */
  method CollapseStack(st: Stack) returns (full: Tree)
    requires st.Valid() && st.top > 0
    modifies st
    ensures st.Valid() && st.arr == old(st.arr) && st.size == old(st.size)
    ensures st.Contents() == []
    ensures full == Chain(old(st.Contents()))
  {
    ghost var S0 := st.Contents();
    full := st.Pop();
    assert st.Contents() + [full] == S0;
    while !st.IsEmpty()
      invariant st.Valid() && st.arr == old(st.arr) && st.size == old(st.size)
      invariant |st.Contents()| < |S0| && st.Contents() == S0[..|st.Contents()|]
      invariant Chain(st.Contents() + [full]) == Chain(S0)
      decreases st.top
    {
      ghost var P := st.Contents();
      var tempo := st.Pop();
      assert P == st.Contents() + [tempo];
      ChainAttach(st.Contents(), tempo, full);
      assert st.Contents() + [tempo] + [full] == st.Contents() + [tempo, full];
      full := SetRight(tempo, full);
    }
    assert [full] == st.Contents() + [full];
  }

  /** The three priority cases of the program's operator branch, on the stack. */
  method ReduceStack(st: Stack, ch: char, prio: int)
    requires st.Valid() && Pending(st.Contents()) && st.top >= 1 && (Precedence(ch) == prio ==> st.top >= 2)
    modifies st, st.arr
    ensures st.Valid() && (st.arr == old(st.arr) || fresh(st.arr))
    ensures st.Contents() == Reduce(old(st.Contents()), ch, prio)
  {
    var pr := Precedence(ch);
    if pr > prio {
      var x := st.Pop();
      st.Push(Node(Symbol(ch), x, Nil));
    } else if pr == prio {
      var tempo := st.Pop();
      var full := st.Pop();
      st.Push(Node(Symbol(ch), SetRight(full, tempo), Nil));
    } else {
      var full := CollapseStack(st);
      st.Push(Node(Symbol(ch), full, Nil));
    }
  }

  /** The closing-parenthesis and operator cases of one iteration.  `stop` means
      the call returns `out` at once; otherwise `finished` means the loop is left,
      and the iteration goes on with the operand case. */
  method RestStage(T: seq<Token>, st: Stack, c: nat, p: int, prio: int, cur: int, tp: Tree)
    returns (c': nat, p': int, cur': int, checker: bool, finished: bool, stop: bool, out: Outcome)
    requires c < |T| && p >= 0 && NoEmptyGroup(T)
    requires st.Valid() && Pending(st.Contents())
    requires (prio == -1 || st.top >= 2) && (cur == -1 || st.top >= 1)
    modifies st, st.arr
    ensures st.Valid() && (st.arr == old(st.arr) || fresh(st.arr)) && Pending(st.Contents())
    ensures c <= c' <= |T|
    ensures !stop && !finished ==> p' == p && checker && (cur' == -1 || st.top >= 1)
    ensures !stop && !finished ==> c' < |T| ==> IsOperand(T[c'])
    ensures Rest(T, c, p, prio, cur, old(st.Contents()), tp) ==
      if stop then out
      else if finished then Finish(T, c', p', st.Contents(), tp, checker)
      else Operand(T, c', p', cur', st.Contents(), tp)
  {
    c', p', cur', checker, finished, stop, out := c, p, cur, true, false, false, Outcome(false, 0, 0, Nil);
    if T[c] == Symbol(')') {
      c', p', finished := c + 1, p - 1, true;
    } else if T[c].Symbol? {
      var ch := T[c].symbol;
      c' := c + 1;
      if c' < |T| && T[c'].Symbol? {
        c', checker, finished := c' + 1, false, true;
      } else if st.IsEmpty() {
        checker, finished := false, true;
      } else {
        cur', stop, out := OperatorStage(T, st, c, p, prio, cur, tp);
      }
    }
  }

  /** An operator with a tree on the stack and no symbol after it: the stack is
      reduced by the operator's priority, and a trailing operator of no higher
      priority makes the call fail. */
  method OperatorStage(T: seq<Token>, st: Stack, c: nat, p: int, prio: int, cur: int, tp: Tree)
    returns (cur': int, stop: bool, out: Outcome)
    requires c < |T| && p >= 0 && NoEmptyGroup(T)
    requires T[c].Symbol? && T[c] != Symbol(')') && (c + 1 == |T| || !T[c + 1].Symbol?)
    requires st.Valid() && Pending(st.Contents()) && st.top >= 1 && (prio == -1 || st.top >= 2)
    modifies st, st.arr
    ensures st.Valid() && (st.arr == old(st.arr) || fresh(st.arr)) && Pending(st.Contents())
    ensures !stop ==> cur' == Precedence(T[c].symbol) && st.top >= 1
    ensures Rest(T, c, p, prio, cur, old(st.Contents()), tp) ==
      if stop then out else Operand(T, c + 1, p, cur', st.Contents(), tp)
  {
    var ch := T[c].symbol;
    cur' := Precedence(ch);
    ReduceStack(st, ch, prio);
    stop, out := false, Outcome(false, 0, 0, Nil);
    if cur' <= prio && c + 1 == |T| {
      st.Free();
      stop, out := true, Outcome(false, c + 1, p, tp);
    }
  }

  /** The operand case of one iteration and the adjacent-operand test;
      `finished` means the loop is left, otherwise it goes on at `c'`. */
  method OperandStage(T: seq<Token>, st: Stack, c: nat, p: int, cur: int, tp: Tree)
    returns (c': nat, checker: bool, finished: bool)
    requires c <= |T| && p >= 0 && NoEmptyGroup(T)
    requires st.Valid() && Pending(st.Contents()) && (cur == -1 || st.top >= 1)
    requires c < |T| ==> IsOperand(T[c])
    modifies st, st.arr
    ensures st.Valid() && (st.arr == old(st.arr) || fresh(st.arr)) && Pending(st.Contents())
    ensures c <= c' <= |T|
    ensures !finished ==> c < c' < |T| && checker && (cur == -1 || st.top >= 2)
    ensures Operand(T, c, p, cur, old(st.Contents()), tp) ==
      if finished then Finish(T, c', p, st.Contents(), tp, checker)
      else Loop(T, c', p, cur, st.Contents(), tp)
  {
    c', checker, finished := c, true, false;
    if c < |T| {
      st.Push(Leaf(T[c]));
      c' := c + 1;
    }
    if c' < |T| && IsOperand(T[c']) {
      c', checker, finished := c' + 1, false, true;
    } else if c' == |T| {
      finished := true;
    }
  }

  /** The loop test and the parenthesis case of one iteration: at `(` the group
      is read by a recursive call and its tree pushed.  `stop` means the call
      returns `out` at once; otherwise `finished` means the loop is left, and the
      iteration goes on with `RestStage`. */
  method GroupStage(T: seq<Token>, st: Stack, c: nat, p: int, prio: int, tp: Tree)
    returns (c': nat, p': int, cur: int, finished: bool, stop: bool, out: Outcome)
    requires c < |T| && p >= 0 && NoEmptyGroup(T)
    requires st.Valid() && Pending(st.Contents()) && (prio == -1 || st.top >= 2)
    modifies st, st.arr
    ensures st.Valid() && (st.arr == old(st.arr) || fresh(st.arr)) && Pending(st.Contents())
    ensures c <= c' <= |T|
    ensures !stop && !finished ==> c' < |T| && p' >= 0
    ensures !stop && !finished ==> (prio == -1 || st.top >= 2) && (cur == -1 || st.top >= 1)
    ensures Loop(T, c, p, prio, old(st.Contents()), tp) ==
      if stop then out
      else if finished then Finish(T, c', p', st.Contents(), tp, true)
      else Rest(T, c', p', prio, cur, st.Contents(), tp)
    decreases |T| - c, 1
  {
    c', p', cur, finished, stop, out := c, p, prio, false, false, Outcome(false, 0, 0, Nil);
    if T[c] == Symbol('(') {
      LoopGroup(T, c, p, prio, st.Contents(), tp);
      var g := GroupCall(T, st, c, p, prio);
      if !g.ok {
        stop, out := true, Outcome(false, g.cursor, g.paren, tp);
        return;
      }
      c', p' := g.cursor, g.paren;
      cur := prio + 1;
      finished := c' == |T|;
    }
  }

  /** The recursive call for a group at `(`: on success its tree is pushed,
      on failure the stack is released. */
  method GroupCall(T: seq<Token>, st: Stack, c: nat, p: int, prio: int) returns (g: Outcome)
    requires c < |T| && p >= 0 && NoEmptyGroup(T) && T[c] == Symbol('(')
    requires st.Valid() && Pending(st.Contents())
    modifies st, st.arr
    ensures g == Build(T, c + 1, p + 1, Nil)
    ensures st.Valid() && (st.arr == old(st.arr) || fresh(st.arr))
    ensures !g.ok ==> st.Contents() == []
    ensures g.ok ==> g.tree.Node? && st.Contents() == old(st.Contents()) + [g.tree]
    decreases |T| - c, 0
  {
    NoEmptyGroupAt(T, c);
    g := BuildTree(T, c + 1, p + 1, Nil);
    if !g.ok {
      st.Free();
    } else {
      st.Push(g.tree);
    }
  }

  /** The `(` case of `Loop`: the group's call, then the drain at the end of
      input or the rest of the iteration. */
  lemma LoopGroup(T: seq<Token>, c: nat, p: int, prio: int, S: seq<Tree>, tp: Tree)
    requires c < |T| && p >= 0 && NoEmptyGroup(T) && T[c] == Symbol('(')
    requires Pending(S) && (prio == -1 || |S| >= 2)
    ensures c + 1 < |T| ==> T[c + 1] != Symbol(')')
    ensures var g := Build(T, c + 1, p + 1, Nil);
      Loop(T, c, p, prio, S, tp) ==
        if !g.ok then Outcome(false, g.cursor, g.paren, tp)
        else if g.cursor == |T| then Finish(T, g.cursor, g.paren, S + [g.tree], tp, true)
        else Rest(T, g.cursor, g.paren, prio, prio + 1, S + [g.tree], tp)
  {
    NoEmptyGroupAt(T, c);
  }

  /** The builder's loop over a fresh stack of 20 slots.  The program hands the
      recursive call for a group its own scratch variable as output slot, whose
      old value is read back only after an empty group; the model hands it an
      absent tree.  The loop body is split into `GroupStage`, `RestStage` and
      `OperandStage`, as `Loop` is split into `Loop`, `Rest` and `Operand`. */
  method BuildTree(T: seq<Token>, c0: nat, p0: int, tp0: Tree) returns (r: Outcome)
    requires c0 <= |T| && p0 >= 0 && NoEmptyGroup(T)
    ensures r == Build(T, c0, p0, tp0)
    decreases |T| - c0, 2
  {
    ghost var goal := Build(T, c0, p0, tp0);
    var checker := true;
    var st := new Stack(20);
    var prio, cur := -1, -1;
    var c, p := c0, p0;
    var finished, stop := false, false;
    var out;
    while c < |T| && !finished
      invariant st.Valid() && fresh(st) && fresh(st.arr) && c0 <= c <= |T|
      invariant Pending(st.Contents())
      invariant !finished ==> p >= 0 && checker && (prio == -1 || st.top >= 2)
      invariant !finished ==> Loop(T, c, p, prio, st.Contents(), tp0) == goal
      invariant finished ==> Finish(T, c, p, st.Contents(), tp0, checker) == goal
      decreases |T| - c, if finished then 0 else 1
    {
      c, p, cur, finished, stop, out := GroupStage(T, st, c, p, prio, tp0);
      if stop {
        return out;
      }
      if !finished {
        c, p, cur, checker, finished, stop, out := RestStage(T, st, c, p, prio, cur, tp0);
        if stop {
          return out;
        }
        if !finished {
          prio := cur;
          c, checker, finished := OperandStage(T, st, c, p, cur, tp0);
        }
      }
    }
    var tree := tp0;
    if !st.IsEmpty() {
      tree := CollapseStack(st);
    }
    st.Free();
    if c == |T| && p != 0 {
      return Outcome(false, c, p, tree);
    }
    return Outcome(checker, c, p, tree);
  }
}
