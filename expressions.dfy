/** Expression trees and tokens.

    In the program a token list element and a tree node both carry a token type
    (Number, Identifier or Symbol) and a payload; here the two are one datatype.
    A tree is either absent (`Nil`, the NULL pointer) or a node with a token and two
    children.  Leaves normally have absent children, but the builder can leave a
    leaf carrying a right child, so the node shape is uniform. */
module ExpTrees {

  datatype Option<T> = None | Some(value: T)

  /** A token, and the tag plus payload of a tree node.  Numbers are `real`:
      the tree code only copies them and compares them with 0 and 1. */
  datatype Token =
    | Number(number: real)
    | Identifier(identifier: string)
    | Symbol(symbol: char)

  datatype Tree = Nil | Node(tok: Token, left: Tree, right: Tree)

  /** The variable differentiated against. */
  const X: string := "x"

  function Leaf(tok: Token): Tree {
    Node(tok, Nil, Nil)
  }

  predicate IsOperator(c: char) {
    c == '+' || c == '-' || c == '*' || c == '/'
  }

  /** A token that is one of the four arithmetic symbols. */
  predicate IsArith(tok: Token) {
    tok.Symbol? && IsOperator(tok.symbol)
  }

  /** A token the builder pushes as an operand. */
  predicate IsOperand(tok: Token) {
    tok.Number? || tok.Identifier?
  }

  function Size(t: Tree): nat {
    match t
    case Nil => 0
    case Node(_, l, r) => 1 + Size(l) + Size(r)
  }

  /** A completed tree: leaves are numbers or identifiers without children, and every
      other node is one of `+ - * /` with two completed children. */
  predicate WellFormed(t: Tree) {
    match t
    case Nil => false
    case Node(tok, l, r) =>
      if tok.Symbol? then IsOperator(tok.symbol) && WellFormed(l) && WellFormed(r)
      else l == Nil && r == Nil
  }

  /** The shape the simplifier dereferences without checking: every arithmetic
      node has two present children, at any depth (leaves may carry children). */
  predicate Simplifiable(t: Tree) {
    match t
    case Nil => true
    case Node(tok, l, r) =>
      (IsArith(tok) ==> l.Node? && r.Node?) && Simplifiable(l) && Simplifiable(r)
  }

  /** True when an identifier node named `name` occurs anywhere in `t`. */
  predicate Mentions(t: Tree, name: string) {
    match t
    case Nil => false
    case Node(tok, l, r) => tok == Identifier(name) || Mentions(l, name) || Mentions(r, name)
  }

  /** Every completed tree can be walked by the simplifier. */
  lemma {:induction false} WellFormedIsSimplifiable(t: Tree)
    requires WellFormed(t)
    ensures Simplifiable(t)
  {
    match t
    case Node(tok, l, r) =>
      if tok.Symbol? {
        WellFormedIsSimplifiable(l);
        WellFormedIsSimplifiable(r);
      }
  }
}
