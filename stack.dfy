/** The growable stack of tree nodes the builder keeps its partial trees on: an
    array, the index of the first free slot and the array's size.  A full stack
    doubles its array before a push; popping an empty stack aborts the program,
    which is a precondition here. */
module Stacks {
  import opened ExpTrees

  class Stack {
    var arr: array<Tree>
    var top: nat
    var size: nat

    ghost predicate Valid()
      reads this
    {
      arr.Length == size && 0 < size && top <= size
    }

    /** The stacked trees, bottom first. */
    ghost function Contents(): seq<Tree>
      reads this, arr
      requires Valid()
    {
      arr[..top]
    }

    /** An empty stack with room for `s` trees. */
    constructor (s: nat)
      requires s > 0
      ensures Valid() && fresh(arr)
      ensures size == s && Contents() == []
    {
      arr := new Tree[s];
      top := 0;
      size := s;
    }

    /** Gives the stack an array twice the size, holding the same trees. */
    method DoubleSize()
      requires Valid()
      modifies this
      ensures Valid() && fresh(arr)
      ensures size == 2 * old(size) && top == old(top)
      ensures Contents() == old(Contents())
    {
      var kept := arr[..];
      var newSize := 2 * size;
      arr := new Tree[newSize](i => if 0 <= i < |kept| then kept[i] else Nil);
      size := newSize;
    }

    /** Pushes `x`, doubling the array first when it is full. */
    method Push(x: Tree)
      requires Valid()
      modifies this, arr
      ensures Valid()
      ensures Contents() == old(Contents()) + [x]
      ensures size == if old(top) == old(size) then 2 * old(size) else old(size)
      ensures arr == old(arr) || fresh(arr)
    {
      if top == size {
        DoubleSize();
      }
      arr[top] := x;
      top := top + 1;
    }

    function IsEmpty(): (b: bool)
      reads this, arr
      requires Valid()
      ensures b <==> Contents() == []
    {
      top == 0
    }

    /** Removes and returns the top tree. */
    method Pop() returns (x: Tree)
      requires Valid() && top > 0
      modifies this
      ensures Valid() && arr == old(arr) && size == old(size)
      ensures x == old(Contents())[|old(Contents())| - 1]
      ensures Contents() == old(Contents())[..|old(Contents())| - 1]
    {
      top := top - 1;
      x := arr[top];
    }

    /** Pops every tree; the program also releases their memory. */
    method Free()
      requires Valid()
      modifies this
      ensures Valid() && arr == old(arr) && size == old(size)
      ensures Contents() == []
    {
      while top > 0
        invariant Valid() && arr == old(arr) && size == old(size)
        decreases top
      {
        var _ := Pop();
      }
    }
  }

  /** A push followed by a pop returns the pushed tree and leaves the stack's
      contents and top as they were. */
  method PushThenPop(st: Stack, x: Tree) returns (y: Tree)
    requires st.Valid()
    modifies st, st.arr
    ensures st.Valid() && y == x
    ensures st.Contents() == old(st.Contents()) && st.top == old(st.top)
  {
    st.Push(x);
    y := st.Pop();
  }
}
