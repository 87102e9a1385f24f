# Infix expression trees: builder, derivative and simplifier

This project models the core of `infixExp.c`:

- **Operand stack** (`newStack`, `doubleStackSize`, `push`, `pop`, `isEmptyStack`, `freeStack`). It is a growable array of tree handles with `top` and `size` fields. The model is the class `Stacks.Stack` over an `array<Tree>`.
- **Tree builder** (`treeInfixExpr`, with `getPrecedence`).
  - It reads a token list through a cursor and keeps partial trees on an operand stack. An operator node is created with an absent right child, which is filled in later. An opening parenthesis starts a recursive call.
  - The model has two layers:
    - the functions `Builder.Build`, `Loop`, `Group`, `Rest`, `Operand`, `Reduce` and `Finish` give the result stage by stage;
    - the method `Builder.BuildTree` is the loop itself, over a `Stack`, and is proved to compute `Build`.
- **Deep copy and derivative** (`duplicate`, `differentiate`). They are the functions `Differentiation.Duplicate` and `Differentiation.Derive`. `Derive` returns the rewritten tree together with the final value of the caller's "met `x`" flag.
- **Simplifier** (`simplify`, `simplifyRec`). It makes one bottom-up pass that removes neutral and absorbing operands of `* / + -`.
  - `Simplifier.Rewrite` follows the code's case analysis on the kinds of the two children.
  - `Simplifier.Rule` states the same rewrites as a table of patterns.
- **One round of the console loop**: simplify, then differentiate with the flag set to 1, then simplify again. This is `Session.RunRound`.

Trees are values: `Tree = Nil | Node(tok, left, right)`, where `Nil` is the NULL pointer. Numbers are `real`. The code only copies them and compares them with 0 and 1.

To say what the derivative means, the project adds a reference semantics, `Semantics.Eval` and `Semantics.DualEval`. They are not in the program.
- The semantics is stated over any number system given by its operations (`Arith`).
- The field laws the proofs need are a hypothesis (`FieldLaws`). The reals satisfy them (`Semantics.RealArithLaws`).
- `DualEval` is forward-mode evaluation, computing a value and its derivative with respect to `x`. It is the independent definition that the rewritten tree is proved against.

The builder's behaviour on unusual input follows from where its tests sit in `treeInfixExpr`, and the model keeps each test where the code has it:

- **Trailing operator.** The comment at infixExp.c:115 calls a trailing operator wrong input. The test for it exists only in the equal- and lower-priority branch (infixExp.c:114-123), not in the higher-priority one. So `2 *` is accepted and yields `*` with an absent right child (`BuilderExamples.TrailingOperatorAccepted`).
- **Group next to an operand.** The adjacent-operand test (infixExp.c:144-148) looks only for a number or identifier right after an operand, and the `(` case (infixExp.c:61-75) does not look at the stack. So a group is never tested against a neighbouring operand. `2 ( 3 )` is accepted and yields the leaf `2` with `3` as its right child (`BuilderExamples.GroupAfterOperand`). In the other order, `( 3 ) 2` is accepted and yields the leaf `3` with `2` as its right child (`BuilderExamples.OperandAfterGroup`).
- **Parenthesis after an operator.** The operator reader accepts any symbol token, so an opening parenthesis right after an operator counts as a second operator. `2 * ( 3 )` is therefore rejected (`BuilderExamples.GroupAfterOperator`).
- **Failed calls.** On the double-operator and adjacent-operand failures, the stack is still drained into the output slot before the call returns 0 (`BuilderExamples.AdjacentOperands`).

`FlatExpressions.FlatBuild` proves what the builder does on operator expressions without parentheses: it succeeds, reads every token and returns the precedence parse, which is a completed tree. `BuilderExamples.GroupedSumTimes` shows a parenthesised group parsed through the recursive call: `( 2 + 3 ) * 4` gives `'*'('+'(2, 3), 4)`.

## Model

| member | source | states |
|---|---|---|
| Stacks.Stack.constructor | infixExp.c:369-376 | a new stack has room for `s` trees, `size == s`, and holds no tree |
| Stacks.Stack.DoubleSize | infixExp.c:379-385 | the array is replaced by one twice the size; `top` and the stacked trees are unchanged |
| Stacks.Stack.Push | infixExp.c:388-395 | the contents become the old contents plus `x`; `size` doubles exactly when the stack was full; `top <= size` is kept |
| Stacks.Stack.IsEmpty | infixExp.c:398-400 | true exactly when the stack holds no tree |
| Stacks.Stack.Pop | infixExp.c:410-416 | on a non-empty stack (the program aborts otherwise), returns the last pushed tree and removes it; the array and size are unchanged |
| Stacks.Stack.Free | infixExp.c:419-425 | pops every tree; the stack ends empty |
| Stacks.PushThenPop | infixExp.c:388-416 | a push followed by a pop returns the pushed tree and restores the contents and `top` |
| Builder.Precedence | infixExp.c:428-440 | 1 for `+ -`, 2 for `* /`, 0 for every other character; positive exactly for the four operators |
| Builder.Chain | infixExp.c:153-161 | linking a stack along right children yields a node with the bottom node's token and left child |
| Builder.ChainAttach | infixExp.c:105-110 | popping a node and attaching the tree above it as its right child leaves the chain of the stack unchanged |
| Builder.Finish | infixExp.c:150-171 | the call keeps its cursor and counter; it fails exactly when an earlier test failed, or when the input is exhausted with the counter not 0; a non-empty stack of nodes is linked into a tree carrying the bottom node's token and left child, and an empty stack leaves the output slot unchanged; what the linked tree means is proved by `FlatExpressions.ChainEncode` and `FlatExpressions.FlatBuild` |
| Builder.Build | infixExp.c:50-172 | the cursor only advances and stays within the input; on success, either the counter has dropped by one (a `)` ended the call) or the input is exhausted with the counter at 0, and every success that ends the input leaves the counter at 0 (infixExp.c:165-168); a successful call returns a node, except on empty input or input starting with `)`, where it returns the output slot unchanged; a success never read two operands in a row (infixExp.c:144-148) nor an arithmetic operator directly followed by a symbol (infixExp.c:82-87), stops at the end of input or just after a `)`, and never starts at an arithmetic operator, which would arrive on an empty stack (infixExp.c:84) |
| Builder.Loop | infixExp.c:60-75 | from any point of the loop, the cursor and counter facts of `Build` hold, and a success without a node happens only from an empty stack; a success read no bad pair of tokens, stops at the end of input or after a `)`, and from an empty stack never starts at an arithmetic operator |
| Builder.Group | infixExp.c:61-75 | the recursive call for a group and the rest of the loop after it advance the cursor past the `(`; a success returns a node, has the cursor and counter facts of `Build`, and read no bad pair of tokens across the group's parentheses |
| Builder.AcceptedInput | infixExp.c:82-148 | an input the builder reads whole and accepts has no two operands in a row, no arithmetic operator directly followed by a symbol, and does not start with an arithmetic operator |
| Builder.Rest | infixExp.c:76-125 | from the `)` and operator cases, the cursor and counter facts of `Build` hold, and a success without a node happens only at a `)` with an empty stack; a success read no bad pair of tokens, stops at the end of input or after a `)`, and an arithmetic operator on an empty stack always fails (infixExp.c:84-87) |
| Builder.Reduce | infixExp.c:88-113 | after an operator the stack is non-empty, holds only nodes and is no longer than before; its top is a node holding the operator with an absent right child |
| Builder.Operand | infixExp.c:128-148 | from the operand case, the cursor and counter facts of `Build` hold, and a success without a node happens only at the end of input with an empty stack and the counter at 0; a success read no two operands in a row (infixExp.c:144-148) nor any other bad pair, and stops at the end of input or after a `)` |
| Builder.CollapseStack | infixExp.c:153-161 | popping the whole stack while attaching right children returns the chain of the old stack and empties it |
| Builder.ReduceStack | infixExp.c:91-113 | the three priority cases leave the stack holding `Reduce` of the old stack |
| Builder.GroupCall | infixExp.c:61-74 | the recursive call for a group returns exactly `Build` from the next token with the counter raised by one; on success its tree, a node, is pushed; on failure the stack is emptied |
| Builder.GroupStage | infixExp.c:61-75 | one run of the `(` case on the stack agrees with `Loop` |
| Builder.RestStage | infixExp.c:76-125 | one run of the `)` and operator cases on the stack agrees with `Rest` |
| Builder.OperatorStage | infixExp.c:88-123 | one run of the priority cases and the trailing-operator test on the stack agrees with `Rest`; when the call goes on, the new priority is the operator's precedence |
| Builder.OperandStage | infixExp.c:128-148 | one run of the operand case and the adjacent-operand test agrees with `Operand` |
| Builder.BuildTree | infixExp.c:50-172 | the loop over a fresh stack of 20 slots, with the final drain and the counter test, returns exactly `Build` |
| FlatExpressions.OperatorOperand | infixExp.c:82-148 | an operator followed by an operand is one trip round the loop: the stack is reduced and the operand pushed, or the input ends and the stack is drained |
| FlatExpressions.StepEncode | infixExp.c:88-113 | on the stack of a left-to-right reading, an operator and an operand give the stack of the next reading, and the priority marker is the operator's precedence |
| FlatExpressions.ChainEncode | infixExp.c:153-161 | draining the stack of a reading yields the tree that reading stands for |
| FlatExpressions.FlatLoop | infixExp.c:60-148 | from an operator onwards, the loop completes the reading of the whole input and succeeds |
| FlatExpressions.FlatBuild | infixExp.c:50-172 | on operand operator ... operand input, the builder succeeds, reads every token and returns the precedence parse (`*` and `/` bind tighter, left associative), a completed tree |
| BuilderExamples.SumOfProduct | infixExp.c:91-94 | `2 + 3 * 4` yields `'+'(2, '*'(3, 4))` |
| BuilderExamples.DifferenceChain | infixExp.c:96-102 | `8 - 3 - 2` yields `'-'('-'(8, 3), 2)` |
| BuilderExamples.ProductThenSum | infixExp.c:104-112 | `2 * 3 + 4` yields `'+'('*'(2, 3), 4)` |
| BuilderExamples.TrailingOperatorAccepted | infixExp.c:91-94 | `2 *` succeeds with a product lacking its right operand |
| BuilderExamples.TrailingOperatorRejected | infixExp.c:114-123 | `2 + 3 -` fails at the end of input and leaves the output slot alone |
| BuilderExamples.AdjacentOperands | infixExp.c:145-148 | `2 3` fails, and `2` is still drained into the output slot |
| BuilderExamples.LeadingOperator | infixExp.c:84-87 | `+ 2` fails: an operator met with an empty stack |
| BuilderExamples.DoubleOperator | infixExp.c:84-87 | `2 + * 3` fails: an operator directly after an operator |
| BuilderExamples.UnclosedGroup | infixExp.c:165-168 | `( 2` fails: the input ends with the counter at 1 |
| BuilderExamples.GroupAfterOperand | infixExp.c:61-75 | `2 ( 3 )` succeeds, yielding the leaf `2` with `3` as its right child |
| BuilderExamples.OperandAfterGroup | infixExp.c:128-148 | `( 3 ) 2` succeeds with every token read, yielding the leaf `3` with `2` as its right child: the operand after the group is pushed without a test against the group |
| BuilderExamples.GroupedSum | infixExp.c:76-80 | the recursive call inside `( 2 + 3 ) * 4` reads `2 + 3 )`, returns the sum and brings the counter back to 0 |
| BuilderExamples.GroupedSumTimes | infixExp.c:61-75 | `( 2 + 3 ) * 4` succeeds with every token read and yields `'*'('+'(2, 3), 4)`: the group's tree is pushed and becomes the product's left operand |
| BuilderExamples.GroupAfterOperator | infixExp.c:82-87 | `2 * ( 3 )` fails: the `(` is read as a second operator |
| Differentiation.Duplicate | infixExp.c:175-191 | the copy equals the source, and `Nil` copies to `Nil` |
| Differentiation.Derive | infixExp.c:194-313 | the flag either keeps its value or becomes 0; the result is absent exactly when the input is |
| Differentiation.DeriveFlag | infixExp.c:207-219 | the flag is cleared exactly when the rewrite reaches an `x` leaf, and is written nowhere else |
| Differentiation.DeriveFlagMentions | infixExp.c:207-219 | on a completed tree, the flag is cleared exactly when the expression mentions `x` |
| Differentiation.DeriveWellFormed | infixExp.c:236-305 | the derivative of a completed tree is a completed tree: every operator node keeps two children |
| Differentiation.DeriveSimplifiable | infixExp.c:236-305 | the derivative of a tree whose operator nodes have both children again has that shape |
| Differentiation.DeriveCorrect | infixExp.c:194-313 | by the sum, difference, product and quotient rules, the rewritten tree evaluates to the derivative computed by forward-mode evaluation, and is defined exactly where that is |
| Differentiation.FlagKeptMeansConstant | infixExp.c:207-219 | when the flag stays 1 on a completed tree, its derivative evaluates to zero |
| Simplifier.Promote | infixExp.c:470-733 | a leaf that replaces its parent keeps its token and loses its children; an operator child keeps its token and children |
| Simplifier.Rewrite | infixExp.c:466-735 | the case analysis on the children's kinds applies exactly the pattern table `Rule`, in the order `X*1, X*0, 1*X, 0*X`, `X/1`, `0+X, X+0`, `X-0`, and leaves every other node alone |
| Simplifier.Simplify | infixExp.c:451-464 | children are simplified before the node; the result matches no pattern anywhere, is no larger, is absent exactly when the input is, and is completed when the input is |
| Simplifier.RewriteStep | infixExp.c:466-735 | one rewrite over simplified children matches nowhere and keeps the shape the simplifier dereferences |
| Simplifier.RuleShrinks | infixExp.c:466-735 | every rewrite removes at least one node |
| Simplifier.SimplifyNormal | infixExp.c:457-464 | a tree without a match is returned unchanged |
| Simplifier.SimplifyFixedPoint | infixExp.c:451-736 | simplification leaves a tree unchanged exactly when no node matches a pattern |
| Simplifier.SimplifyIdempotent | infixExp.c:451-736 | simplifying twice gives the same tree as simplifying once |
| Simplifier.RewriteKeepsDual | infixExp.c:466-735 | one rewrite keeps the value and the derivative wherever they are defined |
| Simplifier.SimplifyKeepsDual | infixExp.c:451-736 | simplification keeps the value and the derivative wherever the input has them |
| Simplifier.SimplifyKeepsValue | infixExp.c:451-736 | simplification keeps the value wherever the input has one |
| Session.RunRound | infixExp.c:342-350 | both printed trees of a round match no pattern, and the flag ends as 0 or 1 |
| Session.RoundCorrect | infixExp.c:342-350 | the printed simplified tree has the input's value, and the printed derivative evaluates to the input's derivative |
| Session.RoundShape | infixExp.c:342-350 | for a completed input, both printed trees are completed, and the flag is cleared exactly when the simplified tree mentions `x` |
| Session.FlatRound | infixExp.c:332-350 | a flat operator expression is accepted with every token read, and the round prints completed trees |
| Session.RoundCorrectReal | infixExp.c:342-350 | over the reals, the printed derivative evaluates to the input's derivative |
| Session.SquareRound | infixExp.c:342-350 | `x * x` prints unchanged, and its derivative prints as `x + x` |

## Left out

- The console loop `infixExpTrees` (infixExp.c:316-366) reads input and prints results. Only its call order simplify, differentiate, simplify is modelled, as `Session.RunRound`. The input line, the token list and the printed text are left out.
- The external token readers `valueOperator`, `valueNumber` and `valueIdentifier` are modelled as "the head token has this tag: take it and advance". `newExpTreeNode` is the `Node` constructor.
- The scanner, `acceptExpression`, `isNumerical`, `valueExpTree` and `printExpTreeInfix` are not part of this model. They live in files that are not shown. `FlatExpressions.Flat` is stated instead, as a sufficient condition for a well-formed build.
- `checkInvalid` (infixExp.c:443-448) is never called, and it depends on the external `isOperator`.
- Memory management is left out: `malloc`, `realloc` and `free`, the allocation asserts, and freeing trees in `freeStack`, on the failure paths and in the simplifier. Trees are garbage-collected values.
- Stacks.Stack.Free: `freeStack` receives the stack by value. It pops a copy and frees the array, so the caller's `top` is unchanged. The caller never uses the stack again, and the model empties the stack itself.
- Stacks.Stack.DoubleSize: the C `int` product `2 * size` could overflow, and this is not modelled. Sizes are unbounded.
- The `printf`/`abort` in `stackEmptyError` (infixExp.c:403-407) becomes the precondition `top > 0` of `Pop`. The builder is proved never to pop an empty stack.
- Builder.Build requires that no `(` is directly followed by `)`. After an empty group, the program pushes the recursive call's output slot unread, which is an uninitialised pointer or a stale one. In `8 - 3 - 2 ( )`, for example, the slot still holds the leaf `3` popped in the equal-priority case, so the push would alias a node already in the tree. The model excludes such input.
- Builder.Build also requires a counter of at least 0. The console loop starts it at 0.
- Builder.BuildTree hands each recursive call an absent tree as its output slot. The program passes its scratch variable instead, whose old value matters only after an empty group.
- The test `(*lp)->t.symbol == '('` (and the one for `)`) reads a union member whatever the token's type. The model reads it as "the token is the symbol `(`". A number or identifier whose bytes happen to look like `(` is not modelled.
- Numbers are exact reals, not IEEE doubles. The tree code only copies numbers and compares them with 0 and 1.
- Differentiation.Duplicate: the copy is stated to be equal to the source. That it consists of fresh nodes and shares none with the source is not stated, because trees are values here. For the same reason, the in-place rewriting of `differentiate` and `simplifyRec`, and the no-aliasing guarantee of the product and quotient rules, become "return the new tree".
- Differentiation.Duplicate: the C copy shares the identifier's string with the source. Strings are values here.
