# Expression trees and array flattening, in Dafny

This project models two small JavaScript components and proves properties
about them.

**Tree.js** builds binary expression trees. A node is either an operand leaf
that holds a number, or an operator node with a left and a right child.
There are four operators, named `x`, `÷`, `+` and `-`. A tree can be
evaluated (`result`) and printed as fully parenthesised infix (`toString`).
`TreeFactory.parse` reads text in one left-to-right pass using a node stack
and an operator stack:

- a space and `(` do nothing;
- an operator symbol is pushed on the operator stack;
- any other character is read with `Number` and pushed as a leaf;
- `)` pops the right node, then the left node, then one operator, and
  pushes the node they form.

The result is the top of the node stack. The parser never looks at where an
operator stands. So infix `(A op B)`, prefix `(op A B)` and postfix
`(A B op)` text all give the same tree.

**FlattenArray.js** flattens nested arrays. A non-array value becomes a
one-element list. An empty array becomes `[]`. A non-empty array becomes
the flattening of its first element followed by the flattening of the rest.

Modules:

- `Operators` (operators.dfy): the operator table.
- `Expressions` (expressions.dfy): the tree, `Eval` and `Show`, and a postfix
  stack machine that computes a tree's value independently of `Eval`.
- `Parser` (parser.dfy): the parser, written as a step function folded over
  the characters, plus the loop as a method.
- `Notation` (notation.dfy): notation independence, insensitivity to spaces,
  and the parse/print round trip.
- `Flattening` (nested.dfy): `flattenArray` over `Nested<T>`.
- `TreeExamples` (tree_examples.dfy) and `FlattenExamples`
  (nested_examples.dfy): the assertions at the end of both source files.
- `Optional` (optional.dfy): an `Option` type.

The parser model follows the code where a looser reading might differ:

- Only the space character is skipped. Any other white space (tab,
  newline, no-break space, …) reaches `Number`, which reads a one-character
  white-space string as 0. So a tab is the operand 0
  (`TreeExamples.TabIsOperandZero`).
- Parentheses are never matched. `(` does nothing.
- Nodes and operators left on the stacks at the end are dropped. Only the
  top node is returned (`TreeExamples.UnclosedReturnsTop`: `"(1 + 2"`
  parses to the leaf 2).
- A `)` that finds fewer than two nodes or no operator, and a character
  that `Number` cannot read, end the model's parse with `None`
  (see "Left out").

## Model

| member | source | states |
|---|---|---|
| `Operators.Symbol` | Tree.js:32-45 | Each operator's key in the table. No key is a space, a parenthesis or a decimal digit, so the parser's other branches never take an operator symbol. `Operators.FromSymbol` and `Operators.SymbolInjective` pin the table down. |
| `Operators.FromSymbol` | Tree.js:32-45 | A character names an operator exactly when it is that operator's symbol. Lookup returns that operator, and a non-symbol gives `None`. |
| `Operators.SymbolInjective` | Tree.js:32-45 | The four symbols are distinct, so each names exactly one operator. |
| `Operators.Apply` | Tree.js:32-45 | `x` multiplies. `÷` gives the `r` with `r * right == left`. `+` gives the `r` with `r - right == left`. `-` gives the `r` with `r + right == left`. The left operand always comes first. |
| `Expressions.Eval` | Tree.js:4-9 | `result`. It is defined by its body. `Expressions.EvalByMachine` pins it down against an independent stack machine. |
| `Expressions.EvalByMachine` | Tree.js:4-9 | For every tree and every stack below it, the postfix stack machine pushes exactly `Eval` of a defined tree and leaves the stack below untouched. On a tree with a zero divisor the machine fails. |
| `Expressions.RunAppend` | Tree.js:4-9 | Running two pieces of stack-machine code in sequence is running the first, then the second on the stack it leaves. |
| `Expressions.Show` | Tree.js:11-16 | `toString`. The text is never empty. It starts with a digit exactly for a leaf. An operator node's text is enclosed in `(` … `)`. `Notation.ShowStripped` and `Notation.RoundTrip` pin it down against the parser. |
| `Expressions.DecimalString` | Tree.js:15 | A leaf prints as decimal digits with no leading zero, and the digits read back to the leaf's value. A value below 10 prints as exactly one character. |
| `Parser.NumberOf` | Tree.js:79 | `Number` of one character is defined exactly for a decimal digit or a JavaScript white-space character. A digit reads as its own value. White space reads as 0. |
| `Parser.Classify` | Tree.js:63-81 | Each character takes exactly one branch of the switch: space, `(`, `)`, operator symbol, readable operand, or unreadable operand. Operator symbols are tested before `Number`. |
| `Parser.Step` | Tree.js:63-81 | One pass of the loop body. It is defined by its body. `Parser.StepEffects` states its effect on both stacks. |
| `Parser.Scan` | Tree.js:61-83 | The loop, folded over the text. It is defined by its body. `Parser.ScanAppend`, `Parser.ScanCounts` and `Parser.ScanSucceedsIff` pin it down. |
| `Parser.Parse` | Tree.js:57-85 | `TreeFactory.parse`. It is defined by its body. `Notation.NotationIndependence` and `Notation.RoundTrip` pin it down against printing, and `Parser.ParseExpression` against the loop. |
| `Parser.StepEffects` | Tree.js:64-81 | A space or `(` leaves both stacks unchanged. An operator symbol grows only the operator stack, by one. An operand grows only the node stack, by one. `)` succeeds exactly when there are at least two nodes and one operator. It then combines the second-from-top node (left) and the top node (right) under the top operator, shrinks each stack by one, and leaves the entries below unchanged. |
| `Parser.ScanAppend` | Tree.js:61-83 | Scanning `a + b` is scanning `a`, then scanning `b` from the state reached. |
| `Parser.ScanCounts` | Tree.js:61-83 | After any successful scan, node-stack size = start size + operands seen − `)` seen. Operator-stack size = start size + operators seen − `)` seen. |
| `Parser.ScanSucceedsIff` | Tree.js:69-81 | The scan fails if and only if some character cannot be consumed. That is either a character `Number` cannot read, or a `)` that arrives with fewer than two nodes or no operator waiting. |
| `Parser.ScanPrefix` | Tree.js:61-83 | If the whole scan succeeds, the scan of every prefix succeeds too. |
| `Parser.ParseExpression` | Tree.js:57-85 | The loop on local stacks, with early exits, returns exactly what the step-function model of `parse` returns. |
| `Notation.ScanIgnoresSpaces` | Tree.js:64-65 | Removing spaces from the input never changes the scan's outcome. |
| `Notation.ParseIgnoresSpaces` | Tree.js:64-65 | `parse` of a text equals `parse` of the text with its spaces removed. |
| `Notation.ScanSpelling` | Tree.js:69-81 | From any state, scanning a digit-leaf tree written in infix, prefix or postfix pushes exactly that tree and leaves the operator stack as it was. |
| `Notation.ShowStripped` | Tree.js:11-16 | The printout of a tree, with spaces removed, is its compact infix spelling. |
| `Notation.NotationIndependence` | Tree.js:57-85 | Any text that is, up to spaces, the infix, prefix or postfix spelling of a digit-leaf tree parses to that tree. The scan ends with that tree as the only node and no operator left. |
| `Notation.SameTreeAcrossNotations` | Tree.js:99-105 | Two spellings of the same tree, in any two notations and with any spacing, parse to the same tree. |
| `Notation.RoundTrip` | Tree.js:11-16 | Parsing the printout of a digit-leaf tree gives the tree back, ending with exactly one node and no operator. |
| `Notation.CanonicalReprints` | Tree.js:89 | Canonical infix text parses, and printing the result gives back exactly the same text. |
| `Notation.WellFormedPrefixCounts` | Tree.js:57-84 | For well-formed input, no prefix of the scan fails. At every prefix, node-stack size = operands − `)` and operator-stack size = operators − `)`. |
| `Notation.EvalAcrossNotations` | Tree.js:99-101 | Whatever the notation or spacing of the text, the tree read from a spelling of a defined tree is defined and evaluates to that tree's value. |
| `TreeExamples.OriginalPrintsBack` | Tree.js:89 | `((7 + ((3 - 2) x 5)) ÷ 6)` parses to the expected tree and prints back unchanged. |
| `TreeExamples.OriginalValue` | Tree.js:90 | That tree evaluates to 2. |
| `TreeExamples.BareDigit` | Tree.js:93 | `"0"` is a single leaf, and it evaluates to 0. |
| `TreeExamples.Products` | Tree.js:94-95 | `(3 x 8)` evaluates to 24 and `(9 ÷ 2)` to 4.5. |
| `TreeExamples.DivisionByZeroUndefined` | Tree.js:96 | `(9 ÷ 0)` parses, but the tree is outside `Eval`'s domain. |
| `TreeExamples.SeventeenInfix` | Tree.js:99 | The infix text parses to `((5 x 3) + 2)`, which evaluates to 17 and prints as that text. |
| `TreeExamples.SeventeenPostfix` | Tree.js:100 | `((5  3 x)  2 +)` parses to the same tree. |
| `TreeExamples.SeventeenPrefix` | Tree.js:101 | `(+ (x 5  3)  2)` parses to the same tree. |
| `TreeExamples.UnclosedReturnsTop` | Tree.js:84 | `(1 + 2` parses to the leaf 2, the top of the node stack. |
| `TreeExamples.TabIsOperandZero` | Tree.js:79 | In `(1 +<tab>2)` the tab is the operand 0, and `)` combines the 0 with the 2. |
| `TreeExamples.LoneCloseFails` | Tree.js:69-72 | A lone `)` has nothing to combine. |
| `Flattening.Flatten` | FlattenArray.js:6-12 | `flattenArray`. It is defined by its body. `Flattening.FlattenIsLeaves` pins it down against an independent definition. |
| `Flattening.FlattenIsLeaves` | FlattenArray.js:6-12 | The result is exactly the atoms in left-to-right depth-first order, compared against an independent definition that collects them from the last item backwards. |
| `Flattening.LeavesOfItemsAppend` | FlattenArray.js:9 | Collecting the atoms of `a + b` gives the atoms of `a` followed by the atoms of `b`. |
| `Flattening.FlattenConcat` | FlattenArray.js:9 | Flattening distributes over concatenation of an array's items. |
| `Flattening.FlattenAtoms` | FlattenArray.js:6-12 | Flattening an array whose items are all atoms lists those items unchanged. |
| `Flattening.FlattenIdempotent` | FlattenArray.js:6-12 | Flattening the result again, as an array of atoms, changes nothing. |
| `Flattening.FlattenIgnoresEmptyArrays` | FlattenArray.js:8 | Removing every empty array at every depth leaves the flattening unchanged, and afterwards no empty array remains inside. |
| `FlattenExamples.EmptyAndAtom` | FlattenArray.js:14-15 | `[]` flattens to `[]` and `"x"` to `["x"]`. |
| `FlattenExamples.Nesting` | FlattenArray.js:16-17 | Nested singletons flatten to `["x", "y"]`. |
| `FlattenExamples.Numbers` | FlattenArray.js:18 | `[1, [2], [3, 4, [5]]]` flattens to `[1, 2, 3, 4, 5]`. |
| `FlattenExamples.EmptyInside` | FlattenArray.js:19 | The empty array in `[1, [], ["a", [["test"]]]]` contributes nothing. |
| `FlattenExamples.Mixed` | FlattenArray.js:20 | Mixed numbers, strings and `{}` flatten in order. |

## Left out

- `Operators.Apply` and `Expressions.Eval` need a non-zero divisor. JavaScript's IEEE arithmetic gives `Infinity` or `NaN` on division by zero (Tree.js:96), and floating-point rounding is not modelled either. Values are exact `real`s.
- `Parser.Step`: a `)` with fewer than two nodes or no operator, and a character `Number` reads as `NaN`, end the parse with `None`. The source instead pushes a node holding `undefined` or `NaN` and keeps scanning. That placeholder may later be dropped: the source reads `"1)2"` as the leaf 2, where the model gives `None`. The model invents no error of its own.
- Leaves hold natural numbers, and `Expressions.DecimalString` writes them in plain decimal. JavaScript switches to exponent notation from 10^21 on. The parser only ever creates leaves 0 to 9, so this never arises from parsed text.
- `charAt` indexes UTF-16 code units, whereas Dafny strings are sequences of Unicode scalar values. Text with characters outside the Basic Multilingual Plane is not modelled.
- The `numExpressions` counter (Tree.js:60, 67, 73) is written but never read, so it is omitted.
- Closure-carrying node objects and the `operator in operators` probe (Tree.js:3-26) are replaced by the `Expr` datatype and the `Op` enumeration. The remark that operators can be added without touching the tree (Tree.js:28-31) is a design note, not behaviour.
- Only infix printing exists in the source. `Notation.Spelling` is a ghost description of accepted input text, not a printer.
- JavaScript's dynamic typing in `flattenArray` (`instanceof Array`, mixed element types) becomes the generic `Nested<T>`. The example values use a small `JsValue` datatype. That the output holds no arrays follows from its type, `seq<T>`.
- The `require("assert")` harness is not modelled. Its assertions are the example lemmas.
