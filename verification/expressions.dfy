/** The expression tree of Tree.js: a node is either an operand leaf holding a
    number or an operator node with a left and a right child. `Eval` is the
    node's `result` and `Show` its `toString`. */
module Expressions {

  import opened Optional
  import opened Operators

  /** Leaves hold natural numbers: the parser only ever builds leaves from a
      single digit (or from a whitespace character, which `Number` reads as 0). */
  datatype Expr = Leaf(value: nat) | Node(op: Op, left: Expr, right: Expr)

  /** Every division in the tree has a non-zero divisor, so `Eval` is defined. */
  predicate Defined(e: Expr)
    decreases e, 0
  {
    match e
    case Leaf(_) => true
    case Node(op, l, r) => Defined(l) && Defined(r) && (op == Div ==> Eval(r) != 0.0)
  }

  /** The value of a tree: a leaf's stored number, or the node's operator
      applied to the values of its left and right children. */
  function Eval(e: Expr): real
    requires Defined(e)
    decreases e, 1
  {
    match e
    case Leaf(v) => v as real
    case Node(op, l, r) => Apply(op, Eval(l), Eval(r))
  }

  /** All leaves are single decimal digits. */
  predicate DigitLeaves(e: Expr)
  {
    match e
    case Leaf(v) => v < 10
    case Node(_, l, r) => DigitLeaves(l) && DigitLeaves(r)
  }

  function DigitChar(d: nat): (c: char)
    requires d < 10
    ensures '0' <= c <= '9'
  {
    (d + '0' as int) as char
  }

  /** The numeric value of a string of decimal digits. */
  function DecimalValue(s: string): nat
    requires forall i :: 0 <= i < |s| ==> '0' <= s[i] <= '9'
  {
    if |s| == 0 then 0
    else 10 * DecimalValue(s[..|s| - 1]) + (s[|s| - 1] as int - '0' as int)
  }

  /** The decimal text of a natural number, as JavaScript's `toString` writes
      an integer: digits only, no leading zero, reading back to the number. */
  function DecimalString(n: nat): (s: string)
    ensures |s| > 0
    ensures forall i :: 0 <= i < |s| ==> '0' <= s[i] <= '9'
    ensures |s| > 1 ==> s[0] != '0'
    ensures n < 10 <==> |s| == 1
    ensures DecimalValue(s) == n
    decreases n
  {
    if n < 10 then [DigitChar(n)]
    else
      var s := DecimalString(n / 10) + [DigitChar(n % 10)];
      assert s[..|s| - 1] == DecimalString(n / 10);
      s
  }

  /** A tree printed as fully parenthesised infix: `(left op right)` with one
      space on each side of the operator symbol. */
  function Show(e: Expr): (s: string)
    ensures |s| > 0
    ensures e.Leaf? <==> '0' <= s[0] <= '9'
    ensures e.Node? ==> s[0] == '(' && s[|s| - 1] == ')'
  {
    match e
    case Leaf(v) => DecimalString(v)
    case Node(op, l, r) => "(" + Show(l) + " " + [Symbol(op)] + " " + Show(r) + ")"
  }

  /** An instruction of a postfix stack machine: push a number, or pop the
      right and then the left operand and push the operator applied to them. */
  datatype Instr = Push(value: nat) | Combine(op: Op)

  /** A tree as postfix code: the left child's code, the right child's, then
      the node's operator. */
  function Code(e: Expr): seq<Instr>
  {
    match e
    case Leaf(v) => [Push(v)]
    case Node(op, l, r) => Code(l) + Code(r) + [Combine(op)]
  }

  /** The stack machine: an independent way to compute a tree's value. It
      stops with `None` on a missing operand or a division by zero. */
  function Run(code: seq<Instr>, stack: seq<real>): Option<seq<real>>
    decreases |code|
  {
    if |code| == 0 then Some(stack)
    else
      match code[0]
      case Push(v) => Run(code[1..], stack + [v as real])
      case Combine(op) =>
        var n := |stack|;
        if n < 2 || (op == Div && stack[n - 1] == 0.0) then None
        else Run(code[1..], stack[..n - 2] + [Apply(op, stack[n - 2], stack[n - 1])])
  }

  /** Running `a + b` is running `a`, then `b` on the stack it leaves. */
  lemma {:induction false} RunAppend(a: seq<Instr>, b: seq<Instr>, stack: seq<real>)
    ensures Run(a + b, stack) == match Run(a, stack) case None => None case Some(st) => Run(b, st)
    decreases |a|
  {
    if |a| == 0 {
      assert a + b == b;
    } else {
      assert (a + b)[0] == a[0];
      assert (a + b)[1..] == a[1..] + b;
      match a[0]
      case Push(v) =>
        RunAppend(a[1..], b, stack + [v as real]);
      case Combine(op) =>
        var n := |stack|;
        if !(n < 2 || (op == Div && stack[n - 1] == 0.0)) {
          RunAppend(a[1..], b, stack[..n - 2] + [Apply(op, stack[n - 2], stack[n - 1])]);
        }
    }
  }

  /** `result` agrees with the stack machine on every tree and every stack
      below: the code of a defined tree pushes exactly its value and leaves
      the stack below untouched, and the code of a tree with a zero divisor
      fails. */
  lemma {:induction false} EvalByMachine(e: Expr, stack: seq<real>)
    ensures Run(Code(e), stack) == if Defined(e) then Some(stack + [Eval(e)]) else None
  {
    match e
    case Leaf(v) =>
    case Node(op, l, r) =>
      RunAppend(Code(l) + Code(r), [Combine(op)], stack);
      RunAppend(Code(l), Code(r), stack);
      EvalByMachine(l, stack);
      if Defined(l) {
        EvalByMachine(r, stack + [Eval(l)]);
        if Defined(r) {
          var st := stack + [Eval(l)] + [Eval(r)];
          assert st[..|st| - 2] == stack;
        }
      }
  }
}
