/** The operator table of Tree.js: four binary operators, each named by one
    character and each combining two numbers, left operand first. */
module Operators {

  import opened Optional

  datatype Op = Mul | Div | Add | Sub

  /** The character that names an operator in the table. None of the four is
      a space, a parenthesis or a decimal digit, so the parser's other
      branches never capture an operator symbol. */
  function Symbol(op: Op): (c: char)
    ensures c != ' ' && c != '(' && c != ')'
    ensures !('0' <= c <= '9')
  {
    match op
    case Mul => 'x'
    case Div => '÷'
    case Add => '+'
    case Sub => '-'
  }

  /** Table lookup: the operator a character names, if it names one
      (the `character in operators` test of the parser). */
  function FromSymbol(c: char): (r: Option<Op>)
    ensures r.Some? ==> Symbol(r.value) == c
    ensures forall op: Op :: Symbol(op) == c ==> r == Some(op)
  {
    if c == 'x' then Some(Mul)
    else if c == '÷' then Some(Div)
    else if c == '+' then Some(Add)
    else if c == '-' then Some(Sub)
    else None
  }

  /** Distinct operators have distinct symbols, so a symbol names at most one. */
  lemma SymbolInjective(a: Op, b: Op)
    ensures Symbol(a) == Symbol(b) <==> a == b
  {
  }

  /** The function an operator stands for, applied as `left op right`.
      Division asks for a non-zero divisor: IEEE infinities are not modelled. */
  function Apply(op: Op, left: real, right: real): (r: real)
    requires op == Div ==> right != 0.0
    ensures op == Mul ==> r == left * right
    ensures op == Div ==> r * right == left
    ensures op == Add ==> r - right == left
    ensures op == Sub ==> r + right == left
  {
    match op
    case Mul => left * right
    case Div => left / right
    case Add => left + right
    case Sub => left - right
  }
}
