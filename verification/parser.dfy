/** `TreeFactory.parse` of Tree.js: one left-to-right pass over the characters
    with a node stack and an operator stack (tops at the end of each `seq`).
    A space and `(` do nothing, an operator symbol is pushed on the operator
    stack, any other character is read with `Number` and pushed as a leaf, and
    `)` pops two nodes and one operator and pushes the node they make. The
    result is the top of the node stack after the last character. */
module Parser {

  import opened Optional
  import opened Operators
  import opened Expressions

  /** The characters JavaScript's `Number` trims from a string: white space
      and line terminators. A one-character string made of one of them reads
      as the number 0. */
  predicate IsJsWhiteSpace(c: char)
  {
    || c == '\t' || c == '\n' || c == '\U{B}' || c == '\U{C}' || c == '\r'
    || c == ' ' || c == '\U{A0}' || c == '\U{1680}'
    || ('\U{2000}' <= c <= '\U{200A}')
    || c == '\U{2028}' || c == '\U{2029}' || c == '\U{202F}' || c == '\U{205F}'
    || c == '\U{3000}' || c == '\U{FEFF}'
  }

  /** `Number(c)` for a one-character string `c`, when it is not `NaN`:
      a decimal digit reads as its value and white space as 0. */
  function NumberOf(c: char): (r: Option<nat>)
    ensures r.Some? <==> ('0' <= c <= '9' || IsJsWhiteSpace(c))
    ensures r.Some? ==> r.value < 10
    ensures r.Some? && '0' <= c <= '9' ==> DigitChar(r.value) == c
    ensures r.Some? && !('0' <= c <= '9') ==> r.value == 0
  {
    if '0' <= c <= '9' then Some(c as int - '0' as int)
    else if IsJsWhiteSpace(c) then Some(0)
    else None
  }

  /** The branch of the parser's `switch` a character takes. */
  datatype CharClass =
    | Blank
    | Open
    | Close
    | OperatorChar(op: Op)
    | Operand(value: nat)
    | NotANumber

  function Classify(c: char): (k: CharClass)
    ensures k == Blank <==> c == ' '
    ensures k == Open <==> c == '('
    ensures k == Close <==> c == ')'
    ensures forall op: Op :: k == OperatorChar(op) <==> c == Symbol(op)
    ensures k.Operand? <==> c !in " ()x÷+-" && NumberOf(c).Some?
    ensures k.Operand? ==> k.value == NumberOf(c).value
  {
    if c == ' ' then Blank
    else if c == '(' then Open
    else if c == ')' then Close
    else match FromSymbol(c)
      case Some(op) => OperatorChar(op)
      case None =>
        match NumberOf(c)
        case Some(v) => Operand(v)
        case None => NotANumber
  }

  datatype ParseState = ParseState(nodes: seq<Expr>, ops: seq<Op>)

  const Start := ParseState([], [])

  /** One iteration of the parser's loop. `None` stands for the points where
      the JavaScript code goes on with an `undefined` or `NaN` value: a `)`
      with fewer than two nodes or no operator pending, and a character that
      `Number` cannot read. */
  function Step(st: ParseState, c: char): Option<ParseState>
  {
    match Classify(c)
    case Blank => Some(st)
    case Open => Some(st)
    case Close =>
      var n, m := |st.nodes|, |st.ops|;
      if n < 2 || m == 0 then None
      else Some(ParseState(st.nodes[..n - 2] + [Node(st.ops[m - 1], st.nodes[n - 2], st.nodes[n - 1])],
                           st.ops[..m - 1]))
    case OperatorChar(op) => Some(ParseState(st.nodes, st.ops + [op]))
    case Operand(v) => Some(ParseState(st.nodes + [Leaf(v)], st.ops))
    case NotANumber => None
  }

  /** The loop over the remaining characters, from a given state. */
  function Scan(st: ParseState, s: string): Option<ParseState>
    decreases |s|
  {
    if |s| == 0 then Some(st)
    else
      match Step(st, s[0])
      case None => None
      case Some(next) => Scan(next, s[1..])
  }

  /** `TreeFactory.parse`: the top of the node stack once the scan is over.
      Nodes and operators left below it are dropped, as `pop` drops them. */
  function Parse(s: string): Option<Expr>
  {
    match Scan(Start, s)
    case None => None
    case Some(st) => if |st.nodes| == 0 then None else Some(st.nodes[|st.nodes| - 1])
  }

  /** The effect of one character on the two stacks. A space and `(` change
      nothing; an operator symbol grows only the operator stack, by one; an
      operand grows only the node stack, by one; `)` on stacks that can serve
      it replaces the top two nodes by one node whose left child is the
      second-from-top and whose right child is the top, takes exactly one
      operator, and leaves every entry below untouched. */
  lemma StepEffects(st: ParseState, c: char)
    ensures c == ' ' || c == '(' ==> Step(st, c) == Some(st)
    ensures forall op: Op :: c == Symbol(op) ==>
      Step(st, c) == Some(ParseState(st.nodes, st.ops + [op]))
    ensures Classify(c).Operand? ==>
      Step(st, c) == Some(ParseState(st.nodes + [Leaf(NumberOf(c).value)], st.ops))
    ensures c == ')' ==> (Step(st, c).Some? <==> |st.nodes| >= 2 && |st.ops| >= 1)
    ensures c == ')' && Step(st, c).Some? ==>
      var n, m, next := |st.nodes|, |st.ops|, Step(st, c).value;
      && |next.nodes| == n - 1 && |next.ops| == m - 1
      && next.nodes[..n - 2] == st.nodes[..n - 2]
      && next.ops == st.ops[..m - 1]
      && next.nodes[n - 2] == Node(st.ops[m - 1], st.nodes[n - 2], st.nodes[n - 1])
    ensures Classify(c) == NotANumber ==> Step(st, c) == None
  {
  }

  /** Sequencing the scan: scanning `a + b` is scanning `a`, then `b`. */
  lemma {:induction false} ScanAppend(st: ParseState, a: string, b: string)
    ensures Scan(st, a + b) == match Scan(st, a) case None => None case Some(mid) => Scan(mid, b)
    decreases |a|
  {
    if |a| == 0 {
      assert a + b == b;
    } else {
      assert (a + b)[0] == a[0];
      assert (a + b)[1..] == a[1..] + b;
      match Step(st, a[0])
      case None =>
      case Some(next) => ScanAppend(next, a[1..], b);
    }
  }

  /** How many characters of `s` push a leaf. */
  function CountOperands(s: string): nat
  {
    if |s| == 0 then 0 else (if Classify(s[0]).Operand? then 1 else 0) + CountOperands(s[1..])
  }

  /** How many characters of `s` are operator symbols. */
  function CountOperators(s: string): nat
  {
    if |s| == 0 then 0 else (if Classify(s[0]).OperatorChar? then 1 else 0) + CountOperators(s[1..])
  }

  /** How many characters of `s` are `)`. */
  function CountCloses(s: string): nat
  {
    if |s| == 0 then 0 else (if s[0] == ')' then 1 else 0) + CountCloses(s[1..])
  }

  /** The counts of a prefix one character longer. */
  lemma PrefixCounts(s: string, i: nat)
    requires 0 < i <= |s|
    ensures CountOperands(s[..i]) == (if Classify(s[0]).Operand? then 1 else 0) + CountOperands(s[1..][..i - 1])
    ensures CountOperators(s[..i]) == (if Classify(s[0]).OperatorChar? then 1 else 0) + CountOperators(s[1..][..i - 1])
    ensures CountCloses(s[..i]) == (if s[0] == ')' then 1 else 0) + CountCloses(s[1..][..i - 1])
  {
    assert s[..i][0] == s[0];
    assert s[..i][1..] == s[1..][..i - 1];
  }

  /** The stack-count invariant of the scan: after any successful scan the
      node stack has grown by the operands seen minus the `)` seen, and the
      operator stack by the operators seen minus the `)` seen. */
  lemma {:induction false} ScanCounts(st: ParseState, s: string)
    requires Scan(st, s).Some?
    ensures |Scan(st, s).value.nodes| == |st.nodes| + CountOperands(s) - CountCloses(s)
    ensures |Scan(st, s).value.ops| == |st.ops| + CountOperators(s) - CountCloses(s)
    decreases |s|
  {
    if |s| > 0 {
      var next := Step(st, s[0]).value;
      ScanCounts(next, s[1..]);
    }
  }

  /** Whether the character at position `i` can be consumed, given what the
      characters before it have pushed and popped: it must be readable, and a
      `)` must find two nodes and one operator waiting. */
  predicate Accepts(st: ParseState, s: string, i: nat)
    requires i < |s|
  {
    && Classify(s[i]) != NotANumber
    && (s[i] == ')' ==>
          && |st.nodes| + CountOperands(s[..i]) - CountCloses(s[..i]) >= 2
          && |st.ops| + CountOperators(s[..i]) - CountCloses(s[..i]) >= 1)
  }

  /** The scan fails exactly when some character cannot be consumed: a
      character `Number` cannot read, or a `)` arriving with fewer than two
      nodes or no operator on the stacks. */
  lemma {:induction false} ScanSucceedsIff(st: ParseState, s: string)
    ensures Scan(st, s).Some? <==> forall i :: 0 <= i < |s| ==> Accepts(st, s, i)
    decreases |s|
  {
    if |s| > 0 {
      assert s[..0] == [];
      match Step(st, s[0])
      case None =>
        assert !Accepts(st, s, 0);
      case Some(next) =>
        ScanSucceedsIff(next, s[1..]);
        forall i | 0 < i < |s|
          ensures Accepts(st, s, i) <==> Accepts(next, s[1..], i - 1)
        {
          PrefixCounts(s, i);
        }
        assert Accepts(st, s, 0);
        if forall j :: 0 <= j < |s| - 1 ==> Accepts(next, s[1..], j) {
          forall i | 0 <= i < |s| ensures Accepts(st, s, i) {
            if i > 0 { assert Accepts(next, s[1..], i - 1); }
          }
        } else {
          var j :| 0 <= j < |s| - 1 && !Accepts(next, s[1..], j);
          assert !Accepts(st, s, j + 1);
        }
    }
  }

  /** The scan can only fail on a prefix: once a prefix has failed, no
      continuation succeeds. */
  lemma ScanPrefix(st: ParseState, s: string, i: nat)
    requires i <= |s|
    requires Scan(st, s).Some?
    ensures Scan(st, s[..i]).Some?
  {
    assert s == s[..i] + s[i..];
    ScanAppend(st, s[..i], s[i..]);
  }

  /** The loop of `TreeFactory.parse` on local stacks, with the model's early
      `None` exits where the source continues with an `undefined` or `NaN`
      placeholder. */
  method ParseExpression(s: string) returns (r: Option<Expr>)
    ensures r == Parse(s)
  {
    var nodes: seq<Expr> := [];
    var ops: seq<Op> := [];
    var i := 0;
    while i < |s|
      invariant 0 <= i <= |s|
      invariant Scan(ParseState(nodes, ops), s[i..]) == Scan(Start, s)
    {
      var c := s[i];
      assert s[i..][0] == c && s[i..][1..] == s[i + 1..];
      if c == ' ' || c == '(' {
      } else if c == ')' {
        if |nodes| < 2 || |ops| == 0 {
          return None;
        }
        var right := nodes[|nodes| - 1];
        var left := nodes[|nodes| - 2];
        nodes := nodes[..|nodes| - 2] + [Node(ops[|ops| - 1], left, right)];
        ops := ops[..|ops| - 1];
      } else {
        match FromSymbol(c)
        case Some(op) =>
          ops := ops + [op];
        case None =>
          match NumberOf(c)
          case Some(v) =>
            nodes := nodes + [Leaf(v)];
          case None =>
            return None;
      }
      i := i + 1;
    }
    if |nodes| == 0 {
      return None;
    }
    r := Some(nodes[|nodes| - 1]);
  }
}
