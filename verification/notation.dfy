/** Why one parser reads infix, prefix and postfix alike: it never looks at
    where an operator stands, only at how many nodes and operators are
    waiting when a `)` arrives. `Spelling` describes the inputs the tests use
    (a tree written in one of the three notations); it is a description of
    accepted text, not an operation of the program, which prints infix only. */
module Notation {

  import opened Optional
  import opened Operators
  import opened Expressions
  import opened Parser

  datatype Placement = Infix | Prefix | Postfix

  /** A tree written without spaces, each operator placed before, between or
      after its two operands inside the parentheses. */
  ghost function Spelling(e: Expr, p: Placement): string
  {
    match e
    case Leaf(v) => DecimalString(v)
    case Node(op, l, r) =>
      var L, R, o := Spelling(l, p), Spelling(r, p), [Symbol(op)];
      match p
      case Infix => "(" + L + o + R + ")"
      case Prefix => "(" + o + L + R + ")"
      case Postfix => "(" + L + R + o + ")"
  }

  /** The input with every space removed. */
  function StripSpaces(s: string): (r: string)
    ensures forall i :: 0 <= i < |r| ==> r[i] != ' '
    ensures |r| <= |s|
  {
    if |s| == 0 then []
    else if s[0] == ' ' then StripSpaces(s[1..])
    else [s[0]] + StripSpaces(s[1..])
  }

  lemma {:induction false} StripSpacesAppend(a: string, b: string)
    ensures StripSpaces(a + b) == StripSpaces(a) + StripSpaces(b)
    decreases |a|
  {
    if |a| == 0 {
      assert a + b == b;
    } else {
      assert (a + b)[0] == a[0];
      assert (a + b)[1..] == a[1..] + b;
      StripSpacesAppend(a[1..], b);
    }
  }

  /** Removing spaces from text that has none changes nothing. */
  lemma {:induction false} StripSpacesNone(s: string)
    requires forall i :: 0 <= i < |s| ==> s[i] != ' '
    ensures StripSpaces(s) == s
    decreases |s|
  {
    if |s| > 0 {
      StripSpacesNone(s[1..]);
    }
  }

  /** Spaces between tokens are invisible to the parser: every character is
      a token of its own and a space leaves both stacks as they are. */
  lemma {:induction false} ScanIgnoresSpaces(st: ParseState, s: string)
    ensures Scan(st, s) == Scan(st, StripSpaces(s))
    decreases |s|
  {
    if |s| > 0 {
      if s[0] == ' ' {
        ScanIgnoresSpaces(st, s[1..]);
      } else {
        var t := [s[0]] + StripSpaces(s[1..]);
        assert t[0] == s[0] && t[1..] == StripSpaces(s[1..]);
        match Step(st, s[0])
        case None =>
        case Some(next) => ScanIgnoresSpaces(next, s[1..]);
      }
    }
  }

  lemma ParseIgnoresSpaces(s: string)
    ensures Parse(s) == Parse(StripSpaces(s))
  {
    ScanIgnoresSpaces(Start, s);
  }

  function Push(st: ParseState, e: Expr): ParseState
  {
    ParseState(st.nodes + [e], st.ops)
  }

  /** The `)` that closes a sub-expression, whatever order its two operands
      and its operator were pushed in. */
  lemma CloseNode(st: ParseState, op: Op, l: Expr, r: Expr)
    ensures Step(ParseState(st.nodes + [l] + [r], st.ops + [op]), ')') == Some(Push(st, Node(op, l, r)))
  {
    var nodes := st.nodes + [l] + [r];
    assert nodes[..|nodes| - 2] == st.nodes;
    assert (st.ops + [op])[..|st.ops|] == st.ops;
  }

  lemma ScanOne(st: ParseState, c: char)
    ensures Scan(st, [c]) == Step(st, c)
  {
    assert [c][1..] == [];
  }

  lemma ClassifyDigit(d: nat)
    requires d < 10
    ensures Classify(DigitChar(d)) == Operand(d)
  {
    var c := DigitChar(d);
    assert FromSymbol(c) == None;
  }

  /** Scanning the spelling of a digit-leaf tree, in any of the three
      notations and from any state, pushes exactly that tree on the node
      stack and leaves the operator stack as it was. */
  lemma {:induction false} ScanSpelling(st: ParseState, e: Expr, p: Placement)
    requires DigitLeaves(e)
    ensures Scan(st, Spelling(e, p)) == Some(Push(st, e))
    decreases e
  {
    match e
    case Leaf(v) =>
      assert DecimalString(v) == [DigitChar(v)];
      ClassifyDigit(v);
      ScanOne(st, DigitChar(v));
    case Node(op, l, r) =>
      var L, R, o := Spelling(l, p), Spelling(r, p), [Symbol(op)];
      var withOp := ParseState(st.nodes, st.ops + [op]);
      var withL := Push(st, l);
      var withLOp := Push(withOp, l);
      var ready := ParseState(st.nodes + [l] + [r], st.ops + [op]);
      assert Classify(Symbol(op)) == OperatorChar(op);
      ScanOne(st, '(');
      CloseNode(st, op, l, r);
      ScanOne(ready, ')');
      match p
      case Infix =>
        ScanAppend(st, "(", L);
        ScanSpelling(st, l, p);
        ScanOne(withL, Symbol(op));
        ScanAppend(st, "(" + L, o);
        ScanSpelling(withLOp, r, p);
        ScanAppend(st, "(" + L + o, R);
        ScanAppend(st, "(" + L + o + R, ")");
      case Prefix =>
        ScanOne(st, Symbol(op));
        ScanAppend(st, "(", o);
        ScanSpelling(withOp, l, p);
        ScanAppend(st, "(" + o, L);
        ScanSpelling(withLOp, r, p);
        ScanAppend(st, "(" + o + L, R);
        ScanAppend(st, "(" + o + L + R, ")");
      case Postfix =>
        ScanAppend(st, "(", L);
        ScanSpelling(st, l, p);
        ScanSpelling(withL, r, p);
        ScanAppend(st, "(" + L, R);
        ScanOne(Push(withL, r), Symbol(op));
        ScanAppend(st, "(" + L + R, o);
        ScanAppend(st, "(" + L + R + o, ")");
  }

  /** The printed tree, spaces removed, is its compact infix spelling. */
  lemma {:induction false} ShowStripped(e: Expr)
    ensures StripSpaces(Show(e)) == Spelling(e, Infix)
    decreases e
  {
    match e
    case Leaf(v) =>
      StripSpacesNone(DecimalString(v));
    case Node(op, l, r) =>
      var L, R, o := Show(l), Show(r), [Symbol(op)];
      ShowStripped(l);
      ShowStripped(r);
      StripSpacesNone(o);
      StripSpacesNone("(");
      StripSpacesNone(")");
      assert StripSpaces(" ") == [];
      var a := "(" + L;
      StripSpacesAppend("(", L);
      assert StripSpaces(a) == "(" + Spelling(l, Infix);
      var b := a + " ";
      StripSpacesAppend(a, " ");
      assert StripSpaces(b) == StripSpaces(a);
      var c := b + o;
      StripSpacesAppend(b, o);
      var d := c + " ";
      StripSpacesAppend(c, " ");
      assert StripSpaces(d) == StripSpaces(c);
      var f := d + R;
      StripSpacesAppend(d, R);
      StripSpacesAppend(f, ")");
      assert Show(e) == f + ")";
  }

  /** Notation independence: any text that is, up to spaces, the infix,
      prefix or postfix spelling of a digit-leaf tree parses to that tree,
      and the scan ends with that tree as the only node and no operator. */
  lemma NotationIndependence(e: Expr, p: Placement, s: string)
    requires DigitLeaves(e)
    requires StripSpaces(s) == Spelling(e, p)
    ensures Scan(Start, s) == Some(ParseState([e], []))
    ensures Parse(s) == Some(e)
  {
    ScanIgnoresSpaces(Start, s);
    ScanSpelling(Start, e, p);
    assert Push(Start, e) == ParseState([e], []);
  }

  /** The three notations of one tree parse to the same tree. */
  lemma SameTreeAcrossNotations(e: Expr, s1: string, p1: Placement, s2: string, p2: Placement)
    requires DigitLeaves(e)
    requires StripSpaces(s1) == Spelling(e, p1) && StripSpaces(s2) == Spelling(e, p2)
    ensures Parse(s1).Some? && Parse(s1) == Parse(s2)
  {
    NotationIndependence(e, p1, s1);
    NotationIndependence(e, p2, s2);
  }

  /** Parse/print round trip: printing a digit-leaf tree and parsing the
      text gives the tree back, with the scan ending on one node and no
      operator. */
  lemma RoundTrip(e: Expr)
    requires DigitLeaves(e)
    ensures Scan(Start, Show(e)) == Some(ParseState([e], []))
    ensures Parse(Show(e)) == Some(e)
  {
    ShowStripped(e);
    NotationIndependence(e, Infix, Show(e));
  }

  /** Text that is the printout of some digit-leaf tree. */
  ghost predicate Canonical(s: string)
  {
    exists e :: DigitLeaves(e) && Show(e) == s
  }

  /** The other direction of the round trip: canonical infix text parses,
      and printing the tree reproduces the text exactly. */
  lemma CanonicalReprints(s: string)
    requires Canonical(s)
    ensures Parse(s).Some? && Show(Parse(s).value) == s
  {
    var e :| DigitLeaves(e) && Show(e) == s;
    RoundTrip(e);
  }

  /** For well-formed input the stack counts hold at every point of the
      scan: no prefix fails, the node stack holds the operands seen minus the
      `)` seen, and the operator stack the operators seen minus the `)` seen. */
  lemma WellFormedPrefixCounts(e: Expr, p: Placement, s: string, i: nat)
    requires DigitLeaves(e)
    requires StripSpaces(s) == Spelling(e, p)
    requires i <= |s|
    ensures Scan(Start, s[..i]).Some?
    ensures |Scan(Start, s[..i]).value.nodes| == CountOperands(s[..i]) - CountCloses(s[..i])
    ensures |Scan(Start, s[..i]).value.ops| == CountOperators(s[..i]) - CountCloses(s[..i])
  {
    NotationIndependence(e, p, s);
    ScanPrefix(Start, s, i);
    ScanCounts(Start, s[..i]);
  }

  /** The tree read from any notation evaluates to the value of the tree the
      text spells. */
  lemma EvalAcrossNotations(e: Expr, p: Placement, s: string)
    requires DigitLeaves(e) && Defined(e)
    requires StripSpaces(s) == Spelling(e, p)
    ensures Parse(s).Some? && Defined(Parse(s).value) && Eval(Parse(s).value) == Eval(e)
  {
    NotationIndependence(e, p, s);
  }
}
