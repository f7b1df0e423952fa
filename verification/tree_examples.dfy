/** The assertions at the end of Tree.js, as facts about the model. */
module TreeExamples {

  import opened Optional
  import opened Operators
  import opened Expressions
  import opened Parser
  import opened Notation

  /** ((7 + ((3 - 2) x 5)) ÷ 6) */
  const Original := Node(Div, Node(Add, Leaf(7), Node(Mul, Node(Sub, Leaf(3), Leaf(2)), Leaf(5))), Leaf(6))

  /** ((5 x 3) + 2) */
  const Seventeen := Node(Add, Node(Mul, Leaf(5), Leaf(3)), Leaf(2))

  /** The inputs of the assertions at Tree.js lines 89, 100 and 101. */
  const OriginalInput: string := "((7 + ((3 - 2) x 5)) ÷ 6)"
  const PostfixInput: string := "((5  3 x)  2 +)"
  const PrefixInput: string := "(+ (x 5  3)  2)"
  /** The input of the tab example: `(1 +`, a tab, `2)`. */
  const TabInput: string := "(1 +\t2)"

  /** The inputs split into pieces, so that proofs can treat one piece at a
      time. */
  lemma InputPieces()
    ensures PostfixInput == "((5  " + "3 x)" + "  2 +)"
    ensures PrefixInput == "(+ " + "(x" + " 5  3)" + "  2)"
    ensures TabInput == "(1 +" + "\t2)"
  {
  }

  /** A digit leaf is written as its one digit. */
  lemma DigitText(d: nat, p: Placement)
    requires d < 10
    ensures Show(Leaf(d)) == [DigitChar(d)] && Spelling(Leaf(d), p) == [DigitChar(d)]
  {
    assert DecimalString(d) == [DigitChar(d)];
  }

  lemma OriginalText()
    ensures Show(Original) == "((7 + ((3 - 2) x 5)) ÷ 6)"
  {
    DigitText(2, Infix); DigitText(3, Infix);
    var diff := Node(Sub, Leaf(3), Leaf(2));
    assert Show(diff) == "(3 - 2)";
    DigitText(5, Infix);
    var prod := Node(Mul, diff, Leaf(5));
    assert Show(prod) == "((3 - 2) x 5)";
    DigitText(7, Infix);
    var sum := Node(Add, Leaf(7), prod);
    assert Show(sum) == "(7 + ((3 - 2) x 5))";
    DigitText(6, Infix);
  }

  /** Tree.js line 89: the input is read and printed back unchanged. */
  lemma OriginalPrintsBack()
    ensures Parse(OriginalInput) == Some(Original)
    ensures Show(Original) == OriginalInput
  {
    OriginalText();
    RoundTrip(Original);
  }

  /** Tree.js line 90. */
  lemma OriginalValue()
    ensures Eval(Original) == 2.0
  {
  }

  /** Tree.js line 93: a bare operand is a one-leaf tree. */
  lemma BareDigit()
    ensures Parse("0") == Some(Leaf(0))
    ensures Eval(Leaf(0)) == 0.0
  {
  }

  /** Tree.js lines 94-95. */
  lemma Products()
    ensures Parse("(3 x 8)") == Some(Node(Mul, Leaf(3), Leaf(8)))
    ensures Eval(Node(Mul, Leaf(3), Leaf(8))) == 24.0
    ensures Parse("(9 ÷ 2)") == Some(Node(Div, Leaf(9), Leaf(2)))
    ensures Eval(Node(Div, Leaf(9), Leaf(2))) == 4.5
  {
    DigitText(2, Infix); DigitText(3, Infix); DigitText(8, Infix); DigitText(9, Infix);
    assert Show(Node(Mul, Leaf(3), Leaf(8))) == "(3 x 8)";
    RoundTrip(Node(Mul, Leaf(3), Leaf(8)));
    assert Show(Node(Div, Leaf(9), Leaf(2))) == "(9 ÷ 2)";
    RoundTrip(Node(Div, Leaf(9), Leaf(2)));
  }

  /** Tree.js line 96: `(9 ÷ 0)` is read, but its value (IEEE infinity) is
      outside the model. */
  lemma DivisionByZeroUndefined()
    ensures Parse("(9 ÷ 0)") == Some(Node(Div, Leaf(9), Leaf(0)))
    ensures !Defined(Node(Div, Leaf(9), Leaf(0)))
  {
    DigitText(0, Infix); DigitText(9, Infix);
    assert Show(Node(Div, Leaf(9), Leaf(0))) == "(9 ÷ 0)";
    RoundTrip(Node(Div, Leaf(9), Leaf(0)));
  }

  lemma SeventeenSpellings()
    ensures Show(Seventeen) == "((5 x 3) + 2)"
    ensures Spelling(Seventeen, Postfix) == "((53x)2+)"
    ensures Spelling(Seventeen, Prefix) == "(+(x53)2)"
  {
    DigitText(2, Infix); DigitText(3, Infix); DigitText(5, Infix);
    DigitText(2, Prefix); DigitText(3, Prefix); DigitText(5, Prefix);
    DigitText(2, Postfix); DigitText(3, Postfix); DigitText(5, Postfix);
    assert Show(Node(Mul, Leaf(5), Leaf(3))) == "(5 x 3)";
    assert Spelling(Node(Mul, Leaf(5), Leaf(3)), Postfix) == "(53x)";
    assert Spelling(Node(Mul, Leaf(5), Leaf(3)), Prefix) == "(x53)";
  }

  /** Tree.js lines 99 and 103: infix. */
  lemma SeventeenInfix()
    ensures Parse("((5 x 3) + 2)") == Some(Seventeen)
    ensures Show(Seventeen) == "((5 x 3) + 2)"
    ensures Eval(Seventeen) == 17.0
  {
    SeventeenSpellings();
    RoundTrip(Seventeen);
  }

  /** `PostfixInput`, piece by piece, with its spaces removed. */
  lemma PostfixStripped()
    ensures StripSpaces("((5  " + "3 x)" + "  2 +)") == "((53x)2+)"
  {
    assert StripSpaces("((5  ") == "((5";
    assert StripSpaces("3 x)") == "3x)";
    assert StripSpaces("  2 +)") == "2+)";
    StripSpacesAppend("((5  ", "3 x)");
    StripSpacesAppend("((5  " + "3 x)", "  2 +)");
  }

  /** `PrefixInput`, piece by piece, with its spaces removed. */
  lemma PrefixStripped()
    ensures StripSpaces("(+ " + "(x" + " 5  3)" + "  2)") == "(+(x53)2)"
  {
    assert StripSpaces("(+ ") == "(+";
    assert StripSpaces(" 5  3)") == "53)";
    assert StripSpaces("  2)") == "2)";
    StripSpacesAppend("(+ ", "(x");
    StripSpacesAppend("(+ " + "(x", " 5  3)");
    StripSpacesAppend("(+ " + "(x" + " 5  3)", "  2)");
  }

  /** Tree.js lines 100 and 104: postfix, with doubled spaces. */
  lemma SeventeenPostfix()
    ensures Parse(PostfixInput) == Some(Seventeen)
  {
    SeventeenSpellings();
    InputPieces();
    PostfixStripped();
    NotationIndependence(Seventeen, Postfix, PostfixInput);
  }

  /** Tree.js lines 101 and 105: prefix, with doubled spaces. */
  lemma SeventeenPrefix()
    ensures Parse(PrefixInput) == Some(Seventeen)
  {
    SeventeenSpellings();
    InputPieces();
    PrefixStripped();
    NotationIndependence(Seventeen, Prefix, PrefixInput);
  }

  /** Parentheses are not matched: an unclosed expression leaves its operands
      on the stack and the top one is returned. */
  lemma UnclosedReturnsTop()
    ensures Parse("(1 + 2") == Some(Leaf(2))
  {
  }

  lemma TabHead()
    ensures Scan(Start, "(1 +") == Some(ParseState([Leaf(1)], [Add]))
  {
    assert Classify('1') == Operand(1);
    assert [] + [Leaf(1)] == [Leaf(1)];
    assert [] + [Add] == [Add];
  }

  lemma TabTail()
    ensures Scan(ParseState([Leaf(1)], [Add]), "\t2)") == Some(ParseState([Leaf(1), Node(Add, Leaf(0), Leaf(2))], []))
  {
    var below := ParseState([Leaf(1)], []);
    assert Classify('\t') == Operand(0);
    assert Classify('2') == Operand(2);
    assert ParseState([Leaf(1)], [Add]) == ParseState(below.nodes, below.ops + [Add]);
    CloseNode(below, Add, Leaf(0), Leaf(2));
    assert [Leaf(1)] + [Node(Add, Leaf(0), Leaf(2))] == [Leaf(1), Node(Add, Leaf(0), Leaf(2))];
  }

  /** Only the space is skipped: a tab is read by `Number` as the operand 0,
      and the `)` combines it with the 2, leaving the 1 below. */
  lemma TabIsOperandZero()
    ensures Parse(TabInput) == Some(Node(Add, Leaf(0), Leaf(2)))
  {
    InputPieces();
    TabHead();
    TabTail();
    ScanAppend(Start, "(1 +", "\t2)");
  }

  /** A `)` with nothing to combine stops the model's parse. */
  lemma LoneCloseFails()
    ensures Parse(")") == None
  {
  }
}
