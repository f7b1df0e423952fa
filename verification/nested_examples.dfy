/** The assertions of FlattenArray.js, with JavaScript's mixed values as a
    small datatype of numbers, strings and the empty object `{}`. */
module FlattenExamples {

  import opened Flattening

  datatype JsValue = Num(n: int) | Str(s: string) | EmptyObject

  /** FlattenArray.js lines 14-15. */
  lemma EmptyAndAtom()
    ensures Flatten<JsValue>(Arr([])) == []
    ensures Flatten(Atom(Str("x"))) == [Str("x")]
  {
  }

  /** FlattenArray.js lines 16-17. */
  lemma Nesting()
    ensures Flatten(Arr([Arr([Atom(Str("x"))]), Atom(Str("y"))])) == [Str("x"), Str("y")]
    ensures Flatten(Arr([Arr([Arr([Atom(Str("x"))])]), Arr([Arr([Atom(Str("y"))])])])) == [Str("x"), Str("y")]
  {
  }

  /** FlattenArray.js line 18. */
  lemma Numbers()
    ensures Flatten(Arr([Atom(Num(1)), Arr([Atom(Num(2))]), Arr([Atom(Num(3)), Atom(Num(4)), Arr([Atom(Num(5))])])]))
         == [Num(1), Num(2), Num(3), Num(4), Num(5)]
  {
  }

  /** FlattenArray.js line 19: the empty array contributes nothing. */
  lemma EmptyInside()
    ensures Flatten(Arr([Atom(Num(1)), Arr([]), Arr([Atom(Str("a")), Arr([Arr([Atom(Str("test"))])])])]))
         == [Num(1), Str("a"), Str("test")]
  {
  }

  /** FlattenArray.js line 20. */
  lemma Mixed()
    ensures Flatten(Arr([Atom(Num(1)), Arr([Atom(Num(0)), Arr([Atom(EmptyObject), Arr([Arr([Atom(Num(-10))]), Arr([Atom(Str("x"))])])])])]))
         == [Num(1), Num(0), EmptyObject, Num(-10), Str("x")]
  {
  }
}
