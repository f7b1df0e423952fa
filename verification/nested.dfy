/** `flattenArray` of FlattenArray.js: a value that is not an array becomes a
    one-element list, an empty array becomes the empty list, and a non-empty
    array is the flattening of its first element followed by the flattening
    of the rest of it. JavaScript's untyped values become `Nested<T>`: an
    atom of any element type `T`, or an array of nested values. */
module Flattening {

  datatype Nested<T> = Atom(value: T) | Arr(items: seq<Nested<T>>)

  /** The number of atoms and arrays in a value; it bounds the recursion of
      `Flatten` on `array.slice(1)`, which is no structural sub-term. */
  function Size<T>(x: Nested<T>): nat
    decreases x
  {
    match x
    case Atom(_) => 1
    case Arr(items) => 1 + SizeOfItems(items)
  }

  function SizeOfItems<T>(items: seq<Nested<T>>): nat
    decreases items
  {
    if |items| == 0 then 0 else Size(items[0]) + SizeOfItems(items[1..])
  }

  /** `flattenArray`, recursing on the head and on the tail as the source does. */
  function Flatten<T>(x: Nested<T>): seq<T>
    decreases Size(x)
  {
    match x
    case Atom(v) => [v]
    case Arr(items) =>
      if |items| == 0 then []
      else
        assert Size(Arr(items)) == 1 + Size(items[0]) + SizeOfItems(items[1..]);
        Flatten(items[0]) + Flatten(Arr(items[1..]))
  }

  /** An independent account of the result: the atoms of a value in
      left-to-right depth-first order, collected from the last item back. */
  function Leaves<T>(x: Nested<T>): seq<T>
    decreases x
  {
    match x
    case Atom(v) => [v]
    case Arr(items) => LeavesOfItems(items)
  }

  function LeavesOfItems<T>(items: seq<Nested<T>>): seq<T>
    decreases items
  {
    if |items| == 0 then []
    else LeavesOfItems(items[..|items| - 1]) + Leaves(items[|items| - 1])
  }

  lemma {:induction false} LeavesOfItemsAppend<T>(a: seq<Nested<T>>, b: seq<Nested<T>>)
    ensures LeavesOfItems(a + b) == LeavesOfItems(a) + LeavesOfItems(b)
    decreases |b|
  {
    if |b| == 0 {
      assert a + b == a;
    } else {
      var c := a + b;
      assert c[..|c| - 1] == a + b[..|b| - 1];
      assert c[|c| - 1] == b[|b| - 1];
      LeavesOfItemsAppend(a, b[..|b| - 1]);
    }
  }

  /** `flattenArray` lists exactly the atoms, in left-to-right depth-first
      order: nothing else appears, nothing is lost, nothing is reordered. */
  lemma {:induction false} FlattenIsLeaves<T>(x: Nested<T>)
    ensures Flatten(x) == Leaves(x)
    decreases Size(x)
  {
    match x
    case Atom(_) =>
    case Arr(items) =>
      if |items| > 0 {
        assert Size(Arr(items)) == 1 + Size(items[0]) + SizeOfItems(items[1..]);
        FlattenIsLeaves(items[0]);
        FlattenIsLeaves(Arr(items[1..]));
        assert items == [items[0]] + items[1..];
        LeavesOfItemsAppend([items[0]], items[1..]);
        assert LeavesOfItems([items[0]]) == Leaves(items[0]) by {
          assert [items[0]][..0] == [];
        }
      }
  }

  /** Flattening distributes over concatenation of an array's items. */
  lemma FlattenConcat<T>(a: seq<Nested<T>>, b: seq<Nested<T>>)
    ensures Flatten(Arr(a + b)) == Flatten(Arr(a)) + Flatten(Arr(b))
  {
    FlattenIsLeaves(Arr(a + b));
    FlattenIsLeaves(Arr(a));
    FlattenIsLeaves(Arr(b));
    LeavesOfItemsAppend(a, b);
  }

  /** An array whose every item is an atom. */
  function Atoms<T>(s: seq<T>): (r: seq<Nested<T>>)
    ensures |r| == |s|
    ensures forall i :: 0 <= i < |s| ==> r[i] == Atom(s[i])
  {
    seq(|s|, i requires 0 <= i < |s| => Atom(s[i]))
  }

  /** A flat array is its own flattening: the items of an array of atoms are
      listed unchanged, so the output holds no arrays to flatten. */
  lemma {:induction false} FlattenAtoms<T>(s: seq<T>)
    ensures Flatten(Arr(Atoms(s))) == s
    decreases |s|
  {
    if |s| > 0 {
      var items := Atoms(s);
      assert items[1..] == Atoms(s[1..]);
      FlattenAtoms(s[1..]);
      assert Flatten(Arr(items)) == [s[0]] + Flatten(Arr(items[1..]));
    }
  }

  /** Idempotence: flattening the (atom-only) result again changes nothing. */
  lemma FlattenIdempotent<T>(x: Nested<T>)
    ensures Flatten(Arr(Atoms(Flatten(x)))) == Flatten(x)
  {
    FlattenAtoms(Flatten(x));
  }

  /** The value with every empty array removed, at every depth (an array that
      becomes empty once pruned is removed as well). */
  function Prune<T>(x: Nested<T>): Nested<T>
    decreases x
  {
    match x
    case Atom(_) => x
    case Arr(items) => Arr(PruneItems(items))
  }

  function PruneItems<T>(items: seq<Nested<T>>): seq<Nested<T>>
    decreases items
  {
    if |items| == 0 then []
    else
      var p := Prune(items[|items| - 1]);
      PruneItems(items[..|items| - 1]) + (if p == Arr([]) then [] else [p])
  }

  /** Whether no array inside the value (below its top) is empty. */
  predicate NoEmptyInside<T>(x: Nested<T>)
  {
    match x
    case Atom(_) => true
    case Arr(items) => forall i :: 0 <= i < |items| ==> items[i] != Arr([]) && NoEmptyInside(items[i])
  }

  lemma {:induction false} PruneRemovesEmpty<T>(x: Nested<T>)
    ensures NoEmptyInside(Prune(x))
    decreases x, 1
  {
    match x
    case Atom(_) =>
    case Arr(items) => PruneItemsRemoveEmpty(items);
  }

  lemma {:induction false} PruneItemsRemoveEmpty<T>(items: seq<Nested<T>>)
    ensures forall i :: 0 <= i < |PruneItems(items)| ==>
      PruneItems(items)[i] != Arr([]) && NoEmptyInside(PruneItems(items)[i])
    decreases items, 0
  {
    if |items| > 0 {
      PruneItemsRemoveEmpty(items[..|items| - 1]);
      PruneRemovesEmpty(items[|items| - 1]);
    }
  }

  /** Empty arrays at any depth contribute nothing to the flattening. */
  lemma {:induction false} PruneKeepsLeaves<T>(x: Nested<T>)
    ensures Leaves(Prune(x)) == Leaves(x)
    decreases x, 1
  {
    match x
    case Atom(_) =>
    case Arr(items) => PruneItemsKeepLeaves(items);
  }

  lemma {:induction false} PruneItemsKeepLeaves<T>(items: seq<Nested<T>>)
    ensures LeavesOfItems(PruneItems(items)) == LeavesOfItems(items)
    decreases items, 0
  {
    if |items| > 0 {
      var init, last := items[..|items| - 1], items[|items| - 1];
      var p := Prune(last);
      PruneItemsKeepLeaves(init);
      PruneKeepsLeaves(last);
      var tail: seq<Nested<T>> := if p == Arr([]) then [] else [p];
      LeavesOfItemsAppend(PruneItems(init), tail);
      assert LeavesOfItems(tail) == Leaves(p) by {
        if tail != [] { assert tail[..0] == []; }
      }
    }
  }

  lemma FlattenIgnoresEmptyArrays<T>(x: Nested<T>)
    ensures Flatten(Prune(x)) == Flatten(x)
    ensures NoEmptyInside(Prune(x))
  {
    FlattenIsLeaves(Prune(x));
    FlattenIsLeaves(x);
    PruneKeepsLeaves(x);
    PruneRemovesEmpty(x);
  }
}
