/** Sorting by a strict total order. The order a sorted slice ends up in is a
    function of its elements alone, which is what makes results independent of
    Go's map iteration order. */
module Sorting {

  ghost predicate StrictTotalOn<T>(less: (T, T) -> bool, s: set<T>) {
    && (forall a | a in s :: !less(a, a))
    && (forall a, b | a in s && b in s && a != b :: less(a, b) || less(b, a))
    && (forall a, b, c | a in s && b in s && c in s && less(a, b) && less(b, c) :: less(a, c))
  }

  ghost predicate SortedBy<T>(less: (T, T) -> bool, xs: seq<T>) {
    forall i, j | 0 <= i < j < |xs| :: less(xs[i], xs[j])
  }

  ghost predicate NoDuplicates<T>(xs: seq<T>) {
    forall i, j | 0 <= i < j < |xs| :: xs[i] != xs[j]
  }

  ghost function Elements<T>(xs: seq<T>): set<T> {
    set x | x in xs
  }

  lemma ElementsOfConcat<T>(xs: seq<T>, ys: seq<T>)
    ensures Elements(xs + ys) == Elements(xs) + Elements(ys)
  {}

  lemma Append<T>(xs: seq<T>, x: T)
    requires NoDuplicates(xs) && x !in Elements(xs)
    ensures NoDuplicates(xs + [x]) && Elements(xs + [x]) == Elements(xs) + {x}
  {
    assert forall y | y in xs :: y in Elements(xs);
  }

  /** `xs` lists exactly `s`, in order. */
  ghost predicate Arranges<T>(less: (T, T) -> bool, xs: seq<T>, s: set<T>) {
    SortedBy(less, xs) && Elements(xs) == s
  }

  function Insert<T>(less: (T, T) -> bool, x: T, xs: seq<T>): (ys: seq<T>)
    ensures multiset(ys) == multiset([x]) + multiset(xs)
  {
    if xs == [] then [x]
    else if less(xs[0], x) then
      var rest := Insert(less, x, xs[1..]);
      assert xs == [xs[0]] + xs[1..];
      [xs[0]] + rest
    else [x] + xs
  }

  /** Stands for sort.Slice and sort.SliceStable of the Go library. */
  function Sort<T>(less: (T, T) -> bool, xs: seq<T>): (ys: seq<T>)
    ensures multiset(ys) == multiset(xs)
  {
    if xs == [] then []
    else
      assert xs == [xs[0]] + xs[1..];
      Insert(less, xs[0], Sort(less, xs[1..]))
  }

  lemma SameElements<T>(xs: seq<T>, ys: seq<T>)
    requires multiset(xs) == multiset(ys)
    ensures Elements(xs) == Elements(ys)
  {
    forall x
      ensures x in xs <==> x in ys
    {
      assert x in xs <==> x in multiset(xs);
      assert x in ys <==> x in multiset(ys);
    }
  }

  lemma {:induction false} InsertSorts<T>(less: (T, T) -> bool, x: T, xs: seq<T>)
    requires SortedBy(less, xs) && x !in xs
    requires StrictTotalOn(less, Elements(xs) + {x})
    ensures SortedBy(less, Insert(less, x, xs))
  {
    if xs != [] {
      var s := Elements(xs) + {x};
      assert xs[0] in s && x in s;
      assert forall y | y in xs :: y in s;
      if less(xs[0], x) {
        var rest := Insert(less, x, xs[1..]);
        assert Elements(xs[1..]) <= Elements(xs);
        InsertSorts(less, x, xs[1..]);
        assert multiset([x] + xs[1..]) == multiset([x]) + multiset(xs[1..]);
        SameElements(rest, [x] + xs[1..]);
        forall y | y in rest
          ensures less(xs[0], y)
        {
          assert y in Elements(rest);
          if y != x {
            assert y in xs[1..];
          }
        }
      } else {
        assert less(x, xs[0]);
        forall y | y in xs
          ensures less(x, y)
        {
          if y != xs[0] {
            var i :| 0 < i < |xs| && xs[i] == y;
            assert less(xs[0], xs[i]);
          }
        }
      }
    }
  }

  lemma {:induction false} SortArranges<T>(less: (T, T) -> bool, xs: seq<T>)
    requires NoDuplicates(xs) && StrictTotalOn(less, Elements(xs))
    ensures Arranges(less, Sort(less, xs), Elements(xs))
  {
    SameElements(Sort(less, xs), xs);
    if xs != [] {
      var rest := Sort(less, xs[1..]);
      assert Elements(xs[1..]) <= Elements(xs);
      SortArranges(less, xs[1..]);
      assert xs[0] !in xs[1..];
      assert xs[0] in Elements(xs);
      assert Elements(rest) + {xs[0]} <= Elements(xs);
      assert forall y | y in rest :: y in Elements(rest);
      InsertSorts(less, xs[0], rest);
    }
  }

  /** There is one way to list a set in order. */
  lemma {:induction false} ArrangementUnique<T>(less: (T, T) -> bool, xs: seq<T>, ys: seq<T>, s: set<T>)
    requires StrictTotalOn(less, s)
    requires Arranges(less, xs, s) && Arranges(less, ys, s)
    ensures xs == ys
  {
    assert xs != [] ==> xs[0] in Elements(xs);
    assert ys != [] ==> ys[0] in Elements(ys);
    if s != {} {
      var w :| w in s;
      assert w in Elements(xs) && w in Elements(ys);
      var x, y := xs[0], ys[0];
      assert y in Elements(xs) && x in Elements(ys);
      assert x == y || less(x, y);
      assert x == y || less(y, x);
      assert x == y;
      DropFirst(less, xs, s);
      DropFirst(less, ys, s);
      ArrangementUnique(less, xs[1..], ys[1..], s - {x});
      assert xs == [x] + xs[1..] && ys == [y] + ys[1..];
    }
  }

  lemma DropFirst<T>(less: (T, T) -> bool, xs: seq<T>, s: set<T>)
    requires xs != [] && Arranges(less, xs, s) && StrictTotalOn(less, s)
    ensures Arranges(less, xs[1..], s - {xs[0]})
  {
    forall z
      ensures z in xs[1..] <==> z in s && z != xs[0]
    {
      assert z in s <==> z in Elements(xs);
      if z in xs[1..] {
        var i :| 0 < i < |xs| && xs[i] == z;
        assert less(xs[0], z);
      }
    }
  }

  lemma SortedHasNoDuplicates<T>(less: (T, T) -> bool, xs: seq<T>, s: set<T>)
    requires Arranges(less, xs, s) && StrictTotalOn(less, s)
    ensures NoDuplicates(xs) && |xs| == |s|
    decreases |xs|
  {
    if xs != [] {
      DropFirst(less, xs, s);
      assert xs[0] in s;
      SortedHasNoDuplicates(less, xs[1..], s - {xs[0]});
      assert xs[0] !in xs[1..];
    }
  }

  lemma PrependLeast<T>(less: (T, T) -> bool, x: T, rest: seq<T>, s: set<T>)
    requires x in s && Arranges(less, rest, s - {x})
    requires forall y | y in s && y != x :: less(x, y)
    ensures Arranges(less, [x] + rest, s)
  {
    forall y
      ensures y in [x] + rest <==> y in s
    {
      assert y in rest <==> y in Elements(rest);
    }
    assert forall y | y in rest :: y in Elements(rest);
  }

  lemma {:induction false} InsertsCommute<T>(less: (T, T) -> bool, x: T, y: T, xs: seq<T>, s: set<T>)
    requires StrictTotalOn(less, s)
    requires x in s && y in s && Elements(xs) <= s
    ensures Insert(less, x, Insert(less, y, xs)) == Insert(less, y, Insert(less, x, xs))
  {
    if xs != [] {
      assert xs[0] in Elements(xs);
      assert Elements(xs[1..]) <= Elements(xs);
      InsertsCommute(less, x, y, xs[1..], s);
      var ys := Insert(less, y, xs);
      var zs := Insert(less, x, xs);
      if less(xs[0], x) && less(xs[0], y) {
        assert ys[0] == xs[0] && ys[1..] == Insert(less, y, xs[1..]);
        assert zs[0] == xs[0] && zs[1..] == Insert(less, x, xs[1..]);
      } else if less(xs[0], x) {
        assert ys == [y] + xs && ys[1..] == xs;
        assert zs[0] == xs[0];
        assert x == y || less(y, x);
      } else if less(xs[0], y) {
        assert zs == [x] + xs && zs[1..] == xs;
        assert ys[0] == xs[0];
      } else {
        assert ys == [y] + xs && zs == [x] + xs;
        assert ys[1..] == xs && zs[1..] == xs;
      }
    }
  }

  lemma {:induction false} InsertAnywhere<T>(less: (T, T) -> bool, xs: seq<T>, i: nat, s: set<T>)
    requires StrictTotalOn(less, s) && Elements(xs) <= s
    requires i < |xs|
    ensures Sort(less, xs) == Insert(less, xs[i], Sort(less, xs[..i] + xs[i + 1..]))
  {
    if i == 0 {
      assert xs[..0] + xs[1..] == xs[1..];
    } else {
      assert xs[0] in Elements(xs) && xs[i] in Elements(xs);
      assert Elements(xs[1..]) <= Elements(xs);
      InsertAnywhere(less, xs[1..], i - 1, s);
      var without := xs[..i] + xs[i + 1..];
      assert without[1..] == xs[1..][..i - 1] + xs[1..][i..];
      SameElements(Sort(less, without[1..]), without[1..]);
      assert Elements(without[1..]) <= Elements(xs);
      InsertsCommute(less, xs[0], xs[i], Sort(less, without[1..]), s);
    }
  }

  /** Sorting gives one answer for every ordering of the same list. */
  lemma {:induction false} SortForgetsOrder<T>(less: (T, T) -> bool, xs: seq<T>, ys: seq<T>, s: set<T>)
    requires StrictTotalOn(less, s) && Elements(xs) <= s
    requires multiset(xs) == multiset(ys)
    ensures Sort(less, xs) == Sort(less, ys)
    decreases |xs|
  {
    if xs == [] {
      assert |multiset(ys)| == |ys|;
    } else {
      assert xs[0] in multiset(ys);
      var i :| 0 <= i < |ys| && ys[i] == xs[0];
      var without := ys[..i] + ys[i + 1..];
      assert ys == ys[..i] + [ys[i]] + ys[i + 1..];
      assert xs == [xs[0]] + xs[1..];
      assert multiset(without) == multiset(ys) - multiset{xs[0]};
      assert multiset(xs[1..]) == multiset(xs) - multiset{xs[0]};
      assert Elements(xs[1..]) <= Elements(xs);
      SortForgetsOrder(less, xs[1..], without, s);
      SameElements(xs, ys);
      InsertAnywhere(less, ys, i, s);
    }
  }

  ghost predicate IsLeast<T>(less: (T, T) -> bool, x: T, s: set<T>) {
    x in s && forall y | y in s && y != x :: less(x, y)
  }

  lemma {:induction false} LeastExists<T>(less: (T, T) -> bool, s: set<T>)
    requires s != {} && StrictTotalOn(less, s)
    ensures exists x :: IsLeast(less, x, s)
    decreases |s|
  {
    var w :| w in s;
    if s == {w} {
      assert IsLeast(less, w, s);
    } else {
      LeastExists(less, s - {w});
      var sub :| IsLeast(less, sub, s - {w});
      assert IsLeast(less, if less(w, sub) then w else sub, s);
    }
  }

  /** The elements of `s` in ascending order. */
  ghost function Ascending<T>(less: (T, T) -> bool, s: set<T>): (xs: seq<T>)
    requires StrictTotalOn(less, s)
    ensures Arranges(less, xs, s)
    decreases |s|
  {
    if s == {} then []
    else
      LeastExists(less, s);
      var x :| IsLeast(less, x, s);
      var rest := Ascending(less, s - {x});
      PrependLeast(less, x, rest, s);
      [x] + rest
  }

  /** Whatever order the elements were collected in, sorting them lists them. */
  lemma SortIsAscending<T>(less: (T, T) -> bool, xs: seq<T>, s: set<T>)
    requires NoDuplicates(xs) && Elements(xs) == s && StrictTotalOn(less, s)
    ensures Sort(less, xs) == Ascending(less, s)
  {
    SortArranges(less, xs);
    ArrangementUnique(less, Sort(less, xs), Ascending(less, s), s);
  }
}

/** The library order on strings. */
module StringSorting {
  import opened Sorting
  import opened Text

  lemma StringsAreOrdered(s: set<string>)
    ensures StrictTotalOn(Less, s)
  {
    LessIsStrictOrder();
  }

  lemma StringSortForgetsOrder(xs: seq<string>, ys: seq<string>)
    requires multiset(xs) == multiset(ys)
    ensures Sort(Less, xs) == Sort(Less, ys)
  {
    StringsAreOrdered(Elements(xs));
    SortForgetsOrder(Less, xs, ys, Elements(xs));
  }

  /** In order, repeats side by side. */
  predicate Ascends(xs: seq<string>) {
    forall i, j | 0 <= i < j < |xs| :: !Less(xs[j], xs[i])
  }

  lemma {:induction false} InsertAscends(x: string, xs: seq<string>)
    requires Ascends(xs)
    ensures Ascends(Insert(Less, x, xs))
  {
    hide Less;
    LessIsStrictOrder();
    if xs != [] {
      if Less(xs[0], x) {
        var rest := Insert(Less, x, xs[1..]);
        InsertAscends(x, xs[1..]);
        SameElements(rest, [x] + xs[1..]);
        forall y | y in rest
          ensures !Less(y, xs[0])
        {
          assert y in Elements(rest);
          assert y == x || y in xs[1..];
        }
      } else {
        assert forall j | 0 <= j < |xs| :: !Less(xs[j], x);
      }
    }
  }

  lemma {:induction false} StringSortAscends(xs: seq<string>)
    ensures Ascends(Sort(Less, xs))
  {
    if xs != [] {
      StringSortAscends(xs[1..]);
      InsertAscends(xs[0], Sort(Less, xs[1..]));
    }
  }
}
