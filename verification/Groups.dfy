/** Field maps put together from groups. When every field has one group it can
    come from, a map decides its groups. */
module Groups {
  import opened Fields
  import opened Overlay

  /** The groups in order, a later one overriding an earlier one. */
  function Sum(gs: seq<FieldMap>): FieldMap {
    if gs == [] then map[] else Sum(gs[..|gs| - 1]) + gs[|gs| - 1]
  }

  /** Group `i` holds only fields whose home it is. */
  ghost predicate Homed(gs: seq<FieldMap>, home: Field -> int) {
    forall i, k | 0 <= i < |gs| && k in gs[i] :: home(k) == i
  }

  lemma {:induction false} SumAt(gs: seq<FieldMap>, home: Field -> int, k: Field)
    requires Homed(gs, home)
    ensures k in Sum(gs) <==> 0 <= home(k) < |gs| && k in gs[home(k)]
    ensures k in Sum(gs) ==> Sum(gs)[k] == gs[home(k)][k]
  {
    if gs != [] {
      SumAt(gs[..|gs| - 1], home, k);
    }
  }

  /** Two sums are equal exactly when their groups are. */
  lemma SumDecides(gs: seq<FieldMap>, hs: seq<FieldMap>, home: Field -> int)
    requires |gs| == |hs| && Homed(gs, home) && Homed(hs, home)
    ensures Sum(gs) == Sum(hs) <==> gs == hs
  {
    hide Sum;
    if Sum(gs) == Sum(hs) {
      forall i | 0 <= i < |gs|
        ensures gs[i] == hs[i]
      {
        forall k
          ensures k in gs[i] <==> k in hs[i]
          ensures k in gs[i] ==> gs[i][k] == hs[i][k]
        {
          SumAt(gs, home, k);
          SumAt(hs, home, k);
        }
      }
    }
  }

  // ---- Stated entries ------------------------------------------------------------

  /** The same entries are stated, with the same values. */
  ghost predicate SameEntries(xs: seq<Entry>, ys: seq<Entry>) {
    |xs| == |ys| && forall i | 0 <= i < |xs| ::
      xs[i].stated == ys[i].stated && (xs[i].stated ==> xs[i].value == ys[i].value)
  }

  ghost predicate Aligned(xs: seq<Entry>, ys: seq<Entry>) {
    && |xs| == |ys| && DistinctFields(xs)
    && forall i | 0 <= i < |xs| :: xs[i].field == ys[i].field
  }

  lemma {:induction false} StatedAt(xs: seq<Entry>, i: nat)
    requires DistinctFields(xs) && i < |xs|
    ensures xs[i].field in Stated(xs) <==> xs[i].stated
    ensures xs[i].stated ==> Stated(xs)[xs[i].field] == xs[i].value
  {
    var n := |xs| - 1;
    if i < n {
      StatedAt(xs[..n], i);
    } else {
      var earlier := set j | 0 <= j < n :: xs[j].field;
      assert EntriesWithin(xs[..n], earlier);
      StatedFieldsAreEntries(xs[..n], earlier);
    }
  }

  lemma {:induction false} SameStated(xs: seq<Entry>, ys: seq<Entry>)
    requires Aligned(xs, ys) && SameEntries(xs, ys)
    ensures Stated(xs) == Stated(ys)
  {
    if xs != [] {
      SameStated(xs[..|xs| - 1], ys[..|ys| - 1]);
    }
  }

  lemma StatedDecides(xs: seq<Entry>, ys: seq<Entry>)
    requires Aligned(xs, ys)
    ensures Stated(xs) == Stated(ys) <==> SameEntries(xs, ys)
  {
    hide Stated;
    if SameEntries(xs, ys) {
      SameStated(xs, ys);
    }
    if Stated(xs) == Stated(ys) {
      forall i | 0 <= i < |xs|
        ensures xs[i].stated == ys[i].stated && (xs[i].stated ==> xs[i].value == ys[i].value)
      {
        StatedAt(xs, i);
        StatedAt(ys, i);
      }
    }
  }

  lemma {:induction false} StatedIsHomed(xs: seq<Entry>, home: Field -> int, at: int)
    requires forall i | 0 <= i < |xs| :: home(xs[i].field) == at
    ensures forall k | k in Stated(xs) :: home(k) == at
  {
    if xs != [] {
      StatedIsHomed(xs[..|xs| - 1], home, at);
    }
  }
}
