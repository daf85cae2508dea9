/** Changing a map in steps that keep out of each other's way: where each step
    shows, and where none does. */
module Edits {
  import opened Plans
  import opened Resources
  import opened Schema
  import opened Wrappers

  /** Identities taken out of a live state, then one resource put in. */
  datatype Edit = Edit(gone: set<Id>, put: Option<Resource>) {
    function Touched(): set<Id> {
      gone + if put.Some? then {put.value.Id()} else {}
    }

    /** What is at a touched identity afterwards. */
    function Leaves(t: Id): Option<Resource> {
      if put.Some? && put.value.Id() == t then put else None
    }
  }

  function Apply(view: View, e: Edit): View {
    var rest := view - e.gone;
    if e.put.Some? then rest[e.put.value.Id() := e.put.value] else rest
  }

  function ApplyAll(view: View, es: seq<Edit>): View
    decreases |es|
  {
    if es == [] then view else ApplyAll(Apply(view, es[0]), es[1..])
  }

  ghost predicate Apart(es: seq<Edit>) {
    forall i, j | 0 <= i < j < |es| :: es[i].Touched() !! es[j].Touched()
  }

  lemma {:induction false} StaysConsistent(view: View, es: seq<Edit>)
    requires Consistent(view)
    ensures Consistent(ApplyAll(view, es))
    decreases |es|
  {
    if es != [] {
      StaysConsistent(Apply(view, es[0]), es[1..]);
    }
  }

  lemma {:induction false} UntouchedStays(view: View, es: seq<Edit>, t: Id)
    requires forall e | e in es :: t !in e.Touched()
    ensures Lookup(ApplyAll(view, es), t) == Lookup(view, t)
    decreases |es|
  {
    if es != [] {
      assert t !in es[0].Touched();
      UntouchedStays(Apply(view, es[0]), es[1..], t);
    }
  }

  /** Edits that touch different identities leave what each of them leaves. */
  lemma {:induction false} TouchedOnce(view: View, es: seq<Edit>, i: nat, t: Id)
    requires i < |es| && Apart(es) && t in es[i].Touched()
    ensures Lookup(ApplyAll(view, es), t) == es[i].Leaves(t)
    decreases |es|
  {
    if i == 0 {
      forall e | e in es[1..]
        ensures t !in e.Touched()
      {
        var j :| 0 <= j < |es[1..]| && es[1..][j] == e;
        assert es[0].Touched() !! es[j + 1].Touched();
      }
      UntouchedStays(Apply(view, es[0]), es[1..], t);
    } else {
      TouchedOnce(Apply(view, es[0]), es[1..], i - 1, t);
    }
  }
}
