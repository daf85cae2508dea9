/** Which live resource a declared one stands for, whatever order the live
    state is listed in. */
module Matching {
  import opened Diffs
  import opened Fields
  import opened Plans
  import opened Resources
  import opened Schema
  import opened Sorting
  import opened Wrappers

  // ---- What a caller has to provide ------------------------------------------

  /** No two resources of one kind share a UID. */
  ghost predicate UniqueUids(view: View) {
    forall i, j | i in view && j in view && i != j ::
      view[i].meta.uid != "" ==> UidKey(view[i]) != UidKey(view[j])
  }

  /** validateReferences: a vault name is declared under one kind only. */
  ghost predicate OneSecretPerName(desired: View) {
    forall name :: !(ResourceId(KindSecret, name) in desired && ResourceId(KindSealedSecret, name) in desired)
  }

  /** The live resources with the UID that `d` declares. */
  ghost function Owners(actual: View, d: Resource): set<Id> {
    set i | i in actual && d.meta.uid != "" && UidKey(actual[i]) == UidKey(d)
  }

  ghost predicate OwnedOnce(actual: View, d: Resource) {
    forall i, j | i in Owners(actual, d) && j in Owners(actual, d) :: i == j
  }

  /** Of the live resources of a kind at most one has a UID that is declared. */
  ghost predicate OneOwner(desired: View, actual: View) {
    forall id | id in desired :: OwnedOnce(actual, desired[id])
  }

  lemma UniqueMeansOwnedOnce(desired: View, actual: View)
    requires UniqueUids(actual)
    ensures OneOwner(desired, actual)
  {}

  // ---- Listings ------------------------------------------------------------------

  /** Every entry of a UID index is a live resource with the UID it is filed under. */
  ghost predicate ProperIndex(byUid: View, actual: View) {
    forall u | u in byUid ::
      UidKey(byUid[u]) == u && u.name != "" && byUid[u].Id() in actual && actual[byUid[u].Id()] == byUid[u]
  }

  /** A UID index of the live state: of several resources with one UID it files
      any one. */
  ghost predicate Listing(byUid: View, actual: View) {
    ProperIndex(byUid, actual) && forall i | i in actual && actual[i].meta.uid != "" :: UidKey(actual[i]) in byUid
  }

  ghost function Claimed(actual: View): set<Id> {
    set i | i in actual && actual[i].meta.uid != "" :: UidKey(actual[i])
  }

  ghost function ClaimantOf(actual: View, u: Id): (r: Resource)
    requires Consistent(actual) && u in Claimed(actual)
    ensures UidKey(r) == u && r.Id() in actual && actual[r.Id()] == r && u.name != ""
  {
    var i :| i in actual && actual[i].meta.uid != "" && UidKey(actual[i]) == u;
    actual[i]
  }

  /** Some UID index of a live state. */
  ghost function IndexOf(actual: View): (byUid: View)
    requires Consistent(actual)
    ensures Listing(byUid, actual)
  {
    map u | u in Claimed(actual) :: ClaimantOf(actual, u)
  }

  lemma UidIndexIsListing(list: seq<Resource>)
    requires DistinctIds(list)
    ensures Listing(UidIndex(list), ViewOf(list))
  {
    ViewMembers(list);
    UidIndexMembers(list);
  }

  lemma {:induction false} UidIndexMembers(list: seq<Resource>)
    ensures forall u | u in UidIndex(list) ::
      UidIndex(list)[u] in list && UidKey(UidIndex(list)[u]) == u && u.name != ""
    ensures forall r | r in list && r.meta.uid != "" :: UidKey(r) in UidIndex(list)
  {
    if list != [] {
      UidIndexMembers(list[..|list| - 1]);
      assert list == list[..|list| - 1] + [list[|list| - 1]];
    }
  }

  lemma ListingUnique(byUid: View, other: View, actual: View)
    requires UniqueUids(actual) && Listing(byUid, actual) && Listing(other, actual)
    ensures byUid == other
  {
    forall u
      ensures u in byUid <==> u in other
      ensures u in byUid ==> byUid[u] == other[u]
    {
      if u in byUid {
        assert actual[byUid[u].Id()] == byUid[u];
      }
      if u in other {
        assert actual[other[u].Id()] == other[u];
      }
    }
  }

  /** With unique UIDs the index does not depend on the order of the list. */
  lemma UidIndexIsIndexOf(list: seq<Resource>)
    requires DistinctIds(list) && Consistent(ViewOf(list)) && UniqueUids(ViewOf(list))
    ensures UidIndex(list) == IndexOf(ViewOf(list))
  {
    UidIndexIsListing(list);
    ListingUnique(UidIndex(list), IndexOf(ViewOf(list)), ViewOf(list));
  }

  // ---- Every listing is the index of some list --------------------------------------

  lemma {:induction false} ListOf<T>(s: set<T>) returns (xs: seq<T>)
    ensures NoDuplicates(xs) && Elements(xs) == s
  {
    xs := [];
    if s != {} {
      var x :| x in s;
      var rest := ListOf(s - {x});
      Append(rest, x);
      xs := rest + [x];
    }
  }

  /** The last resource of a list with some UID is the one filed. */
  lemma {:induction false} LastIsFiled(list: seq<Resource>, p: nat)
    requires p < |list| && list[p].meta.uid != ""
    requires forall q | p < q < |list| :: list[q].meta.uid != "" ==> UidKey(list[q]) != UidKey(list[p])
    ensures UidKey(list[p]) in UidIndex(list) && UidIndex(list)[UidKey(list[p])] == list[p]
  {
    var n := |list| - 1;
    if p < n {
      LastIsFiled(list[..n], p);
    }
  }

  ghost predicate Files(byUid: View, last: seq<Resource>) {
    && NoDuplicates(last) && Elements(last) == byUid.Values
    && forall u | u in byUid :: UidKey(byUid[u]) == u && u.name != ""
  }

  lemma FiledIn(byUid: View, last: seq<Resource>, r: Resource)
    requires Files(byUid, last) && r in last
    ensures r.meta.uid != "" && UidKey(r) in byUid && byUid[UidKey(r)] == r
  {
    assert r in Elements(last);
  }

  lemma FiledEntry(first: seq<Resource>, last: seq<Resource>, byUid: View, u: Id)
    requires Files(byUid, last) && u in byUid
    ensures u in UidIndex(first + last) && UidIndex(first + last)[u] == byUid[u]
  {
    assert byUid[u] in Elements(last);
    var p :| 0 <= p < |last| && last[p] == byUid[u];
    forall q | p < q < |last|
      ensures UidKey(last[q]) != UidKey(last[p])
    {
      FiledIn(byUid, last, last[q]);
      assert last[p] != last[q];
    }
    assert forall q | |first| + p < q < |first + last| :: (first + last)[q] == last[q - |first|];
    LastIsFiled(first + last, |first| + p);
  }

  /** What listing the filed resources last gives. */
  lemma FiledLast(first: seq<Resource>, last: seq<Resource>, byUid: View)
    requires Files(byUid, last)
    requires forall r | r in first && r.meta.uid != "" :: UidKey(r) in byUid
    ensures UidIndex(first + last) == byUid
  {
    hide Files, UidIndex;
    var index := UidIndex(first + last);
    UidIndexMembers(first + last);
    forall u
      ensures u in index <==> u in byUid
      ensures u in index ==> index[u] == byUid[u]
    {
      if u in byUid {
        FiledEntry(first, last, byUid, u);
      }
      if u in index && index[u] in last {
        FiledIn(byUid, last, index[u]);
      }
    }
  }

  lemma ListsView(list: seq<Resource>, actual: View)
    requires Consistent(actual) && NoDuplicates(list) && Elements(list) == actual.Values
    ensures DistinctIds(list) && ViewOf(list) == actual
  {
    assert forall r :: r in list <==> r in Elements(list);
    assert forall r | r in list :: r.Id() in actual && actual[r.Id()] == r;
    forall i, j | 0 <= i < j < |list|
      ensures list[i].Id() != list[j].Id()
    {
      assert list[i] in list && list[j] in list;
      assert list[i] != list[j];
    }
    ViewMembers(list);
    assert forall id | id in actual :: actual[id] in list;
  }

  lemma JoinLists<T>(xs: seq<T>, ys: seq<T>)
    requires NoDuplicates(xs) && NoDuplicates(ys) && Elements(xs) !! Elements(ys)
    ensures NoDuplicates(xs + ys) && Elements(xs + ys) == Elements(xs) + Elements(ys)
  {
    forall i, j | 0 <= i < j < |xs + ys|
      ensures (xs + ys)[i] != (xs + ys)[j]
    {
      if i < |xs| <= j {
        assert xs[i] in Elements(xs) && ys[j - |xs|] in Elements(ys);
      }
    }
  }

  /** Nothing more is assumed of a listing than that some order gives it. */
  lemma ListingIsUidIndex(byUid: View, actual: View) returns (list: seq<Resource>)
    requires Consistent(actual) && Listing(byUid, actual)
    ensures DistinctIds(list) && ViewOf(list) == actual && UidIndex(list) == byUid
  {
    hide UidIndex, ViewOf;
    var first := ListOf(actual.Values - byUid.Values);
    var last := ListOf(byUid.Values);
    list := first + last;
    assert byUid.Values <= actual.Values;
    JoinLists(first, last);
    ListsView(list, actual);
    assert forall r :: r in first ==> r in Elements(first);
    FiledLast(first, last, byUid);
  }

  // ---- Matching ----------------------------------------------------------------------

  /** The live resource of the same name, or the same vault entry. */
  ghost function NamedMatch(actual: View, d: Resource): Option<Resource> {
    if d.Id() in actual then Some(actual[d.Id()])
    else if VaultAlias(d.kind).Some? then Lookup(actual, ResourceId(VaultAlias(d.kind).value, d.meta.name))
    else None
  }

  /** What `d` stands for: by UID, if that has an owner, and else by name. */
  ghost function MatchIn(actual: View, d: Resource): Option<Resource> {
    if Owners(actual, d) != {} then
      var i :| i in Owners(actual, d);
      Some(actual[i])
    else NamedMatch(actual, d)
  }

  /** Under any listing the planner matches an owner, if there is one. */
  lemma MatchIsOwner(actual: View, byUid: View, d: Resource)
    requires Consistent(actual) && Listing(byUid, actual)
    ensures Owners(actual, d) == {} ==> Match(actual, byUid, d) == NamedMatch(actual, d)
    ensures Owners(actual, d) != {} ==>
      && d.meta.uid != "" && UidKey(d) in byUid
      && byUid[UidKey(d)].Id() in Owners(actual, d) && Match(actual, byUid, d) == Some(byUid[UidKey(d)])
  {
    if d.meta.uid != "" && UidKey(d) in byUid {
      assert byUid[UidKey(d)].Id() in Owners(actual, d);
    }
    if Owners(actual, d) != {} {
      var i :| i in Owners(actual, d);
      assert UidKey(actual[i]) in byUid;
    }
  }

  /** With one owner at most, every listing gives one match. */
  lemma MatchIsMatchIn(actual: View, byUid: View, d: Resource)
    requires Consistent(actual) && Listing(byUid, actual) && OwnedOnce(actual, d)
    ensures Match(actual, byUid, d) == MatchIn(actual, d)
  {
    MatchIsOwner(actual, byUid, d);
  }

  /** With several, every one of them is matched under some listing. */
  lemma OwnerIsMatched(actual: View, d: Resource, i: Id) returns (byUid: View)
    requires Consistent(actual) && i in Owners(actual, d)
    ensures Listing(byUid, actual) && Match(actual, byUid, d) == Some(actual[i])
  {
    byUid := IndexOf(actual)[UidKey(d) := actual[i]];
  }

  lemma MatchIsLive(actual: View, d: Resource)
    requires Consistent(actual) && MatchIn(actual, d).Some?
    ensures var x := MatchIn(actual, d).value;
      && x.Id() in actual && actual[x.Id()] == x
      && (|| x.kind == d.kind
          || (d.Id() !in actual && x.meta.name == d.meta.name && VaultAlias(d.kind) == Some(x.kind)
              && Owners(actual, d) == {}))
  {}

  lemma OwnerIsMatch(actual: View, d: Resource, i: Id)
    requires OwnedOnce(actual, d) && i in Owners(actual, d)
    ensures MatchIn(actual, d) == Some(actual[i])
  {}

  /** No live resource stands for two declared ones. */
  ghost predicate Uncontested(desired: View, actual: View) {
    forall i, j | i in desired && j in desired && i != j ::
      var x, y := MatchIn(actual, desired[i]), MatchIn(actual, desired[j]);
      x.Some? && y.Some? ==> x.value.Id() != y.value.Id()
  }

  /** Every listing of the live state gives the same changes. */
  lemma ListingsAgree(m: Models, desired: View, actual: View, byUid: View, other: View, opts: PlanOptions)
    requires Consistent(actual) && OneOwner(desired, actual) && Listing(byUid, actual) && Listing(other, actual)
    ensures Changes(m, desired, actual, byUid, opts) == Changes(m, desired, actual, other, opts)
    ensures forall id | id in desired ::
      ChangeFor(m, actual, byUid, desired[id]) == ChangeTo(m, MatchIn(actual, desired[id]), desired[id])
  {
    hide Match, MatchIn, ChangeTo, Listing;
    forall id | id in desired
      ensures Match(actual, byUid, desired[id]) == MatchIn(actual, desired[id])
      ensures Match(actual, other, desired[id]) == MatchIn(actual, desired[id])
    {
      MatchIsMatchIn(actual, byUid, desired[id]);
      MatchIsMatchIn(actual, other, desired[id]);
    }
    WantedAlike(m, desired, actual, byUid, other, opts);
  }

  lemma WantedAlike(m: Models, desired: View, actual: View, byUid: View, other: View, opts: PlanOptions)
    requires forall id | id in desired ::
      ChangeFor(m, actual, byUid, desired[id]) == ChangeFor(m, actual, other, desired[id])
    ensures Wanted(m, desired, actual, byUid, opts) == Wanted(m, desired, actual, other, opts)
  {
    hide ChangeFor;
    var v, w := Wanted(m, desired, actual, byUid, opts), Wanted(m, desired, actual, other, opts);
    forall c
      ensures c in v <==> c in w
    {}
  }

  // ---- Prune safety ---------------------------------------------------------------

  /** Whatever a declared resource matched, by UID, key or vault alias, is
      never pruned, and every delete is inside both ownership scopes. */
  lemma PruneIsSafe(m: Models, desired: View, actual: View, byUid: View, opts: PlanOptions, c: Change, d: Resource)
    requires Consistent(desired) && Consistent(actual) && ProperIndex(byUid, actual)
    requires c in Changes(m, desired, actual, byUid, opts) && c.action == ActionDelete
    requires d.Id() in desired && desired[d.Id()] == d
    ensures Match(actual, byUid, d).Some? ==> Match(actual, byUid, d).value.Id() != c.Id()
    ensures c.Id() in actual && InScope(opts, actual[c.Id()]) && opts.prune
  {
    assert c in Deletes(desired, actual, opts);
    PrunableIsUnmatched(desired, actual, byUid, opts, actual[c.Id()], d);
  }

  lemma PrunableIsUnmatched(desired: View, actual: View, byUid: View, opts: PlanOptions, a: Resource, d: Resource)
    requires Consistent(actual) && ProperIndex(byUid, actual)
    requires a.Id() in actual && actual[a.Id()] == a && Prunable(desired, opts, a)
    requires d.Id() in desired && desired[d.Id()] == d
    ensures Match(actual, byUid, d).Some? ==> Match(actual, byUid, d).value.Id() != a.Id()
  {
    if d.meta.uid != "" && UidKey(d) in byUid {
      var x := byUid[UidKey(d)];
      assert a == x ==> ClaimedByUid(desired, a);
    }
  }
}
