/** The insertion-ordered resource map every stage works on: a list plus an
    index from key to position. */
module Resources {
  import opened Schema
  import opened Wrappers

  // ---- The list as a specification --------------------------------------

  predicate DistinctIds(list: seq<Resource>) {
    forall i, j | 0 <= i < j < |list| :: list[i].Id() != list[j].Id()
  }

  /** Position of `id`, or the length when it is absent. */
  function Position(list: seq<Resource>, id: Id): (p: nat)
    ensures p <= |list|
    ensures p < |list| ==> list[p].Id() == id
    ensures forall i | 0 <= i < p :: list[i].Id() != id
  {
    if list == [] || list[0].Id() == id then 0
    else 1 + Position(list[1..], id)
  }

  function Find(list: seq<Resource>, id: Id): Option<Resource> {
    var p := Position(list, id);
    if p < |list| then Some(list[p]) else None
  }

  /** What one `Add` does to the list. */
  function Put(list: seq<Resource>, r: Resource): seq<Resource> {
    var p := Position(list, r.Id());
    if p < |list| then list[p := r] else list + [r]
  }

  function PutAll(list: seq<Resource>, rs: seq<Resource>): seq<Resource>
    decreases |rs|
  {
    if rs == [] then list else PutAll(Put(list, rs[0]), rs[1..])
  }

  function OfKind(list: seq<Resource>, k: Kind): seq<Resource> {
    if list == [] then []
    else (if list[0].kind == k then [list[0]] else []) + OfKind(list[1..], k)
  }

  /** A plain map from identity to resource, the last one added winning. */
  function ViewOf(rs: seq<Resource>): map<Id, Resource> {
    if rs == [] then map[]
    else ViewOf(rs[..|rs| - 1])[rs[|rs| - 1].Id() := rs[|rs| - 1]]
  }

  /** A map that files every resource under its own identity. */
  ghost predicate Consistent(view: map<Id, Resource>) {
    forall id | id in view :: view[id].Id() == id
  }

  function Ids(rs: seq<Resource>): seq<Id> {
    seq(|rs|, i requires 0 <= i < |rs| => rs[i].Id())
  }

  /** The identities in the order they were first added. */
  function FirstOccurrences(ids: seq<Id>): seq<Id> {
    if ids == [] then []
    else
      var before := FirstOccurrences(ids[..|ids| - 1]);
      var last := ids[|ids| - 1];
      if last in before then before else before + [last]
  }

  lemma {:induction false} ViewMembers(rs: seq<Resource>)
    ensures Consistent(ViewOf(rs))
    ensures forall id | id in ViewOf(rs) :: ViewOf(rs)[id] in rs
    ensures forall r | r in rs :: r.Id() in ViewOf(rs)
    ensures DistinctIds(rs) ==> forall r | r in rs :: ViewOf(rs)[r.Id()] == r
  {
    if rs != [] {
      var init := rs[..|rs| - 1];
      ViewMembers(init);
      assert rs == init + [rs[|rs| - 1]];
      if DistinctIds(rs) {
        forall r | r in init
          ensures ViewOf(rs)[r.Id()] == r
        {
          var i :| 0 <= i < |init| && init[i] == r;
          assert rs[i].Id() != rs[|rs| - 1].Id();
        }
      }
    }
  }

  lemma FindIsView(list: seq<Resource>, id: Id)
    requires DistinctIds(list)
    ensures Find(list, id) == if id in ViewOf(list) then Some(ViewOf(list)[id]) else None
  {
    ViewMembers(list);
    var p := Position(list, id);
    assert p < |list| ==> list[p] in list;
    assert forall r | r in list :: r.Id() == id ==> p < |list|;
  }

  lemma FindAfterPut(list: seq<Resource>, r: Resource, id: Id)
    ensures Find(Put(list, r), id) == if id == r.Id() then Some(r) else Find(list, id)
  {
    var after, p, q := Put(list, r), Position(list, id), Position(Put(list, r), id);
    assert forall i | 0 <= i < |list| :: after[i].Id() == list[i].Id();
    if p < |list| {
      PositionIs(after, id, p);
    } else if id == r.Id() {
      PositionIs(after, id, |list|);
    } else {
      assert q == |after|;
    }
  }

  lemma PositionIs(list: seq<Resource>, id: Id, p: nat)
    requires p < |list| && list[p].Id() == id && forall i | 0 <= i < p :: list[i].Id() != id
    ensures Position(list, id) == p
  {}

  lemma PutKeepsDistinct(list: seq<Resource>, r: Resource)
    requires DistinctIds(list)
    ensures DistinctIds(Put(list, r))
    ensures ViewOf(Put(list, r)) == ViewOf(list)[r.Id() := r]
  {
    var after, p := Put(list, r), Position(list, r.Id());
    assert DistinctIds(after) by {
      assert forall i | 0 <= i < |list| :: after[i].Id() == list[i].Id();
    }
    forall id
      ensures id in ViewOf(after) <==> id in ViewOf(list)[r.Id() := r]
      ensures id in ViewOf(after) ==> ViewOf(after)[id] == ViewOf(list)[r.Id() := r][id]
    {
      FindAfterPut(list, r, id);
      FindIsView(list, id);
      FindIsView(after, id);
    }
  }

  /** Any run of `Add` calls leaves a map with the last value of every key, in
      the order the keys were first added. */
  lemma {:induction false} PutAllIsOrderedMap(rs: seq<Resource>)
    ensures DistinctIds(PutAll([], rs))
    ensures ViewOf(PutAll([], rs)) == ViewOf(rs)
    ensures Ids(PutAll([], rs)) == FirstOccurrences(Ids(rs))
  {
    if rs != [] {
      var init, last := rs[..|rs| - 1], rs[|rs| - 1];
      PutAllIsOrderedMap(init);
      PutAllSplit([], init, last);
      assert init + [last] == rs;
      PutKeepsDistinct(PutAll([], init), last);
      assert Ids(rs)[..|rs| - 1] == Ids(init);
      PutOrder(PutAll([], init), last);
    }
  }

  lemma PutOrder(list: seq<Resource>, r: Resource)
    ensures Ids(Put(list, r)) == if r.Id() in Ids(list) then Ids(list) else Ids(list) + [r.Id()]
  {
    var p := Position(list, r.Id());
    assert forall i | 0 <= i < |list| :: Ids(list)[i] == list[i].Id();
  }

  lemma {:induction false} PutAllSplit(list: seq<Resource>, rs: seq<Resource>, last: Resource)
    ensures PutAll(list, rs + [last]) == Put(PutAll(list, rs), last)
    decreases |rs|
  {
    if rs == [] {
      assert PutAll(Put(list, last), []) == Put(list, last);
    } else {
      assert (rs + [last])[1..] == rs[1..] + [last];
      PutAllSplit(Put(list, rs[0]), rs[1..], last);
    }
  }

  lemma {:induction false} OfKindIsScan(list: seq<Resource>, k: Kind)
    ensures forall r :: r in OfKind(list, k) <==> r in list && r.kind == k
  {
    if list != [] {
      OfKindIsScan(list[1..], k);
      assert list == [list[0]] + list[1..];
    }
  }

  // ---- The class --------------------------------------------------------

  class ResourceSet {
    var list: seq<Resource>
    var index: map<string, nat>

    /** `index` and `list` are mutually inverse. */
    ghost predicate Valid()
      reads this
    {
      && (forall k | k in index :: index[k] < |list| && list[index[k]].Key() == k)
      && (forall i | 0 <= i < |list| :: list[i].Key() in index && index[list[i].Key()] == i)
    }

    ghost function View(): map<Id, Resource>
      reads this
    {
      ViewOf(list)
    }

    constructor ()
      ensures Valid() && list == []
    {
      list, index := [], map[];
    }

    lemma ValidIsDistinct()
      requires Valid()
      ensures DistinctIds(list)
    {
      forall i, j | 0 <= i < j < |list|
        ensures list[i].Id() != list[j].Id()
      {
        assert index[list[i].Key()] == i && index[list[j].Key()] == j;
      }
    }

    lemma IndexIsPosition(id: Id)
      requires Valid()
      ensures KeyOf(id.kind, id.name) in index <==> Position(list, id) < |list|
      ensures KeyOf(id.kind, id.name) in index ==> index[KeyOf(id.kind, id.name)] == Position(list, id)
    {
      var key, p := KeyOf(id.kind, id.name), Position(list, id);
      if key in index {
        var r := list[index[key]];
        KeyInjective(r.kind, r.meta.name, id.kind, id.name);
        assert list[index[key]].Id() == id;
        assert list[p].Key() == key;
      }
      assert p < |list| ==> list[p].Key() in index;
    }

    method Add(r: Resource)
      requires Valid()
      modifies this
      ensures Valid() && list == Put(old(list), r)
      ensures View() == old(View())[r.Id() := r]
    {
      IndexIsPosition(r.Id());
      ValidIsDistinct();
      PutKeepsDistinct(list, r);
      if r.Key() in index {
        list := list[index[r.Key()] := r];
      } else {
        index := index[r.Key() := |list|];
        list := list + [r];
      }
    }

    function Get(k: Kind, name: string): (r: Option<Resource>)
      requires Valid()
      reads this
      ensures r == Find(list, ResourceId(k, name))
      ensures r == if ResourceId(k, name) in View() then Some(View()[ResourceId(k, name)]) else None
    {
      IndexIsPosition(ResourceId(k, name));
      ValidIsDistinct();
      FindIsView(list, ResourceId(k, name));
      var key := KeyOf(k, name);
      if key in index then Some(list[index[key]]) else None
    }

    predicate Has(k: Kind, name: string)
      requires Valid()
      reads this
      ensures Has(k, name) <==> ResourceId(k, name) in View()
    {
      IndexIsPosition(ResourceId(k, name));
      ValidIsDistinct();
      FindIsView(list, ResourceId(k, name));
      KeyOf(k, name) in index
    }

    method ByKind(k: Kind) returns (out: seq<Resource>)
      ensures out == OfKind(list, k)
    {
      out := [];
      for i := 0 to |list|
        invariant out + OfKind(list[i..], k) == OfKind(list, k)
      {
        assert list[i..][1..] == list[i + 1..];
        if list[i].kind == k {
          out := out + [list[i]];
        }
      }
    }
  }
}
