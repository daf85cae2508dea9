/** The planner: what has to change so that the live resources match the
    declared ones, in an order that can be executed. */
module Plans {
  import opened Diffs
  import opened Fields
  import opened Resources
  import opened Schema
  import opened Sorting
  import opened Text
  import opened Wrappers

  datatype Action = ActionCreate | ActionUpdate | ActionDelete | ActionNoop

  datatype Change = Change(action: Action, kind: Kind, name: string, reason: string, fields: seq<FieldDiff>) {
    function Id(): Id { ResourceId(kind, name) }
  }

  const LABEL_MANAGED_BY := "miabi.io/managed-by"
  const LABEL_GITOPS_SOURCE := "miabi.io/gitops-source"

  datatype PlanOptions = PlanOptions(
    prune: bool,
    pruneManagedBy: string,
    pruneGitOpsSource: string,
    includeNoop: bool)

  function ApplyRank(k: Kind): int {
    match k
    case KindSecret | KindSealedSecret | KindVolume | KindDomain | KindConfig | KindMiddleware => 0
    case KindDatabase | KindStack | KindRegistry | KindGitRepository => 1
    case KindApplication => 2
    case KindRoute | KindCronJob | KindJob => 3
    case KindGitSource => 4
    case KindProject => 9
  }

  predicate Planned(k: Kind) {
    k != KindProject
  }

  function VaultAlias(k: Kind): Option<Kind> {
    match k
    case KindSecret => Some(KindSealedSecret)
    case KindSealedSecret => Some(KindSecret)
    case _ => None
  }

  predicate HasChanges(plan: seq<Change>) {
    exists c | c in plan :: c.action != ActionNoop
  }

  // ---- Matching ------------------------------------------------------------

  /** Resources by identity, or by kind and UID. */
  type View = map<Id, Resource>

  function Lookup(view: View, id: Id): Option<Resource> {
    if id in view then Some(view[id]) else None
  }

  function UidKey(r: Resource): Id {
    ResourceId(r.kind, r.meta.uid)
  }

  /** Of several resources with one UID the last in the list is filed. */
  function UidIndex(list: seq<Resource>): View {
    if list == [] then map[]
    else
      var before, r := UidIndex(list[..|list| - 1]), list[|list| - 1];
      if r.meta.uid != "" then before[UidKey(r) := r] else before
  }

  /** The live resource a declared one stands for: by UID, then by key, then
      as the same vault entry under the other secret kind. */
  function Match(actual: View, byUid: View, d: Resource): Option<Resource> {
    if d.meta.uid != "" && UidKey(d) in byUid then Some(byUid[UidKey(d)])
    else if d.Id() in actual then Some(actual[d.Id()])
    else if VaultAlias(d.kind).Some? then Lookup(actual, ResourceId(VaultAlias(d.kind).value, d.meta.name))
    else None
  }

  // ---- What has to change -----------------------------------------------------

  ghost function ChangeFor(m: Models, actual: View, byUid: View, d: Resource): Change {
    ChangeTo(m, Match(actual, byUid, d), d)
  }

  /** What `d` calls for, given the live resource it stands for. */
  ghost function ChangeTo(m: Models, live: Option<Resource>, d: Resource): Change {
    match live
    case None => Change(ActionCreate, d.kind, d.meta.name, "not present in workspace", [])
    case Some(cur) =>
      var fields := Diff(m, cur, d);
      if fields == [] then Change(ActionNoop, d.kind, d.meta.name, "", [])
      else Change(ActionUpdate, d.kind, d.meta.name, "live state differs from desired", fields)
  }

  ghost predicate Entered(m: Models, actual: View, byUid: View, opts: PlanOptions, d: Resource) {
    Planned(d.kind) && (opts.includeNoop || ChangeFor(m, actual, byUid, d).action != ActionNoop)
  }

  function DeleteOf(a: Resource): Change {
    Change(ActionDelete, a.kind, a.meta.name, "removed from desired state", [])
  }

  /** A desired resource names this UID, so the live one was renamed, not removed. */
  ghost predicate ClaimedByUid(desired: View, a: Resource) {
    a.meta.uid != "" && exists id | id in desired :: UidKey(desired[id]) == UidKey(a)
  }

  function AliasDeclared(desired: View, a: Resource): bool {
    VaultAlias(a.kind).Some? && ResourceId(VaultAlias(a.kind).value, a.meta.name) in desired
  }

  predicate InScope(opts: PlanOptions, a: Resource) {
    && (opts.pruneManagedBy != "" ==> Get(a.meta.labels, LABEL_MANAGED_BY) == opts.pruneManagedBy)
    && (opts.pruneGitOpsSource != "" ==> Get(a.meta.labels, LABEL_GITOPS_SOURCE) == opts.pruneGitOpsSource)
  }

  ghost predicate Prunable(desired: View, opts: PlanOptions, a: Resource) {
    && Planned(a.kind)
    && a.Id() !in desired
    && !AliasDeclared(desired, a)
    && !ClaimedByUid(desired, a)
    && InScope(opts, a)
  }

  ghost function Wanted(m: Models, desired: View, actual: View, byUid: View, opts: PlanOptions): set<Change> {
    set id | id in desired && Entered(m, actual, byUid, opts, desired[id]) ::
      ChangeFor(m, actual, byUid, desired[id])
  }

  ghost function Deletes(desired: View, actual: View, opts: PlanOptions): set<Change> {
    set id | id in actual && opts.prune && Prunable(desired, opts, actual[id]) :: DeleteOf(actual[id])
  }

  /** Everything a plan holds, as a function of the two sets alone. */
  ghost function Changes(m: Models, desired: View, actual: View, byUid: View, opts: PlanOptions): set<Change> {
    Wanted(m, desired, actual, byUid, opts) + Deletes(desired, actual, opts)
  }

  // ---- Order -------------------------------------------------------------------

  function Group(a: Action): int {
    if a == ActionDelete then 0 else 1
  }

  /** Deletes run in reverse, so a dependent goes before what it needs. */
  function RankIn(c: Change): int {
    if c.action == ActionDelete then -ApplyRank(c.kind) else ApplyRank(c.kind)
  }

  predicate ChangeLess(a: Change, b: Change) {
    if Group(a.action) != Group(b.action) then Group(a.action) < Group(b.action)
    else if RankIn(a) != RankIn(b) then RankIn(a) < RankIn(b)
    else if a.kind != b.kind then Less(KindName(a.kind), KindName(b.kind))
    else Less(a.name, b.name)
  }

  ghost predicate OnePerId(s: set<Change>) {
    forall c, e | c in s && e in s && c.Id() == e.Id() :: c == e
  }

  /** The comparator decides every pair of changes to different resources. */
  lemma ChangesAreOrdered(s: set<Change>)
    requires OnePerId(s)
    ensures StrictTotalOn(ChangeLess, s)
  {
    LessIsStrictOrder();
    forall a, b | a in s && b in s && a != b
      ensures ChangeLess(a, b) || ChangeLess(b, a)
    {
      assert a.Id() != b.Id();
      if a.kind != b.kind && KindName(a.kind) == KindName(b.kind) {
        KindNameInjective(a.kind, b.kind);
      }
    }
    forall a, b, c | a in s && b in s && c in s && ChangeLess(a, b) && ChangeLess(b, c)
      ensures ChangeLess(a, c)
    {
      if a.kind == c.kind {
        LessIrreflexive(KindName(a.kind));
      }
    }
  }

  /** One change per resource: a delete never shares its key with a declared one. */
  lemma ChangesOnePerId(m: Models, desired: View, actual: View, byUid: View, opts: PlanOptions)
    requires Consistent(desired) && Consistent(actual)
    ensures OnePerId(Changes(m, desired, actual, byUid, opts))
  {
    hide Diff, Match;
    var s := Changes(m, desired, actual, byUid, opts);
    forall c | c in s
      ensures c.action == ActionDelete ==> c.Id() in actual && c.Id() !in desired && c == DeleteOf(actual[c.Id()])
      ensures c.action != ActionDelete ==> c.Id() in desired && c == ChangeFor(m, actual, byUid, desired[c.Id()])
    {}
  }

  ghost predicate IsPlan(plan: seq<Change>, changes: set<Change>) {
    Arranges(ChangeLess, plan, changes)
  }

  // ---- The imperative planner ------------------------------------------------

  lemma UidIndexSnoc(list: seq<Resource>, i: nat)
    requires i < |list|
    ensures UidIndex(list[..i + 1])
         == if list[i].meta.uid != "" then UidIndex(list[..i])[UidKey(list[i]) := list[i]] else UidIndex(list[..i])
  {
    assert list[..i + 1][..i] == list[..i];
  }

  method IndexByUid(list: seq<Resource>) returns (byUid: View)
    ensures byUid == UidIndex(list)
  {
    byUid := map[];
    for i := 0 to |list|
      invariant byUid == UidIndex(list[..i])
    {
      UidIndexSnoc(list, i);
      if list[i].meta.uid != "" {
        byUid := byUid[UidKey(list[i]) := list[i]];
      }
    }
    assert list[..|list|] == list;
  }

  method CollectUids(list: seq<Resource>) returns (uids: set<Id>)
    ensures forall u :: u in uids <==> exists r | r in list :: r.meta.uid != "" && UidKey(r) == u
  {
    uids := {};
    for i := 0 to |list|
      invariant forall u :: u in uids <==> exists r | r in list[..i] :: r.meta.uid != "" && UidKey(r) == u
    {
      assert list[..i + 1] == list[..i] + [list[i]];
      if list[i].meta.uid != "" {
        uids := uids + {UidKey(list[i])};
      }
    }
    assert list[..|list|] == list;
  }

  method MatchActual(actual: ResourceSet, byUid: View, d: Resource) returns (r: Option<Resource>)
    requires actual.Valid()
    ensures r == Match(actual.View(), byUid, d)
  {
    if d.meta.uid != "" && UidKey(d) in byUid {
      return Some(byUid[UidKey(d)]);
    }
    r := actual.Get(d.kind, d.meta.name);
    if r.Some? {
      return;
    }
    var alias := VaultAlias(d.kind);
    if alias.Some? {
      r := actual.Get(alias.value, d.meta.name);
    }
  }

  method PlanOne(m: Models, actual: ResourceSet, byUid: View, d: Resource) returns (c: Change)
    requires actual.Valid()
    ensures c == ChangeFor(m, actual.View(), byUid, d)
  {
    var cur := MatchActual(actual, byUid, d);
    if cur.None? {
      c := Change(ActionCreate, d.kind, d.meta.name, "not present in workspace", []);
    } else {
      var fields := DiffFields(m, cur.value, d);
      if |fields| == 0 {
        c := Change(ActionNoop, d.kind, d.meta.name, "", []);
      } else {
        c := Change(ActionUpdate, d.kind, d.meta.name, "live state differs from desired", fields);
      }
    }
  }

  /** The resources of a prefix of the list, by identity. */
  ghost function Upto(list: seq<Resource>, i: nat): View
    requires i <= |list|
  {
    ViewOf(list[..i])
  }

  method AddWanted(m: Models, actual: ResourceSet, byUid: View, opts: PlanOptions, d: Resource, plan: seq<Change>)
    returns (out: seq<Change>)
    requires actual.Valid()
    ensures out ==
      if Entered(m, actual.View(), byUid, opts, d) then plan + [ChangeFor(m, actual.View(), byUid, d)] else plan
  {
    out := plan;
    if Planned(d.kind) {
      var c := PlanOne(m, actual, byUid, d);
      if c.action != ActionNoop || opts.includeNoop {
        out := out + [c];
      }
    }
  }

  /** `plan` lists the changes the resources in `seen` call for. */
  ghost predicate ListsWanted(plan: seq<Change>, m: Models, seen: View, actual: View, byUid: View, opts: PlanOptions) {
    NoDuplicates(plan) && Elements(plan) == Wanted(m, seen, actual, byUid, opts)
  }

  method PlanWanted(m: Models, desired: ResourceSet, actual: ResourceSet, byUid: View, opts: PlanOptions)
    returns (plan: seq<Change>)
    requires desired.Valid() && actual.Valid()
    ensures ListsWanted(plan, m, desired.View(), actual.View(), byUid, opts)
  {
    plan := [];
    var list := desired.list;
    ghost var live := actual.View();
    desired.ValidIsDistinct();
    for i := 0 to |list|
      invariant ListsWanted(plan, m, Upto(list, i), live, byUid, opts)
    {
      ViewGrows(list, i);
      ghost var before := plan;
      plan := AddWanted(m, actual, byUid, opts, list[i], plan);
      WantedStep(m, Upto(list, i), live, byUid, opts, list[i], before, plan);
    }
    assert list[..|list|] == list;
  }

  lemma ViewGrows(list: seq<Resource>, i: nat)
    requires i < |list| && DistinctIds(list)
    ensures Upto(list, i + 1) == Upto(list, i)[list[i].Id() := list[i]]
    ensures list[i].Id() !in Upto(list, i) && Consistent(Upto(list, i))
  {
    assert list[..i + 1][..i] == list[..i];
    ViewMembers(list[..i]);
    assert forall r | r in list[..i] :: r.Id() != list[i].Id();
  }

  lemma WantedStep(m: Models, seen: View, actual: View, byUid: View, opts: PlanOptions, d: Resource,
                   plan: seq<Change>, out: seq<Change>)
    requires Consistent(seen) && d.Id() !in seen
    requires ListsWanted(plan, m, seen, actual, byUid, opts)
    requires out == if Entered(m, actual, byUid, opts, d) then plan + [ChangeFor(m, actual, byUid, d)] else plan
    ensures ListsWanted(out, m, seen[d.Id() := d], actual, byUid, opts)
  {
    WantedGrows(m, seen, actual, byUid, opts, d);
    if Entered(m, actual, byUid, opts, d) {
      Append(plan, ChangeFor(m, actual, byUid, d));
    }
  }

  lemma WantedGrows(m: Models, desired: View, actual: View, byUid: View, opts: PlanOptions, d: Resource)
    requires Consistent(desired) && d.Id() !in desired
    ensures var c := ChangeFor(m, actual, byUid, d);
      Wanted(m, desired[d.Id() := d], actual, byUid, opts)
      == Wanted(m, desired, actual, byUid, opts) + (if Entered(m, actual, byUid, opts, d) then {c} else {})
    ensures ChangeFor(m, actual, byUid, d) !in Wanted(m, desired, actual, byUid, opts)
  {
    hide Diff, Match;
    var before, after := Wanted(m, desired, actual, byUid, opts), Wanted(m, desired[d.Id() := d], actual, byUid, opts);
    var c := ChangeFor(m, actual, byUid, d);
    assert forall x | x in before :: x.Id() in desired;
    assert d.Id() in desired[d.Id() := d];
    forall x
      ensures x in after <==> x in before || (x == c && Entered(m, actual, byUid, opts, d))
    {
      if x in before {
        var id :| id in desired && Entered(m, actual, byUid, opts, desired[id])
          && x == ChangeFor(m, actual, byUid, desired[id]);
        assert desired[d.Id() := d][id] == desired[id];
      }
    }
  }

  method AddDelete(desired: ResourceSet, uids: set<Id>, opts: PlanOptions, a: Resource, plan: seq<Change>)
    returns (out: seq<Change>)
    requires desired.Valid()
    requires a.meta.uid != "" && UidKey(a) in uids <==> ClaimedByUid(desired.View(), a)
    ensures out == if Prunable(desired.View(), opts, a) then plan + [DeleteOf(a)] else plan
  {
    out := plan;
    if !Planned(a.kind) {
      return;
    }
    if desired.Has(a.kind, a.meta.name) {
      return;
    }
    if VaultAlias(a.kind).Some? && desired.Has(VaultAlias(a.kind).value, a.meta.name) {
      return;
    }
    if a.meta.uid != "" && UidKey(a) in uids {
      return;
    }
    if opts.pruneManagedBy != "" && Get(a.meta.labels, LABEL_MANAGED_BY) != opts.pruneManagedBy {
      return;
    }
    if opts.pruneGitOpsSource != "" && Get(a.meta.labels, LABEL_GITOPS_SOURCE) != opts.pruneGitOpsSource {
      return;
    }
    out := out + [DeleteOf(a)];
  }

  /** `plan` lists the changes of `start` and the deletes among `seen`. */
  ghost predicate ListsDeletes(plan: seq<Change>, start: seq<Change>, desired: View, seen: View, opts: PlanOptions) {
    NoDuplicates(plan) && Elements(plan) == Elements(start) + Deletes(desired, seen, opts)
  }

  method PlanDeletes(desired: ResourceSet, actual: ResourceSet, opts: PlanOptions, start: seq<Change>)
    returns (plan: seq<Change>)
    requires desired.Valid() && actual.Valid() && opts.prune
    requires NoDuplicates(start) && forall c | c in start :: c.action != ActionDelete
    ensures ListsDeletes(plan, start, desired.View(), actual.View(), opts)
  {
    var uids := CollectUids(desired.list);
    plan := start;
    var list := actual.list;
    ghost var wanted := desired.View();
    actual.ValidIsDistinct();
    assert Deletes(wanted, Upto(list, 0), opts) == {};
    for i := 0 to |list|
      invariant ListsDeletes(plan, start, wanted, Upto(list, i), opts)
    {
      ViewGrows(list, i);
      UidsAreClaims(desired, uids, list[i]);
      ghost var before := plan;
      plan := AddDelete(desired, uids, opts, list[i], plan);
      DeletesStep(wanted, Upto(list, i), opts, list[i], start, before, plan);
    }
    assert list[..|list|] == list;
  }

  lemma UidsAreClaims(desired: ResourceSet, uids: set<Id>, a: Resource)
    requires desired.Valid()
    requires forall u :: u in uids <==> exists r | r in desired.list :: r.meta.uid != "" && UidKey(r) == u
    ensures a.meta.uid != "" && UidKey(a) in uids <==> ClaimedByUid(desired.View(), a)
  {
    desired.ValidIsDistinct();
    ViewMembers(desired.list);
    if ClaimedByUid(desired.View(), a) {
      var id :| id in desired.View() && UidKey(desired.View()[id]) == UidKey(a);
      assert desired.View()[id] in desired.list;
    }
  }

  lemma DeletesStep(desired: View, seen: View, opts: PlanOptions, a: Resource,
                    start: seq<Change>, plan: seq<Change>, out: seq<Change>)
    requires Consistent(seen) && a.Id() !in seen && opts.prune
    requires forall c | c in start :: c.action != ActionDelete
    requires ListsDeletes(plan, start, desired, seen, opts)
    requires out == if Prunable(desired, opts, a) then plan + [DeleteOf(a)] else plan
    ensures ListsDeletes(out, start, desired, seen[a.Id() := a], opts)
  {
    DeletesGrow(desired, seen, opts, a);
    if Prunable(desired, opts, a) {
      Append(plan, DeleteOf(a));
    }
  }

  lemma DeletesGrow(desired: View, actual: View, opts: PlanOptions, a: Resource)
    requires Consistent(actual) && a.Id() !in actual
    ensures Deletes(desired, actual[a.Id() := a], opts)
      == Deletes(desired, actual, opts) + (if opts.prune && Prunable(desired, opts, a) then {DeleteOf(a)} else {})
    ensures DeleteOf(a) !in Deletes(desired, actual, opts)
  {
    var before, after := Deletes(desired, actual, opts), Deletes(desired, actual[a.Id() := a], opts);
    assert forall x | x in before :: x.Id() in actual;
    assert a.Id() in actual[a.Id() := a];
    forall x
      ensures x in after <==> x in before || (x == DeleteOf(a) && opts.prune && Prunable(desired, opts, a))
    {
      if x in before {
        var id :| id in actual && Prunable(desired, opts, actual[id]) && x == DeleteOf(actual[id]);
        assert actual[a.Id() := a][id] == actual[id];
      }
    }
  }

  lemma SortIsPlan(plan: seq<Change>, changes: set<Change>)
    requires NoDuplicates(plan) && Elements(plan) == changes && OnePerId(changes)
    ensures IsPlan(Sort(ChangeLess, plan), changes)
  {
    hide ChangeLess;
    ChangesAreOrdered(changes);
    SortArranges(ChangeLess, plan);
  }

  /** The plan is the one ordered list of the changes the two sets call for. */
  method BuildPlan(m: Models, desired: ResourceSet, actual: ResourceSet, opts: PlanOptions)
    returns (plan: seq<Change>)
    requires desired.Valid() && actual.Valid()
    ensures IsPlan(plan, Changes(m, desired.View(), actual.View(), UidIndex(actual.list), opts))
  {
    hide Wanted, ChangeLess, UidIndex;
    var byUid := IndexByUid(actual.list);
    plan := PlanWanted(m, desired, actual, byUid, opts);
    if opts.prune {
      WantedNeverDeletes(m, desired.View(), actual.View(), byUid, opts);
      assert forall c | c in plan :: c in Elements(plan);
      plan := PlanDeletes(desired, actual, opts, plan);
    } else {
      assert Deletes(desired.View(), actual.View(), opts) == {};
    }
    ViewMembers(desired.list);
    ViewMembers(actual.list);
    ChangesOnePerId(m, desired.View(), actual.View(), byUid, opts);
    SortIsPlan(plan, Changes(m, desired.View(), actual.View(), byUid, opts));
    plan := Sort(ChangeLess, plan);
  }

  lemma WantedNeverDeletes(m: Models, desired: View, actual: View, byUid: View, opts: PlanOptions)
    ensures forall c | c in Wanted(m, desired, actual, byUid, opts) :: c.action != ActionDelete
  {
    hide Diff, Match;
  }
}
