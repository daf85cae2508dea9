/** A plan, entry by entry: what exactly is created, updated and deleted, and in
    which order, in terms of the two lists of resources it is built from. */
module PlanContents {
  import opened Diffs
  import opened Fields
  import opened Matching
  import opened Plans
  import opened Resources
  import opened Schema
  import opened Sorting
  import opened Text
  import opened Wrappers

  // ---- Who stands for whom ------------------------------------------------------

  predicate SameUid(d: Resource, a: Resource) {
    d.meta.uid != "" && d.kind == a.kind && d.meta.uid == a.meta.uid
  }

  predicate SameKey(d: Resource, a: Resource) {
    d.kind == a.kind && d.meta.name == a.meta.name
  }

  /** One vault entry, under its other kind. */
  predicate SameVaultEntry(d: Resource, a: Resource) {
    && d.meta.name == a.meta.name
    && ((d.kind == KindSecret && a.kind == KindSealedSecret) || (d.kind == KindSealedSecret && a.kind == KindSecret))
  }

  predicate Labelled(a: Resource, key: string, value: string) {
    key in a.meta.labels && a.meta.labels[key] == value
  }

  ghost predicate IsPlanOf(plan: seq<Change>, m: Models, desired: seq<Resource>, actual: seq<Resource>,
                           opts: PlanOptions) {
    && DistinctIds(desired) && DistinctIds(actual)
    && IsPlan(plan, Changes(m, ViewOf(desired), ViewOf(actual), UidIndex(actual), opts))
  }

  lemma InThePlan(plan: seq<Change>, m: Models, desired: seq<Resource>, actual: seq<Resource>, opts: PlanOptions,
                  c: Change)
    requires IsPlanOf(plan, m, desired, actual, opts)
    ensures c in plan <==> c in Changes(m, ViewOf(desired), ViewOf(actual), UidIndex(actual), opts)
  {
    hide Changes, ChangeLess, UidIndex, ViewOf;
    assert c in plan <==> c in Elements(plan);
  }

  // ---- Deletes ---------------------------------------------------------------------

  ghost predicate Deleted(plan: seq<Change>, a: Resource) {
    exists c | c in plan :: c.action == ActionDelete && c.kind == a.kind && c.name == a.meta.name
  }

  /** A live resource goes exactly when prune is on, its kind is planned, nothing
      declared has its name or UID, and it carries both ownership labels asked for. */
  ghost predicate Unwanted(desired: seq<Resource>, opts: PlanOptions, a: Resource) {
    && opts.prune && a.kind != KindProject
    && (forall d | d in desired :: !SameUid(d, a) && !SameKey(d, a) && !SameVaultEntry(d, a))
    && (opts.pruneManagedBy != "" ==> Labelled(a, "miabi.io/managed-by", opts.pruneManagedBy))
    && (opts.pruneGitOpsSource != "" ==> Labelled(a, "miabi.io/gitops-source", opts.pruneGitOpsSource))
  }

  lemma LabelsDecide(opts: PlanOptions, a: Resource)
    ensures InScope(opts, a) <==>
      && (opts.pruneManagedBy != "" ==> Labelled(a, "miabi.io/managed-by", opts.pruneManagedBy))
      && (opts.pruneGitOpsSource != "" ==> Labelled(a, "miabi.io/gitops-source", opts.pruneGitOpsSource))
  {}

  lemma UnwantedIsPrunable(desired: seq<Resource>, opts: PlanOptions, a: Resource)
    requires DistinctIds(desired)
    ensures opts.prune && Prunable(ViewOf(desired), opts, a) <==> Unwanted(desired, opts, a)
  {
    hide InScope, ViewOf, Labelled;
    LabelsDecide(opts, a);
    ViewMembers(desired);
    forall d | d in desired
      ensures SameUid(d, a) ==> ClaimedByUid(ViewOf(desired), a)
      ensures SameKey(d, a) ==> a.Id() in ViewOf(desired)
      ensures SameVaultEntry(d, a) ==> AliasDeclared(ViewOf(desired), a)
    {}
    if a.Id() in ViewOf(desired) {
      assert SameKey(ViewOf(desired)[a.Id()], a);
    }
    if AliasDeclared(ViewOf(desired), a) {
      assert SameVaultEntry(ViewOf(desired)[ResourceId(VaultAlias(a.kind).value, a.meta.name)], a);
    }
    if ClaimedByUid(ViewOf(desired), a) {
      var id :| id in ViewOf(desired) && UidKey(ViewOf(desired)[id]) == UidKey(a);
      assert SameUid(ViewOf(desired)[id], a);
    }
  }

  lemma DeletedIff(plan: seq<Change>, m: Models, desired: seq<Resource>, actual: seq<Resource>, opts: PlanOptions,
                   a: Resource)
    requires IsPlanOf(plan, m, desired, actual, opts) && a in actual
    ensures Deleted(plan, a) <==> Unwanted(desired, opts, a)
  {
    hide ViewOf, UidIndex, Unwanted, Prunable, Changes;
    var v := ViewOf(actual);
    ViewMembers(actual);
    UnwantedIsPrunable(desired, opts, a);
    InThePlan(plan, m, desired, actual, opts, DeleteOf(a));
    DeleteIsDue(m, ViewOf(desired), v, UidIndex(actual), opts, DeleteOf(a));
    if Deleted(plan, a) {
      var c :| c in plan && c.action == ActionDelete && c.kind == a.kind && c.name == a.meta.name;
      InThePlan(plan, m, desired, actual, opts, c);
      DeleteIsDue(m, ViewOf(desired), v, UidIndex(actual), opts, c);
    }
  }

  lemma DeleteIsDue(m: Models, desired: View, actual: View, byUid: View, opts: PlanOptions, c: Change)
    requires Consistent(actual) && c.action == ActionDelete
    ensures c in Changes(m, desired, actual, byUid, opts) <==>
      && c.Id() in actual && c == DeleteOf(actual[c.Id()]) && opts.prune && Prunable(desired, opts, actual[c.Id()])
  {
    hide Prunable;
    WantedNeverDeletes(m, desired, actual, byUid, opts);
  }

  /** Nothing but a live resource is deleted, and nothing owned by another. */
  lemma DeletesStayInScope(plan: seq<Change>, m: Models, desired: seq<Resource>, actual: seq<Resource>,
                           opts: PlanOptions, c: Change)
    requires IsPlanOf(plan, m, desired, actual, opts) && c in plan && c.action == ActionDelete
    ensures c.fields == [] && c.reason == "removed from desired state"
    ensures exists a | a in actual ::
      && c.kind == a.kind && c.name == a.meta.name
      && (opts.pruneManagedBy != "" ==> Labelled(a, "miabi.io/managed-by", opts.pruneManagedBy))
      && (opts.pruneGitOpsSource != "" ==> Labelled(a, "miabi.io/gitops-source", opts.pruneGitOpsSource))
  {
    hide ViewOf, UidIndex, Changes, Labelled, InScope;
    ViewMembers(actual);
    InThePlan(plan, m, desired, actual, opts, c);
    DeleteIsDue(m, ViewOf(desired), ViewOf(actual), UidIndex(actual), opts, c);
    LabelsDecide(opts, ViewOf(actual)[c.Id()]);
  }

  // ---- Creates, updates and noops ------------------------------------------------------

  /** `a` is what `d` stands for: the owner of its UID, if that is live, or else
      its namesake, or else the vault entry of its name. */
  ghost predicate StandsFor(actual: seq<Resource>, d: Resource, a: Resource) {
    && a in actual
    && if exists b | b in actual :: SameUid(d, b) then SameUid(d, a)
       else if exists b | b in actual :: SameKey(d, b) then SameKey(d, a)
       else SameVaultEntry(d, a)
  }

  ghost predicate StandsAlone(actual: seq<Resource>, d: Resource) {
    forall b | b in actual :: !SameUid(d, b) && !SameKey(d, b) && !SameVaultEntry(d, b)
  }

  ghost predicate OneLiveOwner(actual: seq<Resource>, d: Resource) {
    forall b, c | b in actual && c in actual && SameUid(d, b) && SameUid(d, c) :: b == c
  }

  lemma MatchStands(actual: seq<Resource>, d: Resource)
    requires DistinctIds(actual) && OneLiveOwner(actual, d)
    ensures var x := Match(ViewOf(actual), UidIndex(actual), d);
      && (x.None? <==> StandsAlone(actual, d))
      && (forall a :: x == Some(a) <==> StandsFor(actual, d, a))
  {
    hide ViewOf, UidIndex;
    ViewMembers(actual);
    UidIndexMembers(actual);
    var v, x := ViewOf(actual), Match(ViewOf(actual), UidIndex(actual), d);
    if b :| b in actual && SameUid(d, b) {
      assert UidKey(b) in UidIndex(actual) && UidKey(b) == UidKey(d);
      var o := UidIndex(actual)[UidKey(d)];
      assert o in actual && SameUid(d, o);
    } else if b :| b in actual && SameKey(d, b) {
      assert v[b.Id()] == b && b.Id() == d.Id();
      OnlyKey(actual, d, b);
    } else {
      NoUidNoKey(actual, d);
      VaultStands(actual, d);
    }
  }

  lemma OnlyKey(actual: seq<Resource>, d: Resource, b: Resource)
    requires DistinctIds(actual) && b in actual && SameKey(d, b)
    ensures forall c | c in actual && SameKey(d, c) :: c == b
  {
    ViewMembers(actual);
  }

  lemma NoUidNoKey(actual: seq<Resource>, d: Resource)
    requires DistinctIds(actual) && forall b | b in actual :: !SameUid(d, b) && !SameKey(d, b)
    ensures (d.meta.uid != "" ==> UidKey(d) !in UidIndex(actual)) && d.Id() !in ViewOf(actual)
  {
    ViewMembers(actual);
    UidIndexMembers(actual);
  }

  lemma VaultStands(actual: seq<Resource>, d: Resource)
    requires DistinctIds(actual)
    ensures var x := if VaultAlias(d.kind).Some?
                     then Lookup(ViewOf(actual), ResourceId(VaultAlias(d.kind).value, d.meta.name)) else None;
      && (x.None? <==> forall b | b in actual :: !SameVaultEntry(d, b))
      && (forall a :: x == Some(a) <==> a in actual && SameVaultEntry(d, a))
  {
    hide ViewOf;
    ViewMembers(actual);
    forall b | b in actual && SameVaultEntry(d, b)
      ensures VaultAlias(d.kind) == Some(b.kind) && b.Id() in ViewOf(actual) && ViewOf(actual)[b.Id()] == b
    {}
  }

  /** The entry of a plan for a declared resource. */
  ghost predicate Entry(plan: seq<Change>, d: Resource, c: Change) {
    c in plan && c.action != ActionDelete && c.kind == d.kind && c.name == d.meta.name
  }

  lemma EntryIs(plan: seq<Change>, m: Models, desired: seq<Resource>, actual: seq<Resource>, opts: PlanOptions,
                d: Resource, c: Change)
    requires IsPlanOf(plan, m, desired, actual, opts) && d in desired
    ensures Entry(plan, d, c) <==>
      && c == ChangeFor(m, ViewOf(actual), UidIndex(actual), d) && d.kind != KindProject
      && (opts.includeNoop || c.action != ActionNoop)
  {
    hide ViewOf, UidIndex, Changes, Deletes, Match, Diff;
    ViewMembers(desired);
    ViewMembers(actual);
    InThePlan(plan, m, desired, actual, opts, c);
    WantedEntry(m, ViewOf(desired), ViewOf(actual), UidIndex(actual), opts, d, c);
    assert c.action != ActionDelete ==> c !in Deletes(ViewOf(desired), ViewOf(actual), opts) by {
      NoDelete(ViewOf(desired), ViewOf(actual), opts, c);
    }
    ChangesAreBoth(m, ViewOf(desired), ViewOf(actual), UidIndex(actual), opts, c);
  }

  lemma NoDelete(desired: View, actual: View, opts: PlanOptions, c: Change)
    ensures c in Deletes(desired, actual, opts) ==> c.action == ActionDelete
  {}

  lemma ChangesAreBoth(m: Models, desired: View, actual: View, byUid: View, opts: PlanOptions, c: Change)
    ensures c in Changes(m, desired, actual, byUid, opts) <==>
      c in Wanted(m, desired, actual, byUid, opts) || c in Deletes(desired, actual, opts)
  {}

  lemma WantedEntry(m: Models, desired: View, actual: View, byUid: View, opts: PlanOptions, d: Resource, c: Change)
    requires Consistent(desired) && d.Id() in desired && desired[d.Id()] == d
    ensures c in Wanted(m, desired, actual, byUid, opts) && c.Id() == d.Id() <==>
      c == ChangeFor(m, actual, byUid, d) && Entered(m, actual, byUid, opts, d)
    ensures ChangeFor(m, actual, byUid, d).Id() == d.Id() && ChangeFor(m, actual, byUid, d).action != ActionDelete
  {
    hide Diff, Match;
    forall id | id in desired
      ensures ChangeFor(m, actual, byUid, desired[id]).Id() == id
    {}
  }

  /** What stands alone is created; what stands for a live resource is updated by
      the fields that differ, or is in sync and listed only on request. */
  lemma EntriesAre(plan: seq<Change>, m: Models, desired: seq<Resource>, actual: seq<Resource>, opts: PlanOptions,
                   d: Resource, c: Change)
    requires IsPlanOf(plan, m, desired, actual, opts) && d in desired && d.kind != KindProject
      && OneLiveOwner(actual, d)
    ensures StandsAlone(actual, d) ==>
      (Entry(plan, d, c) <==> c == Change(ActionCreate, d.kind, d.meta.name, "not present in workspace", []))
    ensures forall a | StandsFor(actual, d, a) && Diff(m, a, d) != [] ::
      (Entry(plan, d, c) <==>
        c == Change(ActionUpdate, d.kind, d.meta.name, "live state differs from desired", Diff(m, a, d)))
    ensures forall a | StandsFor(actual, d, a) && Diff(m, a, d) == [] ::
      (Entry(plan, d, c) <==> opts.includeNoop && c == Change(ActionNoop, d.kind, d.meta.name, "", []))
  {
    hide ViewOf, UidIndex, Changes, Match, Diff, Entry, StandsFor, StandsAlone, OneLiveOwner;
    EntryIs(plan, m, desired, actual, opts, d, c);
    MatchStands(actual, d);
  }

  /** A Project never enters a plan. */
  lemma ProjectsAreNotPlanned(plan: seq<Change>, m: Models, desired: seq<Resource>, actual: seq<Resource>,
                              opts: PlanOptions, c: Change)
    requires IsPlanOf(plan, m, desired, actual, opts) && c in plan
    ensures c.kind != KindProject
    ensures c.action != ActionDelete ==> exists d | d in desired :: Entry(plan, d, c)
  {
    hide ViewOf, UidIndex, Match, Diff, Prunable;
    ViewMembers(desired);
    ViewMembers(actual);
    InThePlan(plan, m, desired, actual, opts, c);
    if c.action == ActionDelete {
      DeleteIsDue(m, ViewOf(desired), ViewOf(actual), UidIndex(actual), opts, c);
      PrunableIsPlanned(ViewOf(desired), opts, ViewOf(actual)[c.Id()]);
    } else {
      NoDelete(ViewOf(desired), ViewOf(actual), opts, c);
      var id :| id in ViewOf(desired) && Entered(m, ViewOf(actual), UidIndex(actual), opts, ViewOf(desired)[id])
        && c == ChangeFor(m, ViewOf(actual), UidIndex(actual), ViewOf(desired)[id]);
      WantedEntry(m, ViewOf(desired), ViewOf(actual), UidIndex(actual), opts, ViewOf(desired)[id], c);
      assert Entry(plan, ViewOf(desired)[id], c);
    }
  }

  lemma PrunableIsPlanned(desired: View, opts: PlanOptions, a: Resource)
    ensures Prunable(desired, opts, a) ==> a.kind != KindProject
  {}

  // ---- Order --------------------------------------------------------------------------------

  /** The order in which kinds are created and updated. */
  const APPLY_ORDER: seq<Kind> := [
    KindConfig, KindDomain, KindMiddleware, KindSealedSecret, KindSecret, KindVolume,
    KindDatabase, KindGitRepository, KindRegistry, KindStack,
    KindApplication,
    KindCronJob, KindJob, KindRoute,
    KindGitSource]

  /** The order in which kinds are deleted: dependents first. */
  const DELETE_ORDER: seq<Kind> := [
    KindGitSource,
    KindCronJob, KindJob, KindRoute,
    KindApplication,
    KindDatabase, KindGitRepository, KindRegistry, KindStack,
    KindConfig, KindDomain, KindMiddleware, KindSealedSecret, KindSecret, KindVolume]

  predicate Precedes(order: seq<Kind>, c: Change, e: Change) {
    exists p, q | 0 <= p <= q < |order| ::
      order[p] == c.kind && order[q] == e.kind && (p < q || Less(c.name, e.name))
  }

  /** Where a kind is in either order, and the letter its name starts with. */
  datatype Place = Place(apply: nat, delete: nat, initial: char)

  function PlaceOf(k: Kind): Place {
    match k
    case KindConfig => Place(0, 9, 'C')
    case KindDomain => Place(1, 10, 'D')
    case KindMiddleware => Place(2, 11, 'M')
    case KindSealedSecret => Place(3, 12, 'S')
    case KindSecret => Place(4, 13, 'S')
    case KindVolume => Place(5, 14, 'V')
    case KindDatabase => Place(6, 5, 'D')
    case KindGitRepository => Place(7, 6, 'G')
    case KindRegistry => Place(8, 7, 'R')
    case KindStack => Place(9, 8, 'S')
    case KindApplication => Place(10, 4, 'A')
    case KindCronJob => Place(11, 1, 'C')
    case KindJob => Place(12, 2, 'J')
    case KindRoute => Place(13, 3, 'R')
    case KindGitSource => Place(14, 0, 'G')
    case KindProject => Place(15, 15, 'P')
  }

  lemma PlacesAre(k: Kind)
    requires k != KindProject
    ensures PlaceOf(k).apply < |APPLY_ORDER| && APPLY_ORDER[PlaceOf(k).apply] == k
    ensures PlaceOf(k).delete < |DELETE_ORDER| && DELETE_ORDER[PlaceOf(k).delete] == k
  {}

  lemma InitialIs(k: Kind)
    ensures KindName(k) != "" && KindName(k)[0] == PlaceOf(k).initial
  {}

  lemma LessInitials(a: string, b: string)
    requires a != "" && Less(a, b)
    ensures a[0] <= b[0]
  {}

  lemma SealedBeforePlain()
    ensures !Less(KindName(KindSecret), KindName(KindSealedSecret))
  {
    var a, b := KindName(KindSecret), KindName(KindSealedSecret);
    assert a[1..][0] == 'e' == b[1..][0];
    assert a[1..][1..][0] == 'c' && b[1..][1..][0] == 'a';
  }

  /** Kinds of one rank are ordered by name. */
  lemma KindsByName(a: Kind, b: Kind)
    requires a != KindProject && b != KindProject
    requires ApplyRank(a) == ApplyRank(b) && Less(KindName(a), KindName(b))
    ensures PlaceOf(a).apply < PlaceOf(b).apply && PlaceOf(a).delete < PlaceOf(b).delete
  {
    hide KindName;
    InitialIs(a);
    InitialIs(b);
    LessInitials(KindName(a), KindName(b));
    LessIrreflexive(KindName(a));
    SealedBeforePlain();
  }

  lemma KindsByRank(a: Kind, b: Kind)
    requires a != KindProject && b != KindProject && ApplyRank(a) < ApplyRank(b)
    ensures PlaceOf(a).apply < PlaceOf(b).apply && PlaceOf(b).delete < PlaceOf(a).delete
  {}

  lemma LessPrecedes(c: Change, e: Change)
    requires ChangeLess(c, e) && c.kind != KindProject && e.kind != KindProject
    ensures e.action == ActionDelete ==> c.action == ActionDelete && Precedes(DELETE_ORDER, c, e)
    ensures c.action != ActionDelete ==> e.action != ActionDelete && Precedes(APPLY_ORDER, c, e)
  {
    hide KindName, Less, ApplyRank, PlaceOf;
    PlacesAre(c.kind);
    PlacesAre(e.kind);
    if c.kind != e.kind && ApplyRank(c.kind) == ApplyRank(e.kind) && Less(KindName(c.kind), KindName(e.kind)) {
      KindsByName(c.kind, e.kind);
    }
    if ApplyRank(c.kind) < ApplyRank(e.kind) {
      KindsByRank(c.kind, e.kind);
    }
    if ApplyRank(e.kind) < ApplyRank(c.kind) {
      KindsByRank(e.kind, c.kind);
    }
  }

  /** Deletes come first; within each half the kinds follow their order, and the
      resources of a kind their names. */
  lemma PlanOrder(plan: seq<Change>, m: Models, desired: seq<Resource>, actual: seq<Resource>, opts: PlanOptions,
                  i: nat, j: nat)
    requires IsPlanOf(plan, m, desired, actual, opts) && i < j < |plan|
    ensures plan[j].action == ActionDelete ==>
      plan[i].action == ActionDelete && Precedes(DELETE_ORDER, plan[i], plan[j])
    ensures plan[i].action != ActionDelete ==> plan[j].action != ActionDelete && Precedes(APPLY_ORDER, plan[i], plan[j])
  {
    hide Changes, ViewOf, UidIndex, Precedes, ChangeLess, Entry;
    ProjectsAreNotPlanned(plan, m, desired, actual, opts, plan[i]);
    ProjectsAreNotPlanned(plan, m, desired, actual, opts, plan[j]);
    LessPrecedes(plan[i], plan[j]);
  }
}
