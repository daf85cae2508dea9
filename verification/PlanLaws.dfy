/** Properties of a plan as a whole: it is determined by the two sets alone,
    and when its matching is and is not safe to execute. */
module PlanLaws {
  import opened Diffs
  import opened Fields
  import opened Matching
  import opened Plans
  import opened Resources
  import opened Schema
  import opened Settling
  import opened Sorting
  import opened Wrappers

  // ---- Determinism -------------------------------------------------------------

  lemma ViewForgetsOrder(xs: seq<Resource>, ys: seq<Resource>)
    requires DistinctIds(xs) && DistinctIds(ys) && Elements(xs) == Elements(ys)
    ensures ViewOf(xs) == ViewOf(ys)
  {
    ViewMembers(xs);
    ViewMembers(ys);
    assert forall r :: r in xs <==> r in Elements(xs);
    assert forall r :: r in ys <==> r in Elements(ys);
  }

  /** The planner gives one answer for every insertion order of the two sets. */
  lemma PlanIsDeterministic(m: Models, opts: PlanOptions,
                            desired1: seq<Resource>, actual1: seq<Resource>, plan1: seq<Change>,
                            desired2: seq<Resource>, actual2: seq<Resource>, plan2: seq<Change>)
    requires DistinctIds(desired1) && DistinctIds(actual1) && DistinctIds(desired2) && DistinctIds(actual2)
    requires Elements(desired1) == Elements(desired2) && Elements(actual1) == Elements(actual2)
    requires OneOwner(ViewOf(desired1), ViewOf(actual1))
    requires IsPlan(plan1, Changes(m, ViewOf(desired1), ViewOf(actual1), UidIndex(actual1), opts))
    requires IsPlan(plan2, Changes(m, ViewOf(desired2), ViewOf(actual2), UidIndex(actual2), opts))
    ensures plan1 == plan2
  {
    hide Changes, ChangeLess, OneOwner, UidIndex, ViewOf;
    ViewForgetsOrder(desired1, desired2);
    ViewForgetsOrder(actual1, actual2);
    ViewMembers(actual1);
    ViewMembers(desired1);
    UidIndexIsListing(actual1);
    UidIndexIsListing(actual2);
    ListingsAgree(m, ViewOf(desired1), ViewOf(actual1), UidIndex(actual1), UidIndex(actual2), opts);
    var changes := Changes(m, ViewOf(desired1), ViewOf(actual1), UidIndex(actual1), opts);
    ChangesOnePerId(m, ViewOf(desired1), ViewOf(actual1), UidIndex(actual1), opts);
    ChangesAreOrdered(changes);
    ArrangementUnique(ChangeLess, plan1, plan2, changes);
  }

  // ---- Renames --------------------------------------------------------------------

  /** Renaming a declared resource that a live one has the UID of changes no
      action: names are never compared. */
  lemma PureRenameIsNoop(m: Models, actual: View, byUid: View, d: Resource, name: string)
    requires d.meta.uid != "" && UidKey(d) in byUid
    ensures var r := d.(meta := d.meta.(name := name));
      var c, e := ChangeFor(m, actual, byUid, d), ChangeFor(m, actual, byUid, r);
      && e.action == c.action && e.fields == c.fields && e.Id() == r.Id()
      && (c.action == ActionNoop <==> Diff(m, byUid[UidKey(d)], d) == [])
  {
    hide Diff;
    DiffForgetsName(m, byUid[UidKey(d)], d, name);
  }

  lemma DiffForgetsName(m: Models, a: Resource, d: Resource, name: string)
    ensures Diff(m, a, d.(meta := d.meta.(name := name))) == Diff(m, a, d)
  {
    hide DiffSealedSecret, DiffRegistry, DiffMiddleware, DiffJob, ConfigDeltas, GenericDeltas, Listed;
    var r := d.(meta := d.meta.(name := name));
    ByHandForgetsName(m, a, d, r);
    GenericForgetsName(m, a, d, r);
  }

  lemma ByHandForgetsName(m: Models, a: Resource, d: Resource, r: Resource)
    requires r.spec == d.spec
    ensures DiffSealedSecret(a, r) == DiffSealedSecret(a, d) && DiffRegistry(a, r) == DiffRegistry(a, d)
    ensures DiffMiddleware(a, r) == DiffMiddleware(a, d) && DiffJob(m, a, r) == DiffJob(m, a, d)
    ensures d.spec.ConfigOf? ==> ConfigDeltas(a, r) == ConfigDeltas(a, d)
  {
    hide Changed, Listed, ConfigDeltasOf;
  }

  lemma GenericForgetsName(m: Models, a: Resource, d: Resource, r: Resource)
    requires r.spec == d.spec && r.kind == d.kind
    ensures GenericDeltas(m, a, r) == GenericDeltas(m, a, d)
  {
    hide FieldsOf;
    var av, dv := FieldsOf(m, a.spec), FieldsOf(m, d.spec);
    ExemptIsOfKind(d, r, dv);
    assert Compared(av, dv, r) == Compared(av, dv, d);
  }

  lemma ExemptIsOfKind(d: Resource, r: Resource, dv: FieldMap)
    requires r.spec == d.spec && r.kind == d.kind
    ensures forall f :: Exempt(r, dv, f) == Exempt(d, dv, f)
  {}

  // ---- Contested resources -----------------------------------------------------------

  ghost predicate MatchedByUid(actual: View, d: Resource) {
    Owners(actual, d) != {}
  }

  /** One kind, or the two kinds of a vault entry. */
  predicate SameFamily(a: Kind, b: Kind) {
    a == b || (IsVaultSecret(a) && IsVaultSecret(b))
  }

  /** `d` names `a`, directly or as the same vault entry. */
  predicate Names(d: Resource, a: Resource) {
    d.meta.name == a.meta.name && SameFamily(d.kind, a.kind)
  }

  /** No declared resource names a live one that another claims by UID, unless
      its own UID matches elsewhere. Every two names may be swapped. */
  ghost predicate NamesAreFree(desired: View, actual: View) {
    forall i, j, k | i in desired && j in desired && i != j && k in Owners(actual, desired[i]) ::
      Names(desired[j], actual[k]) ==> MatchedByUid(actual, desired[j])
  }

  lemma MatchNames(actual: View, d: Resource)
    requires Consistent(actual)
    ensures MatchIn(actual, d).Some? ==> var x := MatchIn(actual, d).value;
      x.Id() in actual && actual[x.Id()] == x
      && (if MatchedByUid(actual, d) then x.Id() in Owners(actual, d) else Names(d, x))
  {}

  /** The manifests decide it: when names are free, matching is one to one. */
  lemma FreeNamesAreUncontested(desired: View, actual: View)
    requires Consistent(desired) && Consistent(actual) && UniqueUids(desired)
    requires OneSecretPerName(desired) && NamesAreFree(desired, actual)
    ensures Uncontested(desired, actual)
  {
    forall i, j | i in desired && j in desired && i != j
      ensures var x, y := MatchIn(actual, desired[i]), MatchIn(actual, desired[j]);
        x.Some? && y.Some? ==> x.value.Id() != y.value.Id()
    {
      FreeNamesMatchApart(desired, actual, i, j);
    }
  }

  lemma FreeNamesMatchApart(desired: View, actual: View, i: Id, j: Id)
    requires Consistent(desired) && Consistent(actual) && UniqueUids(desired)
    requires OneSecretPerName(desired) && NamesAreFree(desired, actual)
    requires i in desired && j in desired && i != j
    ensures var x, y := MatchIn(actual, desired[i]), MatchIn(actual, desired[j]);
      x.Some? && y.Some? ==> x.value.Id() != y.value.Id()
  {
    hide UniqueUids, OneSecretPerName, MatchIn;
    MatchNames(actual, desired[i]);
    MatchNames(actual, desired[j]);
    DeclaredDiffer(desired, i, j);
  }

  lemma DeclaredDiffer(desired: View, i: Id, j: Id)
    requires Consistent(desired) && UniqueUids(desired) && OneSecretPerName(desired)
    requires i in desired && j in desired && i != j
    ensures desired[i].meta.uid != "" ==> UidKey(desired[i]) != UidKey(desired[j])
    ensures desired[i].meta.name == desired[j].meta.name ==> !SameFamily(desired[i].kind, desired[j].kind)
  {
    var name := desired[i].meta.name;
    assert !(ResourceId(KindSecret, name) in desired && ResourceId(KindSealedSecret, name) in desired);
    assert desired[i].Id() == i && desired[j].Id() == j;
  }

  /** The condition is needed: two declared resources that both state a field,
      differently, are never both in sync with one live resource. */
  lemma ContestedCannotSettle(m: Models, a: Resource, d1: Resource, d2: Resource, f: Field)
    requires Generic(d1.kind) && Generic(d2.kind)
    requires f in FieldsOf(m, d1.spec) && f in FieldsOf(m, d2.spec)
    requires FieldsOf(m, d1.spec)[f] != FieldsOf(m, d2.spec)[f]
    ensures Diff(m, a, d1) != [] || Diff(m, a, d2) != []
  {
    hide FieldsOf, Diff;
    EmptyDiffMeansAgreement(m, a, d1);
    EmptyDiffMeansAgreement(m, a, d2);
    SilentHasNoEnv(m, d1);
    SilentHasNoEnv(m, d2);
    assert !Exempt(d1, FieldsOf(m, d1.spec), f) && !Exempt(d2, FieldsOf(m, d2.spec), f);
  }

  // ---- What prune leaves behind ---------------------------------------------------------

  /** An orphan in scope survives prune exactly because some declared resource
      still names it, though that one matched another. */
  lemma SurvivingOrphanIsNamed(desired: View, actual: View, opts: PlanOptions, a: Resource)
    requires Consistent(desired) && Consistent(actual) && OneOwner(desired, actual)
    requires a.Id() in actual && actual[a.Id()] == a && Planned(a.kind) && InScope(opts, a)
    requires forall id | id in desired :: MatchIn(actual, desired[id]) != Some(a)
    ensures !Prunable(desired, opts, a) <==>
      exists id :: id in desired && Names(desired[id], a) && MatchIn(actual, desired[id]).Some?
  {
    hide MatchIn, OwnedOnce, Names;
    NamedMeansDeclared(desired, a);
    forall id | id in desired && UidKey(desired[id]) == UidKey(a)
      ensures a.meta.uid == ""
    {
      if a.meta.uid != "" {
        UidClaimMatches(actual, a, desired[id]);
      }
    }
    forall id | id in desired && Names(desired[id], a)
      ensures MatchIn(actual, desired[id]).Some?
    {
      NamedIsMatched(actual, a, desired[id]);
    }
  }

  lemma NamedMeansDeclared(desired: View, a: Resource)
    requires Consistent(desired)
    ensures (exists id :: id in desired && Names(desired[id], a)) <==> a.Id() in desired || AliasDeclared(desired, a)
  {
    if a.Id() in desired {
      assert Names(desired[a.Id()], a);
    }
    if AliasDeclared(desired, a) {
      assert Names(desired[ResourceId(VaultAlias(a.kind).value, a.meta.name)], a);
    }
    forall id | id in desired && Names(desired[id], a)
      ensures a.Id() in desired || AliasDeclared(desired, a)
    {
      assert desired[id].Id() == id;
    }
  }

  lemma UidClaimMatches(actual: View, a: Resource, d: Resource)
    requires Consistent(actual) && OwnedOnce(actual, d)
    requires a.Id() in actual && actual[a.Id()] == a && a.meta.uid != "" && UidKey(d) == UidKey(a)
    ensures MatchIn(actual, d) == Some(a)
  {
    OwnerIsMatch(actual, d, a.Id());
  }

  lemma NamedIsMatched(actual: View, a: Resource, d: Resource)
    requires a.Id() in actual && actual[a.Id()] == a && Names(d, a)
    ensures MatchIn(actual, d).Some?
  {}
}
