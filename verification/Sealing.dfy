/** Sealing a vault entry that was live in the clear: a family of manifests for
    which it converges, and one for which it does not. */
module Sealing {
  import opened Convergence
  import opened Diffs
  import opened Fields
  import opened Matching
  import opened Overlay
  import opened Plans
  import opened Resources
  import opened Schema
  import opened Wrappers

  /** `d` is a sealed value with a fingerprint, `x` a live entry with a UID. */
  ghost predicate SealsLive(d: Resource, x: Resource) {
    && d.kind == KindSealedSecret && d.spec.SealedSecretOf? && SealedFP(d) != ""
    && x.kind == KindSecret && WellTyped(x) && x.meta.uid != ""
  }

  ghost function One(x: Resource): View {
    map[x.Id() := x]
  }

  ghost function Pair(a: Resource, b: Resource): View {
    map[a.Id() := a, b.Id() := b]
  }

  lemma OneIsSound(x: Resource)
    ensures Consistent(One(x)) && UniqueUids(One(x)) && OneSecretPerName(One(x))
  {
    assert forall i | i in One(x) :: i == x.Id();
  }

  lemma PairIsSound(a: Resource, b: Resource)
    requires a.kind == b.kind == KindSealedSecret && a.meta.name != b.meta.name
    requires a.meta.uid != b.meta.uid || a.meta.uid == ""
    ensures Consistent(Pair(a, b)) && UniqueUids(Pair(a, b)) && OneSecretPerName(Pair(a, b))
  {
    PairHolds(a, b);
    hide Pair;
  }

  lemma PairHolds(a: Resource, b: Resource)
    requires a.Id() != b.Id()
    ensures forall i :: i in Pair(a, b) <==> i == a.Id() || i == b.Id()
    ensures Pair(a, b)[a.Id()] == a && Pair(a, b)[b.Id()] == b
  {}

  /** A sealed value has no match among clear entries of other names. */
  lemma OtherNameIsNew(d: Resource, x: Resource)
    requires SealsLive(d, x) && d.meta.name != x.meta.name
    ensures Owners(One(x), d) == {} && MatchIn(One(x), d).None?
  {
    hide WellTyped;
  }

  lemma SameNameIsTaken(d: Resource, x: Resource)
    requires SealsLive(d, x) && d.meta.name == x.meta.name
    ensures Owners(One(x), d) == {} && MatchIn(One(x), d) == Some(x)
  {
    hide WellTyped;
  }

  /** A vault entry renamed and sealed in one commit, keeping its UID, converges:
      the sealed entry is created beside the old one. */
  lemma RenamedAndSealedConverges(m: Models, opts: PlanOptions, d: Resource, x: Resource, plan: seq<Change>)
    requires SealsLive(d, x) && d.meta.uid == x.meta.uid && d.meta.name != x.meta.name
    requires Consistent(One(x)) && IsPlan(plan, Due(m, One(d), One(x), opts))
    ensures Converges(m, One(d), One(x), opts, plan)
  {
    hide MatchIn, UniqueUids, OneSecretPerName, Owners, Due, IsPlan, Converges, SealsLive;
    OneIsSound(d);
    OneIsSound(x);
    UniqueMeansOwnedOnce(One(d), One(x));
    SealedIsTyped(d, x);
    hide Consistent, OneOwner, WellTyped;
    assert Sound(One(d), One(x));
    PlanConvergesIff(m, One(d), One(x), opts, plan);
  }

  lemma SealedIsTyped(d: Resource, x: Resource)
    requires SealsLive(d, x)
    ensures WellTyped(d) && d.kind == KindSealedSecret && x.kind == KindSecret
  {}

  /** `s` seals the live entry `x` under its name, and `d` declares another
      sealed value, of another name, with the UID that `x` keeps. */
  ghost predicate TakesUid(s: Resource, d: Resource, x: Resource) {
    && SealsLive(s, x) && s.meta.uid == "" && s.meta.name == x.meta.name
    && SealsLive(d, x) && d.meta.uid == x.meta.uid && d.meta.name != x.meta.name
    && SealedFP(s) != SealedFP(d)
  }

  lemma TakenUidClashes(m: Models, s: Resource, d: Resource, x: Resource)
    requires TakesUid(s, d, x)
    ensures Sound(Pair(s, d), One(x)) && Clash(m, Pair(s, d), One(x))
  {
    hide MatchIn, UniqueUids, OneSecretPerName, Owners, Consistent, OneOwner, WellTyped, Diff, SealsLive, Intrudes,
         Disputes;
    assert SealsLive(s, x) && SealsLive(d, x);
    SealedIsTyped(s, x);
    SealedIsTyped(d, x);
    PairIsSound(s, d);
    PairHolds(s, d);
    OneIsSound(x);
    SameNameIsTaken(s, x);
    OtherNameIsNew(d, x);
    UniqueMeansOwnedOnce(Pair(s, d), One(x));
    TakerIntrudes(m, s, d, x);
    hide Pair;
  }

  lemma TakerIntrudes(m: Models, s: Resource, d: Resource, x: Resource)
    requires TakesUid(s, d, x) && MatchIn(One(x), s) == Some(x)
    ensures Intrudes(m, One(x), s, d) && Disputes(s, d)
  {
    hide MatchIn, Diff;
    ClearIsNotSealed(m, s, x);
  }

  lemma ClearIsNotSealed(m: Models, d: Resource, x: Resource)
    requires SealsLive(d, x)
    ensures Diff(m, x, d) != []
  {}

  /** There the plan leaves two sealed entries with one UID, and listed one way
      round the next plan seals the first of them again. */
  lemma TakenUidDoesNotSettle(m: Models, opts: PlanOptions, s: Resource, d: Resource, x: Resource, plan: seq<Change>)
    requires TakesUid(s, d, x)
    requires Consistent(One(x)) && IsPlan(plan, Due(m, Pair(s, d), One(x), opts))
    ensures !Converges(m, Pair(s, d), One(x), opts, plan)
  {
    hide Due, IsPlan, Converges, Clash, TakesUid;
    TakenUidClashes(m, s, d, x);
    PlanConvergesIff(m, Pair(s, d), One(x), opts, plan);
  }
}
