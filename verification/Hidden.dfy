/** Plans do not depend on hidden values: secrets, secret environment values,
    passwords and sensitive file contents can change freely, as long as their
    fingerprints do not, without a plan changing in any way. */
module Hidden {
  import opened Diffs
  import opened Fields
  import opened Plans
  import opened Resources
  import opened Schema
  import opened Settling
  import opened Sorting
  import opened Wrappers

  /** Two environments that differ only in the values secretEnv names. */
  ghost predicate EnvAlike(e1: map<string, string>, e2: map<string, string>, secretEnv: seq<string>) {
    e1.Keys == e2.Keys && forall k | k in e1 && k !in secretEnv :: e1[k] == e2[k]
  }

  /** Two specs that show the same, differing in hidden values only. */
  ghost predicate SpecAlike(s1: Spec, s2: Spec) {
    match (s1, s2)
    case (ApplicationOf(x), ApplicationOf(y)) =>
      y == x.(env := y.env) && EnvAlike(x.env, y.env, x.secretEnv)
    case (StackOf(x), StackOf(y)) =>
      y == x.(env := y.env) && x.env.Some? == y.env.Some?
      && EnvAlike(x.env.GetOr(map[]), y.env.GetOr(map[]), x.secretEnv)
    case (SecretOf(_), SecretOf(_)) => true
    case (SealedSecretOf(x), SealedSecretOf(y)) => x.sealedFP == y.sealedFP
    case (RegistryOf(x), RegistryOf(y)) =>
      y == x.(password := y.password) && (x.password == "" <==> y.password == "")
    case (ConfigOf(x), ConfigOf(y)) =>
      y == x.(data := y.data) && (x.sensitive || x.data == y.data)
    case (MiddlewareOf(x), MiddlewareOf(y)) => y == x.(rule := y.rule)
    case _ => s1 == s2
  }

  ghost predicate Alike(r1: Resource, r2: Resource) {
    r1.kind == r2.kind && r1.meta == r2.meta && SpecAlike(r1.spec, r2.spec)
  }

  /** No sensitive live config stands for a declared one that is not sensitive:
      there the code looks at the declared flag alone and compares the files. */
  ghost predicate StaysSensitive(a: Resource, d: Resource) {
    d.kind == KindConfig && a.spec.ConfigOf? && d.spec.ConfigOf? && a.spec.config.sensitive ==> d.spec.config.sensitive
  }

  lemma MaskedAlike(e1: map<string, string>, e2: map<string, string>, secretEnv: seq<string>)
    requires EnvAlike(e1, e2, secretEnv)
    ensures Masked(e1, secretEnv) == Masked(e2, secretEnv)
  {}

  /** Hidden values are in no compared field. */
  lemma FieldsAlike(m: Models, s1: Spec, s2: Spec)
    requires SpecAlike(s1, s2)
    ensures FieldsOf(m, s1) == FieldsOf(m, s2)
  {
    match s1 {
      case ApplicationOf(x) => ApplicationFieldsAlike(m, x, s2.application);
      case StackOf(x) =>
        MaskedAlike(x.env.GetOr(map[]), s2.stack.env.GetOr(map[]), x.secretEnv);
      case _ =>
        hide DatabaseFields, VolumeFields, RouteFields, CronJobFields, GitRepositoryFields, GitSourceFields;
    }
  }

  lemma ApplicationFieldsAlike(m: Models, x: ApplicationSpec, y: ApplicationSpec)
    requires y == x.(env := y.env) && EnvAlike(x.env, y.env, x.secretEnv)
    ensures ApplicationFields(m, x) == ApplicationFields(m, y)
  {
    hide Stated, SourceFields, ResourceFields, PortFields, Keyed, Masked, NormalizedList, HealthFields,
         DeploymentFields, PlacementFields, StatedIf;
    MaskedAlike(x.env, y.env, x.secretEnv);
    assert SecurityFields(m, x) == SecurityFields(m, y);
  }

  lemma GenericDeltasAlike(m: Models, a1: Resource, d1: Resource, a2: Resource, d2: Resource)
    requires Alike(a1, a2) && Alike(d1, d2)
    ensures GenericDeltas(m, a1, d1) == GenericDeltas(m, a2, d2)
  {
    hide FieldsOf;
    FieldsAlike(m, a1.spec, a2.spec);
    FieldsAlike(m, d1.spec, d2.spec);
    var av, dv := FieldsOf(m, a1.spec), FieldsOf(m, d1.spec);
    assert SilentEnv(d1) == SilentEnv(d2);
    assert forall f :: Exempt(d1, dv, f) == Exempt(d2, dv, f);
    assert Compared(av, dv, d1) == Compared(av, dv, d2);
  }

  lemma ConfigDeltasAlike(a1: Resource, d1: Resource, a2: Resource, d2: Resource)
    requires Alike(a1, a2) && Alike(d1, d2) && StaysSensitive(a1, d1)
    requires d1.kind == KindConfig && d1.spec.ConfigOf?
    ensures d2.spec.ConfigOf? && ConfigDeltas(a1, d1) == ConfigDeltas(a2, d2)
  {
    hide FileDeltas, Keyed, ScalarDelta, SpecAlike;
    ConfigIsShown(a1.spec, a2.spec);
    ConfigIsShown(d1.spec, d2.spec);
    var x, y := LiveConfig(a1), LiveConfig(a2);
    assert !d1.spec.config.sensitive ==> x.data == y.data && d1.spec.config.data == d2.spec.config.data;
    assert ShownFiles(x, d1.spec.config) == ShownFiles(y, d2.spec.config);
  }

  /** The diff of two resources shows nothing of their hidden values. */
  lemma DiffHidesValues(m: Models, a1: Resource, d1: Resource, a2: Resource, d2: Resource)
    requires Alike(a1, a2) && Alike(d1, d2) && StaysSensitive(a1, d1)
    ensures Diff(m, a1, d1) == Diff(m, a2, d2)
  {
    hide GenericDeltas, ConfigDeltas, Listed, DiffJob, DiffSealedSecret, DiffRegistry, DiffMiddleware, SpecAlike,
         StaysSensitive;
    match d1.kind {
      case KindSealedSecret => SealedDiffAlike(a1, d1, a2, d2);
      case KindRegistry => RegistryDiffAlike(a1, d1, a2, d2);
      case KindConfig =>
        ConfigIsShown(d1.spec, d2.spec);
        if d1.spec.ConfigOf? {
          ConfigDeltasAlike(a1, d1, a2, d2);
        }
      case KindMiddleware => MiddlewareDiffAlike(a1, d1, a2, d2);
      case KindJob => JobDiffAlike(m, a1, d1, a2, d2);
      case _ => GenericDeltasAlike(m, a1, d1, a2, d2);
    }
  }

  /** Changing hidden values of either resource never changes their diff. */
  ghost predicate ShowsNothing(m: Models, a: Resource, d: Resource) {
    forall a', d' :: Alike(a, a') && Alike(d, d') ==> Diff(m, a', d') == Diff(m, a, d)
  }

  /** The exact condition: a diff is free of hidden values unless a live
      sensitive config is declared as one that is not. */
  lemma DiffHidesIff(m: Models, a: Resource, d: Resource)
    ensures ShowsNothing(m, a, d) <==> StaysSensitive(a, d)
  {
    hide Diff, Alike;
    if StaysSensitive(a, d) {
      forall a', d' | Alike(a, a') && Alike(d, d')
        ensures Diff(m, a', d') == Diff(m, a, d)
      {
        DiffHidesValues(m, a, d, a', d');
      }
    } else {
      DeclassifiedShows(m, a, d);
      AlikeItself(d);
    }
  }

  lemma AlikeItself(r: Resource)
    ensures Alike(r, r)
  {}

  function WithData(a: Resource, data: map<string, string>): Resource
    requires a.spec.ConfigOf?
  {
    a.(spec := ConfigOf(a.spec.config.(data := data)))
  }

  function OneMore(data: map<string, string>): map<string, string> {
    data["" := Get(data, "") + "+"]
  }

  /** The field a plan names when the file under the empty name differs. */
  const ShownFile: Field := In(Data, "")

  ghost predicate Shows(diff: seq<FieldDiff>) {
    exists x | x in diff :: x.field == ShownFile
  }

  /** With files equal to the declared ones nothing shows, with another file it
      does, though both are sensitive live configs alike but for their data. */
  lemma DeclassifiedShows(m: Models, a: Resource, d: Resource)
    requires !StaysSensitive(a, d)
    ensures var want := d.spec.config.data;
      && Alike(a, WithData(a, want)) && !Shows(Diff(m, WithData(a, want), d))
      && Alike(a, WithData(a, OneMore(want))) && Shows(Diff(m, WithData(a, OneMore(want)), d))
  {
    hide Listed, ConfigDeltasOf, OneMore;
    var want := d.spec.config.data;
    OneMoreDiffers(want);
    ConfigDiffShows(m, WithData(a, want), d);
    ConfigDiffShows(m, WithData(a, OneMore(want)), d);
  }

  lemma OneMoreDiffers(data: map<string, string>)
    ensures "" in OneMore(data) && Get(OneMore(data), "") != Get(data, "")
  {}

  lemma ConfigDiffShows(m: Models, a: Resource, d: Resource)
    requires a.spec.ConfigOf? && d.spec.ConfigOf? && d.kind == KindConfig && !d.spec.config.sensitive
    ensures Shows(Diff(m, a, d)) <==> Get(a.spec.config.data, "") != Get(d.spec.config.data, "")
  {
    hide Listed, FileDeltas, ConfigDeltasOf, Shows;
    ConfigDiffIs(m, a, d);
    ShownIff(ConfigDeltasOf(a.spec.config, d.spec.config));
    FileShown(a.spec.config, d.spec.config);
  }

  lemma ConfigDiffIs(m: Models, a: Resource, d: Resource)
    requires a.spec.ConfigOf? && d.spec.ConfigOf? && d.kind == KindConfig
    ensures Diff(m, a, d) == Listed(ConfigDeltasOf(a.spec.config, d.spec.config))
  {
    hide Listed, ConfigDeltasOf;
  }

  lemma FileShown(live: ConfigSpec, want: ConfigSpec)
    requires !want.sensitive
    ensures ShownFile in ConfigDeltasOf(live, want) <==> Get(live.data, "") != Get(want.data, "")
  {}

  lemma ShownIff(ds: map<Field, Delta>)
    ensures Shows(Listed(ds)) <==> ShownFile in ds
  {
    assert forall x :: x in Listed(ds) <==> x in Elements(Listed(ds));
    if ShownFile in ds {
      assert DiffOf(ShownFile, ds[ShownFile]) in DiffSet(ds);
    }
  }

  function FileConfig(meta: Meta, file: string, sensitive: bool): Resource {
    Resource("", KindConfig, meta, ConfigOf(ConfigSpec(map["" := file], "", sensitive, [], "")))
  }

  /** The smallest case: same digest and mode, one file of a sensitive live
      config either as declared, and no diff, or not, and a diff. */
  lemma DeclassifiedExample(m: Models, meta: Meta, v: string, w: string)
    requires v != w
    ensures var d := FileConfig(meta, v, false);
      && Alike(FileConfig(meta, v, true), FileConfig(meta, w, true))
      && Diff(m, FileConfig(meta, v, true), d) == [] && Diff(m, FileConfig(meta, w, true), d) != []
  {
    hide Listed, Diff, FileDeltas, ConfigDeltasOf;
    var d, x, y := FileConfig(meta, v, false), FileConfig(meta, v, true), FileConfig(meta, w, true);
    assert Get(y.spec.config.data, "") == w && Get(d.spec.config.data, "") == v;
    ConfigDiffShows(m, y, d);
    ConfigDiffIs(m, x, d);
    SameConfigAgrees(x.spec.config, d.spec.config);
  }

  lemma ConfigIsShown(s1: Spec, s2: Spec)
    requires SpecAlike(s1, s2)
    ensures s1.ConfigOf? == s2.ConfigOf?
    ensures s1.ConfigOf? ==>
      s2.config == s1.config.(data := s2.config.data) && (s1.config.sensitive || s1.config.data == s2.config.data)
  {
    hide EnvAlike;
  }

  lemma SealedDiffAlike(a1: Resource, d1: Resource, a2: Resource, d2: Resource)
    requires Alike(a1, a2) && Alike(d1, d2)
    ensures DiffSealedSecret(a1, d1) == DiffSealedSecret(a2, d2)
  {
    hide EnvAlike;
  }

  lemma RegistryDiffAlike(a1: Resource, d1: Resource, a2: Resource, d2: Resource)
    requires Alike(a1, a2) && Alike(d1, d2)
    ensures DiffRegistry(a1, d1) == DiffRegistry(a2, d2)
  {
    hide EnvAlike, Listed;
  }

  lemma MiddlewareDiffAlike(a1: Resource, d1: Resource, a2: Resource, d2: Resource)
    requires Alike(a1, a2) && Alike(d1, d2)
    ensures DiffMiddleware(a1, d1) == DiffMiddleware(a2, d2)
  {
    hide SpecAlike, Changed;
    MiddlewareIsShown(a1.spec, a2.spec);
    MiddlewareIsShown(d1.spec, d2.spec);
  }

  lemma MiddlewareIsShown(s1: Spec, s2: Spec)
    requires SpecAlike(s1, s2)
    ensures s1.MiddlewareOf? == s2.MiddlewareOf?
    ensures s1.MiddlewareOf? ==> s2.middleware == s1.middleware.(rule := s2.middleware.rule)
  {
    hide EnvAlike;
  }

  lemma JobDiffAlike(m: Models, a1: Resource, d1: Resource, a2: Resource, d2: Resource)
    requires Alike(a1, a2) && Alike(d1, d2)
    ensures DiffJob(m, a1, d1) == DiffJob(m, a2, d2)
  {
    hide EnvAlike, Fingerprint, Listed;
    assert a1.spec.JobOf? || a2.spec.JobOf? ==> a1.spec == a2.spec;
    assert d1.spec.JobOf? || d2.spec.JobOf? ==> d1.spec == d2.spec;
  }

  // ---- Whole plans ------------------------------------------------------------------

  ghost predicate ViewAlike(v1: View, v2: View) {
    v1.Keys == v2.Keys && forall id | id in v1 :: Alike(v1[id], v2[id])
  }

  ghost predicate ListAlike(xs: seq<Resource>, ys: seq<Resource>) {
    |xs| == |ys| && forall i | 0 <= i < |xs| :: Alike(xs[i], ys[i])
  }

  lemma {:induction false} ListViewsAlike(xs: seq<Resource>, ys: seq<Resource>)
    requires ListAlike(xs, ys)
    ensures ViewAlike(ViewOf(xs), ViewOf(ys)) && ViewAlike(UidIndex(xs), UidIndex(ys))
  {
    hide SpecAlike;
    if xs != [] {
      ListViewsAlike(xs[..|xs| - 1], ys[..|ys| - 1]);
    }
  }

  ghost predicate OptionAlike(x: Option<Resource>, y: Option<Resource>) {
    x.Some? == y.Some? && (x.Some? ==> Alike(x.value, y.value))
  }

  lemma MatchAlike(actual1: View, byUid1: View, d1: Resource, actual2: View, byUid2: View, d2: Resource)
    requires ViewAlike(actual1, actual2) && ViewAlike(byUid1, byUid2) && Alike(d1, d2)
    ensures OptionAlike(Match(actual1, byUid1, d1), Match(actual2, byUid2, d2))
  {
    hide SpecAlike;
  }

  lemma ChangeAlike(m: Models, actual1: View, byUid1: View, d1: Resource, actual2: View, byUid2: View, d2: Resource)
    requires ViewAlike(actual1, actual2) && ViewAlike(byUid1, byUid2) && Alike(d1, d2)
    requires Match(actual1, byUid1, d1).Some? ==> StaysSensitive(Match(actual1, byUid1, d1).value, d1)
    ensures ChangeFor(m, actual1, byUid1, d1) == ChangeFor(m, actual2, byUid2, d2)
  {
    hide SpecAlike, StaysSensitive, Diff, Match, ViewAlike;
    var x, y := Match(actual1, byUid1, d1), Match(actual2, byUid2, d2);
    MatchAlike(actual1, byUid1, d1, actual2, byUid2, d2);
    if x.Some? {
      DiffHidesValues(m, x.value, d1, y.value, d2);
    }
  }

  lemma WantedAlike(m: Models, desired1: View, actual1: View, byUid1: View,
                    desired2: View, actual2: View, byUid2: View, opts: PlanOptions)
    requires desired1.Keys == desired2.Keys
    requires forall id | id in desired1 :: desired1[id].kind == desired2[id].kind
    requires forall id | id in desired1 ::
      ChangeFor(m, actual1, byUid1, desired1[id]) == ChangeFor(m, actual2, byUid2, desired2[id])
    ensures Wanted(m, desired1, actual1, byUid1, opts) == Wanted(m, desired2, actual2, byUid2, opts)
  {
    hide ChangeFor;
    var v, w := Wanted(m, desired1, actual1, byUid1, opts), Wanted(m, desired2, actual2, byUid2, opts);
    forall c
      ensures c in v <==> c in w
    {
      if c in v {
        var id :| id in desired1 && Entered(m, actual1, byUid1, opts, desired1[id])
          && c == ChangeFor(m, actual1, byUid1, desired1[id]);
        assert Entered(m, actual2, byUid2, opts, desired2[id]);
      }
      if c in w {
        var id :| id in desired2 && Entered(m, actual2, byUid2, opts, desired2[id])
          && c == ChangeFor(m, actual2, byUid2, desired2[id]);
        assert Entered(m, actual1, byUid1, opts, desired1[id]);
      }
    }
  }

  lemma PrunableAlike(desired1: View, desired2: View, opts: PlanOptions, a1: Resource, a2: Resource)
    requires ViewAlike(desired1, desired2) && Alike(a1, a2)
    ensures Prunable(desired1, opts, a1) <==> Prunable(desired2, opts, a2)
  {
    hide SpecAlike;
    assert forall id | id in desired1 :: UidKey(desired1[id]) == UidKey(desired2[id]);
  }

  lemma DeletesAlike(desired1: View, actual1: View, desired2: View, actual2: View, opts: PlanOptions)
    requires ViewAlike(desired1, desired2) && ViewAlike(actual1, actual2)
    ensures Deletes(desired1, actual1, opts) == Deletes(desired2, actual2, opts)
  {
    hide SpecAlike, Prunable;
    forall id | id in actual1
      ensures Prunable(desired1, opts, actual1[id]) <==> Prunable(desired2, opts, actual2[id])
      ensures DeleteOf(actual1[id]) == DeleteOf(actual2[id])
    {
      PrunableAlike(desired1, desired2, opts, actual1[id], actual2[id]);
    }
    var v, w := Deletes(desired1, actual1, opts), Deletes(desired2, actual2, opts);
    forall c
      ensures c in v <==> c in w
    {}
  }

  ghost function ChangesOf(m: Models, opts: PlanOptions, desired: seq<Resource>, actual: seq<Resource>): set<Change> {
    Changes(m, ViewOf(desired), ViewOf(actual), UidIndex(actual), opts)
  }

  /** No declared resource shows a sensitive live config it stands for. */
  ghost predicate AllStaySensitive(desired: seq<Resource>, actual: seq<Resource>) {
    forall id | id in ViewOf(desired) ::
      var x := Match(ViewOf(actual), UidIndex(actual), ViewOf(desired)[id]);
      x.Some? ==> StaysSensitive(x.value, ViewOf(desired)[id])
  }

  lemma ChangesHideValues(m: Models, opts: PlanOptions, desired1: seq<Resource>, actual1: seq<Resource>,
                          desired2: seq<Resource>, actual2: seq<Resource>)
    requires ListAlike(desired1, desired2) && ListAlike(actual1, actual2) && AllStaySensitive(desired1, actual1)
    ensures ChangesOf(m, opts, desired1, actual1) == ChangesOf(m, opts, desired2, actual2)
  {
    hide SpecAlike, StaysSensitive, Diff, Match, ChangeFor, ChangeLess, Prunable, UidIndex, ViewOf;
    ListViewsAlike(desired1, desired2);
    ListViewsAlike(actual1, actual2);
    var u, v, x := ViewOf(desired1), ViewOf(actual1), UidIndex(actual1);
    var u', v', x' := ViewOf(desired2), ViewOf(actual2), UidIndex(actual2);
    forall id | id in u
      ensures ChangeFor(m, v, x, u[id]) == ChangeFor(m, v', x', u'[id])
    {
      ChangeAlike(m, v, x, u[id], v', x', u'[id]);
    }
    WantedAlike(m, u, v, x, u', v', x', opts);
    DeletesAlike(u, v, u', v', opts);
  }

  /** Changing hidden values only, on either side, leaves the plan identical. */
  lemma PlanHidesValues(m: Models, opts: PlanOptions,
                        desired1: seq<Resource>, actual1: seq<Resource>, plan1: seq<Change>,
                        desired2: seq<Resource>, actual2: seq<Resource>, plan2: seq<Change>)
    requires ListAlike(desired1, desired2) && ListAlike(actual1, actual2) && AllStaySensitive(desired1, actual1)
    requires IsPlan(plan1, ChangesOf(m, opts, desired1, actual1))
    requires IsPlan(plan2, ChangesOf(m, opts, desired2, actual2))
    ensures plan1 == plan2
  {
    hide Changes, ChangeLess, UidIndex, ViewOf, ListAlike, AllStaySensitive;
    ChangesHideValues(m, opts, desired1, actual1, desired2, actual2);
    ViewMembers(desired1);
    ViewMembers(actual1);
    ChangesOnePerId(m, ViewOf(desired1), ViewOf(actual1), UidIndex(actual1), opts);
    ChangesAreOrdered(ChangesOf(m, opts, desired1, actual1));
    ArrangementUnique(ChangeLess, plan1, plan2, ChangesOf(m, opts, desired1, actual1));
  }

  // ---- Whole plans: the exact condition -----------------------------------------------

  /** Changing hidden values on either side never changes the plan. */
  ghost predicate PlanShowsNothing(m: Models, opts: PlanOptions, desired: seq<Resource>, actual: seq<Resource>) {
    forall desired', actual' :: ListAlike(desired, desired') && ListAlike(actual, actual')
      ==> ChangesOf(m, opts, desired', actual') == ChangesOf(m, opts, desired, actual)
  }

  /** The list with `y` wherever `x` was. */
  function Replaced(list: seq<Resource>, x: Resource, y: Resource): seq<Resource> {
    seq(|list|, i requires 0 <= i < |list| => if list[i] == x then y else list[i])
  }

  ghost function ReplacedIn(view: View, x: Resource, y: Resource): View {
    map id | id in view :: if view[id] == x then y else view[id]
  }

  lemma {:induction false} ReplacedViews(list: seq<Resource>, x: Resource, y: Resource)
    requires x.Id() == y.Id() && UidKey(x) == UidKey(y)
    ensures ViewOf(Replaced(list, x, y)) == ReplacedIn(ViewOf(list), x, y)
    ensures UidIndex(Replaced(list, x, y)) == ReplacedIn(UidIndex(list), x, y)
  {
    if list != [] {
      var init := list[..|list| - 1];
      ReplacedViews(init, x, y);
      assert Replaced(list, x, y)[..|list| - 1] == Replaced(init, x, y);
    }
  }

  lemma ReplacedIsAlike(list: seq<Resource>, x: Resource, y: Resource)
    requires Alike(x, y)
    ensures ListAlike(list, Replaced(list, x, y)) && UidKey(x) == UidKey(y) && x.Id() == y.Id()
  {
    hide SpecAlike;
    forall i | 0 <= i < |list|
      ensures Alike(list[i], Replaced(list, x, y)[i])
    {
      AlikeItself(list[i]);
    }
  }

  lemma ReplacedMatches(list: seq<Resource>, d: Resource, x: Resource, y: Resource)
    requires x.Id() == y.Id() && UidKey(x) == UidKey(y)
    requires Match(ViewOf(list), UidIndex(list), d) == Some(x)
    ensures Match(ViewOf(Replaced(list, x, y)), UidIndex(Replaced(list, x, y)), d) == Some(y)
  {
    hide ViewOf, UidIndex, Replaced;
    ReplacedViews(list, x, y);
  }

  /** Some plan entry for `id` names the file under the empty name. */
  ghost predicate PlanNamesFile(cs: set<Change>, id: Id) {
    exists c | c in cs :: c.Id() == id && c.action != ActionDelete && Shows(c.fields)
  }

  lemma PlanShows(m: Models, opts: PlanOptions, desired: seq<Resource>, actual: seq<Resource>, d: Resource, x: Resource)
    requires d.Id() in ViewOf(desired) && ViewOf(desired)[d.Id()] == d && d.kind == KindConfig
    requires Match(ViewOf(actual), UidIndex(actual), d) == Some(x)
    ensures PlanNamesFile(ChangesOf(m, opts, desired, actual), d.Id()) <==> Shows(Diff(m, x, d))
  {
    hide Diff, ViewOf, UidIndex, Match;
    ViewMembers(desired);
    var c := ChangeFor(m, ViewOf(actual), UidIndex(actual), d);
    if Shows(Diff(m, x, d)) {
      assert Entered(m, ViewOf(actual), UidIndex(actual), opts, d);
      assert c in ChangesOf(m, opts, desired, actual);
    }
  }

  /** The exact condition for whole plans. */
  lemma PlanHidesIff(m: Models, opts: PlanOptions, desired: seq<Resource>, actual: seq<Resource>)
    ensures PlanShowsNothing(m, opts, desired, actual) <==> AllStaySensitive(desired, actual)
  {
    hide ChangesOf, ListAlike, StaysSensitive, ViewOf, UidIndex, Match;
    if AllStaySensitive(desired, actual) {
      forall desired', actual' | ListAlike(desired, desired') && ListAlike(actual, actual')
        ensures ChangesOf(m, opts, desired', actual') == ChangesOf(m, opts, desired, actual)
      {
        ChangesHideValues(m, opts, desired, actual, desired', actual');
      }
    } else {
      var id :| id in ViewOf(desired) && (var x := Match(ViewOf(actual), UidIndex(actual), ViewOf(desired)[id]);
        x.Some? && !StaysSensitive(x.value, ViewOf(desired)[id]));
      ViewMembers(desired);
      var d := ViewOf(desired)[id];
      DeclassifiedPlanShows(m, opts, desired, actual, d, Match(ViewOf(actual), UidIndex(actual), d).value);
    }
  }

  lemma DeclassifiedPlanShows(m: Models, opts: PlanOptions, desired: seq<Resource>, actual: seq<Resource>,
                              d: Resource, x: Resource)
    requires d.Id() in ViewOf(desired) && ViewOf(desired)[d.Id()] == d
    requires Match(ViewOf(actual), UidIndex(actual), d) == Some(x) && !StaysSensitive(x, d)
    ensures !PlanShowsNothing(m, opts, desired, actual)
  {
    hide ChangesOf, ViewOf, UidIndex, Match, Diff, Alike, ListAlike, PlanNamesFile, Shows;
    DeclassifiedShows(m, x, d);
    var want := d.spec.config.data;
    var y, z := WithData(x, want), WithData(x, OneMore(want));
    SwappedPlanShows(m, opts, desired, actual, d, x, y);
    SwappedPlanShows(m, opts, desired, actual, d, x, z);
    SelfAlike(desired);
    assert ChangesOf(m, opts, desired, Replaced(actual, x, y)) != ChangesOf(m, opts, desired, Replaced(actual, x, z));
  }

  lemma SelfAlike(list: seq<Resource>)
    ensures ListAlike(list, list)
  {
    hide Alike;
    forall i | 0 <= i < |list|
      ensures Alike(list[i], list[i])
    {
      AlikeItself(list[i]);
    }
  }

  lemma SwappedPlanShows(m: Models, opts: PlanOptions, desired: seq<Resource>, actual: seq<Resource>,
                         d: Resource, x: Resource, y: Resource)
    requires d.Id() in ViewOf(desired) && ViewOf(desired)[d.Id()] == d && d.kind == KindConfig
    requires Match(ViewOf(actual), UidIndex(actual), d) == Some(x) && Alike(x, y)
    ensures ListAlike(actual, Replaced(actual, x, y))
    ensures PlanNamesFile(ChangesOf(m, opts, desired, Replaced(actual, x, y)), d.Id()) <==> Shows(Diff(m, y, d))
  {
    hide ChangesOf, ViewOf, UidIndex, Match, Diff, SpecAlike, PlanNamesFile, Shows, ListAlike, Replaced;
    ReplacedIsAlike(actual, x, y);
    ReplacedMatches(actual, d, x, y);
    PlanShows(m, opts, desired, Replaced(actual, x, y), d, y);
  }
}
