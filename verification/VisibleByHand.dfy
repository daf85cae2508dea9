/** What a plan can tell apart of the kinds compared by hand: secrets, sealed
    secrets, registries, middlewares, configs and jobs. */
module VisibleByHand {
  import opened Convergence
  import opened Diffs
  import opened Encodings
  import opened Fields
  import opened Hidden
  import opened Jobs
  import Observed
  import opened Overlay
  import opened Plans
  import opened Schema
  import opened Settling
  import opened Sorting
  import opened Text
  import opened Visible
  import opened Wrappers

  /** The fingerprint a registry is compared by: none without a password. */
  function ComparedFP(g: RegistrySpec): string {
    if g.password != "" then g.passwordFP else ""
  }

  predicate SameRegistry(x: RegistrySpec, y: RegistrySpec) {
    x.server == y.server && x.username == y.username && ComparedFP(x) == ComparedFP(y)
  }

  predicate SameMiddleware(x: MiddlewareSpec, y: MiddlewareSpec) {
    x.kind == y.kind && Pieces(x.paths, ',') == Pieces(y.paths, ',') && x.ruleFP == y.ruleFP
  }

  predicate SameConfig(x: ConfigSpec, y: ConfigSpec) {
    && x.digestFP == y.digestFP && x.mode == y.mode && x.sensitive == y.sensitive
    && (x.sensitive || x.data == y.data)
  }

  predicate SameJob(m: Models, x: JobSpec, y: JobSpec) {
    && x.app == y.app && HistoryOrDefault(x.historyLimit) == HistoryOrDefault(y.historyLimit)
    && x.Policy() == y.Policy() && x.Waits() == y.Waits() && x.backoffLimit == y.backoffLimit
    && Fingerprint(m, x) == Fingerprint(m, y)
  }

  predicate BothByHand(x: Spec, y: Spec) {
    match (x, y)
    case (SecretOf(_), SecretOf(_)) => true
    case (SealedSecretOf(_), SealedSecretOf(_)) => true
    case (RegistryOf(_), RegistryOf(_)) => true
    case (MiddlewareOf(_), MiddlewareOf(_)) => true
    case (ConfigOf(_), ConfigOf(_)) => true
    case (JobOf(_), JobOf(_)) => true
    case _ => false
  }

  /** The attributes that decide what a manifest of such a kind calls for. */
  predicate SameByHand(m: Models, x: Spec, y: Spec)
    requires BothByHand(x, y)
  {
    match x
    case SecretOf(_) => true
    case SealedSecretOf(s) => s.sealedFP == y.sealedSecret.sealedFP
    case RegistryOf(g) => SameRegistry(g, y.registry)
    case MiddlewareOf(w) => SameMiddleware(w, y.middleware)
    case ConfigOf(c) => SameConfig(c, y.config)
    case JobOf(j) => SameJob(m, j, y.job)
  }

  // ---- Sealed secrets ----------------------------------------------------------------

  lemma SealedChangesIff(m: Models, d: Resource, e: Resource)
    requires d.kind == e.kind == KindSealedSecret && d.spec.SealedSecretOf? && e.spec.SealedSecretOf?
    ensures SameChanges(m, d, e) <==> SealedFP(d) == SealedFP(e)
  {
    if SameChanges(m, d, e) {
      assert Stands(d, d) && Stands(e, d);
      assert Diff(m, d, d) == Diff(m, d, e) && Diff(m, e, d) == Diff(m, e, e);
      var plain := Resource("", KindSecret, d.meta, SecretOf(SecretSpec("", false, 0, None, 0, 0)));
      assert Stands(plain, d);
      assert Diff(m, plain, d) == Diff(m, plain, e);
    }
  }

  // ---- Registries ----------------------------------------------------------------------

  lemma DiffRegistryIs(m: Models, a: Resource, d: Resource)
    requires d.kind == KindRegistry && d.spec.RegistryOf? && a.spec.RegistryOf?
    ensures var live, want := a.spec.registry, d.spec.registry;
      && (FieldDiff(Plain("server"), live.server, want.server) in Diff(m, a, d) <==> live.server != want.server)
      && (FieldDiff(Plain("username"), live.username, want.username) in Diff(m, a, d) <==>
        live.username != want.username)
      && (FieldDiff(Plain("password"), "(current)", "(rotated)") in Diff(m, a, d)
          <==> ComparedFP(want) != "" && live.passwordFP != "" && live.passwordFP != ComparedFP(want))
  {}

  function RegistryWith(d: Resource, fp: string): Resource
    requires d.spec.RegistryOf?
  {
    Resource("", KindRegistry, d.meta, RegistryOf(d.spec.registry.(passwordFP := fp)))
  }

  /** A live registry with the other's fingerprint, or with one of neither, tells
      two fingerprints apart. */
  lemma FingerprintShows(m: Models, d: Resource, e: Resource)
    requires d.kind == e.kind == KindRegistry && d.spec.RegistryOf? && e.spec.RegistryOf? && SameChanges(m, d, e)
    ensures ComparedFP(e.spec.registry) != "" ==> ComparedFP(d.spec.registry) == ComparedFP(e.spec.registry)
  {
    hide Diff, ComparedFP;
    var fp := ComparedFP(e.spec.registry);
    var x, y := RegistryWith(e, fp), RegistryWith(e, fp + "+");
    assert Stands(x, d) && Stands(y, d);
    DiffRegistryIs(m, x, d);
    DiffRegistryIs(m, x, e);
    DiffRegistryIs(m, y, d);
    DiffRegistryIs(m, y, e);
  }

  lemma RegistryChangesIff(m: Models, d: Resource, e: Resource)
    requires d.kind == e.kind == KindRegistry && d.spec.RegistryOf? && e.spec.RegistryOf?
    ensures SameChanges(m, d, e) <==> SameRegistry(d.spec.registry, e.spec.registry)
  {
    if SameChanges(m, d, e) {
      hide Diff;
      SameChangesSwap(m, d, e);
      FingerprintShows(m, d, e);
      FingerprintShows(m, e, d);
      var live := RegistryWith(d, "");
      assert Stands(live, d);
      DiffRegistryIs(m, live, d);
      DiffRegistryIs(m, live, e);
      RegistryTexts(m, live, d, e);
    }
    if SameRegistry(d.spec.registry, e.spec.registry) {
      forall a | Stands(a, d)
        ensures Diff(m, a, d) == Diff(m, a, e)
      {}
    }
  }

  lemma RegistryTexts(m: Models, live: Resource, d: Resource, e: Resource)
    requires d.kind == e.kind == KindRegistry && d.spec.RegistryOf? && e.spec.RegistryOf?
    requires live == RegistryWith(d, "") && Diff(m, live, d) == Diff(m, live, e)
    ensures d.spec.registry.server == e.spec.registry.server && d.spec.registry.username == e.spec.registry.username
  {}

  // ---- Middlewares -----------------------------------------------------------------------

  function MiddlewareWith(d: Resource, fp: string): Resource
    requires d.spec.MiddlewareOf?
  {
    Resource("", KindMiddleware, d.meta, MiddlewareOf(d.spec.middleware.(ruleFP := fp)))
  }

  lemma DiffMiddlewareIs(m: Models, a: Resource, d: Resource)
    requires d.kind == KindMiddleware && d.spec.MiddlewareOf? && a.spec.MiddlewareOf?
    ensures var live, want := a.spec.middleware, d.spec.middleware;
      && (FieldDiff(Plain("rule"), "(current)", "(changed)") in Diff(m, a, d)
          <==> want.ruleFP != "" && live.ruleFP != "" && live.ruleFP != want.ruleFP)
  {
    hide Join;
  }

  lemma RuleShows(m: Models, d: Resource, e: Resource)
    requires d.kind == e.kind == KindMiddleware && d.spec.MiddlewareOf? && e.spec.MiddlewareOf? && SameChanges(m, d, e)
    ensures e.spec.middleware.ruleFP != "" ==> d.spec.middleware.ruleFP == e.spec.middleware.ruleFP
  {
    hide Diff;
    var fp := e.spec.middleware.ruleFP;
    var x, y := MiddlewareWith(e, fp), MiddlewareWith(e, fp + "+");
    assert Stands(x, d) && Stands(y, d);
    DiffMiddlewareIs(m, x, d);
    DiffMiddlewareIs(m, x, e);
    DiffMiddlewareIs(m, y, d);
    DiffMiddlewareIs(m, y, e);
  }

  lemma MiddlewareTexts(m: Models, live: Resource, d: Resource, e: Resource)
    requires d.kind == e.kind == KindMiddleware && d.spec.MiddlewareOf? && e.spec.MiddlewareOf?
    requires live == MiddlewareWith(d, "") && Diff(m, live, d) == Diff(m, live, e)
    ensures d.spec.middleware.kind == e.spec.middleware.kind
    ensures Join(d.spec.middleware.paths, ",") == Join(e.spec.middleware.paths, ",")
  {
    hide Join;
  }

  lemma MiddlewareChangesIff(m: Models, d: Resource, e: Resource)
    requires d.kind == e.kind == KindMiddleware && d.spec.MiddlewareOf? && e.spec.MiddlewareOf?
    ensures SameChanges(m, d, e) <==> SameMiddleware(d.spec.middleware, e.spec.middleware)
  {
    hide Join, Pieces;
    JoinShowsPieces(d.spec.middleware.paths, e.spec.middleware.paths, ',');
    if SameChanges(m, d, e) {
      hide Diff;
      SameChangesSwap(m, d, e);
      RuleShows(m, d, e);
      RuleShows(m, e, d);
      var live := MiddlewareWith(d, "");
      assert Stands(live, d);
      MiddlewareTexts(m, live, d, e);
    }
    if SameMiddleware(d.spec.middleware, e.spec.middleware) {
      forall a | Stands(a, d)
        ensures Diff(m, a, d) == Diff(m, a, e)
      {}
    }
  }

  // ---- Jobs --------------------------------------------------------------------------------

  lemma DiffJobIs(m: Models, a: Resource, d: Resource)
    requires d.kind == KindJob && d.spec.JobOf? && a.spec.JobOf? && a.spec.job.specFP == Fingerprint(m, a.spec.job)
    ensures var live, want := a.spec.job, d.spec.job;
      Diff(m, a, d) == [] <==>
        && live.app == want.app
        && Itoa(HistoryOrDefault(live.historyLimit)) == Itoa(HistoryOrDefault(want.historyLimit))
        && live.Policy() == want.Policy() && FormatBool(live.Waits()) == FormatBool(want.Waits())
        && Itoa(live.backoffLimit) == Itoa(want.backoffLimit) && Fingerprint(m, live) == Fingerprint(m, want)
  {
    hide Fingerprint, Itoa, FormatBool, HistoryOrDefault;
  }

  lemma StampIsStable(m: Models, d: Resource)
    requires d.kind == KindJob && d.spec.JobOf?
    ensures var live := Created(m, d);
      && live.spec == JobOf(d.spec.job.(specFP := Fingerprint(m, d.spec.job)))
      && Fingerprint(m, live.spec.job) == Fingerprint(m, d.spec.job) == live.spec.job.specFP && live.kind == KindJob
  {}

  lemma JobDecides(m: Models, d: Resource, e: Resource)
    requires d.kind == e.kind == KindJob && d.spec.JobOf? && e.spec.JobOf? && SameChanges(m, d, e)
    ensures SameJob(m, d.spec.job, e.spec.job)
  {
    hide Diff, Fingerprint, Itoa, FormatBool, HistoryOrDefault, Created;
    var live := Created(m, d);
    StampIsStable(m, d);
    assert Stands(live, d);
    DiffJobIs(m, live, d);
    DiffJobIs(m, live, e);
    ItoaInjective(HistoryOrDefault(d.spec.job.historyLimit), HistoryOrDefault(e.spec.job.historyLimit));
    ItoaInjective(d.spec.job.backoffLimit, e.spec.job.backoffLimit);
    Observed.FormatBoolInjective(d.spec.job.Waits(), e.spec.job.Waits());
  }

  lemma JobChangesIff(m: Models, d: Resource, e: Resource)
    requires d.kind == e.kind == KindJob && d.spec.JobOf? && e.spec.JobOf?
    ensures SameChanges(m, d, e) <==> SameJob(m, d.spec.job, e.spec.job)
  {
    hide Fingerprint, Itoa, FormatBool, HistoryOrDefault;
    if SameChanges(m, d, e) {
      hide Diff;
      JobDecides(m, d, e);
    }
    if SameJob(m, d.spec.job, e.spec.job) {
      forall a | Stands(a, d)
        ensures Diff(m, a, d) == Diff(m, a, e)
      {}
    }
  }

  // ---- Configs ------------------------------------------------------------------------------

  function ConfigWith(d: Resource, data: map<string, string>): Resource
    requires d.spec.ConfigOf?
  {
    Resource("", KindConfig, d.meta, ConfigOf(d.spec.config.(data := data)))
  }

  lemma ConfigDiffAt(m: Models, a: Resource, d: Resource, x: FieldDiff)
    requires d.kind == KindConfig && d.spec.ConfigOf? && a.spec.ConfigOf?
    ensures var ds := ConfigDeltasOf(a.spec.config, d.spec.config);
      x in Diff(m, a, d) <==> x.field in ds && x == DiffOf(x.field, ds[x.field])
  {
    hide ConfigDeltasOf;
    ConfigDiffIs(m, a, d);
    var ds := ConfigDeltasOf(a.spec.config, d.spec.config);
    assert x in Elements(Listed(ds)) <==> x in DiffSet(ds);
  }

  /** What a diff says of the digest, the mode and one file. */
  lemma ConfigDeltasAt(live: ConfigSpec, want: ConfigSpec, k: string)
    ensures var ds := ConfigDeltasOf(live, want);
      && (Plain("data") in ds <==> live.digestFP != want.digestFP)
      && (Plain("mode") in ds <==> live.mode != want.mode)
      && (In(Data, k) in ds <==> !want.sensitive && Get(live.data, k) != Get(want.data, k))
      && (In(Data, k) in ds ==> ds[In(Data, k)] == Delta(Present(live.data, k), Present(want.data, k)))
  {
    hide Keyed;
    assert k in ShownFiles(live, want) <==> !want.sensitive && Get(live.data, k) != Get(want.data, k);
    ShownAt(live, want, k);
  }

  lemma ShownAt(live: ConfigSpec, want: ConfigSpec, k: string)
    ensures In(Data, k) in Keyed(Data, ShownFiles(live, want)) <==> k in ShownFiles(live, want)
    ensures k in ShownFiles(live, want) ==>
      Keyed(Data, ShownFiles(live, want))[In(Data, k)] == ShownFiles(live, want)[k]
  {}

  lemma FieldsListed(m: Models, a: Resource, d: Resource, e: Resource, f: Field)
    requires d.kind == e.kind == KindConfig && d.spec.ConfigOf? && e.spec.ConfigOf? && a.spec.ConfigOf?
    requires Diff(m, a, d) == Diff(m, a, e)
    ensures var ds, es := ConfigDeltasOf(a.spec.config, d.spec.config), ConfigDeltasOf(a.spec.config, e.spec.config);
      f in ds ==> f in es && ds[f] == es[f]
  {
    hide ConfigDeltasOf, Diff;
    var ds := ConfigDeltasOf(a.spec.config, d.spec.config);
    if f in ds {
      ConfigDiffAt(m, a, d, DiffOf(f, ds[f]));
      ConfigDiffAt(m, a, e, DiffOf(f, ds[f]));
    }
  }

  /** A live config tells any difference apart that concerns the file `k`. */
  lemma FileShows(m: Models, d: Resource, e: Resource, k: string)
    requires d.kind == e.kind == KindConfig && d.spec.ConfigOf? && e.spec.ConfigOf? && SameChanges(m, d, e)
    ensures var x, y := d.spec.config, e.spec.config;
      && x.digestFP == y.digestFP && x.mode == y.mode
      && (!x.sensitive ==> !y.sensitive && (k in x.data ==> k in y.data && y.data[k] == x.data[k]))
  {
    hide Diff, ConfigDeltasOf;
    var x, y := d.spec.config, e.spec.config;
    var same, other := ConfigWith(e, y.data), ConfigWith(d, map[k := Get(x.data, k) + "+"]);
    assert Stands(same, d) && Stands(other, d);
    ConfigDeltasAt(y, x, k);
    ConfigDeltasAt(y, y, k);
    ConfigDeltasAt(other.spec.config, x, k);
    ConfigDeltasAt(other.spec.config, y, k);
    assert same.spec.config == y;
    FieldsListed(m, same, d, e, Plain("data"));
    FieldsListed(m, same, d, e, Plain("mode"));
    FieldsListed(m, same, d, e, In(Data, k));
    FieldsListed(m, other, d, e, In(Data, k));
  }

  lemma ConfigChangesIff(m: Models, d: Resource, e: Resource)
    requires d.kind == e.kind == KindConfig && d.spec.ConfigOf? && e.spec.ConfigOf?
    ensures SameChanges(m, d, e) <==> SameConfig(d.spec.config, e.spec.config)
  {
    hide SameChanges, SameConfig;
    if SameChanges(m, d, e) {
      ConfigDecides(m, d, e);
    }
    if SameConfig(d.spec.config, e.spec.config) {
      SameConfigSameChanges(m, d, e);
    }
  }

  lemma ConfigDecides(m: Models, d: Resource, e: Resource)
    requires d.kind == e.kind == KindConfig && d.spec.ConfigOf? && e.spec.ConfigOf? && SameChanges(m, d, e)
    ensures SameConfig(d.spec.config, e.spec.config)
  {
    hide SameChanges;
    SameChangesSwap(m, d, e);
    FileShows(m, d, e, "");
    FileShows(m, e, d, "");
    forall k: string
      ensures !d.spec.config.sensitive && k in d.spec.config.data ==>
        k in e.spec.config.data && e.spec.config.data[k] == d.spec.config.data[k]
      ensures !e.spec.config.sensitive && k in e.spec.config.data ==>
        k in d.spec.config.data && d.spec.config.data[k] == e.spec.config.data[k]
    {
      FileShows(m, d, e, k);
      FileShows(m, e, d, k);
    }
    SameFiles(d.spec.config, e.spec.config);
  }

  lemma SameConfigSameChanges(m: Models, d: Resource, e: Resource)
    requires d.kind == e.kind == KindConfig && d.spec.ConfigOf? && e.spec.ConfigOf?
    requires SameConfig(d.spec.config, e.spec.config)
    ensures SameChanges(m, d, e)
  {
    hide Listed, ConfigDeltasOf, SameConfig;
    forall a | Stands(a, d)
      ensures Diff(m, a, d) == Diff(m, a, e)
    {
      SameConfigDeltas(LiveConfig(a), d.spec.config, e.spec.config);
    }
  }

  lemma SameFiles(x: ConfigSpec, y: ConfigSpec)
    requires forall k: string ::
      && (!x.sensitive && k in x.data ==> k in y.data && y.data[k] == x.data[k])
      && (!y.sensitive && k in y.data ==> k in x.data && x.data[k] == y.data[k])
    ensures !x.sensitive && !y.sensitive ==> x.data == y.data
  {}

  lemma SameConfigDeltas(live: ConfigSpec, x: ConfigSpec, y: ConfigSpec)
    requires SameConfig(x, y)
    ensures ConfigDeltasOf(live, x) == ConfigDeltasOf(live, y)
  {
    hide Keyed, FileDeltas, ScalarDelta;
  }

  // ---- All of them --------------------------------------------------------------------------

  /** Two manifests of a kind compared by hand call for the same changes exactly
      when they agree on these attributes. */
  lemma ByHandChangesIff(m: Models, d: Resource, e: Resource)
    requires d.kind == e.kind && WellTyped(d) && WellTyped(e) && BothByHand(d.spec, e.spec)
    ensures SameChanges(m, d, e) <==> SameByHand(m, d.spec, e.spec)
  {
    hide SameChanges, SameRegistry, SameMiddleware, SameConfig, SameJob;
    match d.spec {
      case SecretOf(_) => SecretNeverChanges(m, d, e);
      case SealedSecretOf(_) => SealedChangesIff(m, d, e);
      case RegistryOf(_) => RegistryChangesIff(m, d, e);
      case MiddlewareOf(_) => MiddlewareChangesIff(m, d, e);
      case ConfigOf(_) => ConfigChangesIff(m, d, e);
      case JobOf(_) => JobChangesIff(m, d, e);
    }
  }

  /** An update never touches a secret's value. */
  lemma SecretNeverChanges(m: Models, d: Resource, e: Resource)
    requires d.kind == e.kind == KindSecret
    ensures SameChanges(m, d, e)
  {}
}
