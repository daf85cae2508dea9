/** What a plan can tell apart: exactly which pairs of manifests call for the
    same change whatever is live, for each generically compared kind. */
module Visible {
  import opened Diffs
  import opened Encodings
  import opened Fields
  import opened Groups
  import opened Jobs
  import opened Observed
  import opened ObservedApplications
  import opened Overlay
  import opened Plans
  import opened Readings
  import opened Schema
  import opened Settling
  import opened Sorting
  import opened Text
  import opened Wrappers

  /** A live resource that a declared one can stand for. */
  predicate Stands(a: Resource, d: Resource) {
    WellTyped(a) && (a.kind == d.kind || VaultAlias(d.kind) == Some(a.kind))
  }

  /** No live resource tells the two manifests apart. */
  ghost predicate SameChanges(m: Models, d: Resource, e: Resource) {
    forall a | Stands(a, d) :: Diff(m, a, d) == Diff(m, a, e)
  }

  // ---- On field maps ----------------------------------------------------------

  lemma DeltasReadAlike(av: FieldMap, dv: FieldMap, ev: FieldMap)
    requires forall f :: Get(dv, f) == Get(ev, f)
    ensures Deltas(av, dv) == Deltas(av, ev)
  {
    forall f
      ensures f in Deltas(av, dv) <==> f in Deltas(av, ev)
    {
      assert Get(dv, f) == Get(ev, f);
    }
  }

  /** A diff asks of a manifest no more than its reading. */
  lemma SameReadingSameDiff(m: Models, a: Resource, d: Resource, e: Resource)
    requires Generic(d.kind) && d.kind == e.kind && SilentEnv(d) == SilentEnv(e)
    requires SameReading(Optional(d.kind), FieldsOf(m, d.spec), FieldsOf(m, e.spec))
    ensures Diff(m, a, d) == Diff(m, a, e)
  {
    hide FieldsOf, Listed;
    var av, dv, ev := FieldsOf(m, a.spec), FieldsOf(m, d.spec), FieldsOf(m, e.spec);
    SameExemptions(d, dv, e, ev);
    hide Exempt;
    assert Compared(av, dv, d) == Compared(av, ev, e);
    DeltasReadAlike(Compared(av, dv, d), dv, ev);
  }

  lemma SameExemptions(d: Resource, dv: FieldMap, e: Resource, ev: FieldMap)
    requires d.kind == e.kind && SilentEnv(d) == SilentEnv(e) && SameReading(Optional(d.kind), dv, ev)
    ensures forall f :: Exempt(d, dv, f) == Exempt(e, ev, f)
  {
    hide SilentEnv, OptionalByKind;
  }

  /** Which live values two manifests that call for the same changes agree on. */
  lemma OneDiffDecides(m: Models, a: Resource, d: Resource, e: Resource, f: Field)
    requires Generic(d.kind) && d.kind == e.kind && Diff(m, a, d) == Diff(m, a, e)
    ensures var av, dv, ev := FieldsOf(m, a.spec), FieldsOf(m, d.spec), FieldsOf(m, e.spec);
      !Exempt(d, dv, f) && Get(av, f) != Get(dv, f) ==> !Exempt(e, ev, f) && Get(dv, f) == Get(ev, f)
  {
    hide FieldsOf, Diff, Exempt;
    var x := FieldDiff(f, Get(FieldsOf(m, a.spec), f), Get(FieldsOf(m, d.spec), f));
    DiffIsExact(m, a, d, x);
    DiffIsExact(m, a, e, x);
  }

  lemma NoDiffToItself(m: Models, d: Resource)
    requires Generic(d.kind) && WellTyped(d)
    ensures Diff(m, d, d) == []
  {
    GenericIsNoJob(d);
    hide Diff, WellTyped, Generic;
    DiffIsReflexive(m, d);
  }

  lemma GenericIsNoJob(d: Resource)
    requires Generic(d.kind) && WellTyped(d)
    ensures !d.spec.JobOf?
  {}

  /** Each of two such manifests is in sync with the other. */
  lemma SameChangesAgree(m: Models, d: Resource, e: Resource, f: Field)
    requires Generic(d.kind) && d.kind == e.kind && WellTyped(d) && WellTyped(e) && SameChanges(m, d, e)
    ensures Exempt(e, FieldsOf(m, e.spec), f) || Get(FieldsOf(m, d.spec), f) == Get(FieldsOf(m, e.spec), f)
    ensures Exempt(d, FieldsOf(m, d.spec), f) || Get(FieldsOf(m, d.spec), f) == Get(FieldsOf(m, e.spec), f)
  {
    hide FieldsOf, Diff, Exempt, WellTyped;
    NoDiffToItself(m, d);
    NoDiffToItself(m, e);
    EmptyDiffMeansAgreement(m, d, e);
    EmptyDiffMeansAgreement(m, e, d);
    assert Diff(m, d, d) == Diff(m, d, e) && Diff(m, e, d) == Diff(m, e, e);
  }

  lemma ExemptReadsEmpty(m: Models, d: Resource, f: Field)
    requires Exempt(d, FieldsOf(m, d.spec), f)
    ensures f !in FieldsOf(m, d.spec)
  {
    SilentHasNoEnv(m, d);
  }

  lemma SameChangesGet(m: Models, d: Resource, e: Resource, f: Field)
    requires Generic(d.kind) && d.kind == e.kind && WellTyped(d) && WellTyped(e) && SameChanges(m, d, e)
    ensures Get(FieldsOf(m, d.spec), f) == Get(FieldsOf(m, e.spec), f)
  {
    hide FieldsOf, Diff, Exempt, SameChanges;
    SameChangesAgree(m, d, e, f);
    if Exempt(d, FieldsOf(m, d.spec), f) && Exempt(e, FieldsOf(m, e.spec), f) {
      ExemptReadsEmpty(m, d, f);
      ExemptReadsEmpty(m, e, f);
    }
  }

  // ---- Live resources that tell silence from an empty statement -------------------

  /** A stack with one variable more than any manifest states. */
  function StackWith(d: Resource, k: string, v: string): Resource {
    Resource("", KindStack, d.meta, StackOf(StackSpec("", None, Some(map[k := v]), [])))
  }

  lemma StackVariable(m: Models, d: Resource, k: string, v: string)
    ensures Get(FieldsOf(m, StackWith(d, k, v).spec), In(Env, k)) == v
  {
    StackEnvGet(StackWith(d, k, v).spec.stack, k);
    hide StackFields;
  }

  lemma StackEnvGet(s: StackSpec, k: string)
    requires s.env.Some? && k in s.env.value && k !in s.secretEnv
    ensures Get(StackFields(s), In(Env, k)) == s.env.value[k]
  {
    hide Sum, Homed, DescriptionField, LocationField, StackFields, StackEnv;
    StackIsSum(s);
    SumAt(StackGroups(s), StackHome, In(Env, k));
    StackEnvAt(s, k);
  }

  lemma StackEnvAt(s: StackSpec, k: string)
    requires s.env.Some? && k in s.env.value && k !in s.secretEnv
    ensures In(Env, k) in StackEnv(s) && StackEnv(s)[In(Env, k)] == s.env.value[k]
  {
    KeyedAt(Env, Masked(s.env.value, s.secretEnv), k);
  }

  lemma EnvIsNotOptional(k: Kind, f: Field)
    ensures IsEnv(f) ==> f !in Optional(k)
  {}

  lemma SilenceShows(m: Models, d: Resource, e: Resource)
    requires Generic(d.kind) && d.kind == e.kind && WellTyped(d) && WellTyped(e)
    requires SilentEnv(d) && !SilentEnv(e)
    ensures !SameChanges(m, d, e)
  {
    hide FieldsOf, Diff;
    var f, v := In(Env, ""), Get(FieldsOf(m, e.spec), In(Env, "")) + "+";
    var a := StackWith(d, "", v);
    StackVariable(m, d, "", v);
    EnvIsNotOptional(d.kind, f);
    assert Stands(a, d);
    if Diff(m, a, d) == Diff(m, a, e) {
      OneDiffDecides(m, a, e, d, f);
    }
  }

  const EmptyApplication :=
    ApplicationSpec(None, "", "", "", [], [], map[], [], [], None, None, None, None, None, map[],
                    "", "", "", "", "", "", "")

  /** An application with every optional field stated and not empty. */
  const Full: ApplicationSpec := EmptyApplication.(
    stack := "x",
    placement := Some(ApplicationPlacementSpec("x", Some(["x"]))),
    deployment := Some(DeploymentSpec("x", 1, "x", Some(UpdateSpec(1, 1)))),
    healthcheck := Some(HealthcheckSpec("x", "x", 1, "x", 1, 1, 1, 1)))

  lemma ApplicationGet(m: Models, a: ApplicationSpec, f: Field)
    requires 0 <= PartOf(f) < 13
    ensures |ApplicationParts(m, a)| == 13
    ensures f in ApplicationFields(m, a) <==> f in ApplicationParts(m, a)[PartOf(f)]
    ensures Get(ApplicationFields(m, a), f) == Get(ApplicationParts(m, a)[PartOf(f)], f)
  {
    hide ApplicationFields, ApplicationParts, Sum, Homed, PartOf;
    EnvPart(m, a);
    ApplicationIsSum(m, a);
    ApplicationIsHomed(m, a);
    SumAt(ApplicationParts(m, a), PartOf, f);
  }

  lemma OptionalParts(m: Models, a: ApplicationSpec)
    ensures var ps := ApplicationParts(m, a);
      && |ps| == 13 && ps[3] == StackField(a.stack) && ps[5] == PlacementFields(a.Location(), a.Constraints())
      && ps[6] == DeploymentFields(a.deployment) && ps[7] == HealthFields(a.healthcheck)
  {
    hide ImageFields, SourceFields, CommandFields, StackField, SecurityFields, PlacementFields, DeploymentFields,
         HealthFields, ConfigField, LabelFields, ResourceFields, EnvFields, PortFields;
  }

  /** Entries that are all stated and not empty. */
  predicate AllFull(entries: seq<Entry>) {
    forall i | 0 <= i < |entries| :: entries[i].stated && entries[i].value != ""
  }

  predicate FieldAmong(entries: seq<Entry>, f: Field) {
    exists i | 0 <= i < |entries| :: entries[i].field == f
  }

  lemma FullEntry(entries: seq<Entry>, f: Field)
    requires DistinctFields(entries) && AllFull(entries) && FieldAmong(entries, f)
    ensures Get(Stated(entries), f) != ""
  {
    var i :| 0 <= i < |entries| && entries[i].field == f;
    StatedAt(entries, i);
  }

  lemma ItoaIsText(n: int)
    ensures Itoa(n) != ""
  {}

  lemma PlacementIsFull(f: Field)
    requires f in PLACEMENT
    ensures Get(PlacementFields("x", Some(["x"])), f) != ""
  {
    hide Stated;
    var es := PlacementEntries("x", Some(["x"]));
    assert es[0].field == In(Placement, "location") && es[1].field == In(Placement, "constraints");
    FullEntry(es, f);
  }

  lemma DeploymentIsFull(d: DeploymentSpec, f: Field)
    requires d.runtime != "" && d.replicas > 0 && d.strategy != "" && d.update.Some? && f in DEPLOYMENT
    ensures Get(DeploymentFields(Some(d)), f) != ""
  {
    hide Stated, Itoa;
    ItoaIsText(d.replicas);
    ItoaIsText(d.update.value.parallelism);
    ItoaIsText(d.update.value.delaySeconds);
    var es := DeploymentEntries(d);
    assert es[0].field == In(Deployment, "strategy") && es[1].field == In(Deployment, "runtime");
    assert es[2].field == In(Deployment, "replicas") && es[3].field == In(Deployment, "update.parallelism");
    assert es[4].field == In(Deployment, "update.delaySeconds");
    FullEntry(es, f);
  }

  lemma HealthIsFull(hc: HealthcheckSpec, f: Field)
    requires hc.kind != "" && hc.path != "" && hc.port > 0 && hc.command != "" && hc.intervalSeconds > 0
    requires hc.timeoutSeconds > 0 && hc.retries > 0 && hc.startPeriodSeconds > 0 && f in HEALTHCHECK
    ensures Get(HealthFields(Some(hc)), f) != ""
  {
    hide Stated, Itoa;
    ItoaIsText(hc.port);
    ItoaIsText(hc.intervalSeconds);
    ItoaIsText(hc.timeoutSeconds);
    ItoaIsText(hc.retries);
    ItoaIsText(hc.startPeriodSeconds);
    HealthFieldsDiffer(hc);
    HealthFieldsAre(hc, f);
    FullEntry(HealthEntries(hc), f);
  }

  lemma HealthFieldsAre(hc: HealthcheckSpec, f: Field)
    requires f in HEALTHCHECK
    ensures FieldAmong(HealthEntries(hc), f)
  {
    hide Itoa;
    var es := HealthEntries(hc);
    assert es[0].field == In(Healthcheck, "type") && es[1].field == In(Healthcheck, "path");
    assert es[2].field == In(Healthcheck, "port") && es[3].field == In(Healthcheck, "command");
    assert es[4].field == In(Healthcheck, "intervalSeconds") && es[5].field == In(Healthcheck, "timeoutSeconds");
    assert es[6].field == In(Healthcheck, "retries") && es[7].field == In(Healthcheck, "startPeriodSeconds");
  }

  lemma FullStates(m: Models, f: Field)
    requires f in OPTIONAL_WHEN_UNSET
    ensures Get(ApplicationFields(m, Full), f) != ""
  {
    hide ApplicationFields, ApplicationParts, PlacementFields, DeploymentFields, HealthFields;
    OptionalSections();
    OptionalParts(m, Full);
    OptionalHome(f);
    ApplicationGet(m, Full, f);
    if f in PLACEMENT {
      PlacementIsFull(f);
    } else if f in DEPLOYMENT {
      DeploymentIsFull(Full.deployment.value, f);
    } else if f in HEALTHCHECK {
      HealthIsFull(Full.healthcheck.value, f);
    }
  }

  lemma OptionalHome(f: Field)
    ensures f in PLACEMENT ==> PartOf(f) == 5
    ensures f in DEPLOYMENT ==> PartOf(f) == 6
    ensures f in HEALTHCHECK ==> PartOf(f) == 7
    ensures f == Plain("stack") ==> PartOf(f) == 3
  {}

  /** Where an application states an optional field as nothing, a live one that
      has it set tells it from one that is silent. */
  lemma EmptyStatementShows(m: Models, d: Resource, e: Resource, f: Field)
    requires d.kind == e.kind == KindApplication && WellTyped(d) && WellTyped(e) && SameChanges(m, d, e)
    requires f in OPTIONAL_WHEN_UNSET && f in FieldsOf(m, d.spec)
    ensures f in FieldsOf(m, e.spec)
  {
    hide FieldsOf, Diff, ApplicationFields;
    var a := Resource("", KindApplication, d.meta, ApplicationOf(Full));
    FullStates(m, f);
    FullIs(m, a);
    SameChangesGet(m, d, e, f);
    assert Stands(a, d);
    EnvIsNotOptional(d.kind, f);
    if f !in FieldsOf(m, e.spec) {
      OneDiffDecides(m, a, d, e, f);
    }
  }

  lemma FullIs(m: Models, a: Resource)
    requires a.spec == ApplicationOf(Full)
    ensures FieldsOf(m, a.spec) == ApplicationFields(m, Full)
  {
    hide ApplicationFields;
  }

  // ---- Kinds with a fixed record of fields ------------------------------------------

  /** The specs of a kind whose every empty field is always there. */
  predicate BothRecords(x: Spec, y: Spec) {
    match (x, y)
    case (DatabaseOf(_), DatabaseOf(_)) => true
    case (VolumeOf(_), VolumeOf(_)) => true
    case (RouteOf(_), RouteOf(_)) => true
    case (DomainOf(_), DomainOf(_)) => true
    case (CronJobOf(_), CronJobOf(_)) => true
    case (GitRepositoryOf(_), GitRepositoryOf(_)) => true
    case (GitSourceOf(_), GitSourceOf(_)) => true
    case _ => false
  }

  /** An empty field of the one is a field of the other. */
  ghost predicate EmptiesIn(f: FieldMap, g: FieldMap) {
    forall k | k in f && f[k] == "" :: k in g
  }

  lemma EmptiesOfSum(base: FieldMap, stated: FieldMap, base': FieldMap, stated': FieldMap)
    requires base.Keys == base'.Keys && Solid({}, stated)
    ensures EmptiesIn(base + stated, base' + stated')
  {}

  lemma FormatBoolIsText(b: bool)
    ensures FormatBool(b) != ""
  {}

  lemma DatabaseEmpties(m: Models, x: DatabaseSpec, y: DatabaseSpec)
    ensures EmptiesIn(DatabaseFields(m, x), DatabaseFields(m, y))
  {
    hide Stated, Itoa, FormatBool;
    FormatBoolIsText(x.readOnlyUser.GetOr(false));
    ItoaIsText(m.memoryBytes(SizesOf(x).memory));
    ItoaIsText(m.nanoCPUs(SizesOf(x).cpu));
    StatedIsSolid({}, DatabaseEntries(m, x));
    EmptiesOfSum(EngineFields(x), Stated(DatabaseEntries(m, x)), EngineFields(y), Stated(DatabaseEntries(m, y)));
  }

  lemma VolumeEmpties(m: Models, x: VolumeSpec, y: VolumeSpec)
    ensures EmptiesIn(VolumeFields(m, x), VolumeFields(m, y))
  {
    hide Stated, Itoa, TrimSpace;
    ItoaIsText(m.memoryBytes(x.size));
    StatedIsSolid({}, VolumeEntries(m, x));
  }

  lemma CronJobEmpties(m: Models, x: CronJobSpec, y: CronJobSpec)
    ensures EmptiesIn(CronJobFields(m, x), CronJobFields(m, y))
  {
    FormatBoolIsText(x.suspended.GetOr(false));
    RunKeys(m, x, y);
    hide RunFields, FormatBool;
    EmptiesOfSum(RunFields(m, x), SuspendField(x.suspended), RunFields(m, y), SuspendField(y.suspended));
  }

  lemma RunKeys(m: Models, x: CronJobSpec, y: CronJobSpec)
    ensures RunFields(m, x).Keys == RunFields(m, y).Keys
  {
    hide ArgList, TrimSpace, Itoa, HistoryOrDefault, RunAsAccount;
  }

  lemma RouteKeys(x: RouteSpec, y: RouteSpec)
    ensures RouteFields(x).Keys == RouteFields(y).Keys
  {
    hide Join, Sort, Itoa, FormatBool;
  }

  lemma GitKeys(x: GitSourceSpec, y: GitSourceSpec)
    ensures EmptiesIn(GitSourceFields(x), GitSourceFields(y))
  {
    hide FormatBool;
    var g := GitSourceFields(y);
    assert Plain("repo") in g && Plain("repository") in g && Plain("ref") in g && Plain("path") in g;
    assert Plain("syncPolicy") in g && Plain("prune") in g && Plain("selfHeal") in g && Plain("allowEmpty") in g;
    assert Plain("requireSealedSecrets") in g && Plain("deletePolicy") in g;
  }

  lemma RecordEmpties(m: Models, x: Spec, y: Spec)
    requires BothRecords(x, y)
    ensures EmptiesIn(FieldsOf(m, x), FieldsOf(m, y))
  {
    hide DatabaseFields, VolumeFields, RouteFields, CronJobFields, GitSourceFields, FormatBool;
    match x {
      case DatabaseOf(d) => DatabaseEmpties(m, d, y.database);
      case VolumeOf(v) => VolumeEmpties(m, v, y.volume);
      case RouteOf(r) => RouteKeys(r, y.route);
      case DomainOf(_) =>
      case CronJobOf(c) => CronJobEmpties(m, c, y.cronJob);
      case GitRepositoryOf(_) =>
      case GitSourceOf(g) => GitKeys(g, y.gitSource);
    }
  }

  lemma EmptiesDecide(f: FieldMap, g: FieldMap)
    requires EmptiesIn(f, g) && EmptiesIn(g, f) && forall k: Field :: Get(f, k) == Get(g, k)
    ensures f == g
  {
    forall k
      ensures k in f <==> k in g
      ensures k in f ==> f[k] == g[k]
    {
      assert Get(f, k) == Get(g, k);
    }
  }

  /** The attributes that decide a record's fields. */
  predicate SameRecord(m: Models, x: Spec, y: Spec)
    requires BothRecords(x, y)
  {
    match x
    case DatabaseOf(d) => SameDatabase(m, d, y.database)
    case VolumeOf(v) => SameVolume(m, v, y.volume)
    case RouteOf(r) => SameRouteScalars(r, y.route) && RoutePieces(r) == RoutePieces(y.route)
    case CronJobOf(c) => SameCronJob(c, y.cronJob)
    case _ => x == y
  }

  lemma RecordSeen(m: Models, x: Spec, y: Spec)
    requires BothRecords(x, y)
    ensures FieldsOf(m, x) == FieldsOf(m, y) <==> SameRecord(m, x, y)
  {
    hide DatabaseFields, VolumeFields, RouteFields, CronJobFields, GitSourceFields, GitRepositoryFields, SameDatabase,
         SameVolume, SameRouteScalars, RoutePieces, SameCronJob;
    match x {
      case DatabaseOf(d) => DatabaseSeen(m, d, y.database);
      case VolumeOf(v) => VolumeSeen(m, v, y.volume);
      case RouteOf(r) => RouteReads(r, y.route);
      case DomainOf(d) => DomainSeen(m, d, y.domain);
      case CronJobOf(c) => CronJobSeen(m, c, y.cronJob);
      case GitRepositoryOf(g) => GitRepositorySeen(g, y.gitRepository);
      case GitSourceOf(g) => GitSourceSeen(g, y.gitSource);
    }
  }

  lemma RecordKinds(d: Resource, e: Resource)
    requires d.kind == e.kind && WellTyped(d) && WellTyped(e) && BothRecords(d.spec, e.spec)
    ensures Generic(d.kind) && !SilentEnv(d) && !SilentEnv(e)
  {}

  /** Two databases, volumes, routes, domains, cron jobs, git repositories or git
      sources call for the same changes exactly when they agree on every
      compared attribute. */
  lemma RecordChangesIff(m: Models, d: Resource, e: Resource)
    requires d.kind == e.kind && WellTyped(d) && WellTyped(e) && BothRecords(d.spec, e.spec)
    ensures SameChanges(m, d, e) <==> SameRecord(m, d.spec, e.spec)
  {
    hide FieldsOf, Diff, WellTyped, Generic, SameRecord, BothRecords, Optional, SilentEnv;
    RecordKinds(d, e);
    RecordSeen(m, d.spec, e.spec);
    RecordsSwap(d.spec, e.spec);
    if FieldsOf(m, d.spec) == FieldsOf(m, e.spec) {
      forall a | Stands(a, d)
        ensures Diff(m, a, d) == Diff(m, a, e)
      {
        SameReadingSameDiff(m, a, d, e);
      }
    }
    if SameChanges(m, d, e) {
      forall f: Field
        ensures Get(FieldsOf(m, d.spec), f) == Get(FieldsOf(m, e.spec), f)
      {
        SameChangesGet(m, d, e, f);
      }
      RecordEmpties(m, d.spec, e.spec);
      RecordEmpties(m, e.spec, d.spec);
      EmptiesDecide(FieldsOf(m, d.spec), FieldsOf(m, e.spec));
    }
  }

  lemma RecordsSwap(x: Spec, y: Spec)
    requires BothRecords(x, y)
    ensures BothRecords(y, x)
  {}

  // ---- Stacks ------------------------------------------------------------------------

  lemma DescriptionKeys(a: string, b: string)
    ensures DescriptionField(a).Keys == DescriptionField(b).Keys
  {}

  lemma LocationIsSolid(opt: set<Field>, a: string)
    ensures Solid(opt, LocationField(a))
  {}

  lemma OptionalIsElsewhere(k: Kind)
    ensures forall f | f in Optional(k) :: f.In? ==> f.section !in {Env, ContainerLabels, BuildEnv, Source}
  {}

  /** What is read of a stack. */
  ghost predicate ReadStack(x: StackSpec, y: StackSpec) {
    && x.description == y.description && x.Location() == y.Location()
    && ReadsAlike(Masked(x.env.GetOr(map[]), x.secretEnv), Masked(y.env.GetOr(map[]), y.secretEnv))
  }

  lemma StackReads(x: StackSpec, y: StackSpec)
    ensures SameReading(Optional(KindStack), StackFields(x), StackFields(y)) <==> ReadStack(x, y)
  {
    hide Sum, Homed, Masked, Keyed, SameReading, Solid, ReadsAlike, Optional, DescriptionField, LocationField,
         StackFields;
    var opt := Optional(KindStack);
    var xs, ys := StackGroups(x), StackGroups(y);
    StackIsSum(x);
    StackIsSum(y);
    SumReads(opt, xs, ys, StackHome);
    DescriptionReads(opt, x.description, y.description);
    LocationIsSolid(opt, x.Location());
    LocationIsSolid(opt, y.Location());
    SolidReads(opt, LocationField(x.Location()), LocationField(y.Location()));
    LocationDecides(x.Location(), y.Location());
    OptionalIsElsewhere(KindStack);
    KeyedReads(opt, Env, Masked(x.env.GetOr(map[]), x.secretEnv), Masked(y.env.GetOr(map[]), y.secretEnv));
    assert xs[0] == DescriptionField(x.description) && xs[1] == LocationField(x.Location()) && xs[2] == StackEnv(x);
    assert ys[0] == DescriptionField(y.description) && ys[1] == LocationField(y.Location()) && ys[2] == StackEnv(y);
  }

  lemma DescriptionReads(opt: set<Field>, a: string, b: string)
    ensures SameReading(opt, DescriptionField(a), DescriptionField(b)) <==> a == b
  {
    hide SameReading, DescriptionField;
    DescriptionKeys(a, b);
    SameKeysRead(opt, DescriptionField(a), DescriptionField(b));
    DescriptionDecides(a, b);
  }

  /** No optional field of a stack is stated as nothing. */
  lemma StackStates(x: StackSpec, f: Field)
    requires f in Optional(KindStack) && f in StackFields(x)
    ensures StackFields(x)[f] != ""
  {
    hide Sum, Homed, Masked, Keyed, StackFields, StackEnv, DescriptionField;
    StackIsSum(x);
    SumAt(StackGroups(x), StackHome, f);
    DescriptionIsNotOptional(x.description, f);
    OptionalIsElsewhere(KindStack);
    LocationIsSolid({}, x.Location());
  }

  lemma DescriptionIsNotOptional(description: string, f: Field)
    requires f in Optional(KindStack)
    ensures f !in DescriptionField(description)
  {}

  /** Two stacks call for the same changes exactly when they agree on description,
      location and shown environment, absent read as empty, and either both or
      neither states an environment. */
  lemma StackChangesIff(m: Models, d: Resource, e: Resource)
    requires d.kind == e.kind == KindStack && d.spec.StackOf? && e.spec.StackOf?
    ensures SameChanges(m, d, e) <==> ReadStack(d.spec.stack, e.spec.stack) && SilentEnv(d) == SilentEnv(e)
  {
    hide StackFields, Diff, Optional, ReadStack;
    StackReads(d.spec.stack, e.spec.stack);
    if SameChanges(m, d, e) {
      forall f: Field
        ensures Get(StackFields(d.spec.stack), f) == Get(StackFields(e.spec.stack), f)
        ensures f in Optional(KindStack) ==> (f in StackFields(d.spec.stack) <==> f in StackFields(e.spec.stack))
      {
        SameChangesGet(m, d, e, f);
        if f in Optional(KindStack) && f in StackFields(d.spec.stack) {
          StackStates(d.spec.stack, f);
        }
        if f in Optional(KindStack) && f in StackFields(e.spec.stack) {
          StackStates(e.spec.stack, f);
        }
      }
      SilenceBothWays(m, d, e);
    }
    if ReadStack(d.spec.stack, e.spec.stack) && SilentEnv(d) == SilentEnv(e) {
      forall a | Stands(a, d)
        ensures Diff(m, a, d) == Diff(m, a, e)
      {
        SameReadingSameDiff(m, a, d, e);
      }
    }
  }

  lemma SilenceBothWays(m: Models, d: Resource, e: Resource)
    requires Generic(d.kind) && d.kind == e.kind && WellTyped(d) && WellTyped(e) && SameChanges(m, d, e)
    ensures SilentEnv(d) == SilentEnv(e)
  {
    hide Diff, SilentEnv;
    assert SameChanges(m, e, d) by {
      forall a | Stands(a, e)
        ensures Diff(m, a, e) == Diff(m, a, d)
      {
        assert Stands(a, d);
      }
    }
    if SilentEnv(d) && !SilentEnv(e) {
      SilenceShows(m, d, e);
    }
    if SilentEnv(e) && !SilentEnv(d) {
      SilenceShows(m, e, d);
    }
  }

  // ---- Applications --------------------------------------------------------------------

  const NoSource := SourceSpec("", "", "", "", [], map[], "")

  /** What is read of a build source: no source reads as an empty one. */
  ghost predicate ReadSource(x: SourceSpec, y: SourceSpec) {
    && x.git == y.git && x.ref == y.ref && x.buildMethod == y.buildMethod && x.builder == y.builder
    && Pieces(x.buildpacks, ',') == Pieces(y.buildpacks, ',') && x.repository == y.repository
    && ReadsAlike(x.buildEnv, y.buildEnv)
  }

  /** What a plan reads of an application: every compared attribute, an absent
      label, variable or build variable as one with the empty value. */
  ghost predicate ReadApplication(m: Models, x: ApplicationSpec, y: ApplicationSpec) {
    && SameIdentity(x, y) && ReadSource(x.source.GetOr(NoSource), y.source.GetOr(NoSource))
    && ObservedApplications.SameSecurity(m, x, y)
    && SamePlacement(x, y) && SameDeployment(x, y) && SameHealth(x.healthcheck, y.healthcheck)
    && ReadsAlike(Unreserved(x.containerLabels), Unreserved(y.containerLabels))
    && SameResources(m, x.resources, y.resources)
    && ReadsAlike(Masked(x.env, x.secretEnv), Masked(y.env, y.secretEnv))
    && SamePorts(x.ports, y.ports)
  }

  lemma ImageReads(opt: set<Field>, x: ApplicationSpec, y: ApplicationSpec)
    ensures SameReading(opt, ImageFields(x), ImageFields(y)) <==> ImageFields(x) == ImageFields(y)
    ensures SameReading(opt, CommandFields(x), CommandFields(y)) <==> CommandFields(x) == CommandFields(y)
  {
    hide SameReading, Join;
    SameKeysRead(opt, ImageFields(x), ImageFields(y));
    SameKeysRead(opt, CommandFields(x), CommandFields(y));
  }

  lemma SecurityReads(opt: set<Field>, m: Models, x: ApplicationSpec, y: ApplicationSpec)
    ensures SameReading(opt, SecurityFields(m, x), SecurityFields(m, y)) <==>
      SecurityFields(m, x) == SecurityFields(m, y)
  {
    hide SameReading, NormalizedList, FormatBool;
    SameKeysRead(opt, SecurityFields(m, x), SecurityFields(m, y));
  }

  lemma StatedFieldsAreSolid(opt: set<Field>, m: Models, a: ApplicationSpec)
    requires In(Placement, "constraints") in opt && In(Healthcheck, "type") in opt
    ensures Solid(opt, StackField(a.stack)) && Solid(opt, ConfigField(a.configFP))
    ensures Solid(opt, PlacementFields(a.Location(), a.Constraints())) && Solid(opt, HealthFields(a.healthcheck))
    ensures Solid(opt, DeploymentFields(a.deployment)) && Solid(opt, ResourceFields(m, a.resources))
    ensures Solid(opt, PortFields(a.ports))
  {
    hide Stated, Itoa, Join, PlacementEntries, HealthEntries, DeploymentEntries, PortFields, ResourceFields;
    PlacementIsSolid(opt, a.Location(), a.Constraints());
    if a.healthcheck.Some? {
      HealthIsSolid(opt, a.healthcheck.value);
    }
    if a.deployment.Some? {
      DeploymentIsSolid(opt, a.deployment.value);
    }
    ResourcesAreSolid(opt, m, a.resources);
    PortsAreSolid(opt, a.ports);
  }

  lemma PlacementIsSolid(opt: set<Field>, location: string, constraints: Option<seq<string>>)
    requires In(Placement, "constraints") in opt
    ensures Solid(opt, Stated(PlacementEntries(location, constraints)))
  {
    hide Stated, Join;
    StatedIsSolid(opt, PlacementEntries(location, constraints));
  }

  lemma HealthIsSolid(opt: set<Field>, hc: HealthcheckSpec)
    requires In(Healthcheck, "type") in opt
    ensures Solid(opt, Stated(HealthEntries(hc)))
  {
    hide Stated, Itoa;
    ItoaIsText(hc.port);
    ItoaIsText(hc.intervalSeconds);
    ItoaIsText(hc.timeoutSeconds);
    ItoaIsText(hc.retries);
    ItoaIsText(hc.startPeriodSeconds);
    StatedIsSolid(opt, HealthEntries(hc));
  }

  lemma DeploymentIsSolid(opt: set<Field>, d: DeploymentSpec)
    ensures Solid(opt, Stated(DeploymentEntries(d)))
  {
    hide Stated, Itoa;
    ItoaIsText(d.replicas);
    ItoaIsText(d.update.GetOr(UpdateSpec(0, 0)).parallelism);
    ItoaIsText(d.update.GetOr(UpdateSpec(0, 0)).delaySeconds);
    StatedIsSolid(opt, DeploymentEntries(d));
  }

  lemma ResourcesAreSolid(opt: set<Field>, m: Models, r: Option<ResourceSpec>)
    ensures Solid(opt, ResourceFields(m, r))
  {
    hide Stated, Itoa, ResourceFields;
    ResourcesAreEntries(m, r);
    ItoaIsText(MemoryOf(m, r));
    ItoaIsText(CpuOf(m, r));
    ItoaIsText(GpuOf(r));
    StatedIsSolid(opt, ResourceEntries(m, r));
  }

  lemma {:induction false} PortsAreSolid(opt: set<Field>, ports: seq<PortSpec>)
    ensures Solid(opt, PortFields(ports))
  {
    forall f | f in PortFields(ports)
      ensures PortFields(ports)[f] != ""
    {
      var n := PortFieldIsFlag(ports, f);
    }
  }

  lemma NoSourceReads(source: Option<SourceSpec>, k: Field)
    ensures Get(SourceFields(source), k) == Get(SourceFields(Some(source.GetOr(NoSource))), k)
  {
    hide Keyed;
    if source.None? {
      assert forall f | f in SourceScalars(NoSource) :: SourceScalars(NoSource)[f] == "";
    }
  }

  /** No field of a source is optional. */
  lemma SourceIsNotOptional(opt: set<Field>, source: Option<SourceSpec>)
    requires forall f | f in opt :: f.In? ==> f.section !in {Source, BuildEnv}
    ensures forall f | f in opt :: f !in SourceFields(source)
  {
    hide SourceFields;
    forall f | f in SourceFields(source)
      ensures f !in opt
    {
      SourceSection(source, f);
    }
  }

  lemma SourceReads(opt: set<Field>, x: Option<SourceSpec>, y: Option<SourceSpec>)
    requires forall f | f in opt :: f.In? ==> f.section !in {Source, BuildEnv}
    ensures SameReading(opt, SourceFields(x), SourceFields(y)) <==> ReadSource(x.GetOr(NoSource), y.GetOr(NoSource))
  {
    hide SourceFields, ReadSource;
    var v, w := x.GetOr(NoSource), y.GetOr(NoSource);
    SourceIsNotOptional(opt, x);
    SourceIsNotOptional(opt, y);
    SourceIsNotOptional(opt, Some(v));
    SourceIsNotOptional(opt, Some(w));
    forall k: Field
      ensures Get(SourceFields(x), k) == Get(SourceFields(Some(v)), k)
      ensures Get(SourceFields(y), k) == Get(SourceFields(Some(w)), k)
    {
      NoSourceReads(x, k);
      NoSourceReads(y, k);
    }
    BuildReads(opt, v, w);
  }

  lemma BuildReads(opt: set<Field>, x: SourceSpec, y: SourceSpec)
    requires forall f | f in opt :: f.In? ==> f.section !in {Source, BuildEnv}
    ensures SameReading(opt, SourceFields(Some(x)), SourceFields(Some(y))) <==> ReadSource(x, y)
  {
    hide SourceFields, Sum, Homed, Pieces, SameReading, Keyed, SourceScalars, ReadsAlike;
    var xs, ys := [SourceScalars(x), Keyed(BuildEnv, x.buildEnv)], [SourceScalars(y), Keyed(BuildEnv, y.buildEnv)];
    BuildIsSum(x);
    BuildIsSum(y);
    SumReads(opt, xs, ys, BuildPart);
    ScalarKeys(x, y);
    SameKeysRead(opt, SourceScalars(x), SourceScalars(y));
    ScalarsDecide(x, y.(buildEnv := x.buildEnv));
    assert SourceScalars(y.(buildEnv := x.buildEnv)) == SourceScalars(y) by {
      ScalarsForgetEnv(y, x.buildEnv);
    }
    KeyedReads(opt, BuildEnv, x.buildEnv, y.buildEnv);
    assert xs[0] == SourceScalars(x) && ys[0] == SourceScalars(y);
    assert xs[1] == Keyed(BuildEnv, x.buildEnv) && ys[1] == Keyed(BuildEnv, y.buildEnv);
  }

  lemma ScalarKeys(x: SourceSpec, y: SourceSpec)
    ensures SourceScalars(x).Keys == SourceScalars(y).Keys
  {
    hide Join;
  }

  lemma ScalarsForgetEnv(x: SourceSpec, env: map<string, string>)
    ensures SourceScalars(x.(buildEnv := env)) == SourceScalars(x)
  {
    hide Join;
  }

  /** The thirteen groups of two applications, read side by side. */
  ghost predicate PartsRead(opt: set<Field>, ps: seq<FieldMap>, qs: seq<FieldMap>) {
    |ps| == |qs| && forall i | 0 <= i < |ps| :: SameReading(opt, ps[i], qs[i])
  }

  lemma ThirteenRead(opt: set<Field>, ps: seq<FieldMap>, qs: seq<FieldMap>)
    requires |ps| == |qs| == 13
    ensures PartsRead(opt, ps, qs) <==>
      && SameReading(opt, ps[0], qs[0]) && SameReading(opt, ps[1], qs[1]) && SameReading(opt, ps[2], qs[2])
      && SameReading(opt, ps[3], qs[3]) && SameReading(opt, ps[4], qs[4]) && SameReading(opt, ps[5], qs[5])
      && SameReading(opt, ps[6], qs[6]) && SameReading(opt, ps[7], qs[7]) && SameReading(opt, ps[8], qs[8])
      && SameReading(opt, ps[9], qs[9]) && SameReading(opt, ps[10], qs[10]) && SameReading(opt, ps[11], qs[11])
      && SameReading(opt, ps[12], qs[12])
  {
    hide SameReading;
  }

  /** The groups of which a reading loses nothing. */
  lemma StatedRead(opt: set<Field>, m: Models, x: ApplicationSpec, y: ApplicationSpec)
    requires In(Placement, "constraints") in opt && In(Healthcheck, "type") in opt
    ensures SameReading(opt, StackField(x.stack), StackField(y.stack)) <==> StackField(x.stack) == StackField(y.stack)
    ensures SameReading(opt, ConfigField(x.configFP), ConfigField(y.configFP)) <==>
      ConfigField(x.configFP) == ConfigField(y.configFP)
    ensures SameReading(opt, PlacementFields(x.Location(), x.Constraints()),
                        PlacementFields(y.Location(), y.Constraints()))
      <==> PlacementFields(x.Location(), x.Constraints()) == PlacementFields(y.Location(), y.Constraints())
    ensures SameReading(opt, DeploymentFields(x.deployment), DeploymentFields(y.deployment)) <==>
      DeploymentFields(x.deployment) == DeploymentFields(y.deployment)
    ensures SameReading(opt, HealthFields(x.healthcheck), HealthFields(y.healthcheck)) <==>
      HealthFields(x.healthcheck) == HealthFields(y.healthcheck)
    ensures SameReading(opt, ResourceFields(m, x.resources), ResourceFields(m, y.resources)) <==>
      ResourceFields(m, x.resources) == ResourceFields(m, y.resources)
    ensures SameReading(opt, PortFields(x.ports), PortFields(y.ports)) <==> PortFields(x.ports) == PortFields(y.ports)
  {
    hide SameReading, Solid, StackField, ConfigField, PlacementFields, DeploymentFields, HealthFields, ResourceFields,
         PortFields;
    StatedFieldsAreSolid(opt, m, x);
    StatedFieldsAreSolid(opt, m, y);
    SolidReads(opt, StackField(x.stack), StackField(y.stack));
    SolidReads(opt, ConfigField(x.configFP), ConfigField(y.configFP));
    SolidReads(opt, PlacementFields(x.Location(), x.Constraints()), PlacementFields(y.Location(), y.Constraints()));
    SolidReads(opt, DeploymentFields(x.deployment), DeploymentFields(y.deployment));
    SolidReads(opt, HealthFields(x.healthcheck), HealthFields(y.healthcheck));
    SolidReads(opt, ResourceFields(m, x.resources), ResourceFields(m, y.resources));
    SolidReads(opt, PortFields(x.ports), PortFields(y.ports));
  }

  lemma MapsRead(opt: set<Field>, x: ApplicationSpec, y: ApplicationSpec)
    requires forall f | f in opt :: f.In? ==> f.section !in {Env, ContainerLabels}
    ensures SameReading(opt, LabelFields(x), LabelFields(y)) <==>
      ReadsAlike(Unreserved(x.containerLabels), Unreserved(y.containerLabels))
    ensures SameReading(opt, EnvFields(x), EnvFields(y)) <==>
      ReadsAlike(Masked(x.env, x.secretEnv), Masked(y.env, y.secretEnv))
  {
    hide SameReading, ReadsAlike, Unreserved, Masked, Keyed;
    KeyedReads(opt, ContainerLabels, Unreserved(x.containerLabels), Unreserved(y.containerLabels));
    KeyedReads(opt, Env, Masked(x.env, x.secretEnv), Masked(y.env, y.secretEnv));
  }

  lemma ApplicationPartsRead(opt: set<Field>, m: Models, x: ApplicationSpec, y: ApplicationSpec)
    requires forall f | f in opt :: f.In? ==> f.section !in {Env, ContainerLabels, BuildEnv, Source}
    requires In(Placement, "constraints") in opt && In(Healthcheck, "type") in opt
    ensures PartsRead(opt, ApplicationParts(m, x), ApplicationParts(m, y)) <==> ReadApplication(m, x, y)
  {
    hide ImageFields, SourceFields, CommandFields, StackField, SecurityFields, PlacementFields, DeploymentFields,
         HealthFields, ConfigField, LabelFields, ResourceFields, EnvFields, PortFields, SameIdentity, ReadSource,
         ObservedApplications.SameSecurity, SamePlacement, SameDeployment, SameHealth, SameResources, SamePorts,
         Unreserved, Masked, PartsRead, SameReading, ReadsAlike;
    ThirteenRead(opt, ApplicationParts(m, x), ApplicationParts(m, y));
    ImageReads(opt, x, y);
    SecurityReads(opt, m, x, y);
    StatedRead(opt, m, x, y);
    MapsRead(opt, x, y);
    SourceReads(opt, x.source, y.source);
    PlainsDecide(x, y);
    SecurityDecides(m, x, y);
    PlacementDecides(x, y);
    DeploymentDecides(x, y);
    HealthDecides(x.healthcheck, y.healthcheck);
    ResourcesDecide(m, x.resources, y.resources);
    PortsDecide(x.ports, y.ports);
  }

  lemma OptionalOfApplication()
    ensures var opt := Optional(KindApplication);
      && In(Placement, "constraints") in opt && In(Healthcheck, "type") in opt && opt == OPTIONAL_WHEN_UNSET
  {}

  /** What a plan reads of two applications, on their attributes. */
  lemma ApplicationReads(m: Models, x: ApplicationSpec, y: ApplicationSpec)
    ensures SameReading(Optional(KindApplication), ApplicationFields(m, x), ApplicationFields(m, y))
      <==> ReadApplication(m, x, y)
  {
    hide ApplicationFields, ApplicationParts, Sum, Homed, PartOf, ReadApplication, SameReading, Optional;
    var opt := Optional(KindApplication);
    ApplicationIsSum(m, x);
    ApplicationIsSum(m, y);
    ApplicationIsHomed(m, x);
    ApplicationIsHomed(m, y);
    EnvPart(m, x);
    EnvPart(m, y);
    SumReads(opt, ApplicationParts(m, x), ApplicationParts(m, y), PartOf);
    OptionalOfApplication();
    OptionalIsElsewhere(KindApplication);
    ApplicationPartsRead(opt, m, x, y);
  }

  lemma ApplicationFieldsAre(m: Models, d: Resource)
    requires d.spec.ApplicationOf?
    ensures FieldsOf(m, d.spec) == ApplicationFields(m, d.spec.application) && !SilentEnv(d)
  {
    hide ApplicationFields;
  }

  /** Two applications call for the same changes exactly when their fields read
      the same. */
  lemma ApplicationChangesRead(m: Models, d: Resource, e: Resource)
    requires d.kind == e.kind == KindApplication && d.spec.ApplicationOf? && e.spec.ApplicationOf?
    ensures SameChanges(m, d, e) <==> SameReading(Optional(KindApplication), FieldsOf(m, d.spec), FieldsOf(m, e.spec))
  {
    hide FieldsOf, Diff, Optional;
    OptionalOfApplication();
    if SameChanges(m, d, e) {
      SameChangesSwap(m, d, e);
      forall f: Field
        ensures Get(FieldsOf(m, d.spec), f) == Get(FieldsOf(m, e.spec), f)
        ensures f in Optional(KindApplication) ==> (f in FieldsOf(m, d.spec) <==> f in FieldsOf(m, e.spec))
      {
        SameChangesGet(m, d, e, f);
        if f in OPTIONAL_WHEN_UNSET && f in FieldsOf(m, d.spec) {
          EmptyStatementShows(m, d, e, f);
        }
        if f in OPTIONAL_WHEN_UNSET && f in FieldsOf(m, e.spec) {
          EmptyStatementShows(m, e, d, f);
        }
      }
    }
    if SameReading(Optional(KindApplication), FieldsOf(m, d.spec), FieldsOf(m, e.spec)) {
      ReadAlikeSameDiff(m, d, e);
    }
  }

  lemma ReadAlikeSameDiff(m: Models, d: Resource, e: Resource)
    requires d.kind == e.kind == KindApplication && d.spec.ApplicationOf? && e.spec.ApplicationOf?
    requires SameReading(Optional(KindApplication), FieldsOf(m, d.spec), FieldsOf(m, e.spec))
    ensures forall a :: Diff(m, a, d) == Diff(m, a, e)
  {
    hide FieldsOf, Diff, Optional;
    forall a
      ensures Diff(m, a, d) == Diff(m, a, e)
    {
      SameReadingSameDiff(m, a, d, e);
    }
  }

  lemma SameChangesSwap(m: Models, d: Resource, e: Resource)
    requires d.kind == e.kind && SameChanges(m, d, e)
    ensures SameChanges(m, e, d)
  {
    hide Diff;
    forall a | Stands(a, e)
      ensures Diff(m, a, e) == Diff(m, a, d)
    {
      assert Stands(a, d);
    }
  }

  /** And on their attributes: no edit outside these is ever planned, and every
      edit that changes one of these is planned against some live application. */
  lemma ApplicationChangesIff(m: Models, d: Resource, e: Resource)
    requires d.kind == e.kind == KindApplication && d.spec.ApplicationOf? && e.spec.ApplicationOf?
    ensures SameChanges(m, d, e) <==> ReadApplication(m, d.spec.application, e.spec.application)
  {
    hide FieldsOf, ApplicationFields, SameChanges, ReadApplication, SameReading, Optional;
    ApplicationFieldsAre(m, d);
    ApplicationFieldsAre(m, e);
    ApplicationChangesRead(m, d, e);
    ApplicationReads(m, d.spec.application, e.spec.application);
  }

  // ---- Unplanned edits -----------------------------------------------------------------

  /** The map with one more key of the empty value, or none. */
  ghost predicate AddsEmpty(a: map<string, string>, b: map<string, string>) {
    a.Keys <= b.Keys && forall k | k in b :: b[k] == if k in a then a[k] else ""
  }

  lemma AddedIsUnread(a: map<string, string>, b: map<string, string>)
    requires AddsEmpty(a, b)
    ensures ReadsAlike(a, b)
  {}

  /** `y` is `x` edited in its mounts, external label, reload policy, its ports'
      protocol, scheme or positive host port, or by adding variables, labels or
      build variables of the empty value. */
  ghost predicate UnreadEdit(x: ApplicationSpec, y: ApplicationSpec) {
    && y == x.(mounts := y.mounts, externalLabel := y.externalLabel, reloadPolicy := y.reloadPolicy, ports := y.ports,
               env := y.env, containerLabels := y.containerLabels, source := y.source)
    && SamePortFlags(x.ports, y.ports)
    && AddsEmpty(x.env, y.env) && (forall k | k in y.env && k !in x.env :: k !in x.secretEnv)
    && AddsEmpty(x.containerLabels, y.containerLabels)
    && (|| y.source == x.source
        || (x.source.Some? && y.source.Some? && AddsBuildVariables(x.source.value, y.source.value)))
  }

  ghost predicate AddsBuildVariables(x: SourceSpec, y: SourceSpec) {
    y == x.(buildEnv := y.buildEnv) && AddsEmpty(x.buildEnv, y.buildEnv)
  }

  /** Such an edit is never planned. */
  lemma UnreadIsUnplanned(m: Models, d: Resource, e: Resource)
    requires d.kind == e.kind == KindApplication && d.spec.ApplicationOf? && e.spec.ApplicationOf?
    requires UnreadEdit(d.spec.application, e.spec.application)
    ensures forall a :: Diff(m, a, d) == Diff(m, a, e)
  {
    hide FieldsOf, Diff, ApplicationFields, Optional, SameReading, UnreadEdit, ReadApplication;
    UnreadReadsTheSame(m, d.spec.application, e.spec.application);
    ApplicationReads(m, d.spec.application, e.spec.application);
    ApplicationFieldsAre(m, d);
    ApplicationFieldsAre(m, e);
    ReadAlikeSameDiff(m, d, e);
  }

  lemma UnreadReadsTheSame(m: Models, x: ApplicationSpec, y: ApplicationSpec)
    requires UnreadEdit(x, y)
    ensures ReadApplication(m, x, y)
  {
    FlagsAreSamePorts(x.ports, y.ports);
    AddedIsUnread(Unreserved(x.containerLabels), Unreserved(y.containerLabels));
    AddedIsUnread(Masked(x.env, x.secretEnv), Masked(y.env, y.secretEnv));
    if y.source != x.source {
      AddedIsUnread(x.source.value.buildEnv, y.source.value.buildEnv);
    }
    hide SamePorts, SamePortFlags, Pieces, Unreserved, Masked, AddsEmpty;
  }
}
