/** What the field diff means, and that an applied update leaves nothing to
    change. */
module Settling {
  import opened Diffs
  import opened Fields
  import opened Jobs
  import opened Overlay
  import opened Schema
  import opened Sorting
  import opened Text
  import opened Wrappers

  // ---- Exactness ------------------------------------------------------------

  /** For a generically compared kind the diff lists exactly the fields that
      differ, absent read as empty, outside those the manifest is silent on. */
  lemma DiffIsExact(m: Models, a: Resource, d: Resource, x: FieldDiff)
    requires Generic(d.kind)
    ensures var av, dv := FieldsOf(m, a.spec), FieldsOf(m, d.spec);
      x in Diff(m, a, d) <==>
        && !Exempt(d, dv, x.field)
        && Get(av, x.field) != Get(dv, x.field)
        && x.from == Get(av, x.field) && x.to == Get(dv, x.field)
  {
    hide FieldsOf;
    var av, dv := FieldsOf(m, a.spec), FieldsOf(m, d.spec);
    var ds := GenericDeltas(m, a, d);
    SilentHasNoEnv(m, d);
    assert x in Elements(Listed(ds)) <==> x in DiffSet(ds);
    assert x in DiffSet(ds) <==> x.field in ds && x == DiffOf(x.field, ds[x.field]);
  }

  /** A manifest silent about env states no env field. */
  lemma SilentHasNoEnv(m: Models, d: Resource)
    ensures forall f :: SilentEnv(d) && IsEnv(f) ==> f !in FieldsOf(m, d.spec)
  {}

  ghost predicate Agrees(m: Models, a: Resource, d: Resource) {
    var av, dv := FieldsOf(m, a.spec), FieldsOf(m, d.spec);
    forall f {:trigger Exempt(d, dv, f)} :: Exempt(d, dv, f) || Get(av, f) == Get(dv, f)
  }

  /** No change is planned exactly when every compared field agrees. */
  lemma EmptyDiffMeansAgreement(m: Models, a: Resource, d: Resource)
    requires Generic(d.kind)
    ensures Diff(m, a, d) == [] <==> Agrees(m, a, d)
  {
    hide FieldsOf;
    var av, dv, ds := FieldsOf(m, a.spec), FieldsOf(m, d.spec), GenericDeltas(m, a, d);
    SilentHasNoEnv(m, d);
    ListedEmpty(ds);
    assert ds == map[] <==> ds.Keys == {};
    forall f
      ensures f in ds <==> !Exempt(d, dv, f) && Get(av, f) != Get(dv, f)
    {
      assert f in dv ==> !Exempt(d, dv, f);
    }
    assert Diff(m, a, d) == Listed(ds);
    if ds.Keys != {} {
      var f :| f in ds;
      assert !Agrees(m, a, d) by {
        assert !Exempt(d, dv, f) && Get(av, f) != Get(dv, f);
      }
    } else {
      assert forall f :: Exempt(d, dv, f) || f !in ds;
    }
  }

  /** A resource differs from itself in nothing; a job, as long as the
      fingerprint it is stamped with is its own. */
  lemma DiffIsReflexive(m: Models, r: Resource)
    requires r.spec.JobOf? ==> r.spec.job.specFP in {"", Fingerprint(m, r.spec.job)}
    ensures Diff(m, r, r) == []
  {
    hide FieldsOf, GenericDeltas, ConfigDeltasOf, Fingerprint, Exempt;
    if Generic(r.kind) {
      EmptyDiffMeansAgreement(m, r, r);
      SameSpecAgrees(m, r, r);
    } else if r.kind == KindConfig && r.spec.ConfigOf? {
      SameConfigAgrees(r.spec.config, r.spec.config);
    }
  }

  lemma SameConfigAgrees(live: ConfigSpec, want: ConfigSpec)
    requires live.digestFP == want.digestFP && live.mode == want.mode && live.data == want.data
    ensures Listed(ConfigDeltasOf(live, want)) == []
  {
    assert ShownFiles(live, want) == map[];
    ListedEmpty(ConfigDeltasOf(live, want));
  }

  // ---- Updates settle --------------------------------------------------------

  /** No field of a laid-out section. */
  ghost predicate OutsideLaidSections(fields: FieldMap) {
    forall f | f in fields :: !(f.In? && f.section in {Placement, Deployment, Healthcheck})
  }

  /** Required groups equal and optional groups laid over. */
  lemma GroupsLay(head: FieldMap, stackOver: FieldMap, stackWant: FieldMap, security: FieldMap,
                  placeOver: FieldMap, placeWant: FieldMap, deployOver: FieldMap, deployWant: FieldMap,
                  healthOver: FieldMap, healthWant: FieldMap, tail: FieldMap)
    requires OutsideLaidSections(head + security) && Plain("stack") !in head
    requires stackOver.Keys <= {Plain("stack")} && Lays(stackOver, stackWant, {Plain("stack")})
    requires Lays(placeOver, placeWant, PLACEMENT) && InSection(placeOver, Placement)
    requires Lays(deployOver, deployWant, DEPLOYMENT) && InSection(deployOver, Deployment)
    requires Lays(healthOver, healthWant, HEALTHCHECK) && InSection(healthOver, Healthcheck)
    ensures Lays(head + stackOver + security + placeOver + deployOver + healthOver + tail,
                 head + stackWant + security + placeWant + deployWant + healthWant + tail,
                 OPTIONAL_WHEN_UNSET)
  {
    OptionalSections();
    var opt := OPTIONAL_WHEN_UNSET;
    LaysTogether(head, head, stackOver, stackWant, opt);
    var o1, w1 := head + stackOver, head + stackWant;
    LaysTogether(o1, w1, security, security, opt);
    var o2, w2 := o1 + security, w1 + security;
    assert OutsideLaidSections(w2);
    LaysTogether(o2, w2, placeOver, placeWant, opt);
    var o3, w3 := o2 + placeOver, w2 + placeWant;
    LaysTogether(o3, w3, deployOver, deployWant, opt);
    var o4, w4 := o3 + deployOver, w3 + deployWant;
    LaysTogether(o4, w4, healthOver, healthWant, opt);
    LaysTogether(o4 + healthOver, w4 + healthWant, tail, tail, opt);
  }

  ghost predicate OptionalGroupsLay(over: ApplicationSpec, d: ApplicationSpec) {
    && Lays(StackField(over.stack), StackField(d.stack), {Plain("stack")})
    && Lays(PlacementFields(over.Location(), over.Constraints()), PlacementFields(d.Location(), d.Constraints()),
            PLACEMENT)
    && InSection(PlacementFields(over.Location(), over.Constraints()), Placement)
    && Lays(DeploymentFields(over.deployment), DeploymentFields(d.deployment), DEPLOYMENT)
    && InSection(DeploymentFields(over.deployment), Deployment)
    && Lays(HealthFields(over.healthcheck), HealthFields(d.healthcheck), HEALTHCHECK)
    && InSection(HealthFields(over.healthcheck), Healthcheck)
  }

  ghost predicate SameRequiredGroups(m: Models, a: ApplicationSpec, d: ApplicationSpec) {
    && HeadFields(a) == HeadFields(d)
    && SecurityFields(m, a) == SecurityFields(m, d)
    && TailFields(m, a) == TailFields(m, d)
  }

  lemma OverApplicationLays(a: ApplicationSpec, d: ApplicationSpec)
    ensures OptionalGroupsLay(OverApplication(a, d), d)
  {
    PlacementLays(a, d);
    DeploymentLays(a.deployment, d.deployment);
    HealthLays(a.healthcheck, d.healthcheck);
  }

  lemma SameHead(a: ApplicationSpec, d: ApplicationSpec)
    requires a.source == d.source && a.image == d.image && a.tag == d.tag && a.digest == d.digest
    requires a.command == d.command && a.registry == d.registry
    ensures HeadFields(a) == HeadFields(d)
  {}

  lemma SameSecurity(m: Models, a: ApplicationSpec, d: ApplicationSpec)
    requires a.security == d.security
    ensures SecurityFields(m, a) == SecurityFields(m, d)
  {}

  lemma SameTail(m: Models, a: ApplicationSpec, d: ApplicationSpec)
    requires a.configFP == d.configFP && a.containerLabels == d.containerLabels && a.resources == d.resources
    requires a.env == d.env && a.secretEnv == d.secretEnv && a.ports == d.ports
    ensures TailFields(m, a) == TailFields(m, d)
  {}

  lemma RequiredGroups(m: Models, d: ApplicationSpec)
    ensures OutsideLaidSections(HeadFields(d) + SecurityFields(m, d)) && Plain("stack") !in HeadFields(d)
  {
    forall f | f in HeadFields(d)
      ensures !OptionalSection(f)
    {
      HeadIsNotOptional(d, f);
    }
    assert forall f | f in SecurityFields(m, d) :: f.In? && f.section == Security;
  }

  lemma GroupsSettle(m: Models, over: ApplicationSpec, d: ApplicationSpec)
    requires OptionalGroupsLay(over, d) && SameRequiredGroups(m, over, d)
    requires OutsideLaidSections(HeadFields(d) + SecurityFields(m, d)) && Plain("stack") !in HeadFields(d)
    ensures Lays(ApplicationFields(m, over), ApplicationFields(m, d), OPTIONAL_WHEN_UNSET)
  {
    ApplicationGroups(m, over);
    ApplicationGroups(m, d);
    GroupsLay(HeadFields(d), StackField(over.stack), StackField(d.stack), SecurityFields(m, d),
              PlacementFields(over.Location(), over.Constraints()), PlacementFields(d.Location(), d.Constraints()),
              DeploymentFields(over.deployment), DeploymentFields(d.deployment),
              HealthFields(over.healthcheck), HealthFields(d.healthcheck), TailFields(m, d));
  }

  lemma ApplicationSettles(m: Models, a: ApplicationSpec, d: ApplicationSpec)
    ensures Lays(ApplicationFields(m, OverApplication(a, d)), ApplicationFields(m, d), OPTIONAL_WHEN_UNSET)
  {
    var over := OverApplication(a, d);
    OverApplicationLays(a, d);
    SameHead(over, d);
    SameSecurity(m, over, d);
    SameTail(m, over, d);
    RequiredGroups(m, d);
    GroupsSettle(m, over, d);
  }

  /** The fields a silent manifest of kind `k` leaves alone. */
  function Optional(k: Kind): set<Field> {
    OPTIONAL_WHEN_UNSET + OptionalByKind(k)
  }

  lemma DatabaseSettles(m: Models, a: DatabaseSpec, d: DatabaseSpec)
    ensures Lays(DatabaseFields(m, OverDatabase(a, d)), DatabaseFields(m, d), Optional(KindDatabase))
  {
    hide DatabaseEntries, Optional, Stated, OverDatabase;
    var base, over, opt := EngineFields(d), DatabaseEntries(m, OverDatabase(a, d)), Optional(KindDatabase);
    DatabaseWithin(m, OverDatabase(a, d));
    StatedFieldsAreEntries(over, opt);
    DatabaseCovers(m, a, d);
    CoveringLays(over, DatabaseEntries(m, d), opt);
    EngineIsRequired(d);
    LaysTogether(base, base, Stated(over), Stated(DatabaseEntries(m, d)), opt);
    SameEngine(a, d);
  }

  lemma EngineIsRequired(d: DatabaseSpec)
    ensures EngineFields(d).Keys !! Optional(KindDatabase)
  {}

  lemma SameEngine(a: DatabaseSpec, d: DatabaseSpec)
    ensures EngineFields(OverDatabase(a, d)) == EngineFields(d)
  {}

  lemma DatabaseWithin(m: Models, d: DatabaseSpec)
    ensures EntriesWithin(DatabaseEntries(m, d), Optional(KindDatabase))
  {}

  lemma VolumeSettles(m: Models, a: VolumeSpec, d: VolumeSpec)
    ensures Lays(VolumeFields(m, OverVolume(a, d)), VolumeFields(m, d), Optional(KindVolume))
  {
    VolumeWithin(m, OverVolume(a, d));
    VolumeCovers(m, a, d);
    CoveringLays(VolumeEntries(m, OverVolume(a, d)), VolumeEntries(m, d), Optional(KindVolume));
  }

  lemma VolumeWithin(m: Models, v: VolumeSpec)
    ensures EntriesWithin(VolumeEntries(m, v), Optional(KindVolume))
  {}

  lemma CronJobSettles(m: Models, a: CronJobSpec, d: CronJobSpec)
    ensures Lays(CronJobFields(m, d.(suspended := PickOption(d.suspended, a.suspended))), CronJobFields(m, d),
                 Optional(KindCronJob))
  {
    hide RunFields, SuspendField, Optional;
    var over := d.(suspended := PickOption(d.suspended, a.suspended));
    SameRun(m, over, d);
    SuspendLays(over.suspended, d.suspended);
    SuspendIsOptional(m, d);
    LaysTogether(RunFields(m, d), RunFields(m, d), SuspendField(over.suspended), SuspendField(d.suspended),
                 Optional(KindCronJob));
  }

  lemma SameRun(m: Models, a: CronJobSpec, d: CronJobSpec)
    requires a == d.(suspended := a.suspended)
    ensures RunFields(m, a) == RunFields(m, d)
  {}

  lemma SuspendLays(over: Option<bool>, want: Option<bool>)
    requires want.Some? ==> over == want
    ensures Lays(SuspendField(over), SuspendField(want), Optional(KindCronJob))
    ensures SuspendField(over).Keys <= {Plain("suspend")}
  {
    assert Plain("suspend") in Optional(KindCronJob);
  }

  lemma SuspendIsOptional(m: Models, d: CronJobSpec)
    ensures Plain("suspend") !in RunFields(m, d)
  {}

  lemma LaysAgrees(m: Models, a: Resource, d: Resource)
    requires Lays(FieldsOf(m, a.spec), FieldsOf(m, d.spec), Optional(d.kind))
    ensures Agrees(m, a, d)
  {
    var av, dv := FieldsOf(m, a.spec), FieldsOf(m, d.spec);
    forall f
      ensures Exempt(d, dv, f) || Get(av, f) == Get(dv, f)
    {
      if f in av && f !in dv {
        assert f in Optional(d.kind);
      }
    }
  }

  /** A silent env is exempt as a whole; the rest of a stack is laid over. */
  lemma StackGroupsSettle(base: FieldMap, placeOver: FieldMap, placeWant: FieldMap,
                          envOver: FieldMap, envWant: FieldMap, silent: bool, f: Field)
    requires forall g | g in base :: g == Plain("description")
    requires Lays(placeOver, placeWant, PLACEMENT) && InSection(placeOver, Placement)
    requires InSection(envOver, Env) && InSection(envWant, Env)
    requires !silent ==> envOver == envWant
    ensures var av, dv := base + placeOver + envOver, base + placeWant + envWant;
      (f in PLACEMENT && f !in dv) || (silent && IsEnv(f)) || Get(av, f) == Get(dv, f)
  {}

  lemma LocationLays(over: string, want: string)
    requires want != "" ==> over == want
    ensures Lays(LocationField(over), LocationField(want), PLACEMENT)
    ensures InSection(LocationField(over), Placement)
  {}

  lemma StackSettles(a: StackSpec, d: StackSpec, f: Field)
    ensures || (f in PLACEMENT && f !in StackFields(d))
            || (d.env.None? && IsEnv(f))
            || Get(StackFields(OverStack(a, d)), f) == Get(StackFields(d), f)
  {
    hide LocationField, DescriptionField, Lays, InSection, Masked, Keyed, StackEnv;
    var over := OverStack(a, d);
    StackParts(a, d);
    DescriptionIsPlain(d.description);
    LocationLays(over.Location(), d.Location());
    StackEnvSection(over);
    StackEnvSection(d);
    StackGroupsSettle(DescriptionField(d.description), LocationField(over.Location()), LocationField(d.Location()),
                      StackEnv(over), StackEnv(d), d.env.None?, f);
  }

  lemma StackParts(a: StackSpec, d: StackSpec)
    ensures var over := OverStack(a, d);
      && over.description == d.description
      && (d.Location() != "" ==> over.Location() == d.Location())
      && (d.env.Some? ==> StackEnv(over) == StackEnv(d))
  {
    hide Masked;
  }

  lemma DescriptionIsPlain(description: string)
    ensures forall f | f in DescriptionField(description) :: f == Plain("description")
  {}

  lemma StackEnvSection(s: StackSpec)
    ensures InSection(StackEnv(s), Env)
  {
    hide Masked;
  }

  lemma StackAgrees(m: Models, a: Resource, d: Resource, live: StackSpec)
    requires d.spec.StackOf? && a.spec == StackOf(OverStack(live, d.spec.stack))
    ensures Agrees(m, a, d)
  {
    forall f
      ensures Exempt(d, FieldsOf(m, d.spec), f) || Get(FieldsOf(m, a.spec), f) == Get(FieldsOf(m, d.spec), f)
    {
      OptionalSections();
      StackSettles(live, d.spec.stack, f);
    }
  }

  lemma SameSpecAgrees(m: Models, a: Resource, d: Resource)
    requires a.spec == d.spec
    ensures Agrees(m, a, d)
  {
    hide FieldsOf, Exempt;
  }

  lemma ApplicationAgrees(m: Models, a: Resource, d: Resource, live: ApplicationSpec)
    requires d.spec.ApplicationOf? && a.spec == ApplicationOf(OverApplication(live, d.spec.application))
    ensures Agrees(m, a, d)
  {
    ApplicationSettles(m, live, d.spec.application);
    LaysAgrees(m, a, d);
  }

  lemma DatabaseAgrees(m: Models, a: Resource, d: Resource, live: DatabaseSpec)
    requires d.kind == KindDatabase && d.spec.DatabaseOf?
    requires a.spec == DatabaseOf(OverDatabase(live, d.spec.database))
    ensures Agrees(m, a, d)
  {
    DatabaseSettles(m, live, d.spec.database);
    LaysAgrees(m, a, d);
  }

  lemma VolumeAgrees(m: Models, a: Resource, d: Resource, live: VolumeSpec)
    requires d.kind == KindVolume && d.spec.VolumeOf? && a.spec == VolumeOf(OverVolume(live, d.spec.volume))
    ensures Agrees(m, a, d)
  {
    VolumeSettles(m, live, d.spec.volume);
    LaysAgrees(m, a, d);
  }

  lemma CronJobAgrees(m: Models, a: Resource, d: Resource, live: CronJobSpec)
    requires d.kind == KindCronJob && d.spec.CronJobOf?
    requires a.spec == CronJobOf(d.spec.cronJob.(suspended := PickOption(d.spec.cronJob.suspended, live.suspended)))
    ensures Agrees(m, a, d)
  {
    CronJobSettles(m, live, d.spec.cronJob);
    LaysAgrees(m, a, d);
  }

  lemma GenericUpdateAgrees(m: Models, a: Resource, d: Resource)
    requires Generic(d.kind) && WellTyped(d)
    ensures Agrees(m, Updated(m, a, d), d)
  {
    var after := Updated(m, a, d);
    if a.spec.ApplicationOf? && d.spec.ApplicationOf? {
      ApplicationAgrees(m, after, d, a.spec.application);
    } else if a.spec.StackOf? && d.spec.StackOf? {
      StackAgrees(m, after, d, a.spec.stack);
    } else if a.spec.DatabaseOf? && d.spec.DatabaseOf? {
      DatabaseAgrees(m, after, d, a.spec.database);
    } else if a.spec.VolumeOf? && d.spec.VolumeOf? {
      VolumeAgrees(m, after, d, a.spec.volume);
    } else if a.spec.CronJobOf? && d.spec.CronJobOf? {
      CronJobAgrees(m, after, d, a.spec.cronJob);
    } else {
      assert after.spec == d.spec;
      SameSpecAgrees(m, after, d);
    }
  }

  lemma RegistrySettles(m: Models, a: Resource, d: Resource)
    requires d.kind == KindRegistry
    ensures DiffRegistry(Updated(m, a, d), d) == []
  {}

  lemma MiddlewareSettles(m: Models, a: Resource, d: Resource)
    requires d.kind == KindMiddleware
    ensures DiffMiddleware(Updated(m, a, d), d) == []
  {}

  lemma JobSettles(m: Models, a: Resource, d: Resource)
    requires d.kind == KindJob
    ensures DiffJob(m, Updated(m, a, d), d) == []
  {
    hide Fingerprint, Itoa, HistoryOrDefault;
    if d.spec.JobOf? {
      StampIsNotRun(m, d.spec.job, Fingerprint(m, d.spec.job));
    }
  }

  /** The stored fingerprint is no part of what a job runs. */
  lemma StampIsNotRun(m: Models, j: JobSpec, fp: string)
    ensures Fingerprint(m, j.(specFP := fp)) == Fingerprint(m, j)
  {}

  lemma ConfigSettles(m: Models, a: Resource, d: Resource)
    requires d.kind == KindConfig
    ensures Diff(m, Updated(m, a, d), d) == []
  {
    if d.spec.ConfigOf? {
      assert Updated(m, a, d).spec == d.spec;
      SameConfigAgrees(d.spec.config, d.spec.config);
    }
  }

  lemma SealedSecretSettles(m: Models, a: Resource, d: Resource)
    requires d.kind == KindSealedSecret
    ensures DiffSealedSecret(Updated(m, a, d), d) == []
  {}

  /** Overlaying the stated fields on the live resource makes the diff empty,
      for every kind. */
  lemma UpdateSettles(m: Models, a: Resource, d: Resource)
    requires WellTyped(d)
    ensures Diff(m, Updated(m, a, d), d) == []
  {
    if Generic(d.kind) {
      GenericUpdateAgrees(m, a, d);
      EmptyDiffMeansAgreement(m, Updated(m, a, d), d);
    } else if d.kind == KindRegistry {
      RegistrySettles(m, a, d);
    } else if d.kind == KindMiddleware {
      MiddlewareSettles(m, a, d);
    } else if d.kind == KindJob {
      JobSettles(m, a, d);
    } else if d.kind == KindConfig {
      ConfigSettles(m, a, d);
    } else if d.kind == KindSealedSecret {
      SealedSecretSettles(m, a, d);
    }
  }

  lemma CreateSettles(m: Models, d: Resource)
    requires WellTyped(d)
    ensures Diff(m, Created(m, d), d) == []
  {
    hide FieldsOf, GenericDeltas, ConfigDeltasOf, Fingerprint, Exempt;
    if Generic(d.kind) {
      SameSpecAgrees(m, Created(m, d), d);
      EmptyDiffMeansAgreement(m, Created(m, d), d);
    } else if d.kind == KindConfig && d.spec.ConfigOf? {
      SameConfigAgrees(d.spec.config, d.spec.config);
    } else if d.spec.JobOf? {
      StampIsNotRun(m, d.spec.job, Fingerprint(m, d.spec.job));
    }
  }
}
