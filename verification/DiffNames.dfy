/** What a diff says, field by field: which attribute every field name stands for,
    when it is compared, and how its two values are printed. */
module DiffNames {
  import opened Diffs
  import opened Encodings
  import opened Fields
  import opened Groups
  import opened Jobs
  import opened Observed
  import opened Overlay
  import opened Readings
  import opened Schema
  import opened Settling
  import opened Sorting
  import opened Text
  import opened Wrappers

  /** The diff lists `f`, from one text to the other, exactly when it is compared
      and the two differ. */
  ghost predicate Shows(diff: seq<FieldDiff>, f: Field, compared: bool, from: string, to: string) {
    forall x: string, y: string :: FieldDiff(f, x, y) in diff <==> compared && x == from && y == to && x != y
  }

  /** How a section is spelled in front of a name. */
  lemma PathsAre(n: string)
    ensures Path(Plain(n)) == n && Path(In(Source, n)) == "source." + n
    ensures Path(In(BuildEnv, n)) == "source.buildEnv." + n && Path(In(Security, n)) == "security." + n
    ensures Path(In(Placement, n)) == "placement." + n && Path(In(Deployment, n)) == "deployment." + n
    ensures Path(In(Healthcheck, n)) == "healthcheck." + n && Path(In(ContainerLabels, n)) == "containerLabels." + n
    ensures Path(In(Resources, n)) == "resources." + n && Path(In(Env, n)) == "env." + n
    ensures Path(In(Port, n)) == "port." + n && Path(In(Storage, n)) == "storage." + n
    ensures Path(In(Maintenance, n)) == "maintenance." + n && Path(In(Data, n)) == "data." + n
  {}

  // ---- From field maps to diffs -------------------------------------------------

  /** The value a field map has for a field. */
  ghost predicate Reads(f: FieldMap, k: Field, value: string) {
    Get(f, k) == value
  }

  lemma FieldShows(m: Models, a: Resource, d: Resource, f: Field, compared: bool, from: string, to: string)
    requires Generic(d.kind) && Reads(FieldsOf(m, a.spec), f, from) && Reads(FieldsOf(m, d.spec), f, to)
    requires Exempt(d, FieldsOf(m, d.spec), f) <==> !compared
    ensures Shows(Diff(m, a, d), f, compared, from, to)
  {
    hide FieldsOf, Diff, Exempt, Generic;
    forall x: string, y: string
      ensures FieldDiff(f, x, y) in Diff(m, a, d) <==> compared && x == from && y == to && x != y
    {
      DiffIsExact(m, a, d, FieldDiff(f, x, y));
    }
  }

  /** A field that is always compared. */
  lemma AlwaysShows(m: Models, a: Resource, d: Resource, f: Field, from: string, to: string)
    requires Generic(d.kind) && Reads(FieldsOf(m, a.spec), f, from) && Reads(FieldsOf(m, d.spec), f, to)
    requires f !in Optional(d.kind) && !(SilentEnv(d) && IsEnv(f))
    ensures Shows(Diff(m, a, d), f, true, from, to)
  {
    hide FieldsOf, Diff, Generic, SilentEnv, OptionalByKind;
    FieldShows(m, a, d, f, true, from, to);
  }

  /** A field compared only when the manifest states it. */
  lemma StatedShows(m: Models, a: Resource, d: Resource, f: Field, stated: bool, from: string, to: string)
    requires Generic(d.kind) && Reads(FieldsOf(m, a.spec), f, from) && Reads(FieldsOf(m, d.spec), f, to)
    requires f in Optional(d.kind) && !IsEnv(f) && (f in FieldsOf(m, d.spec) <==> stated)
    ensures Shows(Diff(m, a, d), f, stated, from, to)
  {
    hide FieldsOf, Diff, Generic, OptionalByKind;
    FieldShows(m, a, d, f, stated, from, to);
  }

  /** Only a field of one side is ever listed. */
  lemma ListedIsField(m: Models, a: Resource, d: Resource, x: FieldDiff)
    requires Generic(d.kind) && x in Diff(m, a, d)
    ensures x.field in FieldsOf(m, a.spec) || x.field in FieldsOf(m, d.spec)
  {
    hide FieldsOf, Diff, Exempt, Generic;
    DiffIsExact(m, a, d, x);
  }

  /** The fields are listed by path. */
  lemma DiffOrder(m: Models, a: Resource, d: Resource, i: nat, j: nat)
    requires Generic(d.kind) || d.kind == KindConfig
    requires i < j < |Diff(m, a, d)|
    ensures !Less(Path(Diff(m, a, d)[j].field), Path(Diff(m, a, d)[i].field))
  {
    hide GenericDeltas, ConfigDeltas, Listed, Less, Path;
    LessIsStrictOrder();
    var diff := Diff(m, a, d);
    assert FieldLess(diff[i].field, diff[j].field);
  }

  lemma StatedReads(entries: seq<Entry>, i: nat)
    requires DistinctFields(entries) && i < |entries|
    ensures entries[i].field in Stated(entries) <==> entries[i].stated
    ensures Reads(Stated(entries), entries[i].field, if entries[i].stated then entries[i].value else "")
  {
    StatedAt(entries, i);
  }

  // ---- Volumes ----------------------------------------------------------------------

  /** A quantity as it is printed: in base units, and nothing when not stated. */
  function Amount(parse: string -> int, text: string): string {
    if text == "" then "" else Itoa(parse(text))
  }

  function PlaceOf(p: Option<PlacementSpec>): string {
    if p.Some? then p.value.location else ""
  }

  function DatabasePlaceOf(p: Option<DatabasePlacementSpec>): string {
    if p.Some? then p.value.location else ""
  }

  function AccountOf(s: Option<SecuritySpec>): string {
    if s.Some? then s.value.runAsUser else ""
  }

  lemma VolumeReads(m: Models, v: VolumeSpec)
    ensures var f := VolumeFields(m, v);
      && Reads(f, In(Placement, "location"), v.Location()) && (In(Placement, "location") in f <==> v.Location() != "")
      && Reads(f, In(Storage, "class"), TrimSpace(v.storageClass))
      && (In(Storage, "class") in f <==> TrimSpace(v.storageClass) != "")
      && Reads(f, Plain("size"), Amount(m.memoryBytes, v.size)) && (Plain("size") in f <==> v.size != "")
  {
    hide Stated, Itoa, TrimSpace;
    var es := VolumeEntries(m, v);
    StatedReads(es, 0);
    StatedReads(es, 1);
    StatedReads(es, 2);
  }

  lemma VolumeKeys(m: Models, v: VolumeSpec)
    ensures forall f | f in VolumeFields(m, v) :: f in {In(Placement, "location"), In(Storage, "class"), Plain("size")}
  {
    hide Stated, Itoa, TrimSpace;
    var keys := {In(Placement, "location"), In(Storage, "class"), Plain("size")};
    StatedFieldsAreEntries(VolumeEntries(m, v), keys);
  }

  lemma OptionalOfVolume()
    ensures var o := Optional(KindVolume);
      In(Placement, "location") in o && In(Storage, "class") in o && Plain("size") in o
  {}

  /** The diff of two volumes: location, storage class without its blanks, and
      size in bytes, each compared when stated. */
  lemma VolumeDiff(m: Models, a: Resource, d: Resource)
    requires d.kind == KindVolume && a.spec.VolumeOf? && d.spec.VolumeOf?
    ensures var diff, x, y := Diff(m, a, d), a.spec.volume, d.spec.volume;
      && Shows(diff, In(Placement, "location"), PlaceOf(y.placement) != "", PlaceOf(x.placement), PlaceOf(y.placement))
      && Shows(diff, In(Storage, "class"), TrimSpace(y.storageClass) != "", TrimSpace(x.storageClass),
        TrimSpace(y.storageClass))
      && Shows(diff, Plain("size"), y.size != "", Amount(m.memoryBytes, x.size), Amount(m.memoryBytes, y.size))
      && (forall z | z in diff :: z.field in {In(Placement, "location"), In(Storage, "class"), Plain("size")})
  {
    hide VolumeFields, Diff, Reads, Shows, TrimSpace, Amount, Optional;
    var x, y := a.spec.volume, d.spec.volume;
    VolumeReads(m, x);
    VolumeReads(m, y);
    OptionalOfVolume();
    StatedShows(m, a, d, In(Placement, "location"), y.Location() != "", x.Location(), y.Location());
    StatedShows(m, a, d, In(Storage, "class"), TrimSpace(y.storageClass) != "", TrimSpace(x.storageClass),
      TrimSpace(y.storageClass));
    StatedShows(m, a, d, Plain("size"), y.size != "", Amount(m.memoryBytes, x.size), Amount(m.memoryBytes, y.size));
    forall z | z in Diff(m, a, d)
      ensures z.field in {In(Placement, "location"), In(Storage, "class"), Plain("size")}
    {
      ListedIsField(m, a, d, z);
      VolumeKeys(m, x);
      VolumeKeys(m, y);
    }
  }

  // ---- Kinds whose fields are always compared --------------------------------------

  /** The fields that only an application, a database, a volume or a cron job can
      leave unstated. */
  lemma OptionalIs(k: Kind)
    ensures forall f | f in Optional(k) && f !in OptionalByKind(k) ::
      f == Plain("stack") || (f.In? && f.section in {Placement, Deployment, Healthcheck})
    ensures k in {KindRoute, KindDomain, KindGitRepository, KindGitSource, KindStack, KindApplication} ==>
      OptionalByKind(k) == {}
  {
    OptionalIsSection();
    hide OPTIONAL_WHEN_UNSET;
  }

  lemma OptionalIsSection()
    ensures forall f | f in OPTIONAL_WHEN_UNSET ::
      f == Plain("stack") || (f.In? && f.section in {Placement, Deployment, Healthcheck})
  {
    OptionalSections();
    hide OPTIONAL_WHEN_UNSET;
  }

  // ---- Routes ----------------------------------------------------------------

  /** No block reads as one that is off. */
  function MaintenanceOf(r: RouteSpec): RouteMaintenanceSpec {
    if r.maintenance.Some? then r.maintenance.value else RouteMaintenanceSpec(false, 0, "")
  }

  lemma RouteRead(m: Models, r: RouteSpec)
    ensures Reads(RouteFields(r), Plain("hosts"), Join(Sort(Less, r.hosts), ","))
    ensures Reads(RouteFields(r), Plain("app"), r.app)
    ensures Reads(RouteFields(r), Plain("path"), r.path)
    ensures Reads(RouteFields(r), Plain("tls"), r.tls)
    ensures Reads(RouteFields(r), Plain("certificate"), r.certificate)
  {
    hide Join, Sort, Itoa, FormatBool;
  }

  lemma RouteTextsRead(m: Models, r: RouteSpec)
    ensures Reads(RouteFields(r), Plain("tlsProvider"), r.tlsProvider)
    ensures Reads(RouteFields(r), Plain("port"), Itoa(r.port))
    ensures Reads(RouteFields(r), Plain("rewrite"), r.rewrite)
    ensures Reads(RouteFields(r), Plain("methods"), Join(Sort(Less, r.methods), ","))
    ensures Reads(RouteFields(r), Plain("advancedConfig"), r.advancedConfig)
  {
    hide Join, Sort, Itoa, FormatBool;
  }

  lemma RouteBlocksRead(m: Models, r: RouteSpec)
    ensures Reads(RouteFields(r), In(Security, "exploitProtection"), FormatBool(r.exploitProtection.GetOr(false)))
    ensures Reads(RouteFields(r), In(Maintenance, "enabled"), FormatBool(MaintenanceOf(r).enabled))
    ensures Reads(RouteFields(r), In(Maintenance, "statusCode"), Itoa(MaintenanceOf(r).statusCode))
    ensures Reads(RouteFields(r), In(Maintenance, "message"), MaintenanceOf(r).message)
    ensures Reads(RouteFields(r), Plain("middlewares"), Join(r.middlewares, ","))
  {
    hide Join, Sort, Itoa, FormatBool;
  }

  const ROUTE_KEYS: set<Field> := {
    Plain("hosts"), Plain("app"), Plain("path"), Plain("tls"), Plain("certificate"), Plain("tlsProvider"),
    Plain("port"), Plain("rewrite"), Plain("methods"), Plain("advancedConfig"), Plain("middlewares"),
    In(Security, "exploitProtection"), In(Maintenance, "enabled"), In(Maintenance, "statusCode"),
    In(Maintenance, "message")}

  lemma RouteKeys(m: Models, r: RouteSpec, f: Field)
    requires f in RouteFields(r)
    ensures f in ROUTE_KEYS
  {
    hide Join, Sort, Itoa, FormatBool;
  }

  /** The diff of two routes. */
  lemma RouteDiff(m: Models, a: Resource, d: Resource)
    requires d.kind == KindRoute && a.spec.RouteOf? && d.spec.RouteOf?
    ensures var diff, x, y := Diff(m, a, d), a.spec.route, d.spec.route;
      && Shows(diff, Plain("hosts"), true, Join(Sort(Less, x.hosts), ","), Join(Sort(Less, y.hosts), ","))
      && Shows(diff, Plain("app"), true, x.app, y.app)
      && Shows(diff, Plain("path"), true, x.path, y.path)
      && Shows(diff, Plain("tls"), true, x.tls, y.tls)
      && Shows(diff, Plain("certificate"), true, x.certificate, y.certificate)
      && Shows(diff, Plain("tlsProvider"), true, x.tlsProvider, y.tlsProvider)
      && Shows(diff, Plain("port"), true, Itoa(x.port), Itoa(y.port))
      && Shows(diff, Plain("rewrite"), true, x.rewrite, y.rewrite)
      && Shows(diff, Plain("methods"), true, Join(Sort(Less, x.methods), ","), Join(Sort(Less, y.methods), ","))
      && Shows(diff, Plain("advancedConfig"), true, x.advancedConfig, y.advancedConfig)
      && Shows(diff, In(Security, "exploitProtection"), true, FormatBool(x.exploitProtection.GetOr(false)),
        FormatBool(y.exploitProtection.GetOr(false)))
      && Shows(diff, In(Maintenance, "enabled"), true, FormatBool(MaintenanceOf(x).enabled),
        FormatBool(MaintenanceOf(y).enabled))
      && Shows(diff, In(Maintenance, "statusCode"), true, Itoa(MaintenanceOf(x).statusCode),
        Itoa(MaintenanceOf(y).statusCode))
      && Shows(diff, In(Maintenance, "message"), true, MaintenanceOf(x).message, MaintenanceOf(y).message)
      && Shows(diff, Plain("middlewares"), true, Join(x.middlewares, ","), Join(y.middlewares, ","))
      && (forall z | z in diff :: z.field in ROUTE_KEYS)
  {
    hide RouteFields, Diff, Reads, Shows, Optional, Join, Sort, Itoa, FormatBool;
    var x, y := a.spec.route, d.spec.route;
    RouteRead(m, x);
    RouteRead(m, y);
    RouteTextsRead(m, x);
    RouteTextsRead(m, y);
    RouteBlocksRead(m, x);
    RouteBlocksRead(m, y);
    OptionalIs(KindRoute);
    AlwaysShows(m, a, d, Plain("hosts"), Join(Sort(Less, x.hosts), ","), Join(Sort(Less, y.hosts), ","));
    AlwaysShows(m, a, d, Plain("app"), x.app, y.app);
    AlwaysShows(m, a, d, Plain("path"), x.path, y.path);
    AlwaysShows(m, a, d, Plain("tls"), x.tls, y.tls);
    AlwaysShows(m, a, d, Plain("certificate"), x.certificate, y.certificate);
    AlwaysShows(m, a, d, Plain("tlsProvider"), x.tlsProvider, y.tlsProvider);
    AlwaysShows(m, a, d, Plain("port"), Itoa(x.port), Itoa(y.port));
    AlwaysShows(m, a, d, Plain("rewrite"), x.rewrite, y.rewrite);
    AlwaysShows(m, a, d, Plain("methods"), Join(Sort(Less, x.methods), ","), Join(Sort(Less, y.methods), ","));
    AlwaysShows(m, a, d, Plain("advancedConfig"), x.advancedConfig, y.advancedConfig);
    AlwaysShows(m, a, d, In(Security, "exploitProtection"), FormatBool(x.exploitProtection.GetOr(false)),
      FormatBool(y.exploitProtection.GetOr(false)));
    AlwaysShows(m, a, d, In(Maintenance, "enabled"), FormatBool(MaintenanceOf(x).enabled),
      FormatBool(MaintenanceOf(y).enabled));
    AlwaysShows(m, a, d, In(Maintenance, "statusCode"), Itoa(MaintenanceOf(x).statusCode),
      Itoa(MaintenanceOf(y).statusCode));
    AlwaysShows(m, a, d, In(Maintenance, "message"), MaintenanceOf(x).message, MaintenanceOf(y).message);
    AlwaysShows(m, a, d, Plain("middlewares"), Join(x.middlewares, ","), Join(y.middlewares, ","));
    forall z | z in Diff(m, a, d)
      ensures z.field in ROUTE_KEYS
    {
      ListedIsField(m, a, d, z);
      if z.field in RouteFields(x) {
        RouteKeys(m, x, z.field);
      } else {
        RouteKeys(m, y, z.field);
      }
    }
  }

  // ---- Git repositories ------------------------------------------------------

  lemma GitRepositoryRead(m: Models, r: GitRepositorySpec)
    ensures Reads(GitRepositoryFields(r), Plain("url"), r.url)
    ensures Reads(GitRepositoryFields(r), Plain("auth"), r.auth)
    ensures Reads(GitRepositoryFields(r), Plain("username"), r.username)
    ensures Reads(GitRepositoryFields(r), Plain("secretRef"), r.secretRef)
  {
    hide Join;
  }

  lemma GitRepositoryKeys(m: Models, r: GitRepositorySpec, f: Field)
    requires f in GitRepositoryFields(r)
    ensures f in {Plain("url"), Plain("auth"), Plain("username"), Plain("secretRef")}
  {
    hide Join;
  }

  /** The diff of two git repositories. */
  lemma GitRepositoryDiff(m: Models, a: Resource, d: Resource)
    requires d.kind == KindGitRepository && a.spec.GitRepositoryOf? && d.spec.GitRepositoryOf?
    ensures var diff, x, y := Diff(m, a, d), a.spec.gitRepository, d.spec.gitRepository;
      && Shows(diff, Plain("url"), true, x.url, y.url)
      && Shows(diff, Plain("auth"), true, x.auth, y.auth)
      && Shows(diff, Plain("username"), true, x.username, y.username)
      && Shows(diff, Plain("secretRef"), true, x.secretRef, y.secretRef)
      && (forall z | z in diff :: z.field in {Plain("url"), Plain("auth"), Plain("username"), Plain("secretRef")})
  {
    hide GitRepositoryFields, Diff, Reads, Shows, Optional, Join;
    var x, y := a.spec.gitRepository, d.spec.gitRepository;
    GitRepositoryRead(m, x);
    GitRepositoryRead(m, y);
    OptionalIs(KindGitRepository);
    AlwaysShows(m, a, d, Plain("url"), x.url, y.url);
    AlwaysShows(m, a, d, Plain("auth"), x.auth, y.auth);
    AlwaysShows(m, a, d, Plain("username"), x.username, y.username);
    AlwaysShows(m, a, d, Plain("secretRef"), x.secretRef, y.secretRef);
    forall z | z in Diff(m, a, d)
      ensures z.field in {Plain("url"), Plain("auth"), Plain("username"), Plain("secretRef")}
    {
      ListedIsField(m, a, d, z);
      if z.field in GitRepositoryFields(x) {
        GitRepositoryKeys(m, x, z.field);
      } else {
        GitRepositoryKeys(m, y, z.field);
      }
    }
  }

  // ---- Git sources -----------------------------------------------------------

  lemma GitSourceRead(m: Models, r: GitSourceSpec)
    ensures Reads(GitSourceFields(r), Plain("repo"), r.repo)
    ensures Reads(GitSourceFields(r), Plain("repository"), r.repository)
    ensures Reads(GitSourceFields(r), Plain("ref"), r.ref)
    ensures Reads(GitSourceFields(r), Plain("path"), r.path)
    ensures Reads(GitSourceFields(r), Plain("syncPolicy"), r.syncPolicy)
    ensures Reads(GitSourceFields(r), Plain("prune"), FormatBool(r.prune))
    ensures Reads(GitSourceFields(r), Plain("selfHeal"), FormatBool(r.selfHeal))
    ensures Reads(GitSourceFields(r), Plain("allowEmpty"), FormatBool(r.allowEmpty))
    ensures Reads(GitSourceFields(r), Plain("requireSealedSecrets"), FormatBool(r.requireSealedSecrets))
    ensures Reads(GitSourceFields(r), Plain("deletePolicy"), r.deletePolicy)
  {
    hide FormatBool;
  }

  const GIT_SOURCE_KEYS: set<Field> := {
    Plain("repo"), Plain("repository"), Plain("ref"), Plain("path"), Plain("syncPolicy"), Plain("prune"),
    Plain("selfHeal"), Plain("allowEmpty"), Plain("requireSealedSecrets"), Plain("deletePolicy")}

  lemma GitSourceKeys(m: Models, r: GitSourceSpec, f: Field)
    requires f in GitSourceFields(r)
    ensures f in GIT_SOURCE_KEYS
  {
    hide FormatBool;
  }

  /** The diff of two git sources. */
  lemma GitSourceDiff(m: Models, a: Resource, d: Resource)
    requires d.kind == KindGitSource && a.spec.GitSourceOf? && d.spec.GitSourceOf?
    ensures var diff, x, y := Diff(m, a, d), a.spec.gitSource, d.spec.gitSource;
      && Shows(diff, Plain("repo"), true, x.repo, y.repo)
      && Shows(diff, Plain("repository"), true, x.repository, y.repository)
      && Shows(diff, Plain("ref"), true, x.ref, y.ref)
      && Shows(diff, Plain("path"), true, x.path, y.path)
      && Shows(diff, Plain("syncPolicy"), true, x.syncPolicy, y.syncPolicy)
      && Shows(diff, Plain("prune"), true, FormatBool(x.prune), FormatBool(y.prune))
      && Shows(diff, Plain("selfHeal"), true, FormatBool(x.selfHeal), FormatBool(y.selfHeal))
      && Shows(diff, Plain("allowEmpty"), true, FormatBool(x.allowEmpty), FormatBool(y.allowEmpty))
      && Shows(diff, Plain("requireSealedSecrets"), true, FormatBool(x.requireSealedSecrets),
        FormatBool(y.requireSealedSecrets))
      && Shows(diff, Plain("deletePolicy"), true, x.deletePolicy, y.deletePolicy)
      && (forall z | z in diff :: z.field in GIT_SOURCE_KEYS)
  {
    hide GitSourceFields, Diff, Reads, Shows, Optional, FormatBool;
    var x, y := a.spec.gitSource, d.spec.gitSource;
    GitSourceRead(m, x);
    GitSourceRead(m, y);
    OptionalIs(KindGitSource);
    AlwaysShows(m, a, d, Plain("repo"), x.repo, y.repo);
    AlwaysShows(m, a, d, Plain("repository"), x.repository, y.repository);
    AlwaysShows(m, a, d, Plain("ref"), x.ref, y.ref);
    AlwaysShows(m, a, d, Plain("path"), x.path, y.path);
    AlwaysShows(m, a, d, Plain("syncPolicy"), x.syncPolicy, y.syncPolicy);
    AlwaysShows(m, a, d, Plain("prune"), FormatBool(x.prune), FormatBool(y.prune));
    AlwaysShows(m, a, d, Plain("selfHeal"), FormatBool(x.selfHeal), FormatBool(y.selfHeal));
    AlwaysShows(m, a, d, Plain("allowEmpty"), FormatBool(x.allowEmpty), FormatBool(y.allowEmpty));
    AlwaysShows(m, a, d, Plain("requireSealedSecrets"), FormatBool(x.requireSealedSecrets),
      FormatBool(y.requireSealedSecrets));
    AlwaysShows(m, a, d, Plain("deletePolicy"), x.deletePolicy, y.deletePolicy);
    forall z | z in Diff(m, a, d)
      ensures z.field in GIT_SOURCE_KEYS
    {
      ListedIsField(m, a, d, z);
      if z.field in GitSourceFields(x) {
        GitSourceKeys(m, x, z.field);
      } else {
        GitSourceKeys(m, y, z.field);
      }
    }
  }

  // ---- Domains ---------------------------------------------------------------

  lemma DomainRead(m: Models, r: DomainSpec)
    ensures Reads(FieldsOf(m, DomainOf(r)), Plain("tls"), r.tls)
    ensures Reads(FieldsOf(m, DomainOf(r)), Plain("wildcard"), FormatBool(r.wildcard))
  {
    hide FormatBool;
  }

  lemma DomainKeys(m: Models, r: DomainSpec, f: Field)
    requires f in FieldsOf(m, DomainOf(r))
    ensures f in {Plain("tls"), Plain("wildcard")}
  {
    hide FormatBool;
  }

  /** The diff of two domains. */
  lemma DomainDiff(m: Models, a: Resource, d: Resource)
    requires d.kind == KindDomain && a.spec.DomainOf? && d.spec.DomainOf?
    ensures var diff, x, y := Diff(m, a, d), a.spec.domain, d.spec.domain;
      && Shows(diff, Plain("tls"), true, x.tls, y.tls)
      && Shows(diff, Plain("wildcard"), true, FormatBool(x.wildcard), FormatBool(y.wildcard))
      && (forall z | z in diff :: z.field in {Plain("tls"), Plain("wildcard")})
  {
    hide Stated, Diff, Reads, Shows, Optional, FormatBool;
    var x, y := a.spec.domain, d.spec.domain;
    DomainRead(m, x);
    DomainRead(m, y);
    OptionalIs(KindDomain);
    AlwaysShows(m, a, d, Plain("tls"), x.tls, y.tls);
    AlwaysShows(m, a, d, Plain("wildcard"), FormatBool(x.wildcard), FormatBool(y.wildcard));
    forall z | z in Diff(m, a, d)
      ensures z.field in {Plain("tls"), Plain("wildcard")}
    {
      ListedIsField(m, a, d, z);
      if z.field in FieldsOf(m, DomainOf(x)) {
        DomainKeys(m, x, z.field);
      } else {
        DomainKeys(m, y, z.field);
      }
    }
  }

  // ---- Databases ------------------------------------------------------------------------

  lemma DatabaseEntriesRead(m: Models, r: DatabaseSpec)
    ensures var f, z := Stated(DatabaseEntries(m, r)), SizesOf(r);
      && Reads(f, In(Placement, "location"), r.Location()) && (In(Placement, "location") in f <==> r.Location() != "")
      && Reads(f, Plain("readOnlyUser"), if r.readOnlyUser.Some? then FormatBool(r.readOnlyUser.value) else "")
      && (Plain("readOnlyUser") in f <==> r.readOnlyUser.Some?)
      && Reads(f, In(Resources, "memory"), Amount(m.memoryBytes, z.memory))
      && (In(Resources, "memory") in f <==> z.memory != "")
      && Reads(f, In(Resources, "cpu"), Amount(m.nanoCPUs, z.cpu)) && (In(Resources, "cpu") in f <==> z.cpu != "")
      && Reads(f, In(Resources, "size"), z.size) && (In(Resources, "size") in f <==> z.size != "")
  {
    hide Stated, Itoa, FormatBool;
    var es := DatabaseEntries(m, r);
    StatedReads(es, 0);
    StatedReads(es, 1);
    StatedReads(es, 2);
    StatedReads(es, 3);
    StatedReads(es, 4);
  }

  lemma JoinReads(base: FieldMap, stated: FieldMap, k: Field)
    requires k !in base
    ensures Get(base + stated, k) == Get(stated, k) && (k in base + stated <==> k in stated)
  {}

  lemma BaseReads(base: FieldMap, stated: FieldMap, k: Field)
    requires k in base && k !in stated
    ensures Get(base + stated, k) == base[k]
  {}

  const SILENT_KEYS: set<Field> := {
    In(Placement, "location"), Plain("readOnlyUser"), In(Resources, "memory"), In(Resources, "cpu"),
    In(Resources, "size")}

  lemma DatabaseRead(m: Models, r: DatabaseSpec, k: Field)
    requires k in SILENT_KEYS
    ensures Get(DatabaseFields(m, r), k) == Get(Stated(DatabaseEntries(m, r)), k)
    ensures k in DatabaseFields(m, r) <==> k in Stated(DatabaseEntries(m, r))
  {
    hide Stated, DatabaseEntries;
    JoinReads(EngineFields(r), Stated(DatabaseEntries(m, r)), k);
  }

  lemma EngineReads(m: Models, r: DatabaseSpec)
    ensures Reads(DatabaseFields(m, r), Plain("engine"), r.engine)
      && Reads(DatabaseFields(m, r), Plain("version"), r.version)
  {
    hide Stated, DatabaseEntries;
    DatabaseKeys(m, r);
    BaseReads(EngineFields(r), Stated(DatabaseEntries(m, r)), Plain("engine"));
    BaseReads(EngineFields(r), Stated(DatabaseEntries(m, r)), Plain("version"));
  }

  lemma DatabaseKeys(m: Models, r: DatabaseSpec)
    ensures forall f | f in Stated(DatabaseEntries(m, r)) :: f in SILENT_KEYS
  {
    hide Stated, Itoa, FormatBool;
    StatedFieldsAreEntries(DatabaseEntries(m, r), SILENT_KEYS);
  }

  lemma OptionalOfDatabase()
    ensures var o := Optional(KindDatabase);
      && In(Placement, "location") in o && Plain("readOnlyUser") in o && In(Resources, "memory") in o
      && In(Resources, "cpu") in o && In(Resources, "size") in o && Plain("engine") !in o && Plain("version") !in o
  {
    OptionalIs(KindDatabase);
  }

  const DATABASE_KEYS: set<Field> := {
    In(Placement, "location"), Plain("readOnlyUser"), In(Resources, "memory"), In(Resources, "cpu"),
    In(Resources, "size"), Plain("engine"), Plain("version")}

  lemma OnlyDatabase(m: Models, r: DatabaseSpec, f: Field)
    requires f in DatabaseFields(m, r)
    ensures f in DATABASE_KEYS
  {
    hide Stated, DatabaseEntries;
    DatabaseKeys(m, r);
  }

  /** The diff of two databases: engine and version always, the rest when stated. */
  lemma DatabaseDiff(m: Models, a: Resource, d: Resource)
    requires d.kind == KindDatabase && a.spec.DatabaseOf? && d.spec.DatabaseOf?
    ensures var diff, x, y := Diff(m, a, d), a.spec.database, d.spec.database;
      && Shows(diff, Plain("engine"), true, x.engine, y.engine)
      && Shows(diff, Plain("version"), true, x.version, y.version)
      && Shows(diff, In(Placement, "location"), DatabasePlaceOf(y.placement) != "", DatabasePlaceOf(x.placement),
        DatabasePlaceOf(y.placement))
      && Shows(diff, Plain("readOnlyUser"), y.readOnlyUser.Some?,
               if x.readOnlyUser.Some? then FormatBool(x.readOnlyUser.value) else "",
               if y.readOnlyUser.Some? then FormatBool(y.readOnlyUser.value) else "")
      && Shows(diff, In(Resources, "memory"), SizesOf(y).memory != "",
               Amount(m.memoryBytes, SizesOf(x).memory), Amount(m.memoryBytes, SizesOf(y).memory))
      && Shows(diff, In(Resources, "cpu"), SizesOf(y).cpu != "",
               Amount(m.nanoCPUs, SizesOf(x).cpu), Amount(m.nanoCPUs, SizesOf(y).cpu))
      && Shows(diff, In(Resources, "size"), SizesOf(y).size != "", SizesOf(x).size, SizesOf(y).size)
      && (forall z | z in diff :: z.field in DATABASE_KEYS)
  {
    hide DatabaseFields, Diff, Shows, Optional, Amount, FormatBool, Stated, DatabaseEntries, DATABASE_KEYS;
    var x, y := a.spec.database, d.spec.database;
    EngineReads(m, x);
    EngineReads(m, y);
    DatabaseEntriesRead(m, x);
    DatabaseEntriesRead(m, y);
    OptionalOfDatabase();
    AlwaysShows(m, a, d, Plain("engine"), x.engine, y.engine);
    AlwaysShows(m, a, d, Plain("version"), x.version, y.version);
    StatedDatabase(m, a, d, In(Placement, "location"));
    StatedDatabase(m, a, d, Plain("readOnlyUser"));
    StatedDatabase(m, a, d, In(Resources, "memory"));
    StatedDatabase(m, a, d, In(Resources, "cpu"));
    StatedDatabase(m, a, d, In(Resources, "size"));
    forall z | z in Diff(m, a, d)
      ensures z.field in DATABASE_KEYS
    {
      ListedIsField(m, a, d, z);
      if z.field in DatabaseFields(m, x) {
        OnlyDatabase(m, x, z.field);
      } else {
        OnlyDatabase(m, y, z.field);
      }
    }
  }

  lemma StatedDatabase(m: Models, a: Resource, d: Resource, k: Field)
    requires d.kind == KindDatabase && a.spec.DatabaseOf? && d.spec.DatabaseOf?
    requires k in SILENT_KEYS
    requires k in Optional(KindDatabase)
    ensures var f, g := Stated(DatabaseEntries(m, a.spec.database)), Stated(DatabaseEntries(m, d.spec.database));
      Shows(Diff(m, a, d), k, k in g, Get(f, k), Get(g, k))
  {
    hide DatabaseFields, Diff, Shows, Optional, Stated, DatabaseEntries;
    DatabaseRead(m, a.spec.database, k);
    DatabaseRead(m, d.spec.database, k);
    var f, g := Stated(DatabaseEntries(m, a.spec.database)), Stated(DatabaseEntries(m, d.spec.database));
    StatedShows(m, a, d, k, k in g, Get(f, k), Get(g, k));
  }

  // ---- Cron jobs --------------------------------------------------------------------------

  function PolicyOf(c: CronJobSpec): string {
    if c.concurrencyPolicy == "" then "allow" else c.concurrencyPolicy
  }

  function HistoryOf(c: CronJobSpec): int {
    if c.historyLimit <= 0 then 20 else c.historyLimit
  }

  const RUN_KEYS: set<Field> := {
    Plain("app"),
    Plain("schedule"),
    Plain("command"),
    Plain("entrypoint"),
    Plain("image"),
    Plain("registry"),
    Plain("timeoutSeconds"),
    Plain("concurrencyPolicy"),
    Plain("historyLimit"),
    In(Security, "runAsUser")}

  lemma RunRead(m: Models, r: CronJobSpec)
    ensures Reads(RunFields(m, r), Plain("app"), r.app)
    ensures Reads(RunFields(m, r), Plain("schedule"), TrimSpace(r.schedule))
    ensures Reads(RunFields(m, r), Plain("command"), ArgList(m.printable, r.command))
    ensures Reads(RunFields(m, r), Plain("entrypoint"), ArgList(m.printable, r.entrypoint))
    ensures Reads(RunFields(m, r), Plain("image"), TrimSpace(r.image))
    ensures Reads(RunFields(m, r), Plain("registry"), r.registry)
    ensures Reads(RunFields(m, r), Plain("timeoutSeconds"), Itoa(r.timeoutSeconds))
    ensures Reads(RunFields(m, r), Plain("concurrencyPolicy"), PolicyOf(r))
    ensures Reads(RunFields(m, r), Plain("historyLimit"), Itoa(HistoryOf(r)))
    ensures Reads(RunFields(m, r), In(Security, "runAsUser"), RunAsAccount(r.RunAsUser()))
  {
    hide ArgList, TrimSpace, Itoa, RunAsAccount;
  }

  lemma RunKeysAre(m: Models, r: CronJobSpec)
    ensures RunFields(m, r).Keys == RUN_KEYS
  {
    hide ArgList, TrimSpace, Itoa, RunAsAccount, HistoryOrDefault;
  }

  lemma SuspendIsApart()
    ensures Plain("suspend") !in RUN_KEYS && Plain("suspend") in Optional(KindCronJob)
    ensures forall f | f in RUN_KEYS :: f !in Optional(KindCronJob)
  {
    OptionalIs(KindCronJob);
  }

  lemma SuspendReads(suspended: Option<bool>)
    ensures Reads(SuspendField(suspended), Plain("suspend"),
                  if suspended.Some? then FormatBool(suspended.value) else "")
    ensures Plain("suspend") in SuspendField(suspended) <==> suspended.Some?
    ensures forall f | f in SuspendField(suspended) :: f == Plain("suspend")
  {
    hide FormatBool;
  }

  lemma CronJobRead(m: Models, r: CronJobSpec, k: Field)
    requires k in RUN_KEYS || k == Plain("suspend")
    ensures k in RUN_KEYS ==> Get(CronJobFields(m, r), k) == Get(RunFields(m, r), k)
    ensures k == Plain("suspend") ==> Get(CronJobFields(m, r), k) == Get(SuspendField(r.suspended), k)
    ensures k == Plain("suspend") ==> (k in CronJobFields(m, r) <==> k in SuspendField(r.suspended))
  {
    hide RunFields, RUN_KEYS, Optional;
    RunKeysAre(m, r);
    SuspendIsApart();
    SuspendReads(r.suspended);
    if k in RUN_KEYS {
      BaseReads(RunFields(m, r), SuspendField(r.suspended), k);
    } else {
      JoinReads(RunFields(m, r), SuspendField(r.suspended), k);
    }
  }

  lemma RunShows(m: Models, a: Resource, d: Resource, k: Field, from: string, to: string)
    requires d.kind == KindCronJob && a.spec.CronJobOf? && d.spec.CronJobOf? && k in RUN_KEYS
    requires Reads(RunFields(m, a.spec.cronJob), k, from) && Reads(RunFields(m, d.spec.cronJob), k, to)
    ensures Shows(Diff(m, a, d), k, true, from, to)
  {
    hide CronJobFields, RunFields, Diff, Shows, Optional, RUN_KEYS;
    SuspendIsApart();
    CronJobRead(m, a.spec.cronJob, k);
    CronJobRead(m, d.spec.cronJob, k);
    AlwaysShows(m, a, d, k, from, to);
  }

  /** The diff of two cron jobs. */
  lemma CronJobDiff(m: Models, a: Resource, d: Resource)
    requires d.kind == KindCronJob && a.spec.CronJobOf? && d.spec.CronJobOf?
    ensures var diff, x, y := Diff(m, a, d), a.spec.cronJob, d.spec.cronJob;
      && Shows(diff, Plain("app"), true, x.app, y.app)
      && Shows(diff, Plain("schedule"), true, TrimSpace(x.schedule), TrimSpace(y.schedule))
      && Shows(diff, Plain("command"), true, ArgList(m.printable, x.command), ArgList(m.printable, y.command))
      && Shows(diff, Plain("entrypoint"), true, ArgList(m.printable, x.entrypoint), ArgList(m.printable, y.entrypoint))
      && Shows(diff, Plain("image"), true, TrimSpace(x.image), TrimSpace(y.image))
      && Shows(diff, Plain("registry"), true, x.registry, y.registry)
      && Shows(diff, Plain("timeoutSeconds"), true, Itoa(x.timeoutSeconds), Itoa(y.timeoutSeconds))
      && Shows(diff, Plain("concurrencyPolicy"), true, PolicyOf(x), PolicyOf(y))
      && Shows(diff, Plain("historyLimit"), true, Itoa(HistoryOf(x)), Itoa(HistoryOf(y)))
      && Shows(diff, In(Security, "runAsUser"), true, RunAsAccount(AccountOf(x.security)),
        RunAsAccount(AccountOf(y.security)))
      && Shows(diff, Plain("suspend"), y.suspended.Some?,
               if x.suspended.Some? then FormatBool(x.suspended.value) else "",
               if y.suspended.Some? then FormatBool(y.suspended.value) else "")
      && (forall z | z in diff :: z.field in RUN_KEYS + {Plain("suspend")})
  {
    hide CronJobFields, RunFields, Diff, Reads, Shows, Optional, ArgList, TrimSpace, Itoa, RunAsAccount, FormatBool;
    var x, y := a.spec.cronJob, d.spec.cronJob;
    RunRead(m, x);
    RunRead(m, y);
    RunShows(m, a, d, Plain("app"), x.app, y.app);
    RunShows(m, a, d, Plain("schedule"), TrimSpace(x.schedule), TrimSpace(y.schedule));
    RunShows(m, a, d, Plain("command"), ArgList(m.printable, x.command), ArgList(m.printable, y.command));
    RunShows(m, a, d, Plain("entrypoint"), ArgList(m.printable, x.entrypoint), ArgList(m.printable, y.entrypoint));
    RunShows(m, a, d, Plain("image"), TrimSpace(x.image), TrimSpace(y.image));
    RunShows(m, a, d, Plain("registry"), x.registry, y.registry);
    RunShows(m, a, d, Plain("timeoutSeconds"), Itoa(x.timeoutSeconds), Itoa(y.timeoutSeconds));
    RunShows(m, a, d, Plain("concurrencyPolicy"), PolicyOf(x), PolicyOf(y));
    RunShows(m, a, d, Plain("historyLimit"), Itoa(HistoryOf(x)), Itoa(HistoryOf(y)));
    RunShows(m, a, d, In(Security, "runAsUser"), RunAsAccount(x.RunAsUser()), RunAsAccount(y.RunAsUser()));
    SuspendShows(m, a, d);
    forall z | z in Diff(m, a, d)
      ensures z.field in RUN_KEYS + {Plain("suspend")}
    {
      OnlyRunFields(m, a, d, z);
    }
  }

  lemma SuspendShows(m: Models, a: Resource, d: Resource)
    requires d.kind == KindCronJob && a.spec.CronJobOf? && d.spec.CronJobOf?
    ensures var x, y := a.spec.cronJob, d.spec.cronJob;
      Shows(Diff(m, a, d), Plain("suspend"), y.suspended.Some?,
            if x.suspended.Some? then FormatBool(x.suspended.value) else "",
            if y.suspended.Some? then FormatBool(y.suspended.value) else "")
  {
    hide CronJobFields, RunFields, Diff, Shows, Optional, FormatBool, SuspendField, RUN_KEYS;
    var x, y := a.spec.cronJob, d.spec.cronJob;
    SuspendIsApart();
    SuspendReads(x.suspended);
    SuspendReads(y.suspended);
    CronJobRead(m, x, Plain("suspend"));
    CronJobRead(m, y, Plain("suspend"));
    StatedShows(m, a, d, Plain("suspend"), y.suspended.Some?,
                if x.suspended.Some? then FormatBool(x.suspended.value) else "",
                if y.suspended.Some? then FormatBool(y.suspended.value) else "");
  }

  lemma OnlyRunFields(m: Models, a: Resource, d: Resource, z: FieldDiff)
    requires d.kind == KindCronJob && a.spec.CronJobOf? && d.spec.CronJobOf? && z in Diff(m, a, d)
    ensures z.field in RUN_KEYS + {Plain("suspend")}
  {
    hide RunFields, Diff, Optional, SuspendField, RUN_KEYS;
    var x, y := a.spec.cronJob, d.spec.cronJob;
    ListedIsField(m, a, d, z);
    RunKeysAre(m, x);
    RunKeysAre(m, y);
    SuspendReads(x.suspended);
    SuspendReads(y.suspended);
  }

  // ---- Stacks -----------------------------------------------------------------------------

  /** A variable as a plan shows it. */
  function ShownVariable(env: map<string, string>, secretEnv: seq<string>, k: string): string {
    if k !in env then "" else if k in secretEnv then "(secret)" else env[k]
  }

  lemma MaskedGet(env: map<string, string>, secretEnv: seq<string>, k: string)
    ensures Get(Masked(env, secretEnv), k) == ShownVariable(env, secretEnv, k)
  {}

  lemma StackRead(s: StackSpec, k: string)
    ensures var f := StackFields(s);
      && Reads(f, Plain("description"), s.description)
      && Reads(f, In(Placement, "location"), s.Location()) && (In(Placement, "location") in f <==> s.Location() != "")
      && Reads(f, In(Env, k), ShownVariable(s.env.GetOr(map[]), s.secretEnv, k))
  {
    hide Sum, Homed, Masked, Keyed, StackFields;
    StackIsSum(s);
    SumAt(StackGroups(s), StackHome, Plain("description"));
    SumAt(StackGroups(s), StackHome, In(Placement, "location"));
    SumAt(StackGroups(s), StackHome, In(Env, k));
    DescriptionAt(s.description);
    LocationAt(s.Location());
    KeyedGet(Env, Masked(s.env.GetOr(map[]), s.secretEnv), k);
    MaskedGet(s.env.GetOr(map[]), s.secretEnv, k);
    hide DescriptionField, LocationField, ShownVariable;
    assert StackGroups(s)[0] == DescriptionField(s.description) && StackGroups(s)[1] == LocationField(s.Location());
    assert StackGroups(s)[2] == Keyed(Env, Masked(s.env.GetOr(map[]), s.secretEnv));
  }

  lemma DescriptionAt(description: string)
    ensures Plain("description") in DescriptionField(description)
    ensures DescriptionField(description)[Plain("description")] == description
  {}

  lemma LocationAt(location: string)
    ensures In(Placement, "location") in LocationField(location) <==> location != ""
    ensures Get(LocationField(location), In(Placement, "location")) == location
  {}

  lemma OptionalOfStack()
    ensures var o := Optional(KindStack); In(Placement, "location") in o && Plain("description") !in o
    ensures forall k :: In(Env, k) !in Optional(KindStack)
  {
    OptionalIs(KindStack);
  }

  lemma OnlyStack(s: StackSpec, f: Field)
    requires f in StackFields(s)
    ensures f in {Plain("description"), In(Placement, "location")} || IsEnv(f)
  {
    hide Masked;
  }

  /** The diff of two stacks: a variable is compared unless the manifest states no
      environment, and shown unless it is secret. */
  lemma StackDiff(m: Models, a: Resource, d: Resource)
    requires d.kind == KindStack && a.spec.StackOf? && d.spec.StackOf?
    ensures var diff, x, y := Diff(m, a, d), a.spec.stack, d.spec.stack;
      && Shows(diff, Plain("description"), true, x.description, y.description)
      && Shows(diff, In(Placement, "location"), PlaceOf(y.placement) != "", PlaceOf(x.placement), PlaceOf(y.placement))
      && (forall k: string {:trigger In(Env, k)} :: Shows(diff, In(Env, k), y.env.Some?,
            ShownVariable(x.env.GetOr(map[]), x.secretEnv, k), ShownVariable(y.env.GetOr(map[]), y.secretEnv, k)))
      && (forall z | z in diff :: z.field in {Plain("description"), In(Placement, "location")} || IsEnv(z.field))
  {
    hide StackFields, Diff, Shows, Optional, ShownVariable;
    var x, y := a.spec.stack, d.spec.stack;
    OptionalOfStack();
    StackRead(x, "");
    StackRead(y, "");
    AlwaysShows(m, a, d, Plain("description"), x.description, y.description);
    StatedShows(m, a, d, In(Placement, "location"), y.Location() != "", x.Location(), y.Location());
    forall k: string {:trigger In(Env, k)}
      ensures Shows(Diff(m, a, d), In(Env, k), y.env.Some?,
                    ShownVariable(x.env.GetOr(map[]), x.secretEnv, k),
                      ShownVariable(y.env.GetOr(map[]), y.secretEnv, k))
    {
      StackRead(x, k);
      StackRead(y, k);
      FieldShows(m, a, d, In(Env, k), y.env.Some?,
                 ShownVariable(x.env.GetOr(map[]), x.secretEnv, k), ShownVariable(y.env.GetOr(map[]), y.secretEnv, k));
    }
    forall z | z in Diff(m, a, d)
      ensures z.field in {Plain("description"), In(Placement, "location")} || IsEnv(z.field)
    {
      ListedIsField(m, a, d, z);
      if z.field in StackFields(x) {
        OnlyStack(x, z.field);
      } else {
        OnlyStack(y, z.field);
      }
    }
  }
}
