/** The comparable fields of a resource, as the planner reads them. */
module Fields {
  import opened Jobs
  import opened Schema
  import opened Sorting
  import opened StringSorting
  import opened Text
  import opened Wrappers

  /** Functions of other packages the planner calls: capability and device
      normalisation, quantity parsing (zero on error), the SHA-256 digest, and
      which characters above ASCII are printed as themselves when quoted.
      Everything proved holds whatever they compute. */
  datatype Models = Models(
    capabilities: seq<string> -> Option<seq<string>>,
    dropCapabilities: seq<string> -> Option<seq<string>>,
    devices: seq<string> -> Option<seq<string>>,
    memoryBytes: string -> int,
    nanoCPUs: string -> int,
    digest: string -> string,
    printable: char -> bool)

  // ---- Field names --------------------------------------------------------

  datatype Section =
    | Source | BuildEnv | Security | Placement | Deployment | Healthcheck
    | ContainerLabels | Resources | Env | Port | Storage | Maintenance | Data

  /** A key of the source's field maps: a plain name, or `section.name`. */
  datatype Field = Plain(name: string) | In(section: Section, name: string)

  function SectionName(s: Section): string {
    match s
    case Source => "source"
    case BuildEnv => "source.buildEnv"
    case Security => "security"
    case Placement => "placement"
    case Deployment => "deployment"
    case Healthcheck => "healthcheck"
    case ContainerLabels => "containerLabels"
    case Resources => "resources"
    case Env => "env"
    case Port => "port"
    case Storage => "storage"
    case Maintenance => "maintenance"
    case Data => "data"
  }

  function Rank(f: Field): nat {
    match f
    case Plain(_) => 0
    case In(s, _) =>
      match s
      case Source => 1 case BuildEnv => 2 case Security => 3 case Placement => 4
      case Deployment => 5 case Healthcheck => 6 case ContainerLabels => 7
      case Resources => 8 case Env => 9 case Port => 10 case Storage => 11
      case Maintenance => 12 case Data => 13
  }

  function Path(f: Field): string {
    match f
    case Plain(n) => n
    case In(s, n) => SectionName(s) + "." + n
  }

  /** Fields sort by path. No two fields of one resource share a path, since
      no plain name has a dot; the rank only makes the order total on its face. */
  predicate FieldLess(f: Field, g: Field) {
    Less(Path(f), Path(g)) || (Path(f) == Path(g) && Rank(f) < Rank(g))
  }

  lemma FieldsAreOrdered(s: set<Field>)
    ensures StrictTotalOn(FieldLess, s)
  {
    LessIsStrictOrder();
    forall f, g | f != g && Path(f) == Path(g)
      ensures Rank(f) != Rank(g)
    {
      if f.In? && g.In? && f.section == g.section {
        PrefixInjective(SectionName(f.section) + ".", f.name, g.name);
      }
    }
  }

  type FieldMap = map<Field, string>

  /** Reading a Go map: an absent key is the empty string. */
  function Get<K>(f: map<K, string>, k: K): string {
    if k in f then f[k] else ""
  }

  // ---- Building blocks --------------------------------------------------

  function Keyed<V>(section: Section, m: map<string, V>): (f: map<Field, V>)
    ensures forall k {:trigger k in f} :: k in f <==> k.In? && k.section == section && k.name in m
    ensures forall k | k in f :: f[k] == m[k.name]
  {
    map k | k in m :: In(section, k) := m[k]
  }

  function StatedIf(stated: bool, k: Field, v: string): FieldMap {
    if stated then map[k := v] else map[]
  }

  /** One optional field: whether it is stated, and its value if so. */
  datatype Entry = Entry(stated: bool, field: Field, value: string)

  /** The stated entries, a later one overriding an earlier one. */
  function Stated(entries: seq<Entry>): FieldMap {
    if entries == [] then map[]
    else
      var e := entries[|entries| - 1];
      Stated(entries[..|entries| - 1]) + StatedIf(e.stated, e.field, e.value)
  }

  /** Environment values, with those named in secretEnv hidden. */
  function Masked(env: map<string, string>, secretEnv: seq<string>): map<string, string> {
    map k | k in env :: if k in secretEnv then "(secret)" else env[k]
  }

  predicate ReservedLabel(k: string) {
    HasPrefix(k, "io.miabi.") || HasPrefix(k, "com.docker.")
  }

  function Unreserved(labels: map<string, string>): map<string, string> {
    map k | k in labels && !ReservedLabel(k) :: labels[k]
  }

  function NormalizedList(given: seq<string>, normalize: seq<string> -> Option<seq<string>>): string {
    Join(normalize(given).GetOr(given), ",")
  }

  function PortField(p: PortSpec): FieldMap {
    StatedIf(p.externalAccess, In(Port, Itoa(p.container) + ".external"), "true")
    + StatedIf(p.publish || p.hostPort > 0, In(Port, Itoa(p.container) + ".published"), "true")
  }

  function PortFields(ports: seq<PortSpec>): FieldMap {
    if ports == [] then map[] else PortFields(ports[..|ports| - 1]) + PortField(ports[|ports| - 1])
  }

  // ---- Application -------------------------------------------------------

  function SourceScalars(src: SourceSpec): FieldMap {
    map[In(Source, "git") := src.git,
        In(Source, "ref") := src.ref,
        In(Source, "buildMethod") := src.buildMethod,
        In(Source, "builder") := src.builder,
        In(Source, "buildpacks") := Join(src.buildpacks, ","),
        In(Source, "repository") := src.repository]
  }

  function SourceFields(source: Option<SourceSpec>): FieldMap {
    if source.None? then map[]
    else SourceScalars(source.value) + Keyed(BuildEnv, source.value.buildEnv)
  }

  function SecurityFields(m: Models, a: ApplicationSpec): FieldMap {
    map[In(Security, "runAsUser") := a.RunAsUser(),
        In(Security, "readOnlyRootFilesystem") := FormatBool(a.ReadOnlyRootFilesystem()),
        In(Security, "noNewPrivileges") := FormatBool(a.NoNewPrivileges()),
        In(Security, "capabilities.add") := NormalizedList(a.AddCapabilities().GetOr([]), m.capabilities),
        In(Security, "capabilities.drop") := NormalizedList(a.DropCapabilities(), m.dropCapabilities),
        In(Security, "devices") := NormalizedList(a.Devices(), m.devices)]
  }

  function PlacementEntries(location: string, constraints: Option<seq<string>>): seq<Entry> {
    [Entry(location != "", In(Placement, "location"), location),
     Entry(constraints.Some?, In(Placement, "constraints"), Join(constraints.GetOr([]), ","))]
  }

  function DeploymentEntries(d: DeploymentSpec): seq<Entry> {
    var u := d.update.GetOr(UpdateSpec(0, 0));
    [Entry(d.strategy != "", In(Deployment, "strategy"), d.strategy),
     Entry(d.runtime != "", In(Deployment, "runtime"), d.runtime),
     Entry(d.replicas > 0, In(Deployment, "replicas"), Itoa(d.replicas)),
     Entry(d.update.Some?, In(Deployment, "update.parallelism"), Itoa(u.parallelism)),
     Entry(d.update.Some?, In(Deployment, "update.delaySeconds"), Itoa(u.delaySeconds))]
  }

  function HealthEntries(hc: HealthcheckSpec): seq<Entry> {
    [Entry(true, In(Healthcheck, "type"), hc.kind),
     Entry(hc.path != "", In(Healthcheck, "path"), hc.path),
     Entry(hc.port > 0, In(Healthcheck, "port"), Itoa(hc.port)),
     Entry(hc.command != "", In(Healthcheck, "command"), hc.command),
     Entry(hc.intervalSeconds > 0, In(Healthcheck, "intervalSeconds"), Itoa(hc.intervalSeconds)),
     Entry(hc.timeoutSeconds > 0, In(Healthcheck, "timeoutSeconds"), Itoa(hc.timeoutSeconds)),
     Entry(hc.retries > 0, In(Healthcheck, "retries"), Itoa(hc.retries)),
     Entry(hc.startPeriodSeconds > 0, In(Healthcheck, "startPeriodSeconds"), Itoa(hc.startPeriodSeconds))]
  }

  function PlacementFields(location: string, constraints: Option<seq<string>>): FieldMap {
    Stated(PlacementEntries(location, constraints))
  }

  function DeploymentFields(d: Option<DeploymentSpec>): FieldMap {
    if d.None? then map[] else Stated(DeploymentEntries(d.value))
  }

  function HealthFields(hc: Option<HealthcheckSpec>): FieldMap {
    if hc.None? then map[] else Stated(HealthEntries(hc.value))
  }

  function ResourceFields(m: Models, resources: Option<ResourceSpec>): FieldMap {
    if resources.None? then map[]
    else
      var r := resources.value;
      StatedIf(m.memoryBytes(r.memory) != 0, In(Resources, "memory"), Itoa(m.memoryBytes(r.memory)))
      + StatedIf(m.nanoCPUs(r.cpu) != 0, In(Resources, "cpu"), Itoa(m.nanoCPUs(r.cpu)))
      + StatedIf(r.gpu != 0, In(Resources, "gpu"), Itoa(r.gpu))
      + StatedIf(r.gpuKind != "", In(Resources, "gpuKind"), r.gpuKind)
  }

  function ApplicationFields(m: Models, a: ApplicationSpec): FieldMap {
    map[Plain("image") := a.image, Plain("tag") := a.tag, Plain("digest") := a.digest]
    + SourceFields(a.source)
    + map[Plain("command") := Join(a.command, " "), Plain("registry") := a.registry]
    + StatedIf(a.stack != "", Plain("stack"), a.stack)
    + SecurityFields(m, a)
    + PlacementFields(a.Location(), a.Constraints())
    + DeploymentFields(a.deployment)
    + HealthFields(a.healthcheck)
    + StatedIf(a.configFP != "", Plain("configFP"), a.configFP)
    + Keyed(ContainerLabels, Unreserved(a.containerLabels))
    + ResourceFields(m, a.resources)
    + Keyed(Env, Masked(a.env, a.secretEnv))
    + PortFields(a.ports)
  }

  // ---- The other kinds ---------------------------------------------------

  function DatabaseEntries(m: Models, d: DatabaseSpec): seq<Entry> {
    var res := d.resources.GetOr(DatabaseResourcesSpec("", "", ""));
    [Entry(d.Location() != "", In(Placement, "location"), d.Location()),
     Entry(d.readOnlyUser.Some?, Plain("readOnlyUser"), FormatBool(d.readOnlyUser.GetOr(false))),
     Entry(res.memory != "", In(Resources, "memory"), Itoa(m.memoryBytes(res.memory))),
     Entry(res.cpu != "", In(Resources, "cpu"), Itoa(m.nanoCPUs(res.cpu))),
     Entry(res.size != "", In(Resources, "size"), res.size)]
  }

  function EngineFields(d: DatabaseSpec): FieldMap {
    map[Plain("engine") := d.engine, Plain("version") := d.version]
  }

  function DatabaseFields(m: Models, d: DatabaseSpec): FieldMap {
    EngineFields(d) + Stated(DatabaseEntries(m, d))
  }

  function VolumeEntries(m: Models, v: VolumeSpec): seq<Entry> {
    [Entry(v.Location() != "", In(Placement, "location"), v.Location()),
     Entry(TrimSpace(v.storageClass) != "", In(Storage, "class"), TrimSpace(v.storageClass)),
     Entry(v.size != "", Plain("size"), Itoa(m.memoryBytes(v.size)))]
  }

  function VolumeFields(m: Models, v: VolumeSpec): FieldMap {
    Stated(VolumeEntries(m, v))
  }

  function RouteFields(r: RouteSpec): FieldMap {
    var mt := r.maintenance.GetOr(RouteMaintenanceSpec(false, 0, ""));
    map[Plain("hosts") := Join(Sort(Less, r.hosts), ","),
        Plain("app") := r.app,
        Plain("path") := r.path,
        Plain("tls") := r.tls,
        Plain("certificate") := r.certificate,
        Plain("tlsProvider") := r.tlsProvider,
        Plain("port") := Itoa(r.port),
        Plain("rewrite") := r.rewrite,
        Plain("methods") := Join(Sort(Less, r.methods), ","),
        Plain("advancedConfig") := r.advancedConfig,
        In(Security, "exploitProtection") := FormatBool(r.exploitProtection.GetOr(false)),
        In(Maintenance, "enabled") := FormatBool(mt.enabled),
        In(Maintenance, "statusCode") := Itoa(mt.statusCode),
        In(Maintenance, "message") := mt.message,
        Plain("middlewares") := Join(r.middlewares, ",")]
  }

  function DescriptionField(description: string): FieldMap {
    map[Plain("description") := description]
  }

  function LocationField(location: string): FieldMap {
    StatedIf(location != "", In(Placement, "location"), location)
  }

  function StackEnv(s: StackSpec): FieldMap {
    Keyed(Env, Masked(s.env.GetOr(map[]), s.secretEnv))
  }

  function StackFields(s: StackSpec): FieldMap {
    DescriptionField(s.description) + LocationField(s.Location()) + StackEnv(s)
  }

  function RunFields(m: Models, c: CronJobSpec): FieldMap {
    map[Plain("app") := c.app,
        Plain("schedule") := TrimSpace(c.schedule),
        Plain("command") := ArgList(m.printable, c.command),
        Plain("entrypoint") := ArgList(m.printable, c.entrypoint),
        Plain("image") := TrimSpace(c.image),
        Plain("registry") := c.registry,
        Plain("timeoutSeconds") := Itoa(c.timeoutSeconds),
        Plain("concurrencyPolicy") := if c.concurrencyPolicy == "" then "allow" else c.concurrencyPolicy,
        Plain("historyLimit") := Itoa(HistoryOrDefault(c.historyLimit)),
        In(Security, "runAsUser") := RunAsAccount(c.RunAsUser())]
  }

  function SuspendField(suspended: Option<bool>): FieldMap {
    StatedIf(suspended.Some?, Plain("suspend"), FormatBool(suspended.GetOr(false)))
  }

  function CronJobFields(m: Models, c: CronJobSpec): FieldMap {
    RunFields(m, c) + SuspendField(c.suspended)
  }

  function GitRepositoryFields(g: GitRepositorySpec): FieldMap {
    map[Plain("url") := g.url, Plain("auth") := g.auth, Plain("username") := g.username,
        Plain("secretRef") := g.secretRef]
  }

  function GitSourceFields(g: GitSourceSpec): FieldMap {
    map[Plain("repo") := g.repo,
        Plain("repository") := g.repository,
        Plain("ref") := g.ref,
        Plain("path") := g.path,
        Plain("syncPolicy") := g.syncPolicy,
        Plain("prune") := FormatBool(g.prune),
        Plain("selfHeal") := FormatBool(g.selfHeal),
        Plain("allowEmpty") := FormatBool(g.allowEmpty),
        Plain("requireSealedSecrets") := FormatBool(g.requireSealedSecrets),
        Plain("deletePolicy") := g.deletePolicy]
  }

  /** The kinds whose fields are a fixed record of their spec. */
  function RecordFields(m: Models, spec: Spec): FieldMap {
    match spec
    case DatabaseOf(d) => DatabaseFields(m, d)
    case VolumeOf(v) => VolumeFields(m, v)
    case RouteOf(r) => RouteFields(r)
    case DomainOf(d) => map[Plain("tls") := d.tls, Plain("wildcard") := FormatBool(d.wildcard)]
    case CronJobOf(c) => CronJobFields(m, c)
    case GitRepositoryOf(g) => GitRepositoryFields(g)
    case GitSourceOf(g) => GitSourceFields(g)
    case _ => map[]
  }

  function FieldsOf(m: Models, spec: Spec): FieldMap {
    match spec
    case ApplicationOf(a) => ApplicationFields(m, a)
    case StackOf(s) => StackFields(s)
    case _ => RecordFields(m, spec)
  }

  // ---- The imperative builder --------------------------------------------

  lemma PlusAssociates<K, V>(a: map<K, V>, b: map<K, V>, c: map<K, V>)
    ensures a + (b + c) == a + b + c
  {}

  ghost function Restricted<V>(m: map<string, V>, keys: set<string>): map<string, V> {
    map k | k in m && k in keys :: m[k]
  }

  lemma KeyedNone(f: FieldMap, section: Section, m: map<string, string>)
    ensures f + Keyed(section, Restricted(m, {})) == f
  {}

  lemma KeyedStep(f: FieldMap, section: Section, m: map<string, string>, seen: set<string>, k: string)
    requires k in m
    ensures f + Keyed(section, Restricted(m, seen + {k}))
         == (f + Keyed(section, Restricted(m, seen)))[In(section, k) := m[k]]
  {
    hide Keyed;
    var before, after := Keyed(section, Restricted(m, seen)), Keyed(section, Restricted(m, seen + {k}));
    forall x
      ensures x in after <==> x == In(section, k) || x in before
      ensures x in after ==> after[x] == if x == In(section, k) then m[k] else before[x]
    {}
  }

  /** Copies `m` into a section of `f`, one key at a time in any order. */
  method PutKeyed(f: FieldMap, section: Section, m: map<string, string>) returns (out: FieldMap)
    ensures out == f + Keyed(section, m)
  {
    KeyedNone(f, section, m);
    out := f;
    var todo := m.Keys;
    ghost var seen: set<string> := {};
    while todo != {}
      invariant seen + todo == m.Keys
      invariant out == f + Keyed(section, Restricted(m, seen))
      decreases todo
    {
      var k :| k in todo;
      KeyedStep(f, section, m, seen, k);
      out := out[In(section, k) := m[k]];
      todo, seen := todo - {k}, seen + {k};
    }
    assert Restricted(m, seen) == m;
  }

  /** Copies an environment into `f`, hiding the values secretEnv names. */
  method PutEnv(f: FieldMap, env: map<string, string>, secretEnv: seq<string>) returns (out: FieldMap)
    ensures out == f + Keyed(Env, Masked(env, secretEnv))
  {
    var secret := set k | k in secretEnv;
    var shown := map k | k in env :: if k in secret then "(secret)" else env[k];
    assert shown == Masked(env, secretEnv);
    out := PutKeyed(f, Env, shown);
  }

  method PutPorts(f: FieldMap, ports: seq<PortSpec>) returns (out: FieldMap)
    ensures out == f + PortFields(ports)
  {
    out := f;
    for i := 0 to |ports|
      invariant out == f + PortFields(ports[..i])
    {
      assert ports[..i + 1][..i] == ports[..i];
      PlusAssociates(f, PortFields(ports[..i]), PortField(ports[i]));
      out := out + PortField(ports[i]);
    }
    assert ports[..|ports|] == ports;
  }

  method PutSource(f: FieldMap, source: Option<SourceSpec>) returns (out: FieldMap)
    ensures out == f + SourceFields(source)
  {
    out := f;
    if source.Some? {
      var src := source.value;
      PlusAssociates(f, SourceScalars(src), Keyed(BuildEnv, src.buildEnv));
      out := PutKeyed(f + SourceScalars(src), BuildEnv, src.buildEnv);
    }
  }

  method PutApplication(m: Models, a: ApplicationSpec) returns (f: FieldMap)
    ensures f == ApplicationFields(m, a)
  {
    f := map[Plain("image") := a.image, Plain("tag") := a.tag, Plain("digest") := a.digest];
    f := PutSource(f, a.source);
    f := f + map[Plain("command") := Join(a.command, " "), Plain("registry") := a.registry];
    f := f + StatedIf(a.stack != "", Plain("stack"), a.stack);
    f := f + SecurityFields(m, a);
    f := f + PlacementFields(a.Location(), a.Constraints());
    f := f + DeploymentFields(a.deployment);
    f := f + HealthFields(a.healthcheck);
    f := f + StatedIf(a.configFP != "", Plain("configFP"), a.configFP);
    f := PutKeyed(f, ContainerLabels, Unreserved(a.containerLabels));
    f := f + ResourceFields(m, a.resources);
    f := PutEnv(f, a.env, a.secretEnv);
    f := PutPorts(f, a.ports);
  }

  method PutStack(s: StackSpec) returns (f: FieldMap)
    ensures f == StackFields(s)
  {
    f := DescriptionField(s.description);
    f := f + LocationField(s.Location());
    f := PutEnv(f, s.env.GetOr(map[]), s.secretEnv);
  }

  method SpecFields(m: Models, r: Resource) returns (f: FieldMap)
    ensures f == FieldsOf(m, r.spec)
  {
    match r.spec {
      case ApplicationOf(a) => f := PutApplication(m, a);
      case StackOf(s) => f := PutStack(s);
      case _ => f := RecordFields(m, r.spec);
    }
  }
}
