/** What the generic comparison can see of an application: the attributes that
    decide its field map, and edits that call for no change. */
module ObservedApplications {
  import opened Encodings
  import opened Fields
  import opened Groups
  import opened Jobs
  import opened Observed
  import opened Overlay
  import opened Schema
  import opened Text
  import opened Wrappers

  // ---- The attributes compared -----------------------------------------------

  /** A build source; its buildpacks are told apart at their commas. */
  predicate SameSource(x: Option<SourceSpec>, y: Option<SourceSpec>) {
    x.Some? == y.Some? && (x.Some? ==> SameBuild(x.value, y.value))
  }

  predicate SameBuild(x: SourceSpec, y: SourceSpec) {
    && x.git == y.git && x.ref == y.ref && x.buildMethod == y.buildMethod && x.builder == y.builder
    && Pieces(x.buildpacks, ',') == Pieces(y.buildpacks, ',') && x.repository == y.repository
    && x.buildEnv == y.buildEnv
  }

  /** A list as normalised, told apart at its commas. */
  function NormalPieces(given: seq<string>, normalize: seq<string> -> Option<seq<string>>): seq<string> {
    Pieces(normalize(given).GetOr(given), ',')
  }

  predicate SameSecurity(m: Models, x: ApplicationSpec, y: ApplicationSpec) {
    && x.RunAsUser() == y.RunAsUser() && x.ReadOnlyRootFilesystem() == y.ReadOnlyRootFilesystem()
    && x.NoNewPrivileges() == y.NoNewPrivileges()
    && NormalPieces(x.AddCapabilities().GetOr([]), m.capabilities)
      == NormalPieces(y.AddCapabilities().GetOr([]), m.capabilities)
    && NormalPieces(x.DropCapabilities(), m.dropCapabilities) == NormalPieces(y.DropCapabilities(), m.dropCapabilities)
    && NormalPieces(x.Devices(), m.devices) == NormalPieces(y.Devices(), m.devices)
  }

  predicate SamePlacement(x: ApplicationSpec, y: ApplicationSpec) {
    && x.Location() == y.Location() && x.Constraints().Some? == y.Constraints().Some?
    && Pieces(x.Constraints().GetOr([]), ',') == Pieces(y.Constraints().GetOr([]), ',')
  }

  /** A number compared only when it is positive. */
  predicate SamePositive(a: int, b: int) {
    a == b || (a <= 0 && b <= 0)
  }

  predicate SameDeployment(x: ApplicationSpec, y: ApplicationSpec) {
    && x.Strategy() == y.Strategy() && x.Runtime() == y.Runtime()
    && SamePositive(x.Replicas(), y.Replicas()) && x.Update() == y.Update()
  }

  predicate SameHealth(x: Option<HealthcheckSpec>, y: Option<HealthcheckSpec>) {
    x.Some? == y.Some? && (x.Some? ==> SameCheck(x.value, y.value))
  }

  predicate SameCheck(x: HealthcheckSpec, y: HealthcheckSpec) {
    && x.kind == y.kind && x.path == y.path && x.command == y.command && SamePositive(x.port, y.port)
    && SamePositive(x.intervalSeconds, y.intervalSeconds) && SamePositive(x.timeoutSeconds, y.timeoutSeconds)
    && SamePositive(x.retries, y.retries) && SamePositive(x.startPeriodSeconds, y.startPeriodSeconds)
  }

  /** Resources by what they parse to; absent reads as zero. */
  predicate SameResources(m: Models, x: Option<ResourceSpec>, y: Option<ResourceSpec>) {
    && MemoryOf(m, x) == MemoryOf(m, y) && CpuOf(m, x) == CpuOf(m, y)
    && GpuOf(x) == GpuOf(y) && GpuKindOf(x) == GpuKindOf(y)
  }

  function MemoryOf(m: Models, r: Option<ResourceSpec>): int {
    if r.Some? then m.memoryBytes(r.value.memory) else 0
  }

  function CpuOf(m: Models, r: Option<ResourceSpec>): int {
    if r.Some? then m.nanoCPUs(r.value.cpu) else 0
  }

  function GpuOf(r: Option<ResourceSpec>): int {
    if r.Some? then r.value.gpu else 0
  }

  function GpuKindOf(r: Option<ResourceSpec>): string {
    if r.Some? then r.value.gpuKind else ""
  }

  /** Some port entry makes container port `n` reachable from outside. */
  predicate Exposes(ports: seq<PortSpec>, n: int) {
    exists p | p in ports :: p.container == n && p.externalAccess
  }

  /** Some port entry publishes container port `n` on the host. */
  predicate Publishes(ports: seq<PortSpec>, n: int) {
    exists p | p in ports :: p.container == n && (p.publish || p.hostPort > 0)
  }

  /** Ports by container number alone: protocol, scheme and host port are not compared. */
  ghost predicate SamePorts(x: seq<PortSpec>, y: seq<PortSpec>) {
    forall n: int :: (Exposes(x, n) <==> Exposes(y, n)) && (Publishes(x, n) <==> Publishes(y, n))
  }

  predicate SameIdentity(x: ApplicationSpec, y: ApplicationSpec) {
    && x.image == y.image && x.tag == y.tag && x.digest == y.digest
    && Pieces(x.command, ' ') == Pieces(y.command, ' ') && x.registry == y.registry
    && x.stack == y.stack && x.configFP == y.configFP
  }

  /** Everything the planner compares of an application. */
  ghost predicate SameApplication(m: Models, x: ApplicationSpec, y: ApplicationSpec) {
    && SameIdentity(x, y) && SameSource(x.source, y.source) && SameSecurity(m, x, y)
    && SamePlacement(x, y) && SameDeployment(x, y) && SameHealth(x.healthcheck, y.healthcheck)
    && Unreserved(x.containerLabels) == Unreserved(y.containerLabels)
    && SameResources(m, x.resources, y.resources)
    && Masked(x.env, x.secretEnv) == Masked(y.env, y.secretEnv)
    && SamePorts(x.ports, y.ports)
  }

  // ---- The groups of the field map ---------------------------------------------

  function ImageFields(a: ApplicationSpec): FieldMap {
    map[Plain("image") := a.image, Plain("tag") := a.tag, Plain("digest") := a.digest]
  }

  function CommandFields(a: ApplicationSpec): FieldMap {
    map[Plain("command") := Join(a.command, " "), Plain("registry") := a.registry]
  }

  function ConfigField(fp: string): FieldMap {
    StatedIf(fp != "", Plain("configFP"), fp)
  }

  function LabelFields(a: ApplicationSpec): FieldMap {
    Keyed(ContainerLabels, Unreserved(a.containerLabels))
  }

  function EnvFields(a: ApplicationSpec): FieldMap {
    Keyed(Env, Masked(a.env, a.secretEnv))
  }

  function ApplicationParts(m: Models, a: ApplicationSpec): seq<FieldMap> {
    [ImageFields(a), SourceFields(a.source), CommandFields(a), StackField(a.stack), SecurityFields(m, a),
     PlacementFields(a.Location(), a.Constraints()), DeploymentFields(a.deployment), HealthFields(a.healthcheck),
     ConfigField(a.configFP), LabelFields(a), ResourceFields(m, a.resources), EnvFields(a), PortFields(a.ports)]
  }

  /** The group a field belongs to. */
  function PartOf(f: Field): int {
    match f
    case Plain(n) => PlainPart(n)
    case In(s, _) => SectionPart(s)
  }

  function PlainPart(n: string): int {
    if n in ["image", "tag", "digest"] then 0
    else if n in ["command", "registry"] then 2
    else if n == "stack" then 3
    else 8
  }

  function SectionPart(s: Section): int {
    match s
    case Source | BuildEnv => 1
    case Security => 4
    case Placement => 5
    case Deployment => 6
    case Healthcheck => 7
    case ContainerLabels => 9
    case Resources => 10
    case Env => 11
    case Port => 12
    case _ => 13
  }

  lemma SumStep(gs: seq<FieldMap>, i: nat)
    requires i < |gs|
    ensures Sum(gs[..i + 1]) == Sum(gs[..i]) + gs[i]
  {
    assert gs[..i + 1][..i] == gs[..i];
  }

  lemma FourSteps(gs: seq<FieldMap>, i: nat)
    requires i + 4 <= |gs|
    ensures Sum(gs[..i + 4]) == Sum(gs[..i]) + gs[i] + gs[i + 1] + gs[i + 2] + gs[i + 3]
  {
    hide Sum;
    SumStep(gs, i);
    SumStep(gs, i + 1);
    SumStep(gs, i + 2);
    SumStep(gs, i + 3);
  }

  lemma FirstStep(gs: seq<FieldMap>)
    requires |gs| > 0
    ensures Sum(gs[..1]) == gs[0]
  {
    SumStep(gs, 0);
    SumOfNone(gs[..0]);
  }

  lemma SumOfThirteen(gs: seq<FieldMap>)
    requires |gs| == 13
    ensures Sum(gs) == gs[0] + gs[1] + gs[2] + gs[3] + gs[4] + gs[5] + gs[6]
                       + gs[7] + gs[8] + gs[9] + gs[10] + gs[11] + gs[12]
  {
    hide Sum;
    FirstStep(gs);
    FourSteps(gs, 1);
    FourSteps(gs, 5);
    FourSteps(gs, 9);
    assert gs[..13] == gs;
  }

  lemma SumOfNone(gs: seq<FieldMap>)
    requires gs == []
    ensures Sum(gs) == map[]
  {}

  lemma ApplicationIsSum(m: Models, a: ApplicationSpec)
    ensures ApplicationFields(m, a) == Sum(ApplicationParts(m, a))
  {
    hide SourceFields, SecurityFields, PlacementFields, DeploymentFields, HealthFields, ResourceFields, Keyed,
         Masked, Unreserved, PortFields, Join, StatedIf, Sum;
    SumOfThirteen(ApplicationParts(m, a));
  }

  lemma PlainParts(a: ApplicationSpec)
    ensures forall k | k in ImageFields(a) :: PartOf(k) == 0
    ensures forall k | k in CommandFields(a) :: PartOf(k) == 2
  {
    hide Join;
  }

  lemma PlainIfParts(a: ApplicationSpec)
    ensures forall k | k in StackField(a.stack) :: PartOf(k) == 3
    ensures forall k | k in ConfigField(a.configFP) :: PartOf(k) == 8
  {}

  lemma SecurityPart(m: Models, a: ApplicationSpec)
    ensures forall k | k in SecurityFields(m, a) :: PartOf(k) == 4
  {
    hide NormalizedList, FormatBool;
  }

  lemma EntryParts(a: ApplicationSpec)
    ensures forall k | k in PlacementFields(a.Location(), a.Constraints()) :: PartOf(k) == 5
    ensures forall k | k in DeploymentFields(a.deployment) :: PartOf(k) == 6
    ensures forall k | k in HealthFields(a.healthcheck) :: PartOf(k) == 7
  {
    hide Stated, Itoa, Join;
    StatedIsHomed(PlacementEntries(a.Location(), a.Constraints()), PartOf, 5);
    if a.deployment.Some? {
      StatedIsHomed(DeploymentEntries(a.deployment.value), PartOf, 6);
    }
    if a.healthcheck.Some? {
      StatedIsHomed(HealthEntries(a.healthcheck.value), PartOf, 7);
    }
  }

  lemma KeyedParts(a: ApplicationSpec)
    ensures forall k | k in LabelFields(a) :: PartOf(k) == 9
    ensures forall k | k in EnvFields(a) :: PartOf(k) == 11
  {
    hide Unreserved, Masked, PlainPart, Keyed;
    KeyedSection(ContainerLabels, Unreserved(a.containerLabels));
    KeyedSection(Env, Masked(a.env, a.secretEnv));
  }

  lemma KeyedSection(section: Section, values: map<string, string>)
    ensures InSection(Keyed(section, values), section)
  {}

  lemma ListedParts(m: Models, a: ApplicationSpec)
    ensures forall k | k in SourceFields(a.source) :: PartOf(k) == 1
    ensures forall k | k in ResourceFields(m, a.resources) :: PartOf(k) == 10
    ensures forall k | k in PortFields(a.ports) :: PartOf(k) == 12
  {
    hide ResourceFields, PortFields, SourceFields;
    forall k | k in ResourceFields(m, a.resources)
      ensures PartOf(k) == 10
    {
      ResourcesAreNotOptional(m, a.resources, k);
    }
    forall k | k in PortFields(a.ports)
      ensures PartOf(k) == 12
    {
      PortsAreNotOptional(a.ports, k);
    }
    forall k | k in SourceFields(a.source)
      ensures PartOf(k) == 1
    {
      SourceSection(a.source, k);
    }
  }

  lemma ApplicationIsHomed(m: Models, a: ApplicationSpec)
    ensures Homed(ApplicationParts(m, a), PartOf)
  {
    hide ImageFields, SourceFields, CommandFields, StackField, SecurityFields, PlacementFields, DeploymentFields,
         HealthFields, ConfigField, LabelFields, ResourceFields, EnvFields, PortFields, PartOf;
    PlainParts(a);
    PlainIfParts(a);
    SecurityPart(m, a);
    EntryParts(a);
    KeyedParts(a);
    ListedParts(m, a);
  }

  // ---- Each group decides its attributes ----------------------------------------

  lemma ImageDecides(x: ApplicationSpec, y: ApplicationSpec)
    ensures ImageFields(x) == ImageFields(y) <==> x.image == y.image && x.tag == y.tag && x.digest == y.digest
  {
    var f, g := ImageFields(x), ImageFields(y);
    assert f[Plain("image")] == x.image && f[Plain("tag")] == x.tag && f[Plain("digest")] == x.digest;
    assert g[Plain("image")] == y.image && g[Plain("tag")] == y.tag && g[Plain("digest")] == y.digest;
  }

  lemma CommandDecides(x: ApplicationSpec, y: ApplicationSpec)
    ensures CommandFields(x) == CommandFields(y)
      <==> Pieces(x.command, ' ') == Pieces(y.command, ' ') && x.registry == y.registry
  {
    hide Join, Pieces;
    JoinShowsPieces(x.command, y.command, ' ');
    var f, g := CommandFields(x), CommandFields(y);
    assert f[Plain("command")] == Join(x.command, " ") && f[Plain("registry")] == x.registry;
    assert g[Plain("command")] == Join(y.command, " ") && g[Plain("registry")] == y.registry;
  }

  lemma PlainsDecide(x: ApplicationSpec, y: ApplicationSpec)
    ensures SameIdentity(x, y) <==>
      && ImageFields(x) == ImageFields(y) && CommandFields(x) == CommandFields(y)
      && StackField(x.stack) == StackField(y.stack) && ConfigField(x.configFP) == ConfigField(y.configFP)
  {
    ImageDecides(x, y);
    CommandDecides(x, y);
    StatedIfDecides(Plain("stack"), x.stack != "", x.stack, y.stack != "", y.stack);
    StatedIfDecides(Plain("configFP"), x.configFP != "", x.configFP, y.configFP != "", y.configFP);
    hide ImageFields, CommandFields, StatedIf, Pieces;
  }

  lemma SourceDecides(x: Option<SourceSpec>, y: Option<SourceSpec>)
    ensures SourceFields(x) == SourceFields(y) <==> SameSource(x, y)
  {
    hide Pieces, SourceScalars, Keyed;
    if x.Some? && y.Some? {
      BuildDecides(x.value, y.value);
    } else if x.Some? {
      SourceIsNotEmpty(x.value);
    } else if y.Some? {
      SourceIsNotEmpty(y.value);
    }
  }

  lemma SourceIsNotEmpty(src: SourceSpec)
    ensures SourceFields(Some(src)) != map[]
  {
    hide Keyed;
    assert In(Source, "git") in SourceScalars(src);
  }

  function BuildPart(f: Field): int {
    if f.In? && f.section == BuildEnv then 1 else 0
  }

  lemma BuildDecides(x: SourceSpec, y: SourceSpec)
    ensures SourceFields(Some(x)) == SourceFields(Some(y)) <==> SameBuild(x, y)
  {
    var xs, ys := [SourceScalars(x), Keyed(BuildEnv, x.buildEnv)], [SourceScalars(y), Keyed(BuildEnv, y.buildEnv)];
    BuildIsSum(x);
    BuildIsSum(y);
    SumDecides(xs, ys, BuildPart);
    ScalarsDecide(x, y);
    KeyedDecides(BuildEnv, x.buildEnv, y.buildEnv);
    hide SourceScalars, Keyed, Sum, Homed, Pieces;
    assert xs == ys <==> xs[0] == ys[0] && xs[1] == ys[1];
  }

  lemma BuildIsSum(x: SourceSpec)
    ensures SourceFields(Some(x)) == Sum([SourceScalars(x), Keyed(BuildEnv, x.buildEnv)])
    ensures Homed([SourceScalars(x), Keyed(BuildEnv, x.buildEnv)], BuildPart)
  {
    BuildIsHomed(x);
    hide SourceScalars, Keyed;
    SumOfTwo(SourceScalars(x), Keyed(BuildEnv, x.buildEnv));
  }

  lemma BuildIsHomed(x: SourceSpec)
    ensures forall k | k in SourceScalars(x) :: BuildPart(k) == 0
    ensures forall k | k in Keyed(BuildEnv, x.buildEnv) :: BuildPart(k) == 1
  {
    hide Join;
  }

  lemma ScalarsDecide(x: SourceSpec, y: SourceSpec)
    ensures SourceScalars(x) == SourceScalars(y) && x.buildEnv == y.buildEnv <==> SameBuild(x, y)
  {
    hide Join, Pieces;
    JoinShowsPieces(x.buildpacks, y.buildpacks, ',');
    var f, g := SourceScalars(x), SourceScalars(y);
    if f == g {
      assert f[In(Source, "git")] == g[In(Source, "git")] && f[In(Source, "ref")] == g[In(Source, "ref")];
      assert f[In(Source, "buildMethod")] == g[In(Source, "buildMethod")];
      assert f[In(Source, "builder")] == g[In(Source, "builder")];
      assert f[In(Source, "buildpacks")] == g[In(Source, "buildpacks")];
      assert f[In(Source, "repository")] == g[In(Source, "repository")];
    }
  }

  lemma SecurityDecides(m: Models, x: ApplicationSpec, y: ApplicationSpec)
    ensures SecurityFields(m, x) == SecurityFields(m, y) <==> SameSecurity(m, x, y)
  {
    ListDecides(x.AddCapabilities().GetOr([]), y.AddCapabilities().GetOr([]), m.capabilities);
    ListDecides(x.DropCapabilities(), y.DropCapabilities(), m.dropCapabilities);
    ListDecides(x.Devices(), y.Devices(), m.devices);
    hide NormalizedList, NormalPieces, FormatBool;
    var f, g := SecurityFields(m, x), SecurityFields(m, y);
    if f == g {
      assert f[In(Security, "runAsUser")] == g[In(Security, "runAsUser")];
      assert f[In(Security, "readOnlyRootFilesystem")] == g[In(Security, "readOnlyRootFilesystem")];
      assert f[In(Security, "noNewPrivileges")] == g[In(Security, "noNewPrivileges")];
      assert f[In(Security, "capabilities.add")] == g[In(Security, "capabilities.add")];
      assert f[In(Security, "capabilities.drop")] == g[In(Security, "capabilities.drop")];
      assert f[In(Security, "devices")] == g[In(Security, "devices")];
      FormatBoolInjective(x.ReadOnlyRootFilesystem(), y.ReadOnlyRootFilesystem());
      FormatBoolInjective(x.NoNewPrivileges(), y.NoNewPrivileges());
    }
  }

  lemma ListDecides(a: seq<string>, b: seq<string>, normalize: seq<string> -> Option<seq<string>>)
    ensures NormalizedList(a, normalize) == NormalizedList(b, normalize) <==>
      NormalPieces(a, normalize) == NormalPieces(b, normalize)
  {
    JoinShowsPieces(normalize(a).GetOr(a), normalize(b).GetOr(b), ',');
  }

  lemma PlacementDecides(x: ApplicationSpec, y: ApplicationSpec)
    ensures PlacementFields(x.Location(), x.Constraints()) == PlacementFields(y.Location(), y.Constraints())
      <==> SamePlacement(x, y)
  {
    JoinShowsPieces(x.Constraints().GetOr([]), y.Constraints().GetOr([]), ',');
    hide Join, Pieces, Stated;
    var f, g := PlacementEntries(x.Location(), x.Constraints()), PlacementEntries(y.Location(), y.Constraints());
    StatedDecides(f, g);
    if SameEntries(f, g) {
      assert f[0].stated == g[0].stated && f[1].stated == g[1].stated;
    }
  }

  lemma PositiveDecides(a: int, b: int)
    ensures (a > 0) == (b > 0) && (a > 0 ==> Itoa(a) == Itoa(b)) <==> SamePositive(a, b)
  {
    if a > 0 && b > 0 && Itoa(a) == Itoa(b) {
      ItoaInjective(a, b);
    }
  }

  lemma UpdateDecides(a: Option<UpdateSpec>, b: Option<UpdateSpec>)
    ensures a == b <==>
      && a.Some? == b.Some?
      && (a.Some? ==> Itoa(a.value.parallelism) == Itoa(b.value.parallelism))
      && (a.Some? ==> Itoa(a.value.delaySeconds) == Itoa(b.value.delaySeconds))
  {
    if a.Some? && b.Some? && Itoa(a.value.parallelism) == Itoa(b.value.parallelism)
       && Itoa(a.value.delaySeconds) == Itoa(b.value.delaySeconds) {
      ItoaInjective(a.value.parallelism, b.value.parallelism);
      ItoaInjective(a.value.delaySeconds, b.value.delaySeconds);
    }
  }

  /** An absent block states what an empty one does: nothing. */
  const NoDeployment := DeploymentSpec("", 0, "", None)

  lemma AbsentDeployment(d: Option<DeploymentSpec>)
    ensures DeploymentFields(d) == Stated(DeploymentEntries(d.GetOr(NoDeployment)))
  {
    hide Itoa;
    if d.None? {
      NothingStated(DeploymentEntries(NoDeployment));
    }
  }

  lemma {:induction false} NothingStated(entries: seq<Entry>)
    requires forall i | 0 <= i < |entries| :: !entries[i].stated
    ensures Stated(entries) == map[]
  {
    if entries != [] {
      NothingStated(entries[..|entries| - 1]);
    }
  }

  lemma DeploymentDecides(x: ApplicationSpec, y: ApplicationSpec)
    ensures DeploymentFields(x.deployment) == DeploymentFields(y.deployment) <==> SameDeployment(x, y)
  {
    AbsentDeployment(x.deployment);
    AbsentDeployment(y.deployment);
    hide Itoa, Stated, DeploymentFields, SameEntries, SamePositive;
    var f := DeploymentEntries(x.deployment.GetOr(NoDeployment));
    var g := DeploymentEntries(y.deployment.GetOr(NoDeployment));
    StatedDecides(f, g);
    FiveEntries(f, g);
    PositiveDecides(x.Replicas(), y.Replicas());
    UpdateDecides(x.Update(), y.Update());
  }

  lemma FiveEntries(f: seq<Entry>, g: seq<Entry>)
    requires |f| == |g| == 5
    ensures SameEntries(f, g) <==>
      && SameEntry(f[0], g[0]) && SameEntry(f[1], g[1]) && SameEntry(f[2], g[2]) && SameEntry(f[3], g[3])
      && SameEntry(f[4], g[4])
  {}

  lemma CheckDecides(x: HealthcheckSpec, y: HealthcheckSpec)
    ensures Stated(HealthEntries(x)) == Stated(HealthEntries(y)) <==> SameCheck(x, y)
  {
    hide Stated, SameEntries;
    HealthFieldsDiffer(x);
    StatedDecides(HealthEntries(x), HealthEntries(y));
    CheckEntriesDecide(x, y);
  }

  lemma CheckEntriesDecide(x: HealthcheckSpec, y: HealthcheckSpec)
    ensures SameEntries(HealthEntries(x), HealthEntries(y)) <==> SameCheck(x, y)
  {
    var f, g := HealthEntries(x), HealthEntries(y);
    EightEntries(f, g);
    hide Itoa, SamePositive, SameEntries;
    PositiveDecides(x.port, y.port);
    PositiveDecides(x.intervalSeconds, y.intervalSeconds);
    PositiveDecides(x.timeoutSeconds, y.timeoutSeconds);
    PositiveDecides(x.retries, y.retries);
    PositiveDecides(x.startPeriodSeconds, y.startPeriodSeconds);
  }

  predicate SameEntry(x: Entry, y: Entry) {
    x.stated == y.stated && (x.stated ==> x.value == y.value)
  }

  lemma EightEntries(f: seq<Entry>, g: seq<Entry>)
    requires |f| == |g| == 8
    ensures SameEntries(f, g) <==>
      && SameEntry(f[0], g[0]) && SameEntry(f[1], g[1]) && SameEntry(f[2], g[2]) && SameEntry(f[3], g[3])
      && SameEntry(f[4], g[4]) && SameEntry(f[5], g[5]) && SameEntry(f[6], g[6]) && SameEntry(f[7], g[7])
  {}

  lemma CheckIsNotEmpty(x: HealthcheckSpec)
    ensures Stated(HealthEntries(x)) != map[]
  {
    hide Stated, Itoa;
    HealthFieldsDiffer(x);
    StatedAt(HealthEntries(x), 0);
  }

  lemma HealthDecides(x: Option<HealthcheckSpec>, y: Option<HealthcheckSpec>)
    ensures HealthFields(x) == HealthFields(y) <==> SameHealth(x, y)
  {
    hide HealthEntries, Stated, SameCheck;
    if x.Some? && y.Some? {
      CheckDecides(x.value, y.value);
    } else if x.Some? {
      CheckIsNotEmpty(x.value);
    } else if y.Some? {
      CheckIsNotEmpty(y.value);
    }
  }

  function ResourceEntries(m: Models, r: Option<ResourceSpec>): seq<Entry> {
    [Entry(MemoryOf(m, r) != 0, In(Resources, "memory"), Itoa(MemoryOf(m, r))),
     Entry(CpuOf(m, r) != 0, In(Resources, "cpu"), Itoa(CpuOf(m, r))),
     Entry(GpuOf(r) != 0, In(Resources, "gpu"), Itoa(GpuOf(r))),
     Entry(GpuKindOf(r) != "", In(Resources, "gpuKind"), GpuKindOf(r))]
  }

  lemma FourStated(a: Entry, b: Entry, c: Entry, d: Entry)
    ensures Stated([a, b, c, d]) == StatedIf(a.stated, a.field, a.value) + StatedIf(b.stated, b.field, b.value)
                                    + StatedIf(c.stated, c.field, c.value) + StatedIf(d.stated, d.field, d.value)
  {
    hide StatedIf, Stated;
    assert [a, b, c, d] == [a, b, c] + [d] && [a, b, c] == [a, b] + [c] && [a, b] == [a] + [b] && [a] == [] + [a];
    StatedAppend([a, b, c], d);
    StatedAppend([a, b], c);
    StatedAppend([a], b);
    StatedAppend([], a);
    NothingStated([]);
  }

  lemma StatedAppend(entries: seq<Entry>, e: Entry)
    ensures Stated(entries + [e]) == Stated(entries) + StatedIf(e.stated, e.field, e.value)
  {
    assert (entries + [e])[..|entries|] == entries;
  }

  lemma ResourcesAreEntries(m: Models, r: Option<ResourceSpec>)
    ensures ResourceFields(m, r) == Stated(ResourceEntries(m, r))
  {
    hide Itoa, Stated;
    if r.None? {
      NothingStated(ResourceEntries(m, r));
    } else {
      hide StatedIf;
      var e := ResourceEntries(m, r);
      FourStated(e[0], e[1], e[2], e[3]);
    }
  }

  lemma ResourcesDecide(m: Models, x: Option<ResourceSpec>, y: Option<ResourceSpec>)
    ensures ResourceFields(m, x) == ResourceFields(m, y) <==> SameResources(m, x, y)
  {
    ResourcesAreEntries(m, x);
    ResourcesAreEntries(m, y);
    hide Itoa, Stated, ResourceFields, MemoryOf, CpuOf, GpuOf, GpuKindOf;
    var f, g := ResourceEntries(m, x), ResourceEntries(m, y);
    StatedDecides(f, g);
    if SameEntries(f, g) {
      assert f[0].stated == g[0].stated && f[1].stated == g[1].stated && f[2].stated == g[2].stated
        && f[3].stated == g[3].stated;
      NonzeroDecides(MemoryOf(m, x), MemoryOf(m, y));
      NonzeroDecides(CpuOf(m, x), CpuOf(m, y));
      NonzeroDecides(GpuOf(x), GpuOf(y));
    }
  }

  lemma NonzeroDecides(a: int, b: int)
    requires (a != 0) == (b != 0) && (a != 0 ==> Itoa(a) == Itoa(b))
    ensures a == b
  {
    if a != 0 {
      ItoaInjective(a, b);
    }
  }

  // ---- Ports ----------------------------------------------------------------------

  function ExternalKey(n: int): Field {
    In(Port, Itoa(n) + ".external")
  }

  function PublishedKey(n: int): Field {
    In(Port, Itoa(n) + ".published")
  }

  lemma SuffixInjective(a: string, b: string, x: string)
    requires a + x == b + x
    ensures a == b
  {
    assert |a| == |b| && (a + x)[..|a|] == a && (b + x)[..|b|] == b;
  }

  lemma PortKeysDiffer(a: int, b: int)
    ensures ExternalKey(a) == ExternalKey(b) ==> a == b
    ensures PublishedKey(a) == PublishedKey(b) ==> a == b
    ensures ExternalKey(a) != PublishedKey(b)
  {
    hide Itoa;
    var x, y := Itoa(a), Itoa(b);
    if x + ".external" == y + ".external" {
      SuffixInjective(x, y, ".external");
      ItoaInjective(a, b);
    }
    if x + ".published" == y + ".published" {
      SuffixInjective(x, y, ".published");
      ItoaInjective(a, b);
    }
    assert (x + ".external")[|x + ".external"| - 1] == 'l';
    assert (y + ".published")[|y + ".published"| - 1] == 'd';
  }

  lemma OnePort(p: PortSpec, n: int)
    ensures ExternalKey(n) in PortField(p) <==> p.container == n && p.externalAccess
    ensures PublishedKey(n) in PortField(p) <==> p.container == n && (p.publish || p.hostPort > 0)
  {
    PortKeysDiffer(p.container, n);
    PortKeysDiffer(n, p.container);
    var x, y := ExternalKey(p.container), PublishedKey(p.container);
    assert PortField(p) == StatedIf(p.externalAccess, x, "true") + StatedIf(p.publish || p.hostPort > 0, y, "true");
    hide ExternalKey, PublishedKey, PortField;
  }

  lemma {:induction false} PortFieldsAt(ports: seq<PortSpec>, n: int)
    ensures ExternalKey(n) in PortFields(ports) <==> Exposes(ports, n)
    ensures PublishedKey(n) in PortFields(ports) <==> Publishes(ports, n)
  {
    hide ExternalKey, PublishedKey, PortField;
    if ports != [] {
      PortFieldsAt(ports[..|ports| - 1], n);
      OnePort(ports[|ports| - 1], n);
      assert ports == ports[..|ports| - 1] + [ports[|ports| - 1]];
    }
  }

  /** Every port field is a flag of some container port. */
  lemma {:induction false} PortFieldIsFlag(ports: seq<PortSpec>, f: Field) returns (n: int)
    requires f in PortFields(ports)
    ensures PortFields(ports)[f] == "true" && (f == ExternalKey(n) || f == PublishedKey(n))
  {
    var p := ports[|ports| - 1];
    if f in PortField(p) {
      n := p.container;
    } else {
      n := PortFieldIsFlag(ports[..|ports| - 1], f);
    }
  }

  lemma PortsDecide(x: seq<PortSpec>, y: seq<PortSpec>)
    ensures PortFields(x) == PortFields(y) <==> SamePorts(x, y)
  {
    hide PortFields, ExternalKey, PublishedKey, Exposes, Publishes;
    forall n: int
      ensures ExternalKey(n) in PortFields(x) <==> Exposes(x, n)
      ensures PublishedKey(n) in PortFields(x) <==> Publishes(x, n)
      ensures ExternalKey(n) in PortFields(y) <==> Exposes(y, n)
      ensures PublishedKey(n) in PortFields(y) <==> Publishes(y, n)
    {
      PortFieldsAt(x, n);
      PortFieldsAt(y, n);
    }
    if SamePorts(x, y) {
      forall f
        ensures f in PortFields(x) <==> f in PortFields(y)
        ensures f in PortFields(x) ==> PortFields(x)[f] == PortFields(y)[f]
      {
        if f in PortFields(x) {
          var n := PortFieldIsFlag(x, f);
        }
        if f in PortFields(y) {
          var n := PortFieldIsFlag(y, f);
        }
      }
    }
  }

  // ---- Applications -----------------------------------------------------------------

  lemma PartsDecide(m: Models, x: ApplicationSpec, y: ApplicationSpec)
    ensures ApplicationParts(m, x) == ApplicationParts(m, y) <==> SameApplication(m, x, y)
  {
    hide ImageFields, SourceFields, CommandFields, StackField, SecurityFields, PlacementFields, DeploymentFields,
         HealthFields, ConfigField, LabelFields, ResourceFields, EnvFields, PortFields, SameIdentity, SameSource,
         SameSecurity, SamePlacement, SameDeployment, SameHealth, SameResources, SamePorts, Unreserved, Masked;
    PlainsDecide(x, y);
    SourceDecides(x.source, y.source);
    SecurityDecides(m, x, y);
    PlacementDecides(x, y);
    DeploymentDecides(x, y);
    HealthDecides(x.healthcheck, y.healthcheck);
    LabelsDecide(x, y);
    ResourcesDecide(m, x.resources, y.resources);
    PortsDecide(x.ports, y.ports);
    SeqOfThirteen(ApplicationParts(m, x), ApplicationParts(m, y));
  }

  lemma LabelsDecide(x: ApplicationSpec, y: ApplicationSpec)
    ensures LabelFields(x) == LabelFields(y) <==> Unreserved(x.containerLabels) == Unreserved(y.containerLabels)
    ensures EnvFields(x) == EnvFields(y) <==> Masked(x.env, x.secretEnv) == Masked(y.env, y.secretEnv)
  {
    hide Unreserved, Masked, Keyed;
    KeyedDecides(ContainerLabels, Unreserved(x.containerLabels), Unreserved(y.containerLabels));
    KeyedDecides(Env, Masked(x.env, x.secretEnv), Masked(y.env, y.secretEnv));
  }

  lemma SeqOfThirteen<T>(xs: seq<T>, ys: seq<T>)
    requires |xs| == |ys| == 13
    ensures xs == ys <==>
      && xs[0] == ys[0] && xs[1] == ys[1] && xs[2] == ys[2] && xs[3] == ys[3] && xs[4] == ys[4] && xs[5] == ys[5]
      && xs[6] == ys[6] && xs[7] == ys[7] && xs[8] == ys[8] && xs[9] == ys[9] && xs[10] == ys[10]
      && xs[11] == ys[11] && xs[12] == ys[12]
  {}

  /** Two applications have the same fields exactly when they agree on every
      compared attribute. */
  lemma ApplicationSeen(m: Models, x: ApplicationSpec, y: ApplicationSpec)
    ensures ApplicationFields(m, x) == ApplicationFields(m, y) <==> SameApplication(m, x, y)
  {
    hide ApplicationFields, ApplicationParts, Sum, Homed, PartOf, SameApplication;
    ApplicationIsSum(m, x);
    ApplicationIsSum(m, y);
    ApplicationIsHomed(m, x);
    ApplicationIsHomed(m, y);
    EnvPart(m, x);
    EnvPart(m, y);
    SumDecides(ApplicationParts(m, x), ApplicationParts(m, y), PartOf);
    PartsDecide(m, x, y);
  }

  /** Changing the command is seen exactly when it changes the arguments, as long
      as none holds a blank. */
  lemma CommandSeen(m: Models, a: ApplicationSpec, command: seq<string>)
    requires Without(a.command, ' ') && Without(command, ' ')
    ensures ApplicationFields(m, a.(command := command)) == ApplicationFields(m, a) <==> SameArgs(command, a.command)
  {
    hide ApplicationFields, Pieces;
    ApplicationSeen(m, a.(command := command), a);
    CommandAlone(m, a, command);
    PiecesWhole(a.command, ' ');
    PiecesWhole(command, ' ');
  }

  lemma CommandAlone(m: Models, a: ApplicationSpec, command: seq<string>)
    ensures SameApplication(m, a.(command := command), a) <==> Pieces(command, ' ') == Pieces(a.command, ' ')
  {
    hide Pieces, Unreserved, Masked;
  }

  /** An argument with a blank reads as the two arguments around it, where a cron
      job's quoted list tells them apart. */
  lemma CommandJoinCollides(m: Models, a: ApplicationSpec, u: string, v: string)
    ensures ApplicationFields(m, a.(command := [u + " " + v])) == ApplicationFields(m, a.(command := [u, v]))
    ensures ArgList(m.printable, [u + " " + v]) != ArgList(m.printable, [u, v])
  {
    hide ApplicationFields, Pieces, ArgList;
    assert [u, v][1..] == [v];
    assert Join([u + " " + v], " ") == Join([u, v], " ");
    JoinShowsPieces([u + " " + v], [u, v], ' ');
    var b := a.(command := [u, v]);
    CommandAlone(m, b, [u + " " + v]);
    ApplicationSeen(m, b.(command := [u + " " + v]), b);
    assert |[u + " " + v]| != |[u, v]|;
    if ArgList(m.printable, [u + " " + v]) == ArgList(m.printable, [u, v]) {
      ArgListInjective(m.printable, [u + " " + v], [u, v]);
    }
  }

  /** The comparison sees exactly the declared environment: every key, every
      value that is not secret, and of a secret one only that it is there. */
  lemma EnvSeen(m: Models, a: ApplicationSpec, k: string)
    ensures In(Env, k) in ApplicationFields(m, a) <==> k in a.env
    ensures k in a.env ==> ApplicationFields(m, a)[In(Env, k)] == if k in a.secretEnv then "(secret)" else a.env[k]
  {
    hide ApplicationFields, Sum, Homed, ApplicationParts;
    ApplicationIsSum(m, a);
    ApplicationIsHomed(m, a);
    SumAt(ApplicationParts(m, a), PartOf, In(Env, k));
    EnvPart(m, a);
  }

  lemma EnvPart(m: Models, a: ApplicationSpec)
    ensures |ApplicationParts(m, a)| == 13 && ApplicationParts(m, a)[11] == EnvFields(a)
  {
    hide ImageFields, SourceFields, CommandFields, StackField, SecurityFields, PlacementFields, DeploymentFields,
         HealthFields, ConfigField, LabelFields, ResourceFields, EnvFields, PortFields;
  }

  /** Port by port the same number, and open and published alike. */
  predicate SamePortFlags(x: seq<PortSpec>, y: seq<PortSpec>) {
    |x| == |y| && forall i | 0 <= i < |x| ::
      && x[i].container == y[i].container && x[i].externalAccess == y[i].externalAccess
      && (x[i].publish || x[i].hostPort > 0) == (y[i].publish || y[i].hostPort > 0)
  }

  lemma FlagsAreSamePorts(x: seq<PortSpec>, y: seq<PortSpec>)
    requires SamePortFlags(x, y)
    ensures SamePorts(x, y)
  {}
}
