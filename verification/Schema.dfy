/** The miabi.io/v1 resource model. A nil pointer, and a nil slice or map the
    source tells apart from an empty one, is an `Option`. */
module Schema {
  import opened Text
  import opened Wrappers

  const API_VERSION := "miabi.io/v1"

  datatype Kind =
    | KindApplication | KindStack | KindDatabase | KindVolume | KindRoute
    | KindSecret | KindSealedSecret | KindDomain | KindRegistry | KindProject
    | KindConfig | KindMiddleware | KindCronJob | KindJob | KindGitSource
    | KindGitRepository

  function KindName(k: Kind): string {
    match k
    case KindApplication => "Application"
    case KindStack => "Stack"
    case KindDatabase => "Database"
    case KindVolume => "Volume"
    case KindRoute => "Route"
    case KindSecret => "Secret"
    case KindSealedSecret => "SealedSecret"
    case KindDomain => "Domain"
    case KindRegistry => "Registry"
    case KindProject => "Project"
    case KindConfig => "Config"
    case KindMiddleware => "Middleware"
    case KindCronJob => "CronJob"
    case KindJob => "Job"
    case KindGitSource => "GitSource"
    case KindGitRepository => "GitRepository"
  }

  datatype Meta = Meta(
    name: string,
    uid: string,
    labels: map<string, string>,
    annotations: map<string, string>)

  /** At most one typed spec is set, determined by `kind`. */
  datatype Resource = Resource(apiVersion: string, kind: Kind, meta: Meta, spec: Spec) {
    function Id(): Id { ResourceId(kind, meta.name) }

    function Key(): string { KeyOf(kind, meta.name) }
  }

  datatype Spec =
    | NoSpec
    | ApplicationOf(application: ApplicationSpec)
    | StackOf(stack: StackSpec)
    | DatabaseOf(database: DatabaseSpec)
    | VolumeOf(volume: VolumeSpec)
    | RouteOf(route: RouteSpec)
    | SecretOf(secret: SecretSpec)
    | SealedSecretOf(sealedSecret: SealedSecretSpec)
    | DomainOf(domain: DomainSpec)
    | RegistryOf(registry: RegistrySpec)
    | ProjectOf(project: ProjectSpec)
    | ConfigOf(config: ConfigSpec)
    | MiddlewareOf(middleware: MiddlewareSpec)
    | CronJobOf(cronJob: CronJobSpec)
    | JobOf(job: JobSpec)
    | GitSourceOf(gitSource: GitSourceSpec)
    | GitRepositoryOf(gitRepository: GitRepositorySpec)

  /** The spec of a resource is the one its kind names. */
  predicate WellTyped(r: Resource) {
    match r.spec
    case NoSpec => true
    case ApplicationOf(_) => r.kind == KindApplication
    case StackOf(_) => r.kind == KindStack
    case DatabaseOf(_) => r.kind == KindDatabase
    case VolumeOf(_) => r.kind == KindVolume
    case RouteOf(_) => r.kind == KindRoute
    case SecretOf(_) => r.kind == KindSecret
    case SealedSecretOf(_) => r.kind == KindSealedSecret
    case DomainOf(_) => r.kind == KindDomain
    case RegistryOf(_) => r.kind == KindRegistry
    case ProjectOf(_) => r.kind == KindProject
    case ConfigOf(_) => r.kind == KindConfig
    case MiddlewareOf(_) => r.kind == KindMiddleware
    case CronJobOf(_) => r.kind == KindCronJob
    case JobOf(_) => r.kind == KindJob
    case GitSourceOf(_) => r.kind == KindGitSource
    case GitRepositoryOf(_) => r.kind == KindGitRepository
  }

  // ---- Application ------------------------------------------------------

  datatype ApplicationSpec = ApplicationSpec(
    source: Option<SourceSpec>,
    image: string,
    tag: string,
    digest: string,
    command: seq<string>,
    ports: seq<PortSpec>,
    env: map<string, string>,
    secretEnv: seq<string>,
    mounts: seq<MountSpec>,
    resources: Option<ResourceSpec>,
    placement: Option<ApplicationPlacementSpec>,
    deployment: Option<DeploymentSpec>,
    security: Option<SecuritySpec>,
    healthcheck: Option<HealthcheckSpec>,
    containerLabels: map<string, string>,
    stack: string,
    registry: string,
    externalLabel: string,
    reloadPolicy: string,
    deprecatedRunAsUser: string,
    deprecatedStrategy: string,
    configFP: string)
  {
    function Location(): string { if placement.Some? then placement.value.location else "" }

    function Constraints(): Option<seq<string>> {
      if placement.Some? then placement.value.constraints else None
    }

    function Runtime(): string { if deployment.Some? then deployment.value.runtime else "" }

    function Replicas(): int { if deployment.Some? then deployment.value.replicas else 0 }

    function Strategy(): string { if deployment.Some? then deployment.value.strategy else "" }

    function Update(): Option<UpdateSpec> {
      if deployment.Some? then deployment.value.update else None
    }

    function RunAsUser(): string { if security.Some? then security.value.runAsUser else "" }

    function ReadOnlyRootFilesystem(): bool {
      security.Some? && security.value.readOnlyRootFilesystem
    }

    function NoNewPrivileges(): bool { security.Some? && security.value.noNewPrivileges.GetOr(false) }

    function AddCapabilities(): Option<seq<string>> {
      if security.Some? && security.value.capabilities.Some?
      then security.value.capabilities.value.add else None
    }

    function DropCapabilities(): seq<string> {
      if security.Some? && security.value.capabilities.Some?
      then security.value.capabilities.value.drop else []
    }

    function Devices(): seq<string> { if security.Some? then security.value.devices else [] }
  }

  datatype ApplicationPlacementSpec = ApplicationPlacementSpec(
    location: string,
    constraints: Option<seq<string>>)

  datatype DeploymentSpec = DeploymentSpec(
    runtime: string,
    replicas: int,
    strategy: string,
    update: Option<UpdateSpec>)

  datatype UpdateSpec = UpdateSpec(parallelism: int, delaySeconds: int)

  datatype HealthcheckSpec = HealthcheckSpec(
    kind: string,
    path: string,
    port: int,
    command: string,
    intervalSeconds: int,
    timeoutSeconds: int,
    retries: int,
    startPeriodSeconds: int)

  datatype SourceSpec = SourceSpec(
    git: string,
    ref: string,
    buildMethod: string,
    builder: string,
    buildpacks: seq<string>,
    buildEnv: map<string, string>,
    repository: string)

  datatype PortSpec = PortSpec(
    container: int,
    protocol: string,
    scheme: string,
    externalAccess: bool,
    publish: bool,
    hostPort: int)

  datatype MountSpec = MountSpec(
    volume: string,
    config: string,
    key: string,
    path: string,
    mode: string,
    readOnly: bool)

  datatype SecuritySpec = SecuritySpec(
    runAsUser: string,
    readOnlyRootFilesystem: bool,
    noNewPrivileges: Option<bool>,
    capabilities: Option<CapabilitiesSpec>,
    devices: seq<string>,
    deprecatedAddCapabilities: Option<seq<string>>)

  datatype CapabilitiesSpec = CapabilitiesSpec(add: Option<seq<string>>, drop: seq<string>)

  datatype ResourceSpec = ResourceSpec(memory: string, cpu: string, gpu: int, gpuKind: string)

  // ---- The other kinds --------------------------------------------------

  datatype PlacementSpec = PlacementSpec(location: string)

  datatype StackSpec = StackSpec(
    description: string,
    placement: Option<PlacementSpec>,
    env: Option<map<string, string>>,
    secretEnv: seq<string>)
  {
    function Location(): string { if placement.Some? then placement.value.location else "" }
  }

  datatype DatabasePlacementSpec = DatabasePlacementSpec(location: string, legacyInstance: string)

  datatype DatabaseSpec = DatabaseSpec(
    engine: string,
    version: string,
    inst: string,
    placement: Option<DatabasePlacementSpec>,
    resources: Option<DatabaseResourcesSpec>,
    readOnlyUser: Option<bool>)
  {
    function Location(): string { if placement.Some? then placement.value.location else "" }
  }

  datatype DatabaseResourcesSpec = DatabaseResourcesSpec(memory: string, cpu: string, size: string)

  datatype VolumeSpec = VolumeSpec(
    size: string,
    storageClass: string,
    placement: Option<PlacementSpec>)
  {
    function Location(): string { if placement.Some? then placement.value.location else "" }
  }

  datatype RouteSpec = RouteSpec(
    hosts: seq<string>,
    app: string,
    port: int,
    path: string,
    tls: string,
    certificate: string,
    tlsProvider: string,
    rewrite: string,
    methods: seq<string>,
    advancedConfig: string,
    exploitProtection: Option<bool>,
    maintenance: Option<RouteMaintenanceSpec>,
    middlewares: seq<string>)

  datatype RouteMaintenanceSpec = RouteMaintenanceSpec(enabled: bool, statusCode: int, message: string)

  datatype SecretSpec = SecretSpec(
    value: string,
    generate: bool,
    length: int,
    symbols: Option<bool>,
    minNumbers: int,
    minSpecial: int)
  {
    function WantSymbols(): bool {
      if symbols.Some? then symbols.value else minSpecial > 0
    }
  }

  datatype SealedSecretSpec = SealedSecretSpec(value: string, sealedFP: string)

  datatype DomainSpec = DomainSpec(tls: string, wildcard: bool)

  datatype RegistrySpec = RegistrySpec(
    server: string,
    username: string,
    password: string,
    passwordFP: string)

  datatype ProjectSpec = ProjectSpec(description: string)

  datatype ConfigSpec = ConfigSpec(
    data: map<string, string>,
    mode: string,
    sensitive: bool,
    delimiters: seq<string>,
    digestFP: string)

  /** A value of a middleware rule, as decoded from YAML. */
  datatype RuleValue =
    | RuleString(text: string)
    | RuleMap(entries: map<string, RuleValue>)
    | RuleList(items: seq<RuleValue>)
    | RuleScalar(raw: string)

  datatype MiddlewareSpec = MiddlewareSpec(
    kind: string,
    paths: seq<string>,
    rule: map<string, RuleValue>,
    ruleFP: string)

  datatype CronJobSpec = CronJobSpec(
    app: string,
    schedule: string,
    command: seq<string>,
    entrypoint: seq<string>,
    image: string,
    registry: string,
    timeoutSeconds: int,
    concurrencyPolicy: string,
    historyLimit: int,
    suspended: Option<bool>,
    security: Option<SecuritySpec>)
  {
    function RunAsUser(): string { if security.Some? then security.value.runAsUser else "" }
  }

  const RUN_ON_CHANGE := "onChange"

  datatype JobSpec = JobSpec(
    app: string,
    command: seq<string>,
    entrypoint: seq<string>,
    image: string,
    registry: string,
    timeoutSeconds: int,
    runPolicy: string,
    waitForDeploy: Option<bool>,
    historyLimit: int,
    backoffLimit: int,
    security: Option<SecuritySpec>,
    specFP: string)
  {
    function Policy(): string { if runPolicy == "" then RUN_ON_CHANGE else runPolicy }

    function Waits(): bool { Policy() == RUN_ON_CHANGE && waitForDeploy.GetOr(true) }

    function RunAsUser(): string { if security.Some? then security.value.runAsUser else "" }
  }

  datatype GitSourceSpec = GitSourceSpec(
    repo: string,
    repository: string,
    ref: string,
    path: string,
    syncPolicy: string,
    prune: bool,
    selfHeal: bool,
    allowEmpty: bool,
    requireSealedSecrets: bool,
    deletePolicy: string)

  datatype GitRepositorySpec = GitRepositorySpec(
    url: string,
    auth: string,
    username: string,
    secretRef: string)

  // ---- Keys -------------------------------------------------------------

  /** The two parts `Resource.Key` joins; a UID index uses the same pairs. */
  datatype Id = ResourceId(kind: Kind, name: string)

  function KeyOf(k: Kind, name: string): string {
    KindName(k) + "/" + name
  }

  /** Secret and SealedSecret share one vault, so a name is either, never both. */
  predicate IsVaultSecret(k: Kind) {
    k == KindSecret || k == KindSealedSecret
  }

  lemma KindNameHasNoSlash(k: Kind)
    ensures '/' !in KindName(k)
  {}

  lemma {:induction false} KindNameInjective(a: Kind, b: Kind)
    requires KindName(a) == KindName(b)
    ensures a == b
  {}

  /** A key decides the kind and the name: no two resources collide. */
  lemma KeyInjective(a: Kind, x: string, b: Kind, y: string)
    requires KeyOf(a, x) == KeyOf(b, y)
    ensures a == b && x == y
  {
    var p, q := KindName(a), KindName(b);
    KindNameHasNoSlash(a);
    KindNameHasNoSlash(b);
    assert KeyOf(a, x)[|p|] == '/' && KeyOf(b, y)[|q|] == '/';
    assert forall i | 0 <= i < |p| :: KeyOf(a, x)[i] == p[i] != '/';
    assert forall i | 0 <= i < |q| :: KeyOf(b, y)[i] == q[i] != '/';
    assert |p| == |q|;
    assert KeyOf(a, x)[..|p|] == p && KeyOf(b, y)[..|q|] == q;
    KindNameInjective(a, b);
    assert KeyOf(a, x)[|p| + 1..] == x && KeyOf(b, y)[|q| + 1..] == y;
  }
}
