/** What applying an update leaves behind: the live resource with everything
    the manifest states laid over it. The apply services are not part of this
    model; this is the effect the planner expects of them. */
module Overlay {
  import opened Diffs
  import opened Fields
  import opened Jobs
  import opened Schema
  import opened Text
  import opened Wrappers

  // ---- Laying a spec over a spec -------------------------------------------

  function Pick(stated: string, kept: string): string {
    if stated != "" then stated else kept
  }

  function PickCount(stated: int, kept: int): int {
    if stated > 0 then stated else kept
  }

  function PickOption<T>(stated: Option<T>, kept: Option<T>): Option<T> {
    if stated.Some? then stated else kept
  }

  function OverApplicationPlacement(a: Option<ApplicationPlacementSpec>, d: Option<ApplicationPlacementSpec>)
    : Option<ApplicationPlacementSpec>
  {
    if a.None? || d.None? then PickOption(d, a)
    else Some(ApplicationPlacementSpec(Pick(d.value.location, a.value.location),
                                       PickOption(d.value.constraints, a.value.constraints)))
  }

  function OverDeployment(a: Option<DeploymentSpec>, d: Option<DeploymentSpec>): Option<DeploymentSpec> {
    if a.None? || d.None? then PickOption(d, a)
    else Some(DeploymentSpec(Pick(d.value.runtime, a.value.runtime),
                             PickCount(d.value.replicas, a.value.replicas),
                             Pick(d.value.strategy, a.value.strategy),
                             PickOption(d.value.update, a.value.update)))
  }

  function OverHealth(a: Option<HealthcheckSpec>, d: Option<HealthcheckSpec>): Option<HealthcheckSpec> {
    if a.None? || d.None? then PickOption(d, a)
    else
      var x, y := d.value, a.value;
      Some(HealthcheckSpec(x.kind, Pick(x.path, y.path), PickCount(x.port, y.port), Pick(x.command, y.command),
                           PickCount(x.intervalSeconds, y.intervalSeconds),
                           PickCount(x.timeoutSeconds, y.timeoutSeconds),
                           PickCount(x.retries, y.retries),
                           PickCount(x.startPeriodSeconds, y.startPeriodSeconds)))
  }

  function OverApplication(a: ApplicationSpec, d: ApplicationSpec): ApplicationSpec {
    d.(stack := Pick(d.stack, a.stack),
       placement := OverApplicationPlacement(a.placement, d.placement),
       deployment := OverDeployment(a.deployment, d.deployment),
       healthcheck := OverHealth(a.healthcheck, d.healthcheck))
  }

  function OverPlacement(a: Option<PlacementSpec>, d: Option<PlacementSpec>): Option<PlacementSpec> {
    if a.None? || d.None? then PickOption(d, a)
    else Some(PlacementSpec(Pick(d.value.location, a.value.location)))
  }

  function OverStack(a: StackSpec, d: StackSpec): StackSpec {
    var env := PickOption(d.env, a.env);
    StackSpec(d.description, OverPlacement(a.placement, d.placement), env,
              if d.env.Some? then d.secretEnv else a.secretEnv)
  }

  function OverDatabase(a: DatabaseSpec, d: DatabaseSpec): DatabaseSpec {
    var placement :=
      if a.placement.None? || d.placement.None? then PickOption(d.placement, a.placement)
      else Some(DatabasePlacementSpec(Pick(d.placement.value.location, a.placement.value.location),
                                      d.placement.value.legacyInstance));
    var resources :=
      if a.resources.None? || d.resources.None? then PickOption(d.resources, a.resources)
      else Some(DatabaseResourcesSpec(Pick(d.resources.value.memory, a.resources.value.memory),
                                      Pick(d.resources.value.cpu, a.resources.value.cpu),
                                      Pick(d.resources.value.size, a.resources.value.size)));
    d.(placement := placement, resources := resources,
       readOnlyUser := PickOption(d.readOnlyUser, a.readOnlyUser))
  }

  function OverVolume(a: VolumeSpec, d: VolumeSpec): VolumeSpec {
    VolumeSpec(Pick(d.size, a.size),
               if TrimSpace(d.storageClass) != "" then d.storageClass else a.storageClass,
               OverPlacement(a.placement, d.placement))
  }

  /** A stored job carries the fingerprint of what it last ran. */
  function Stamped(m: Models, spec: Spec): Spec {
    match spec
    case JobOf(j) => JobOf(j.(specFP := Fingerprint(m, j)))
    case _ => spec
  }

  function OverSpec(m: Models, a: Spec, d: Spec): Spec {
    if a.ApplicationOf? && d.ApplicationOf? then ApplicationOf(OverApplication(a.application, d.application))
    else if a.StackOf? && d.StackOf? then StackOf(OverStack(a.stack, d.stack))
    else if a.DatabaseOf? && d.DatabaseOf? then DatabaseOf(OverDatabase(a.database, d.database))
    else if a.VolumeOf? && d.VolumeOf? then VolumeOf(OverVolume(a.volume, d.volume))
    else if a.CronJobOf? && d.CronJobOf? then
      CronJobOf(d.cronJob.(suspended := PickOption(d.cronJob.suspended, a.cronJob.suspended)))
    else if a.RegistryOf? && d.RegistryOf? then
      RegistryOf(d.registry.(passwordFP := Pick(d.registry.passwordFP, a.registry.passwordFP)))
    else if a.MiddlewareOf? && d.MiddlewareOf? then
      MiddlewareOf(d.middleware.(ruleFP := Pick(d.middleware.ruleFP, a.middleware.ruleFP)))
    else Stamped(m, d)
  }

  /** An update keeps the live name, UID and labels. Sealing a plain secret
      turns the same vault entry into a sealed one. */
  function Updated(m: Models, a: Resource, d: Resource): Resource {
    Resource(d.apiVersion, d.kind, a.meta, OverSpec(m, a.spec, d.spec))
  }

  function Created(m: Models, d: Resource): Resource {
    d.(spec := Stamped(m, d.spec))
  }

  // ---- Field groups of an application --------------------------------------

  /** The sections every field of which is optional when unset. */
  predicate OptionalSection(f: Field) {
    f == Plain("stack") || (f.In? && f.section in {Placement, Deployment, Healthcheck})
  }

  function HeadFields(a: ApplicationSpec): FieldMap {
    map[Plain("image") := a.image, Plain("tag") := a.tag, Plain("digest") := a.digest]
    + SourceFields(a.source)
    + map[Plain("command") := Join(a.command, " "), Plain("registry") := a.registry]
  }

  function TailFields(m: Models, a: ApplicationSpec): FieldMap {
    StatedIf(a.configFP != "", Plain("configFP"), a.configFP)
    + Keyed(ContainerLabels, Unreserved(a.containerLabels))
    + ResourceFields(m, a.resources)
    + Keyed(Env, Masked(a.env, a.secretEnv))
    + PortFields(a.ports)
  }

  function StackField(stack: string): FieldMap {
    StatedIf(stack != "", Plain("stack"), stack)
  }

  lemma ApplicationGroups(m: Models, a: ApplicationSpec)
    ensures ApplicationFields(m, a) ==
      HeadFields(a) + StackField(a.stack) + SecurityFields(m, a)
      + PlacementFields(a.Location(), a.Constraints()) + DeploymentFields(a.deployment)
      + HealthFields(a.healthcheck) + TailFields(m, a)
  {
    var head := HeadFields(a) + StackField(a.stack) + SecurityFields(m, a)
      + PlacementFields(a.Location(), a.Constraints()) + DeploymentFields(a.deployment)
      + HealthFields(a.healthcheck);
    var t1 := StatedIf(a.configFP != "", Plain("configFP"), a.configFP);
    var t2 := Keyed(ContainerLabels, Unreserved(a.containerLabels));
    var t3 := ResourceFields(m, a.resources);
    var t4 := Keyed(Env, Masked(a.env, a.secretEnv));
    var t5 := PortFields(a.ports);
    PlusAssociates(head, t1 + t2 + t3 + t4, t5);
    PlusAssociates(head, t1 + t2 + t3, t4);
    PlusAssociates(head, t1 + t2, t3);
    PlusAssociates(head, t1, t2);
  }

  lemma HeadIsNotOptional(a: ApplicationSpec, f: Field)
    requires f in HeadFields(a)
    ensures !OptionalSection(f)
  {
    hide SourceScalars, Keyed;
    if f in SourceFields(a.source) {
      SourceSection(a.source, f);
    }
  }

  lemma SourceSection(source: Option<SourceSpec>, f: Field)
    requires f in SourceFields(source)
    ensures f.In? && f.section in {Source, BuildEnv}
  {
    hide Keyed;
    var scalars := SourceScalars(source.value);
    assert f in scalars || f in Keyed(BuildEnv, source.value.buildEnv);
    assert forall g | g in scalars :: g.In? && g.section == Source;
  }

  lemma {:induction false} PortsAreNotOptional(ports: seq<PortSpec>, f: Field)
    requires f in PortFields(ports)
    ensures f.In? && f.section == Port
  {
    if f !in PortField(ports[|ports| - 1]) {
      PortsAreNotOptional(ports[..|ports| - 1], f);
    }
  }

  lemma ResourcesAreNotOptional(m: Models, resources: Option<ResourceSpec>, f: Field)
    requires f in ResourceFields(m, resources)
    ensures f.In? && f.section == Resources
  {}

  /** `over` states what `want` does, and otherwise only fields of `opt`. */
  ghost predicate Lays(over: FieldMap, want: FieldMap, opt: set<Field>) {
    && (forall f | f in want :: f in over && over[f] == want[f])
    && (forall f | f in over :: f in want || f in opt)
  }

  /** Laying two groups over side by side, when neither adds what the other states. */
  lemma LaysTogether(over1: FieldMap, want1: FieldMap, over2: FieldMap, want2: FieldMap, opt: set<Field>)
    requires Lays(over1, want1, opt) && Lays(over2, want2, opt)
    requires forall f | f in over2 && f in want1 :: f in want2
    ensures Lays(over1 + over2, want1 + want2, opt)
  {}

  ghost predicate InSection(fields: FieldMap, section: Section) {
    forall f | f in fields :: f.In? && f.section == section
  }

  /** `over` lists the fields of `want`, in order, and states what it states. */
  ghost predicate Covers(over: seq<Entry>, want: seq<Entry>) {
    && |over| == |want|
    && (forall i | 0 <= i < |over| :: over[i].field == want[i].field)
    && (forall i | 0 <= i < |over| :: want[i].stated ==> over[i].stated && over[i].value == want[i].value)
    && DistinctFields(over)
  }

  ghost predicate DistinctFields(entries: seq<Entry>) {
    forall i, j | 0 <= i < j < |entries| :: entries[i].field != entries[j].field
  }

  ghost predicate EntriesWithin(entries: seq<Entry>, opt: set<Field>) {
    forall i | 0 <= i < |entries| :: entries[i].field in opt
  }

  lemma {:induction false} StatedFieldsAreEntries(entries: seq<Entry>, opt: set<Field>)
    requires EntriesWithin(entries, opt)
    ensures Stated(entries).Keys <= opt
  {
    if entries != [] {
      StatedFieldsAreEntries(entries[..|entries| - 1], opt);
    }
  }

  lemma LayOne(over: FieldMap, want: FieldMap, x: Entry, y: Entry, opt: set<Field>)
    requires Lays(over, want, opt) && y.field !in want
    requires x.field == y.field && x.field in opt && (y.stated ==> x.stated && x.value == y.value)
    ensures Lays(over + StatedIf(x.stated, x.field, x.value), want + StatedIf(y.stated, y.field, y.value), opt)
  {}

  lemma {:induction false} CoveringLays(over: seq<Entry>, want: seq<Entry>, opt: set<Field>)
    requires Covers(over, want) && EntriesWithin(over, opt)
    ensures Lays(Stated(over), Stated(want), opt)
  {
    if over != [] {
      var n := |over| - 1;
      var x, y := over[n], want[n];
      CoveringLays(over[..n], want[..n], opt);
      var earlier := set i | 0 <= i < n :: want[i].field;
      assert EntriesWithin(want[..n], earlier);
      StatedFieldsAreEntries(want[..n], earlier);
      LayOne(Stated(over[..n]), Stated(want[..n]), x, y, opt);
    }
  }

  lemma DeploymentCovers(a: DeploymentSpec, d: DeploymentSpec)
    ensures Covers(DeploymentEntries(OverDeployment(Some(a), Some(d)).value), DeploymentEntries(d))
  {}

  lemma HealthFieldsDiffer(hc: HealthcheckSpec)
    ensures DistinctFields(HealthEntries(hc))
  {}

  lemma HealthCovers(a: HealthcheckSpec, d: HealthcheckSpec)
    ensures Covers(HealthEntries(OverHealth(Some(a), Some(d)).value), HealthEntries(d))
  {
    HealthFieldsDiffer(OverHealth(Some(a), Some(d)).value);
  }

  lemma DatabaseCovers(m: Models, a: DatabaseSpec, d: DatabaseSpec)
    ensures Covers(DatabaseEntries(m, OverDatabase(a, d)), DatabaseEntries(m, d))
  {}

  lemma VolumeCovers(m: Models, a: VolumeSpec, d: VolumeSpec)
    ensures Covers(VolumeEntries(m, OverVolume(a, d)), VolumeEntries(m, d))
  {}

  const PLACEMENT: set<Field> := {In(Placement, "location"), In(Placement, "constraints")}

  const DEPLOYMENT: set<Field> := {
    In(Deployment, "strategy"), In(Deployment, "runtime"), In(Deployment, "replicas"),
    In(Deployment, "update.parallelism"), In(Deployment, "update.delaySeconds")}

  const HEALTHCHECK: set<Field> := {
    In(Healthcheck, "type"), In(Healthcheck, "path"), In(Healthcheck, "port"), In(Healthcheck, "command"),
    In(Healthcheck, "intervalSeconds"), In(Healthcheck, "timeoutSeconds"), In(Healthcheck, "retries"),
    In(Healthcheck, "startPeriodSeconds")}

  lemma OptionalSections()
    ensures PLACEMENT + DEPLOYMENT + HEALTHCHECK + {Plain("stack")} == OPTIONAL_WHEN_UNSET
  {}

  lemma PlacementLays(a: ApplicationSpec, d: ApplicationSpec)
    ensures var over := OverApplication(a, d);
      Lays(PlacementFields(over.Location(), over.Constraints()), PlacementFields(d.Location(), d.Constraints()),
           PLACEMENT)
      && InSection(PlacementFields(over.Location(), over.Constraints()), Placement)
  {
    var over := OverApplication(a, d);
    StatedFieldsAreEntries(PlacementEntries(over.Location(), over.Constraints()), PLACEMENT);
    CoveringLays(PlacementEntries(over.Location(), over.Constraints()),
                 PlacementEntries(d.Location(), d.Constraints()), PLACEMENT);
  }

  lemma DeploymentWithin(d: DeploymentSpec)
    ensures EntriesWithin(DeploymentEntries(d), DEPLOYMENT)
  {}

  lemma DeploymentLays(a: Option<DeploymentSpec>, d: Option<DeploymentSpec>)
    ensures Lays(DeploymentFields(OverDeployment(a, d)), DeploymentFields(d), DEPLOYMENT)
    ensures InSection(DeploymentFields(OverDeployment(a, d)), Deployment)
  {
    var over := OverDeployment(a, d);
    if over.Some? {
      DeploymentWithin(over.value);
      StatedFieldsAreEntries(DeploymentEntries(over.value), DEPLOYMENT);
      if a.Some? && d.Some? {
        DeploymentCovers(a.value, d.value);
        CoveringLays(DeploymentEntries(over.value), DeploymentEntries(d.value), DEPLOYMENT);
      }
    }
  }

  lemma HealthWithin(hc: HealthcheckSpec)
    ensures EntriesWithin(HealthEntries(hc), HEALTHCHECK)
  {}

  lemma HealthLays(a: Option<HealthcheckSpec>, d: Option<HealthcheckSpec>)
    ensures Lays(HealthFields(OverHealth(a, d)), HealthFields(d), HEALTHCHECK)
    ensures InSection(HealthFields(OverHealth(a, d)), Healthcheck)
  {
    var over := OverHealth(a, d);
    if over.Some? {
      HealthWithin(over.value);
      StatedFieldsAreEntries(HealthEntries(over.value), HEALTHCHECK);
      if a.Some? && d.Some? {
        HealthCovers(a.value, d.value);
        CoveringLays(HealthEntries(over.value), HealthEntries(d.value), HEALTHCHECK);
      }
    }
  }
}
