/** What the diff of two applications says, field by field. */
module DiffNamesApplications {
  import opened Diffs
  import opened DiffNames
  import opened Encodings
  import opened Fields
  import opened Groups
  import opened ObservedApplications
  import opened Overlay
  import opened Readings
  import opened Schema
  import opened Settling
  import opened Text
  import opened Visible
  import opened Wrappers

  // ---- One field ------------------------------------------------------------------

  ghost predicate BothApplications(a: Resource, d: Resource) {
    d.kind == KindApplication && a.spec.ApplicationOf? && d.spec.ApplicationOf?
  }

  lemma PartsAre(m: Models, a: ApplicationSpec)
    ensures var ps := ApplicationParts(m, a);
      && |ps| == 13 && ps[0] == ImageFields(a) && ps[1] == SourceFields(a.source) && ps[2] == CommandFields(a)
      && ps[3] == StackField(a.stack) && ps[4] == SecurityFields(m, a)
      && ps[5] == PlacementFields(a.Location(), a.Constraints()) && ps[6] == DeploymentFields(a.deployment)
      && ps[7] == HealthFields(a.healthcheck) && ps[8] == ConfigField(a.configFP) && ps[9] == LabelFields(a)
      && ps[10] == ResourceFields(m, a.resources) && ps[11] == EnvFields(a) && ps[12] == PortFields(a.ports)
  {
    hide ImageFields, SourceFields, CommandFields, StackField, SecurityFields, PlacementFields, DeploymentFields,
         HealthFields, ConfigField, LabelFields, ResourceFields, EnvFields, PortFields;
  }

  /** The group of the field `f` of an application. */
  ghost function PartWith(m: Models, a: ApplicationSpec, f: Field): FieldMap {
    if 0 <= PartOf(f) < |ApplicationParts(m, a)| then ApplicationParts(m, a)[PartOf(f)] else map[]
  }

  lemma PartShows(m: Models, a: Resource, d: Resource, f: Field, compared: bool, from: string, to: string)
    requires BothApplications(a, d) && 0 <= PartOf(f) < 13
    requires Reads(PartWith(m, a.spec.application, f), f, from) && Reads(PartWith(m, d.spec.application, f), f, to)
    requires f in OPTIONAL_WHEN_UNSET ==> (f in PartWith(m, d.spec.application, f) <==> compared)
    requires f !in OPTIONAL_WHEN_UNSET ==> compared
    ensures Shows(Diff(m, a, d), f, compared, from, to)
  {
    hide ApplicationFields, ApplicationParts, Diff, Shows, PartOf, OPTIONAL_WHEN_UNSET;
    ApplicationGet(m, a.spec.application, f);
    ApplicationGet(m, d.spec.application, f);
    FieldShows(m, a, d, f, compared, from, to);
  }

  lemma NotOptional(f: Field)
    requires f != Plain("stack") && (f.In? ==> f.section !in {Placement, Deployment, Healthcheck})
    ensures f !in OPTIONAL_WHEN_UNSET
  {
    OptionalSections();
  }

  lemma AlwaysPart(m: Models, a: Resource, d: Resource, f: Field, from: string, to: string)
    requires BothApplications(a, d) && 0 <= PartOf(f) < 13
    requires f != Plain("stack") && (f.In? ==> f.section !in {Placement, Deployment, Healthcheck})
    requires Reads(PartWith(m, a.spec.application, f), f, from) && Reads(PartWith(m, d.spec.application, f), f, to)
    ensures Shows(Diff(m, a, d), f, true, from, to)
  {
    hide Diff, Shows, PartOf, PartWith, OPTIONAL_WHEN_UNSET;
    NotOptional(f);
    PartShows(m, a, d, f, true, from, to);
  }

  lemma PartIs(m: Models, a: ApplicationSpec, f: Field, i: nat)
    requires i < 13 && PartOf(f) == i
    ensures |ApplicationParts(m, a)| == 13 && PartWith(m, a, f) == ApplicationParts(m, a)[i]
  {
    hide ApplicationParts, PartOf;
    EnvPart(m, a);
  }

  // ---- Image, command and registry ----------------------------------------------------

  lemma ImageParts()
    ensures PartOf(Plain("image")) == PartOf(Plain("tag")) == PartOf(Plain("digest")) == 0
    ensures PartOf(Plain("command")) == PartOf(Plain("registry")) == 2
    ensures PartOf(Plain("stack")) == 3 && PartOf(Plain("configFP")) == 8
  {}

  lemma ImageRead(a: ApplicationSpec)
    ensures var f := ImageFields(a);
      Reads(f, Plain("image"), a.image) && Reads(f, Plain("tag"), a.tag) && Reads(f, Plain("digest"), a.digest)
    ensures var f := CommandFields(a);
      Reads(f, Plain("command"), Join(a.command, " ")) && Reads(f, Plain("registry"), a.registry)
  {
    hide Join;
  }

  lemma PlainRead(m: Models, a: ApplicationSpec)
    ensures Reads(PartWith(m, a, Plain("image")), Plain("image"), a.image)
    ensures Reads(PartWith(m, a, Plain("tag")), Plain("tag"), a.tag)
    ensures Reads(PartWith(m, a, Plain("digest")), Plain("digest"), a.digest)
    ensures Reads(PartWith(m, a, Plain("command")), Plain("command"), Join(a.command, " "))
    ensures Reads(PartWith(m, a, Plain("registry")), Plain("registry"), a.registry)
  {
    hide ApplicationParts, PartOf, PartWith, Join, ImageFields, CommandFields, Reads;
    ImageParts();
    ImageRead(a);
    PartsAre(m, a);
    PartIs(m, a, Plain("image"), 0);
    PartIs(m, a, Plain("tag"), 0);
    PartIs(m, a, Plain("digest"), 0);
    PartIs(m, a, Plain("command"), 2);
    PartIs(m, a, Plain("registry"), 2);
  }

  lemma PlainIfRead(m: Models, a: ApplicationSpec)
    ensures Reads(PartWith(m, a, Plain("configFP")), Plain("configFP"), a.configFP)
    ensures Reads(PartWith(m, a, Plain("stack")), Plain("stack"), a.stack)
    ensures Plain("stack") in PartWith(m, a, Plain("stack")) <==> a.stack != ""
  {
    hide ApplicationParts, PartOf, PartWith;
    ImageParts();
    PartsAre(m, a);
    PartIs(m, a, Plain("configFP"), 8);
    PartIs(m, a, Plain("stack"), 3);
  }

  /** Image, command, registry and config fingerprint always, the stack if stated. */
  lemma ImageDiff(m: Models, a: Resource, d: Resource)
    requires BothApplications(a, d)
    ensures var diff, x, y := Diff(m, a, d), a.spec.application, d.spec.application;
      && Shows(diff, Plain("image"), true, x.image, y.image) && Shows(diff, Plain("tag"), true, x.tag, y.tag)
      && Shows(diff, Plain("digest"), true, x.digest, y.digest)
      && Shows(diff, Plain("command"), true, Join(x.command, " "), Join(y.command, " "))
      && Shows(diff, Plain("registry"), true, x.registry, y.registry)
      && Shows(diff, Plain("configFP"), true, x.configFP, y.configFP)
      && Shows(diff, Plain("stack"), y.stack != "", x.stack, y.stack)
  {
    hide Diff, Shows, Reads, PartOf, PartWith, Join, OPTIONAL_WHEN_UNSET;
    var x, y := a.spec.application, d.spec.application;
    ImageParts();
    PlainRead(m, x);
    PlainRead(m, y);
    PlainIfRead(m, x);
    PlainIfRead(m, y);
    AlwaysPart(m, a, d, Plain("image"), x.image, y.image);
    AlwaysPart(m, a, d, Plain("tag"), x.tag, y.tag);
    AlwaysPart(m, a, d, Plain("digest"), x.digest, y.digest);
    AlwaysPart(m, a, d, Plain("command"), Join(x.command, " "), Join(y.command, " "));
    AlwaysPart(m, a, d, Plain("registry"), x.registry, y.registry);
    AlwaysPart(m, a, d, Plain("configFP"), x.configFP, y.configFP);
    OptionalFields();
    PartShows(m, a, d, Plain("stack"), y.stack != "", x.stack, y.stack);
  }

  lemma OptionalFields()
    ensures Plain("stack") in OPTIONAL_WHEN_UNSET
    ensures forall f | f in PLACEMENT + DEPLOYMENT + HEALTHCHECK :: f in OPTIONAL_WHEN_UNSET
  {
    OptionalSections();
  }

  // ---- The build source -----------------------------------------------------------------

  lemma ScalarsRead(s: SourceSpec)
    ensures var f := SourceScalars(s);
      && Reads(f, In(Source, "git"), s.git) && Reads(f, In(Source, "ref"), s.ref)
      && Reads(f, In(Source, "buildMethod"), s.buildMethod) && Reads(f, In(Source, "builder"), s.builder)
      && Reads(f, In(Source, "buildpacks"), Join(s.buildpacks, ",")) && Reads(f, In(Source, "repository"), s.repository)
  {
    hide Join;
  }

  lemma SourceRead(source: Option<SourceSpec>, k: string)
    ensures var f, s := SourceFields(source), source.GetOr(NoSource);
      && Reads(f, In(Source, "git"), s.git) && Reads(f, In(Source, "ref"), s.ref)
      && Reads(f, In(Source, "buildMethod"), s.buildMethod) && Reads(f, In(Source, "builder"), s.builder)
      && Reads(f, In(Source, "buildpacks"), Join(s.buildpacks, ",")) && Reads(f, In(Source, "repository"), s.repository)
      && Reads(f, In(BuildEnv, k), Get(s.buildEnv, k))
  {
    hide SourceScalars, Keyed, Join;
    var s := source.GetOr(NoSource);
    ScalarsRead(s);
    ScalarsStay(s);
    KeyedGet(BuildEnv, s.buildEnv, k);
    forall f: Field
      ensures Get(SourceFields(source), f) == Get(SourceFields(Some(s)), f)
    {
      NoSourceReads(source, f);
    }
    JoinedSource(s, k);
    hide SourceFields;
  }

  lemma ScalarsStay(s: SourceSpec)
    ensures forall f | f in SourceScalars(s) :: f.In? && f.section == Source
  {
    hide Join;
  }

  lemma JoinedSource(s: SourceSpec, k: string)
    ensures var f := SourceFields(Some(s));
      && (forall n: string {:trigger In(Source, n)} :: Get(f, In(Source, n)) == Get(SourceScalars(s), In(Source, n)))
      && Get(f, In(BuildEnv, k)) == Get(Keyed(BuildEnv, s.buildEnv), In(BuildEnv, k))
  {
    hide SourceScalars, Keyed;
    ScalarsStay(s);
    var base, keyed := SourceScalars(s), Keyed(BuildEnv, s.buildEnv);
    forall n: string {:trigger In(Source, n)}
      ensures Get(base + keyed, In(Source, n)) == Get(base, In(Source, n))
    {
      assert In(Source, n) !in keyed;
    }
    JoinReads(base, keyed, In(BuildEnv, k));
  }

  /** The source a build starts from, no source read as an empty one. */
  lemma SourceDiff(m: Models, a: Resource, d: Resource, k: string)
    requires BothApplications(a, d)
    ensures var diff := Diff(m, a, d);
      var x, y := a.spec.application.source.GetOr(NoSource), d.spec.application.source.GetOr(NoSource);
      && Shows(diff, In(Source, "git"), true, x.git, y.git) && Shows(diff, In(Source, "ref"), true, x.ref, y.ref)
      && Shows(diff, In(Source, "buildMethod"), true, x.buildMethod, y.buildMethod)
      && Shows(diff, In(Source, "builder"), true, x.builder, y.builder)
      && Shows(diff, In(Source, "buildpacks"), true, Join(x.buildpacks, ","), Join(y.buildpacks, ","))
      && Shows(diff, In(Source, "repository"), true, x.repository, y.repository)
      && Shows(diff, In(BuildEnv, k), true, Get(x.buildEnv, k), Get(y.buildEnv, k))
  {
    hide Diff, Shows, Reads, Join, SourceFields;
    var x, y := a.spec.application.source.GetOr(NoSource), d.spec.application.source.GetOr(NoSource);
    SourceRead(a.spec.application.source, k);
    SourceRead(d.spec.application.source, k);
    SourceShows(m, a, d, In(Source, "git"), x.git, y.git);
    SourceShows(m, a, d, In(Source, "ref"), x.ref, y.ref);
    SourceShows(m, a, d, In(Source, "buildMethod"), x.buildMethod, y.buildMethod);
    SourceShows(m, a, d, In(Source, "builder"), x.builder, y.builder);
    SourceShows(m, a, d, In(Source, "buildpacks"), Join(x.buildpacks, ","), Join(y.buildpacks, ","));
    SourceShows(m, a, d, In(Source, "repository"), x.repository, y.repository);
    SourceShows(m, a, d, In(BuildEnv, k), Get(x.buildEnv, k), Get(y.buildEnv, k));
  }

  lemma SourceShows(m: Models, a: Resource, d: Resource, f: Field, from: string, to: string)
    requires BothApplications(a, d) && f.In? && f.section in {Source, BuildEnv}
    requires Reads(SourceFields(a.spec.application.source), f, from)
    requires Reads(SourceFields(d.spec.application.source), f, to)
    ensures Shows(Diff(m, a, d), f, true, from, to)
  {
    hide Diff, Shows, Reads, ApplicationParts, PartOf, ImageFields, SourceFields, CommandFields, StackField,
      SecurityFields, PlacementFields, DeploymentFields, HealthFields, ConfigField, LabelFields, ResourceFields,
      EnvFields, PortFields;
    PartsAre(m, a.spec.application);
    PartsAre(m, d.spec.application);
    SourcePart(f);
    GroupShows(m, a, d, f, 1, SourceFields(a.spec.application.source), SourceFields(d.spec.application.source), from,
      to);
  }

  lemma SourcePart(f: Field)
    requires f.In? && f.section in {Source, BuildEnv}
    ensures PartOf(f) == 1
  {}

  // ---- Security ----------------------------------------------------------------------------

  /** A list as its normaliser gives it, or as it is when that refuses. */
  function NormalText(given: seq<string>, normalize: seq<string> -> Option<seq<string>>): string {
    Join(if normalize(given).Some? then normalize(given).value else given, ",")
  }

  function SecurityOf(a: ApplicationSpec): SecuritySpec {
    if a.security.Some? then a.security.value else SecuritySpec("", false, None, None, [], None)
  }

  function AddedBy(s: SecuritySpec): seq<string> {
    if s.capabilities.Some? && s.capabilities.value.add.Some? then s.capabilities.value.add.value else []
  }

  function DroppedBy(s: SecuritySpec): seq<string> {
    if s.capabilities.Some? then s.capabilities.value.drop else []
  }

  lemma SecurityRead(m: Models, a: ApplicationSpec)
    ensures var f := SecurityFields(m, a);
      && Reads(f, In(Security, "runAsUser"), a.RunAsUser())
      && Reads(f, In(Security, "readOnlyRootFilesystem"), FormatBool(a.ReadOnlyRootFilesystem()))
      && Reads(f, In(Security, "noNewPrivileges"), FormatBool(a.NoNewPrivileges()))
      && Reads(f, In(Security, "capabilities.add"), NormalText(a.AddCapabilities().GetOr([]), m.capabilities))
      && Reads(f, In(Security, "capabilities.drop"), NormalText(a.DropCapabilities(), m.dropCapabilities))
      && Reads(f, In(Security, "devices"), NormalText(a.Devices(), m.devices))
  {
    hide FormatBool, Join;
  }

  /** A field outside the optional sections, group by group. */
  lemma GroupShows(m: Models, a: Resource, d: Resource, f: Field, i: nat, g: FieldMap, h: FieldMap, from: string,
                   to: string)
    requires BothApplications(a, d) && i < 13 && PartOf(f) == i
    requires f != Plain("stack") && (f.In? ==> f.section !in {Placement, Deployment, Healthcheck})
    requires |ApplicationParts(m, a.spec.application)| == 13 && ApplicationParts(m, a.spec.application)[i] == g
    requires |ApplicationParts(m, d.spec.application)| == 13 && ApplicationParts(m, d.spec.application)[i] == h
    requires Reads(g, f, from) && Reads(h, f, to)
    ensures Shows(Diff(m, a, d), f, true, from, to)
  {
    hide Diff, Shows, Reads, ApplicationParts, PartOf, PartWith;
    PartIs(m, a.spec.application, f, i);
    PartIs(m, d.spec.application, f, i);
    AlwaysPart(m, a, d, f, from, to);
  }

  /** A field of an optional section: compared when the manifest states it. */
  lemma OptionalGroupShows(m: Models, a: Resource, d: Resource, f: Field, i: nat, g: FieldMap, h: FieldMap,
                           from: string, to: string)
    requires BothApplications(a, d) && i < 13 && PartOf(f) == i && f in OPTIONAL_WHEN_UNSET
    requires |ApplicationParts(m, a.spec.application)| == 13 && ApplicationParts(m, a.spec.application)[i] == g
    requires |ApplicationParts(m, d.spec.application)| == 13 && ApplicationParts(m, d.spec.application)[i] == h
    requires Reads(g, f, from) && Reads(h, f, to)
    ensures Shows(Diff(m, a, d), f, f in h, from, to)
  {
    hide Diff, Shows, Reads, ApplicationParts, PartOf, PartWith, OPTIONAL_WHEN_UNSET;
    PartIs(m, a.spec.application, f, i);
    PartIs(m, d.spec.application, f, i);
    PartShows(m, a, d, f, f in h, from, to);
  }

  lemma SectionParts(n: string)
    ensures PartOf(In(Security, n)) == 4 && PartOf(In(Placement, n)) == 5 && PartOf(In(Deployment, n)) == 6
    ensures PartOf(In(Healthcheck, n)) == 7 && PartOf(In(ContainerLabels, n)) == 9 && PartOf(In(Resources, n)) == 10
    ensures PartOf(In(Env, n)) == 11 && PartOf(In(Port, n)) == 12
  {}

  lemma SecurityShows(m: Models, a: Resource, d: Resource, n: string, from: string, to: string)
    requires BothApplications(a, d)
    requires Reads(SecurityFields(m, a.spec.application), In(Security, n), from)
      && Reads(SecurityFields(m, d.spec.application), In(Security, n), to)
    ensures Shows(Diff(m, a, d), In(Security, n), true, from, to)
  {
    hide Diff, Shows, Reads, ApplicationParts, PartOf, ImageFields, SourceFields, CommandFields, StackField,
      SecurityFields, PlacementFields, DeploymentFields, HealthFields, ConfigField, LabelFields, ResourceFields,
      EnvFields, PortFields;
    PartsAre(m, a.spec.application);
    PartsAre(m, d.spec.application);
    SectionParts(n);
    GroupShows(m, a, d, In(Security, n), 4, SecurityFields(m, a.spec.application),
      SecurityFields(m, d.spec.application), from, to);
  }

  lemma LabelShows(m: Models, a: Resource, d: Resource, n: string, from: string, to: string)
    requires BothApplications(a, d)
    requires Reads(LabelFields(a.spec.application), In(ContainerLabels, n), from)
      && Reads(LabelFields(d.spec.application), In(ContainerLabels, n), to)
    ensures Shows(Diff(m, a, d), In(ContainerLabels, n), true, from, to)
  {
    hide Diff, Shows, Reads, ApplicationParts, PartOf, ImageFields, SourceFields, CommandFields, StackField,
      SecurityFields, PlacementFields, DeploymentFields, HealthFields, ConfigField, LabelFields, ResourceFields,
      EnvFields, PortFields;
    PartsAre(m, a.spec.application);
    PartsAre(m, d.spec.application);
    SectionParts(n);
    GroupShows(m, a, d, In(ContainerLabels, n), 9, LabelFields(a.spec.application), LabelFields(d.spec.application),
      from, to);
  }

  lemma ResourceShows(m: Models, a: Resource, d: Resource, n: string, from: string, to: string)
    requires BothApplications(a, d)
    requires Reads(ResourceFields(m, a.spec.application.resources), In(Resources, n), from)
      && Reads(ResourceFields(m, d.spec.application.resources), In(Resources, n), to)
    ensures Shows(Diff(m, a, d), In(Resources, n), true, from, to)
  {
    hide Diff, Shows, Reads, ApplicationParts, PartOf, ImageFields, SourceFields, CommandFields, StackField,
      SecurityFields, PlacementFields, DeploymentFields, HealthFields, ConfigField, LabelFields, ResourceFields,
      EnvFields, PortFields;
    PartsAre(m, a.spec.application);
    PartsAre(m, d.spec.application);
    SectionParts(n);
    GroupShows(m, a, d, In(Resources, n), 10, ResourceFields(m, a.spec.application.resources),
      ResourceFields(m, d.spec.application.resources), from, to);
  }

  lemma VariableShows(m: Models, a: Resource, d: Resource, n: string, from: string, to: string)
    requires BothApplications(a, d)
    requires Reads(EnvFields(a.spec.application), In(Env, n), from)
      && Reads(EnvFields(d.spec.application), In(Env, n), to)
    ensures Shows(Diff(m, a, d), In(Env, n), true, from, to)
  {
    hide Diff, Shows, Reads, ApplicationParts, PartOf, ImageFields, SourceFields, CommandFields, StackField,
      SecurityFields, PlacementFields, DeploymentFields, HealthFields, ConfigField, LabelFields, ResourceFields,
      EnvFields, PortFields;
    PartsAre(m, a.spec.application);
    PartsAre(m, d.spec.application);
    SectionParts(n);
    GroupShows(m, a, d, In(Env, n), 11, EnvFields(a.spec.application), EnvFields(d.spec.application), from, to);
  }

  lemma PortShows(m: Models, a: Resource, d: Resource, n: string, from: string, to: string)
    requires BothApplications(a, d)
    requires Reads(PortFields(a.spec.application.ports), In(Port, n), from)
      && Reads(PortFields(d.spec.application.ports), In(Port, n), to)
    ensures Shows(Diff(m, a, d), In(Port, n), true, from, to)
  {
    hide Diff, Shows, Reads, ApplicationParts, PartOf, ImageFields, SourceFields, CommandFields, StackField,
      SecurityFields, PlacementFields, DeploymentFields, HealthFields, ConfigField, LabelFields, ResourceFields,
      EnvFields, PortFields;
    PartsAre(m, a.spec.application);
    PartsAre(m, d.spec.application);
    SectionParts(n);
    GroupShows(m, a, d, In(Port, n), 12, PortFields(a.spec.application.ports), PortFields(d.spec.application.ports),
      from, to);
  }

  lemma SecurityDiff(m: Models, a: Resource, d: Resource)
    requires BothApplications(a, d)
    ensures var diff, x, y := Diff(m, a, d), a.spec.application, d.spec.application;
      && Shows(diff, In(Security, "runAsUser"), true, SecurityOf(x).runAsUser, SecurityOf(y).runAsUser)
      && Shows(diff, In(Security, "readOnlyRootFilesystem"), true,
               FormatBool(SecurityOf(x).readOnlyRootFilesystem), FormatBool(SecurityOf(y).readOnlyRootFilesystem))
      && Shows(diff, In(Security, "noNewPrivileges"), true, FormatBool((SecurityOf(x).noNewPrivileges == Some(true))),
        FormatBool((SecurityOf(y).noNewPrivileges == Some(true))))
      && Shows(diff, In(Security, "capabilities.add"), true, NormalText(AddedBy(SecurityOf(x)), m.capabilities),
               NormalText(AddedBy(SecurityOf(y)), m.capabilities))
      && Shows(diff, In(Security, "capabilities.drop"), true, NormalText(DroppedBy(SecurityOf(x)), m.dropCapabilities),
               NormalText(DroppedBy(SecurityOf(y)), m.dropCapabilities))
      && Shows(diff, In(Security, "devices"), true, NormalText(SecurityOf(x).devices, m.devices),
        NormalText(SecurityOf(y).devices, m.devices))
  {
    hide Diff, Shows, Reads, SecurityFields, NormalText, FormatBool;
    var x, y := a.spec.application, d.spec.application;
    SecurityRead(m, x);
    SecurityRead(m, y);
    SecurityShows(m, a, d, "runAsUser", x.RunAsUser(), y.RunAsUser());
    SecurityShows(m, a, d, "readOnlyRootFilesystem", FormatBool(x.ReadOnlyRootFilesystem()),
      FormatBool(y.ReadOnlyRootFilesystem()));
    SecurityShows(m, a, d, "noNewPrivileges", FormatBool(x.NoNewPrivileges()), FormatBool(y.NoNewPrivileges()));
    SecurityShows(m, a, d, "capabilities.add", NormalText(x.AddCapabilities().GetOr([]), m.capabilities),
               NormalText(y.AddCapabilities().GetOr([]), m.capabilities));
    SecurityShows(m, a, d, "capabilities.drop", NormalText(x.DropCapabilities(), m.dropCapabilities),
               NormalText(y.DropCapabilities(), m.dropCapabilities));
    SecurityShows(m, a, d, "devices", NormalText(x.Devices(), m.devices), NormalText(y.Devices(), m.devices));
  }

  // ---- Labels, variables, resources and ports ------------------------------------------------

  /** A label as it is compared: reserved ones are not. */
  function ComparedLabel(labels: map<string, string>, k: string): string {
    if k !in labels || HasPrefix(k, "io.miabi.") || HasPrefix(k, "com.docker.") then "" else labels[k]
  }

  lemma LabelRead(a: ApplicationSpec, k: string)
    ensures Reads(LabelFields(a), In(ContainerLabels, k), ComparedLabel(a.containerLabels, k))
    ensures Reads(EnvFields(a), In(Env, k), ShownVariable(a.env, a.secretEnv, k))
  {
    hide HasPrefix, Keyed;
    KeyedGet(ContainerLabels, Unreserved(a.containerLabels), k);
    KeyedGet(Env, Masked(a.env, a.secretEnv), k);
    MaskedGet(a.env, a.secretEnv, k);
    hide Masked;
  }

  /** Labels and variables, key by key. */
  lemma MapsDiff(m: Models, a: Resource, d: Resource, k: string)
    requires BothApplications(a, d)
    ensures var diff, x, y := Diff(m, a, d), a.spec.application, d.spec.application;
      && Shows(diff, In(ContainerLabels, k), true, ComparedLabel(x.containerLabels, k),
        ComparedLabel(y.containerLabels, k))
      && Shows(diff, In(Env, k), true, ShownVariable(x.env, x.secretEnv, k), ShownVariable(y.env, y.secretEnv, k))
  {
    hide Diff, Shows, Reads, LabelFields, EnvFields, ComparedLabel, ShownVariable;
    var x, y := a.spec.application, d.spec.application;
    LabelRead(x, k);
    LabelRead(y, k);
    LabelShows(m, a, d, k, ComparedLabel(x.containerLabels, k), ComparedLabel(y.containerLabels, k));
    VariableShows(m, a, d, k, ShownVariable(x.env, x.secretEnv, k), ShownVariable(y.env, y.secretEnv, k));
  }

  /** A number as it is printed, and zero as nothing. */
  function Count(n: int): string {
    if n == 0 then "" else Itoa(n)
  }

  lemma ResourcesRead(m: Models, r: Option<ResourceSpec>)
    ensures var f := ResourceFields(m, r);
      && Reads(f, In(Resources, "memory"), Count(if r.Some? then m.memoryBytes(r.value.memory) else 0))
      && Reads(f, In(Resources, "cpu"), Count(if r.Some? then m.nanoCPUs(r.value.cpu) else 0))
      && Reads(f, In(Resources, "gpu"), Count(if r.Some? then r.value.gpu else 0))
      && Reads(f, In(Resources, "gpuKind"), if r.Some? then r.value.gpuKind else "")
  {
    hide Stated, Itoa;
    ResourcesAreEntries(m, r);
    hide ResourceFields;
    var es := ResourceEntries(m, r);
    StatedReads(es, 0);
    StatedReads(es, 1);
    StatedReads(es, 2);
    StatedReads(es, 3);
  }

  /** Memory in bytes, CPU in nano-CPUs, and GPUs. */
  lemma ResourcesDiff(m: Models, a: Resource, d: Resource)
    requires BothApplications(a, d)
    ensures var diff, x, y := Diff(m, a, d), a.spec.application.resources, d.spec.application.resources;
      && Shows(diff, In(Resources, "memory"), true, Count(if x.Some? then m.memoryBytes(x.value.memory) else 0),
               Count(if y.Some? then m.memoryBytes(y.value.memory) else 0))
      && Shows(diff, In(Resources, "cpu"), true, Count(if x.Some? then m.nanoCPUs(x.value.cpu) else 0),
               Count(if y.Some? then m.nanoCPUs(y.value.cpu) else 0))
      && Shows(diff, In(Resources, "gpu"), true, Count(if x.Some? then x.value.gpu else 0),
        Count(if y.Some? then y.value.gpu else 0))
      && Shows(diff, In(Resources, "gpuKind"), true,
               if x.Some? then x.value.gpuKind else "", if y.Some? then y.value.gpuKind else "")
  {
    hide Diff, Shows, Reads, ResourceFields, Count;
    var x, y := a.spec.application.resources, d.spec.application.resources;
    ResourcesRead(m, x);
    ResourcesRead(m, y);
    ResourceShows(m, a, d, "memory", Count(if x.Some? then m.memoryBytes(x.value.memory) else 0),
               Count(if y.Some? then m.memoryBytes(y.value.memory) else 0));
    ResourceShows(m, a, d, "cpu", Count(if x.Some? then m.nanoCPUs(x.value.cpu) else 0),
               Count(if y.Some? then m.nanoCPUs(y.value.cpu) else 0));
    ResourceShows(m, a, d, "gpu", Count(if x.Some? then x.value.gpu else 0),
               Count(if y.Some? then y.value.gpu else 0));
    ResourceShows(m, a, d, "gpuKind", if x.Some? then x.value.gpuKind else "",
               if y.Some? then y.value.gpuKind else "");
  }

  function Flag(b: bool): string {
    if b then "true" else ""
  }

  lemma PortsRead(ports: seq<PortSpec>, n: int)
    ensures Reads(PortFields(ports), In(Port, Itoa(n) + ".external"),
      Flag(exists p | p in ports :: p.container == n && p.externalAccess))
    ensures Reads(PortFields(ports), In(Port, Itoa(n) + ".published"),
                  Flag(exists p | p in ports :: p.container == n && (p.publish || p.hostPort > 0)))
  {
    hide Itoa;
    PortFieldsAt(ports, n);
    if ExternalKey(n) in PortFields(ports) {
      var k := PortFieldIsFlag(ports, ExternalKey(n));
    }
    if PublishedKey(n) in PortFields(ports) {
      var k := PortFieldIsFlag(ports, PublishedKey(n));
    }
    hide PortFields;
  }

  /** A container port is reachable from outside, or published on the host, when
      some entry makes it so. */
  lemma PortsDiff(m: Models, a: Resource, d: Resource, n: int)
    requires BothApplications(a, d)
    ensures var diff, x, y := Diff(m, a, d), a.spec.application.ports, d.spec.application.ports;
      && Shows(diff, In(Port, Itoa(n) + ".external"), true,
        Flag(exists p | p in x :: p.container == n && p.externalAccess),
               Flag(exists p | p in y :: p.container == n && p.externalAccess))
      && Shows(diff, In(Port, Itoa(n) + ".published"), true,
               Flag(exists p | p in x :: p.container == n && (p.publish || p.hostPort > 0)),
               Flag(exists p | p in y :: p.container == n && (p.publish || p.hostPort > 0)))
  {
    hide Diff, Shows, Reads, PortFields, Flag, Itoa;
    var x, y := a.spec.application.ports, d.spec.application.ports;
    PortsRead(x, n);
    PortsRead(y, n);
    PortShows(m, a, d, Itoa(n) + ".external", Flag(exists p | p in x :: p.container == n && p.externalAccess),
               Flag(exists p | p in y :: p.container == n && p.externalAccess));
    PortShows(m, a, d, Itoa(n) + ".published",
      Flag(exists p | p in x :: p.container == n && (p.publish || p.hostPort > 0)),
               Flag(exists p | p in y :: p.container == n && (p.publish || p.hostPort > 0)));
  }

  // ---- Fields compared when stated -------------------------------------------------------

  lemma OptionalShows(m: Models, a: Resource, d: Resource, f: Field, i: nat, g: FieldMap, h: FieldMap,
                      xs: seq<Entry>, ys: seq<Entry>, j: nat)
    requires BothApplications(a, d) && i < 13 && PartOf(f) == i && f in PLACEMENT + DEPLOYMENT + HEALTHCHECK
    requires |ApplicationParts(m, a.spec.application)| == 13 && ApplicationParts(m, a.spec.application)[i] == g
    requires |ApplicationParts(m, d.spec.application)| == 13 && ApplicationParts(m, d.spec.application)[i] == h
    requires g == Stated(xs) && h == Stated(ys) && DistinctFields(xs) && DistinctFields(ys)
    requires j < |xs| && j < |ys| && xs[j].field == f && ys[j].field == f
    ensures Shows(Diff(m, a, d), f, ys[j].stated, Said(xs[j]), Said(ys[j]))
  {
    hide Diff, Shows, ApplicationParts, PartOf, OPTIONAL_WHEN_UNSET, Stated, DistinctFields, PLACEMENT, DEPLOYMENT,
      HEALTHCHECK;
    OptionalFields();
    StatedReads(xs, j);
    StatedReads(ys, j);
    OptionalGroupShows(m, a, d, f, i, g, h, Said(xs[j]), Said(ys[j]));
  }

  /** The value of an entry, or nothing. */
  function Said(e: Entry): string {
    if e.stated then e.value else ""
  }

  function PlacementIn(a: ApplicationSpec): ApplicationPlacementSpec {
    if a.placement.Some? then a.placement.value else ApplicationPlacementSpec("", None)
  }

  lemma PlacementFieldsDiffer(location: string, constraints: Option<seq<string>>)
    ensures DistinctFields(PlacementEntries(location, constraints))
    ensures In(Placement, "location") in PLACEMENT && In(Placement, "constraints") in PLACEMENT
  {
    hide Join;
  }

  /** Location and constraints, each when stated. */
  lemma PlacementDiff(m: Models, a: Resource, d: Resource)
    requires BothApplications(a, d)
    ensures var diff, x, y := Diff(m, a, d), PlacementIn(a.spec.application), PlacementIn(d.spec.application);
      && Shows(diff, In(Placement, "location"), y.location != "", x.location, y.location)
      && Shows(diff, In(Placement, "constraints"), y.constraints.Some?,
               if x.constraints.Some? then Join(x.constraints.value, ",") else "",
               if y.constraints.Some? then Join(y.constraints.value, ",") else "")
  {
    hide Diff, Shows, ApplicationParts, PartOf, Join, Stated, DistinctFields, PLACEMENT, ImageFields, SourceFields,
         CommandFields, StackField, SecurityFields, DeploymentFields, HealthFields, ConfigField, LabelFields,
         ResourceFields, EnvFields, PortFields;
    var x, y := a.spec.application, d.spec.application;
    var xs, ys := PlacementEntries(x.Location(), x.Constraints()), PlacementEntries(y.Location(), y.Constraints());
    PartsAre(m, x);
    PartsAre(m, y);
    SectionParts("location");
    SectionParts("constraints");
    PlacementFieldsDiffer(x.Location(), x.Constraints());
    PlacementFieldsDiffer(y.Location(), y.Constraints());
    OptionalShows(m, a, d, In(Placement, "location"), 5, Stated(xs), Stated(ys), xs, ys, 0);
    OptionalShows(m, a, d, In(Placement, "constraints"), 5, Stated(xs), Stated(ys), xs, ys, 1);
  }

  function DeploymentIn(a: ApplicationSpec): DeploymentSpec {
    if a.deployment.Some? then a.deployment.value else DeploymentSpec("", 0, "", None)
  }

  /** A number that is only stated when it is positive. */
  function Positive(n: int): string {
    if n > 0 then Itoa(n) else ""
  }

  lemma DeploymentFieldsDiffer(d: DeploymentSpec)
    ensures DistinctFields(DeploymentEntries(d))
    ensures forall i | 0 <= i < 5 :: DeploymentEntries(d)[i].field in DEPLOYMENT
  {
    hide Itoa;
    var es := DeploymentEntries(d);
    assert es[0].field == In(Deployment, "strategy") && es[1].field == In(Deployment, "runtime");
    assert es[2].field == In(Deployment, "replicas") && es[3].field == In(Deployment, "update.parallelism");
    assert es[4].field == In(Deployment, "update.delaySeconds");
  }

  /** Strategy, runtime, replicas and update settings, each when stated. */
  lemma DeploymentDiff(m: Models, a: Resource, d: Resource)
    requires BothApplications(a, d)
    ensures var diff, x, y := Diff(m, a, d), DeploymentIn(a.spec.application), DeploymentIn(d.spec.application);
      && Shows(diff, In(Deployment, "strategy"), y.strategy != "", x.strategy, y.strategy)
      && Shows(diff, In(Deployment, "runtime"), y.runtime != "", x.runtime, y.runtime)
      && Shows(diff, In(Deployment, "replicas"), y.replicas > 0, Positive(x.replicas), Positive(y.replicas))
      && Shows(diff, In(Deployment, "update.parallelism"), y.update.Some?,
               if x.update.Some? then Itoa(x.update.value.parallelism) else "",
               if y.update.Some? then Itoa(y.update.value.parallelism) else "")
      && Shows(diff, In(Deployment, "update.delaySeconds"), y.update.Some?,
               if x.update.Some? then Itoa(x.update.value.delaySeconds) else "",
               if y.update.Some? then Itoa(y.update.value.delaySeconds) else "")
  {
    hide Diff, Shows, ApplicationParts, PartOf, Itoa, Stated, DistinctFields, DEPLOYMENT, ImageFields, SourceFields,
         CommandFields, StackField, SecurityFields, PlacementFields, HealthFields, ConfigField, LabelFields,
         ResourceFields, EnvFields, PortFields, DeploymentFields;
    var x, y := a.spec.application, d.spec.application;
    var xs, ys := DeploymentEntries(DeploymentIn(x)), DeploymentEntries(DeploymentIn(y));
    PartsAre(m, x);
    PartsAre(m, y);
    AbsentDeployment(x.deployment);
    AbsentDeployment(y.deployment);
    DeploymentFieldsDiffer(DeploymentIn(x));
    DeploymentFieldsDiffer(DeploymentIn(y));
    forall j | 0 <= j < 5
      ensures Shows(Diff(m, a, d), ys[j].field, ys[j].stated, Said(xs[j]), Said(ys[j]))
    {
      SectionParts(ys[j].field.name);
      OptionalShows(m, a, d, ys[j].field, 6, Stated(xs), Stated(ys), xs, ys, j);
    }
    assert Shows(Diff(m, a, d), ys[0].field, ys[0].stated, Said(xs[0]), Said(ys[0]));
    assert Shows(Diff(m, a, d), ys[1].field, ys[1].stated, Said(xs[1]), Said(ys[1]));
    assert Shows(Diff(m, a, d), ys[2].field, ys[2].stated, Said(xs[2]), Said(ys[2]));
    assert Shows(Diff(m, a, d), ys[3].field, ys[3].stated, Said(xs[3]), Said(ys[3]));
    assert Shows(Diff(m, a, d), ys[4].field, ys[4].stated, Said(xs[4]), Said(ys[4]));
  }

  const NoCheck := HealthcheckSpec("", "", 0, "", 0, 0, 0, 0)

  /** No health check reads as one that states nothing. */
  function CheckIn(a: ApplicationSpec): HealthcheckSpec {
    if a.healthcheck.Some? then a.healthcheck.value else NoCheck
  }

  lemma CheckRead(hc: HealthcheckSpec)
    ensures var f := Stated(HealthEntries(hc));
      && Reads(f, In(Healthcheck, "type"), hc.kind) && (In(Healthcheck, "type") in f <==> true)
      && Reads(f, In(Healthcheck, "path"), hc.path) && (In(Healthcheck, "path") in f <==> hc.path != "")
      && Reads(f, In(Healthcheck, "port"), Positive(hc.port)) && (In(Healthcheck, "port") in f <==> hc.port > 0)
      && Reads(f, In(Healthcheck, "command"), hc.command) && (In(Healthcheck, "command") in f <==> hc.command != "")
      && Reads(f, In(Healthcheck, "intervalSeconds"), Positive(hc.intervalSeconds))
      && (In(Healthcheck, "intervalSeconds") in f <==> hc.intervalSeconds > 0)
      && Reads(f, In(Healthcheck, "timeoutSeconds"), Positive(hc.timeoutSeconds))
      && (In(Healthcheck, "timeoutSeconds") in f <==> hc.timeoutSeconds > 0)
      && Reads(f, In(Healthcheck, "retries"), Positive(hc.retries))
      && (In(Healthcheck, "retries") in f <==> hc.retries > 0)
      && Reads(f, In(Healthcheck, "startPeriodSeconds"), Positive(hc.startPeriodSeconds))
      && (In(Healthcheck, "startPeriodSeconds") in f <==> hc.startPeriodSeconds > 0)
  {
    hide Stated, Itoa, DistinctFields;
    HealthFieldsDiffer(hc);
    var es := HealthEntries(hc);
    StatedReads(es, 0);
    StatedReads(es, 1);
    StatedReads(es, 2);
    StatedReads(es, 3);
    StatedReads(es, 4);
    StatedReads(es, 5);
    StatedReads(es, 6);
    StatedReads(es, 7);
  }

  lemma HealthRead(h: Option<HealthcheckSpec>, k: string)
    requires In(Healthcheck, k) in HEALTHCHECK
    ensures h.Some? ==> HealthFields(h) == Stated(HealthEntries(h.value))
    ensures h.None? ==> Reads(HealthFields(h), In(Healthcheck, k), "") && In(Healthcheck, k) !in HealthFields(h)
  {
    hide Stated, HEALTHCHECK;
  }

  /** What a health check states, and with what value. */
  lemma CheckFieldRead(a: ApplicationSpec, k: string, value: string, stated: bool)
    requires In(Healthcheck, k) in HEALTHCHECK
    requires a.healthcheck.None? ==> value == "" && !stated
    requires a.healthcheck.Some? ==> var f := Stated(HealthEntries(a.healthcheck.value));
      Reads(f, In(Healthcheck, k), value) && (In(Healthcheck, k) in f <==> stated)
    ensures Reads(HealthFields(a.healthcheck), In(Healthcheck, k), value)
    ensures In(Healthcheck, k) in HealthFields(a.healthcheck) <==> stated
  {
    hide Stated, HEALTHCHECK, HealthFields;
    HealthRead(a.healthcheck, k);
  }

  lemma CheckShows(m: Models, a: Resource, d: Resource, k: string, stated: bool, from: string, to: string)
    requires BothApplications(a, d) && In(Healthcheck, k) in HEALTHCHECK
    requires Reads(HealthFields(a.spec.application.healthcheck), In(Healthcheck, k), from)
    requires Reads(HealthFields(d.spec.application.healthcheck), In(Healthcheck, k), to)
    requires In(Healthcheck, k) in HealthFields(d.spec.application.healthcheck) <==> stated
    ensures Shows(Diff(m, a, d), In(Healthcheck, k), stated, from, to)
  {
    hide Diff, Shows, Reads, ApplicationParts, PartOf, HEALTHCHECK, OPTIONAL_WHEN_UNSET, ImageFields, SourceFields,
         CommandFields, StackField, SecurityFields, PlacementFields, DeploymentFields, HealthFields, ConfigField,
         LabelFields, ResourceFields, EnvFields, PortFields;
    PartsAre(m, a.spec.application);
    PartsAre(m, d.spec.application);
    SectionParts(k);
    OptionalFields();
    OptionalGroupShows(m, a, d, In(Healthcheck, k), 7, HealthFields(a.spec.application.healthcheck),
                       HealthFields(d.spec.application.healthcheck), from, to);
  }

  lemma CheckKeys()
    ensures In(Healthcheck, "type") in HEALTHCHECK
    ensures In(Healthcheck, "path") in HEALTHCHECK
    ensures In(Healthcheck, "port") in HEALTHCHECK
    ensures In(Healthcheck, "command") in HEALTHCHECK
    ensures In(Healthcheck, "intervalSeconds") in HEALTHCHECK
    ensures In(Healthcheck, "timeoutSeconds") in HEALTHCHECK
    ensures In(Healthcheck, "retries") in HEALTHCHECK
    ensures In(Healthcheck, "startPeriodSeconds") in HEALTHCHECK
  {}

  lemma HealthReads(a: ApplicationSpec)
    ensures var f, c := HealthFields(a.healthcheck), CheckIn(a);
      && Reads(f, In(Healthcheck, "type"), c.kind) && (In(Healthcheck, "type") in f <==> a.healthcheck.Some?)
      && Reads(f, In(Healthcheck, "path"), c.path) && (In(Healthcheck, "path") in f <==> c.path != "")
      && Reads(f, In(Healthcheck, "port"), Positive(c.port)) && (In(Healthcheck, "port") in f <==> c.port > 0)
      && Reads(f, In(Healthcheck, "command"), c.command) && (In(Healthcheck, "command") in f <==> c.command != "")
      && Reads(f, In(Healthcheck, "intervalSeconds"), Positive(c.intervalSeconds))
      && (In(Healthcheck, "intervalSeconds") in f <==> c.intervalSeconds > 0)
      && Reads(f, In(Healthcheck, "timeoutSeconds"), Positive(c.timeoutSeconds))
      && (In(Healthcheck, "timeoutSeconds") in f <==> c.timeoutSeconds > 0)
      && Reads(f, In(Healthcheck, "retries"), Positive(c.retries))
      && (In(Healthcheck, "retries") in f <==> c.retries > 0)
      && Reads(f, In(Healthcheck, "startPeriodSeconds"), Positive(c.startPeriodSeconds))
      && (In(Healthcheck, "startPeriodSeconds") in f <==> c.startPeriodSeconds > 0)
  {
    hide Stated, HealthEntries, HealthFields, Reads, HEALTHCHECK, Itoa;
    var c := CheckIn(a);
    CheckKeys();
    if a.healthcheck.Some? {
      CheckRead(c);
    }
    CheckFieldRead(a, "type", c.kind, a.healthcheck.Some?);
    CheckFieldRead(a, "path", c.path, c.path != "");
    CheckFieldRead(a, "port", Positive(c.port), c.port > 0);
    CheckFieldRead(a, "command", c.command, c.command != "");
    CheckFieldRead(a, "intervalSeconds", Positive(c.intervalSeconds), c.intervalSeconds > 0);
    CheckFieldRead(a, "timeoutSeconds", Positive(c.timeoutSeconds), c.timeoutSeconds > 0);
    CheckFieldRead(a, "retries", Positive(c.retries), c.retries > 0);
    CheckFieldRead(a, "startPeriodSeconds", Positive(c.startPeriodSeconds), c.startPeriodSeconds > 0);
  }

  /** The type whenever a check is stated, the rest when stated in it. */
  lemma HealthDiff(m: Models, a: Resource, d: Resource)
    requires BothApplications(a, d)
    ensures var diff, x, y := Diff(m, a, d), CheckIn(a.spec.application), CheckIn(d.spec.application);
      && Shows(diff, In(Healthcheck, "type"), d.spec.application.healthcheck.Some?, x.kind, y.kind)
      && Shows(diff, In(Healthcheck, "path"), y.path != "", x.path, y.path)
      && Shows(diff, In(Healthcheck, "port"), y.port > 0, Positive(x.port), Positive(y.port))
      && Shows(diff, In(Healthcheck, "command"), y.command != "", x.command, y.command)
      && Shows(diff, In(Healthcheck, "intervalSeconds"), y.intervalSeconds > 0, Positive(x.intervalSeconds),
        Positive(y.intervalSeconds))
      && Shows(diff, In(Healthcheck, "timeoutSeconds"), y.timeoutSeconds > 0, Positive(x.timeoutSeconds),
        Positive(y.timeoutSeconds))
      && Shows(diff, In(Healthcheck, "retries"), y.retries > 0, Positive(x.retries), Positive(y.retries))
      && Shows(diff, In(Healthcheck, "startPeriodSeconds"), y.startPeriodSeconds > 0, Positive(x.startPeriodSeconds),
        Positive(y.startPeriodSeconds))
  {
    hide Diff, Shows, Reads, HealthFields, Itoa, HEALTHCHECK, Positive;
    var x, y := CheckIn(a.spec.application), CheckIn(d.spec.application);
    CheckKeys();
    HealthReads(a.spec.application);
    HealthReads(d.spec.application);
    CheckShows(m, a, d, "type", d.spec.application.healthcheck.Some?, x.kind, y.kind);
    CheckShows(m, a, d, "path", y.path != "", x.path, y.path);
    CheckShows(m, a, d, "port", y.port > 0, Positive(x.port), Positive(y.port));
    CheckShows(m, a, d, "command", y.command != "", x.command, y.command);
    CheckShows(m, a, d, "intervalSeconds", y.intervalSeconds > 0, Positive(x.intervalSeconds),
      Positive(y.intervalSeconds));
    CheckShows(m, a, d, "timeoutSeconds", y.timeoutSeconds > 0, Positive(x.timeoutSeconds), Positive(y.timeoutSeconds));
    CheckShows(m, a, d, "retries", y.retries > 0, Positive(x.retries), Positive(y.retries));
    CheckShows(m, a, d, "startPeriodSeconds", y.startPeriodSeconds > 0, Positive(x.startPeriodSeconds),
      Positive(y.startPeriodSeconds));
  }

  // ---- Nothing else ----------------------------------------------------------------------

  /** The fields an application can have. */
  ghost predicate ApplicationField(f: Field) {
    match f
    case Plain(n) => n in {"image", "tag", "digest", "command", "registry", "stack", "configFP"}
    case In(Source, n) => n in {"git", "ref", "buildMethod", "builder", "buildpacks", "repository"}
    case In(Security, n) =>
      n in {"runAsUser", "readOnlyRootFilesystem", "noNewPrivileges", "capabilities.add", "capabilities.drop",
        "devices"}
    case In(Placement, n) => n in {"location", "constraints"}
    case In(Deployment, n) => n in {"strategy", "runtime", "replicas", "update.parallelism", "update.delaySeconds"}
    case In(Healthcheck, n) =>
      n in {"type", "path", "port", "command", "intervalSeconds", "timeoutSeconds", "retries", "startPeriodSeconds"}
    case In(Resources, n) => n in {"memory", "cpu", "gpu", "gpuKind"}
    case In(BuildEnv, _) | In(ContainerLabels, _) | In(Env, _) => true
    case In(Port, p) => exists n: int :: p == Itoa(n) + ".external" || p == Itoa(n) + ".published"
    case _ => false
  }

  lemma PlainKeys(a: ApplicationSpec)
    ensures forall f | f in ImageFields(a) || f in CommandFields(a) || f in StackField(a.stack)
                       || f in ConfigField(a.configFP) ::
      f.Plain? && f.name in {"image", "tag", "digest", "command", "registry", "stack", "configFP"}
  {
    hide Join;
  }

  lemma ScalarKeysAre(s: SourceSpec)
    ensures forall f | f in SourceScalars(s) ::
      f.In? && f.section == Source && f.name in {"git", "ref", "buildMethod", "builder", "buildpacks", "repository"}
  {
    hide Join;
  }

  lemma SourceKeys(source: Option<SourceSpec>, f: Field)
    requires f in SourceFields(source)
    ensures ApplicationField(f)
  {
    hide SourceScalars, Keyed;
    ScalarKeysAre(source.value);
    KeyedSection(BuildEnv, source.value.buildEnv);
  }

  lemma SecurityKeys(m: Models, a: ApplicationSpec, f: Field)
    requires f in SecurityFields(m, a)
    ensures f.In? && f.section == Security
    ensures f.name in {"runAsUser", "readOnlyRootFilesystem", "noNewPrivileges", "capabilities.add",
      "capabilities.drop", "devices"}
  {
    hide NormalizedList, FormatBool;
  }

  lemma OptionalKeys(f: Field)
    requires f in PLACEMENT + DEPLOYMENT + HEALTHCHECK
    ensures ApplicationField(f)
  {}

  lemma StatedKeys(a: ApplicationSpec, f: Field)
    requires f in PlacementFields(a.Location(), a.Constraints()) || f in DeploymentFields(a.deployment)
      || f in HealthFields(a.healthcheck)
    ensures f in PLACEMENT + DEPLOYMENT + HEALTHCHECK
  {
    hide Stated, Itoa, Join;
    StatedFieldsAreEntries(PlacementEntries(a.Location(), a.Constraints()), PLACEMENT);
    if a.deployment.Some? {
      StatedFieldsAreEntries(DeploymentEntries(a.deployment.value), DEPLOYMENT);
    }
    if a.healthcheck.Some? {
      StatedFieldsAreEntries(HealthEntries(a.healthcheck.value), HEALTHCHECK);
    }
  }

  lemma ResourceKeys(m: Models, r: Option<ResourceSpec>, f: Field)
    requires f in ResourceFields(m, r)
    ensures f.In? && f.section == Resources && f.name in {"memory", "cpu", "gpu", "gpuKind"}
  {
    hide Itoa;
  }

  lemma PortKeys(ports: seq<PortSpec>, f: Field)
    requires f in PortFields(ports)
    ensures f.In? && f.section == Port && ApplicationField(f)
  {
    hide Itoa, PortFields;
    var n := PortFieldIsFlag(ports, f);
  }

  lemma FieldIsKnown(m: Models, a: ApplicationSpec, f: Field)
    requires f in ApplicationFields(m, a)
    ensures ApplicationField(f)
  {
    hide ApplicationFields, ApplicationParts, PartOf, ApplicationField, Sum, Homed, ImageFields, SourceFields,
         CommandFields, StackField, SecurityFields, PlacementFields, DeploymentFields, HealthFields, ConfigField,
         LabelFields, ResourceFields, EnvFields, PortFields;
    ApplicationIsSum(m, a);
    ApplicationIsHomed(m, a);
    PartsAre(m, a);
    SumAt(ApplicationParts(m, a), PartOf, f);
    GroupIsKnown(m, a, f);
  }

  lemma GroupIsKnown(m: Models, a: ApplicationSpec, f: Field)
    ensures f in ImageFields(a) || f in CommandFields(a) || f in StackField(a.stack) || f in ConfigField(a.configFP) ==>
      ApplicationField(f)
    ensures f in SourceFields(a.source) || f in SecurityFields(m, a) ==> ApplicationField(f)
    ensures f in PlacementFields(a.Location(), a.Constraints()) ==> ApplicationField(f)
    ensures f in DeploymentFields(a.deployment) || f in HealthFields(a.healthcheck) ==> ApplicationField(f)
    ensures f in LabelFields(a) || f in EnvFields(a) ==> ApplicationField(f)
    ensures f in ResourceFields(m, a.resources) || f in PortFields(a.ports) ==> ApplicationField(f)
  {
    hide ImageFields, SourceFields, CommandFields, StackField, SecurityFields, PlacementFields, DeploymentFields,
         HealthFields, ConfigField, LabelFields, ResourceFields, EnvFields, PortFields, Itoa;
    PlainKeys(a);
    if f in SourceFields(a.source) { SourceKeys(a.source, f); }
    if f in SecurityFields(m, a) { SecurityKeys(m, a, f); }
    if f in ResourceFields(m, a.resources) { ResourceKeys(m, a.resources, f); }
    if f in PortFields(a.ports) { PortKeys(a.ports, f); }
    MapKeys(a);
    if f in PlacementFields(a.Location(), a.Constraints()) || f in DeploymentFields(a.deployment)
      || f in HealthFields(a.healthcheck) {
      StatedKeys(a, f);
      OptionalKeys(f);
    }
  }

  lemma MapKeys(a: ApplicationSpec)
    ensures forall f | f in LabelFields(a) :: f.In? && f.section == ContainerLabels
    ensures forall f | f in EnvFields(a) :: f.In? && f.section == Env
  {
    KeyedSection(ContainerLabels, Unreserved(a.containerLabels));
    KeyedSection(Env, Masked(a.env, a.secretEnv));
    hide Keyed, Unreserved, Masked;
  }

  /** The diff of two applications lists no other field. */
  lemma NothingElse(m: Models, a: Resource, d: Resource, z: FieldDiff)
    requires BothApplications(a, d) && z in Diff(m, a, d)
    ensures ApplicationField(z.field)
  {
    hide Diff, ApplicationFields, ApplicationField;
    ListedIsField(m, a, d, z);
    if z.field in ApplicationFields(m, a.spec.application) {
      FieldIsKnown(m, a.spec.application, z.field);
    } else {
      FieldIsKnown(m, d.spec.application, z.field);
    }
  }
}
