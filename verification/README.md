# Verification of the declarative reconciler

A Dafny model of Miabi's declarative engine (`internal/declarative`) and of the
two stream adapters of its Docker client, with machine-checked proofs of what
they promise. `dafny verify dfyconfig.toml` checks the whole project.

## What is modelled

| files | what they model |
|---|---|
| `Schema`, `ResourceSet`, `Text`, `Sorting`, `Wrappers` | the miabi.io/v1 resource types, the insertion-ordered resource set, Go's string order and sorting |
| `Jobs`, `Encodings` | argument lists and run fingerprints, and that they are unambiguous |
| `Fields`, `Groups`, `Observed`, `ObservedApplications`, `Diffs`, `Overlay`, `Settling` | the compared fields, which attributes decide them, the field diff and what applying an update does |
| `DiffNames`, `DiffNamesApplications`, `DiffNamesByHand`, `PrintedValues` | what a diff lists, field by field: which attribute each name stands for, when it is compared and how it is printed |
| `Readings`, `Visible`, `VisibleByHand`, `Hidden` | which manifests a plan can tell apart, and what never shows |
| `Plan`, `PlanContents`, `Matching`, `PlanLaws` | the planner, which entries a plan holds and in which order, what it matches under any listing, prune safety and determinism |
| `Edits`, `Convergence`, `Sealing` | executing any part of a plan, one-step convergence, and sealing a live secret |
| `Edges`, `EdgeLaws`, `Topology` | the reference graph, which edges it has and why, and that the apply order is a topological order of it |
| `Templates`, `Actions`, `Deferral` | the text rewrites of template references and secrets, on every string |
| `Syntax`, `Printing`, `DeferPrinting` | templates as trees, and that the text rewrites do to the text what they should do to the tree |
| `Render`, `RenderedValues`, `RenderedTexts`, `RenderLaws`, `PlainRendering` | rendering with credential tracking, and what every reference renders and is stored as |
| `Refs`, `ReferencePlaces` | the static reference check, and where a bundle refers to what |
| `Normalize`, `NormalDefaults`, `Parsing`, `Directories`, `Bundles` | defaults and old spellings, parsing and printing bundles, and the way from documents to a settled workspace |
| `Generate`, `SchemaGen` | the secret generator and the JSON Schema generator |
| `Streams` | the line writer and the bounded stderr buffer |

Code that changes state is modelled by classes and methods with loops
(`ResourceSet`, `Renderer`, `Generator`, `LineWriter`, `BoundedBuffer`, the
planner, the field builders, the edge and reference collectors, the shuffle),
each proved against a function of its inputs or old state; the laws are lemmas
about those functions. Go maps are iterated in an arbitrary order, so every
result that is a function of its inputs is independent of that order.

## Assumptions

- The executor is the obvious one: a create inserts the resource as declared, an
  update overlays the fields the manifest states on the live resource the planner
  matched and keeps its name, UID and labels, a delete removes it; fingerprints of
  the declared side are stamped on what is written.
- The live state may be listed in any order. A set of manifests and a live state
  are `Convergence.Sound` when declared UIDs are unique per kind and have one live
  owner at most, a vault name is declared once, and matching is one to one.
- `Fields.Models` stands for functions of other packages: capability and device
  normalisation, quantity parsing, SHA-256 and which characters above ASCII are
  printable. Every theorem holds whatever they compute.
- `Parsing.Validators` stands for the validators that are not spelled out. The
  round trip assumes they accept a resource that differs from an accepted one
  only in what is never printed (`Parsing.WireSafe`).
- `Render.Helpers` stands for the deterministic template functions.

## Findings

- Which two manifests a plan can tell apart is known exactly, for every planned kind
  (`Visible.ApplicationChangesIff`, `StackChangesIff`, `RecordChangesIff`,
  `VisibleByHand.ByHandChangesIff`). An absent field reads as an empty one. So an
  edit of an application's mounts, external label, reload policy, its ports'
  protocol, scheme or positive host port, or the addition of a label, build
  variable or variable that is not secret with the empty value, is never planned
  (`Visible.UnreadIsUnplanned`).
- A plan shows something of a hidden value in one case: a live sensitive config
  matched by a declared one that is not sensitive has its files compared and the
  differing ones named (`Hidden.DeclassifiedExample`); `Hidden.DiffHidesIff` and
  `Hidden.PlanHidesIff` show it is the only one.
- A plan need not converge in one step: sealing a live secret brings its UID
  along, and another manifest may declare that UID with another sealed value. The
  next plan may then ask for an update again (`Sealing.TakenUidDoesNotSettle`);
  `Convergence.PlanConvergesIff` shows that nothing else keeps a sound plan from
  converging.
- A value rendered under the empty environment key is never tracked as a
  credential (`RenderLaws.EmptyKeyGoesUnnoticed`).
- A live resource can be neither matched nor pruned, exactly when a declared one
  still names it but matched another by UID (`PlanLaws.SurvivingOrphanIsNamed`).
- `normalizeRegistryServer` is not idempotent (`Normalize.TwoSchemesAreNotStable`);
  `Normalize.ServerIsStableIff` says on the input when it is, and every server
  validation accepts qualifies.
- The comment on `CheckReferences` says it never flags what apply would accept;
  the code flags the four read-only database fields, which rendering resolves
  (`Refs.ResolvesIff`). The model follows the code.
- Lists are compared joined: an application's command by spaces; a route's hosts,
  methods and middlewares, a middleware's paths, an application's buildpacks,
  constraints, capabilities and devices by commas. An entry that holds the
  separator reads as the entries around it (`Encodings.JoinShowsPieces`,
  `ObservedApplications.CommandJoinCollides`, `Observed.RouteCommaCollides`);
  without one in any entry the lists are told apart (`Encodings.JoinDecides`,
  `ObservedApplications.CommandSeen`, `Observed.RouteSeen`).

## Model

| member | source | states |
|---|---|---|
| Schema.KeyInjective | internal/declarative/schema.go:110 | A resource key decides the kind and the name: no two resources share one. |
| Resources.ResourceSet.Add | internal/declarative/resourceset.go:35-43 | List and index stay mutually inverse; a known key keeps its position and takes the new value, a new one goes to the end. |
| Resources.ResourceSet.Get | internal/declarative/resourceset.go:45-52 | Finds what a linear scan of the list finds, and what a plain map would hold. |
| Resources.ResourceSet.Has | internal/declarative/resourceset.go:71-74 | True exactly for the identities the set holds. |
| Resources.ResourceSet.ByKind | internal/declarative/resourceset.go:60-69 | Lists the resources of a kind in list order. |
| Resources.OfKindIsScan | internal/declarative/resourceset.go:60-69 | What ByKind lists is exactly the members of that kind. |
| Resources.PutAllIsOrderedMap | internal/declarative/resourceset.go:24-43 | After any sequence of additions the set is a map with the last value of every key, ordered by first addition. |
| Fields.SpecFields | internal/declarative/plan.go:456-681 | The imperative field builder yields the field map of the spec, whatever order its maps are read in; `DiffNames` says which attribute every name stands for. |
| Fields.FieldsAreOrdered | internal/declarative/plan.go:312 | Field names are strictly and totally ordered, so a sorted diff has one order. |
| Observed.GitSourceSeen | internal/declarative/plan.go:667-678 | Two git sources read the same exactly when every field is equal. |
| Observed.GitRepositorySeen | internal/declarative/plan.go:661-666 | Two git repositories read the same exactly when every field is equal. |
| Observed.CronJobSeen | internal/declarative/jobs.go:158-178 | Two cron jobs read the same exactly when a run of them is the same up to blanks, defaults and account spelling; argument lists are told apart. |
| Observed.RouteSeen | internal/declarative/plan.go:609-639 | When no host, method or middleware holds a comma, two routes have the same fields exactly when every scalar agrees, hosts and methods as multisets, middlewares as a list, an empty list read as one empty entry and an absent block as a disabled one. |
| Observed.RouteReads | internal/declarative/plan.go:609-639 | For any two routes: the same fields exactly when every scalar agrees and the lists, hosts and methods sorted, are equal once each entry is cut at its commas. |
| Observed.RouteCommaCollides | internal/declarative/plan.go:609-623 | A host with a comma reads as the two hosts around it, when those are in order. |
| Observed.RouteForgetsOrder | internal/declarative/plan.go:609-623 | Reordering hosts or methods is no change. |
| Observed.StackSeen | internal/declarative/plan.go:640-655 | Two stacks have the same fields exactly when description, location and the environment with secret values masked agree. |
| Observed.DatabaseSeen | internal/declarative/plan.go:572-594 | Two databases have the same fields exactly when engine, version, location and read-only user agree, memory and CPU as parsed, size as written, an empty one being no statement. |
| Observed.VolumeSeen | internal/declarative/plan.go:595-608 | Two volumes have the same fields exactly when location, the storage class without its blanks, and the size as parsed agree. |
| Observed.DomainSeen | internal/declarative/plan.go:656-658 | Two domains have the same fields exactly when they are equal. |
| ObservedApplications.ApplicationSeen | internal/declarative/plan.go:459-571 | Two applications have the same fields exactly when they agree on image, tag, digest, source, command cut at blanks, registry, stack, security as normalised, placement, the stated parts of deployment and health check, config fingerprint, unreserved labels, resources as parsed, masked environment, and per container port whether it is open and whether it is published. |
| ObservedApplications.CommandSeen | internal/declarative/plan.go:477 | When no argument holds a blank, changing the command changes the fields exactly when it changes the argument list, an empty list read as one empty argument. |
| ObservedApplications.CommandJoinCollides | internal/declarative/plan.go:477 | For every application and any two texts: the two as separate arguments and joined by a blank into one read the same, where a quoted argument list tells them apart. |
| ObservedApplications.PortsDecide | internal/declarative/plan.go:564-571 | Ports read the same exactly when every container port number is open, and published, on both sides or neither. |
| ObservedApplications.EnvSeen | internal/declarative/plan.go:549-563 | The comparison sees every declared variable, every value that is not secret, and of a secret one only its presence. |
| Visible.ApplicationChangesRead | internal/declarative/plan.go:278-333 | Two application manifests call for the same changes against every live application if and only if every field reads the same, an absent one as an empty one, and the same optional fields are stated. |
| Visible.ApplicationReads | internal/declarative/plan.go:459-571 | The fields of two applications read the same if and only if the applications agree on every compared attribute, with an absent label, variable or build variable read as an empty one and no source as an empty source. |
| Visible.ApplicationChangesIff | internal/declarative/plan.go:278-333 | So two application manifests call for the same changes if and only if they agree on those attributes: any other edit is never planned, and every edit of these is planned against some live application. |
| Visible.StackChangesIff | internal/declarative/plan.go:278-333 | Two stack manifests call for the same changes if and only if description, location and shown environment agree, an absent variable read as an empty one, and both or neither state an environment. |
| Visible.RecordChangesIff | internal/declarative/plan.go:278-333 | Two manifests of a database, volume, route, domain, cron job, git repository or git source call for the same changes if and only if they agree on the attributes that decide their fields. |
| Visible.UnreadIsUnplanned | internal/declarative/plan.go:278-314 | An application edited only in its mounts, external label, reload policy, its ports' protocol, scheme or positive host port, or by adding variables that are not secret, labels or build variables of the empty value calls for no other change, whatever is live. |
| VisibleByHand.ByHandChangesIff | internal/declarative/plan.go:343-433 | For the kinds compared by hand: two secrets always call for the same changes; sealed secrets if and only if the fingerprints agree; registries on server, user name and the fingerprint of a stated password; middlewares on type, paths cut at commas, and rule fingerprint; configs on digest, mode, sensitivity and, unless sensitive, the files; jobs on target, history, policy, waiting, backoff and run fingerprint. |
| Diffs.DiffFields | internal/declarative/plan.go:259-314 | The imperative comparison computes the diff, one list for every map iteration order; `DiffNames`, `DiffNamesApplications` and `DiffNamesByHand` say what it lists. |
| Diffs.DiffGeneric | internal/declarative/plan.go:278-314 | The generic branch lists exactly the differing fields, sorted by name. |
| Diffs.DiffConfig | internal/declarative/plan.go:403-433 | The file-by-file comparison of configs, with values of a sensitive one never shown. |
| Settling.DiffIsExact | internal/declarative/plan.go:278-314 | For generically compared kinds a field is listed exactly when it is not exempt and the two sides differ, absent read as empty, with exactly those two values. |
| DiffNames.VolumeDiff | internal/declarative/plan.go:595-608 | The diff of two volumes lists placement.location, storage.class and size, each exactly when the manifest states it and it differs, with the two locations, classes without their blanks, and sizes in bytes; nothing else is listed. |
| DiffNames.DatabaseDiff | internal/declarative/plan.go:572-594 | The diff of two databases, field by field: engine and version always, location, memory, CPU, size and read-only user when stated, each with its own two values and under its own name; nothing else. |
| DiffNames.RouteDiff | internal/declarative/plan.go:609-639 | The diff of two routes, field by field: hosts and methods sorted and joined, middlewares joined, every scalar, and the maintenance block, none read as one that is off; nothing else. |
| DiffNames.GitRepositoryDiff | internal/declarative/plan.go:661-666 | The diff of two git repositories: url, auth, username and secretRef, and nothing else. |
| DiffNames.GitSourceDiff | internal/declarative/plan.go:667-678 | The diff of two git sources, field by field, and nothing else. |
| DiffNames.DomainDiff | internal/declarative/plan.go:656-658 | The diff of two domains: tls and wildcard, and nothing else. |
| DiffNames.CronJobDiff | internal/declarative/jobs.go:158-177 | The diff of two cron jobs, field by field, with the defaults of policy and history and accounts as normalised; suspend when stated; nothing else. |
| DiffNames.StackDiff | internal/declarative/plan.go:640-655 | The diff of two stacks: description, location when stated, and every variable unless the manifest states no environment, a secret one only as present; nothing else. |
| DiffNames.DiffOrder | internal/declarative/plan.go:312 | A generic or config diff lists its fields by their path. |
| DiffNames.PathsAre | internal/declarative/plan.go:456-681 | How the name of a field is spelled in each section. |
| DiffNamesApplications.ImageDiff | internal/declarative/plan.go:460-528 | An application's image, tag, digest, command, registry and config fingerprint are always compared, its stack when stated, each under its own name with its own two values. |
| DiffNamesApplications.SourceDiff | internal/declarative/plan.go:465-476 | The same for the source of a build, no source read as an empty one, and for each build variable. |
| DiffNamesApplications.SecurityDiff | internal/declarative/plan.go:482-488 | The same for account, read-only root, new privileges, capabilities and devices, lists as normalised or as stated when the normaliser refuses them. |
| DiffNamesApplications.PlacementDiff | internal/declarative/plan.go:489-504 | Location and constraints are compared when stated. |
| DiffNamesApplications.DeploymentDiff | internal/declarative/plan.go:492-508 | Runtime, replicas, strategy and the two update fields are compared when stated. |
| DiffNamesApplications.HealthDiff | internal/declarative/plan.go:509-524 | The eight fields of a health check are compared when stated. |
| DiffNamesApplications.MapsDiff | internal/declarative/plan.go:529-563 | Labels that are not reserved and variables are compared key by key, a secret variable only as present. |
| DiffNamesApplications.ResourcesDiff | internal/declarative/plan.go:536-552 | Memory in bytes, CPU in nano-CPUs, GPU count and kind. |
| DiffNamesApplications.PortsDiff | internal/declarative/plan.go:564-571 | A container port shows as external, or as published, exactly when some entry for it makes it so. |
| DiffNamesApplications.NothingElse | internal/declarative/plan.go:459-571 | The diff of two applications lists no other field. |
| DiffNamesByHand.SecretDiff | internal/declarative/plan.go:259-277 | A plan never says a secret changed. |
| DiffNamesByHand.SealedSecretDiff | internal/declarative/plan.go:342-355 | A sealed secret shows value exactly when it has a seal and the live entry has another or none, and says which. |
| DiffNamesByHand.RegistryDiff | internal/declarative/plan.go:357-378 | A registry shows server, username, and a rotated password exactly when one is stated and both fingerprints are known and differ; nothing else. |
| DiffNamesByHand.MiddlewareDiff | internal/declarative/plan.go:378-402 | A middleware shows type, joined paths, and a changed rule exactly when both fingerprints are known and differ; nothing else. |
| DiffNamesByHand.ConfigDiff | internal/declarative/plan.go:403-433 | A config shows digest, mode and, unless it is declared sensitive, each file whose content differs, with whether either side has it; nothing else. |
| DiffNamesByHand.JobDiff | internal/declarative/jobs.go:179-217 | A job shows app, history limit with its default, run policy with its default, whether it waits, backoff limit, and its template as one field by fingerprint, the stamped one on the live side; nothing else. |
| PrintedValues.ScalarText | internal/declarative/jobs.go:190-208 | A printed number has the value of its decimal digits, with a sign exactly when negative, and a flag is true or false by that word. |
| Settling.EmptyDiffMeansAgreement | internal/declarative/plan.go:278-333 | The diff is empty if and only if every non-exempt field agrees. |
| Settling.DiffIsReflexive | internal/declarative/plan.go:259-314 | No resource differs from itself; a Job when its stamped fingerprint is empty or its own. |
| Settling.UpdateSettles | internal/declarative/plan.go:259-433 | Overlaying the stated fields on the matched live resource leaves an empty diff, for every kind. |
| Settling.CreateSettles | internal/declarative/plan.go:259-433 | A resource created as declared has an empty diff. |
| Hidden.DiffHidesValues | internal/declarative/plan.go:259-433 | Changing only secret values, secret environment values, passwords or sensitive file contents under unchanged fingerprints leaves the diff identical, unless a live sensitive config stands for a declared one that is not sensitive. |
| Hidden.DiffHidesIff | internal/declarative/plan.go:259-433 | For every kind, no change of hidden values on either side changes the diff if and only if it is not the case that a live sensitive config stands for a declared config that is not sensitive. |
| Hidden.DeclassifiedExample | internal/declarative/plan.go:403-433 | The failing case: same digest and mode, a sensitive live config whose one file is as declared has no diff, and with another content it has one. |
| Hidden.PlanHidesValues | internal/declarative/plan.go:156-227 | The same for the whole plan: hidden values on either side never influence it, unless a declared config that is not sensitive matches a live sensitive one. |
| Hidden.PlanHidesIff | internal/declarative/plan.go:156-227 | No change of hidden values on either side changes what a plan holds if and only if no declared config that is not sensitive matches a live sensitive one. |
| Plans.BuildPlan | internal/declarative/plan.go:156-227 | The result lists exactly the changes the two sets call for, strictly ordered by the comparator; `PlanContents` says which entries these are, and in which order. |
| PlanContents.DeletedIff | internal/declarative/plan.go:198-223 | In the plan of any two lists a live resource is deleted if and only if prune is on, its kind is planned, nothing declared has its name, its UID or, for a vault entry, its name under the other kind, and its labels miabi.io/managed-by and miabi.io/gitops-source are those the options ask for, when they ask. |
| PlanContents.DeletesStayInScope | internal/declarative/plan.go:198-223 | Whatever is deleted is live, and carries each ownership label the options ask for. |
| PlanContents.EntriesAre | internal/declarative/plan.go:156-197 | A declared resource that stands for nothing live is created; one that stands for a live resource is updated with the fields that differ, or is in sync and listed only on request; each has exactly that entry. |
| PlanContents.ProjectsAreNotPlanned | internal/declarative/plan.go:166-223 | No Project is ever created, updated or deleted. |
| PlanContents.PlanOrder | internal/declarative/plan.go:229-256 | Deletes come first, dependents before dependencies; then creates and updates, in the order from projects to git sources; resources of one rank by kind and name. |
| PlanContents.MatchStands | internal/declarative/plan.go:129-143 | A declared resource matches the live owner of its UID, or else its namesake, or else the vault entry of its name under the other kind. |
| Plans.MatchActual | internal/declarative/plan.go:129-143 | Matching by UID, then by key, then by vault alias. |
| Plans.ChangesAreOrdered | internal/declarative/plan.go:229-256 | The comparator is a strict total order on changes to different resources. |
| Plans.ChangesOnePerId | internal/declarative/plan.go:156-227 | All changes of a plan have pairwise distinct kind and name. |
| PlanLaws.PlanIsDeterministic | internal/declarative/plan.go:156-256 | Any insertion order of the two sets gives the same plan, when every declared UID has one live owner at most. |
| PlanLaws.PureRenameIsNoop | internal/declarative/plan.go:129-134 | Renaming a declared resource that a live one has the UID of keeps its action and its field changes, for every kind: names are never compared. |
| PlanLaws.FreeNamesAreUncontested | internal/declarative/plan.go:129-143 | When no declared name belongs to a live resource another declared one claims by UID, matching is one to one. |
| PlanLaws.ContestedCannotSettle | internal/declarative/plan.go:129-143 | The condition is needed: two declared resources that state a field differently are never both in sync with one live resource. |
| PlanLaws.SurvivingOrphanIsNamed | internal/declarative/plan.go:198-223 | An unmatched live resource in scope survives prune if and only if a declared resource still names it and matched another. |
| Matching.PruneIsSafe | internal/declarative/plan.go:129-223 | No live resource matched by a declared one, by UID, key or alias, is ever deleted; every delete lies inside both ownership scopes, which `PlanContents.DeletesStayInScope` spells out. |
| Matching.UidIndexIsIndexOf | internal/declarative/plan.go:159-165 | With unique UIDs the UID index is independent of list order. |
| Matching.ListingIsUidIndex | internal/declarative/plan.go:159-165 | Of several live resources with one UID the index files any one: every such index is the one of some order of the live list. |
| Matching.MatchIsMatchIn | internal/declarative/plan.go:129-143 | When a declared UID has one live owner at most, the match is the same under every order of the live list. |
| Convergence.RunLeavesTheRestIff | internal/declarative/plan.go:156-227 | Carry out any of the changes of a plan, in any order: planning again asks for exactly the others, however the live state is then listed, if and only if every declared resource whose UID a sealing brings along is in sync and states no other sealed value. So interrupted runs, and runs in which some changes fail, can be resumed. |
| Convergence.SoundStaysSound | internal/declarative/plan.go:156-227 | When no sealing brings along a declared UID, any part of a plan leaves a state that meets every condition again. |
| Convergence.PlanConvergesIff | internal/declarative/plan.go:156-227 | One-step convergence: after executing a plan, replanning with the same options has no changes under any listing, for any prune scope, if and only if no sealing brings along the UID of another declared entry that states another sealed value. |
| Convergence.ConvergesForLists | internal/declarative/plan.go:156-227 | Convergence under every UID index means that, for every order in which the live resources are then listed, the plan built next has no changes. |
| Sealing.RenamedAndSealedConverges | internal/declarative/plan.go:129-143 | A vault entry renamed and sealed in one commit, keeping its UID, converges. |
| Sealing.TakenUidClashes | internal/declarative/plan.go:129-165 | That family meets every other condition of convergence. |
| Sealing.TakenUidDoesNotSettle | internal/declarative/plan.go:129-165 | When one manifest seals a live secret under its name and another of a different name declares its UID with another sealed value, the plan does not converge. |
| Edges.DeriveEdges | internal/declarative/edges.go:60-150 | The edges of a bundle are exactly its internal references, each once, sorted; `EdgeLaws` says which these are, kind by kind. |
| EdgeLaws.MentionIff | internal/declarative/edges.go:57 | The scanner finds a reference to a name exactly when the text reads two braces, dashes or blanks, the collection and the name, ended by no character a name holds, anywhere in the text. |
| EdgeLaws.ValueLinksAre | internal/declarative/edges.go:105-117 | A text that mentions a database, a secret or an application links to it, a secret under both of its kinds, and links to nothing else. |
| EdgeLaws.ApplicationEdges | internal/declarative/edges.go:88-117 | An application has an edge to another declared resource exactly when it names it: stack, config and volume mounts, registry, source repository, and databases, secrets and applications mentioned in some variable, each with its own type. |
| EdgeLaws.OtherEdges | internal/declarative/edges.go:118-128 | The same for the repository of a git source, the secret of a git repository under both kinds, and the application and registry of a cron job and a job; other kinds but routes have no edges. |
| EdgeLaws.RouteEdges | internal/declarative/edges.go:129-139 | A route has edges exactly to its application, to its middlewares, and for each host to the longest declared domain that covers it. |
| EdgeLaws.CoversIff | internal/declarative/edges.go:152-164 | A domain covers a host exactly when the host, without blanks and a final dot and letter case aside, is the domain or ends in a dot and the domain. |
| EdgeLaws.EdgesLeaveDeclared | internal/declarative/edges.go:60-81 | Both ends of every edge are declared. |
| EdgeLaws.EdgeOrder | internal/declarative/edges.go:143-148 | Edges are listed by the key they leave, then by the key they lead to. |
| Edges.MatchDomain | internal/declarative/edges.go:152-164 | Computes the longest domain the host is under. |
| Edges.LongestDomainIsLongest | internal/declarative/edges.go:152-164 | The chosen domain covers the host and no covering domain is longer; nothing is chosen only when none covers it. |
| Edges.MatchForgetsOrder | internal/declarative/edges.go:152-164 | For names that differ beyond letter case the choice does not depend on their order. |
| Edges.EdgesAreTyped | internal/declarative/edges.go:60-150 | Every edge joins two kinds that may refer to each other, its type is fixed by them, its target exists and is not its origin. |
| Edges.EdgesDiffer | internal/declarative/edges.go:60-150 | No two edges join the same two resources. |
| Edges.EdgesAreOrdered | internal/declarative/edges.go:143-148 | The comparator strictly orders the edges of a bundle. |
| Topology.EdgesClimb | internal/declarative/plan.go:106-125 | Every edge but an application reference goes to a strictly lower rank; application references, and only they, stay level. |
| Topology.PlansAreTopological | internal/declarative/plan.go:229-256 | In every plan a declared dependency is created or updated strictly before its user, a live one deleted strictly after, and all deletes come first. |
| Topology.GraphIsAcyclic | internal/declarative/plan.go:106-125 | Without application references no walk along edges repeats a resource, and none is longer than four. |
| Topology.AppRefsCanCycle | internal/declarative/edges.go:113-114 | Two applications of any names whose variables are templates naming each other depend on each other, so application references admit no order. |
| Topology.EdgesForgetOrder | internal/declarative/edges.go:60-150 | The edge set does not depend on the order domains are listed in. |
| Topology.EdgeListIsUnique | internal/declarative/edges.go:60-150 | The derived edge list is unique under every declaration and iteration order, without repeats, loops or dangling ends. |
| Topology.ValidateReferences | internal/declarative/validate.go:787-815 | Returns the first reference error in list order, or none. |
| Topology.FirstErrorIs | internal/declarative/validate.go:787-815 | The error is that of the first resource that has one: a vault name declared under both kinds, or else the first mount whose config or volume is missing, or else a missing stack or route target. |
| Topology.ValidatedMeansConnected | internal/declarative/validate.go:787-815 | A bundle passes if and only if no vault name is declared under both secret kinds and every mount, stack and route target is joined to its user by an edge. |
| Templates.RewriteSplits | internal/declarative/render.go:198-214 | Rewriting and finding references work separately on the two sides of any character no reference can hold. |
| Templates.RewriteIsIdempotent | internal/declarative/render.go:198-214 | A rewritten action holds no reference, so rewriting it again changes nothing. |
| Actions.ReplaceComposes | internal/declarative/render.go:149-153 | Replacing actions by actions never merges, splits or creates one: two passes are one pass with both replacements. |
| Actions.OutsideIsKept | internal/declarative/render.go:149-214 | Text outside the actions is unchanged by any such replacement. |
| Actions.ExpandIsIdempotent | internal/declarative/render.go:182-214 | On every string, expanding twice is expanding once, and text outside actions is unchanged. |
| Actions.ExpandedHasNoRefs | internal/declarative/render.go:182-214 | No reference is left inside an action once expanded. |
| Actions.FindRefs | internal/declarative/refs.go:115-128 | Collects the references of every action, in order. |
| Deferral.DeferActionIsIdempotent | internal/declarative/render.go:168-180 | A deferred action is not deferred again. |
| Deferral.DeferIsIdempotent | internal/declarative/render.go:168-180 | On every string, deferring twice is deferring once, no runtime reference is left, and text outside actions and pointers is unchanged. |
| Printing.ExpandPrints | internal/declarative/render.go:182-214 | Expanding the text of a well-formed template prints the expanded template. |
| RenderedTexts.ReferencesBecomeCalls | internal/declarative/render.go:198-215 | Each dotted reference becomes a call with the same collection, name and field, in that order. |
| RenderedValues.RefText | internal/declarative/render.go:149-152 | How a template of one reference is written. |
| Printing.RefsPrint | internal/declarative/refs.go:115-128 | The references found in a template's text are its dotted references, and after expansion exactly the ref calls it makes. |
| DeferPrinting.DeferPrints | internal/declarative/render.go:168-180 | Deferring the text of a well-formed template prints the deferred template: the pure-action patterns recognise exactly the pure actions. |
| RenderedValues.SecretText | internal/declarative/render.go:154-179 | The text of a reference to a secret becomes a call naming it exactly when the name has at most 63 characters and starts with a letter, and stays as it is otherwise. |
| RenderedTexts.DatabaseText | internal/declarative/render.go:154-179 | The text of a database credential becomes a call naming database and field. |
| DeferPrinting.PointersPrint | internal/declarative/render.go:169 | Runtime references in a template's text are found exactly and become secretRef calls. |
| Render.Renderer.Ref | internal/declarative/render.go:218-279 | The value of a reference or its exact error, marking the current key when it resolves a credential; `RenderedValues` says what every reference resolves to. |
| RenderedValues.DatabaseFields | internal/declarative/render.go:48-57 | A template that is one reference to a database renders its host, port, user, name, password or URI by that field's name, url and no field being the URI; password and URI are credentials. |
| RenderedValues.ReadOnlyFields | internal/declarative/render.go:243-259 | The four read-only fields render their own values, and fail when the database has none. |
| RenderedValues.ApplicationFields | internal/declarative/render.go:59-77 | A reference to an application renders its host, port, scheme or alias; url and no field are its address, http without a scheme, and without the port when there is none or it is 0. |
| RenderedValues.PlainFields | internal/declarative/render.go:230-242 | A secret renders its value, a credential; an input renders its own. |
| RenderedValues.UnknownNamesFail | internal/declarative/render.go:217-279 | Any other field, and any name that is not there, is an error of its own. |
| RenderedTexts.HelpersGet | internal/declarative/render.go:134-146 | A helper gets its arguments in the order written, and a piped value after them. |
| RenderedTexts.DashesTrim | internal/declarative/render.go:335-348 | A dash by the braces takes the blanks on its side of the action, and nothing else. |
| Render.Renderer.SecretRef | internal/declarative/render.go:282-287 | Succeeds if and only if the vault holds the name; what it gives then prints as the pointer to that name whatever the entry holds, the failure names the unknown secret, and no credential is ever marked. |
| Render.Renderer.DatabaseSecretRef | internal/declarative/render.go:290-306 | A pointer when the vault holds the credential, its value otherwise, marked. |
| Render.Renderer.MarkCredential | internal/declarative/render.go:308-312 | Marks the current key, unless it is empty or nothing is tracked. |
| Render.Renderer.CredentialKeys | internal/declarative/render.go:315-322 | The tracked keys in ascending order. |
| Render.Renderer.RenderString | internal/declarative/render.go:335-348 | Renders an expanded template and marks the current key exactly when a credential was resolved. |
| Render.Renderer.RenderEnv | internal/declarative/render.go:377-390 | Succeeds if and only if every value renders, with exactly those values and tracked keys, for any iteration order; `RenderedValues` says what is stored for a secret or a credential. |
| RenderedValues.SecretsAreDeferred | internal/declarative/render.go:154-179 | For every vault name of 1 to 63 characters, a letter and then letters, digits, underscores or dashes, a value that is one reference to it, or one runtime pointer, is stored as that pointer and tracked under no key; a reference by any other name stores the value and is tracked. |
| RenderedValues.DatabasesAreDeferred | internal/declarative/render.go:289-306 | A value that is one database credential is stored as a pointer to the vault entry that holds it, when there is one, and otherwise as the value, tracked. |
| RenderedValues.ShownFieldsAreStored | internal/declarative/render.go:154-179 | Host, port, user and name are stored as they are, untracked. |
| RenderedValues.OneVariable | internal/declarative/render.go:376-390 | What an environment of one such value holds, and whether its key is tracked: never the empty one. |
| RenderedTexts.LenientStores | internal/declarative/render.go:392-408 | Lenient rendering stores what renders and leaves what does not as its template, untracked. |
| Render.Renderer.RenderEnvLenient | internal/declarative/render.go:393-408 | Every value that renders, the template of every one that does not, and only rendered keys tracked. |
| RenderLaws.RenderAlike | internal/declarative/render.go:162-166 | A value whose rendering marks nothing renders, or fails, the same in any context that differs in credentials only. |
| RenderLaws.CredentialsDoNotLeak | internal/declarative/render.go:314-390 | Noninterference: two contexts that differ in credentials only track the same keys, and every other named key renders or fails alike. |
| RenderLaws.LenientDoesNotLeak | internal/declarative/render.go:393-408 | The same for the lenient renderer, for keys tracked on neither side. |
| RenderLaws.EmptyKeyGoesUnnoticed | internal/declarative/render.go:308-312 | Under the empty key a resolved credential is not tracked: a concrete input on which the guarantee fails. |
| RenderLaws.ResolvesToMeanings | internal/services/secret/secret.go:341-352 | Filling in the pointers of rendered text gives what each piece stands for, when no text between pointers reads as one. |
| RenderLaws.DeferralKeepsMeaning | internal/declarative/render.go:168-180 | Deferred rendering fails exactly when direct rendering does, with the same error; otherwise substituting the pointers gives the directly rendered value. |
| PlainRendering.DeferredIsDirect | internal/declarative/render.go:168-180 | When neither '$' or neither '{' is in the template's texts, the values it can see and what helpers make of them, deferred rendering followed by filling in the pointers is direct rendering, errors included. |
| Refs.References | internal/declarative/refs.go:53-84 | Collects every reference a bundle makes, in any map order. |
| ReferencePlaces.ApplicationReferences | internal/declarative/refs.go:57-60 | A bundle refers to something from a variable of an application if and only if the application is declared, has the variable, and its template says so or holds a runtime pointer to it. |
| ReferencePlaces.StackReferences | internal/declarative/refs.go:61-64 | The same for the variables of a stack. |
| ReferencePlaces.RegistryReferences | internal/declarative/refs.go:65-66 | The same for a registry's password, where runtime pointers do not count. |
| ReferencePlaces.MiddlewareReferences | internal/declarative/refs.go:67-68 | The same for every string of a middleware rule, however deep, at the path that leads to it. |
| ReferencePlaces.JobReferences | internal/declarative/refs.go:69-72 | The application of a cron job and of a job is always a reference, and their only one. |
| ReferencePlaces.ConfigReferences | internal/declarative/refs.go:73-81 | The same for the files of a config that states no delimiters or the usual ones. |
| ReferencePlaces.FramedReference | internal/declarative/refs.go:73-81 | With delimiters of its own, none of whose characters a reference or a space can be, a file refers to what stands alone between the first two of them, whatever follows, and to nothing else when nothing follows. |
| ReferencePlaces.UnframedText | internal/declarative/refs.go:73-81 | With such delimiters, a text that never starts one refers to nothing: the usual braces do not count there. |
| Refs.RuleRefs | internal/declarative/refs.go:86-104 | The references of every string nested anywhere in a middleware rule. |
| Refs.UsualDelimiters | internal/declarative/refs.go:73-78 | Scanning with the default delimiters given explicitly is the usual scan. |
| Refs.CheckReferences | internal/declarative/refs.go:133-158 | Lists every problem exactly once; there is none if and only if every reference passes. |
| ReferencePlaces.ProblemIs | internal/declarative/refs.go:133-150 | A reference is flagged for its target exactly when the name is unknown in its collection, and for its field exactly when the name is known and the field is not one of a database's seven or an application's five. |
| Refs.ResolvesIff | internal/declarative/refs.go:48-51 | The renderer resolves a reference if and only if the check passes it, or it is one of the four read-only database fields and the database has the user; the check flags those as unknown fields. |
| Refs.CheckedTextRenders | internal/declarative/refs.go:107-158 | A value all of whose references pass never fails to render on a reference. |
| Refs.CheckedBundleRenders | internal/declarative/refs.go:53-158 | Progress: in a bundle that passes the check, no application or stack environment value fails on a reference. |
| Encodings.EscapeIsPrefixFree | internal/declarative/jobs.go:219-225 | An escaped character can be read off the front of a text in one way only. |
| Encodings.ArgListInjective | internal/declarative/jobs.go:219-225 | A quoted argument list decides its arguments, whatever they contain. |
| PrintedValues.ArgumentsText | internal/declarative/jobs.go:219-225 | Arguments stand in quotes with one space between them; printable ASCII but quotes and backslashes is quoted as it is, those and control characters are escaped. |
| Encodings.JoinShowsPieces | internal/declarative/plan.go:477 | Two lists join to the same text exactly when they are equal once each entry is cut at the separators inside it. |
| Encodings.JoinDecides | internal/declarative/jobs.go:145-156 | When no entry holds the separator, the joined text decides the list, [] and [""] identified. |
| Encodings.RunBytesDecide | internal/declarative/jobs.go:145-156 | The bytes a fingerprint hashes are equal if and only if the normalised run templates are, lists [] and [""] identified, when no field holds a NUL and no argument a separator. |
| PrintedValues.RunBytesAre | internal/declarative/jobs.go:144-156 | What a run is fingerprinted from: command and entrypoint, arguments apart by U+001F, image without its blanks, registry, account and time limit, in that order, each ended by a NUL. |
| Encodings.SeparatorCollides | internal/declarative/jobs.go:145-156 | With a separator inside an argument two different templates hash the same bytes. |
| Encodings.AccountHasNoNul | internal/models/runas.go:38-63 | A normalised account never holds a NUL. |
| PrintedValues.AccountIs | internal/models/runas.go:37-63 | The account is the stated text without its blanks when that is a login, or a login and a group apart by a colon, of up to 32 characters each that start with no dot or dash, and otherwise none. |
| Generate.GenerateSecret | internal/declarative/generate.go:60-95 | Exact length, only allowed characters, the digit minimum always honoured up to the length, the symbol minimum up to the space left, for every spec and every draw. |
| Generate.SecretRules | internal/declarative/generate.go:28-104 | A secret has 32 characters unless a positive length is stated; letters of both cases, digits and, where wanted, every printed ASCII mark but quotes, backslash and backtick; and at least the digits and symbols asked for, counted by position, as far as they fit, digits first. |
| Generate.Minimums | internal/declarative/generate.go:72-81 | An overflow is taken from the symbols only: the digit minimum is never trimmed, and the two always fit. |
| Generate.Shuffle | internal/declarative/generate.go:52-57 | The in-place shuffle is the permutation its draws spell out. |
| Generate.ShuffleReachesAll | internal/declarative/generate.go:52-57 | Every arrangement of the bytes can come out. |
| Generate.ShuffleIsUnbiased | internal/declarative/generate.go:51-57 | Different draws never give the same arrangement of distinct bytes, so all arrangements are equally likely. |
| Generate.CountForgetsOrder | internal/declarative/generate.go:52-57 | Shuffling keeps every count a minimum is about. |
| SchemaGen.Generator.Define | internal/declarative/jsonschema.go:122-138 | Returns a reference and defines everything newly reached, each type expanded at most once. |
| SchemaGen.Generator.Object | internal/declarative/jsonschema.go:140-177 | The schema of a struct, with every struct its visible fields mention defined or being defined. |
| SchemaGen.ObjectIs | internal/declarative/jsonschema.go:140-199 | A struct's properties are the names its visible fields are written under, each described by its last field, and a project's resources; those without omitempty are required, in ascending order. |
| SchemaGen.Generator.TypeOf | internal/declarative/jsonschema.go:201-225 | The schema of a type, with every struct it mentions defined or being defined. |
| SchemaGen.SchemaDescribes | internal/declarative/jsonschema.go:201-225 | A schema is the one of a type exactly when it describes it: string, boolean, integer and number for the plain types, arrays, open objects and references for the others, a pointer as what it points to. |
| SchemaGen.Generator.Generate | internal/declarative/jsonschema.go:42-113 | On any finite, possibly cyclic type graph: the definitions are exactly the reachable types, each expanded once and described by its own fields, and no reference dangles. |
| SchemaGen.RefsOfObject | internal/declarative/jsonschema.go:140-225 | A struct's schema refers only to structs its visible fields mention. |
| SchemaGen.SchemaForgetsOrder | internal/declarative/jsonschema.go:42-113 | The definitions do not depend on the order the kinds are visited in. |
| Normalize.NormalizeGitURLIsIdempotent | internal/declarative/validate.go:356-362 | Normalising a repository address twice is normalising it once. |
| Normalize.ServerIsStableIff | internal/declarative/validate.go:163-171 | Normalising a registry server twice is normalising it once if and only if it is blank, or what follows its blanks and schemes is neither empty nor one slash, starts with no blank or further scheme, and ends in no slash after a slash or a blank. |
| Normalize.TwoSchemesAreNotStable | internal/declarative/validate.go:163-171 | A server with one scheme behind another is not stable. |
| Normalize.AcceptedServerIsPlain | internal/declarative/validate.go:343 | Every server validation accepts is stable. |
| Normalize.AdoptionKeepsValues | internal/declarative/validate.go:138-157 | An old spelling moves to its new field or stays beside it for validation to refuse; no value is dropped or overridden. |
| NormalDefaults.OldSpellings | internal/declarative/validate.go:138-157 | An old spelling alone takes the place of the new one, for strategy, account and added capabilities; beside the new one both stay. |
| NormalDefaults.ApplicationDefaults | internal/declarative/validate.go:62-84 | An application reloads by restart unless it says otherwise; each port speaks http over tcp unless it says otherwise and is published when it asks for a host port; each mount of a config is read-only; nothing else changes but what an old spelling moves. |
| NormalDefaults.PlainDefaults | internal/declarative/validate.go:85-134 | The defaults of configs, routes, domains and git sources by value, and the kinds that have none. |
| NormalDefaults.DatabaseDefaults | internal/declarative/validate.go:89-96 | A database runs where it says, or where its old one-word placement says, or auto. |
| NormalDefaults.GitSourceDefaults | internal/declarative/validate.go:119-133 | A git source's repository, ref and path lose the blanks around them; ref is then main and path the root when nothing is left. |
| NormalDefaults.GitRepositoryDefaults | internal/declarative/validate.go:110-118 | A repository that says nothing of its access uses its token when it names a secret and is public otherwise. |
| NormalDefaults.GitAddress | internal/declarative/validate.go:355-362 | Every repository address loses the blanks around it and the slashes behind it and ends in .git, which is added unless it is there in any letter case; slashes alone are no address. |
| NormalDefaults.RegistryDefaults | internal/declarative/validate.go:159-171 | A registry's host, which holds no blank and no slash, is what is left without the blanks around it, either or both schemes and one slash; it is Docker's when nothing is stated. |
| Normalize.NormalApplicationIsIdempotent | internal/declarative/validate.go:60-84 | Normalising an application twice is normalising it once. |
| Normalize.NormalizingIsIdempotent | internal/declarative/validate.go:60-135 | The same for every kind, for a registry when its server is stable as stated above. |
| Parsing.Parse | internal/declarative/parse.go:52-73 | The set the documents declare, or the first error in document order. |
| Parsing.ParseNode | internal/declarative/parse.go:152-279 | A document followed by the documents inside a Project, or the first error. |
| Parsing.FlattenIsPreorder | internal/declarative/parse.go:152-279 | Flattening succeeds if and only if every document is good, and lists their resources in preorder. |
| Parsing.ParseAccepts | internal/declarative/parse.go:52-73 | A bundle parses if and only if every document is good, every normalised resource valid, no key repeated and the references resolve; the set is then the normalised preorder. |
| Parsing.FirstBadDocument | internal/declarative/parse.go:152-170 | The first document that is no manifest decides the error, whatever follows it and however invalid those before it are: undecodable, of another version, of no known kind, or with resources inside what is no Project. |
| Parsing.FirstBadResource | internal/declarative/parse.go:52-73 | When every document is a manifest, the first that is invalid or repeats a key decides: invalid before repeated, and both before any reference is looked up. |
| Directories.ParseDirectory | internal/declarative/parse.go:75-126 | The set a directory's manifests declare, or the first error; a directory that declares nothing is an error of its own. |
| Directories.DirectoryIsStream | internal/declarative/parse.go:75-126 | A directory parses if and only if its manifests, read in path order as one stream, parse and declare something; the resources are the same. |
| Directories.FilesInOrder | internal/declarative/parse.go:79-98 | The files read are exactly those ending in .yaml or .yml, in any letter case, in path order. |
| Parsing.Marshal | internal/declarative/marshal.go:37-55 | Prints the resources other than Projects, in order. |
| Parsing.ParseOfMarshal | internal/declarative/marshal.go:37-55 | Parsing what Marshal printed from a parsed set gives its non-Project resources in the same order, each as printing leaves it. |
| Parsing.WireIsExactIff | internal/declarative/schema.go:113-168 | Printing loses nothing if and only if no placement.constraints, list of added capabilities or Stack env is stated empty. |
| Parsing.RoundTripIsExactIff | internal/declarative/marshal.go:37-55 | For a parsed set with no derived field filled in, parsing what Marshal printed gives the non-Project resources back unchanged if and only if none of them states an empty placement.constraints, list of added capabilities or Stack env. |
| Parsing.SecondRoundIsExact | internal/declarative/marshal.go:37-55 | From the second round on, parsing what was printed gives back exactly what was printed. |
| Bundles.ParsedIsWellFormed | internal/declarative/parse.go:52-73 | A parsed bundle declares each resource once, under a name, with a spec of its kind, and a vault name under one kind only. |
| Bundles.ParsedIsConnected | internal/declarative/parse.go:52-73 | Every mount, stack and route target of a parsed bundle has its edge. |
| Bundles.ParsedBundleConverges | internal/declarative/plan.go:156-227 | End to end: applying the plan of a parsed bundle leaves a workspace in which planning again has no changes, if and only if no sealing clashes, when declared UIDs are unique per kind with one live owner at most and names are free. |
| Streams.LineWriter.Write | internal/docker/client.go:1272-1286 | Delivers exactly the complete lines of buffer and chunk until the sink stops, and keeps the rest. |
| Streams.SplitIsUnique | internal/docker/client.go:1272-1286 | There is one way to cut a stream into complete lines and a rest. |
| Streams.DrainInTwo | internal/docker/client.go:1272-1286 | Writing more changes nothing that was delivered, and is handled as if it had been there from the start. |
| Streams.DrainConserves | internal/docker/client.go:1272-1286 | Delivered lines and buffer together are always everything written. |
| Streams.FeedDeliversLines | internal/docker/client.go:1272-1286 | While the sink goes along it gets exactly the complete lines of the concatenated stream; when it stops, a prefix ending in the refused line. |
| Streams.ChunkingIsInvisible | internal/docker/client.go:1272-1286 | However a stream is cut, the sink gets the same lines and verdict, and the buffer ends the same. |
| Streams.BoundedBuffer.Write | internal/docker/attach.go:133-141 | The buffer holds the last bytes of everything written. |
| Streams.LastOfLast | internal/docker/attach.go:133-141 | Keeping the tail of a tail is keeping the tail of everything. |
| Streams.BufferHoldsTheTail | internal/docker/attach.go:127-147 | After any sequence of writes the buffer is exactly the last min(total, limit) bytes. |

## Left out

- Convergence.PlanConvergesIff: for sound sets; `PlanLaws.ContestedCannotSettle` shows why matching has to be one to one.
- Convergence.SoundStaysSound: when no sealing brings along a declared UID, since afterwards that UID may have two live owners.
- Bundles.ParsedBundleConverges: for sound sets, with names that are free in place of one-to-one matching.
- PlanLaws.PlanIsDeterministic: when every declared UID has one live owner at most; of several owners the last one listed is matched.
- Hidden.DiffHidesValues: excludes a live sensitive config declared as one that is not, for which it is false; `Hidden.DiffHidesIff` shows the condition is exact.
- Hidden.PlanHidesValues: under the same condition; `Hidden.PlanHidesIff` shows it is exact.
- Observed.RouteSeen: for routes with no comma in an entry, without which it is false; `Observed.RouteReads` covers every route.
- ObservedApplications.CommandSeen: for arguments without a blank, without which it is false; `ObservedApplications.ApplicationSeen` covers every application.
- Normalize.NormalizingIsIdempotent: for a registry holds only when its server is stable; `Normalize.ServerIsStableIff` shows the condition is exact.
- RenderLaws.CredentialsDoNotLeak: excludes the empty key, for which it is false.
- RenderLaws.DeferralKeepsMeaning: assumes vault entries hold the credentials of their databases and that no rendered text between two pointers reads as a pointer; `PlainRendering.DeferredIsDirect` gives a condition to check beforehand.
- Encodings.RunBytesDecide: assumes no NUL in a field and no separator in an argument, without which it is false.
- Refs.CheckReferences: problems are values, not messages, so their final sort by message text is not modelled.
- Parsing.Parse: documents are trees whose specs are already decoded; YAML decoding and strict field checking are not part of this model.
- Parsing.ParseNode: resources are values, so the sharing of spec pointers between copies of a resource is not captured.
- SchemaGen.Generator.Object: descriptions and enum values are not modelled.
- Edges.DeriveEdges: returns typed identities where the source joins kind and name to text; `Schema.KeyInjective` makes the two the same.
- Fields.SpecFields: field names are typed (`section.name`) where the source uses one string; they are sorted by that text.
- `RenderFiles` and custom delimiters outside `References`: the same evaluation with other markers.
- `validateMountOverlap` and the other single-resource validators: branch-by-branch facts.
- Regular expressions, Go's `text/template` parser and its native field access: patterns are hand-written scanners and actions are pipelines of references, quoted strings without escapes or braces, and helpers.
- `RandAlphaNum`, `randHex` and the entropy source: a draw is an arbitrary choice in range.
- Floating-point quantity parsing, hashing, the cron parser and sealed-secret parsing: uninterpreted.
- `strings.ToLower` beyond ASCII; text that is not valid UTF-8.
- The mutex of the bounded buffer: each operation is atomic.
- The apply executor, immutability refusals, the GitOps loop, the Docker SDK, HTTP handlers, DNS and ACME clients, the CLI: input and output.
- `PlainSecrets`, `Counts`, `internal/cron`, `internal/drift`, `internal/dotenv`, pagination: small or single-branch facts.
