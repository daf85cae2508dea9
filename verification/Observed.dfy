/** What the generic comparison can see. For each kind, two specs have the same
    fields exactly when they agree on the attributes listed here, so an edit
    outside them is never planned. Applications have a module of their own. */
module Observed {
  import opened Encodings
  import opened Fields
  import opened Jobs
  import opened Groups
  import opened Overlay
  import opened Schema
  import opened Sorting
  import opened StringSorting
  import opened Text
  import opened Wrappers

  lemma FormatBoolInjective(a: bool, b: bool)
    requires FormatBool(a) == FormatBool(b)
    ensures a == b
  {
    assert FormatBool(true)[0] == 't' && FormatBool(false)[0] == 'f';
  }

  /** Every field of a git source is compared. */
  lemma GitSourceSeen(x: GitSourceSpec, y: GitSourceSpec)
    ensures GitSourceFields(x) == GitSourceFields(y) <==> x == y
  {
    hide FormatBool;
    var f, g := GitSourceFields(x), GitSourceFields(y);
    if f == g {
      assert f[Plain("repo")] == g[Plain("repo")] && f[Plain("repository")] == g[Plain("repository")];
      assert f[Plain("ref")] == g[Plain("ref")] && f[Plain("path")] == g[Plain("path")];
      assert f[Plain("syncPolicy")] == g[Plain("syncPolicy")] && f[Plain("deletePolicy")] == g[Plain("deletePolicy")];
      assert f[Plain("prune")] == g[Plain("prune")] && f[Plain("selfHeal")] == g[Plain("selfHeal")];
      assert f[Plain("allowEmpty")] == g[Plain("allowEmpty")];
      assert f[Plain("requireSealedSecrets")] == g[Plain("requireSealedSecrets")];
      FormatBoolInjective(x.prune, y.prune);
      FormatBoolInjective(x.selfHeal, y.selfHeal);
      FormatBoolInjective(x.allowEmpty, y.allowEmpty);
      FormatBoolInjective(x.requireSealedSecrets, y.requireSealedSecrets);
    }
  }

  /** Every field of a git repository is compared. */
  lemma GitRepositorySeen(x: GitRepositorySpec, y: GitRepositorySpec)
    ensures GitRepositoryFields(x) == GitRepositoryFields(y) <==> x == y
  {
    var f, g := GitRepositoryFields(x), GitRepositoryFields(y);
    if f == g {
      assert f[Plain("url")] == g[Plain("url")] && f[Plain("auth")] == g[Plain("auth")];
      assert f[Plain("username")] == g[Plain("username")] && f[Plain("secretRef")] == g[Plain("secretRef")];
    }
  }

  /** A schedule is compared as a run sees it: blanks trimmed, defaults filled
      in, arguments told apart, the account normalised. */
  predicate SameCronJob(x: CronJobSpec, y: CronJobSpec) {
    && x.app == y.app && TrimSpace(x.schedule) == TrimSpace(y.schedule)
    && x.command == y.command && x.entrypoint == y.entrypoint
    && TrimSpace(x.image) == TrimSpace(y.image) && x.registry == y.registry && x.timeoutSeconds == y.timeoutSeconds
    && (if x.concurrencyPolicy == "" then "allow" else x.concurrencyPolicy)
       == (if y.concurrencyPolicy == "" then "allow" else y.concurrencyPolicy)
    && HistoryOrDefault(x.historyLimit) == HistoryOrDefault(y.historyLimit)
    && RunAsAccount(x.RunAsUser()) == RunAsAccount(y.RunAsUser())
    && x.suspended == y.suspended
  }

  lemma RunFieldsDecide(m: Models, x: CronJobSpec, y: CronJobSpec)
    requires RunFields(m, x) == RunFields(m, y)
    ensures SameCronJob(x, y.(suspended := x.suspended))
  {
    hide ArgList, TrimSpace, RunAsAccount, Itoa, HistoryOrDefault;
    var f, g := RunFields(m, x), RunFields(m, y);
    assert f[Plain("app")] == g[Plain("app")] && f[Plain("schedule")] == g[Plain("schedule")];
    assert f[Plain("command")] == g[Plain("command")] && f[Plain("entrypoint")] == g[Plain("entrypoint")];
    assert f[Plain("image")] == g[Plain("image")] && f[Plain("registry")] == g[Plain("registry")];
    assert f[Plain("timeoutSeconds")] == g[Plain("timeoutSeconds")];
    assert f[Plain("concurrencyPolicy")] == g[Plain("concurrencyPolicy")];
    assert f[Plain("historyLimit")] == g[Plain("historyLimit")];
    assert f[In(Security, "runAsUser")] == g[In(Security, "runAsUser")];
    ArgListInjective(m.printable, x.command, y.command);
    ArgListInjective(m.printable, x.entrypoint, y.entrypoint);
    ItoaInjective(x.timeoutSeconds, y.timeoutSeconds);
    ItoaInjective(HistoryOrDefault(x.historyLimit), HistoryOrDefault(y.historyLimit));
  }

  lemma SuspendDecides(a: Option<bool>, b: Option<bool>)
    requires SuspendField(a) == SuspendField(b)
    ensures a == b
  {
    hide FormatBool;
    var k := Plain("suspend");
    assert a.Some? <==> k in SuspendField(a);
    assert b.Some? <==> k in SuspendField(b);
    if a.Some? {
      assert SuspendField(a)[k] == SuspendField(b)[k];
      FormatBoolInjective(a.value, b.value);
    }
  }

  function RunHome(f: Field): int {
    if f == Plain("suspend") then 1 else 0
  }

  lemma RunGroups(m: Models, c: CronJobSpec)
    ensures CronJobFields(m, c) == Sum([RunFields(m, c), SuspendField(c.suspended)])
    ensures Homed([RunFields(m, c), SuspendField(c.suspended)], RunHome)
  {
    hide ArgList, TrimSpace, RunAsAccount, Itoa, HistoryOrDefault;
    assert Plain("suspend") !in RunFields(m, c);
    hide RunFields;
    SumOfTwo(RunFields(m, c), SuspendField(c.suspended));
  }

  lemma SumOfTwo(f: FieldMap, g: FieldMap)
    ensures Sum([f, g]) == f + g
  {
    assert [f, g][..1] == [f] && [f][..0] == [];
    assert Sum([f]) == map[] + f;
  }

  lemma CronJobSeen(m: Models, x: CronJobSpec, y: CronJobSpec)
    ensures CronJobFields(m, x) == CronJobFields(m, y) <==> SameCronJob(x, y)
  {
    hide ArgList, TrimSpace, RunAsAccount, Itoa, HistoryOrDefault;
    if CronJobFields(m, x) == CronJobFields(m, y) {
      hide RunFields, SuspendField;
      RunGroups(m, x);
      RunGroups(m, y);
      SumDecides([RunFields(m, x), SuspendField(x.suspended)], [RunFields(m, y), SuspendField(y.suspended)], RunHome);
      RunFieldsDecide(m, x, y);
      SuspendDecides(x.suspended, y.suspended);
    }
  }

  // ---- Routes --------------------------------------------------------------------------

  /** The route attributes compared one to one; an absent block reads as one
      that switches nothing on. */
  predicate SameRouteScalars(x: RouteSpec, y: RouteSpec) {
    && x.app == y.app && x.path == y.path && x.tls == y.tls && x.certificate == y.certificate
    && x.tlsProvider == y.tlsProvider && x.port == y.port && x.rewrite == y.rewrite
    && x.advancedConfig == y.advancedConfig
    && x.exploitProtection.GetOr(false) == y.exploitProtection.GetOr(false)
    && x.maintenance.GetOr(RouteMaintenanceSpec(false, 0, ""))
      == y.maintenance.GetOr(RouteMaintenanceSpec(false, 0, ""))
  }

  /** Two lists with the same entries, in any order. */
  predicate SameBag(a: seq<string>, b: seq<string>) {
    multiset(a) == multiset(b) || (a in [[], [""]] && b in [[], [""]])
  }

  /** Hosts and methods are compared without regard to order, middlewares in it. */
  predicate SameRoute(x: RouteSpec, y: RouteSpec) {
    && SameRouteScalars(x, y)
    && SameBag(x.hosts, y.hosts) && SameBag(x.methods, y.methods)
    && SameArgs(x.middlewares, y.middlewares)
  }

  predicate CommaFree(r: RouteSpec) {
    Without(r.hosts, ',') && Without(r.methods, ',') && Without(r.middlewares, ',')
  }

  /** The lists of a route, as they are told apart. */
  function RoutePieces(r: RouteSpec): (seq<string>, seq<string>, seq<string>) {
    (Pieces(Sort(Less, r.hosts), ','), Pieces(Sort(Less, r.methods), ','), Pieces(r.middlewares, ','))
  }

  lemma RouteTextsDecide(x: RouteSpec, y: RouteSpec)
    requires RouteFields(x) == RouteFields(y)
    ensures Join(Sort(Less, x.hosts), ",") == Join(Sort(Less, y.hosts), ",")
    ensures Join(Sort(Less, x.methods), ",") == Join(Sort(Less, y.methods), ",")
    ensures Join(x.middlewares, ",") == Join(y.middlewares, ",")
    ensures x.app == y.app && x.path == y.path && x.tls == y.tls && x.certificate == y.certificate
    ensures x.tlsProvider == y.tlsProvider && x.rewrite == y.rewrite && x.advancedConfig == y.advancedConfig
  {
    hide Join, Sort, Itoa, FormatBool;
    var f, g := RouteFields(x), RouteFields(y);
    assert f[Plain("hosts")] == g[Plain("hosts")] && f[Plain("methods")] == g[Plain("methods")];
    assert f[Plain("middlewares")] == g[Plain("middlewares")] && f[Plain("app")] == g[Plain("app")];
    assert f[Plain("path")] == g[Plain("path")] && f[Plain("tls")] == g[Plain("tls")];
    assert f[Plain("certificate")] == g[Plain("certificate")] && f[Plain("tlsProvider")] == g[Plain("tlsProvider")];
    assert f[Plain("rewrite")] == g[Plain("rewrite")] && f[Plain("advancedConfig")] == g[Plain("advancedConfig")];
  }

  lemma RouteFieldsDecide(x: RouteSpec, y: RouteSpec)
    requires RouteFields(x) == RouteFields(y)
    ensures SameRouteScalars(x, y)
    ensures Join(Sort(Less, x.hosts), ",") == Join(Sort(Less, y.hosts), ",")
    ensures Join(Sort(Less, x.methods), ",") == Join(Sort(Less, y.methods), ",")
    ensures Join(x.middlewares, ",") == Join(y.middlewares, ",")
  {
    RouteTextsDecide(x, y);
    hide Join, Sort, Itoa, FormatBool;
    var f, g := RouteFields(x), RouteFields(y);
    var mx := x.maintenance.GetOr(RouteMaintenanceSpec(false, 0, ""));
    var my := y.maintenance.GetOr(RouteMaintenanceSpec(false, 0, ""));
    assert f[Plain("port")] == g[Plain("port")];
    assert f[In(Security, "exploitProtection")] == g[In(Security, "exploitProtection")];
    assert f[In(Maintenance, "enabled")] == g[In(Maintenance, "enabled")];
    assert f[In(Maintenance, "statusCode")] == g[In(Maintenance, "statusCode")];
    assert f[In(Maintenance, "message")] == g[In(Maintenance, "message")];
    ItoaInjective(x.port, y.port);
    ItoaInjective(mx.statusCode, my.statusCode);
    FormatBoolInjective(x.exploitProtection.GetOr(false), y.exploitProtection.GetOr(false));
    FormatBoolInjective(mx.enabled, my.enabled);
  }

  /** What is compared of any two routes: a comma inside an entry reads as a cut. */
  lemma RouteReads(x: RouteSpec, y: RouteSpec)
    ensures RouteFields(x) == RouteFields(y) <==> SameRouteScalars(x, y) && RoutePieces(x) == RoutePieces(y)
  {
    hide Join, Sort, Itoa, FormatBool, Pieces;
    JoinShowsPieces(Sort(Less, x.hosts), Sort(Less, y.hosts), ',');
    JoinShowsPieces(Sort(Less, x.methods), Sort(Less, y.methods), ',');
    JoinShowsPieces(x.middlewares, y.middlewares, ',');
    if RouteFields(x) == RouteFields(y) {
      RouteFieldsDecide(x, y);
    }
  }

  lemma SortedDecides(a: seq<string>, b: seq<string>)
    requires Without(a, ',') && Without(b, ',')
    ensures Pieces(Sort(Less, a), ',') == Pieces(Sort(Less, b), ',') <==> SameBag(a, b)
  {
    hide Sort, Pieces, SameBag, Without;
    var x, y := Sort(Less, a), Sort(Less, b);
    SortedIsWithout(a);
    SortedIsWithout(b);
    PiecesWhole(x, ',');
    PiecesWhole(y, ',');
    if multiset(a) == multiset(b) {
      StringSortForgetsOrder(a, b);
    }
    BagDecides(x, y, a, b);
  }

  lemma BagDecides(x: seq<string>, y: seq<string>, a: seq<string>, b: seq<string>)
    requires multiset(x) == multiset(a) && multiset(y) == multiset(b)
    requires multiset(a) == multiset(b) ==> x == y
    ensures SameArgs(x, y) <==> SameBag(a, b)
  {
    BagIsSmall(x, a);
    BagIsSmall(y, b);
  }

  lemma SortedIsWithout(a: seq<string>)
    requires Without(a, ',')
    ensures Without(Sort(Less, a), ',') && multiset(Sort(Less, a)) == multiset(a)
  {

    forall s | s in Sort(Less, a)
      ensures s in a
    {
      assert s in multiset(Sort(Less, a));
    }
  }

  lemma BagIsSmall(x: seq<string>, a: seq<string>)
    requires multiset(x) == multiset(a)
    ensures x in [[], [""]] <==> a in [[], [""]]
    ensures x == [] <==> a == []
  {
    assert |x| == |multiset(x)| == |a|;
    assert |x| == 1 ==> x[0] in multiset(x) && x == [x[0]];
    assert |a| == 1 ==> a[0] in multiset(a) && a == [a[0]];
  }

  /** When no host, method or middleware holds a comma, two routes read the same
      exactly when they agree, hosts and methods in any order. */
  lemma RouteSeen(x: RouteSpec, y: RouteSpec)
    requires CommaFree(x) && CommaFree(y)
    ensures RouteFields(x) == RouteFields(y) <==> SameRoute(x, y)
  {
    hide RouteFields, Pieces, SameRouteScalars, Sort, SameBag;
    RouteReads(x, y);
    SortedDecides(x.hosts, y.hosts);
    SortedDecides(x.methods, y.methods);
    PiecesWhole(x.middlewares, ',');
    PiecesWhole(y.middlewares, ',');
  }

  /** A host with a comma reads as the two hosts around it. */
  lemma RouteCommaCollides(r: RouteSpec, u: string, v: string)
    requires Less(u, v)
    ensures RouteFields(r.(hosts := [u + "," + v])) == RouteFields(r.(hosts := [u, v]))
    ensures !SameBag([u + "," + v], [u, v])
  {
    hide RouteFields, Sort, Pieces, Join;
    SortOfTwo(u, v);
    SortOfOne(u + "," + v);
    JoinOfTwo(u, v);
    JoinShowsPieces([u + "," + v], [u, v], ',');
    RouteReads(r.(hosts := [u + "," + v]), r.(hosts := [u, v]));
    assert |multiset([u + "," + v])| == 1 && |multiset([u, v])| == 2;
  }

  lemma SortOfOne(u: string)
    ensures Sort(Less, [u]) == [u]
  {
    assert [u][1..] == [] && Sort(Less, []) == [];
  }

  lemma SortOfTwo(u: string, v: string)
    requires Less(u, v)
    ensures Sort(Less, [u, v]) == [u, v]
  {
    hide Less;
    LessIsStrictOrder();
    assert [u, v][1..] == [v];
    SortOfOne(v);
    assert Insert(Less, u, [v]) == [u] + [v];
  }

  lemma JoinOfTwo(u: string, v: string)
    ensures Join([u, v], ",") == u + "," + v == Join([u + "," + v], ",")
  {
    assert [u, v][1..] == [v];
  }

  /** Reordering hosts or methods is no change. */
  lemma RouteForgetsOrder(r: RouteSpec, hosts: seq<string>, methods: seq<string>)
    requires multiset(hosts) == multiset(r.hosts) && multiset(methods) == multiset(r.methods)
    ensures RouteFields(r.(hosts := hosts, methods := methods)) == RouteFields(r)
  {
    StringSortForgetsOrder(hosts, r.hosts);
    StringSortForgetsOrder(methods, r.methods);
  }

  // ---- Stacks, databases, volumes and domains ------------------------------------------

  predicate SameStack(x: StackSpec, y: StackSpec) {
    && x.description == y.description && x.Location() == y.Location()
    && Masked(x.env.GetOr(map[]), x.secretEnv) == Masked(y.env.GetOr(map[]), y.secretEnv)
  }

  function StackHome(f: Field): int {
    if f.Plain? then 0 else if f.section == Env then 2 else 1
  }

  function StackGroups(s: StackSpec): seq<FieldMap> {
    [DescriptionField(s.description), LocationField(s.Location()), StackEnv(s)]
  }

  lemma StackIsSum(s: StackSpec)
    ensures StackFields(s) == Sum(StackGroups(s)) && Homed(StackGroups(s), StackHome)
  {
    StackIsHomed(s);
    hide DescriptionField, LocationField, StackEnv;
    SumOfThree(DescriptionField(s.description), LocationField(s.Location()), StackEnv(s));
  }

  lemma StackIsHomed(s: StackSpec)
    ensures Homed(StackGroups(s), StackHome)
  {
    hide Masked;
    DescriptionIsHomed(s.description);
    LocationIsHomed(s.Location());
    hide DescriptionField, LocationField;
    assert forall k | k in StackEnv(s) :: StackHome(k) == 2;
  }

  lemma DescriptionIsHomed(description: string)
    ensures forall k | k in DescriptionField(description) :: StackHome(k) == 0
  {}

  lemma LocationIsHomed(location: string)
    ensures forall k | k in LocationField(location) :: StackHome(k) == 1
  {}

  lemma SumOfThree(f: FieldMap, g: FieldMap, h: FieldMap)
    ensures Sum([f, g, h]) == f + g + h
  {
    assert [f, g, h][..2] == [f, g];
    SumOfTwo(f, g);
  }

  /** Of a stack, the description, the location and the shown environment. */
  lemma StackSeen(x: StackSpec, y: StackSpec)
    ensures StackFields(x) == StackFields(y) <==> SameStack(x, y)
  {
    hide Sum, Homed, Masked, Keyed;
    StackIsSum(x);
    StackIsSum(y);
    SumDecides(StackGroups(x), StackGroups(y), StackHome);
    DescriptionDecides(x.description, y.description);
    LocationDecides(x.Location(), y.Location());
    KeyedDecides(Env, Masked(x.env.GetOr(map[]), x.secretEnv), Masked(y.env.GetOr(map[]), y.secretEnv));
    hide DescriptionField, LocationField;
    assert StackGroups(x) == StackGroups(y) <==>
      StackGroups(x)[0] == StackGroups(y)[0] && StackGroups(x)[1] == StackGroups(y)[1]
        && StackGroups(x)[2] == StackGroups(y)[2];
  }

  lemma DescriptionDecides(a: string, b: string)
    ensures DescriptionField(a) == DescriptionField(b) <==> a == b
  {
    assert DescriptionField(a)[Plain("description")] == a && DescriptionField(b)[Plain("description")] == b;
  }

  lemma LocationDecides(a: string, b: string)
    ensures LocationField(a) == LocationField(b) <==> a == b
  {
    StatedIfDecides(In(Placement, "location"), a != "", a, b != "", b);
  }

  lemma StatedIfDecides(k: Field, p: bool, a: string, q: bool, b: string)
    ensures StatedIf(p, k, a) == StatedIf(q, k, b) <==> p == q && (p ==> a == b)
  {
    assert k in StatedIf(p, k, a) <==> p;
    assert k in StatedIf(q, k, b) <==> q;
    assert p ==> StatedIf(p, k, a)[k] == a;
    assert q ==> StatedIf(q, k, b)[k] == b;
  }

  lemma KeyedDecides(section: Section, a: map<string, string>, b: map<string, string>)
    ensures Keyed(section, a) == Keyed(section, b) <==> a == b
  {
    if Keyed(section, a) == Keyed(section, b) {
      forall k
        ensures k in a <==> k in b
        ensures k in a ==> a[k] == b[k]
      {
        KeyedAt(section, a, k);
        KeyedAt(section, b, k);
      }
    }
  }

  lemma KeyedAt(section: Section, a: map<string, string>, k: string)
    ensures In(section, k) in Keyed(section, a) <==> k in a
    ensures k in a ==> Keyed(section, a)[In(section, k)] == a[k]
  {}

  /** Quantities compared by what they parse to; an empty one is not stated. */
  predicate SameQuantity(a: string, b: string, parse: string -> int) {
    (a == "" <==> b == "") && (a != "" ==> parse(a) == parse(b))
  }

  function SizesOf(d: DatabaseSpec): DatabaseResourcesSpec {
    d.resources.GetOr(DatabaseResourcesSpec("", "", ""))
  }

  predicate SameDatabase(m: Models, x: DatabaseSpec, y: DatabaseSpec) {
    && x.engine == y.engine && x.version == y.version && x.Location() == y.Location()
    && x.readOnlyUser == y.readOnlyUser
    && SameQuantity(SizesOf(x).memory, SizesOf(y).memory, m.memoryBytes)
    && SameQuantity(SizesOf(x).cpu, SizesOf(y).cpu, m.nanoCPUs)
    && SizesOf(x).size == SizesOf(y).size
  }

  function DatabaseHome(f: Field): int {
    if f in {Plain("engine"), Plain("version")} then 0 else 1
  }

  lemma DatabaseIsSum(m: Models, d: DatabaseSpec)
    ensures DatabaseFields(m, d) == Sum([EngineFields(d), Stated(DatabaseEntries(m, d))])
    ensures Homed([EngineFields(d), Stated(DatabaseEntries(m, d))], DatabaseHome)
  {
    hide Itoa, FormatBool, Stated;
    StatedIsHomed(DatabaseEntries(m, d), DatabaseHome, 1);
    SumOfTwo(EngineFields(d), Stated(DatabaseEntries(m, d)));
  }

  lemma DatabaseEntriesDecide(m: Models, x: DatabaseSpec, y: DatabaseSpec)
    requires x.engine == y.engine && x.version == y.version
    ensures Stated(DatabaseEntries(m, x)) == Stated(DatabaseEntries(m, y)) <==> SameDatabase(m, x, y)
  {
    hide Itoa, FormatBool, Stated;
    var f, g := DatabaseEntries(m, x), DatabaseEntries(m, y);
    StatedDecides(f, g);
    if SameEntries(f, g) {
      assert f[0].stated == g[0].stated && f[1].stated == g[1].stated && f[2].stated == g[2].stated;
      assert f[3].stated == g[3].stated && f[4].stated == g[4].stated;
      FormatBoolInjectiveIf(x.readOnlyUser, y.readOnlyUser);
      ItoaInjectiveIf(SizesOf(x).memory, SizesOf(y).memory, m.memoryBytes);
      ItoaInjectiveIf(SizesOf(x).cpu, SizesOf(y).cpu, m.nanoCPUs);
    }
  }

  lemma FormatBoolInjectiveIf(a: Option<bool>, b: Option<bool>)
    requires a.Some? == b.Some? && (a.Some? ==> FormatBool(a.value) == FormatBool(b.value))
    ensures a == b
  {
    if a.Some? {
      FormatBoolInjective(a.value, b.value);
    }
  }

  lemma ItoaInjectiveIf(a: string, b: string, parse: string -> int)
    requires (a == "" <==> b == "") && (a != "" ==> Itoa(parse(a)) == Itoa(parse(b)))
    ensures SameQuantity(a, b, parse)
  {
    if a != "" {
      ItoaInjective(parse(a), parse(b));
    }
  }

  /** Of a database, the engine, its version and the stated settings. */
  lemma DatabaseSeen(m: Models, x: DatabaseSpec, y: DatabaseSpec)
    ensures DatabaseFields(m, x) == DatabaseFields(m, y) <==> SameDatabase(m, x, y)
  {
    hide Sum, Homed, Stated, DatabaseEntries, SameDatabase, DatabaseFields;
    var xs := [EngineFields(x), Stated(DatabaseEntries(m, x))];
    var ys := [EngineFields(y), Stated(DatabaseEntries(m, y))];
    DatabaseIsSum(m, x);
    DatabaseIsSum(m, y);
    SumDecides(xs, ys, DatabaseHome);
    EngineDecides(x, y);
    assert xs == ys <==> xs[0] == ys[0] && xs[1] == ys[1];
    if x.engine == y.engine && x.version == y.version {
      DatabaseEntriesDecide(m, x, y);
    } else {
      OtherEngineDiffers(m, x, y);
    }
  }

  lemma OtherEngineDiffers(m: Models, x: DatabaseSpec, y: DatabaseSpec)
    requires x.engine != y.engine || x.version != y.version
    ensures !SameDatabase(m, x, y)
  {}

  lemma EngineDecides(x: DatabaseSpec, y: DatabaseSpec)
    ensures EngineFields(x) == EngineFields(y) <==> x.engine == y.engine && x.version == y.version
  {
    var f, g := EngineFields(x), EngineFields(y);
    assert f[Plain("engine")] == x.engine && f[Plain("version")] == x.version;
    assert g[Plain("engine")] == y.engine && g[Plain("version")] == y.version;
  }

  predicate SameVolume(m: Models, x: VolumeSpec, y: VolumeSpec) {
    && x.Location() == y.Location() && TrimSpace(x.storageClass) == TrimSpace(y.storageClass)
    && SameQuantity(x.size, y.size, m.memoryBytes)
  }

  /** Of a volume, the location, the class without its blanks, and the size in bytes. */
  lemma VolumeSeen(m: Models, x: VolumeSpec, y: VolumeSpec)
    ensures VolumeFields(m, x) == VolumeFields(m, y) <==> SameVolume(m, x, y)
  {
    hide Itoa, Stated, TrimSpace;
    var f, g := VolumeEntries(m, x), VolumeEntries(m, y);
    StatedDecides(f, g);
    if SameEntries(f, g) {
      assert f[0].stated == g[0].stated && f[1].stated == g[1].stated && f[2].stated == g[2].stated;
      ItoaInjectiveIf(x.size, y.size, m.memoryBytes);
    }
  }

  /** Every field of a domain is compared. */
  lemma DomainSeen(m: Models, x: DomainSpec, y: DomainSpec)
    ensures FieldsOf(m, DomainOf(x)) == FieldsOf(m, DomainOf(y)) <==> x == y
  {
    hide FormatBool;
    var f, g := FieldsOf(m, DomainOf(x)), FieldsOf(m, DomainOf(y));
    if f == g {
      assert f[Plain("tls")] == g[Plain("tls")] && f[Plain("wildcard")] == g[Plain("wildcard")];
      FormatBoolInjective(x.wildcard, y.wildcard);
    }
  }
}
