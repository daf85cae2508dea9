/** Field-level comparison of a live resource with a declared one. */
module Diffs {
  import opened Fields
  import opened Jobs
  import opened Schema
  import opened Sorting
  import opened StringSorting
  import opened Text
  import opened Wrappers

  datatype FieldDiff = FieldDiff(field: Field, from: string, to: string)

  datatype Delta = Delta(from: string, to: string)

  predicate ByField(a: FieldDiff, b: FieldDiff) {
    FieldLess(a.field, b.field)
  }

  function DiffOf(f: Field, d: Delta): FieldDiff {
    FieldDiff(f, d.from, d.to)
  }

  ghost function DiffSet(ds: map<Field, Delta>): set<FieldDiff> {
    set f | f in ds :: DiffOf(f, ds[f])
  }

  function DiffsFor(ks: seq<Field>, ds: map<Field, Delta>): seq<FieldDiff>
    requires forall k | k in ks :: k in ds
  {
    seq(|ks|, i requires 0 <= i < |ks| => DiffOf(ks[i], ds[ks[i]]))
  }

  lemma DiffsForArranges(ks: seq<Field>, ds: map<Field, Delta>)
    requires Arranges(FieldLess, ks, ds.Keys) && forall k | k in ks :: k in ds
    ensures Arranges(ByField, DiffsFor(ks, ds), DiffSet(ds))
  {
    hide FieldLess;
    var out := DiffsFor(ks, ds);
    forall x | x in DiffSet(ds)
      ensures x in out
    {
      assert x.field in Elements(ks);
      var i :| 0 <= i < |ks| && ks[i] == x.field;
      assert out[i] == x;
    }
  }

  /** The changed fields in ascending order. */
  ghost function Listed(ds: map<Field, Delta>): (out: seq<FieldDiff>)
    ensures Arranges(ByField, out, DiffSet(ds))
    ensures |out| == |ds|
  {
    hide FieldLess;
    FieldsAreOrdered(ds.Keys);
    var ks := Ascending(FieldLess, ds.Keys);
    assert forall k | k in ks :: k in Elements(ks);
    SortedHasNoDuplicates(FieldLess, ks, ds.Keys);
    DiffsForArranges(ks, ds);
    DiffsFor(ks, ds)
  }

  lemma DiffsAreOrdered(ds: map<Field, Delta>)
    ensures StrictTotalOn(ByField, DiffSet(ds))
  {
    FieldsAreOrdered(ds.Keys);
    assert forall x | x in DiffSet(ds) :: x.field in ds;
  }

  /** However the diffs were collected, sorting them by field lists them. */
  lemma SortLists(out: seq<FieldDiff>, ds: map<Field, Delta>)
    requires NoDuplicates(out) && Elements(out) == DiffSet(ds)
    ensures Sort(ByField, out) == Listed(ds)
  {
    DiffsAreOrdered(ds);
    SortArranges(ByField, out);
    ArrangementUnique(ByField, Sort(ByField, out), Listed(ds), DiffSet(ds));
  }

  lemma ListedEmpty(ds: map<Field, Delta>)
    ensures Listed(ds) == [] <==> ds == map[]
  {
    assert |ds| == 0 <==> ds == map[];
  }

  // ---- Fields a silent manifest leaves alone ------------------------------

  const OPTIONAL_WHEN_UNSET: set<Field> := {
    In(Placement, "location"), In(Placement, "constraints"),
    In(Deployment, "strategy"), In(Deployment, "runtime"), In(Deployment, "replicas"),
    In(Deployment, "update.parallelism"), In(Deployment, "update.delaySeconds"),
    In(Healthcheck, "type"), In(Healthcheck, "path"), In(Healthcheck, "port"),
    In(Healthcheck, "command"), In(Healthcheck, "intervalSeconds"),
    In(Healthcheck, "timeoutSeconds"), In(Healthcheck, "retries"),
    In(Healthcheck, "startPeriodSeconds"), Plain("stack")}

  function OptionalByKind(k: Kind): set<Field> {
    match k
    case KindDatabase =>
      {In(Resources, "memory"), In(Resources, "cpu"), In(Resources, "size"), Plain("readOnlyUser")}
    case KindVolume => {In(Storage, "class"), Plain("size")}
    case KindCronJob => {Plain("suspend")}
    case _ => {}
  }

  predicate IsEnv(f: Field) {
    f.In? && f.section == Env
  }

  /** A Stack that states no env leaves console-set variables alone. */
  predicate SilentEnv(d: Resource) {
    d.spec.StackOf? && d.spec.stack.env.None?
  }

  /** Live field `f` is not compared: the manifest `d`, with fields `dv`, is
      silent about it. */
  predicate Exempt(d: Resource, dv: FieldMap, f: Field) {
    || (f in OPTIONAL_WHEN_UNSET && f !in dv)
    || (f in OptionalByKind(d.kind) && f !in dv)
    || (SilentEnv(d) && IsEnv(f))
  }

  ghost function Compared(av: FieldMap, dv: FieldMap, d: Resource): FieldMap {
    map f | f in av && !Exempt(d, dv, f) :: av[f]
  }

  ghost function Deltas(av: FieldMap, dv: FieldMap): map<Field, Delta> {
    map f | f in av.Keys + dv.Keys && Get(av, f) != Get(dv, f) :: Delta(Get(av, f), Get(dv, f))
  }

  ghost function GenericDeltas(m: Models, a: Resource, d: Resource): map<Field, Delta> {
    var dv := FieldsOf(m, d.spec);
    Deltas(Compared(FieldsOf(m, a.spec), dv, d), dv)
  }

  // ---- Kinds compared by hand --------------------------------------------

  function Changed(field: Field, from: string, to: string): seq<FieldDiff> {
    if from != to then [FieldDiff(field, from, to)] else []
  }

  function DiffSealedSecret(a: Resource, d: Resource): seq<FieldDiff> {
    if !d.spec.SealedSecretOf? || d.spec.sealedSecret.sealedFP == "" then []
    else if !a.spec.SealedSecretOf? || a.spec.sealedSecret.sealedFP == "" then
      [FieldDiff(Plain("value"), "(not from a sealed value)", "(sealed)")]
    else if a.spec.sealedSecret.sealedFP == d.spec.sealedSecret.sealedFP then []
    else [FieldDiff(Plain("value"), "(current)", "(sealed)")]
  }

  function DiffRegistry(a: Resource, d: Resource): seq<FieldDiff> {
    if !d.spec.RegistryOf? then []
    else
      var live := if a.spec.RegistryOf? then a.spec.registry else RegistrySpec("", "", "", "");
      var want := d.spec.registry;
      Changed(Plain("server"), live.server, want.server)
      + Changed(Plain("username"), live.username, want.username)
      + (if want.password != "" && want.passwordFP != "" && live.passwordFP != ""
            && live.passwordFP != want.passwordFP
         then [FieldDiff(Plain("password"), "(current)", "(rotated)")] else [])
  }

  function DiffMiddleware(a: Resource, d: Resource): seq<FieldDiff> {
    if !d.spec.MiddlewareOf? then []
    else
      var live := if a.spec.MiddlewareOf? then a.spec.middleware else MiddlewareSpec("", [], map[], "");
      var want := d.spec.middleware;
      Changed(Plain("type"), live.kind, want.kind)
      + Changed(Plain("paths"), Join(live.paths, ","), Join(want.paths, ","))
      + (if live.ruleFP != "" && want.ruleFP != "" && live.ruleFP != want.ruleFP
         then [FieldDiff(Plain("rule"), "(current)", "(changed)")] else [])
  }

  function Fingerprint(m: Models, j: JobSpec): string {
    m.digest(RunBytes(j))
  }

  function DiffJob(m: Models, a: Resource, d: Resource): seq<FieldDiff> {
    if !d.spec.JobOf? then []
    else
      var live := if a.spec.JobOf? then a.spec.job
                  else JobSpec("", [], [], "", "", 0, "", None, 0, 0, None, "");
      var want := d.spec.job;
      Changed(Plain("app"), live.app, want.app)
      + Changed(Plain("historyLimit"), Itoa(HistoryOrDefault(live.historyLimit)),
                Itoa(HistoryOrDefault(want.historyLimit)))
      + Changed(Plain("runPolicy"), live.Policy(), want.Policy())
      + Changed(Plain("waitForDeploy"), FormatBool(live.Waits()), FormatBool(want.Waits()))
      + Changed(Plain("backoffLimit"), Itoa(live.backoffLimit), Itoa(want.backoffLimit))
      + Changed(Plain("spec"), if live.specFP == "" then Fingerprint(m, live) else live.specFP, Fingerprint(m, want))
  }

  function Present(data: map<string, string>, k: string): string {
    if k in data then "(present)" else "(absent)"
  }

  /** Which files of a config differ; an absent file reads as an empty one. */
  ghost function FileDeltas(live: map<string, string>, want: map<string, string>): map<string, Delta> {
    map k | k in live.Keys + want.Keys && Get(live, k) != Get(want, k) ::
      Delta(Present(live, k), Present(want, k))
  }

  function ScalarDelta(f: Field, from: string, to: string): map<Field, Delta> {
    if from != to then map[f := Delta(from, to)] else map[]
  }

  ghost function ConfigDeltasOf(live: ConfigSpec, want: ConfigSpec): map<Field, Delta> {
    ScalarDelta(Plain("data"), live.digestFP, want.digestFP)
    + ScalarDelta(Plain("mode"), live.mode, want.mode)
    + Keyed(Data, ShownFiles(live, want))
  }

  /** A sensitive config differs by digest only. */
  ghost function ShownFiles(live: ConfigSpec, want: ConfigSpec): map<string, Delta> {
    if want.sensitive then map[] else FileDeltas(live.data, want.data)
  }

  function LiveConfig(a: Resource): ConfigSpec {
    if a.spec.ConfigOf? then a.spec.config else ConfigSpec(map[], "", false, [], "")
  }

  ghost function ConfigDeltas(a: Resource, d: Resource): map<Field, Delta>
    requires d.spec.ConfigOf?
  {
    ConfigDeltasOf(LiveConfig(a), d.spec.config)
  }

  // ---- The diff ------------------------------------------------------------

  /** Kinds whose fields are compared generically. */
  predicate Generic(k: Kind) {
    k !in {KindSecret, KindSealedSecret, KindRegistry, KindConfig, KindMiddleware, KindJob}
  }

  ghost function Diff(m: Models, a: Resource, d: Resource): seq<FieldDiff> {
    match d.kind
    case KindSecret => []
    case KindSealedSecret => DiffSealedSecret(a, d)
    case KindRegistry => DiffRegistry(a, d)
    case KindConfig => if d.spec.ConfigOf? then Listed(ConfigDeltas(a, d)) else []
    case KindMiddleware => DiffMiddleware(a, d)
    case KindJob => DiffJob(m, a, d)
    case _ => Listed(GenericDeltas(m, a, d))
  }

  // ---- The imperative comparison -------------------------------------------

  method DropUnstated(av: FieldMap, dv: FieldMap, names: set<Field>) returns (out: FieldMap)
    ensures out == map f | f in av && !(f in names && f !in dv) :: av[f]
  {
    out := av;
    var todo := names;
    while todo != {}
      invariant todo <= names
      invariant out == map f | f in av && !(f in names - todo && f !in dv) :: av[f]
      decreases todo
    {
      var f :| f in todo;
      if f !in dv {
        out := out - {f};
      }
      todo := todo - {f};
    }
  }

  method DropEnv(av: FieldMap) returns (out: FieldMap)
    ensures out == map f | f in av && !IsEnv(f) :: av[f]
  {
    out := av;
    var todo := av.Keys;
    while todo != {}
      invariant todo <= av.Keys
      invariant out == map f | f in av && !(f !in todo && IsEnv(f)) :: av[f]
      decreases todo
    {
      var f :| f in todo;
      if IsEnv(f) {
        out := out - {f};
      }
      todo := todo - {f};
    }
  }

  /** `out` holds one diff for every delta whose field is in `seen`. */
  ghost predicate Collects(out: seq<FieldDiff>, ds: map<Field, Delta>, seen: set<Field>) {
    && NoDuplicates(out)
    && Elements(out) == set f | f in ds && f in seen :: DiffOf(f, ds[f])
  }

  lemma CollectStep(out: seq<FieldDiff>, ds: map<Field, Delta>, seen: set<Field>, f: Field)
    requires Collects(out, ds, seen) && f !in seen
    ensures f in ds ==> Collects(out + [DiffOf(f, ds[f])], ds, seen + {f})
    ensures f !in ds ==> Collects(out, ds, seen + {f})
  {
    assert forall x | x in out :: x in Elements(out);
    if f in ds {
      var after := out + [DiffOf(f, ds[f])];
      assert Elements(after) == Elements(out) + {DiffOf(f, ds[f])};
      assert DiffOf(f, ds[f]) !in out;
    }
  }

  lemma CollectedAll(out: seq<FieldDiff>, ds: map<Field, Delta>, seen: set<Field>)
    requires Collects(out, ds, seen) && ds.Keys <= seen
    ensures Sort(ByField, out) == Listed(ds)
  {
    assert Elements(out) == DiffSet(ds);
    SortLists(out, ds);
  }

  /** Compares two field maps key by key, in any order. */
  method CollectDeltas(av: FieldMap, dv: FieldMap) returns (out: seq<FieldDiff>)
    ensures out == Listed(Deltas(av, dv))
  {
    ghost var ds := Deltas(av, dv);
    out := [];
    var keys := av.Keys + dv.Keys;
    var todo := keys;
    while todo != {}
      invariant todo <= keys
      invariant Collects(out, ds, keys - todo)
      decreases todo
    {
      var k :| k in todo;
      CollectStep(out, ds, keys - todo, k);
      if Get(av, k) != Get(dv, k) {
        out := out + [FieldDiff(k, Get(av, k), Get(dv, k))];
      }
      assert keys - (todo - {k}) == keys - todo + {k};
      todo := todo - {k};
    }
    CollectedAll(out, ds, keys);
    out := Sort(ByField, out);
  }

  /** The live fields that take part in the comparison. */
  method DropExempt(live: FieldMap, dv: FieldMap, d: Resource) returns (av: FieldMap)
    ensures av == Compared(live, dv, d)
  {
    av := DropUnstated(live, dv, OPTIONAL_WHEN_UNSET);
    av := DropUnstated(av, dv, OptionalByKind(d.kind));
    if SilentEnv(d) {
      av := DropEnv(av);
    }
  }

  method DiffGeneric(m: Models, a: Resource, d: Resource) returns (out: seq<FieldDiff>)
    ensures out == Listed(GenericDeltas(m, a, d))
  {
    hide FieldsOf, Compared, Deltas;
    var live := SpecFields(m, a);
    var dv := SpecFields(m, d);
    var av := DropExempt(live, dv, d);
    out := CollectDeltas(av, dv);
  }

  /** The keys of `files`, as diff fields. */
  ghost function DataFields(files: set<string>): set<Field> {
    set k | k in files :: In(Data, k)
  }

  /** Collects the changed files of a config, in any order. */
  method DiffFiles(sofar: seq<FieldDiff>, live: map<string, string>, want: map<string, string>,
                   ghost ds: map<Field, Delta>, ghost seen: set<Field>)
    returns (out: seq<FieldDiff>)
    requires Collects(sofar, ds, seen)
    requires seen !! DataFields(live.Keys + want.Keys)
    requires forall k {:trigger In(Data, k)} :: In(Data, k) in ds <==> k in FileDeltas(live, want)
    requires forall k {:trigger In(Data, k)} | In(Data, k) in ds :: ds[In(Data, k)] == FileDeltas(live, want)[k]
    ensures Collects(out, ds, seen + DataFields(live.Keys + want.Keys))
  {
    out := sofar;
    var keys := live.Keys + want.Keys;
    var todo := keys;
    while todo != {}
      invariant todo <= keys
      invariant Collects(out, ds, seen + DataFields(keys - todo))
      decreases todo
    {
      var k :| k in todo;
      CollectStep(out, ds, seen + DataFields(keys - todo), In(Data, k));
      if Get(live, k) != Get(want, k) {
        out := out + [FieldDiff(In(Data, k), Present(live, k), Present(want, k))];
      }
      assert keys - (todo - {k}) == keys - todo + {k};
      assert seen + DataFields(keys - todo) + {In(Data, k)} == seen + DataFields(keys - (todo - {k}));
      todo := todo - {k};
    }
    assert keys - todo == keys;
  }

  /** `ds` holds the given digest and mode changes and those of `files`. */
  ghost predicate HoldsConfig(ds: map<Field, Delta>, digest: Option<Delta>, mode: Option<Delta>,
                              files: map<string, Delta>)
  {
    && (Plain("data") in ds <==> digest.Some?)
    && (digest.Some? ==> ds[Plain("data")] == digest.value)
    && (Plain("mode") in ds <==> mode.Some?)
    && (mode.Some? ==> ds[Plain("mode")] == mode.value)
    && (forall k {:trigger In(Data, k)} :: In(Data, k) in ds <==> k in files)
    && (forall k {:trigger In(Data, k)} | In(Data, k) in ds :: ds[In(Data, k)] == files[k])
    && (forall f | f in ds :: f == Plain("data") || f == Plain("mode") || (f.In? && f.section == Data))
  }

  function DeltaIf(from: string, to: string): Option<Delta> {
    if from != to then Some(Delta(from, to)) else None
  }

  lemma PartsHold(data: map<Field, Delta>, mode: map<Field, Delta>, files: map<string, Delta>,
                  x: Option<Delta>, y: Option<Delta>)
    requires data == if x.Some? then map[Plain("data") := x.value] else map[]
    requires mode == if y.Some? then map[Plain("mode") := y.value] else map[]
    ensures HoldsConfig(data + mode + Keyed(Data, files), x, y, files)
  {
    hide Keyed;
    assert Plain("data") != Plain("mode");
    assert forall k {:trigger In(Data, k)} :: In(Data, k) in Keyed(Data, files) <==> k in files;
  }

  method DiffConfig(live: ConfigSpec, want: ConfigSpec) returns (out: seq<FieldDiff>)
    ensures out == Listed(ConfigDeltasOf(live, want))
  {
    PartsHold(ScalarDelta(Plain("data"), live.digestFP, want.digestFP),
              ScalarDelta(Plain("mode"), live.mode, want.mode),
              ShownFiles(live, want), DeltaIf(live.digestFP, want.digestFP), DeltaIf(live.mode, want.mode));
    out := CollectConfig(live, want, ConfigDeltasOf(live, want));
  }

  method CollectConfig(live: ConfigSpec, want: ConfigSpec, ghost ds: map<Field, Delta>)
    returns (out: seq<FieldDiff>)
    requires HoldsConfig(ds, DeltaIf(live.digestFP, want.digestFP), DeltaIf(live.mode, want.mode),
                         ShownFiles(live, want))
    ensures out == Listed(ds)
  {
    out := [];
    CollectStep(out, ds, {}, Plain("data"));
    if live.digestFP != want.digestFP {
      out := out + [FieldDiff(Plain("data"), live.digestFP, want.digestFP)];
    }
    CollectStep(out, ds, {} + {Plain("data")}, Plain("mode"));
    if live.mode != want.mode {
      out := out + [FieldDiff(Plain("mode"), live.mode, want.mode)];
    }
    ghost var seen := {} + {Plain("data")} + {Plain("mode")};
    if !want.sensitive {
      out := DiffFiles(out, live.data, want.data, ds, seen);
      seen := seen + DataFields(live.data.Keys + want.data.Keys);
    }
    assert ds.Keys <= seen by {
      forall f | f in ds && f.In?
        ensures f in seen
      {
        assert f == In(Data, f.name);
      }
    }
    CollectedAll(out, ds, seen);
    out := Sort(ByField, out);
  }

  method DiffFields(m: Models, a: Resource, d: Resource) returns (out: seq<FieldDiff>)
    ensures out == Diff(m, a, d)
  {
    match d.kind {
      case KindSecret => out := [];
      case KindSealedSecret => out := DiffSealedSecret(a, d);
      case KindRegistry => out := DiffRegistry(a, d);
      case KindConfig =>
        if d.spec.ConfigOf? {
          out := DiffConfig(LiveConfig(a), d.spec.config);
        } else {
          out := [];
        }
      case KindMiddleware => out := DiffMiddleware(a, d);
      case KindJob => out := DiffJob(m, a, d);
      case _ => out := DiffGeneric(m, a, d);
    }
  }
}
