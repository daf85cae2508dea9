/** What a diff says of the kinds compared by hand, field by field. */
module DiffNamesByHand {
  import opened DiffNames
  import opened Diffs
  import opened Fields
  import opened Jobs
  import opened Schema
  import opened Text
  import opened Wrappers

  // ---- Lists of changes ------------------------------------------------------------

  predicate About(part: seq<FieldDiff>, f: Field) {
    forall x | x in part :: x.field == f
  }

  /** The diff says of `f` what `part` does. */
  ghost predicate Agree(diff: seq<FieldDiff>, part: seq<FieldDiff>, f: Field) {
    forall x: FieldDiff | x.field == f :: x in diff <==> x in part
  }

  lemma ChangedShows(f: Field, from: string, to: string)
    ensures Shows(Changed(f, from, to), f, true, from, to)
    ensures About(Changed(f, from, to), f)
  {}

  /** A change with fixed words on both sides. */
  function Noted(f: Field, when: bool, from: string, to: string): seq<FieldDiff> {
    if when then [FieldDiff(f, from, to)] else []
  }

  lemma NotedShows(f: Field, when: bool, from: string, to: string)
    requires from != to
    ensures Shows(Noted(f, when, from, to), f, when, from, to)
    ensures About(Noted(f, when, from, to), f)
  {}

  lemma StillShows(diff: seq<FieldDiff>, part: seq<FieldDiff>, f: Field, compared: bool, from: string, to: string)
    requires Shows(part, f, compared, from, to)
    requires Agree(diff, part, f)
    ensures Shows(diff, f, compared, from, to)
  {
    forall x: string, y: string
      ensures FieldDiff(f, x, y) in diff <==> compared && x == from && y == to && x != y
    {
      assert FieldDiff(f, x, y).field == f;
    }
  }

  /** Three lists about three fields. */
  lemma ThreeParts(a: seq<FieldDiff>, b: seq<FieldDiff>, c: seq<FieldDiff>, f: Field, g: Field, h: Field)
    requires f != g && g != h && f != h
    requires About(a, f) && About(b, g)
    requires About(c, h)
    ensures var diff := a + b + c;
      && Agree(diff, a, f) && Agree(diff, b, g)
      && Agree(diff, c, h) && forall x | x in diff :: x.field in {f, g, h}
  {}

  // ---- Secrets ---------------------------------------------------------------------------

  /** A plan never says a secret changed. */
  lemma SecretDiff(m: Models, a: Resource, d: Resource)
    requires d.kind == KindSecret
    ensures Diff(m, a, d) == []
  {}

  /** What the vault entry was sealed from, when it was. */
  function SealOf(r: Resource): string {
    if r.spec.SealedSecretOf? then r.spec.sealedSecret.sealedFP else ""
  }

  lemma WordsDiffer()
    ensures "(current)" != "(sealed)" && "(not from a sealed value)" != "(sealed)" && "(current)" != "(rotated)"
    ensures "(current)" != "(changed)"
  {
    assert |"(current)"| == 9 && |"(sealed)"| == 8 && "(not from a sealed value)"[1] == 'n' && "(sealed)"[1] == 's';
    assert "(current)"[2] == 'u' && "(rotated)"[2] == 'o' && "(changed)"[2] == 'h';
  }

  /** A sealed secret differs by its seal alone, and only once it has one. */
  lemma SealedSecretDiff(m: Models, a: Resource, d: Resource)
    requires d.kind == KindSealedSecret && d.spec.SealedSecretOf?
    ensures var diff, x, y := Diff(m, a, d), SealOf(a), SealOf(d);
      && Shows(diff, Plain("value"), y != "" && x != y, if x == "" then "(not from a sealed value)" else "(current)",
               "(sealed)")
      && (forall z | z in diff :: z.field == Plain("value"))
  {
    WordsDiffer();
    var x, y := SealOf(a), SealOf(d);
    var from := if x == "" then "(not from a sealed value)" else "(current)";
    NotedShows(Plain("value"), y != "" && x != y, from, "(sealed)");
    assert Diff(m, a, d) == Noted(Plain("value"), y != "" && x != y, from, "(sealed)");
  }

  // ---- Registries and middlewares ------------------------------------------------------------

  lemma RegistryDiff(m: Models, a: Resource, d: Resource)
    requires d.kind == KindRegistry && a.spec.RegistryOf? && d.spec.RegistryOf?
    ensures var diff, x, y := Diff(m, a, d), a.spec.registry, d.spec.registry;
      && Shows(diff, Plain("server"), true, x.server, y.server)
      && Shows(diff, Plain("username"), true, x.username, y.username)
      && Shows(diff, Plain("password"),
               y.password != "" && x.passwordFP != "" && y.passwordFP != "" && x.passwordFP != y.passwordFP,
               "(current)", "(rotated)")
      && (forall z | z in diff :: z.field in {Plain("server"), Plain("username"), Plain("password")})
  {
    hide Shows, Changed;
    var x, y := a.spec.registry, d.spec.registry;
    var rotated := y.password != "" && x.passwordFP != "" && y.passwordFP != "" && x.passwordFP != y.passwordFP;
    WordsDiffer();
    ChangedShows(Plain("server"), x.server, y.server);
    ChangedShows(Plain("username"), x.username, y.username);
    NotedShows(Plain("password"), rotated, "(current)", "(rotated)");
    var server, username := Changed(Plain("server"), x.server, y.server),
      Changed(Plain("username"), x.username, y.username);
    var password := Noted(Plain("password"), rotated, "(current)", "(rotated)");
    assert Diff(m, a, d) == server + username + password;
    ThreeParts(server, username, password, Plain("server"), Plain("username"), Plain("password"));
    var diff := Diff(m, a, d);
    StillShows(diff, server, Plain("server"), true, x.server, y.server);
    StillShows(diff, username, Plain("username"), true, x.username, y.username);
    StillShows(diff, password, Plain("password"), rotated, "(current)", "(rotated)");
  }

  lemma MiddlewareDiff(m: Models, a: Resource, d: Resource)
    requires d.kind == KindMiddleware && a.spec.MiddlewareOf? && d.spec.MiddlewareOf?
    ensures var diff, x, y := Diff(m, a, d), a.spec.middleware, d.spec.middleware;
      && Shows(diff, Plain("type"), true, x.kind, y.kind)
      && Shows(diff, Plain("paths"), true, Join(x.paths, ","), Join(y.paths, ","))
      && Shows(diff, Plain("rule"), x.ruleFP != "" && y.ruleFP != "" && x.ruleFP != y.ruleFP, "(current)", "(changed)")
      && (forall z | z in diff :: z.field in {Plain("type"), Plain("paths"), Plain("rule")})
  {
    hide Shows, Changed, Join;
    var x, y := a.spec.middleware, d.spec.middleware;
    var from, to := Join(x.paths, ","), Join(y.paths, ",");
    var rule := x.ruleFP != "" && y.ruleFP != "" && x.ruleFP != y.ruleFP;
    WordsDiffer();
    ChangedShows(Plain("type"), x.kind, y.kind);
    ChangedShows(Plain("paths"), from, to);
    NotedShows(Plain("rule"), rule, "(current)", "(changed)");
    var kinds, paths := Changed(Plain("type"), x.kind, y.kind), Changed(Plain("paths"), from, to);
    var rules := Noted(Plain("rule"), rule, "(current)", "(changed)");
    assert Diff(m, a, d) == kinds + paths + rules;
    ThreeParts(kinds, paths, rules, Plain("type"), Plain("paths"), Plain("rule"));
    var diff := Diff(m, a, d);
    StillShows(diff, kinds, Plain("type"), true, x.kind, y.kind);
    StillShows(diff, paths, Plain("paths"), true, from, to);
    StillShows(diff, rules, Plain("rule"), rule, "(current)", "(changed)");
  }

  // ---- Jobs ------------------------------------------------------------------------------------

  function PolicyText(j: JobSpec): string {
    if j.runPolicy != "" then j.runPolicy else "onChange"
  }

  /** Held while the application is being deployed, unless the manifest says not to. */
  function WaitsText(j: JobSpec): string {
    if PolicyText(j) == "onChange" && j.waitForDeploy != Some(false) then "true" else "false"
  }

  function HistoryText(j: JobSpec): string {
    if j.historyLimit >= 1 then Itoa(j.historyLimit) else Itoa(20)
  }

  lemma JobTexts(j: JobSpec)
    ensures j.Policy() == PolicyText(j) && FormatBool(j.Waits()) == WaitsText(j)
    ensures Itoa(HistoryOrDefault(j.historyLimit)) == HistoryText(j)
  {
    hide Itoa;
  }

  const JOB_KEYS: set<Field> :=
    {Plain("app"), Plain("historyLimit"), Plain("runPolicy"), Plain("waitForDeploy"), Plain("backoffLimit"),
      Plain("spec")}

  /** A job's template shows as one field, by the fingerprint it was last run with. */
  lemma JobDiff(m: Models, a: Resource, d: Resource)
    requires d.kind == KindJob && a.spec.JobOf? && d.spec.JobOf?
    ensures var diff, x, y := Diff(m, a, d), a.spec.job, d.spec.job;
      && Shows(diff, Plain("app"), true, x.app, y.app)
      && Shows(diff, Plain("historyLimit"), true, HistoryText(x), HistoryText(y))
      && Shows(diff, Plain("runPolicy"), true, PolicyText(x), PolicyText(y))
      && Shows(diff, Plain("waitForDeploy"), true, WaitsText(x), WaitsText(y))
      && Shows(diff, Plain("backoffLimit"), true, Itoa(x.backoffLimit), Itoa(y.backoffLimit))
      && Shows(diff, Plain("spec"), true,
               if x.specFP != "" then x.specFP else m.digest(RunBytes(x)), m.digest(RunBytes(y)))
      && (forall z | z in diff :: z.field in JOB_KEYS)
  {
    hide Shows, Changed, Itoa, RunBytes, PolicyText, WaitsText, HistoryText, HistoryOrDefault, FormatBool,
      JobSpec.Policy, JobSpec.Waits;
    var x, y := a.spec.job, d.spec.job;
    JobTexts(x);
    JobTexts(y);
    var from := if x.specFP != "" then x.specFP else m.digest(RunBytes(x));
    JobParts(Diff(m, a, d), x.app, y.app, HistoryText(x), HistoryText(y), PolicyText(x), PolicyText(y),
             WaitsText(x), WaitsText(y), Itoa(x.backoffLimit), Itoa(y.backoffLimit), from, m.digest(RunBytes(y)));
  }

  lemma JobParts(diff: seq<FieldDiff>, a: string, b: string, h: string, i: string, p: string, q: string,
                 w: string, v: string, s: string, t: string, x: string, y: string)
    requires diff == Changed(Plain("app"), a, b) + Changed(Plain("historyLimit"), h, i)
      + Changed(Plain("runPolicy"), p, q)
      + Changed(Plain("waitForDeploy"), w, v) + Changed(Plain("backoffLimit"), s, t) + Changed(Plain("spec"), x, y)
    ensures Shows(diff, Plain("app"), true, a, b) && Shows(diff, Plain("historyLimit"), true, h, i)
    ensures Shows(diff, Plain("runPolicy"), true, p, q) && Shows(diff, Plain("waitForDeploy"), true, w, v)
    ensures Shows(diff, Plain("backoffLimit"), true, s, t) && Shows(diff, Plain("spec"), true, x, y)
    ensures forall z | z in diff :: z.field in JOB_KEYS
  {
    hide Shows, Changed;
    JobFields();
    var one, two := Changed(Plain("app"), a, b), Changed(Plain("historyLimit"), h, i);
    var three, four := Changed(Plain("runPolicy"), p, q), Changed(Plain("waitForDeploy"), w, v);
    var five, six := Changed(Plain("backoffLimit"), s, t), Changed(Plain("spec"), x, y);
    ChangedShows(Plain("app"), a, b);
    ChangedShows(Plain("historyLimit"), h, i);
    ChangedShows(Plain("runPolicy"), p, q);
    ChangedShows(Plain("waitForDeploy"), w, v);
    ChangedShows(Plain("backoffLimit"), s, t);
    ChangedShows(Plain("spec"), x, y);
    SixParts(one, two, three, four, five, six);
    StillShows(diff, one, Plain("app"), true, a, b);
    StillShows(diff, two, Plain("historyLimit"), true, h, i);
    StillShows(diff, three, Plain("runPolicy"), true, p, q);
    StillShows(diff, four, Plain("waitForDeploy"), true, w, v);
    StillShows(diff, five, Plain("backoffLimit"), true, s, t);
    StillShows(diff, six, Plain("spec"), true, x, y);
  }

  lemma JobFields()
    ensures |JOB_KEYS| == 6
  {
    var names := ["app", "historyLimit", "runPolicy", "waitForDeploy", "backoffLimit", "spec"];
    assert |names[0]| == 3 && |names[1]| == 12 && |names[2]| == 9 && |names[3]| == 13 && |names[4]| == 12
      && |names[5]| == 4;
    assert names[1][0] == 'h' && names[4][0] == 'b';
  }

  lemma SixParts(a: seq<FieldDiff>, b: seq<FieldDiff>, c: seq<FieldDiff>, d: seq<FieldDiff>, e: seq<FieldDiff>,
                 f: seq<FieldDiff>)
    requires About(a, Plain("app")) && About(b, Plain("historyLimit"))
    requires About(c, Plain("runPolicy")) && About(d, Plain("waitForDeploy"))
    requires About(e, Plain("backoffLimit")) && About(f, Plain("spec"))
    ensures var diff := a + b + c + d + e + f;
      && Agree(diff, a, Plain("app"))
      && Agree(diff, b, Plain("historyLimit"))
      && Agree(diff, c, Plain("runPolicy"))
      && Agree(diff, d, Plain("waitForDeploy"))
      && Agree(diff, e, Plain("backoffLimit"))
      && Agree(diff, f, Plain("spec"))
      && (forall x | x in diff :: x.field in JOB_KEYS)
  {}

  // ---- Configs ---------------------------------------------------------------------------------

  /** Whether a config has a file, in the plan's words. */
  function FileText(data: map<string, string>, k: string): string {
    if k in data then "(present)" else "(absent)"
  }

  function FileOf(data: map<string, string>, k: string): string {
    if k in data then data[k] else ""
  }

  lemma KeyedValue(files: map<string, Delta>, k: string)
    ensures In(Data, k) in Keyed(Data, files) <==> k in files
    ensures k in files ==> Keyed(Data, files)[In(Data, k)] == files[k]
    ensures forall f | f in Keyed(Data, files) :: f.In? && f.section == Data && f.name in files
  {}

  lemma ListedDelta(ds: map<Field, Delta>, x: FieldDiff)
    ensures x in Listed(ds) <==> x.field in ds && ds[x.field] == Delta(x.from, x.to)
  {
    var out := Listed(ds);
    assert x in out <==> x in Sorting.Elements(out);
    assert x in DiffSet(ds) <==> x.field in ds && ds[x.field] == Delta(x.from, x.to);
  }

  /** A config shows its digest and mode, and of every file that differs whether each
      side has it; the files of a sensitive one stay out of the plan. */
  lemma ConfigDiff(m: Models, a: Resource, d: Resource, k: string, from: string, to: string)
    requires d.kind == KindConfig && a.spec.ConfigOf? && d.spec.ConfigOf?
    ensures var diff, x, y := Diff(m, a, d), a.spec.config, d.spec.config;
      && Shows(diff, Plain("data"), true, x.digestFP, y.digestFP)
      && Shows(diff, Plain("mode"), true, x.mode, y.mode)
      && (FieldDiff(In(Data, k), from, to) in diff <==>
            !y.sensitive && FileOf(x.data, k) != FileOf(y.data, k)
            && from == FileText(x.data, k) && to == FileText(y.data, k))
      && (forall z | z in diff :: z.field in {Plain("data"), Plain("mode")} || (z.field.In? && z.field.section == Data))
  {
    hide Listed, Keyed, ShownFiles, ScalarDelta, Shows, FileOf, FileText;
    var x, y := a.spec.config, d.spec.config;
    var files := ShownFiles(x, y);
    var ds := ConfigDeltasOf(x, y);
    FileShows(x, y, k);
    assert Diff(m, a, d) == Listed(ds);
    hide Diff;
    ScalarsShow(ds, files, x, y);
    ConfigFields(ds, files, x, y, k);
    ListedDelta(ds, FieldDiff(In(Data, k), from, to));
    forall z | z in Listed(ds)
      ensures z.field in {Plain("data"), Plain("mode")} || (z.field.In? && z.field.section == Data)
    {
      ListedDelta(ds, z);
    }
  }

  lemma NamesDiffer()
    ensures "data" != "mode"
  {
    assert "data"[0] == 'd' && "mode"[0] == 'm';
  }

  lemma FileShows(x: ConfigSpec, y: ConfigSpec, k: string)
    ensures k in ShownFiles(x, y) <==> !y.sensitive && FileOf(x.data, k) != FileOf(y.data, k)
    ensures k in ShownFiles(x, y) ==> ShownFiles(x, y)[k] == Delta(FileText(x.data, k), FileText(y.data, k))
  {}

  /** Three maps that share no key. */
  lemma MergedAt(a: map<Field, Delta>, b: map<Field, Delta>, c: map<Field, Delta>, f: Field)
    ensures f !in b && f !in c ==> HasSame(a + b + c, a, f)
    ensures f !in a && f !in c ==> HasSame(a + b + c, b, f)
    ensures f !in a && f !in b ==> HasSame(a + b + c, c, f)
    ensures f in a + b + c <==> f in a || f in b || f in c
  {}

  ghost predicate HasSame(ds: map<Field, Delta>, part: map<Field, Delta>, f: Field) {
    (f in ds <==> f in part) && (f in part ==> ds[f] == part[f])
  }

  lemma ScalarIs(f: Field, from: string, to: string, g: Field)
    ensures g in ScalarDelta(f, from, to) <==> g == f && from != to
    ensures from != to ==> ScalarDelta(f, from, to)[f] == Delta(from, to)
  {}

  lemma ListedShows(ds: map<Field, Delta>, part: map<Field, Delta>, f: Field, from: string, to: string)
    requires HasSame(ds, part, f)
    requires (f in part <==> from != to) && (f in part ==> part[f] == Delta(from, to))
    ensures Shows(Listed(ds), f, true, from, to)
  {
    hide Listed;
    forall u: string, v: string
      ensures FieldDiff(f, u, v) in Listed(ds) <==> u == from && v == to && u != v
    {
      ListedDelta(ds, FieldDiff(f, u, v));
    }
  }

  lemma ScalarsShow(ds: map<Field, Delta>, files: map<string, Delta>, x: ConfigSpec, y: ConfigSpec)
    requires ds == ScalarDelta(Plain("data"), x.digestFP, y.digestFP) + ScalarDelta(Plain("mode"), x.mode, y.mode)
                   + Keyed(Data, files)
    ensures Shows(Listed(ds), Plain("data"), true, x.digestFP, y.digestFP)
    ensures Shows(Listed(ds), Plain("mode"), true, x.mode, y.mode)
  {
    hide Listed, Keyed, ScalarDelta, HasSame, Shows;
    NamesDiffer();
    KeyedValue(files, "");
    var data := ScalarDelta(Plain("data"), x.digestFP, y.digestFP);
    var mode := ScalarDelta(Plain("mode"), x.mode, y.mode);
    ScalarIs(Plain("data"), x.digestFP, y.digestFP, Plain("data"));
    ScalarIs(Plain("data"), x.digestFP, y.digestFP, Plain("mode"));
    ScalarIs(Plain("mode"), x.mode, y.mode, Plain("data"));
    ScalarIs(Plain("mode"), x.mode, y.mode, Plain("mode"));
    MergedAt(data, mode, Keyed(Data, files), Plain("data"));
    MergedAt(data, mode, Keyed(Data, files), Plain("mode"));
    ListedShows(ds, data, Plain("data"), x.digestFP, y.digestFP);
    ListedShows(ds, mode, Plain("mode"), x.mode, y.mode);
  }

  /** A field of the merged maps lies in one of them. */
  lemma ConfigFields(ds: map<Field, Delta>, files: map<string, Delta>, x: ConfigSpec, y: ConfigSpec, k: string)
    requires ds == ScalarDelta(Plain("data"), x.digestFP, y.digestFP) + ScalarDelta(Plain("mode"), x.mode, y.mode)
                   + Keyed(Data, files)
    ensures forall f | f in ds :: f in {Plain("data"), Plain("mode")} || (f.In? && f.section == Data)
    ensures In(Data, k) in ds <==> k in files
    ensures k in files ==> ds[In(Data, k)] == files[k]
  {
    hide Keyed, ScalarDelta;
    KeyedValue(files, k);
    var data := ScalarDelta(Plain("data"), x.digestFP, y.digestFP);
    var mode := ScalarDelta(Plain("mode"), x.mode, y.mode);
    forall f | f in ds
      ensures f in {Plain("data"), Plain("mode")} || (f.In? && f.section == Data)
    {
      ScalarIs(Plain("data"), x.digestFP, y.digestFP, f);
      ScalarIs(Plain("mode"), x.mode, y.mode, f);
      MergedAt(data, mode, Keyed(Data, files), f);
    }
    ScalarIs(Plain("data"), x.digestFP, y.digestFP, In(Data, k));
    ScalarIs(Plain("mode"), x.mode, y.mode, In(Data, k));
    MergedAt(data, mode, Keyed(Data, files), In(Data, k));
  }
}
