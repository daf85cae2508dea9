/** The references a bundle's templates make, and the check that tells before
    rendering whether they resolve. */
module Refs {
  import opened Actions
  import opened Deferral
  import opened DeferPrinting
  import opened Printing
  import opened Render
  import opened RenderLaws
  import opened Resources
  import opened Schema
  import opened Sorting
  import opened Syntax
  import opened Templates
  import opened Text
  import opened Wrappers

  // ---- What is referred to, and from where --------------------------------------

  datatype Step = Key(key: string) | Index(i: nat)

  datatype Place =
    | AppEnv(app: string, key: string)
    | StackEnv(stack: string, key: string)
    | RegistryPassword(registry: string)
    | MiddlewareRule(middleware: string, path: seq<Step>)
    | CronJobApp(cronJob: string)
    | JobApp(job: string)
    | ConfigFile(config: string, file: string)

  datatype Reference = Reference(place: Place, collection: Collection, name: string, field: string)

  function ReferenceOf(p: Place, r: Ref): Reference {
    Reference(p, r.collection, r.Name(), r.Field())
  }

  function AtPlace(p: Place, refs: seq<Ref>): seq<Reference> {
    seq(|refs|, i requires 0 <= i < |refs| => ReferenceOf(p, refs[i]))
  }

  /** refsIn with the usual delimiters. */
  function TextReferences(p: Place, s: string): seq<Reference> {
    AtPlace(p, RefsIn(s))
  }

  function SecretReferences(p: Place, names: seq<string>): seq<Reference> {
    seq(|names|, i requires 0 <= i < |names| => Reference(p, Secrets, names[i], ""))
  }

  /** envRefs: the runtime form counts too. */
  function EnvReferences(p: Place, s: string): seq<Reference> {
    TextReferences(p, s) + SecretReferences(p, RuntimeNames(s))
  }

  // ---- Custom delimiters -----------------------------------------------------------

  function FirstOf(s: string, p: string): (n: Option<nat>)
    ensures n.Some? ==> n.value + |p| <= |s|
  {
    if HasPrefix(s, p) then Some(0)
    else if s == "" then None
    else
      match FirstOf(s[1..], p)
      case Some(n) => Some(n + 1)
      case None => None
  }

  /** Everything from a left delimiter to the next right one. */
  function DelimitedIn(s: string, left: string, right: string): seq<string>
    decreases |s|
  {
    if s == "" then []
    else if !HasPrefix(s, left) then DelimitedIn(s[1..], left, right)
    else
      match FirstOf(s[|left|..], right)
      case None => DelimitedIn(s[1..], left, right)
      case Some(n) =>
        var e := |left| + n + |right|;
        if e == 0 then DelimitedIn(s[1..], left, right) else [s[..e]] + DelimitedIn(s[e..], left, right)
  }

  lemma {:induction false} FirstCloseIs(s: string)
    ensures FirstOf(s, "}}") == CloseAt(s)
  {
    if |s| >= 2 {
      FirstCloseIs(s[1..]);
      assert HasPrefix(s, "}}") <==> s[0] == '}' && s[1] == '}';
    } else if |s| == 1 {
      assert s[1..] == "";
    }
  }

  /** With the usual delimiters this is the usual scan. */
  lemma {:induction false} UsualDelimiters(s: string)
    ensures DelimitedIn(s, "{{", "}}") == ActionsIn(s)
    decreases |s|
  {
    if s != "" {
      assert HasPrefix(s, "{{") <==> Opens(s);
      if Opens(s) {
        FirstCloseIs(s[2..]);
      }
      UsualDelimiters(s[1..]);
      if ActionAt(s).Some? {
        UsualDelimiters(s[|ActionAt(s).value|..]);
      }
    }
  }

  function ConfigActions(c: ConfigSpec, s: string): seq<string> {
    if |c.delimiters| == 2 && (c.delimiters[0] != "{{" || c.delimiters[1] != "}}")
    then DelimitedIn(s, c.delimiters[0], c.delimiters[1])
    else ActionsIn(s)
  }

  // ---- The references of a bundle ---------------------------------------------------

  function EnvPlace(spec: Spec, name: string, key: string): Place {
    if spec.ApplicationOf? then AppEnv(name, key) else StackEnv(name, key)
  }

  /** The environment of an application or a stack. */
  function EnvOf(spec: Spec): map<string, string> {
    match spec
    case ApplicationOf(a) => a.env
    case StackOf(s) => s.env.GetOr(map[])
    case _ => map[]
  }

  ghost function EnvMapReferences(spec: Spec, name: string): set<Reference> {
    set k, x | k in EnvOf(spec) && x in EnvReferences(EnvPlace(spec, name, k), EnvOf(spec)[k]) :: x
  }

  ghost function FileReferences(name: string, c: ConfigSpec): set<Reference> {
    set k, x | k in c.data && x in AtPlace(ConfigFile(name, k), RefsOf(ConfigActions(c, c.data[k]))) :: x
  }

  /** ruleRefs: strings anywhere in a middleware rule. */
  ghost function RuleReferences(name: string, path: seq<Step>, v: RuleValue): set<Reference>
    decreases v
  {
    match v
    case RuleString(t) => Elements(TextReferences(MiddlewareRule(name, path), t))
    case RuleMap(entries) => set k, x | k in entries && x in RuleReferences(name, path + [Key(k)], entries[k]) :: x
    case RuleList(items) =>
      set i, x | 0 <= i < |items| && x in RuleReferences(name, path + [Index(i)], items[i]) :: x
    case RuleScalar(_) => {}
  }

  ghost function ResourceReferences(r: Resource): set<Reference> {
    var name := r.meta.name;
    match r.spec
    case ApplicationOf(_) => EnvMapReferences(r.spec, name)
    case StackOf(_) => EnvMapReferences(r.spec, name)
    case RegistryOf(g) => Elements(TextReferences(RegistryPassword(name), g.password))
    case MiddlewareOf(w) => RuleReferences(name, [], RuleMap(w.rule))
    case CronJobOf(c) => {Reference(CronJobApp(name), Applications, c.app, "")}
    case JobOf(j) => {Reference(JobApp(name), Applications, j.app, "")}
    case ConfigOf(c) => FileReferences(name, c)
    case _ => {}
  }

  ghost function AllReferences(view: map<Id, Resource>): set<Reference> {
    set id, x | id in view && x in ResourceReferences(view[id]) :: x
  }

  // ---- Collecting them --------------------------------------------------------------

  /** The references of the keys outside `todo`. */
  ghost function Gathered(keys: set<string>, todo: set<string>, refs: string -> seq<Reference>): set<Reference> {
    set k, x | k in keys && k !in todo && x in refs(k) :: x
  }

  lemma GatheredGrows(keys: set<string>, todo: set<string>, refs: string -> seq<Reference>, k: string)
    requires k in keys && k in todo
    ensures Gathered(keys, todo - {k}, refs) == Gathered(keys, todo, refs) + Elements(refs(k))
  {
    assert forall x | x in Gathered(keys, todo - {k}, refs) :: x in Gathered(keys, todo, refs) || x in refs(k);
  }

  /** One pass over the values of a map, in any order. */
  method GatherByKey(keys: set<string>, refs: string -> seq<Reference>) returns (out: seq<Reference>)
    ensures Elements(out) == Gathered(keys, {}, refs)
  {
    out := [];
    var todo := keys;
    assert Gathered(keys, todo, refs) == {};
    while todo != {}
      invariant todo <= keys && Elements(out) == Gathered(keys, todo, refs)
      decreases todo
    {
      var k :| k in todo;
      GatheredGrows(keys, todo, refs, k);
      ElementsOfConcat(out, refs(k));
      out := out + refs(k);
      todo := todo - {k};
    }
  }

  method EnvRefs(spec: Spec, name: string) returns (out: seq<Reference>)
    ensures Elements(out) == EnvMapReferences(spec, name)
  {
    hide EnvReferences;
    var env := EnvOf(spec);
    var refs := (k: string) => if k in env then EnvReferences(EnvPlace(spec, name, k), env[k]) else [];
    out := GatherByKey(env.Keys, refs);
    forall k | k in env
      ensures refs(k) == EnvReferences(EnvPlace(spec, name, k), env[k])
    {}
    forall x
      ensures x in Gathered(env.Keys, {}, refs) <==> x in EnvMapReferences(spec, name)
    {
      if x in EnvMapReferences(spec, name) {
        var k :| k in env && x in EnvReferences(EnvPlace(spec, name, k), env[k]);
        assert x in refs(k);
      }
    }
  }

  method FileRefs(name: string, c: ConfigSpec) returns (out: seq<Reference>)
    ensures Elements(out) == FileReferences(name, c)
  {
    hide AtPlace, RefsOf, ConfigActions;
    var refs := (k: string) =>
      if k in c.data then AtPlace(ConfigFile(name, k), RefsOf(ConfigActions(c, c.data[k]))) else [];
    out := GatherByKey(c.data.Keys, refs);
    forall x
      ensures x in Gathered(c.data.Keys, {}, refs) <==> x in FileReferences(name, c)
    {
      if x in FileReferences(name, c) {
        var k :| k in c.data && x in AtPlace(ConfigFile(name, k), RefsOf(ConfigActions(c, c.data[k])));
        assert x in refs(k);
      }
    }
  }

  ghost function EntriesOutside(name: string, path: seq<Step>, entries: map<string, RuleValue>,
                                todo: set<string>): set<Reference> {
    set k, x | k in entries && k !in todo && x in RuleReferences(name, path + [Key(k)], entries[k]) :: x
  }

  lemma EntriesGrow(name: string, path: seq<Step>, entries: map<string, RuleValue>, todo: set<string>, k: string)
    requires k in entries && k in todo
    ensures EntriesOutside(name, path, entries, todo - {k})
         == EntriesOutside(name, path, entries, todo) + RuleReferences(name, path + [Key(k)], entries[k])
  {
    hide RuleReferences;
    assert forall x | x in EntriesOutside(name, path, entries, todo - {k}) ::
      x in EntriesOutside(name, path, entries, todo) || x in RuleReferences(name, path + [Key(k)], entries[k]);
  }

  ghost function ItemsUpto(name: string, path: seq<Step>, items: seq<RuleValue>, n: nat): set<Reference>
    requires n <= |items|
  {
    set i, x | 0 <= i < n && x in RuleReferences(name, path + [Index(i)], items[i]) :: x
  }

  lemma ItemsGrow(name: string, path: seq<Step>, items: seq<RuleValue>, n: nat)
    requires n < |items|
    ensures ItemsUpto(name, path, items, n + 1)
         == ItemsUpto(name, path, items, n) + RuleReferences(name, path + [Index(n)], items[n])
  {
    hide RuleReferences;
  }

  method RuleRefs(name: string, path: seq<Step>, v: RuleValue) returns (out: seq<Reference>)
    ensures Elements(out) == RuleReferences(name, path, v)
    decreases v
  {
    hide EntriesOutside, ItemsUpto;
    out := [];
    match v {
      case RuleString(t) => out := TextReferences(MiddlewareRule(name, path), t);
      case RuleMap(entries) =>
        var todo := entries.Keys;
        EntriesBounds(name, path, v);
        while todo != {}
          invariant todo <= entries.Keys && Elements(out) == EntriesOutside(name, path, entries, todo)
          decreases todo
        {
          var k :| k in todo;
          EntriesGrow(name, path, entries, todo, k);
          var more := RuleRefs(name, path + [Key(k)], entries[k]);
          ElementsOfConcat(out, more);
          out := out + more;
          todo := todo - {k};
        }
      case RuleList(items) =>
        ItemsBounds(name, path, v);
        for i := 0 to |items|
          invariant Elements(out) == ItemsUpto(name, path, items, i)
        {
          ItemsGrow(name, path, items, i);
          var more := RuleRefs(name, path + [Index(i)], items[i]);
          ElementsOfConcat(out, more);
          out := out + more;
        }
      case RuleScalar(_) =>
    }
  }

  lemma EntriesBounds(name: string, path: seq<Step>, v: RuleValue)
    requires v.RuleMap?
    ensures EntriesOutside(name, path, v.entries, v.entries.Keys) == {}
    ensures EntriesOutside(name, path, v.entries, {}) == RuleReferences(name, path, v)
  {}

  lemma ItemsBounds(name: string, path: seq<Step>, v: RuleValue)
    requires v.RuleList?
    ensures ItemsUpto(name, path, v.items, 0) == {}
    ensures ItemsUpto(name, path, v.items, |v.items|) == RuleReferences(name, path, v)
  {}

  method RefsOfResource(r: Resource) returns (out: seq<Reference>)
    ensures Elements(out) == ResourceReferences(r)
  {
    hide EnvMapReferences, FileReferences, RuleReferences, TextReferences;
    var name := r.meta.name;
    match r.spec {
      case ApplicationOf(_) => out := EnvRefs(r.spec, name);
      case StackOf(_) => out := EnvRefs(r.spec, name);
      case RegistryOf(g) => out := TextReferences(RegistryPassword(name), g.password);
      case MiddlewareOf(w) => out := RuleRefs(name, [], RuleMap(w.rule));
      case CronJobOf(c) => out := [Reference(CronJobApp(name), Applications, c.app, "")];
      case JobOf(j) => out := [Reference(JobApp(name), Applications, j.app, "")];
      case ConfigOf(c) => out := FileRefs(name, c);
      case _ => out := [];
    }
  }

  lemma ReferencesGrow(seen: map<Id, Resource>, r: Resource)
    requires r.Id() !in seen
    ensures AllReferences(seen[r.Id() := r]) == AllReferences(seen) + ResourceReferences(r)
  {
    hide ResourceReferences;
    var after := seen[r.Id() := r];
    assert forall id | id in seen :: after[id] == seen[id];
    assert after[r.Id()] == r && r.Id() in after;
    forall x
      ensures x in AllReferences(after) <==> x in AllReferences(seen) || x in ResourceReferences(r)
    {
      if x in AllReferences(seen) {
        var id :| id in seen && x in ResourceReferences(seen[id]);
        assert id in after && x in ResourceReferences(after[id]);
      }
    }
  }

  lemma NoReferences()
    ensures AllReferences(ViewOf([])) == {}
  {}

  lemma ListReferencesGrow(list: seq<Resource>, i: nat)
    requires i < |list| && DistinctIds(list)
    ensures AllReferences(ViewOf(list[..i + 1])) == AllReferences(ViewOf(list[..i])) + ResourceReferences(list[i])
  {
    hide ResourceReferences, AllReferences;
    assert list[..i + 1][..i] == list[..i];
    ViewMembers(list[..i]);
    assert forall r | r in list[..i] :: r.Id() != list[i].Id();
    ReferencesGrow(ViewOf(list[..i]), list[i]);
  }

  /** Every reference the bundle makes, whatever order its maps are read in. */
  method References(bundle: ResourceSet) returns (out: seq<Reference>)
    requires bundle.Valid()
    ensures Elements(out) == AllReferences(bundle.View())
  {
    hide ResourceReferences, AllReferences, ViewOf;
    out := [];
    var list := bundle.list;
    bundle.ValidIsDistinct();
    NoReferences();
    assert list[..0] == [];
    for i := 0 to |list|
      invariant Elements(out) == AllReferences(ViewOf(list[..i]))
    {
      ListReferencesGrow(list, i);
      var more := RefsOfResource(list[i]);
      ElementsOfConcat(out, more);
      out := out + more;
    }
    assert list[..|list|] == list;
  }

  // ---- CheckReferences ---------------------------------------------------------------

  datatype KnownNames = KnownNames(
    databases: set<string>,
    secrets: set<string>,
    applications: set<string>,
    inputs: set<string>)
  {
    function In(c: Collection): set<string> {
      match c
      case Databases => databases
      case Secrets => secrets
      case Applications => applications
      case Inputs => inputs
    }
  }

  const DATABASE_REF_FIELDS := ["host", "port", "user", "password", "name", "uri", "url"]
  const APPLICATION_REF_FIELDS := ["host", "port", "scheme", "url", "alias"]
  const READONLY_FIELDS := ["readonly_user", "readonly_password", "readonly_uri", "readonly_url"]

  datatype Problem = UnknownTarget(ref: Reference) | UnknownRefField(ref: Reference)

  function CheckOne(known: KnownNames, r: Reference): Option<Problem> {
    if r.name !in known.In(r.collection) then Some(UnknownTarget(r))
    else if r.collection == Databases && r.field != "" && r.field !in DATABASE_REF_FIELDS then Some(UnknownRefField(r))
    else if r.collection == Applications && r.field != "" && r.field !in APPLICATION_REF_FIELDS then
      Some(UnknownRefField(r))
    else None
  }

  ghost function Problems(known: KnownNames, refs: set<Reference>): set<Problem> {
    set r | r in refs && CheckOne(known, r).Some? :: CheckOne(known, r).value
  }

  lemma ProblemsGrow(known: KnownNames, refs: set<Reference>, r: Reference)
    ensures Problems(known, refs + {r})
         == Problems(known, refs) + (if CheckOne(known, r).Some? then {CheckOne(known, r).value} else {})
  {
    hide CheckOne;
    forall p
      ensures p in Problems(known, refs + {r})
         <==> p in Problems(known, refs) || (CheckOne(known, r).Some? && p == CheckOne(known, r).value)
    {
      if p in Problems(known, refs) {
        var q :| q in refs && CheckOne(known, q).Some? && p == CheckOne(known, q).value;
        assert q in refs + {r};
      }
    }
  }

  lemma NoProblems(known: KnownNames, refs: seq<Reference>)
    ensures Problems(known, Elements(refs)) == {} <==> forall r | r in refs :: CheckOne(known, r).None?
  {
    hide CheckOne;
    forall r | r in refs && CheckOne(known, r).Some?
      ensures CheckOne(known, r).value in Problems(known, Elements(refs))
    {
      assert r in Elements(refs);
    }
  }

  /** Lists every problem once; the bundle passes when there is none. */
  method CheckReferences(refs: seq<Reference>, known: KnownNames) returns (problems: seq<Problem>)
    ensures NoDuplicates(problems) && Elements(problems) == Problems(known, Elements(refs))
    ensures problems == [] <==> forall r | r in refs :: CheckOne(known, r).None?
  {
    hide CheckOne;
    problems := [];
    var seen: set<Problem> := {};
    assert Elements(refs[..0]) == {};
    for i := 0 to |refs|
      invariant NoDuplicates(problems) && seen == Elements(problems) == Problems(known, Elements(refs[..i]))
    {
      assert Elements(refs[..i + 1]) == Elements(refs[..i]) + {refs[i]};
      ProblemsGrow(known, Elements(refs[..i]), refs[i]);
      var p := CheckOne(known, refs[i]);
      if p.Some? && p.value !in seen {
        Append(problems, p.value);
        seen := seen + {p.value};
        problems := problems + [p.value];
      }
    }
    assert refs[..|refs|] == refs;
    NoProblems(known, refs);
    assert problems != [] ==> problems[0] in Elements(problems);
  }

  // ---- The check against the renderer -----------------------------------------------

  function Known(ctx: RenderContext): KnownNames {
    KnownNames(ctx.databases.Keys, ctx.secrets.Keys, ctx.apps.Keys, ctx.inputs.Keys)
  }

  /** A read-only field of a database that has a read-only user: what the
      renderer resolves and the check does not list. */
  predicate ReadOnlyResolves(ctx: RenderContext, r: Ref) {
    && r.collection == Databases && r.Name() in ctx.databases
    && r.Field() in READONLY_FIELDS
    && ctx.databases[r.Name()].Field(r.Field()).GetOr("") != ""
  }

  lemma DatabaseFieldsAre(c: ConnView, f: string)
    ensures c.Field(f).Some? <==> f in DATABASE_REF_FIELDS || f in READONLY_FIELDS
    ensures f in DATABASE_REF_FIELDS ==> !HasPrefix(f, "readonly_")
    ensures f in READONLY_FIELDS ==> HasPrefix(f, "readonly_")
  {
    assert "readonly_user"[..9] == "readonly_" && "readonly_password"[..9] == "readonly_";
    assert "readonly_uri"[..9] == "readonly_" && "readonly_url"[..9] == "readonly_";
  }

  lemma AppFieldsAre(a: AppView, f: string)
    ensures a.Field(f).Some? <==> f in APPLICATION_REF_FIELDS
  {}

  /** The renderer resolves a reference exactly when the check passes it or it
      names a read-only field the database has, which the check flags. */
  lemma ResolvesIff(ctx: RenderContext, p: Place, r: Ref)
    requires IsRef(r)
    ensures Lookup(ctx, r).Success? <==> CheckOne(Known(ctx), ReferenceOf(p, r)).None? || ReadOnlyResolves(ctx, r)
    ensures ReadOnlyResolves(ctx, r) ==>
      CheckOne(Known(ctx), ReferenceOf(p, r)) == Some(UnknownRefField(ReferenceOf(p, r)))
  {
    hide CheckOne, ReadOnlyResolves, Lookup;
    if ReadOnlyResolves(ctx, r) {
      ReadOnlyIsFlagged(ctx, p, r);
    }
    ResolvesWhen(ctx, p, r);
  }

  lemma ReadOnlyIsFlagged(ctx: RenderContext, p: Place, r: Ref)
    requires ReadOnlyResolves(ctx, r)
    ensures CheckOne(Known(ctx), ReferenceOf(p, r)) == Some(UnknownRefField(ReferenceOf(p, r)))
  {
    assert r.Field()[0] == 'r';
    assert forall f | f in DATABASE_REF_FIELDS :: f != "" && f[0] != 'r';
  }

  lemma ResolvesWhen(ctx: RenderContext, p: Place, r: Ref)
    requires IsRef(r)
    ensures Lookup(ctx, r).Success? <==> CheckOne(Known(ctx), ReferenceOf(p, r)).None? || ReadOnlyResolves(ctx, r)
  {
    hide HasPrefix;
    match r.collection {
      case Databases =>
        if r.Name() in ctx.databases {
          DatabaseFieldsAre(ctx.databases[r.Name()], OrDefault(r.Field(), "uri"));
          assert r.Field() == "" ==> r.Field() !in READONLY_FIELDS;
        }
      case Applications =>
        if r.Name() in ctx.apps {
          AppFieldsAre(ctx.apps[r.Name()], OrDefault(r.Field(), "url"));
        }
      case _ =>
    }
  }

  // ---- A checked template never gets stuck on a reference -----------------------------

  predicate AllResolve(ctx: RenderContext, refs: seq<Ref>) {
    forall r | r in refs :: Lookup(ctx, r).Success?
  }

  predicate Stuck<T>(r: Result<T, RenderError>) {
    r.Failure? && !r.error.HelperFailed?
  }

  lemma {:induction false} CallsNeverStick(ctx: RenderContext, h: Helpers, e: Expr)
    requires Source(e) && AllResolve(ctx, DotRefs(e))
    ensures Expanded(ExpandExpr(e)) && !Stuck(Eval(ctx, h, ExpandExpr(e)).result)
    decreases e
  {
    hide Lookup;
    match e {
      case Dot(r) => assert r in DotRefs(e);
      case Quoted(_) =>
      case Apply(_, args) => ArgsNeverStick(ctx, h, args);
      case Pipe(from, _, args) =>
        assert forall r | r in DotRefs(from) :: r in DotRefs(e);
        assert forall r | r in ArgsDotRefs(args) :: r in DotRefs(e);
        CallsNeverStick(ctx, h, from);
        ArgsNeverStick(ctx, h, args);
    }
  }

  lemma {:induction false} ArgsNeverStick(ctx: RenderContext, h: Helpers, args: Args)
    requires ArgsSource(args) && AllResolve(ctx, ArgsDotRefs(args))
    ensures ArgsExpanded(ExpandArgs(args)) && !Stuck(EvalArgs(ctx, h, ExpandArgs(args)).result)
    decreases args
  {
    hide Lookup;
    match args {
      case NoArgs =>
      case Arg(e, rest) =>
        assert forall r | r in DotRefs(e) :: r in ArgsDotRefs(args);
        assert forall r | r in ArgsDotRefs(rest) :: r in ArgsDotRefs(args);
        CallsNeverStick(ctx, h, e);
        ArgsNeverStick(ctx, h, rest);
    }
  }

  lemma DeferredNeverSticks(ctx: RenderContext, h: Helpers, e: Expr)
    requires Source(e) && AllResolve(ctx, DotRefs(e))
    ensures Expanded(ExpandExpr(DeferExpr(e))) && !Stuck(Eval(ctx, h, ExpandExpr(DeferExpr(e))).result)
  {
    hide Eval;
    ExpandsAll(DeferExpr(e));
    CallsNeverStick(ctx, h, e);
    if DeferExpr(e) != e {
      assert e.ref in DotRefs(e);
      PureNeverSticks(ctx, h, e);
    }
  }

  lemma PureNeverSticks(ctx: RenderContext, h: Helpers, e: Expr)
    requires e.Dot? && DeferExpr(e) != e && Lookup(ctx, e.ref).Success?
    ensures Expanded(DeferExpr(e)) && ExpandExpr(DeferExpr(e)) == DeferExpr(e)
    ensures !Stuck(Eval(ctx, h, DeferExpr(e)).result)
  {
    hide SecretName;
    if e.ref.collection == Databases {
      var f := e.ref.Field();
      assert DatabaseRef(e.ref.Name(), f) == e.ref;
    }
  }

  lemma {:induction false} ExecuteNeverSticks(ctx: RenderContext, h: Helpers, t: Template, trim: bool)
    requires SourceTemplate(t) && AllResolve(ctx, AllDotRefs(t))
    requires forall n | n in PointerNames(t) :: n in ctx.secrets
    ensures AllExpanded(Expand(Defer(t))) && Pointerless(Expand(Defer(t)))
    ensures !Stuck(Execute(ctx, h, Expand(Defer(t)), trim).result)
    decreases |t|
  {
    hide Lookup, Eval, Source, Expanded, ExpandExpr, DeferExpr;
    var d := Defer(t);
    DeferKeepsPointerless(t);
    ExpandExpandsAll(d);
    ExpandKeepsPointerless(d);
    if t != [] {
      assert SourceTemplate(t[1..]) by { assert forall i | 0 <= i < |t[1..]| :: t[1..][i] == t[i + 1]; }
      assert Defer(t)[1..] == Defer(t[1..]) && Expand(d)[1..] == Expand(d[1..]);
      assert Expand(d)[0] == ExpandPart(DeferPart(t[0]));
      assert forall r | r in AllDotRefs(t[1..]) :: r in AllDotRefs(t);
      assert forall n | n in PointerNames(t[1..]) :: n in PointerNames(t);
      ExecuteNeverSticks(ctx, h, t[1..], false);
      ExecuteNeverSticks(ctx, h, t[1..], TrimsRight(Expand(d)[0]));
      match t[0] {
        case Literal(_) =>
        case Action(_, e, _) =>
          assert forall r | r in DotRefs(e) :: r in AllDotRefs(t);
          DeferredNeverSticks(ctx, h, e);
        case Pointer(_, n, _) =>
          assert n in PointerNames(t);
          PointerNeverSticks(ctx, h, n);
      }
    }
  }

  lemma PointerNeverSticks(ctx: RenderContext, h: Helpers, n: string)
    requires n in ctx.secrets
    ensures ExpandExpr(DeferExpr(SecretPointer(n))) == SecretPointer(n)
      && ExpandExpr(SecretPointer(n)) == SecretPointer(n)
    ensures !Stuck(Eval(ctx, h, SecretPointer(n)).result)
  {}

  lemma {:induction false} DotRefsAreRefs(e: Expr)
    requires WellFormed(e)
    ensures forall r | r in DotRefs(e) :: IsRef(r)
  {
    match e {
      case Apply(_, args) => ArgsDotRefsAreRefs(args);
      case Pipe(from, _, args) => DotRefsAreRefs(from); ArgsDotRefsAreRefs(args);
      case _ =>
    }
  }

  lemma {:induction false} ArgsDotRefsAreRefs(args: Args)
    requires ArgsWellFormed(args)
    ensures forall r | r in ArgsDotRefs(args) :: IsRef(r)
  {
    match args {
      case NoArgs =>
      case Arg(e, rest) => DotRefsAreRefs(e); ArgsDotRefsAreRefs(rest);
    }
  }

  lemma {:induction false} AllDotRefsAreRefs(t: Template)
    requires TemplateWellFormed(t)
    ensures forall r | r in AllDotRefs(t) :: IsRef(r)
  {
    hide WellFormed, DotRefs, ShowExpr, LeftEdge, RightEdge;
    if t != [] {
      AllDotRefsAreRefs(t[1..]);
      if t[0].Action? {
        DotRefsAreRefs(t[0].body);
      }
    }
  }

  /** When every reference found in the text of a value passes the check, the
      value renders, unless a helper refuses its arguments. */
  lemma CheckedTextRenders(ctx: RenderContext, h: Helpers, p: Place, t: Template)
    requires TemplateWellFormed(t) && SourceTemplate(t)
    requires forall x | x in EnvReferences(p, Show(t)) :: CheckOne(Known(ctx), x).None?
    ensures !Stuck(RenderValue(ctx, h, t).result)
  {
    hide Execute, SourceTemplate, TemplateWellFormed, Lookup, CheckOne, RefsIn, Show;
    RefsPrint(t);
    PointersPrint(t);
    AllDotRefsAreRefs(t);
    var refs, names := AllDotRefs(t), PointerNames(t);
    var found := TextReferences(p, Show(t));
    var pointed := SecretReferences(p, RuntimeNames(Show(t)));
    forall r | r in refs
      ensures Lookup(ctx, r).Success?
    {
      var i :| 0 <= i < |refs| && refs[i] == r;
      assert found[i] == ReferenceOf(p, r) && found[i] in found + pointed;
      ResolvesIff(ctx, p, r);
    }
    forall n | n in names
      ensures n in ctx.secrets
    {
      var i :| 0 <= i < |names| && names[i] == n;
      assert pointed[i] == Reference(p, Secrets, n, "") && pointed[i] in found + pointed;
      SecretPasses(ctx, pointed[i]);
    }
    ExecuteNeverSticks(ctx, h, t, false);
    DeferKeepsPointerless(t);
  }

  lemma SecretPasses(ctx: RenderContext, x: Reference)
    requires x.collection == Secrets && CheckOne(Known(ctx), x).None?
    ensures x.name in ctx.secrets
  {}

  /** Progress: in a bundle whose references all pass, no environment value of
      an application or a stack fails to render on a reference. */
  lemma CheckedBundleRenders(ctx: RenderContext, h: Helpers, view: map<Id, Resource>, id: Id, k: string, t: Template)
    requires forall x | x in AllReferences(view) :: CheckOne(Known(ctx), x).None?
    requires id in view
    requires k in EnvOf(view[id].spec) && EnvOf(view[id].spec)[k] == Show(t)
    requires TemplateWellFormed(t) && SourceTemplate(t)
    ensures !Stuck(RenderValue(ctx, h, t).result)
  {
    hide RenderValue, SourceTemplate, TemplateWellFormed, CheckOne, EnvReferences, Show;
    var r := view[id];
    var p := EnvPlace(r.spec, r.meta.name, k);
    forall x | x in EnvReferences(p, Show(t))
      ensures CheckOne(Known(ctx), x).None?
    {
      assert x in EnvMapReferences(r.spec, r.meta.name);
      assert x in ResourceReferences(r);
      assert x in AllReferences(view);
    }
    CheckedTextRenders(ctx, h, p, t);
  }
}
