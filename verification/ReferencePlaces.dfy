/** The references of a bundle, place by place: what each kind of resource makes of
    the templates it holds, and of nothing else. */
module ReferencePlaces {
  import opened Actions
  import opened Deferral
  import opened DeferPrinting
  import opened EdgeLaws
  import opened Printing
  import opened Refs
  import opened Schema
  import opened Syntax
  import opened Templates
  import opened Text
  import opened Wrappers

  // ---- One text --------------------------------------------------------------------

  /** The template holds `.collection.name`, or `.collection.name.field` and perhaps
      more after that. */
  ghost predicate Says(t: Template, c: Collection, name: string, field: string) {
    exists r | r in AllDotRefs(t) ::
      && r.collection == c && |r.keys| > 0 && r.keys[0] == name
      && (if |r.keys| == 1 then field == "" else field == r.keys[1])
  }

  lemma {:induction false} PlacedAre(p: Place, refs: seq<Ref>, x: Reference)
    ensures x in AtPlace(p, refs) <==> exists r | r in refs :: x == ReferenceOf(p, r)
  {
    var placed := AtPlace(p, refs);
    if x in placed {
      var i :| 0 <= i < |placed| && placed[i] == x;
      assert refs[i] in refs;
    }
    forall r | r in refs && x == ReferenceOf(p, r)
      ensures x in placed
    {
      var i :| 0 <= i < |refs| && refs[i] == r;
      assert placed[i] == x;
    }
  }

  /** A text refers to what its template says. */
  lemma TextSays(p: Place, t: Template, x: Reference)
    requires TemplateWellFormed(t)
    ensures x in TextReferences(p, Show(t)) <==> x.place == p && Says(t, x.collection, x.name, x.field)
  {
    hide TemplateWellFormed, Show, RefsIn, AtPlace, IsRef;
    RefsPrint(t);
    AllDotRefsAreRefs(t);
    PlacedAre(p, AllDotRefs(t), x);
    forall r | r in AllDotRefs(t)
      ensures r.keys != []
    {
      RefsHaveKeys(r);
    }
  }

  lemma RefsHaveKeys(r: Ref)
    requires IsRef(r)
    ensures r.keys != []
  {}

  /** An environment value refers to what its template says, and to the secrets its
      runtime pointers name. */
  lemma EnvSays(p: Place, t: Template, x: Reference)
    requires TemplateWellFormed(t)
    ensures x in EnvReferences(p, Show(t)) <==>
      x.place == p && (Says(t, x.collection, x.name, x.field) || Points(t, x))
  {
    hide TemplateWellFormed, Show, TextReferences, Says, RuntimeNames;
    TextSays(p, t, x);
    PointersPrint(t);
    var names := PointerNames(t);
    var placed := SecretReferences(p, names);
    PointersAre(t, x.name);
    if x in placed {
      var i :| 0 <= i < |placed| && placed[i] == x;
      assert names[i] in names;
    }
    if x.name in names && x == Reference(p, Secrets, x.name, "") {
      var i :| 0 <= i < |names| && names[i] == x.name;
      assert placed[i] == x;
    }
  }

  /** `${{ secrets.NAME }}` stands somewhere in the template. */
  ghost predicate Points(t: Template, x: Reference) {
    x.collection == Secrets && x.field == "" && exists l, r :: Pointer(l, x.name, r) in t
  }

  lemma {:induction false} PointersAre(t: Template, n: string)
    ensures n in PointerNames(t) <==> exists l, r :: Pointer(l, n, r) in t
  {
    if t != [] {
      PointersAre(t[1..], n);
      assert t == [t[0]] + t[1..];
      if t[0].Pointer? && t[0].name == n {
        assert Pointer(t[0].left, n, t[0].right) in t;
      }
    }
  }

  // ---- One resource ------------------------------------------------------------------

  /** The resource a place belongs to. */
  function OwnerOf(p: Place): Id {
    match p
    case AppEnv(a, _) => ResourceId(KindApplication, a)
    case StackEnv(s, _) => ResourceId(KindStack, s)
    case RegistryPassword(g) => ResourceId(KindRegistry, g)
    case MiddlewareRule(w, _) => ResourceId(KindMiddleware, w)
    case CronJobApp(c) => ResourceId(KindCronJob, c)
    case JobApp(j) => ResourceId(KindJob, j)
    case ConfigFile(c, _) => ResourceId(KindConfig, c)
  }

  lemma {:induction false} RulePlaces(name: string, path: seq<Step>, v: RuleValue, x: Reference)
    requires x in RuleReferences(name, path, v)
    ensures x.place.MiddlewareRule? && x.place.middleware == name
    decreases v
  {
    match v {
      case RuleString(t) => PlacedAre(MiddlewareRule(name, path), RefsIn(t), x);
      case RuleMap(entries) =>
        var k :| k in entries && x in RuleReferences(name, path + [Key(k)], entries[k]);
        RulePlaces(name, path + [Key(k)], entries[k], x);
      case RuleList(items) =>
        var i :| 0 <= i < |items| && x in RuleReferences(name, path + [Index(i)], items[i]);
        RulePlaces(name, path + [Index(i)], items[i], x);
      case RuleScalar(_) =>
    }
  }

  lemma EnvPlacesOf(p: Place, s: string, x: Reference)
    requires x in EnvReferences(p, s)
    ensures x.place == p
  {
    PlacedAre(p, RefsIn(s), x);
  }

  lemma OwnPlaces(r: Resource, x: Reference)
    requires WellTyped(r) && x in ResourceReferences(r)
    ensures OwnerOf(x.place) == r.Id()
  {
    hide EnvReferences, RuleReferences, RefsIn, AtPlace, ConfigActions, RefsOf;
    match r.spec {
      case ApplicationOf(a) =>
        var k :| k in a.env && x in EnvReferences(AppEnv(r.meta.name, k), a.env[k]);
        EnvPlacesOf(AppEnv(r.meta.name, k), a.env[k], x);
      case StackOf(s) =>
        var env := EnvOf(r.spec);
        var k :| k in env && x in EnvReferences(StackEnv(r.meta.name, k), env[k]);
        EnvPlacesOf(StackEnv(r.meta.name, k), env[k], x);
      case RegistryOf(g) => PlacedAre(RegistryPassword(r.meta.name), RefsIn(g.password), x);
      case MiddlewareOf(w) => RulePlaces(r.meta.name, [], RuleMap(w.rule), x);
      case ConfigOf(c) =>
        var k :| k in c.data && x in AtPlace(ConfigFile(r.meta.name, k), RefsOf(ConfigActions(c, c.data[k])));
        PlacedAre(ConfigFile(r.meta.name, k), RefsOf(ConfigActions(c, c.data[k])), x);
      case _ =>
    }
  }

  /** A bundle makes a reference exactly when the resource its place belongs to does. */
  lemma OwnerDecides(view: map<Id, Resource>, x: Reference)
    requires Bundle(view)
    ensures x in AllReferences(view) <==> OwnerOf(x.place) in view && x in ResourceReferences(view[OwnerOf(x.place)])
  {
    hide ResourceReferences, WellTyped, OwnerOf;
    if x in AllReferences(view) {
      var id :| id in view && x in ResourceReferences(view[id]);
      OwnPlaces(view[id], x);
    }
  }

  // ---- Environments, passwords and job applications ------------------------------------

  /** The environment of a declared application. */
  lemma ApplicationReferences(view: map<Id, Resource>, n: string, k: string, t: Template, x: Reference)
    requires Bundle(view) && TemplateWellFormed(t) && x.place == AppEnv(n, k)
    ensures x in AllReferences(view) ==> ResourceId(KindApplication, n) in view
    ensures ResourceId(KindApplication, n) in view && view[ResourceId(KindApplication, n)].spec.ApplicationOf? ==>
      var env := view[ResourceId(KindApplication, n)].spec.application.env;
      && (x in AllReferences(view) ==> k in env)
      && (k in env && env[k] == Show(t) ==>
           (x in AllReferences(view) <==> Says(t, x.collection, x.name, x.field) || Points(t, x)))
  {
    hide TemplateWellFormed, Show, EnvReferences, AllReferences, Says, Points, WellTyped;
    OwnerDecides(view, x);
    EnvSays(AppEnv(n, k), t, x);
    var id := ResourceId(KindApplication, n);
    if id in view && view[id].spec.ApplicationOf? {
      assert view[id].meta.name == n;
      EnvOwner(view[id], n, k, x);
    }
  }

  /** Which variable an environment reference comes from. */
  lemma EnvOwner(r: Resource, n: string, k: string, x: Reference)
    requires r.meta.name == n
    ensures r.spec.ApplicationOf? && x.place == AppEnv(n, k) ==>
      (x in ResourceReferences(r) <==> k in EnvOf(r.spec) && x in EnvReferences(AppEnv(n, k), EnvOf(r.spec)[k]))
    ensures r.spec.StackOf? && x.place == StackEnv(n, k) ==>
      (x in ResourceReferences(r) <==> k in EnvOf(r.spec) && x in EnvReferences(StackEnv(n, k), EnvOf(r.spec)[k]))
  {
    hide EnvReferences, EnvOf;
    if (r.spec.ApplicationOf? || r.spec.StackOf?) && x in ResourceReferences(r) {
      var j :| j in EnvOf(r.spec) && x in EnvReferences(EnvPlace(r.spec, n, j), EnvOf(r.spec)[j]);
      EnvPlacesOf(EnvPlace(r.spec, n, j), EnvOf(r.spec)[j], x);
    }
    if k in EnvOf(r.spec) && x in EnvReferences(EnvPlace(r.spec, n, k), EnvOf(r.spec)[k]) {
      assert x in EnvMapReferences(r.spec, n);
    }
  }

  /** The environment of a declared stack. */
  lemma StackReferences(view: map<Id, Resource>, n: string, k: string, t: Template, x: Reference)
    requires Bundle(view) && TemplateWellFormed(t) && x.place == StackEnv(n, k)
    ensures x in AllReferences(view) ==> ResourceId(KindStack, n) in view
    ensures ResourceId(KindStack, n) in view && view[ResourceId(KindStack, n)].spec.StackOf? ==>
      var env := view[ResourceId(KindStack, n)].spec.stack.env.GetOr(map[]);
      && (x in AllReferences(view) ==> k in env)
      && (k in env && env[k] == Show(t) ==>
           (x in AllReferences(view) <==> Says(t, x.collection, x.name, x.field) || Points(t, x)))
  {
    hide TemplateWellFormed, Show, EnvReferences, AllReferences, Says, Points, WellTyped;
    OwnerDecides(view, x);
    EnvSays(StackEnv(n, k), t, x);
    var id := ResourceId(KindStack, n);
    if id in view && view[id].spec.StackOf? {
      assert view[id].meta.name == n;
      EnvOwner(view[id], n, k, x);
    }
  }

  /** A registry's password. A runtime pointer does not count here. */
  lemma RegistryReferences(view: map<Id, Resource>, n: string, t: Template, x: Reference)
    requires Bundle(view) && TemplateWellFormed(t) && x.place == RegistryPassword(n)
    requires ResourceId(KindRegistry, n) in view
    requires view[ResourceId(KindRegistry, n)].spec.RegistryOf?
      && view[ResourceId(KindRegistry, n)].spec.registry.password == Show(t)
    ensures x in AllReferences(view) <==> Says(t, x.collection, x.name, x.field)
  {
    hide TemplateWellFormed, Show, TextReferences, AllReferences, Says, WellTyped;
    OwnerDecides(view, x);
    TextSays(RegistryPassword(n), t, x);
    assert view[ResourceId(KindRegistry, n)].meta.name == n;
  }

  /** The application a cron job or a job runs in is always a reference. */
  lemma JobReferences(view: map<Id, Resource>, n: string, x: Reference)
    requires Bundle(view)
    ensures ResourceId(KindCronJob, n) in view && view[ResourceId(KindCronJob, n)].spec.CronJobOf? ==>
      (x.place == CronJobApp(n) ==> (x in AllReferences(view) <==>
        x.collection == Applications && x.field == "" && x.name == view[ResourceId(KindCronJob, n)].spec.cronJob.app))
    ensures ResourceId(KindJob, n) in view && view[ResourceId(KindJob, n)].spec.JobOf? ==>
      (x.place == JobApp(n) ==> (x in AllReferences(view) <==>
        x.collection == Applications && x.field == "" && x.name == view[ResourceId(KindJob, n)].spec.job.app))
  {
    hide AllReferences, WellTyped;
    OwnerDecides(view, x);
  }

  // ---- Middleware rules ------------------------------------------------------------------

  /** What a rule holds at the end of a path. */
  function RuleAt(v: RuleValue, path: seq<Step>): Option<RuleValue> {
    if path == [] then Some(v)
    else
      match path[0]
      case Key(k) => if v.RuleMap? && k in v.entries then RuleAt(v.entries[k], path[1..]) else None
      case Index(i) => if v.RuleList? && i < |v.items| then RuleAt(v.items[i], path[1..]) else None
  }

  /** The string a rule holds at the end of a path refers to `x`. */
  ghost predicate RuleSays(name: string, base: seq<Step>, path: seq<Step>, v: RuleValue, x: Reference) {
    && RuleAt(v, path).Some? && RuleAt(v, path).value.RuleString?
    && x in TextReferences(MiddlewareRule(name, base + path), RuleAt(v, path).value.text)
  }

  lemma StepDown(name: string, base: seq<Step>, s: Step, path: seq<Step>, v: RuleValue, x: Reference)
    requires RuleAt(v, [s]).Some? && RuleSays(name, base + [s], path, RuleAt(v, [s]).value, x)
    ensures RuleSays(name, base, [s] + path, v, x)
  {
    hide TextReferences;
    assert base + [s] + path == base + ([s] + path);
    assert ([s] + path)[0] == s && ([s] + path)[1..] == path && [s][1..] == [];
  }

  lemma {:induction false} RuleIsRead(name: string, base: seq<Step>, v: RuleValue, x: Reference)
    returns (path: seq<Step>)
    requires x in RuleReferences(name, base, v)
    ensures RuleSays(name, base, path, v, x)
    decreases v
  {
    hide TextReferences, RuleSays;
    path := [];
    match v {
      case RuleString(_) => WholeRule(name, base, v, x);
      case RuleMap(entries) =>
        var k :| k in entries && x in RuleReferences(name, base + [Key(k)], entries[k]);
        var rest := RuleIsRead(name, base + [Key(k)], entries[k], x);
        OneStep(v, Key(k));
        StepDown(name, base, Key(k), rest, v, x);
        path := [Key(k)] + rest;
      case RuleList(items) =>
        var i :| 0 <= i < |items| && x in RuleReferences(name, base + [Index(i)], items[i]);
        var rest := RuleIsRead(name, base + [Index(i)], items[i], x);
        OneStep(v, Index(i));
        StepDown(name, base, Index(i), rest, v, x);
        path := [Index(i)] + rest;
      case RuleScalar(_) =>
    }
  }

  lemma OneStep(v: RuleValue, s: Step)
    ensures s.Key? && v.RuleMap? && s.key in v.entries ==> RuleAt(v, [s]) == Some(v.entries[s.key])
    ensures s.Index? && v.RuleList? && s.i < |v.items| ==> RuleAt(v, [s]) == Some(v.items[s.i])
  {
    assert [s][1..] == [];
  }

  lemma WholeRule(name: string, base: seq<Step>, v: RuleValue, x: Reference)
    requires v.RuleString?
    ensures x in RuleReferences(name, base, v) <==> RuleSays(name, base, [], v, x)
  {
    hide TextReferences;
    assert base + [] == base;
    var refs := TextReferences(MiddlewareRule(name, base), v.text);
    assert RuleReferences(name, base, v) == Sorting.Elements(refs);
  }

  lemma {:induction false} RuleIsHeard(name: string, base: seq<Step>, path: seq<Step>, v: RuleValue, x: Reference)
    requires RuleSays(name, base, path, v, x)
    ensures x in RuleReferences(name, base, v)
    decreases |path|
  {
    hide TextReferences;
    if path == [] {
      WholeRule(name, base, v, x);
    } else {
      assert base + path == base + [path[0]] + path[1..];
      match path[0] {
        case Key(k) => RuleIsHeard(name, base + [Key(k)], path[1..], v.entries[k], x);
        case Index(i) => RuleIsHeard(name, base + [Index(i)], path[1..], v.items[i], x);
      }
    }
  }

  /** Every string of a middleware rule counts, however deep it lies. */
  lemma MiddlewareReferences(view: map<Id, Resource>, n: string, path: seq<Step>, t: Template, x: Reference)
    requires Bundle(view) && TemplateWellFormed(t) && x.place == MiddlewareRule(n, path)
    requires ResourceId(KindMiddleware, n) in view && view[ResourceId(KindMiddleware, n)].spec.MiddlewareOf?
    ensures var at := RuleAt(RuleMap(view[ResourceId(KindMiddleware, n)].spec.middleware.rule), path);
      && (x in AllReferences(view) ==> at.Some? && at.value.RuleString?)
      && (at == Some(RuleString(Show(t))) ==> (x in AllReferences(view) <==> Says(t, x.collection, x.name, x.field)))
  {
    hide TemplateWellFormed, Show, TextReferences, AllReferences, Says, WellTyped, RuleReferences, RuleAt;
    OwnerDecides(view, x);
    TextSays(MiddlewareRule(n, path), t, x);
    var r := view[ResourceId(KindMiddleware, n)];
    var v := RuleMap(r.spec.middleware.rule);
    assert r.meta.name == n && [] + path == path;
    if x in RuleReferences(n, [], v) {
      var p := RuleIsRead(n, [], v, x);
      assert [] + p == p;
      TextPlace(MiddlewareRule(n, p), RuleAt(v, p).value.text, x);
    }
    if RuleSays(n, [], path, v, x) {
      RuleIsHeard(n, [], path, v, x);
    }
  }

  lemma TextPlace(p: Place, s: string, x: Reference)
    requires x in TextReferences(p, s)
    ensures x.place == p
  {
    PlacedAre(p, RefsIn(s), x);
  }

  // ---- Config files ------------------------------------------------------------------------

  /** A delimiter that cannot be taken for part of a reference or the space beside it. */
  predicate Frame(d: string) {
    d != "" && forall c | c in d :: !RefChar(c) && c != ' '
  }

  /** Which file a config's reference comes from, and through which delimiters. */
  lemma FileOwner(r: Resource, n: string, k: string, x: Reference)
    requires r.meta.name == n && r.spec.ConfigOf? && x.place == ConfigFile(n, k)
    ensures var c := r.spec.config;
      x in ResourceReferences(r) <==>
        k in c.data && x in AtPlace(ConfigFile(n, k), RefsOf(ConfigActions(c, c.data[k])))
  {
    hide AtPlace, RefsOf, ConfigActions;
    var c := r.spec.config;
    if x in ResourceReferences(r) {
      var j :| j in c.data && x in AtPlace(ConfigFile(n, j), RefsOf(ConfigActions(c, c.data[j])));
      PlacedAre(ConfigFile(n, j), RefsOf(ConfigActions(c, c.data[j])), x);
    }
  }

  /** A file with the usual delimiters. */
  lemma ConfigReferences(view: map<Id, Resource>, n: string, k: string, t: Template, x: Reference)
    requires Bundle(view) && TemplateWellFormed(t) && x.place == ConfigFile(n, k)
    requires ResourceId(KindConfig, n) in view && view[ResourceId(KindConfig, n)].spec.ConfigOf?
    ensures var c := view[ResourceId(KindConfig, n)].spec.config;
      && (x in AllReferences(view) ==> k in c.data)
      && (k in c.data && c.data[k] == Show(t) && c.delimiters in [[], ["{{", "}}"]] ==>
           (x in AllReferences(view) <==> Says(t, x.collection, x.name, x.field)))
  {
    hide TemplateWellFormed, Show, AllReferences, Says, WellTyped, AtPlace, RefsOf, ActionsIn;
    OwnerDecides(view, x);
    TextSays(ConfigFile(n, k), t, x);
    var r := view[ResourceId(KindConfig, n)];
    assert r.meta.name == n;
    FileOwner(r, n, k, x);
  }

  lemma {:induction false} FirstOfSkips(a: string, p: string, b: string)
    requires p != "" && p[0] !in a
    ensures FirstOf(a + p + b, p) == Some(|a|)
  {
    var s := a + p + b;
    if a == "" {
      assert s == p + b;
    } else {
      assert s[0] == a[0] && s[1..] == a[1..] + p + b;
      assert |p| <= |s| ==> s[..|p|][0] == a[0];
      FirstOfSkips(a[1..], p, b);
    }
  }

  lemma {:induction false} DelimitedSkips(a: string, s: string, left: string, right: string)
    requires left != "" && left[0] !in a
    ensures DelimitedIn(a + s, left, right) == DelimitedIn(s, left, right)
  {
    if a == "" {
      assert a + s == s;
    } else {
      assert (a + s)[0] == a[0] && (a + s)[1..] == a[1..] + s;
      assert |left| <= |a + s| ==> (a + s)[..|left|][0] == a[0];
      DelimitedSkips(a[1..], s, left, right);
    }
  }

  lemma DelimitedReads(left: string, body: string, right: string, after: string)
    requires left != "" && right != "" && right[0] !in body
    ensures DelimitedIn(left + body + right + after, left, right) == [left + body + right]
      + DelimitedIn(after, left, right)
  {
    hide FirstOf;
    var s := left + body + right + after;
    FirstOfSkips(body, right, after);
    FrameParts(left, body, right, after);
    DelimitedStep(s, left, right, |body|);
  }

  lemma FrameParts(left: string, body: string, right: string, after: string)
    ensures var s := left + body + right + after;
      && HasPrefix(s, left) && s[|left|..] == body + right + after
      && s[..|left| + |body| + |right|] == left + body + right && s[|left| + |body| + |right|..] == after
  {}

  lemma {:induction false} DelimitedStep(s: string, left: string, right: string, n: nat)
    requires left != "" && HasPrefix(s, left) && FirstOf(s[|left|..], right) == Some(n)
    ensures var e := |left| + n + |right|;
      0 < e <= |s| && DelimitedIn(s, left, right) == [s[..e]] + DelimitedIn(s[e..], left, right)
  {
    hide FirstOf, HasPrefix;
    PrefixFits(s, left);
  }

  /** A reference alone between two delimiters. */
  lemma FramedRef(left: string, r: Ref, right: string)
    requires Frame(left) && Frame(right) && IsRef(r)
    ensures Templates.Refs(left + (" " + Written(r) + " ") + right) == [r]
  {
    hide Templates.Refs, Written, IsRef;
    assert left + (" " + Written(r) + " ") + right == left + [' '] + (Written(r) + [' '] + right);
    assert !RefChar(' ');
    RewriteSplits(left, ' ', Written(r) + [' '] + right);
    RewriteSplits(Written(r), ' ', right);
    DotlessIsRefFree(left);
    RefFreeIsKept(left);
    DotlessIsRefFree(right);
    RefFreeIsKept(right);
    RefReadsBack(r);
  }

  lemma {:induction false} RefTextIsPlain(r: Ref)
    requires IsRef(r)
    ensures forall c | c in Written(r) :: RefChar(c)
  {
    DottedIsPlain(r.keys);
    assert forall c | c in Prefix(r.collection) :: RefChar(c);
  }

  lemma {:induction false} DottedIsPlain(keys: seq<string>)
    requires AreNames(keys)
    ensures forall c | c in Dotted(keys) :: RefChar(c)
  {
    if keys != [] {
      assert IsName(keys[0]);
      DottedIsPlain(keys[1..]);
    }
  }

  /** Stated delimiters replace the usual ones. */
  predicate OwnDelimiters(c: ConfigSpec, left: string, right: string) {
    c.delimiters == [left, right] && Frame(left) && Frame(right) && (left != "{{" || right != "}}")
  }

  lemma FramedActions(c: ConfigSpec, before: string, left: string, r: Ref, right: string, after: string)
    requires OwnDelimiters(c, left, right) && left[0] !in before && IsRef(r)
    ensures var frame := left + (" " + Written(r) + " ") + right;
      ConfigActions(c, before + (frame + after)) == [frame] + ConfigActions(c, after)
  {
    hide Written, IsRef, DelimitedIn, RefChar;
    RefTextIsPlain(r);
    var body := " " + Written(r) + " ";
    assert right[0] in right && right[0] !in body;
    DelimitedSkips(before, left + body + right + after, left, right);
    DelimitedReads(left, body, right, after);
  }

  /** With delimiters of its own, a file refers to what stands between them. */
  lemma FramedReference(view: map<Id, Resource>, n: string, k: string, before: string, left: string, r: Ref,
                        right: string, after: string, x: Reference)
    requires Bundle(view) && IsRef(r) && x.place == ConfigFile(n, k)
    requires ResourceId(KindConfig, n) in view && view[ResourceId(KindConfig, n)].spec.ConfigOf?
    requires var c := view[ResourceId(KindConfig, n)].spec.config;
      && OwnDelimiters(c, left, right) && left[0] !in before
      && k in c.data && c.data[k] == before + (left + (" " + Written(r) + " ") + right + after)
    ensures x.collection == r.collection && x.name == r.keys[0] && x.field == (if |r.keys| == 1 then "" else r.keys[1])
      ==> x in AllReferences(view)
    ensures after == "" && x in AllReferences(view) ==>
      x.collection == r.collection && x.name == r.keys[0] && x.field == (if |r.keys| == 1 then "" else r.keys[1])
  {
    hide AllReferences, WellTyped, AtPlace, RefsOf, ConfigActions, Written, OwnDelimiters, IsRef, Frame, RefChar;
    OwnerDecides(view, x);
    var owner := view[ResourceId(KindConfig, n)];
    var c := owner.spec.config;
    assert owner.meta.name == n;
    FileOwner(owner, n, k, x);
    FramesAre(c, left, right);
    FramedActions(c, before, left, r, right, after);
    FramedRef(left, r, right);
    RefsHaveKeys(r);
    RefsOfFirst(left + (" " + Written(r) + " ") + right, ConfigActions(c, after));
    var found := RefsOf(ConfigActions(c, c.data[k]));
    assert found[0] == r && r in found;
    assert ReferenceOf(ConfigFile(n, k), r)
      == Reference(ConfigFile(n, k), r.collection, r.keys[0], if |r.keys| == 1 then "" else r.keys[1]);
    PlacedAre(ConfigFile(n, k), found, x);
    if after == "" {
      NothingFramed(c, left, right);
      assert found == [r];
    }
  }

  lemma FramesAre(c: ConfigSpec, left: string, right: string)
    requires OwnDelimiters(c, left, right)
    ensures Frame(left) && Frame(right)
  {}

  lemma NothingFramed(c: ConfigSpec, left: string, right: string)
    requires OwnDelimiters(c, left, right)
    ensures ConfigActions(c, "") == [] && RefsOf(ConfigActions(c, "")) == []
  {}

  /** ... and to nothing else: a usual action is no reference there. */
  lemma UnframedText(view: map<Id, Resource>, n: string, k: string, left: string, right: string, x: Reference)
    requires Bundle(view) && x.place == ConfigFile(n, k)
    requires ResourceId(KindConfig, n) in view && view[ResourceId(KindConfig, n)].spec.ConfigOf?
    requires var c := view[ResourceId(KindConfig, n)].spec.config;
      OwnDelimiters(c, left, right) && k in c.data && left[0] !in c.data[k]
    ensures x !in AllReferences(view)
  {
    hide AllReferences, WellTyped, AtPlace, RefsOf, DelimitedIn, IsRef, Frame, RefChar;
    OwnerDecides(view, x);
    var owner := view[ResourceId(KindConfig, n)];
    var c := owner.spec.config;
    assert owner.meta.name == n;
    FileOwner(owner, n, k, x);
    FramesAre(c, left, right);
    NothingFramed(c, left, right);
    assert c.data[k] + "" == c.data[k];
    LeftIsSome(left);
    DelimitedSkips(c.data[k], "", left, right);
    PlacedAre(ConfigFile(n, k), RefsOf(ConfigActions(c, "")), x);
  }

  lemma LeftIsSome(left: string)
    requires Frame(left)
    ensures left != ""
  {}

  // ---- What is wrong with a reference ---------------------------------------------------------

  /** The names a bundle may refer to. */
  function NamesKnown(known: KnownNames, collection: string): set<string> {
    if collection == "databases" then known.databases
    else if collection == "secrets" then known.secrets
    else if collection == "applications" then known.applications
    else known.inputs
  }

  lemma CollectionsAre(known: KnownNames, c: Collection)
    ensures NamesKnown(known, CollectionName(c)) == known.In(c)
  {
    assert "databases"[0] == 'd' && "secrets"[0] == 's' && "applications"[0] == 'a' && "inputs"[0] == 'i';
  }

  /** A reference to a name that is not there is wrong whatever its field; of one that
      is, only a database's and an application's field can be. */
  lemma ProblemIs(known: KnownNames, x: Reference)
    ensures var there := x.name in NamesKnown(known, CollectionName(x.collection));
      var unknown :=
        || (x.collection == Databases && x.field !in ["", "host", "port", "user", "password", "name", "uri", "url"])
        || (x.collection == Applications && x.field !in ["", "host", "port", "scheme", "url", "alias"]);
      && (CheckOne(known, x) == Some(UnknownTarget(x)) <==> !there)
      && (CheckOne(known, x) == Some(UnknownRefField(x)) <==> there && unknown)
      && (CheckOne(known, x) == None <==> there && !unknown)
  {
    CollectionsAre(known, x.collection);
    hide NamesKnown, CollectionName, KnownNames.In;
  }
}
