/** What rendering promises: credentials are tracked well enough that nothing
    untracked depends on them, and deferring a secret to the worker ends in the
    same value as resolving it at once. */
module RenderLaws {
  import opened Actions
  import opened Deferral
  import opened DeferPrinting
  import opened Printing
  import opened Render
  import opened Syntax
  import opened Templates
  import opened Text
  import opened Wrappers

  // ---- Untracked values do not depend on credentials --------------------------

  ghost predicate ConnAlike(x: ConnView, y: ConnView) {
    y == x.(password := y.password, uri := y.uri, readOnlyPassword := y.readOnlyPassword, readOnlyUri := y.readOnlyUri)
  }

  /** Two contexts that differ in secret values and database credentials only. */
  ghost predicate ContextAlike(c1: RenderContext, c2: RenderContext) {
    && c1.inputs == c2.inputs && c1.apps == c2.apps
    && c1.secrets.Keys == c2.secrets.Keys && c1.databases.Keys == c2.databases.Keys
    && forall d | d in c1.databases :: ConnAlike(c1.databases[d], c2.databases[d])
  }

  lemma AlikeIsSymmetric(c1: RenderContext, c2: RenderContext)
    requires ContextAlike(c1, c2)
    ensures ContextAlike(c2, c1)
  {}

  lemma LookupAlike(c1: RenderContext, c2: RenderContext, r: Ref)
    requires ContextAlike(c1, c2) && !Marks(r)
    ensures Lookup(c1, r) == Lookup(c2, r)
  {
    if r.collection == Databases && r.keys != [] && r.Name() in c1.databases {
      FieldAlike(c1.databases[r.Name()], c2.databases[r.Name()], r.Field());
    }
  }

  lemma FieldAlike(x: ConnView, y: ConnView, f: string)
    requires ConnAlike(x, y) && !CredentialField(f)
    ensures x.Field(f) == y.Field(f)
  {}

  /** An evaluation that marks nothing is blind to every credential. */
  lemma {:induction false} EvalAlike(c1: RenderContext, c2: RenderContext, h: Helpers, e: Expr)
    requires ContextAlike(c1, c2) && Expanded(e)
    ensures !Eval(c1, h, e).marked ==> Eval(c2, h, e) == Eval(c1, h, e)
    decreases e
  {
    hide Lookup, Marks, ContextAlike;
    match e {
      case Call(r) => if !Marks(r) { LookupAlike(c1, c2, r); }
      case SecretPointer(n) => SecretPointerAlike(c1, c2, n);
      case DatabasePointer(n, f) => DatabasePointerAlike(c1, c2, n, f);
      case Quoted(_) =>
      case Apply(_, args) => EvalArgsAlike(c1, c2, h, args);
      case Pipe(from, _, args) => EvalAlike(c1, c2, h, from); EvalArgsAlike(c1, c2, h, args);
    }
  }

  lemma {:induction false} EvalArgsAlike(c1: RenderContext, c2: RenderContext, h: Helpers, args: Args)
    requires ContextAlike(c1, c2) && ArgsExpanded(args)
    ensures !EvalArgs(c1, h, args).marked ==> EvalArgs(c2, h, args) == EvalArgs(c1, h, args)
    decreases args
  {
    hide ContextAlike;
    match args {
      case NoArgs =>
      case Arg(e, rest) => EvalAlike(c1, c2, h, e); EvalArgsAlike(c1, c2, h, rest);
    }
  }

  lemma SecretPointerAlike(c1: RenderContext, c2: RenderContext, n: string)
    requires ContextAlike(c1, c2)
    ensures EvalSecretPointer(c1, n) == EvalSecretPointer(c2, n)
  {
    assert n in c1.secrets.Keys <==> n in c2.secrets.Keys;
  }

  lemma DatabasePointerAlike(c1: RenderContext, c2: RenderContext, n: string, f: string)
    requires ContextAlike(c1, c2)
    ensures !EvalDatabasePointer(c1, n, f).marked ==> EvalDatabasePointer(c2, n, f) == EvalDatabasePointer(c1, n, f)
  {
    hide Lookup;
    assert n in c1.databases.Keys <==> n in c2.databases.Keys;
    if n in c1.databases {
      var entry := VaultEntry(c1.databases[n], f);
      assert entry in c1.secrets.Keys <==> entry in c2.secrets.Keys;
      if !Marks(DatabaseRef(n, f)) {
        LookupAlike(c1, c2, DatabaseRef(n, f));
      }
    }
  }

  lemma {:induction false} ExecuteAlike(c1: RenderContext, c2: RenderContext, h: Helpers, t: Template, trim: bool)
    requires ContextAlike(c1, c2) && AllExpanded(t) && Pointerless(t)
    ensures !Execute(c1, h, t, trim).marked ==> Execute(c2, h, t, trim) == Execute(c1, h, t, trim)
  {
    hide ContextAlike, Eval;
    if t != [] {
      assert PartExpanded(t[0]) && !t[0].Pointer?;
      assert AllExpanded(t[1..]) && Pointerless(t[1..]);
      match t[0] {
        case Literal(_) => ExecuteAlike(c1, c2, h, t[1..], false);
        case Action(_, e, _) => EvalAlike(c1, c2, h, e); ExecuteAlike(c1, c2, h, t[1..], TrimsRight(t[0]));
      }
    }
  }

  lemma RenderAlike(c1: RenderContext, c2: RenderContext, h: Helpers, t: Template)
    requires ContextAlike(c1, c2)
    ensures !RenderValue(c1, h, t).marked ==> RenderValue(c2, h, t) == RenderValue(c1, h, t)
    ensures RenderValue(c1, h, t).marked == RenderValue(c2, h, t).marked
  {
    hide Execute, ContextAlike;
    var d := Defer(t);
    if Pointerless(d) {
      ExpandExpandsAll(d);
      ExpandKeepsPointerless(d);
      ExecuteAlike(c1, c2, h, Expand(d), false);
      AlikeIsSymmetric(c1, c2);
      ExecuteAlike(c2, c1, h, Expand(d), false);
    }
  }

  /** Noninterference: in two workspaces that differ in credentials only, the
      same keys are tracked, and every other key renders, or fails, alike. */
  lemma CredentialsDoNotLeak(c1: RenderContext, c2: RenderContext, h: Helpers, env: Env)
    requires ContextAlike(c1, c2)
    ensures Tracked(c1, h, env) == Tracked(c2, h, env)
    ensures forall k | k in env && k != "" && k !in Tracked(c1, h, env) ::
      RenderValue(c1, h, env[k]) == RenderValue(c2, h, env[k])
  {
    hide RenderValue, ContextAlike;
    forall k | k in env
      ensures RenderValue(c1, h, env[k]).marked == RenderValue(c2, h, env[k]).marked
      ensures !RenderValue(c1, h, env[k]).marked ==> RenderValue(c2, h, env[k]) == RenderValue(c1, h, env[k])
    {
      RenderAlike(c1, c2, h, env[k]);
    }
  }

  /** The lenient renderer drops the keys it leaves as templates; what neither
      side tracks is still the same on both. */
  lemma LenientDoesNotLeak(c1: RenderContext, c2: RenderContext, h: Helpers, env: Env, k: string)
    requires ContextAlike(c1, c2) && k in env && k != ""
    requires k !in TrackedRendered(c1, h, env) && k !in TrackedRendered(c2, h, env)
    ensures LenientValue(c1, h, env[k]) == LenientValue(c2, h, env[k])
  {
    hide RenderValue, ContextAlike;
    RenderAlike(c1, c2, h, env[k]);
  }

  /** A key is tracked exactly when it resolved a credential and has a name:
      under the empty key a credential goes unnoticed. */
  lemma EmptyKeyGoesUnnoticed(h: Helpers, p1: string, p2: string)
    requires p1 != p2
    ensures var t := [Action(" ", Dot(Ref(Databases, ["db", "password"])), " ")];
      var conn := ConnView("h", "1", "u", p1, "n", "", "", "", "", "", "");
      var c1 := RenderContext(map[], map["db" := conn], map[], map[]);
      var c2 := RenderContext(map[], map["db" := conn.(password := p2)], map[], map[]);
      && ContextAlike(c1, c2)
      && Tracked(c1, h, map["" := t]) == {} && Tracked(c2, h, map["" := t]) == {}
      && RenderValue(c1, h, t).result == Success(p1) && RenderValue(c2, h, t).result == Success(p2)
  {
    var t := [Action(" ", Dot(Ref(Databases, ["db", "password"])), " ")];
    var conn := ConnView("h", "1", "u", p1, "n", "", "", "", "", "", "");
    PasswordRenders(h, conn, t);
    PasswordRenders(h, conn.(password := p2), t);
  }

  lemma PasswordRenders(h: Helpers, conn: ConnView, t: Template)
    requires t == [Action(" ", Dot(Ref(Databases, ["db", "password"])), " ")]
    requires conn.passwordSecret == ""
    ensures RenderValue(RenderContext(map[], map["db" := conn], map[], map[]), h, t).result == Success(conn.password)
  {
    var ctx := RenderContext(map[], map["db" := conn], map[], map[]);
    var e := DatabasePointer("db", "password");
    assert Defer(t) == [Action(" ", e, " ")];
    assert Expand(Defer(t)) == Defer(t);
    assert DatabaseRef("db", "password").Field() == "password";
    assert Eval(ctx, h, e).result == Success(Value(conn.password));
    assert Pointerless(Defer(t));
    OneAction(ctx, h, " ", e, " ", conn.password);
  }

  lemma OneAction(ctx: RenderContext, h: Helpers, l: string, e: Expr, r: string, v: string)
    requires Expanded(e) && Eval(ctx, h, e).result == Success(Value(v))
    ensures var t := [Action(l, e, r)];
      AllExpanded(t) && Pointerless(t) && Execute(ctx, h, t, false).result == Success([Value(v)])
    ensures JoinChunks([Value(v)]) == v
  {
    hide Eval, Expanded;
    var t := [Action(l, e, r)];
    assert t[1..] == [];
    assert Execute(ctx, h, [], TrimsRight(t[0])) == Outcome(Success([]), false);
    assert [Value(v)] + [] == [Value(v)];
    assert [Value(v)][1..] == [];
  }

  // ---- Deferral keeps the meaning ------------------------------------------------

  /** The worker's value for a name; ResolveAll. */
  function ValueOf(values: map<string, string>): string -> string {
    n => if n in values then values[n] else ""
  }

  /** Fills in the pointers of a stored value; refused when a name is missing. */
  function Resolve(values: map<string, string>, s: string): Option<string> {
    if forall n | n in RuntimeNames(s) :: n in values then Some(ReplaceRuntime(s, ValueOf(values))) else None
  }

  /** Vault names are valid, and a database's entries hold its credentials. */
  ghost predicate VaultHolds(ctx: RenderContext) {
    && (forall n | n in ctx.secrets :: SecretName(n))
    && (forall d | d in ctx.databases ::
          var c := ctx.databases[d];
          && (c.uriSecret in ctx.secrets ==> ctx.secrets[c.uriSecret] == c.uri)
          && (c.passwordSecret in ctx.secrets ==> ctx.secrets[c.passwordSecret] == c.password))
  }

  /** What a piece of text stands for once pointers are filled in. */
  function Meaning(values: map<string, string>, c: Chunk): string {
    match c
    case Value(t) => t
    case Vault(n) => ValueOf(values)(n)
  }

  function Meanings(values: map<string, string>, cs: seq<Chunk>): string {
    if cs == [] then "" else Meaning(values, cs[0]) + Meanings(values, cs[1..])
  }

  /** No text between two pointers reads as a pointer itself. */
  predicate Inert(cs: seq<Chunk>, run: string)
    decreases |cs|
  {
    if cs == [] then RuntimeFree(run)
    else
      match cs[0]
      case Value(t) => Inert(cs[1..], run + t)
      case Vault(_) => RuntimeFree(run) && Inert(cs[1..], "")
  }

  predicate PointsInto(values: map<string, string>, cs: seq<Chunk>) {
    forall i | 0 <= i < |cs| :: cs[i].Vault? ==> SecretName(cs[i].name) && cs[i].name in values
  }

  lemma NoRuntimeAcross(x: string, y: string)
    requires x != "" && RuntimeAt(x).None? && (y == "" || y[0] == '$')
    ensures RuntimeAt(x + y).None?
  {
    hide RuntimeName, IsAction;
    assert (x + y)[0] == x[0] && (x + y)[1..] == x[1..] + y;
    if x[0] == '$' && ActionAt(x[1..] + y).Some? {
      var a := ActionAt(x[1..] + y).value;
      ActionHasBody(a);
      if |a| <= |x| - 1 {
        assert a == x[1..][..|a|];
        assert x[1..] == a + x[1 + |a|..];
        ActionAtAction(a, x[1 + |a|..]);
      } else {
        DollarInBody(x[1..], y, a);
        if RuntimeName(Body(a)).Some? {
          RuntimeNameIsPlain(Body(a));
        }
      }
    }
  }

  lemma DollarInBody(x: string, y: string, a: string)
    requires IsAction(a) && a <= x + y && |x| < |a| && y != "" && y[0] == '$'
    ensures '$' in Body(a)
  {
    ActionHasBody(a);
    assert a[|x|] == (x + y)[|x|] == '$';
    assert a[0] == '{' && a[1] == '{' && a[|a| - 2] == '}' && a[|a| - 1] == '}';
    assert Body(a)[|x| - 2] == a[|x|];
  }

  lemma {:induction false} InertPasses(x: string, y: string, g: string -> string)
    requires RuntimeFree(x) && (y == "" || y[0] == '$')
    ensures ReplaceRuntime(x + y, g) == x + ReplaceRuntime(y, g)
    ensures RuntimeNames(x + y) == RuntimeNames(y)
  {
    hide RuntimeAt, ReplaceRuntime, RuntimeNames;
    if x == "" {
      assert x + y == y;
    } else {
      NoRuntimeAcross(x, y);
      RuntimePassesOne(x + y, g);
      assert (x + y)[0] == x[0] && (x + y)[1..] == x[1..] + y;
      InertPasses(x[1..], y, g);
      assert x == [x[0]] + x[1..];
    }
  }

  lemma PointerResolves(n: string, y: string, g: string -> string)
    requires SecretName(n)
    ensures ReplaceRuntime(PointerText(n) + y, g) == g(n) + ReplaceRuntime(y, g)
    ensures RuntimeNames(PointerText(n) + y) == [n] + RuntimeNames(y)
  {
    hide ReplaceRuntime, RuntimeNames, RuntimeName, IsName;
    assert Blanks(" ");
    PointerBodyName(" ", n, " ");
    var b := " " + SECRETS_DOT + n + " ";
    assert PartWellFormed(Pointer(" ", n, " "));
    BodyIsBraceFree(Pointer(" ", n, " "));
    PointerIsReplaced(b, n, y, g);
    assert PointerText(n) == "$" + Braced(b);
  }

  /** Filling in the pointers of rendered text gives what each piece stands for. */
  lemma {:induction false} ResolvesToMeanings(values: map<string, string>, cs: seq<Chunk>, run: string)
    requires Inert(cs, run) && PointsInto(values, cs)
    ensures Resolve(values, run + JoinChunks(cs)) == Some(run + Meanings(values, cs))
    decreases |cs|
  {
    hide ReplaceRuntime, RuntimeNames, RuntimeFree, SecretName, PointerText;
    var g := ValueOf(values);
    if cs == [] {
      RuntimeFreeIsKept(run, g);
      assert run + "" == run;
    } else {
      assert PointsInto(values, cs[1..]);
      var more := JoinChunks(cs[1..]);
      match cs[0] {
        case Value(t) =>
          ResolvesToMeanings(values, cs[1..], run + t);
          assert run + (t + more) == run + t + more;
          assert run + (t + Meanings(values, cs[1..])) == run + t + Meanings(values, cs[1..]);
        case Vault(n) =>
          ResolvesToMeanings(values, cs[1..], "");
          assert "" + more == more && "" + Meanings(values, cs[1..]) == Meanings(values, cs[1..]);
          PointerResolves(n, more, g);
          PointerStarts(n, more);
          InertPasses(run, PointerText(n) + more, g);
          assert run + JoinChunks(cs) == run + (PointerText(n) + more);
      }
    }
  }

  lemma PointerStarts(n: string, y: string)
    ensures (PointerText(n) + y)[0] == '$'
  {}

  // ---- Direct and deferred rendering side by side ----------------------------------

  /** One deferred and one direct result that stand for the same text. */
  ghost predicate SameMeaning(values: map<string, string>, d: Result<Chunk, RenderError>,
                              v: Result<Chunk, RenderError>) {
    match d
    case Failure(e) => v == Failure(e)
    case Success(c) =>
      v == Success(Value(Meaning(values, c))) && (c.Vault? ==> SecretName(c.name) && c.name in values)
  }

  lemma {:induction false} SourceGivesValues(ctx: RenderContext, h: Helpers, e: Expr)
    requires Source(e)
    ensures Expanded(ExpandExpr(e))
    ensures var o := Eval(ctx, h, ExpandExpr(e)).result; o.Success? ==> o.value.Value?
  {
    hide Lookup;
    ExpandsAll(e);
  }

  lemma DeferredExpr(ctx: RenderContext, h: Helpers, e: Expr)
    requires Source(e) && VaultHolds(ctx)
    ensures Expanded(ExpandExpr(e)) && Expanded(ExpandExpr(DeferExpr(e)))
    ensures SameMeaning(ctx.secrets, Eval(ctx, h, ExpandExpr(DeferExpr(e))).result, Eval(ctx, h, ExpandExpr(e)).result)
  {
    hide Lookup, Eval, VaultHolds;
    ExpandsAll(e);
    ExpandsAll(DeferExpr(e));
    SourceGivesValues(ctx, h, e);
    if DeferExpr(e) != e {
      match DeferExpr(e) {
        case SecretPointer(n) => SecretMeans(ctx, h, e.ref);
        case DatabasePointer(n, f) => DatabaseMeans(ctx, h, e.ref, f);
      }
    }
  }

  lemma SecretMeans(ctx: RenderContext, h: Helpers, r: Ref)
    requires VaultHolds(ctx) && r.collection == Secrets && |r.keys| == 1
    ensures SameMeaning(ctx.secrets, Eval(ctx, h, SecretPointer(r.keys[0])).result, Eval(ctx, h, Call(r)).result)
  {}

  lemma DatabaseMeans(ctx: RenderContext, h: Helpers, r: Ref, f: string)
    requires VaultHolds(ctx) && r.collection == Databases && f in ["", "password", "uri", "url"]
    requires r.keys == if f == "" then [r.Name()] else [r.Name(), f]
    ensures SameMeaning(ctx.secrets, Eval(ctx, h, DatabasePointer(r.Name(), f)).result, Eval(ctx, h, Call(r)).result)
  {
    hide SecretName;
    assert DatabaseRef(r.Name(), f) == r;
    if r.Name() in ctx.databases {
      var c := ctx.databases[r.Name()];
      assert r.Field() == f;
      assert Lookup(ctx, r) == Success(if f == "password" then c.password else c.uri);
    }
  }

  ghost predicate SameMeanings(values: map<string, string>, d: Result<seq<Chunk>, RenderError>,
                               v: Result<seq<Chunk>, RenderError>) {
    match d
    case Failure(e) => v == Failure(e)
    case Success(cs) => v.Success? && JoinChunks(v.value) == Meanings(values, cs) && PointsInto(values, cs)
  }

  lemma {:induction false} DeferredTemplate(ctx: RenderContext, h: Helpers, t: Template, trim: bool)
    requires VaultHolds(ctx) && SourceTemplate(t) && Pointerless(t)
    ensures AllExpanded(Expand(t)) && Pointerless(Expand(t))
    ensures AllExpanded(Expand(Defer(t))) && Pointerless(Expand(Defer(t)))
    ensures SameMeanings(ctx.secrets, Execute(ctx, h, Expand(Defer(t)), trim).result,
                         Execute(ctx, h, Expand(t), trim).result)
    decreases |t|, 1
  {
    hide VaultHolds, Eval, Source, Expanded, ExpandExpr, DeferExpr;
    DeferKeepsPointerless(t);
    ExpandExpandsAll(t);
    ExpandKeepsPointerless(t);
    ExpandExpandsAll(Defer(t));
    ExpandKeepsPointerless(Defer(t));
    if t != [] {
      assert !t[0].Pointer?;
      assert SourceTemplate(t[1..]) && Pointerless(t[1..]) by { RestIsSource(t); }
      assert Defer(t)[1..] == Defer(t[1..]);
      assert Expand(t)[1..] == Expand(t[1..]) && Expand(Defer(t))[1..] == Expand(Defer(t[1..]));
      TrimsAlike(t[1..]);
      DeferredPart(ctx, h, t, trim);
    }
  }

  lemma RestIsSource(t: Template)
    requires t != [] && SourceTemplate(t) && Pointerless(t)
    ensures SourceTemplate(t[1..]) && Pointerless(t[1..])
  {
    assert forall i | 0 <= i < |t[1..]| :: t[1..][i] == t[i + 1];
  }

  lemma {:induction false} DeferKeepsPointerless(t: Template)
    ensures |Defer(t)| == |t| && Pointerless(Defer(t))
    ensures forall i | 0 <= i < |t| :: Defer(t)[i] == DeferPart(t[i])
  {
    if t != [] {
      DeferKeepsPointerless(t[1..]);
      assert Defer(t)[1..] == Defer(t[1..]);
    }
  }

  /** The rewrites keep the edges of every action. */
  lemma TrimsAlike(t: Template)
    requires Pointerless(t)
    ensures NextTrims(Expand(t)) == NextTrims(t) == NextTrims(Expand(Defer(t)))
  {
    if t != [] {
      assert !t[0].Pointer?;
      assert Expand(t)[0] == ExpandPart(t[0]);
      assert Expand(Defer(t))[0] == ExpandPart(DeferPart(t[0]));
    }
  }

  lemma DeferredPart(ctx: RenderContext, h: Helpers, t: Template, trim: bool)
    requires VaultHolds(ctx) && SourceTemplate(t) && Pointerless(t) && t != []
    requires AllExpanded(Expand(t)) && Pointerless(Expand(t))
    requires AllExpanded(Expand(Defer(t))) && Pointerless(Expand(Defer(t)))
    requires NextTrims(Expand(t[1..])) == NextTrims(Expand(Defer(t[1..])))
    ensures SameMeanings(ctx.secrets, Execute(ctx, h, Expand(Defer(t)), trim).result,
                         Execute(ctx, h, Expand(t), trim).result)
    decreases |t|, 0
  {
    hide VaultHolds, Eval, Source, Expanded, ExpandExpr, DeferExpr, Trim, NextTrims;
    RestIsSource(t);
    var p := t[0];
    var dt, xt := Expand(Defer(t)), Expand(t);
    assert Defer(t)[1..] == Defer(t[1..]);
    assert xt[1..] == Expand(t[1..]) && dt[1..] == Expand(Defer(t[1..]));
    assert xt[0] == ExpandPart(p) && dt[0] == ExpandPart(DeferPart(p));
    match p {
      case Literal(x) =>
        DeferredTemplate(ctx, h, t[1..], false);
        PutBefore(ctx.secrets, Value(Trim(x, trim, NextTrims(xt[1..]))), Trim(x, trim, NextTrims(xt[1..])),
                  false, Execute(ctx, h, dt[1..], false), false, Execute(ctx, h, xt[1..], false));
      case Action(l, e, r) =>
        assert Source(e);
        DeferredExpr(ctx, h, e);
        var after := TrimsRight(p);
        DeferredTemplate(ctx, h, t[1..], after);
        var d, v := Eval(ctx, h, ExpandExpr(DeferExpr(e))), Eval(ctx, h, ExpandExpr(e));
        if d.result.Success? {
          PutBefore(ctx.secrets, d.result.value, v.result.value.text,
                    d.marked, Execute(ctx, h, dt[1..], after), v.marked, Execute(ctx, h, xt[1..], after));
        }
    }
  }

  lemma PutBefore(values: map<string, string>, c: Chunk, v: string,
                  m1: bool, d: Outcome<seq<Chunk>>, m2: bool, o: Outcome<seq<Chunk>>)
    requires SameMeanings(values, d.result, o.result)
    requires v == Meaning(values, c) && (c.Vault? ==> SecretName(c.name) && c.name in values)
    ensures SameMeanings(values, Before(c, m1, d).result, Before(Value(v), m2, o).result)
  {
    hide SecretName;
    if d.result.Success? {
      var cs, vs := d.result.value, o.result.value;
      assert ([c] + cs)[1..] == cs && ([Value(v)] + vs)[1..] == vs;
      assert forall i | 0 < i < |[c] + cs| :: ([c] + cs)[i] == cs[i - 1];
    }
  }

  /** Deferral preserves meaning. A template renders deferred exactly when it
      renders directly, with the same error otherwise; and when no text around
      the pointers reads as a pointer, filling them in gives the direct value. */
  lemma DeferralKeepsMeaning(ctx: RenderContext, h: Helpers, t: Template)
    requires VaultHolds(ctx) && SourceTemplate(t) && Pointerless(t)
    ensures var deferred, direct := RenderChunks(ctx, h, Defer(t)).result, Rendered(RenderChunks(ctx, h, t)).result;
      match deferred
      case Failure(e) => direct == Failure(e)
      case Success(cs) =>
        direct.Success? && (Inert(cs, "") ==> Resolve(ctx.secrets, JoinChunks(cs)) == Some(direct.value))
  {
    hide VaultHolds, Execute, Resolve, Inert, SourceTemplate, PointsInto;
    DeferKeepsPointerless(t);
    DeferredTemplate(ctx, h, t, false);
    var deferred := RenderChunks(ctx, h, Defer(t)).result;
    if deferred.Success? && Inert(deferred.value, "") {
      ResolvesToMeanings(ctx.secrets, deferred.value, "");
      assert "" + JoinChunks(deferred.value) == JoinChunks(deferred.value);
      assert "" + Meanings(ctx.secrets, deferred.value) == Meanings(ctx.secrets, deferred.value);
    }
  }
}
