/** When deferring a template cannot go wrong: a condition on the template, the
    values it can see and the helpers, to be checked before anything renders. */
module PlainRendering {
  import opened Actions
  import opened Deferral
  import opened Encodings
  import opened Render
  import opened RenderLaws
  import opened Syntax
  import opened Templates
  import opened Wrappers

  /** A character without which no text reads as a pointer. */
  predicate Needed(c: char) {
    c == '$' || c == '{'
  }

  // ---- The condition ------------------------------------------------------------

  predicate ExprWithout(e: Expr, c: char) {
    match e
    case Quoted(t) => c !in t
    case Apply(_, args) => ArgsWithout(args, c)
    case Pipe(from, _, args) => ExprWithout(from, c) && ArgsWithout(args, c)
    case _ => true
  }

  predicate ArgsWithout(args: Args, c: char) {
    match args
    case NoArgs => true
    case Arg(e, rest) => ExprWithout(e, c) && ArgsWithout(rest, c)
  }

  /** No literal text and no quoted string holds `c`. */
  predicate TemplateWithout(t: Template, c: char) {
    forall i | 0 <= i < |t| ::
      (t[i].Literal? ==> c !in t[i].text) && (t[i].Action? ==> ExprWithout(t[i].body, c))
  }

  predicate FieldWithout(v: Option<string>, c: char) {
    v.Some? ==> c !in v.value
  }

  /** No value a reference can give holds `c`. */
  ghost predicate ContextWithout(ctx: RenderContext, c: char) {
    && (forall n | n in ctx.inputs :: c !in ctx.inputs[n])
    && (forall n | n in ctx.secrets :: c !in ctx.secrets[n])
    && (forall n, f: string | n in ctx.databases :: FieldWithout(ctx.databases[n].Field(f), c))
    && (forall n, f: string | n in ctx.apps :: FieldWithout(ctx.apps[n].Field(f), c))
  }

  /** A helper gives no `c` when it is given none. */
  ghost predicate HelpersKeepOut(h: Helpers, c: char) {
    forall fn, args :: Without(args, c) ==> FieldWithout(h(fn, args), c)
  }

  ghost predicate PlainInputs(ctx: RenderContext, h: Helpers, t: Template, c: char) {
    Needed(c) && TemplateWithout(t, c) && ContextWithout(ctx, c) && HelpersKeepOut(h, c)
  }

  // ---- Everything rendered is plain -----------------------------------------------

  predicate PlainChunk(k: Chunk, c: char) {
    k.Value? ==> c !in k.text
  }

  lemma LookupIsPlain(ctx: RenderContext, r: Ref, c: char)
    requires ContextWithout(ctx, c) && Lookup(ctx, r).Success?
    ensures c !in Lookup(ctx, r).value
  {
    var name := r.Name();
    match r.collection {
      case Databases => assert FieldWithout(ctx.databases[name].Field(OrDefault(r.Field(), "uri")), c);
      case Applications => assert FieldWithout(ctx.apps[name].Field(OrDefault(r.Field(), "url")), c);
      case _ =>
    }
  }

  /** A value in plain text, without `c`. */
  predicate PlainText(r: Result<Chunk, RenderError>, c: char) {
    r.Success? ==> r.value.Value? && c !in r.value.text
  }

  lemma {:induction false} SourceIsPlain(ctx: RenderContext, h: Helpers, e: Expr, c: char)
    requires Source(e) && ExprWithout(e, c) && ContextWithout(ctx, c) && HelpersKeepOut(h, c)
    ensures Expanded(ExpandExpr(e)) && PlainText(Eval(ctx, h, ExpandExpr(e)).result, c)
    decreases e
  {
    hide Lookup, ContextWithout, HelpersKeepOut;
    match e {
      case Dot(r) =>
        if Lookup(ctx, r).Success? {
          LookupIsPlain(ctx, r, c);
        }
      case Quoted(_) =>
      case Apply(fn, args) =>
        ArgsArePlain(ctx, h, args, c);
        var vs := EvalArgs(ctx, h, ExpandArgs(args)).result;
        if vs.Success? {
          HelpIsPlain(h, fn, vs.value, c);
        }
      case Pipe(from, fn, args) =>
        SourceIsPlain(ctx, h, from, c);
        ArgsArePlain(ctx, h, args, c);
        var v, vs := Eval(ctx, h, ExpandExpr(from)).result, EvalArgs(ctx, h, ExpandArgs(args)).result;
        if v.Success? && vs.Success? {
          HelpIsPlain(h, fn, vs.value + [ChunkText(v.value)], c);
        }
    }
  }

  lemma {:induction false} ArgsArePlain(ctx: RenderContext, h: Helpers, args: Args, c: char)
    requires ArgsSource(args) && ArgsWithout(args, c) && ContextWithout(ctx, c) && HelpersKeepOut(h, c)
    ensures ArgsExpanded(ExpandArgs(args))
    ensures var vs := EvalArgs(ctx, h, ExpandArgs(args)).result; vs.Success? ==> Without(vs.value, c)
    decreases args
  {
    hide ContextWithout, HelpersKeepOut, Eval;
    match args {
      case NoArgs =>
      case Arg(e, rest) =>
        SourceIsPlain(ctx, h, e, c);
        ArgsArePlain(ctx, h, rest, c);
    }
  }

  lemma HelpIsPlain(h: Helpers, fn: string, args: seq<string>, c: char)
    requires HelpersKeepOut(h, c) && Without(args, c)
    ensures Help(h, fn, args).Success? ==> c !in Help(h, fn, args).value
  {
    assert FieldWithout(h(fn, args), c);
  }

  lemma DeferredIsPlain(ctx: RenderContext, h: Helpers, e: Expr, c: char)
    requires Source(e) && ExprWithout(e, c) && ContextWithout(ctx, c) && HelpersKeepOut(h, c)
    ensures Expanded(ExpandExpr(DeferExpr(e)))
    ensures var o := Eval(ctx, h, ExpandExpr(DeferExpr(e))).result; o.Success? ==> PlainChunk(o.value, c)
  {
    hide ContextWithout, HelpersKeepOut, Lookup;
    ExpandsAll(DeferExpr(e));
    if DeferExpr(e) == e {
      SourceIsPlain(ctx, h, e, c);
    } else {
      match DeferExpr(e) {
        case SecretPointer(n) =>
        case DatabasePointer(n, f) => PointerIsPlain(ctx, n, f, c);
      }
    }
  }

  lemma PointerIsPlain(ctx: RenderContext, n: string, f: string, c: char)
    requires ContextWithout(ctx, c)
    ensures var o := EvalDatabasePointer(ctx, n, f).result; o.Success? ==> PlainChunk(o.value, c)
  {
    hide Lookup, ContextWithout;
    if Lookup(ctx, DatabaseRef(n, f)).Success? {
      LookupIsPlain(ctx, DatabaseRef(n, f), c);
    }
  }

  lemma {:induction false} TrimmingKeepsOut(s: string, before: bool, after: bool, c: char)
    requires c !in s
    ensures c !in Render.Trim(s, before, after)
  {
    StartKeepsOut(s, c);
    EndKeepsOut(s, c);
    EndKeepsOut(TrimStart(s), c);
  }

  lemma {:induction false} StartKeepsOut(s: string, c: char)
    requires c !in s
    ensures c !in TrimStart(s)
  {
    if s != "" && Trimmable(s[0]) {
      StartKeepsOut(s[1..], c);
    }
  }

  lemma {:induction false} EndKeepsOut(s: string, c: char)
    requires c !in s
    ensures c !in TrimEnd(s)
  {
    if s != "" && Trimmable(s[|s| - 1]) {
      EndKeepsOut(s[..|s| - 1], c);
    }
  }

  lemma {:induction false} ChunksArePlain(ctx: RenderContext, h: Helpers, t: Template, trim: bool, c: char)
    requires SourceTemplate(t) && Pointerless(t) && PlainInputs(ctx, h, t, c)
    ensures AllExpanded(Expand(Defer(t))) && Pointerless(Expand(Defer(t)))
    ensures PlainChunks(Execute(ctx, h, Expand(Defer(t)), trim).result, c)
    decreases |t|
  {
    hide ContextWithout, HelpersKeepOut, Eval, Source, Expanded, ExpandExpr, DeferExpr, ExprWithout, Render.Trim,
      Before;
    DeferKeepsPointerless(t);
    ExpandExpandsAll(Defer(t));
    ExpandKeepsPointerless(Defer(t));
    if t != [] {
      assert SourceTemplate(t[1..]) && Pointerless(t[1..]) by { RestIsSource(t); }
      assert TemplateWithout(t[1..], c) by { assert forall i | 0 <= i < |t[1..]| :: t[1..][i] == t[i + 1]; }
      var dt := Expand(Defer(t));
      assert Defer(t)[1..] == Defer(t[1..]) && dt[1..] == Expand(Defer(t[1..]));
      assert dt[0] == ExpandPart(DeferPart(t[0]));
      match t[0] {
        case Literal(x) =>
          ChunksArePlain(ctx, h, t[1..], false, c);
          TrimmingKeepsOut(x, trim, NextTrims(dt[1..]), c);
          PutPlain(Value(Render.Trim(x, trim, NextTrims(dt[1..]))), false, Execute(ctx, h, dt[1..], false), c);
        case Action(_, e, _) =>
          ChunksArePlain(ctx, h, t[1..], TrimsRight(dt[0]), c);
          DeferredIsPlain(ctx, h, e, c);
          var first := Eval(ctx, h, ExpandExpr(DeferExpr(e)));
          if first.result.Success? {
            PutPlain(first.result.value, first.marked, Execute(ctx, h, dt[1..], TrimsRight(dt[0])), c);
          }
      }
    }
  }

  /** Success in plain chunks only. */
  predicate PlainChunks(r: Result<seq<Chunk>, RenderError>, c: char) {
    r.Success? ==> forall i | 0 <= i < |r.value| :: PlainChunk(r.value[i], c)
  }

  lemma PutPlain(k: Chunk, marked: bool, rest: Outcome<seq<Chunk>>, c: char)
    requires PlainChunk(k, c) && PlainChunks(rest.result, c)
    ensures PlainChunks(Before(k, marked, rest).result, c)
  {}

  // ---- Plain text is inert ----------------------------------------------------------

  lemma {:induction false} PlainIsRuntimeFree(s: string, c: char)
    requires Needed(c) && c !in s
    ensures RuntimeFree(s)
  {
    hide RuntimeName;
    if s != "" {
      assert |s| > 1 ==> s[1] in s;
      PlainIsRuntimeFree(s[1..], c);
    }
  }

  lemma {:induction false} PlainIsInert(cs: seq<Chunk>, run: string, c: char)
    requires Needed(c) && c !in run && forall i | 0 <= i < |cs| :: PlainChunk(cs[i], c)
    ensures Inert(cs, run)
    decreases |cs|
  {
    hide RuntimeFree;
    PlainIsRuntimeFree(run, c);
    if cs != [] {
      match cs[0] {
        case Value(t) => PlainIsInert(cs[1..], run + t, c);
        case Vault(_) => PlainIsInert(cs[1..], "", c);
      }
    }
  }

  /** When neither '$' or neither '{' is in the template's texts, in the values it
      can see or in what helpers make of them, deferred rendering followed by
      filling in the pointers is direct rendering. */
  lemma DeferredIsDirect(ctx: RenderContext, h: Helpers, t: Template, c: char)
    requires VaultHolds(ctx) && SourceTemplate(t) && Pointerless(t) && PlainInputs(ctx, h, t, c)
    ensures var deferred, direct := RenderChunks(ctx, h, Defer(t)).result, Rendered(RenderChunks(ctx, h, t)).result;
      match deferred
      case Failure(e) => direct == Failure(e)
      case Success(cs) => direct.Success? && Resolve(ctx.secrets, JoinChunks(cs)) == Some(direct.value)
  {
    hide VaultHolds, Execute, Resolve, Inert, SourceTemplate, PlainInputs;
    DeferralKeepsMeaning(ctx, h, t);
    DeferKeepsPointerless(t);
    ChunksArePlain(ctx, h, t, false, c);
    var deferred := RenderChunks(ctx, h, Defer(t)).result;
    if deferred.Success? {
      NeededHolds(ctx, h, t, c);
      PlainIsInert(deferred.value, "", c);
    }
  }

  lemma NeededHolds(ctx: RenderContext, h: Helpers, t: Template, c: char)
    requires PlainInputs(ctx, h, t, c)
    ensures Needed(c)
  {}
}
