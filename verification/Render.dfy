/** Rendering: evaluating a template against the secrets, databases and
    applications of a workspace, and noting which values resolved a credential. */
module Render {
  import opened Deferral
  import opened Sorting
  import opened StringSorting
  import opened Syntax
  import opened Templates
  import opened Text
  import opened Wrappers

  // ---- What templates can see ------------------------------------------------

  datatype ConnView = ConnView(
    host: string,
    port: string,
    user: string,
    password: string,
    name: string,
    uri: string,
    readOnlyUser: string,
    readOnlyPassword: string,
    readOnlyUri: string,
    passwordSecret: string,
    uriSecret: string)
  {
    /** The value of a field a reference may name. */
    function Field(f: string): Option<string> {
      if f == "host" then Some(host)
      else if f == "port" then Some(port)
      else if f == "user" then Some(user)
      else if f == "password" then Some(password)
      else if f == "name" then Some(name)
      else if f == "uri" || f == "url" then Some(uri)
      else if f == "readonly_user" then Some(readOnlyUser)
      else if f == "readonly_password" then Some(readOnlyPassword)
      else if f == "readonly_uri" || f == "readonly_url" then Some(readOnlyUri)
      else None
    }
  }

  datatype AppView = AppView(host: string, port: string, scheme: string, alias: string) {
    function Url(): string {
      var s := if scheme == "" then "http" else scheme;
      if port == "" || port == "0" then s + "://" + host else s + "://" + host + ":" + port
    }

    function Field(f: string): Option<string> {
      if f == "host" then Some(host)
      else if f == "port" then Some(port)
      else if f == "scheme" then Some(scheme)
      else if f == "url" then Some(Url())
      else if f == "alias" then Some(alias)
      else None
    }
  }

  datatype RenderContext = RenderContext(
    inputs: map<string, string>,
    databases: map<string, ConnView>,
    apps: map<string, AppView>,
    secrets: map<string, string>)

  datatype RenderError =
    | UnknownName(collection: Collection, name: string)
    | UnknownField(collection: Collection, name: string, field: string)
    | NoReadOnlyUser(name: string)
    | NoName(collection: Collection)
    | HelperFailed(fn: string)
    | NotATemplate

  /** The deterministic template functions; None when one refuses its arguments. */
  type Helpers = (string, seq<string>) -> Option<string>

  /** What an evaluation gives, and whether a credential was resolved on the way. */
  datatype Outcome<T> = Outcome(result: Result<T, RenderError>, marked: bool)

  // ---- ref ---------------------------------------------------------------------

  predicate CredentialField(f: string) {
    f in ["password", "uri", "url", "readonly_password", "readonly_uri", "readonly_url"]
  }

  predicate Marks(r: Ref) {
    r.keys != []
    && (r.collection == Secrets || (r.collection == Databases && (r.Field() == "" || CredentialField(r.Field()))))
  }

  function OrDefault(f: string, default: string): string {
    if f == "" then default else f
  }

  function FromDatabase(c: ConnView, name: string, field: string): Result<string, RenderError> {
    match c.Field(field)
    case None => Failure(UnknownField(Databases, name, field))
    case Some(v) => if v == "" && HasPrefix(field, "readonly_") then Failure(NoReadOnlyUser(name)) else Success(v)
  }

  function FromApp(a: AppView, name: string, field: string): Result<string, RenderError> {
    match a.Field(field)
    case None => Failure(UnknownField(Applications, name, field))
    case Some(v) => Success(v)
  }

  /** The value of a reference. */
  function Lookup(ctx: RenderContext, r: Ref): Result<string, RenderError> {
    var name := r.Name();
    if r.keys == [] then Failure(NoName(r.collection))
    else
      match r.collection
      case Inputs => if name in ctx.inputs then Success(ctx.inputs[name]) else Failure(UnknownName(Inputs, name))
      case Secrets => if name in ctx.secrets then Success(ctx.secrets[name]) else Failure(UnknownName(Secrets, name))
      case Databases =>
        if name in ctx.databases then FromDatabase(ctx.databases[name], name, OrDefault(r.Field(), "uri"))
        else Failure(UnknownName(Databases, name))
      case Applications =>
        if name in ctx.apps then FromApp(ctx.apps[name], name, OrDefault(r.Field(), "url"))
        else Failure(UnknownName(Applications, name))
  }

  function PointerText(name: string): string {
    "${{ secrets." + name + " }}"
  }

  /** A pointer names one vault entry. */
  lemma PointerTextDecides(a: string, b: string)
    requires PointerText(a) == PointerText(b)
    ensures a == b
  {
    var p, q := PointerText(a), PointerText(b);
    assert |a| == |b| && p[12..12 + |a|] == a && q[12..12 + |b|] == b;
  }

  /** The vault entry that stands for a database credential. */
  function VaultEntry(c: ConnView, field: string): string {
    if field == "password" then c.passwordSecret else c.uriSecret
  }

  function DatabaseRef(name: string, field: string): Ref {
    Ref(Databases, if field == "" then [name] else [name, field])
  }

  // ---- Evaluation ------------------------------------------------------------------

  /** A piece of rendered text: a value, or a pointer into the vault. */
  datatype Chunk = Value(text: string) | Vault(name: string)

  function ChunkText(c: Chunk): string {
    match c
    case Value(t) => t
    case Vault(n) => PointerText(n)
  }

  function Evaluated(r: Result<string, RenderError>, marked: bool): Outcome<Chunk> {
    match r
    case Success(v) => Outcome(Success(Value(v)), marked)
    case Failure(e) => Outcome(Failure(e), marked)
  }

  function EvalSecretPointer(ctx: RenderContext, name: string): Outcome<Chunk> {
    if name in ctx.secrets then Outcome(Success(Vault(name)), false)
    else Outcome(Failure(UnknownName(Secrets, name)), false)
  }

  function EvalDatabasePointer(ctx: RenderContext, name: string, field: string): Outcome<Chunk> {
    if name !in ctx.databases then Outcome(Failure(UnknownName(Databases, name)), false)
    else
      var entry := VaultEntry(ctx.databases[name], field);
      if entry != "" && entry in ctx.secrets then Outcome(Success(Vault(entry)), false)
      else Evaluated(Lookup(ctx, DatabaseRef(name, field)), Marks(DatabaseRef(name, field)))
  }

  function Help(h: Helpers, fn: string, args: seq<string>): Result<string, RenderError> {
    match h(fn, args)
    case Some(v) => Success(v)
    case None => Failure(HelperFailed(fn))
  }

  /** One expression; a failed operand ends the evaluation. */
  function Eval(ctx: RenderContext, h: Helpers, e: Expr): Outcome<Chunk>
    requires Expanded(e)
    decreases e
  {
    match e
    case Call(r) => Evaluated(Lookup(ctx, r), Marks(r))
    case SecretPointer(n) => EvalSecretPointer(ctx, n)
    case DatabasePointer(n, f) => EvalDatabasePointer(ctx, n, f)
    case Quoted(t) => Outcome(Success(Value(t)), false)
    case Apply(fn, args) =>
      var vs := EvalArgs(ctx, h, args);
      (match vs.result
       case Failure(x) => Outcome(Failure(x), vs.marked)
       case Success(xs) => Evaluated(Help(h, fn, xs), vs.marked))
    case Pipe(from, fn, args) =>
      var first := Eval(ctx, h, from);
      match first.result
      case Failure(x) => Outcome(Failure(x), first.marked)
      case Success(v) =>
        var vs := EvalArgs(ctx, h, args);
        match vs.result
        case Failure(x) => Outcome(Failure(x), first.marked || vs.marked)
        case Success(xs) => Evaluated(Help(h, fn, xs + [ChunkText(v)]), first.marked || vs.marked)
  }

  /** Arguments from left to right. */
  function EvalArgs(ctx: RenderContext, h: Helpers, args: Args): Outcome<seq<string>>
    requires ArgsExpanded(args)
    decreases args
  {
    match args
    case NoArgs => Outcome(Success([]), false)
    case Arg(e, rest) =>
      var first := Eval(ctx, h, e);
      match first.result
      case Failure(x) => Outcome(Failure(x), first.marked)
      case Success(v) =>
        var vs := EvalArgs(ctx, h, rest);
        match vs.result
        case Failure(x) => Outcome(Failure(x), first.marked || vs.marked)
        case Success(xs) => Outcome(Success([ChunkText(v)] + xs), first.marked || vs.marked)
  }

  // ---- Whole templates -----------------------------------------------------------------

  /** The characters a trim marker removes. */
  predicate Trimmable(c: char) {
    c == ' ' || c == '\t' || c == '\r' || c == '\n'
  }

  function TrimStart(s: string): string {
    if s != "" && Trimmable(s[0]) then TrimStart(s[1..]) else s
  }

  function TrimEnd(s: string): string {
    if s != "" && Trimmable(s[|s| - 1]) then TrimEnd(s[..|s| - 1]) else s
  }

  predicate TrimsLeft(p: Part) {
    p.Action? && p.left != "" && p.left[0] == '-'
  }

  predicate TrimsRight(p: Part) {
    p.Action? && p.right != "" && p.right[|p.right| - 1] == '-'
  }

  /** Literal text with the trimming its neighbours ask for. */
  function Trim(text: string, before: bool, after: bool): string {
    var s := if before then TrimStart(text) else text;
    if after then TrimEnd(s) else s
  }

  function NextTrims(t: Template): bool {
    t != [] && TrimsLeft(t[0])
  }

  /** Executes the parts in order, up to the first failure. */
  function Execute(ctx: RenderContext, h: Helpers, t: Template, trim: bool): Outcome<seq<Chunk>>
    requires AllExpanded(t) && Pointerless(t)
  {
    if t == [] then Outcome(Success([]), false)
    else
      assert PartExpanded(t[0]) && !t[0].Pointer?;
      assert AllExpanded(t[1..]) && Pointerless(t[1..]);
      match t[0]
      case Literal(x) => Before(Value(Trim(x, trim, NextTrims(t[1..]))), false, Execute(ctx, h, t[1..], false))
      case Action(_, e, _) =>
        var first := Eval(ctx, h, e);
        match first.result
        case Failure(x) => Outcome(Failure(x), first.marked)
        case Success(c) => Before(c, first.marked, Execute(ctx, h, t[1..], TrimsRight(t[0])))
  }

  function Before(c: Chunk, marked: bool, rest: Outcome<seq<Chunk>>): Outcome<seq<Chunk>> {
    match rest.result
    case Success(cs) => Outcome(Success([c] + cs), marked || rest.marked)
    case Failure(x) => Outcome(Failure(x), marked || rest.marked)
  }

  function JoinChunks(cs: seq<Chunk>): string {
    if cs == [] then "" else ChunkText(cs[0]) + JoinChunks(cs[1..])
  }

  /** RenderString: references are expanded, and a `${{ ... }}` left in the text
      is an action no template function answers to. */
  function RenderChunks(ctx: RenderContext, h: Helpers, t: Template): Outcome<seq<Chunk>> {
    if Pointerless(t) then
      ExpandExpandsAll(t);
      ExpandKeepsPointerless(t);
      Execute(ctx, h, Expand(t), false)
    else Outcome(Failure(NotATemplate), false)
  }

  lemma ExpandKeepsPointerless(t: Template)
    requires Pointerless(t)
    ensures Pointerless(Expand(t))
  {
    ExpandExpandsAll(t);
    forall i | 0 <= i < |t|
      ensures !Expand(t)[i].Pointer?
    {
      assert Expand(t)[i] == ExpandPart(t[i]);
    }
  }

  function Rendered(o: Outcome<seq<Chunk>>): Outcome<string> {
    match o.result
    case Success(cs) => Outcome(Success(JoinChunks(cs)), o.marked)
    case Failure(e) => Outcome(Failure(e), o.marked)
  }

  /** What RenderEnv makes of one value. */
  function RenderValue(ctx: RenderContext, h: Helpers, t: Template): Outcome<string> {
    Rendered(RenderChunks(ctx, h, Defer(t)))
  }

  type Env = map<string, Template>

  /** The keys RenderEnv reports as credentials: markCredential ignores the empty key. */
  function Tracked(ctx: RenderContext, h: Helpers, env: Env): set<string> {
    set k | k in env && k != "" && RenderValue(ctx, h, env[k]).marked
  }

  /** The same, of the values that rendered. */
  function TrackedRendered(ctx: RenderContext, h: Helpers, env: Env): set<string> {
    set k | k in env && k != "" && RenderValue(ctx, h, env[k]).marked && RenderValue(ctx, h, env[k]).result.Success?
  }

  function LenientValue(ctx: RenderContext, h: Helpers, t: Template): string {
    match RenderValue(ctx, h, t).result
    case Success(v) => v
    case Failure(_) => Show(t)
  }

  /** The credential map once `key` has, or has not, resolved a credential. */
  function AfterMark(credential: Option<set<string>>, key: string, marks: bool): Option<set<string>> {
    if marks && key != "" && credential.Some? then Some(credential.value + {key}) else credential
  }

  // ---- The renderer ------------------------------------------------------------------------

  class Renderer {
    const ctx: RenderContext
    const h: Helpers
    var cur: string
    var credential: Option<set<string>>

    constructor (ctx: RenderContext, h: Helpers)
      ensures this.ctx == ctx && this.h == h && cur == "" && credential == None
    {
      this.ctx := ctx;
      this.h := h;
      cur := "";
      credential := None;
    }

    method MarkCredential()
      modifies this`credential
      ensures credential == AfterMark(old(credential), cur, true)
    {
      if cur != "" && credential.Some? {
        credential := Some(credential.value + {cur});
      }
    }

    method Ref(r: Templates.Ref) returns (out: Result<string, RenderError>)
      modifies this`credential
      ensures out == Lookup(ctx, r)
      ensures credential == AfterMark(old(credential), cur, Marks(r))
    {
      if r.keys == [] {
        return Failure(NoName(r.collection));
      }
      var name, field := r.Name(), r.Field();
      if r.collection == Secrets || (r.collection == Databases && (field == "" || CredentialField(field))) {
        MarkCredential();
      }
      match r.collection {
        case Inputs =>
          out := if name in ctx.inputs then Success(ctx.inputs[name]) else Failure(UnknownName(Inputs, name));
        case Secrets =>
          out := if name in ctx.secrets then Success(ctx.secrets[name]) else Failure(UnknownName(Secrets, name));
        case Databases =>
          if name !in ctx.databases {
            return Failure(UnknownName(Databases, name));
          }
          if field == "" {
            field := "uri";
          }
          var v := ctx.databases[name].Field(field);
          if v.None? {
            return Failure(UnknownField(Databases, name, field));
          }
          if v.value == "" && HasPrefix(field, "readonly_") {
            return Failure(NoReadOnlyUser(name));
          }
          out := Success(v.value);
        case Applications =>
          if name !in ctx.apps {
            return Failure(UnknownName(Applications, name));
          }
          if field == "" {
            field := "url";
          }
          var v := ctx.apps[name].Field(field);
          if v.None? {
            return Failure(UnknownField(Applications, name, field));
          }
          out := Success(v.value);
      }
    }

    /** Prints the pointer to a vault entry that exists, whatever it holds, and
        never counts as resolving a credential. */
    method SecretRef(name: string) returns (out: Outcome<Chunk>)
      ensures out.result.Success? <==> name in ctx.secrets
      ensures out.result.Success? ==> out.result.value.Vault? && ChunkText(out.result.value) == PointerText(name)
      ensures out.result.Failure? ==> out.result.error == UnknownName(Secrets, name)
      ensures !out.marked
    {
      if name !in ctx.secrets {
        return Outcome(Failure(UnknownName(Secrets, name)), false);
      }
      out := Outcome(Success(Vault(name)), false);
    }

    method DatabaseSecretRef(name: string, field: string) returns (out: Outcome<Chunk>)
      modifies this`credential
      ensures out == EvalDatabasePointer(ctx, name, field)
      ensures credential == AfterMark(old(credential), cur, out.marked)
    {
      if name !in ctx.databases {
        return Outcome(Failure(UnknownName(Databases, name)), false);
      }
      var secret := ctx.databases[name].uriSecret;
      if field == "password" {
        secret := ctx.databases[name].passwordSecret;
      }
      if secret != "" && secret in ctx.secrets {
        return Outcome(Success(Vault(secret)), false);
      }
      var v := Ref(DatabaseRef(name, field));
      out := Evaluated(v, Marks(DatabaseRef(name, field)));
    }

    method Evaluate(e: Expr) returns (out: Outcome<Chunk>)
      requires Expanded(e)
      modifies this`credential
      ensures out == Eval(ctx, h, e)
      ensures credential == AfterMark(old(credential), cur, out.marked)
      decreases e
    {
      match e {
        case Call(r) =>
          var v := Ref(r);
          out := Evaluated(v, Marks(r));
        case SecretPointer(n) =>
          out := SecretRef(n);
          if out.result.Success? {
            PointerTextDecides(out.result.value.name, n);
          }
        case DatabasePointer(n, f) => out := DatabaseSecretRef(n, f);
        case Quoted(t) => out := Outcome(Success(Value(t)), false);
        case Apply(fn, args) =>
          var vs := EvaluateArgs(args);
          match vs.result {
            case Failure(x) => out := Outcome(Failure(x), vs.marked);
            case Success(xs) => out := Evaluated(Help(h, fn, xs), vs.marked);
          }
        case Pipe(from, fn, args) =>
          var first := Evaluate(from);
          match first.result {
            case Failure(x) => out := Outcome(Failure(x), first.marked);
            case Success(v) =>
              var vs := EvaluateArgs(args);
              match vs.result {
                case Failure(x) => out := Outcome(Failure(x), first.marked || vs.marked);
                case Success(xs) => out := Evaluated(Help(h, fn, xs + [ChunkText(v)]), first.marked || vs.marked);
              }
          }
      }
    }

    method EvaluateArgs(args: Args) returns (out: Outcome<seq<string>>)
      requires ArgsExpanded(args)
      modifies this`credential
      ensures out == EvalArgs(ctx, h, args)
      ensures credential == AfterMark(old(credential), cur, out.marked)
      decreases args
    {
      match args {
        case NoArgs => out := Outcome(Success([]), false);
        case Arg(e, rest) =>
          var first := Evaluate(e);
          match first.result {
            case Failure(x) => out := Outcome(Failure(x), first.marked);
            case Success(v) =>
              var vs := EvaluateArgs(rest);
              match vs.result {
                case Failure(x) => out := Outcome(Failure(x), first.marked || vs.marked);
                case Success(xs) => out := Outcome(Success([ChunkText(v)] + xs), first.marked || vs.marked);
              }
          }
      }
    }

    method ExecuteParts(t: Template, trim: bool) returns (out: Outcome<seq<Chunk>>)
      requires AllExpanded(t) && Pointerless(t)
      modifies this`credential
      ensures out == Execute(ctx, h, t, trim)
      ensures credential == AfterMark(old(credential), cur, out.marked)
      decreases |t|
    {
      if t == [] {
        return Outcome(Success([]), false);
      }
      assert PartExpanded(t[0]) && !t[0].Pointer?;
      assert AllExpanded(t[1..]) && Pointerless(t[1..]);
      match t[0] {
        case Literal(x) =>
          var rest := ExecuteParts(t[1..], false);
          out := Before(Value(Trim(x, trim, NextTrims(t[1..]))), false, rest);
        case Action(_, e, _) =>
          var first := Evaluate(e);
          match first.result {
            case Failure(x) => out := Outcome(Failure(x), first.marked);
            case Success(c) =>
              var rest := ExecuteParts(t[1..], TrimsRight(t[0]));
              out := Before(c, first.marked, rest);
          }
      }
    }

    method RenderString(t: Template) returns (out: Outcome<string>)
      modifies this`credential
      ensures out == Rendered(RenderChunks(ctx, h, t))
      ensures credential == AfterMark(old(credential), cur, out.marked)
    {
      if !Pointerless(t) {
        return Outcome(Failure(NotATemplate), false);
      }
      ExpandExpandsAll(t);
      ExpandKeepsPointerless(t);
      var cs := ExecuteParts(Expand(t), false);
      out := Rendered(cs);
    }

    /** Renders one value under its key. */
    method RenderKey(k: string, t: Template) returns (out: Outcome<string>)
      modifies this
      ensures cur == k && out == RenderValue(ctx, h, t)
      ensures credential == AfterMark(old(credential), k, out.marked)
    {
      cur := k;
      out := RenderString(Defer(t));
    }

    /** Renders every value or fails; the keys may come in any order. */
    method RenderEnv(env: Env) returns (out: Result<map<string, string>, RenderError>)
      modifies this
      ensures cur == ""
      ensures out.Success? <==> forall k | k in env :: RenderValue(ctx, h, env[k]).result.Success?
      ensures out.Success? ==> out.value == (map k | k in env :: RenderValue(ctx, h, env[k]).result.value)
      ensures out.Success? ==> credential == Some(Tracked(ctx, h, env))
      ensures out.Failure? ==> exists k | k in env :: RenderValue(ctx, h, env[k]).result == Failure(out.error)
    {
      hide RenderValue;
      credential := Some({});
      var values: map<string, string> := map[];
      var todo := env.Keys;
      assert TrackedOutside(ctx, h, env, todo) == {};
      while todo != {}
        invariant todo <= env.Keys
        invariant forall k | k in env && k !in todo :: RenderValue(ctx, h, env[k]).result.Success?
        invariant values == map k | k in env && k !in todo :: RenderValue(ctx, h, env[k]).result.value
        invariant credential == Some(TrackedOutside(ctx, h, env, todo))
        decreases todo
      {
        var k :| k in todo;
        TrackedGrows(ctx, h, env, todo, k);
        var v := RenderKey(k, env[k]);
        match v.result {
          case Failure(e) =>
            cur := "";
            return Failure(e);
          case Success(s) => values := values[k := s];
        }
        todo := todo - {k};
      }
      cur := "";
      assert TrackedOutside(ctx, h, env, {}) == Tracked(ctx, h, env);
      out := Success(values);
    }

    /** Renders what it can and leaves the rest as its template. */
    method RenderEnvLenient(env: Env) returns (out: map<string, string>)
      modifies this
      ensures cur == ""
      ensures out == map k | k in env :: LenientValue(ctx, h, env[k])
      ensures credential == Some(TrackedRendered(ctx, h, env))
    {
      hide RenderValue;
      credential := Some({});
      out := map[];
      var todo := env.Keys;
      assert RenderedOutside(ctx, h, env, todo) == {};
      while todo != {}
        invariant todo <= env.Keys
        invariant out == map k | k in env && k !in todo :: LenientValue(ctx, h, env[k])
        invariant credential == Some(RenderedOutside(ctx, h, env, todo))
        decreases todo
      {
        var k :| k in todo;
        RenderedGrows(ctx, h, env, todo, k);
        ghost var before := RenderedOutside(ctx, h, env, todo);
        var v := RenderKey(k, env[k]);
        match v.result {
          case Failure(_) =>
            assert before + {k} - {k} == before == before - {k};
            credential := Some(credential.value - {k});
            out := out[k := Show(env[k])];
          case Success(s) => out := out[k := s];
        }
        todo := todo - {k};
      }
      cur := "";
      assert RenderedOutside(ctx, h, env, {}) == TrackedRendered(ctx, h, env);
    }

    /** The tracked keys in order. */
    method CredentialKeys() returns (out: seq<string>)
      ensures out == SortedSet(if credential.Some? then credential.value else {})
    {
      var keys := if credential.Some? then credential.value else {};
      out := [];
      var todo := keys;
      while todo != {}
        invariant todo <= keys
        invariant NoDuplicates(out) && Elements(out) == keys - todo
        decreases todo
      {
        var k :| k in todo;
        Append(out, k);
        out := out + [k];
        todo := todo - {k};
      }
      StringsAreOrdered(keys);
      SortIsAscending(Less, out, keys);
      out := Sort(Less, out);
    }
  }

  ghost function SortedSet(keys: set<string>): (xs: seq<string>)
    ensures Arranges(Less, xs, keys)
  {
    StringsAreOrdered(keys);
    Ascending(Less, keys)
  }

  ghost function TrackedOutside(ctx: RenderContext, h: Helpers, env: Env, todo: set<string>): set<string> {
    set k | k in env && k !in todo && k != "" && RenderValue(ctx, h, env[k]).marked
  }

  lemma TrackedGrows(ctx: RenderContext, h: Helpers, env: Env, todo: set<string>, k: string)
    requires k in env && k in todo
    ensures Some(TrackedOutside(ctx, h, env, todo - {k}))
         == AfterMark(Some(TrackedOutside(ctx, h, env, todo)), k, RenderValue(ctx, h, env[k]).marked)
  {
    hide RenderValue;
    var before, after := TrackedOutside(ctx, h, env, todo), TrackedOutside(ctx, h, env, todo - {k});
    if k != "" && RenderValue(ctx, h, env[k]).marked {
      assert after == before + {k};
    } else {
      assert after == before;
    }
  }

  ghost function RenderedOutside(ctx: RenderContext, h: Helpers, env: Env, todo: set<string>): set<string> {
    set k | k in env && k !in todo && k != "" && RenderValue(ctx, h, env[k]).marked
      && RenderValue(ctx, h, env[k]).result.Success?
  }

  lemma RenderedGrows(ctx: RenderContext, h: Helpers, env: Env, todo: set<string>, k: string)
    requires k in env && k in todo
    ensures var before := RenderedOutside(ctx, h, env, todo);
      var v := RenderValue(ctx, h, env[k]);
      RenderedOutside(ctx, h, env, todo - {k})
      == (if v.result.Success? then AfterMark(Some(before), k, v.marked).value else before)
    ensures k !in RenderedOutside(ctx, h, env, todo)
  {
    hide RenderValue;
  }
}
