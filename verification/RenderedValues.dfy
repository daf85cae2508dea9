/** What a template renders, spelled out: the value of every field a reference can
    name, and what is stored for a secret or a database credential. */
module RenderedValues {
  import opened Actions
  import opened DeferPrinting
  import opened Deferral
  import opened Printing
  import opened Render
  import opened RenderLaws
  import opened Syntax
  import opened Templates
  import opened Text
  import opened Wrappers

  // ---- One reference ---------------------------------------------------------------

  /** `{{ .collection.name.field }}`. */
  function RefTemplate(c: Collection, keys: seq<string>): Template {
    [Action(" ", Dot(Ref(c, keys)), " ")]
  }

  /** The template renders to the value; `marked` when it resolves a credential. */
  ghost predicate Renders(ctx: RenderContext, h: Helpers, t: Template, value: string, marked: bool) {
    Rendered(RenderChunks(ctx, h, t)) == Outcome(Success(value), marked)
  }

  ghost predicate Fails(ctx: RenderContext, h: Helpers, t: Template, e: RenderError) {
    Rendered(RenderChunks(ctx, h, t)).result == Failure(e)
  }

  lemma OneRef(ctx: RenderContext, h: Helpers, c: Collection, keys: seq<string>)
    ensures var t, o := RefTemplate(c, keys), Lookup(ctx, Ref(c, keys));
      && Rendered(RenderChunks(ctx, h, t)).result == o
      && Rendered(RenderChunks(ctx, h, t)).marked == Marks(Ref(c, keys))
  {
    hide Lookup, Marks;
    var t, e := RefTemplate(c, keys), Call(Ref(c, keys));
    assert t[1..] == [];
    assert Expand(t) == [Action(" ", e, " ")];
    OneExpanded(ctx, h, e);
  }

  /** A template of one action. */
  lemma OneExpanded(ctx: RenderContext, h: Helpers, e: Expr)
    requires Expanded(e)
    ensures var t := [Action(" ", e, " ")];
      && AllExpanded(t) && Pointerless(t)
      && Rendered(Execute(ctx, h, t, false)).marked == Eval(ctx, h, e).marked
      && Rendered(Execute(ctx, h, t, false)).result ==
         match Eval(ctx, h, e).result case Failure(x) => Failure(x) case Success(k) => Success(ChunkText(k))
  {
    hide Eval, Expanded;
    var t := [Action(" ", e, " ")];
    assert t[1..] == [];
    assert Execute(ctx, h, [], TrimsRight(t[0])) == Outcome(Success([]), false);
    if Eval(ctx, h, e).result.Success? {
      var k := Eval(ctx, h, e).result.value;
      assert [k] + [] == [k];
      OneChunk(k);
      assert Execute(ctx, h, t, false).result == Success([k]);
    }
  }

  lemma OneChunk(k: Chunk)
    ensures JoinChunks([k]) == ChunkText(k)
  {
    assert [k][0] == k && [k][1..] == [];
    assert JoinChunks([]) == "";
    assert ChunkText(k) + "" == ChunkText(k);
  }

  // ---- Databases ----------------------------------------------------------------------

  /** The fields of a database that has no restriction: host, port, user and name
      are shown, the password and the addresses are credentials. */
  lemma DatabaseFields(ctx: RenderContext, h: Helpers, n: string)
    requires n in ctx.databases
    ensures var c := ctx.databases[n];
      && Renders(ctx, h, RefTemplate(Databases, [n, "host"]), c.host, false)
      && Renders(ctx, h, RefTemplate(Databases, [n, "port"]), c.port, false)
      && Renders(ctx, h, RefTemplate(Databases, [n, "user"]), c.user, false)
      && Renders(ctx, h, RefTemplate(Databases, [n, "name"]), c.name, false)
      && Renders(ctx, h, RefTemplate(Databases, [n, "password"]), c.password, true)
      && Renders(ctx, h, RefTemplate(Databases, [n, "uri"]), c.uri, true)
      && Renders(ctx, h, RefTemplate(Databases, [n, "url"]), c.uri, true)
      && Renders(ctx, h, RefTemplate(Databases, [n]), c.uri, true)
  {
    hide Renders, ConnView.Field, CredentialField, HasPrefix;
    FieldsAre(ctx.databases[n]);
    CredentialsAre();
    DatabaseField(ctx, h, n, "host", ctx.databases[n].host, false);
    DatabaseField(ctx, h, n, "port", ctx.databases[n].port, false);
    DatabaseField(ctx, h, n, "user", ctx.databases[n].user, false);
    DatabaseField(ctx, h, n, "name", ctx.databases[n].name, false);
    DatabaseField(ctx, h, n, "password", ctx.databases[n].password, true);
    DatabaseField(ctx, h, n, "uri", ctx.databases[n].uri, true);
    DatabaseField(ctx, h, n, "url", ctx.databases[n].uri, true);
    BareDatabase(ctx, h, n);
  }

  lemma FieldsAre(c: ConnView)
    ensures c.Field("host") == Some(c.host) && c.Field("port") == Some(c.port) && c.Field("user") == Some(c.user)
    ensures c.Field("name") == Some(c.name) && c.Field("password") == Some(c.password)
    ensures c.Field("uri") == c.Field("url") == Some(c.uri)
  {}

  lemma ReadOnlyFieldsAre(c: ConnView)
    ensures c.Field("readonly_user") == Some(c.readOnlyUser)
    ensures c.Field("readonly_password") == Some(c.readOnlyPassword)
    ensures c.Field("readonly_uri") == c.Field("readonly_url") == Some(c.readOnlyUri)
  {}

  lemma CredentialsAre()
    ensures !CredentialField("host") && !CredentialField("port") && !CredentialField("user") && !CredentialField("name")
    ensures CredentialField("password") && CredentialField("uri") && CredentialField("url")
    ensures forall f | f in ["host", "port", "user", "name", "password", "uri", "url"] :: !HasPrefix(f, "readonly_")
  {}

  lemma ReadOnlyCredentialsAre()
    ensures !CredentialField("readonly_user") && CredentialField("readonly_password")
    ensures CredentialField("readonly_uri") && CredentialField("readonly_url")
    ensures HasPrefix("readonly_user", "readonly_") && HasPrefix("readonly_password", "readonly_")
    ensures HasPrefix("readonly_uri", "readonly_") && HasPrefix("readonly_url", "readonly_")
  {
    assert "readonly_user"[..9] == "readonly_" && "readonly_password"[..9] == "readonly_";
    assert "readonly_uri"[..9] == "readonly_" && "readonly_url"[..9] == "readonly_";
  }

  lemma DatabaseField(ctx: RenderContext, h: Helpers, n: string, f: string, value: string, marked: bool)
    requires n in ctx.databases && f != "" && ctx.databases[n].Field(f) == Some(value)
    requires CredentialField(f) == marked && !(value == "" && HasPrefix(f, "readonly_"))
    ensures Renders(ctx, h, RefTemplate(Databases, [n, f]), value, marked)
  {
    hide RefTemplate, Rendered, RenderChunks, HasPrefix, CredentialField;
    OneRef(ctx, h, Databases, [n, f]);
  }

  lemma BareDatabase(ctx: RenderContext, h: Helpers, n: string)
    requires n in ctx.databases
    ensures Renders(ctx, h, RefTemplate(Databases, [n]), ctx.databases[n].uri, true)
  {
    hide RefTemplate, Rendered, RenderChunks, HasPrefix;
    OneRef(ctx, h, Databases, [n]);
    UriIsNotReadOnly();
  }

  lemma UriIsNotReadOnly()
    ensures !HasPrefix("uri", "readonly_")
  {}

  /** The four read-only fields, which only a database with a read-only user has. */
  lemma ReadOnlyFields(ctx: RenderContext, h: Helpers, n: string)
    requires n in ctx.databases
    ensures var c := ctx.databases[n];
      && ReadOnlyField(ctx, h, n, "readonly_user", c.readOnlyUser, false)
      && ReadOnlyField(ctx, h, n, "readonly_password", c.readOnlyPassword, true)
      && ReadOnlyField(ctx, h, n, "readonly_uri", c.readOnlyUri, true)
      && ReadOnlyField(ctx, h, n, "readonly_url", c.readOnlyUri, true)
  {
    hide ReadOnlyField, ConnView.Field, CredentialField, HasPrefix;
    var c := ctx.databases[n];
    ReadOnlyFieldsAre(c);
    ReadOnlyCredentialsAre();
    ReadOnlyFieldIs(ctx, h, n, "readonly_user", c.readOnlyUser, false);
    ReadOnlyFieldIs(ctx, h, n, "readonly_password", c.readOnlyPassword, true);
    ReadOnlyFieldIs(ctx, h, n, "readonly_uri", c.readOnlyUri, true);
    ReadOnlyFieldIs(ctx, h, n, "readonly_url", c.readOnlyUri, true);
  }

  ghost predicate ReadOnlyField(ctx: RenderContext, h: Helpers, n: string, f: string, value: string, marked: bool) {
    if value == "" then Fails(ctx, h, RefTemplate(Databases, [n, f]), NoReadOnlyUser(n))
    else Renders(ctx, h, RefTemplate(Databases, [n, f]), value, marked)
  }

  lemma ReadOnlyFieldIs(ctx: RenderContext, h: Helpers, n: string, f: string, value: string, marked: bool)
    requires n in ctx.databases && f != "" && ctx.databases[n].Field(f) == Some(value)
    requires CredentialField(f) == marked && HasPrefix(f, "readonly_")
    ensures ReadOnlyField(ctx, h, n, f, value, marked)
  {
    hide RefTemplate, Rendered, RenderChunks, HasPrefix, CredentialField;
    OneRef(ctx, h, Databases, [n, f]);
  }

  /** Any other field is an error, and so is a name that is not there. */
  lemma UnknownNamesFail(ctx: RenderContext, h: Helpers, n: string, f: string)
    ensures n in ctx.databases && f !in ["", "host", "port", "user", "name", "password", "uri", "url",
                                         "readonly_user", "readonly_password", "readonly_uri", "readonly_url"]
      ==> Fails(ctx, h, RefTemplate(Databases, [n, f]), UnknownField(Databases, n, f))
    ensures n in ctx.apps && f !in ["", "host", "port", "scheme", "url", "alias"]
      ==> Fails(ctx, h, RefTemplate(Applications, [n, f]), UnknownField(Applications, n, f))
    ensures n !in ctx.databases ==> Fails(ctx, h, RefTemplate(Databases, [n, f]), UnknownName(Databases, n))
    ensures n !in ctx.apps ==> Fails(ctx, h, RefTemplate(Applications, [n, f]), UnknownName(Applications, n))
    ensures n !in ctx.secrets ==> Fails(ctx, h, RefTemplate(Secrets, [n]), UnknownName(Secrets, n))
    ensures n !in ctx.inputs ==> Fails(ctx, h, RefTemplate(Inputs, [n]), UnknownName(Inputs, n))
  {
    OneRef(ctx, h, Databases, [n, f]);
    OneRef(ctx, h, Applications, [n, f]);
    OneRef(ctx, h, Secrets, [n]);
    OneRef(ctx, h, Inputs, [n]);
    hide RefTemplate, Rendered, RenderChunks, HasPrefix;
  }

  // ---- Applications, secrets and inputs ---------------------------------------------

  /** The fields of an application. Its address leaves out a port that is not set,
      and takes "http" for a scheme that is not. */
  lemma ApplicationFields(ctx: RenderContext, h: Helpers, n: string)
    requires n in ctx.apps
    ensures var a := ctx.apps[n];
      && Renders(ctx, h, RefTemplate(Applications, [n, "host"]), a.host, false)
      && Renders(ctx, h, RefTemplate(Applications, [n, "port"]), a.port, false)
      && Renders(ctx, h, RefTemplate(Applications, [n, "scheme"]), a.scheme, false)
      && Renders(ctx, h, RefTemplate(Applications, [n, "alias"]), a.alias, false)
      && Renders(ctx, h, RefTemplate(Applications, [n, "url"]), Address(a), false)
      && Renders(ctx, h, RefTemplate(Applications, [n]), Address(a), false)
  {
    var a := ctx.apps[n];
    ApplicationField(ctx, h, n, "host", a.host);
    ApplicationField(ctx, h, n, "port", a.port);
    ApplicationField(ctx, h, n, "scheme", a.scheme);
    ApplicationField(ctx, h, n, "alias", a.alias);
    AddressIs(a);
    ApplicationField(ctx, h, n, "url", Address(a));
    BareApplication(ctx, h, n);
    hide Renders;
  }

  /** An application's address: scheme, host, and the port if it has one. */
  function Address(a: AppView): string {
    match (a.scheme == "", a.port == "" || a.port == "0")
    case (true, true) => "http://" + a.host
    case (true, false) => "http://" + a.host + ":" + a.port
    case (false, true) => a.scheme + "://" + a.host
    case (false, false) => a.scheme + "://" + a.host + ":" + a.port
  }

  lemma AddressIs(a: AppView)
    ensures a.Url() == Address(a)
  {
    assert "http" + "://" == "http://";
  }

  lemma ApplicationField(ctx: RenderContext, h: Helpers, n: string, f: string, value: string)
    requires n in ctx.apps && f != "" && ctx.apps[n].Field(f) == Some(value)
    ensures Renders(ctx, h, RefTemplate(Applications, [n, f]), value, false)
  {
    hide RefTemplate, Rendered, RenderChunks, HasPrefix, CredentialField;
    OneRef(ctx, h, Applications, [n, f]);
  }

  lemma BareApplication(ctx: RenderContext, h: Helpers, n: string)
    requires n in ctx.apps
    ensures Renders(ctx, h, RefTemplate(Applications, [n]), Address(ctx.apps[n]), false)
  {
    hide RefTemplate, Rendered, RenderChunks, HasPrefix;
    OneRef(ctx, h, Applications, [n]);
    AddressIs(ctx.apps[n]);
  }

  /** A secret renders its value, which is a credential; an input renders its own. */
  lemma PlainFields(ctx: RenderContext, h: Helpers, n: string)
    ensures n in ctx.secrets ==> Renders(ctx, h, RefTemplate(Secrets, [n]), ctx.secrets[n], true)
    ensures n in ctx.inputs ==> Renders(ctx, h, RefTemplate(Inputs, [n]), ctx.inputs[n], false)
  {
    hide RefTemplate, Rendered, RenderChunks;
    OneRef(ctx, h, Secrets, [n]);
    OneRef(ctx, h, Inputs, [n]);
  }

  // ---- What is stored ------------------------------------------------------------------

  /** A secret name the worker can fill in: a letter, and up to 62 letters, digits,
      underscores or dashes. */
  predicate FillableName(n: string) {
    && 1 <= |n| <= 63 && ('a' <= n[0] <= 'z' || 'A' <= n[0] <= 'Z')
    && forall c | c in n :: 'a' <= c <= 'z' || 'A' <= c <= 'Z' || '0' <= c <= '9' || c == '_' || c == '-'
  }

  lemma FillableIsSecretName(n: string)
    ensures FillableName(n) <==> SecretName(n)
  {
    if n != "" {
      assert n[0] in n;
    }
  }

  /** What RenderEnv stores for a value, and whether it tracks its key. */
  ghost predicate Stores(ctx: RenderContext, h: Helpers, t: Template, value: string, tracked: bool) {
    RenderValue(ctx, h, t) == Outcome(Success(value), tracked)
  }

  function Pointing(n: string): string {
    "${{ secrets." + n + " }}"
  }

  lemma DeferredRef(ctx: RenderContext, h: Helpers, c: Collection, keys: seq<string>, e: Expr)
    requires DeferExpr(Dot(Ref(c, keys))) == e && Expanded(ExpandExpr(e))
    ensures var o, t := Eval(ctx, h, ExpandExpr(e)), RefTemplate(c, keys);
      && RenderValue(ctx, h, t).marked == o.marked
      && RenderValue(ctx, h, t).result
        == match o.result case Failure(x) => Failure(x) case Success(k) => Success(ChunkText(k))
  {
    hide Eval, DeferExpr, ExpandExpr, Expanded;
    var t := RefTemplate(c, keys);
    assert t[1..] == [];
    assert Defer(t) == [Action(" ", e, " ")];
    var dt := Defer(t);
    assert dt[1..] == [];
    assert Expand(dt) == [Action(" ", ExpandExpr(e), " ")];
    OneExpanded(ctx, h, ExpandExpr(e));
  }

  /** A secret of such a name is stored as a pointer, and so is a pointer to it,
      and nothing is tracked; a name that is too long renders its value. */
  lemma SecretsAreDeferred(ctx: RenderContext, h: Helpers, n: string)
    requires n in ctx.secrets
    ensures FillableName(n) ==> Stores(ctx, h, RefTemplate(Secrets, [n]), Pointing(n), false)
    ensures FillableName(n) ==> Stores(ctx, h, [Pointer(" ", n, " ")], Pointing(n), false)
    ensures !FillableName(n) ==> Stores(ctx, h, RefTemplate(Secrets, [n]), ctx.secrets[n], true)
  {
    hide RefTemplate, RenderValue;
    FillableIsSecretName(n);
    if FillableName(n) {
      DeferredRef(ctx, h, Secrets, [n], SecretPointer(n));
      PointerStores(ctx, h, n);
    } else {
      DeferredRef(ctx, h, Secrets, [n], Dot(Ref(Secrets, [n])));
    }
  }

  lemma PointerStores(ctx: RenderContext, h: Helpers, n: string)
    requires n in ctx.secrets
    ensures Stores(ctx, h, [Pointer(" ", n, " ")], Pointing(n), false)
  {
    var t := [Pointer(" ", n, " ")];
    assert t[1..] == [];
    assert Defer(t) == [Action(" ", SecretPointer(n), " ")];
    var dt := Defer(t);
    assert dt[1..] == [];
    assert Expand(dt) == [Action(" ", SecretPointer(n), " ")];
    OneExpanded(ctx, h, SecretPointer(n));
  }

  /** A database credential is stored as a pointer to the vault entry that holds
      it, and else as its value, with its key tracked. */
  lemma DatabasesAreDeferred(ctx: RenderContext, h: Helpers, n: string)
    requires n in ctx.databases
    ensures var c := ctx.databases[n];
      && StoresCredential(ctx, h, RefTemplate(Databases, [n]), c.uriSecret, c.uri)
      && StoresCredential(ctx, h, RefTemplate(Databases, [n, "uri"]), c.uriSecret, c.uri)
      && StoresCredential(ctx, h, RefTemplate(Databases, [n, "url"]), c.uriSecret, c.uri)
      && StoresCredential(ctx, h, RefTemplate(Databases, [n, "password"]), c.passwordSecret, c.password)
  {
    CredentialIsStored(ctx, h, n, [n], "", ctx.databases[n].uriSecret, ctx.databases[n].uri);
    CredentialIsStored(ctx, h, n, [n, "uri"], "uri", ctx.databases[n].uriSecret, ctx.databases[n].uri);
    CredentialIsStored(ctx, h, n, [n, "url"], "url", ctx.databases[n].uriSecret, ctx.databases[n].uri);
    CredentialIsStored(ctx, h, n, [n, "password"], "password", ctx.databases[n].passwordSecret,
      ctx.databases[n].password);
    hide StoresCredential;
  }

  lemma CredentialIsStored(ctx: RenderContext, h: Helpers, n: string, keys: seq<string>, f: string, entry: string,
                           value: string)
    requires n in ctx.databases && f in ["", "uri", "url", "password"] && keys == if f == "" then [n] else [n, f]
    requires entry == if f == "password" then ctx.databases[n].passwordSecret else ctx.databases[n].uriSecret
    requires value == if f == "password" then ctx.databases[n].password else ctx.databases[n].uri
    ensures StoresCredential(ctx, h, RefTemplate(Databases, keys), entry, value)
  {
    hide RefTemplate, RenderValue, Lookup, Marks;
    DeferredRef(ctx, h, Databases, keys, DatabasePointer(n, f));
    CredentialLooksUp(ctx, n, keys, f, value);
  }

  lemma CredentialLooksUp(ctx: RenderContext, n: string, keys: seq<string>, f: string, value: string)
    requires n in ctx.databases && f in ["", "uri", "url", "password"] && keys == if f == "" then [n] else [n, f]
    requires value == if f == "password" then ctx.databases[n].password else ctx.databases[n].uri
    ensures DatabaseRef(n, f) == Ref(Databases, keys)
    ensures Lookup(ctx, DatabaseRef(n, f)) == Success(value) && Marks(DatabaseRef(n, f))
  {
    CredentialsAre();
    hide HasPrefix, CredentialField;
  }

  ghost predicate StoresCredential(ctx: RenderContext, h: Helpers, t: Template, entry: string, value: string) {
    if entry != ""
      && entry in ctx.secrets then Stores(ctx, h, t, Pointing(entry), false) else Stores(ctx, h, t, value, true)
  }

  /** The other fields of a database are stored as they are. */
  lemma ShownFieldsAreStored(ctx: RenderContext, h: Helpers, n: string)
    requires n in ctx.databases
    ensures var c := ctx.databases[n];
      && Stores(ctx, h, RefTemplate(Databases, [n, "host"]), c.host, false)
      && Stores(ctx, h, RefTemplate(Databases, [n, "port"]), c.port, false)
      && Stores(ctx, h, RefTemplate(Databases, [n, "user"]), c.user, false)
      && Stores(ctx, h, RefTemplate(Databases, [n, "name"]), c.name, false)
  {
    hide Stores, ConnView.Field, CredentialField, HasPrefix;
    var c := ctx.databases[n];
    FieldsAre(c);
    CredentialsAre();
    ShownFieldIsStored(ctx, h, n, "host", c.host);
    ShownFieldIsStored(ctx, h, n, "port", c.port);
    ShownFieldIsStored(ctx, h, n, "user", c.user);
    ShownFieldIsStored(ctx, h, n, "name", c.name);
  }

  lemma ShownFieldIsStored(ctx: RenderContext, h: Helpers, n: string, f: string, value: string)
    requires n in ctx.databases && ctx.databases[n].Field(f) == Some(value) && !CredentialField(f)
    requires f in ["host", "port", "user", "name"] && !HasPrefix(f, "readonly_")
    ensures Stores(ctx, h, RefTemplate(Databases, [n, f]), value, false)
  {
    hide RefTemplate, RenderValue, HasPrefix, CredentialField, ConnView.Field;
    DeferredRef(ctx, h, Databases, [n, f], Dot(Ref(Databases, [n, f])));
  }

  /** What an environment of one such value comes to. */
  lemma OneVariable(ctx: RenderContext, h: Helpers, key: string, t: Template, value: string, tracked: bool)
    requires Stores(ctx, h, t, value, tracked)
    ensures RenderValue(ctx, h, map[key := t][key]).result == Success(value)
    ensures Tracked(ctx, h, map[key := t]) == if tracked && key != "" then {key} else {}
  {
    hide RenderValue;
  }

  // ---- The same on the text ----------------------------------------------------------

  lemma OneActionShows(l: string, e: Expr, r: string)
    ensures Show([Action(l, e, r)]) == "{{" + l + ShowExpr(e) + r + "}}"
  {
    hide ShowExpr;
    var t := [Action(l, e, r)];
    assert t[1..] == [];
    assert Show(t) == ShowPart(t[0]) + "";
    assert "{{" + (l + ShowExpr(e) + r) + "}}" == "{{" + l + ShowExpr(e) + r + "}}";
  }

  lemma OneActionDefers(e: Expr)
    requires WellFormed(e)
    ensures DeferSecrets("{{ " + ShowExpr(e) + " }}") == "{{ " + ShowExpr(DeferExpr(e)) + " }}"
  {
    hide ShowExpr, WellFormed, DeferExpr, DeferSecrets;
    var t := [Action(" ", e, " ")];
    assert t[1..] == [];
    assert Blanks(" ");
    assert TemplateWellFormed(t);
    DeferPrints(t);
    assert Defer(t) == [Action(" ", DeferExpr(e), " ")];
    OneActionShows(" ", e, " ");
    OneActionShows(" ", DeferExpr(e), " ");
    Padded(ShowExpr(e));
    Padded(ShowExpr(DeferExpr(e)));
  }

  lemma Padded(x: string)
    ensures "{{" + " " + x + " " + "}}" == "{{ " + x + " }}"
  {}

  lemma NameIsRef(n: string, c: Collection)
    requires IsName(n)
    ensures IsRef(Ref(c, [n])) && Dotted([n]) == "." + n
  {
    assert [n][1..] == [];
    assert Dotted([n]) == "." + n + "";
  }

  /** The text of a secret reference becomes a call, if the worker can fill in the
      name, and is left alone otherwise. */
  lemma SecretText(n: string)
    requires IsName(n)
    ensures DeferSecrets("{{ " + ".secrets." + n + " }}") ==
      if FillableName(n) then "{{ " + ("secretRef \"" + n + "\"") + " }}" else "{{ " + ".secrets." + n + " }}"
  {
    hide IsName, DeferSecrets;
    var e := Dot(Ref(Secrets, [n]));
    NameIsRef(n, Secrets);
    FillableIsSecretName(n);
    SecretShows(n);
    OneActionDefers(e);
  }

  lemma SecretShows(n: string)
    requires Dotted([n]) == "." + n
    ensures "{{ " + ShowExpr(Dot(Ref(Secrets, [n]))) + " }}" == "{{ " + ".secrets." + n + " }}"
    ensures ShowExpr(SecretPointer(n)) == "secretRef \"" + n + "\""
  {
    hide Dotted;
    assert ShowExpr(Dot(Ref(Secrets, [n]))) == ".secrets" + ("." + n);
    assert ".secrets" + ("." + n) == ".secrets." + n;
  }

  /** How a template that refers to a field is written. */
  lemma RefText(n: string, f: string)
    ensures Show(RefTemplate(Databases, [n, f])) == "{{ " + (".databases." + n + "." + f) + " }}"
    ensures Show(RefTemplate(Applications, [n, f])) == "{{ " + (".applications." + n + "." + f) + " }}"
    ensures Show(RefTemplate(Databases, [n])) == "{{ " + (".databases." + n) + " }}"
    ensures Show(RefTemplate(Applications, [n])) == "{{ " + (".applications." + n) + " }}"
    ensures Show(RefTemplate(Secrets, [n])) == "{{ " + (".secrets." + n) + " }}"
    ensures Show(RefTemplate(Inputs, [n])) == "{{ " + (".inputs." + n) + " }}"
  {
    hide Show;
    WrittenRefs(n, f);
    hide Written;
    RefShows(Databases, [n, f]);
    RefShows(Applications, [n, f]);
    RefShows(Databases, [n]);
    RefShows(Applications, [n]);
    RefShows(Secrets, [n]);
    RefShows(Inputs, [n]);
  }

  lemma RefShows(c: Collection, keys: seq<string>)
    ensures Show(RefTemplate(c, keys)) == "{{ " + Written(Ref(c, keys)) + " }}"
  {
    hide Show, Written;
    OneActionShows(" ", Dot(Ref(c, keys)), " ");
    Padded(Written(Ref(c, keys)));
  }

  lemma DottedTwo(n: string, f: string)
    ensures Dotted([n]) == "." + n && Dotted([n, f]) == "." + n + "." + f
  {
    assert [n, f][1..] == [f] && [n][1..] == [] && [f][1..] == [];
    assert Dotted([f]) == "." + f + "" && Dotted([n]) == "." + n + "";
    assert Dotted([n, f]) == "." + n + ("." + f);
  }

  lemma WrittenRefs(n: string, f: string)
    ensures Written(Ref(Databases, [n, f])) == ".databases." + n + "." + f
    ensures Written(Ref(Applications, [n, f])) == ".applications." + n + "." + f
    ensures Written(Ref(Databases, [n])) == ".databases." + n && Written(Ref(Applications, [n])) == ".applications." + n
    ensures Written(Ref(Secrets, [n])) == ".secrets." + n && Written(Ref(Inputs, [n])) == ".inputs." + n
  {
    hide Dotted;
    DottedTwo(n, f);
    WrittenOf(Databases, n, f);
    WrittenOf(Applications, n, f);
    WrittenOf(Secrets, n, f);
    WrittenOf(Inputs, n, f);
    assert Prefix(Databases) + "." == ".databases." && Prefix(Applications) + "." == ".applications.";
    assert Prefix(Secrets) + "." == ".secrets." && Prefix(Inputs) + "." == ".inputs.";
    hide Written, Prefix;
  }

  lemma WrittenOf(c: Collection, n: string, f: string)
    ensures Written(Ref(c, [n])) == Prefix(c) + "." + n && Written(Ref(c, [n, f])) == Prefix(c) + "." + n + "." + f
  {
    hide Dotted, Prefix;
    DottedTwo(n, f);
  }
}
