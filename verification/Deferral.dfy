/** Deferring secrets: an action that is nothing but a secret, or a database
    credential, becomes a call that renders a `${{ secrets.NAME }}` pointer
    for the worker to fill in, and so does a pointer already in the text. */
module Deferral {
  import opened Actions
  import opened Templates
  import opened Text
  import opened Wrappers

  // ---- Secret names and pointers --------------------------------------------

  const NAME_LIMIT := 63

  predicate Letter(c: char) {
    'A' <= c <= 'Z' || 'a' <= c <= 'z'
  }

  /** [A-Za-z][A-Za-z0-9_-]{0,62} */
  predicate SecretName(n: string) {
    IsName(n) && Letter(n[0]) && |n| <= NAME_LIMIT
  }

  const SECRETS_DOT := "secrets."

  /** The name between the braces of a runtime reference. */
  function RuntimeName(inner: string): (n: Option<string>)
    ensures n.Some? ==> SecretName(n.value)
  {
    var start := RunEnd(inner, 0, Blank);
    if !HasPrefix(inner[start..], SECRETS_DOT) then None
    else
      var rest := inner[start + |SECRETS_DOT|..];
      var e := RunEnd(rest, 0, NameChar);
      if SecretName(rest[..e]) && RunEnd(rest, e, Blank) == |rest| then Some(rest[..e]) else None
  }

  /** A match of runtimeSecretRef at the front: the action after its dollar. */
  function RuntimeAt(s: string): (a: Option<string>)
    ensures a.Some? ==> IsAction(a.value) && RuntimeName(Body(a.value)).Some? && "$" + a.value <= s
  {
    if s == "" || s[0] != '$' then None
    else
      match ActionAt(s[1..])
      case Some(a) => if RuntimeName(Body(a)).Some? then Some(a) else None
      case None => None
  }

  /** ReplaceAllString of runtimeSecretRef, the replacement given by name. */
  function ReplaceRuntime(s: string, g: string -> string): string
    decreases |s|
  {
    if s == "" then ""
    else
      match RuntimeAt(s)
      case Some(a) => g(RuntimeName(Body(a)).value) + ReplaceRuntime(s[|a| + 1..], g)
      case None => [s[0]] + ReplaceRuntime(s[1..], g)
  }

  /** The names runtime references in `s` give, in order. */
  function RuntimeNames(s: string): seq<string>
    decreases |s|
  {
    if s == "" then []
    else
      match RuntimeAt(s)
      case Some(a) => [RuntimeName(Body(a)).value] + RuntimeNames(s[|a| + 1..])
      case None => RuntimeNames(s[1..])
  }

  // ---- Pure actions ---------------------------------------------------------------

  /** End of -?\s* at the front. */
  function LeadEnd(body: string): (e: nat)
    ensures e <= |body|
  {
    RunEnd(body, if body != "" && body[0] == '-' then 1 else 0, Blank)
  }

  /** All of `t` is \s*-? */
  predicate IsTail(t: string) {
    t[RunEnd(t, 0, Blank)..] in ["", "-"]
  }

  datatype Pure =
    | PureSecret(name: string)
    | PureDatabase(name: string, field: string)

  datatype PureAction = PureAction(lead: string, what: Pure, tail: string)

  /** A secret name at the front, and what follows it. */
  function SecretIn(r: string): Option<(Pure, string)> {
    var run := RunEnd(r, 0, NameChar);
    var e := if run <= NAME_LIMIT then run else NAME_LIMIT;
    if SecretName(r[..e]) && IsTail(r[e..]) then Some((PureSecret(r[..e]), r[e..])) else None
  }

  function SecretAfter(rest: string): Option<(Pure, string)> {
    if HasPrefix(rest, ".secrets.") then SecretIn(rest[9..]) else None
  }

  function CredentialSuffix(s: string): (f: string)
    ensures f in ["", "password", "uri", "url"]
    ensures f != "" ==> HasPrefix(s, "." + f)
  {
    if HasPrefix(s, ".password") then "password"
    else if HasPrefix(s, ".uri") then "uri"
    else if HasPrefix(s, ".url") then "url"
    else ""
  }

  /** A database name at the front, the credential it names, and what follows. */
  function DatabaseIn(r: string): Option<(Pure, string)> {
    var e := RunEnd(r, 0, NameChar);
    var field := CredentialSuffix(r[e..]);
    if e == 0 then None
    else if field != "" && IsTail(r[e..][|field| + 1..]) then Some((PureDatabase(r[..e], field), r[e..][|field| + 1..]))
    else if IsTail(r[e..]) then Some((PureDatabase(r[..e], ""), r[e..]))
    else None
  }

  function DatabaseAfter(rest: string): Option<(Pure, string)> {
    if HasPrefix(rest, ".databases.") then DatabaseIn(rest[11..]) else None
  }

  /** pureSecretAction and pureDatabaseAction on what is between the braces. */
  function PureOf(body: string): Option<PureAction> {
    var lead, rest := body[..LeadEnd(body)], body[LeadEnd(body)..];
    match SecretAfter(rest)
    case Some((p, tail)) => Some(PureAction(lead, p, tail))
    case None =>
      match DatabaseAfter(rest)
      case Some((p, tail)) => Some(PureAction(lead, p, tail))
      case None => None
  }

  function PureCall(p: Pure): string {
    match p
    case PureSecret(n) => "secretRef \"" + n + "\""
    case PureDatabase(n, f) => "databaseSecretRef \"" + n + "\" \"" + f + "\""
  }

  function DeferAction(a: string): string {
    if !IsAction(a) then a
    else
      match PureOf(Body(a))
      case Some(p) => "{{" + p.lead + PureCall(p.what) + p.tail + "}}"
      case None => a
  }

  /** What a runtime reference in the text becomes before actions are read. */
  function SecretCall(name: string): string {
    "{{ secretRef \"" + name + "\" }}"
  }

  function DeferSecrets(s: string): string {
    ReplaceActions(ReplaceRuntime(s, SecretCall), DeferAction)
  }

  // ---- Shapes ----------------------------------------------------------------------

  predicate NoneOf(s: string, c: char, d: char) {
    c !in s && d !in s
  }

  lemma {:induction false} BlanksAreSafe(s: string, i: nat, e: nat)
    requires i <= e <= |s| && forall k | i <= k < e :: Blank(s[k])
    ensures NoneOf(s[i..e], '}', '$')
  {
    forall c | c in s[i..e]
      ensures Blank(c)
    {
      var k :| 0 <= k < |s[i..e]| && s[i..e][k] == c;
      assert s[i..e][k] == s[i + k];
    }
  }

  lemma LeadIsSafe(body: string)
    ensures NoneOf(body[..LeadEnd(body)], '}', '$')
  {
    var i := if body != "" && body[0] == '-' then 1 else 0;
    var e := LeadEnd(body);
    BlanksAreSafe(body, i, e);
    assert body[..e] == body[..i] + body[i..e];
  }

  lemma TailIsSafe(t: string)
    requires IsTail(t)
    ensures NoneOf(t, '}', '$')
  {
    var e := RunEnd(t, 0, Blank);
    BlanksAreSafe(t, 0, e);
    assert t == t[0..e] + t[e..];
  }

  lemma NameIsSafe(n: string)
    requires IsName(n)
    ensures NoneOf(n, '}', '$')
  {}

  predicate SafePure(p: Pure) {
    match p
    case PureSecret(n) => SecretName(n)
    case PureDatabase(n, f) => IsName(n) && f in ["", "password", "uri", "url"]
  }

  lemma SecretAfterIsSafe(rest: string)
    ensures SecretAfter(rest).Some? ==>
      SafePure(SecretAfter(rest).value.0) && NoneOf(SecretAfter(rest).value.1, '}', '$')
  {
    if SecretAfter(rest).Some? {
      TailIsSafe(SecretAfter(rest).value.1);
    }
  }

  lemma DatabaseAfterIsSafe(rest: string)
    ensures DatabaseAfter(rest).Some? ==>
      SafePure(DatabaseAfter(rest).value.0) && NoneOf(DatabaseAfter(rest).value.1, '}', '$')
  {
    if DatabaseAfter(rest).Some? {
      TailIsSafe(DatabaseAfter(rest).value.1);
      var r := rest[11..];
      assert forall c | c in r[..RunEnd(r, 0, NameChar)] :: NameChar(c);
    }
  }

  lemma PureIsSafe(body: string)
    requires PureOf(body).Some?
    ensures var p := PureOf(body).value;
      NoneOf(p.lead, '}', '$') && SafePure(p.what) && NoneOf(p.tail, '}', '$')
  {
    hide SecretAfter, DatabaseAfter, SafePure;
    LeadIsSafe(body);
    SecretAfterIsSafe(body[LeadEnd(body)..]);
    DatabaseAfterIsSafe(body[LeadEnd(body)..]);
  }

  /** The characters a pointer call is made of. */
  predicate CallChars(s: string) {
    forall c | c in s :: NameChar(c) || c == ' ' || c == '"'
  }

  lemma CallCharsJoin(a: string, b: string)
    requires CallChars(a) && CallChars(b)
    ensures CallChars(a + b)
  {}

  lemma CallLiterals()
    ensures CallChars("secretRef \"") && CallChars("databaseSecretRef \"") && CallChars("\"") && CallChars("\" \"")
  {}

  lemma FieldChars(f: string)
    requires f in ["", "password", "uri", "url"]
    ensures CallChars(f)
  {}

  lemma NameChars(n: string)
    requires IsName(n)
    ensures CallChars(n)
  {}

  lemma PureCallChars(p: Pure)
    requires SafePure(p)
    ensures CallChars(PureCall(p))
  {
    hide CallChars, IsName;
    NameChars(p.name);
    CallLiterals();
    match p {
      case PureSecret(n) =>
        CallCharsJoin("secretRef \"", n);
        CallCharsJoin("secretRef \"" + n, "\"");
      case PureDatabase(n, f) =>
        FieldChars(f);
        CallCharsJoin("databaseSecretRef \"", n);
        CallCharsJoin("databaseSecretRef \"" + n, "\" \"");
        CallCharsJoin("databaseSecretRef \"" + n + "\" \"", f);
        CallCharsJoin("databaseSecretRef \"" + n + "\" \"" + f, "\"");
    }
  }

  lemma PureCallIsSafe(p: Pure)
    requires SafePure(p)
    ensures NoneOf(PureCall(p), '}', '$') && '.' !in PureCall(p) && '{' !in PureCall(p)
  {
    hide PureCall, SafePure;
    PureCallChars(p);
  }

  /** The deferred body and why it is an action again. */
  lemma DeferredShape(a: string)
    requires IsAction(a) && PureOf(Body(a)).Some?
    ensures var p := PureOf(Body(a)).value;
      var b := p.lead + PureCall(p.what) + p.tail;
      DeferAction(a) == "{{" + b + "}}" && NoneOf(b, '}', '$') && IsAction(DeferAction(a)) && Body(DeferAction(a)) == b
  {
    hide PureOf, PureCall, SafePure, IsAction;
    var p := PureOf(Body(a)).value;
    var b := p.lead + PureCall(p.what) + p.tail;
    PureIsSafe(Body(a));
    PureCallIsSafe(p.what);
    PlainNeverCloses(b, "");
    assert b + "" == b;
    ActionShape(b);
    assert DeferAction(a) == "{{" + b + "}}";
  }

  lemma DeferKeepsActions()
    ensures KeepsActions(DeferAction)
  {
    hide PureOf, PureCall, IsAction;
    forall a | IsAction(a)
      ensures IsAction(DeferAction(a))
    {
      if PureOf(Body(a)).Some? {
        DeferredShape(a);
      }
    }
  }

  // ---- A deferred action is not deferred again -----------------------------------

  /** A lead read back before any other text. */
  lemma LeadReadsBack(body: string, c: char, x: string)
    requires !Blank(c) && c != '-'
    ensures var lead := body[..LeadEnd(body)];
      LeadEnd(lead + [c] + x) == |lead| && (lead + [c] + x)[|lead|..] == [c] + x
  {
    var i := if body != "" && body[0] == '-' then 1 else 0;
    var lead := body[..LeadEnd(body)];
    RunStops(lead, c, x, i, Blank);
    assert forall k | i <= k < |lead| :: Blank(lead[k]);
    RunOfAll(lead, i, Blank);
    assert (lead + [c] + x)[|lead|..] == [c] + x;
    assert lead != "" ==> (lead + [c] + x)[0] == lead[0] == body[0];
    assert lead == "" ==> (lead + [c] + x)[0] == c;
  }

  lemma {:induction false} RunOfAll(s: string, i: nat, p: char -> bool)
    requires i <= |s| && forall k | i <= k < |s| :: p(s[k])
    ensures RunEnd(s, i, p) == |s|
    decreases |s| - i
  {
    if i < |s| {
      RunOfAll(s, i + 1, p);
    }
  }

  lemma PureCallStarts(p: Pure)
    ensures var call := PureCall(p);
      call != "" && !Blank(call[0]) && call[0] != '-' && call[0] != '.'
    ensures forall x :: !HasPrefix(PureCall(p) + x, SECRETS_DOT)
  {
    forall x
      ensures !HasPrefix(PureCall(p) + x, SECRETS_DOT)
    {
      assert (PureCall(p) + x)[0] == PureCall(p)[0];
      assert p.PureSecret? ==> (PureCall(p) + x)[6] == 'R';
      assert SECRETS_DOT[6] == 's' && SECRETS_DOT[0] == 's';
    }
  }

  lemma DotlessIsNotPure(rest: string)
    requires rest == "" || rest[0] != '.'
    ensures SecretAfter(rest).None? && DatabaseAfter(rest).None?
  {}

  lemma DeferActionIsIdempotent(a: string)
    ensures DeferAction(DeferAction(a)) == DeferAction(a)
  {
    hide PureOf, PureCall, IsAction;
    if IsAction(a) && PureOf(Body(a)).Some? {
      DeferredShape(a);
      DeferredIsNotPure(Body(a));
    }
  }

  lemma DeferredIsNotPure(body: string)
    requires PureOf(body).Some?
    ensures var p := PureOf(body).value; PureOf(p.lead + PureCall(p.what) + p.tail).None?
  {
    hide PureCall, SecretAfter, DatabaseAfter, LeadEnd;
    var p := PureOf(body).value;
    var call := PureCall(p.what);
    PureCallStarts(p.what);
    var x := call[1..] + p.tail;
    assert p.lead + call + p.tail == p.lead + [call[0]] + x;
    LeadReadsBack(body, call[0], x);
    DotlessIsNotPure([call[0]] + x);
  }

  /** A deferred action after a dollar is no runtime reference. */
  lemma DeferredIsNoRuntime(body: string)
    requires PureOf(body).Some?
    ensures var p := PureOf(body).value; RuntimeName(p.lead + PureCall(p.what) + p.tail).None?
  {
    hide PureCall, SecretAfter, DatabaseAfter;
    var p := PureOf(body).value;
    var call := PureCall(p.what);
    PureCallStarts(p.what);
    var x := call[1..] + p.tail;
    var inner := p.lead + call + p.tail;
    assert inner == p.lead + [call[0]] + x;
    assert [call[0]] + x == call + p.tail;
    if p.lead != "" && p.lead[0] == '-' {
      assert inner[0] == '-' && inner[0..] == inner;
    } else {
      LeadReadsBack(body, call[0], x);
      assert RunEnd(inner, 0, Blank) == |p.lead|;
      assert inner[|p.lead|..] == call + p.tail;
    }
  }

  // ---- Nothing left to defer -----------------------------------------------------------

  /** No runtime reference starts anywhere in `s`. */
  predicate RuntimeFree(s: string) {
    s == "" || (RuntimeAt(s).None? && RuntimeFree(s[1..]))
  }

  lemma {:induction false} RuntimeFreeIsKept(s: string, g: string -> string)
    requires RuntimeFree(s)
    ensures ReplaceRuntime(s, g) == s && RuntimeNames(s) == []
  {
    if s != "" {
      RuntimeFreeIsKept(s[1..], g);
    }
  }

  lemma {:induction false} RuntimeFreeAfter(s: string, n: nat)
    requires RuntimeFree(s) && n <= |s|
    ensures RuntimeFree(s[n..])
  {
    if n > 0 {
      RuntimeFreeAfter(s[1..], n - 1);
      assert s[1..][n - 1..] == s[n..];
    }
  }

  lemma {:induction false} DollarlessIsRuntimeFree(a: string, b: string)
    requires '$' !in a
    ensures RuntimeFree(a + b) <==> RuntimeFree(b)
  {
    if a == "" {
      assert a + b == b;
    } else {
      DollarlessIsRuntimeFree(a[1..], b);
      assert (a + b)[1..] == a[1..] + b && (a + b)[0] == a[0];
    }
  }

  /** A text that ends in braces, or in what is left of them. */
  predicate ClosedText(x: string) {
    x == "" || x == "}" || (|x| >= 2 && x[|x| - 2..] == "}}")
  }

  lemma {:induction false} ClosedTextCloses(x: string)
    requires |x| >= 2 && x[|x| - 2..] == "}}"
    ensures CloseAt(x).Some?
  {
    if |x| > 2 {
      assert x[1..][|x| - 3..] == x[|x| - 2..];
      ClosedTextCloses(x[1..]);
    }
  }

  /** Nothing after a closed text changes whether it starts with a reference. */
  lemma RuntimeAtIsLocal(x: string, y: string)
    requires x != "" && ClosedText(x)
    ensures RuntimeAt(x + y) == RuntimeAt(x)
  {
    hide RuntimeName;
    assert (x + y)[0] == x[0];
    if x[0] == '$' {
      var t := x[1..];
      assert |x| >= 2 && x[|x| - 2..][0] == '}';
      assert |x| > 2;
      assert (x + y)[1..] == t + y && t[|t| - 2..] == x[|x| - 2..];
      ActionAtIsLocal(t, y);
    }
  }

  lemma ActionAtIsLocal(t: string, y: string)
    requires |t| >= 2 && t[|t| - 2..] == "}}"
    ensures ActionAt(t + y) == ActionAt(t)
  {
    if Opens(t) {
      assert t[|t| - 2] == t[|t| - 2..][0] && t[|t| - 1] == t[|t| - 2..][1];
      assert |t| >= 4;
      assert t[2..][|t| - 4..] == t[|t| - 2..];
      ClosedTextCloses(t[2..]);
      var n := CloseAt(t[2..]).value;
      CloseIsLocal(t[2..], n, t[2..][n + 2..] + y);
      assert (t + y)[2..] == t[2..][..n + 2] + (t[2..][n + 2..] + y);
      assert (t + y)[..n + 4] == t[..n + 4];
    }
  }

  lemma {:induction false} RuntimeFreeRejoins(x: string, y: string, z: string)
    requires ClosedText(x) && RuntimeFree(x + y) && RuntimeFree(z)
    ensures RuntimeFree(x + z)
  {
    hide RuntimeAt, ClosedText;
    if x == "" {
      assert x + z == z;
    } else {
      RuntimeAtIsLocal(x, y);
      RuntimeAtIsLocal(x, z);
      assert (x + y)[1..] == x[1..] + y && (x + z)[1..] == x[1..] + z;
      ClosedTextShrinks(x);
      RuntimeFreeRejoins(x[1..], y, z);
    }
  }

  lemma ClosedTextShrinks(x: string)
    requires ClosedText(x) && x != ""
    ensures ClosedText(x[1..])
  {
    assert |x| > 2 ==> x[1..][|x| - 3..] == x[|x| - 2..];
    assert |x| == 2 ==> x[1..] == x[|x| - 2..][1..];
  }

  lemma ActionIsClosed(a: string)
    requires IsAction(a)
    ensures ClosedText(a)
  {
    ActionHasBody(a);
    assert a == "{{" + Body(a) + "}}";
    assert a[|a| - 2..] == "}}";
  }

  /** Deferring pure actions makes no runtime reference. */
  lemma {:induction false} DeferStaysRuntimeFree(u: string)
    requires RuntimeFree(u)
    ensures RuntimeFree(ReplaceActions(u, DeferAction))
    decreases |u|
  {
    hide PureOf, PureCall, IsAction, RuntimeName, RuntimeAt;
    if u == "" {
    } else if ActionAt(u).Some? {
      var a := ActionAt(u).value;
      assert u == a + u[|a|..];
      var z := ReplaceActions(u[|a|..], DeferAction);
      RuntimeFreeAfter(u, |a|);
      DeferStaysRuntimeFree(u[|a|..]);
      if PureOf(Body(a)).Some? {
        DeferredShape(a);
        DollarlessIsRuntimeFree(DeferAction(a), z);
      } else {
        ActionIsClosed(a);
        RuntimeFreeRejoins(a, u[|a|..], z);
      }
    } else {
      DeferStaysRuntimeFree(u[1..]);
      var z := ReplaceActions(u[1..], DeferAction);
      assert ([u[0]] + z)[1..] == z;
      NoRuntimeBefore(u);
    }
  }

  lemma NoRuntimeBefore(u: string)
    requires u != "" && RuntimeAt(u).None?
    ensures RuntimeAt([u[0]] + ReplaceActions(u[1..], DeferAction)).None?
  {
    hide PureOf, PureCall, IsAction, RuntimeName;
    var t := u[1..];
    var z := ReplaceActions(t, DeferAction);
    assert ([u[0]] + z)[1..] == z;
    DeferKeepsActions();
    if u[0] == '$' && t != "" {
      if ActionAt(t).Some? {
        var a := ActionAt(t).value;
        ActionAtAction(DeferAction(a), ReplaceActions(t[|a|..], DeferAction));
        if PureOf(Body(a)).Some? {
          DeferredShape(a);
          DeferredIsNoRuntime(Body(a));
        }
      } else {
        NoActionStays(t, DeferAction);
      }
    }
  }

  // ---- Pointers in the text ----------------------------------------------------------------

  /** Where the first runtime reference starts, or the length. */
  function FirstRuntime(s: string): (n: nat)
    ensures n <= |s|
  {
    if s == "" || RuntimeAt(s).Some? then 0 else 1 + FirstRuntime(s[1..])
  }

  lemma NoPointersInNothing(g: string -> string)
    ensures ReplaceRuntime("", g) == "" && RuntimeNames("") == []
  {}

  lemma RuntimePassesOne(s: string, g: string -> string)
    requires s != "" && RuntimeAt(s).None?
    ensures ReplaceRuntime(s, g) == [s[0]] + ReplaceRuntime(s[1..], g) && RuntimeNames(s) == RuntimeNames(s[1..])
  {}

  lemma ShiftOne(s: string, z: string, n: nat)
    requires s != "" && n <= |s| - 1 && s[1..][..n] <= z
    ensures s[..n + 1] <= [s[0]] + z && s == [s[0]] + s[1..]
    ensures s[1..][n..] == s[n + 1..] && ([s[0]] + z)[n + 1..] == z[n..]
  {
    assert s[..n + 1] == [s[0]] + s[1..][..n];
  }

  lemma {:induction false} ReplaceRuntimeUpToFirst(s: string, g: string -> string)
    ensures var n := FirstRuntime(s);
      s[..n] <= ReplaceRuntime(s, g)
      && (if n < |s| then RuntimeAt(s[n..]).Some? && ReplaceRuntime(s, g)[n..] == ReplaceRuntime(s[n..], g)
          else ReplaceRuntime(s, g) == s)
  {
    hide RuntimeAt, ReplaceRuntime;
    if s == "" {
      NoPointersInNothing(g);
    } else if RuntimeAt(s).Some? {
      assert s[0..] == s;
    } else {
      RuntimePassesOne(s, g);
      ReplaceRuntimeUpToFirst(s[1..], g);
      ShiftOne(s, ReplaceRuntime(s[1..], g), FirstRuntime(s[1..]));
    }
  }

  lemma SecretCallShape(n: string)
    requires SecretName(n)
    ensures var b := " secretRef \"" + n + "\" ";
      SecretCall(n) == "{{" + b + "}}" && '$' !in SecretCall(n) && IsAction(SecretCall(n)) && Body(SecretCall(n)) == b
  {
    hide IsAction;
    var b := " secretRef \"" + n + "\" ";
    NameIsSafe(n);
    PlainNeverCloses(b, "");
    assert b + "" == b;
    ActionShape(b);
    assert SecretCall(n) == "{{" + b + "}}";
  }

  lemma SecretCallIsNoRuntime(n: string)
    ensures RuntimeName(" secretRef \"" + n + "\" ").None?
    ensures RuntimeName("{ secretRef \"" + n + "\" ").None?
  {
    var x := " secretRef \"" + n + "\" ";
    assert x[1] == 's' && !Blank(x[1]) && x[1..][6] == 'R';
    assert RunEnd(x, 1, Blank) == 1;
    assert RunEnd(x, 0, Blank) == 1;
    var y := "{ secretRef \"" + n + "\" ";
    assert y[0] == '{' && RunEnd(y, 0, Blank) == 0 && y[0..][0] == '{';
    assert SECRETS_DOT[6] == 's' && SECRETS_DOT[0] == 's';
  }

  lemma {:induction false} RuntimeNameIsPlain(inner: string)
    requires RuntimeName(inner).Some?
    ensures '{' !in inner && '$' !in inner
  {
    var start := RunEnd(inner, 0, Blank);
    var rest := inner[start + 8..];
    var e := RunEnd(rest, 0, NameChar);
    assert inner[start..][..8] == SECRETS_DOT;
    forall k | 0 <= k < |inner|
      ensures inner[k] != '{' && inner[k] != '$'
    {
      if start <= k < start + 8 {
        assert inner[k] == inner[start..][..8][k - start];
      } else if k >= start + 8 {
        assert inner[k] == rest[k - start - 8];
      }
    }
  }

  /** A dollar before a text whose pointers were turned into calls starts a
      pointer only if it did before. */
  lemma CallsMakeNoRuntime(s: string)
    requires s != "" && RuntimeAt(s).None?
    ensures RuntimeAt([s[0]] + ReplaceRuntime(s[1..], SecretCall)).None?
  {
    hide RuntimeName, IsAction, ReplaceRuntime, ActionAt;
    var z := ReplaceRuntime(s[1..], SecretCall);
    assert ([s[0]] + z)[1..] == z;
    if s[0] == '$' && ActionAt(z).Some? {
      ActionAfterCalls(s[1..]);
    }
  }

  /** An action at the front after the replacement is the one that was there,
      or it holds a call and cannot be read as a pointer. */
  lemma ActionAfterCalls(t: string)
    requires ActionAt(ReplaceRuntime(t, SecretCall)).Some?
    ensures var a := ActionAt(ReplaceRuntime(t, SecretCall)).value;
      ActionAt(t) == Some(a) || RuntimeName(Body(a)).None?
  {
    hide RuntimeName, IsAction, SecretCall, ActionAt, RuntimeAt;
    var z := ReplaceRuntime(t, SecretCall);
    var a := ActionAt(z).value;
    var n := FirstRuntime(t);
    ReplaceRuntimeUpToFirst(t, SecretCall);
    if |a| <= n || n == |t| {
      assert a == t[..|a|] by { PrefixOfPrefix(a, t, z, n); }
      assert t == a + t[|a|..];
      ActionAtAction(a, t[|a|..]);
    } else {
      var call := RuntimeAt(t[n..]).value;
      var w := RuntimeName(Body(call)).value;
      var y := ReplaceRuntime(t[n..][|call| + 1..], SecretCall);
      assert z[n..] == SecretCall(w) + y;
      CallInsideAction(z, a, n, w, y);
    }
  }

  lemma PrefixOfPrefix(a: string, t: string, z: string, n: nat)
    requires n <= |t| && t[..n] <= z && a <= z && (|a| <= n || (n == |t| && z == t))
    ensures |a| <= |t| && a == t[..|a|]
  {
    if |a| <= n {
      assert a == z[..n][..|a|];
    }
  }

  lemma CallInsideAction(z: string, a: string, n: nat, w: string, y: string)
    requires SecretName(w) && IsAction(a) && a <= z && n < |a| && n <= |z| && z[n..] == SecretCall(w) + y
    ensures RuntimeName(Body(a)).None?
  {
    hide RuntimeName, IsAction, SecretCall;
    SecretCallShape(w);
    SecretCallIsNoRuntime(w);
    ActionHasBody(a);
    var call := SecretCall(w);
    assert z[n..][0] == call[0] == '{' && z[n..][1] == call[1] == '{';
    if n == 0 {
      assert z == call + y;
      ActionAtAction(call, y);
      ActionAtAction(a, z[|a|..]);
      assert z == a + z[|a|..];
    } else {
      var j := if n == 1 then 2 else n;
      assert z[j] == '{';
      BraceInBody(a, z, j);
      if RuntimeName(Body(a)).Some? {
        RuntimeNameIsPlain(Body(a));
      }
    }
  }

  lemma BraceInBody(a: string, z: string, j: nat)
    requires IsAction(a) && a <= z && 2 <= j <= |a| && j < |z| && z[j] == '{'
    requires j == 2 || j < |a|
    ensures '{' in Body(a)
  {
    ActionHasBody(a);
    assert a[|a| - 2] == '}' && a[|a| - 1] == '}';
    assert a == z[..|a|];
    assert j < |a| && a[j] == z[j];
    assert Body(a)[j - 2] == a[j];
  }

  /** No pointer is left in a text once its pointers are calls. */
  lemma {:induction false} ReplacedIsRuntimeFree(s: string)
    ensures RuntimeFree(ReplaceRuntime(s, SecretCall))
    decreases |s|
  {
    hide RuntimeAt, SecretCall, IsAction, RuntimeName;
    if s == "" {
    } else if RuntimeAt(s).Some? {
      var a := RuntimeAt(s).value;
      var name := RuntimeName(Body(a)).value;
      var rest := ReplaceRuntime(s[|a| + 1..], SecretCall);
      ReplacedIsRuntimeFree(s[|a| + 1..]);
      SecretCallShape(name);
      DollarlessIsRuntimeFree(SecretCall(name), rest);
    } else {
      ReplacedIsRuntimeFree(s[1..]);
      CallsMakeNoRuntime(s);
      assert ([s[0]] + ReplaceRuntime(s[1..], SecretCall))[1..] == ReplaceRuntime(s[1..], SecretCall);
    }
  }

  /** Deferring twice defers nothing more; apart from the pointers it turns
      into calls, it leaves the text outside the actions alone. */
  lemma DeferIsIdempotent(s: string)
    ensures DeferSecrets(DeferSecrets(s)) == DeferSecrets(s)
    ensures Outside(DeferSecrets(s)) == Outside(ReplaceRuntime(s, SecretCall))
    ensures RuntimeFree(s) ==> Outside(DeferSecrets(s)) == Outside(s)
    ensures RuntimeNames(DeferSecrets(s)) == []
  {
    hide IsAction, KeepsActions, ReplaceActions, ReplaceRuntime, DeferAction, RuntimeFree, Outside;
    var u := ReplaceRuntime(s, SecretCall);
    ReplacedIsRuntimeFree(s);
    DeferStaysRuntimeFree(u);
    RuntimeFreeIsKept(ReplaceActions(u, DeferAction), SecretCall);
    DeferKeepsActions();
    ReplaceComposes(u, DeferAction, DeferAction);
    forall a | IsAction(a)
      ensures Then(DeferAction, DeferAction)(a) == DeferAction(a)
    {
      DeferActionIsIdempotent(a);
    }
    ReplaceAgrees(u, Then(DeferAction, DeferAction), DeferAction);
    OutsideIsKept(u, DeferAction);
    if RuntimeFree(s) {
      RuntimeFreeIsKept(s, SecretCall);
    }
  }
}
