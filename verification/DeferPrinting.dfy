/** Deferring the text of a template prints the deferred template. */
module DeferPrinting {
  import opened Actions
  import opened Deferral
  import opened Printing
  import opened Syntax
  import opened Templates
  import opened Text
  import opened Wrappers

  // ---- Leads and tails ------------------------------------------------------------

  lemma BlanksRun(l: string, x: string, i: nat)
    requires i <= |l| && (forall k | i <= k < |l| :: Blank(l[k])) && x != "" && !Blank(x[0])
    ensures RunEnd(l + x, i, Blank) == |l|
  {
    RunOfAll(l, i, Blank);
    assert l + x == l + [x[0]] + x[1..];
    RunStops(l, x[0], x[1..], i, Blank);
  }

  lemma LeadIs(l: string, x: string)
    requires LeftEdge(l) && x != "" && !Blank(x[0]) && x[0] != '-'
    ensures LeadEnd(l + x) == |l| && (l + x)[..|l|] == l && (l + x)[|l|..] == x
  {
    if Blanks(l) {
      assert l != "" ==> l[0] in l;
      BlanksRun(l, x, 0);
    } else {
      assert forall k | 1 <= k < |l| :: l[k] == l[1..][k - 1];
      BlanksRun(l, x, 1);
    }
  }

  lemma EdgeIsTail(r: string)
    requires RightEdge(r)
    ensures IsTail(r)
  {
    if Blanks(r) {
      RunOfAll(r, 0, Blank);
      assert r[|r|..] == "";
    } else {
      var b := r[..|r| - 1];
      assert r == b + ['-'];
      BlanksRun(b, "-", 0);
      assert r[|b|..] == "-";
    }
  }

  lemma TailStarts(x: string)
    requires x != "" && !Blank(x[0])
    ensures IsTail(x) <==> x == "-"
  {
    assert RunEnd(x, 0, Blank) == 0;
    assert x[0..] == x;
  }

  lemma NameRun(k: string, tail: string)
    requires IsName(k) && (tail == "" || !NameChar(tail[0]))
    ensures RunEnd(k + tail, 0, NameChar) == |k|
    ensures (k + tail)[..|k|] == k && (k + tail)[|k|..] == tail
  {
    RunOfName(k, 0);
    if tail == "" {
      assert k + tail == k;
    } else {
      assert k + tail == k + [tail[0]] + tail[1..];
      RunStops(k, tail[0], tail[1..], 0, NameChar);
    }
  }

  lemma EdgeStarts(r: string)
    requires RightEdge(r) && r != ""
    ensures Blank(r[0])
  {
    assert !Blanks(r) ==> r[..|r| - 1][0] == r[0];
    assert Blanks(r) ==> r[0] in r;
  }

  // ---- Dotted references that are pure -----------------------------------------------

  /** A printed reference does not run into the dash of its action. */
  predicate Apart(x: string, r: string) {
    r == "" ==> x != "" && x[|x| - 1] != '-'
  }

  lemma LastOfDotted(keys: seq<string>)
    requires keys != [] && AreNames(keys)
    ensures var k := keys[|keys| - 1]; k != "" && Dotted(keys)[|Dotted(keys)| - 1] == k[|k| - 1]
  {
    assert IsName(keys[0]);
    if |keys| > 1 {
      LastOfDotted(keys[1..]);
    }
  }

  lemma OverlongIsNoTail(k: string, more: string, r: string, n: nat)
    requires IsName(k) && n < |k| && Apart(k + more, r)
    ensures !IsTail(k[n..] + more + r)
  {
    var x := k[n..] + more + r;
    assert x[0] == k[n] && k[n] in k;
    TailStarts(x);
    if r == "" {
      assert x == (k + more)[n..];
      assert x[|x| - 1] == (k + more)[|k + more| - 1];
    }
  }

  lemma SecretAfterPrefix(x: string)
    ensures SecretAfter(".secrets." + x) == SecretIn(x)
  {
    hide SecretIn;
    assert (".secrets." + x)[9..] == x;
  }

  lemma DatabaseAfterPrefix(x: string)
    ensures DatabaseAfter(".databases." + x) == DatabaseIn(x)
  {
    hide DatabaseIn;
    assert (".databases." + x)[11..] == x;
  }

  lemma Regroup(p: string, dot: string, k: string, more: string, r: string)
    ensures p + (dot + k + more) + r == (p + dot) + (k + (more + r))
  {}

  lemma ApartShape(k: string, more: string, r: string)
    requires k != ""
    ensures Apart("." + k + more, r) <==> Apart(k + more, r)
  {
    var x, y := "." + k + more, k + more;
    assert x[|x| - 1] == y[|y| - 1];
  }

  lemma KeysShape(keys: seq<string>)
    requires keys != [] && AreNames(keys)
    ensures AreNames(keys[1..]) && IsName(keys[0]) && Dotted(keys) == "." + keys[0] + Dotted(keys[1..])
    ensures var more := Dotted(keys[1..]); (more == "" <==> |keys| == 1) && (more == "" || more[0] == '.')
  {}

  lemma SecretDot(keys: seq<string>, r: string)
    requires keys != [] && AreNames(keys) && RightEdge(r) && Apart(Dotted(keys), r)
    ensures SecretAfter(".secrets" + Dotted(keys) + r)
         == if |keys| == 1 && SecretName(keys[0]) then Some((PureSecret(keys[0]), r)) else None
  {
    hide SecretAfter, SecretIn, RightEdge, SecretName, Dotted, IsName, Apart, AreNames;
    var k, more := keys[0], Dotted(keys[1..]);
    KeysShape(keys);
    NameNotEmpty(k);
    ApartShape(k, more, r);
    Regroup(".secrets", ".", k, more, r);
    assert ".secrets" + "." == ".secrets.";
    SecretAfterPrefix(k + (more + r));
    SecretInDotted(k, more, r);
  }

  lemma NameNotEmpty(k: string)
    requires IsName(k)
    ensures k != ""
  {}

  lemma SecretInDotted(k: string, more: string, r: string)
    requires IsName(k) && (more == "" || more[0] == '.') && RightEdge(r) && Apart(k + more, r)
    ensures SecretIn(k + (more + r)) == if more == "" && SecretName(k) then Some((PureSecret(k), r)) else None
  {
    hide IsTail, RightEdge, RunEnd;
    if r != "" { EdgeStarts(r); }
    NameRun(k, more + r);
    var r0 := k + (more + r);
    if |k| > NAME_LIMIT {
      assert r0[NAME_LIMIT..] == k[NAME_LIMIT..] + more + r;
      OverlongIsNoTail(k, more, r, NAME_LIMIT);
    } else if more == "" {
      assert more + r == r;
      EdgeIsTail(r);
    } else {
      TailStarts(more + r);
    }
  }

  lemma SuffixIs(k: string, tail: string)
    requires k in ["password", "uri", "url"]
    ensures CredentialSuffix("." + k + tail) == k
  {
    var s := "." + k + tail;
    assert s[1] == k[0] && s[2] == k[1] && s[3] == k[2];
    assert HasPrefix(s, "." + k);
    assert HasPrefix(s, ".password") ==> s[..9][1] == 'p';
    assert HasPrefix(s, ".uri") ==> s[..4][3] == 'i';
  }

  lemma RunCovers(x: string, p: string)
    requires p <= x && forall i | 0 <= i < |p| :: NameChar(p[i])
    ensures |p| <= RunEnd(x, 0, NameChar)
  {
    hide NameChar;
    var e := RunEnd(x, 0, NameChar);
    assert e < |x| ==> !NameChar(x[e]);
  }

  lemma SuffixWithin(k: string, tail: string, f: string)
    requires IsName(k) && (tail == "" || !NameChar(tail[0]))
    requires f <= k + tail && forall i | 0 <= i < |f| :: NameChar(f[i])
    ensures |f| <= |k| && f == k[..|f|]
  {
    hide NameChar, IsName, RunEnd;
    NameRun(k, tail);
    RunCovers(k + tail, f);
    assert (k + tail)[..|f|] == k[..|f|];
  }

  lemma RemainderIsNoTail(k: string, more: string, r: string, n: nat)
    requires IsName(k) && (more == "" || more[0] == '.') && Apart(k + more, r)
    requires n < |k| || (n == |k| && more != "")
    ensures !IsTail(k[n..] + more + r)
  {
    hide IsTail, IsName;
    if n < |k| {
      OverlongIsNoTail(k, more, r, n);
    } else {
      assert k[n..] + more + r == more + r;
      TailStarts(more + r);
    }
  }

  lemma DropInto(k: string, more: string, r: string, n: nat)
    requires n <= |k|
    ensures ("." + k + more + r)[n + 1..] == k[n..] + more + r
  {}

  lemma OtherSuffixIsNoTail(k: string, more: string, r: string)
    requires IsName(k) && (more == "" || more[0] == '.') && RightEdge(r) && Apart(k + more, r)
    requires !(more == "" && k in ["password", "uri", "url"])
    ensures var s := "." + k + more + r;
      var f := CredentialSuffix(s);
      f == "" || !IsTail(s[|f| + 1..])
  {
    hide IsTail, RightEdge, IsName, Apart, CredentialSuffix, HasPrefix;
    var s := "." + k + more + r;
    var f := CredentialSuffix(s);
    if f != "" {
      assert s == "." + (k + (more + r));
      DropDot(s, f, k + (more + r));
      if r != "" { EdgeStarts(r); }
      SuffixWithin(k, more + r, f);
      assert |f| == |k| ==> k[..|k|] == k;
      RemainderIsNoTail(k, more, r, |f|);
      DropInto(k, more, r, |f|);
    }
  }

  lemma DropDot(s: string, f: string, x: string)
    requires s == "." + x && HasPrefix(s, "." + f)
    ensures f <= x
  {
    assert x[..|f|] == s[..|f| + 1][1..] == f;
  }

  lemma DatabaseDot(keys: seq<string>, r: string)
    requires keys != [] && AreNames(keys) && RightEdge(r) && Apart(Dotted(keys), r)
    ensures DatabaseAfter(".databases" + Dotted(keys) + r)
         == if |keys| == 1 then Some((PureDatabase(keys[0], ""), r))
            else if |keys| == 2 && keys[1] in ["password", "uri", "url"] then Some((PureDatabase(keys[0], keys[1]), r))
            else None
  {
    hide DatabaseAfter, DatabaseIn, RightEdge, IsTail, CredentialSuffix, Dotted, IsName, AreNames;
    var k, more := keys[0], Dotted(keys[1..]);
    KeysShape(keys);
    NameNotEmpty(k);
    Regroup(".databases", ".", k, more, r);
    assert ".databases" + "." == ".databases.";
    DatabaseAfterPrefix(k + (more + r));
    if r != "" { EdgeStarts(r); }
    DatabaseInDotted(k, more + r);
    if |keys| == 1 {
      assert more + r == r;
      EdgeIsTail(r);
      NoSuffix(r);
    } else {
      TailStarts(more + r);
      ApartOfRest(keys, r);
      FieldDot(keys[1..], r);
      EdgeIsTail(r);
    }
  }

  lemma DatabaseInDotted(k: string, s: string)
    requires IsName(k) && (s == "" || !NameChar(s[0]))
    ensures DatabaseIn(k + s)
         == var f := CredentialSuffix(s);
            if f != "" && IsTail(s[|f| + 1..]) then Some((PureDatabase(k, f), s[|f| + 1..]))
            else if IsTail(s) then Some((PureDatabase(k, ""), s))
            else None
  {
    hide IsTail, RunEnd;
    NameRun(k, s);
  }

  lemma ApartOfRest(keys: seq<string>, r: string)
    requires |keys| > 1 && Apart(Dotted(keys), r)
    ensures Apart(Dotted(keys[1..]), r)
  {
    assert Dotted(keys[1..]) != "";
  }

  lemma NoSuffix(r: string)
    requires r == "" || Blank(r[0])
    ensures CredentialSuffix(r) == ""
  {}

  /** What follows the name of a database, when something does. */
  lemma FieldDot(keys: seq<string>, r: string)
    requires keys != [] && AreNames(keys) && RightEdge(r) && Apart(Dotted(keys), r)
    ensures var s := Dotted(keys) + r;
      var f := CredentialSuffix(s);
      if |keys| == 1 && keys[0] in ["password", "uri", "url"] then f == keys[0] && s[|f| + 1..] == r
      else f == "" || !IsTail(s[|f| + 1..])
  {
    hide IsTail, RightEdge, CredentialSuffix, Dotted, AreNames, IsName, Apart;
    var k, more := keys[0], Dotted(keys[1..]);
    KeysShape(keys);
    NameNotEmpty(k);
    ApartShape(k, more, r);
    if |keys| == 1 && k in ["password", "uri", "url"] {
      assert "." + k + "" + r == "." + k + r;
      SuffixIs(k, r);
      assert ("." + k + r)[|k| + 1..] == r;
    } else {
      OtherSuffixIsNoTail(k, more, r);
    }
  }

  // ---- Whole expressions ------------------------------------------------------------

  /** Whether a body can be a single reference: nothing but its characters. */
  predicate ReferenceOnly(s: string) {
    forall c | c in s :: RefChar(c) || Blank(c)
  }

  lemma TailIsPlain(t: string)
    requires IsTail(t)
    ensures ReferenceOnly(t)
  {
    var e := RunEnd(t, 0, Blank);
    forall c | c in t
      ensures RefChar(c) || Blank(c)
    {
      var k :| 0 <= k < |t| && t[k] == c;
      assert k >= e ==> t[e..][k - e] == c;
    }
  }

  lemma SecretAfterIsPlain(rest: string)
    requires SecretAfter(rest).Some?
    ensures ReferenceOnly(rest)
  {
    hide IsTail, RunEnd;
    var r := rest[9..];
    var run := RunEnd(r, 0, NameChar);
    var e := if run <= NAME_LIMIT then run else NAME_LIMIT;
    TailIsPlain(r[e..]);
    assert r == r[..e] + r[e..];
    assert rest == rest[..9] + r;
    PlainLiteral(".secrets.");
  }

  lemma PlainLiteral(p: string)
    requires p in [".secrets.", ".databases."]
    ensures ReferenceOnly(p)
  {}

  lemma PlainJoin(a: string, b: string)
    requires ReferenceOnly(a) && ReferenceOnly(b)
    ensures ReferenceOnly(a + b)
  {}

  lemma DatabaseAfterIsPlain(rest: string)
    requires DatabaseAfter(rest).Some?
    ensures ReferenceOnly(rest)
  {
    hide ReferenceOnly, DatabaseIn;
    PlainLiteral(".databases.");
    DatabaseInIsPlain(rest[11..]);
    PlainJoin(rest[..11], rest[11..]);
    assert rest == rest[..11] + rest[11..];
  }

  lemma DatabaseInIsPlain(r: string)
    requires DatabaseIn(r).Some?
    ensures ReferenceOnly(r)
  {
    hide IsTail, ReferenceOnly, CredentialSuffix, RunEnd;
    var e := RunEnd(r, 0, NameChar);
    NamesArePlain(r, e);
    var after := r[e..];
    var f := CredentialSuffix(after);
    if f != "" && IsTail(after[|f| + 1..]) {
      TailIsPlain(after[|f| + 1..]);
      SuffixIsPlain(f);
      PlainJoin("." + f, after[|f| + 1..]);
      assert after == "." + f + after[|f| + 1..];
    } else {
      TailIsPlain(after);
    }
    PlainJoin(r[..e], after);
    assert r == r[..e] + after;
  }

  lemma SuffixIsPlain(f: string)
    requires f in ["password", "uri", "url"]
    ensures ReferenceOnly("." + f)
  {}

  lemma NamesArePlain(r: string, e: nat)
    requires e <= |r| && forall k | 0 <= k < e :: NameChar(r[k])
    ensures ReferenceOnly(r[..e])
  {}

  lemma BarredIsNotPure(x: string)
    requires '|' in x
    ensures SecretAfter(x).None? && DatabaseAfter(x).None?
  {
    if SecretAfter(x).Some? {
      SecretAfterIsPlain(x);
    }
    if DatabaseAfter(x).Some? {
      DatabaseAfterIsPlain(x);
    }
  }

  /** How a printed expression starts. */
  lemma {:induction false} ExprStarts(e: Expr)
    requires WellFormed(e)
    ensures var x := ShowExpr(e); x != "" && !Blank(x[0]) && x[0] != '-'
    ensures !e.Dot? && !e.Pipe? ==> ShowExpr(e)[0] != '.'
  {
    hide PureCall, CallText, Written, ShowArgs, ArgsWellFormed, HelperName, QuotedText;
    match e {
      case Dot(r) => assert Written(r)[0] == '.' by { WrittenStarts(r); }
      case Call(r) => assert CallText(r) != "" && CallText(r)[0] == '(' by { CallOpens(r); }
      case SecretPointer(n) => PureCallStarts(PureSecret(n));
      case DatabasePointer(n, f) => PureCallStarts(PureDatabase(n, f));
      case Pipe(from, fn, args) => ExprStarts(from);
      case _ =>
    }
  }

  lemma WrittenStarts(r: Ref)
    ensures Written(r)[0] == '.'
  {}

  /** No printed expression can be taken for the inside of a pointer. */
  lemma {:induction false} NeverSecretsDot(e: Expr, y: string)
    requires WellFormed(e)
    ensures !HasPrefix(ShowExpr(e) + y, SECRETS_DOT)
  {
    hide PureCall, CallText, Written, ShowArgs, ArgsWellFormed, HelperName, QuotedText, HasPrefix;
    match e {
      case SecretPointer(n) => PureCallStarts(PureSecret(n));
      case DatabasePointer(n, f) => PureCallStarts(PureDatabase(n, f));
      case Pipe(from, fn, args) =>
        NeverSecretsDot(from, " | " + fn + ShowArgs(args) + y);
        assert ShowExpr(e) + y == ShowExpr(from) + (" | " + fn + ShowArgs(args) + y);
      case Dot(r) => WrittenStarts(r); OtherStart(ShowExpr(e), y);
      case Call(r) => CallOpens(r); OtherStart(ShowExpr(e), y);
      case Quoted(_) => OtherStart(ShowExpr(e), y);
      case Apply(_, _) => OtherStart(ShowExpr(e), y);
    }
  }

  lemma OtherStart(x: string, y: string)
    requires x != "" && x[0] != 's'
    ensures !HasPrefix(x + y, SECRETS_DOT)
  {
    assert (x + y)[0] == x[0] && SECRETS_DOT[0] == 's';
  }

  lemma PipeIsBarred(e: Expr, r: string)
    requires e.Pipe?
    ensures '|' in ShowExpr(e) + r
  {
    var x := ShowExpr(e.from);
    assert ShowExpr(e)[|x| + 1] == '|';
    assert (ShowExpr(e) + r)[|x| + 1] == '|';
  }

  /** The pure form of an expression, if the worker can stand in for it. */
  function PureForm(e: Expr): Option<Pure> {
    match (e, DeferExpr(e))
    case (Dot(_), SecretPointer(n)) => Some(PureSecret(n))
    case (Dot(_), DatabasePointer(n, f)) => Some(PureDatabase(n, f))
    case _ => None
  }

  lemma PureOfDot(ref: Ref, r: string)
    requires IsRef(ref) && RightEdge(r) && Apart(Written(ref), r)
    ensures var x := Written(ref) + r;
      match PureForm(Dot(ref))
      case Some(PureSecret(n)) => SecretAfter(x) == Some((PureSecret(n), r))
      case Some(PureDatabase(n, f)) => SecretAfter(x).None? && DatabaseAfter(x) == Some((PureDatabase(n, f), r))
      case None => SecretAfter(x).None? && DatabaseAfter(x).None?
  {
    hide SecretAfter, DatabaseAfter, RightEdge, Dotted, SecretName, AreNames;
    var x := Written(ref) + r;
    assert Prefix(Secrets) == ".secrets" && Prefix(Databases) == ".databases";
    OnePrefixEach(ref, r);
    LastOfWritten(ref, r);
    match ref.collection {
      case Secrets => SecretDot(ref.keys, r);
      case Databases => DatabaseDot(ref.keys, r);
      case Applications =>
      case Inputs =>
    }
  }

  lemma LastOfWritten(ref: Ref, r: string)
    requires IsRef(ref)
    ensures Apart(Written(ref), r) <==> Apart(Dotted(ref.keys), r)
  {
    hide Prefix;
    LastOfDotted(ref.keys);
    var x, y := Written(ref), Dotted(ref.keys);
    assert x[|x| - 1] == y[|y| - 1];
  }

  /** A reference of one collection is read as no other. */
  lemma OnePrefixEach(ref: Ref, r: string)
    requires IsRef(ref)
    ensures var x := Written(ref) + r;
      && (ref.collection != Secrets ==> SecretAfter(x).None?)
      && (ref.collection != Databases ==> DatabaseAfter(x).None?)
  {
    hide SecretIn, DatabaseIn;
    var x := Written(ref) + r;
    assert x[1] == CollectionName(ref.collection)[0];
    assert HasPrefix(x, ".secrets.") ==> x[..9][1] == 's';
    assert HasPrefix(x, ".databases.") ==> x[..11][1] == 'd';
  }

  lemma PureOfExpr(l: string, e: Expr, r: string)
    requires LeftEdge(l) && RightEdge(r) && WellFormed(e) && Apart(ShowExpr(e), r)
    ensures PureOf(l + ShowExpr(e) + r)
         == match PureForm(e)
            case Some(p) => Some(PureAction(l, p, r))
            case None => None
  {
    hide SecretAfter, DatabaseAfter, LeadEnd, LeftEdge, RightEdge, ShowExpr, WellFormed, DeferExpr, Apart;
    var x := ShowExpr(e) + r;
    ExprStarts(e);
    LeadIs(l, x);
    assert l + ShowExpr(e) + r == l + x;
    if e.Dot? {
      DotIsWritten(e);
      PureOfDot(e.ref, r);
    } else if e.Pipe? {
      PipeIsBarred(e, r);
      BarredIsNotPure(x);
    } else {
      DotlessIsNotPure(x);
    }
  }

  lemma DotIsWritten(e: Expr)
    requires e.Dot? && WellFormed(e)
    ensures ShowExpr(e) == Written(e.ref) && IsRef(e.ref)
  {}

  lemma PureFormPrints(e: Expr)
    ensures PureForm(e).Some? ==> PureCall(PureForm(e).value) == ShowExpr(DeferExpr(e))
    ensures PureForm(e).None? ==> DeferExpr(e) == e
  {}

  /** Deferring one printed action prints the deferred action. */
  lemma DeferPrintsAction(l: string, e: Expr, r: string)
    requires LeftEdge(l) && RightEdge(r) && WellFormed(e) && Apart(ShowExpr(e), r)
    ensures DeferAction(Braced(l + ShowExpr(e) + r)) == Braced(l + ShowExpr(DeferExpr(e)) + r)
  {
    hide PureOf, LeftEdge, RightEdge, ShowExpr, WellFormed, DeferExpr, Apart, PureCall, PureForm, BraceFree;
    EdgeIsBraceFree(l);
    EdgeIsBraceFree(r);
    ExprIsBraceFree(e);
    BraceFreeJoins(l, ShowExpr(e), r);
    BracedIsAction(l + ShowExpr(e) + r);
    PureOfExpr(l, e, r);
    PureFormPrints(e);
  }

  lemma BraceFreeJoins(l: string, x: string, r: string)
    requires BraceFree(l) && BraceFree(x) && BraceFree(r)
    ensures BraceFree(l + x + r)
  {}

  // ---- Pointers ----------------------------------------------------------------------

  /** What replacing the pointers makes of a template. */
  function CallPart(p: Part): Part {
    match p
    case Pointer(_, n, _) => Action(" ", SecretPointer(n), " ")
    case _ => p
  }

  function CallPointers(t: Template): Template {
    if t == [] then [] else [CallPart(t[0])] + CallPointers(t[1..])
  }

  function PointerNames(t: Template): seq<string> {
    if t == [] then [] else (if t[0].Pointer? then [t[0].name] else []) + PointerNames(t[1..])
  }

  lemma PointerBodyName(l: string, n: string, r: string)
    requires Blanks(l) && SecretName(n) && Blanks(r)
    ensures RuntimeName(l + SECRETS_DOT + n + r) == Some(n)
  {
    hide SecretName, NameChar, Blank;
    SecretNameRun(n, r);
    DotStart(l, n + r);
    assert l + SECRETS_DOT + n + r == l + (SECRETS_DOT + (n + r));
  }

  /** Blanks, then the prefix of a pointer's name. */
  lemma DotStart(l: string, x: string)
    requires Blanks(l)
    ensures var inner := l + (SECRETS_DOT + x);
      && RunEnd(inner, 0, Blank) == |l|
      && HasPrefix(inner[|l|..], SECRETS_DOT) && inner[|l| + |SECRETS_DOT|..] == x
  {
    var inner := l + (SECRETS_DOT + x);
    assert forall k | 0 <= k < |l| :: l[k] in l;
    BlanksRun(l, SECRETS_DOT + x, 0);
    assert inner[|l|..] == SECRETS_DOT + x;
    assert inner[|l|..][..8] == SECRETS_DOT;
  }

  lemma SecretNameRun(n: string, r: string)
    requires SecretName(n) && Blanks(r)
    ensures RunEnd(n + r, 0, NameChar) == |n| && (n + r)[..|n|] == n
    ensures RunEnd(n + r, |n|, Blank) == |n + r|
  {
    assert r != "" ==> r[0] in r;
    NameRun(n, r);
    assert forall k | |n| <= k < |n + r| :: (n + r)[k] in r;
    RunOfAll(n + r, |n|, Blank);
  }

  lemma ActionBodyIsNoPointer(l: string, e: Expr, r: string)
    requires LeftEdge(l) && WellFormed(e)
    ensures RuntimeName(l + ShowExpr(e) + r).None?
  {
    hide WellFormed, HasPrefix, ShowExpr;
    ExprStarts(e);
    NeverSecretsDot(e, r);
    var inner := l + ShowExpr(e) + r;
    if Blanks(l) {
      assert forall k | 0 <= k < |l| :: l[k] in l;
      BlanksRun(l, ShowExpr(e) + r, 0);
      assert inner == l + (ShowExpr(e) + r);
      assert inner[|l|..] == ShowExpr(e) + r;
    } else {
      assert RunEnd(inner, 0, Blank) == 0 && inner[0] == '-';
      assert inner[0..] == "" + inner;
      DashStart(inner);
    }
  }

  lemma DashStart(x: string)
    requires x != "" && x[0] == '-'
    ensures !HasPrefix(x[0..], SECRETS_DOT)
  {
    assert x[0..][0] == '-' && SECRETS_DOT[0] == 's';
  }

  /** Text in which, with `y` after it, nothing is opened or pointed at. */
  predicate Still(x: string, y: string) {
    Quiet(x, y) && (x != "" && x[|x| - 1] == '$' ==> RuntimeAt("$" + y).None?)
  }

  lemma StillStarts(x: string, y: string)
    requires Still(x, y) && x != ""
    ensures RuntimeAt(x + y).None? && Still(x[1..], y)
  {
    hide RuntimeName, ActionAt;
    var s := x + y;
    assert s[0] == x[0] && s[1..] == x[1..] + y;
    if |x| == 1 {
      assert x[0] == '$' ==> s == "$" + y;
    } else {
      assert x[1..][|x| - 2] == x[|x| - 1];
      assert |s| > 2 ==> s[2] == if |x| > 2 then x[2] else y[0];
      assert !Opens(s[1..]);
      ClosedIsNoAction(s[1..]);
    }
  }

  lemma ClosedIsNoAction(s: string)
    requires !Opens(s)
    ensures ActionAt(s).None?
  {}

  /** No pointer starts in `x` when `y` follows. */
  lemma {:induction false} QuietHasNoPointer(x: string, y: string, g: string -> string)
    requires Still(x, y)
    ensures ReplaceRuntime(x + y, g) == x + ReplaceRuntime(y, g)
    ensures RuntimeNames(x + y) == RuntimeNames(y)
  {
    hide RuntimeAt, Still, ReplaceRuntime, RuntimeNames;
    if x == "" {
      assert x + y == y;
    } else {
      StillStarts(x, y);
      RuntimePassesOne(x + y, g);
      assert (x + y)[0] == x[0] && (x + y)[1..] == x[1..] + y;
      QuietHasNoPointer(x[1..], y, g);
      assert x == [x[0]] + x[1..];
    }
  }

  lemma BraceFreeIsStill(b: string, y: string)
    requires BraceFree(b)
    ensures Still(b + "}}", y)
  {
    hide RuntimeAt;
    var x := b + "}}";
    assert x[|x| - 1] == '}';
    assert forall i | 0 <= i < |b| :: b[i] in b;
  }

  lemma BracedHasNoPointer(b: string, y: string, g: string -> string)
    requires BraceFree(b)
    ensures ReplaceRuntime(Braced(b) + y, g) == Braced(b) + ReplaceRuntime(y, g)
    ensures RuntimeNames(Braced(b) + y) == RuntimeNames(y)
  {
    hide ReplaceRuntime, RuntimeNames, Still, BraceFree;
    var x := b + "}}";
    BraceFreeIsStill(b, y);
    QuietHasNoPointer(x, y, g);
    BracePasses(x + y, g);
    BracePasses("{" + (x + y), g);
    TwoBraces(b, y);
    TwoBraces(b, ReplaceRuntime(y, g));
  }

  lemma TwoBraces(b: string, y: string)
    ensures Braced(b) + y == "{" + ("{" + ((b + "}}") + y))
  {}

  lemma BracePasses(s: string, g: string -> string)
    ensures ReplaceRuntime("{" + s, g) == "{" + ReplaceRuntime(s, g) && RuntimeNames("{" + s) == RuntimeNames(s)
  {
    assert ("{" + s)[1..] == s;
  }

  lemma PointerIsReplaced(b: string, n: string, y: string, g: string -> string)
    requires BraceFree(b) && RuntimeName(b) == Some(n)
    ensures ReplaceRuntime("$" + Braced(b) + y, g) == g(n) + ReplaceRuntime(y, g)
    ensures RuntimeNames("$" + Braced(b) + y) == [n] + RuntimeNames(y)
  {
    hide RuntimeName, IsAction;
    BracedIsAction(b);
    ActionAtAction(Braced(b), y);
    var s := "$" + Braced(b) + y;
    assert s[1..] == Braced(b) + y;
    assert s[|Braced(b)| + 1..] == y;
  }

  lemma NoPointerBefore(t: Template)
    requires TemplateWellFormed(t) && (t == [] || !t[0].Literal?)
    ensures t == [] || t[0].Action? || Show(t)[0] == '$'
    ensures RuntimeAt("$" + Show(t)).None?
  {
    hide RuntimeName, ActionBody, LeftEdge, RightEdge, ShowExpr, WellFormed, IsAction, Braced;
    var s := "$" + Show(t);
    assert s[1..] == Show(t);
    if t != [] && t[0].Action? {
      var b := ActionBody(t[0]);
      BodyIsBraceFree(t[0]);
      BracedIsAction(b);
      ShowsBraced(t[0]);
      ActionAtAction(Braced(b), Show(t[1..]));
      BodyOfAction(t[0]);
      ActionBodyIsNoPointer(t[0].left, t[0].body, t[0].right);
    }
  }

  lemma BodyOfAction(p: Part)
    requires p.Action?
    ensures ActionBody(p) == p.left + ShowExpr(p.body) + p.right
  {}

  lemma CallPartPrints(p: Part)
    requires p.Pointer?
    ensures ShowPart(CallPart(p)) == SecretCall(p.name)
  {
    var n := p.name;
    assert ShowPart(CallPart(p)) == "{{" + (" " + ("secretRef \"" + n + "\"") + " ") + "}}";
    CallTextShape("{{", " ", "secretRef \"", n, "\"", " ", "}}");
    assert "{{" + " " + "secretRef \"" == "{{ secretRef \"" && "\"" + " " + "}}" == "\" }}";
  }

  lemma CallTextShape(o: string, s1: string, x: string, n: string, q: string, s2: string, c: string)
    ensures o + (s1 + (x + n + q) + s2) + c == (o + s1 + x) + n + (q + s2 + c)
  {}

  /** Replacing the pointers of a printed template. */
  lemma {:induction false} PointersPrint(t: Template)
    requires TemplateWellFormed(t)
    ensures ReplaceRuntime(Show(t), SecretCall) == Show(CallPointers(t))
    ensures RuntimeNames(Show(t)) == PointerNames(t)
  {
    hide PartWellFormed, ActionBody, Braced, Quiet, ReplaceRuntime, RuntimeNames, BraceFree, ShowPart, SecretCall,
      RuntimeAt;
    if t == [] {
      NoPointersInNothing(SecretCall);
    } else {
      PointersPrint(t[1..]);
      assert CallPointers(t)[1..] == CallPointers(t[1..]);
      PartPointerPrints(t);
    }
  }

  lemma PartPointerPrints(t: Template)
    requires t != [] && TemplateWellFormed(t)
    ensures var y := Show(t[1..]);
      && ReplaceRuntime(ShowPart(t[0]) + y, SecretCall) == ShowPart(CallPart(t[0])) + ReplaceRuntime(y, SecretCall)
      && RuntimeNames(ShowPart(t[0]) + y) == (if t[0].Pointer? then [t[0].name] else []) + RuntimeNames(y)
  {
    hide ActionBody, Braced, Quiet, ReplaceRuntime, RuntimeNames, BraceFree, SecretCall, RuntimeAt, LeftEdge, RightEdge,
         WellFormed, ShowExpr, ShowPart, RuntimeName, SecretName, Blanks;
    var p, y := t[0], Show(t[1..]);
    match p {
      case Literal(x) =>
        LiteralIsQuiet(t);
        ShowsLiteral(p);
        NoPointerBefore(t[1..]);
        QuietHasNoPointer(x, y, SecretCall);
      case Action(_, _, _) =>
        BodyIsBraceFree(p);
        ShowsBraced(p);
        BracedHasNoPointer(ActionBody(p), y, SecretCall);
      case Pointer(l, n, r) =>
        BodyIsBraceFree(p);
        ShowsBraced(p);
        PointerBodyName(l, n, r);
        BodyOfPointer(p);
        PointerIsReplaced(ActionBody(p), n, y, SecretCall);
        CallPartPrints(p);
    }
  }

  lemma BodyOfPointer(p: Part)
    requires p.Pointer?
    ensures ActionBody(p) == p.left + SECRETS_DOT + p.name + p.right
  {}

  // ---- deferSecrets prints -------------------------------------------------------------

  lemma {:induction false} CallPointersWellFormed(t: Template)
    requires TemplateWellFormed(t)
    ensures TemplateWellFormed(CallPointers(t)) && |CallPointers(t)| == |t|
    ensures t != [] ==> CallPointers(t)[0] == CallPart(t[0])
  {
    hide LeftEdge, RightEdge, WellFormed, ShowExpr, SecretName, Blanks;
    if t != [] {
      CallPointersWellFormed(t[1..]);
      assert CallPointers(t)[1..] == CallPointers(t[1..]);
      if t[0].Pointer? {
        CallPartWellFormed(t[0]);
      }
    }
  }

  lemma CallPartWellFormed(p: Part)
    requires p.Pointer? && PartWellFormed(p)
    ensures PartWellFormed(CallPart(p))
  {
    assert Blanks(" ");
    BlanksAreEdges(" ");
  }

  lemma {:induction false} ShowDeferred(t: Template)
    requires TemplateWellFormed(t)
    ensures ShowWith(CallPointers(t), DeferAction) == Show(Defer(t))
  {
    hide PartWellFormed, ActionBody, Braced, DeferAction, ShowPart, DeferPart, CallPart, Joins;
    if t != [] {
      ShowDeferred(t[1..]);
      assert CallPointers(t)[1..] == CallPointers(t[1..]) && Defer(t)[1..] == Defer(t[1..]);
      DeferredPartPrints(t[0]);
    }
  }

  lemma DeferredPartPrints(p: Part)
    requires PartWellFormed(p)
    ensures !CallPart(p).Pointer?
    ensures p.Literal? ==> CallPart(p) == DeferPart(p) == p && ShowPart(p) == p.text
    ensures !p.Literal? ==>
      CallPart(p).Action? && DeferAction(Braced(ActionBody(CallPart(p)))) == ShowPart(DeferPart(p))
  {
    hide Braced, DeferAction, LeftEdge, RightEdge, WellFormed, ShowExpr, DeferExpr, SecretName, Blanks;
    if !p.Literal? {
      var c := CallPart(p);
      if p.Pointer? {
        CallPartWellFormed(p);
        PointerCallStays(p.name);
      }
      DeferPrintsAction(c.left, c.body, c.right);
      BodyOfAction(c);
      ShowsBraced(DeferPart(p));
      BodyOfAction(DeferPart(p));
    }
  }

  lemma PointerCallStays(n: string)
    ensures DeferExpr(SecretPointer(n)) == SecretPointer(n)
  {}

  /** Deferring the text of a template prints the deferred template. */
  lemma DeferPrints(t: Template)
    requires TemplateWellFormed(t)
    ensures DeferSecrets(Show(t)) == Show(Defer(t))
  {
    hide ReplaceActions, ReplaceRuntime, ShowWith, TemplateWellFormed, ActionsIn, ActionTexts;
    PointersPrint(t);
    CallPointersWellFormed(t);
    ActionsPrint(CallPointers(t), DeferAction);
    ShowDeferred(t);
  }
}
