/** The text rewrites do to a printed template what the rewrites on the syntax
    do to the template: scanning for regular expressions is a faithful way to
    transform every well-formed template. */
module Printing {
  import opened Actions
  import opened Deferral
  import opened Syntax
  import opened Templates
  import opened Text
  import opened Wrappers

  // ---- References read back -----------------------------------------------------

  lemma {:induction false} SegmentsReadBack(keys: seq<string>)
    requires AreNames(keys)
    ensures Segments(Dotted(keys)) == keys
  {
    if keys != [] {
      var k, more := keys[0], Dotted(keys[1..]);
      var s := "." + k + more;
      assert IsName(k);
      RunOfName("." + k, 1);
      if more != "" {
        assert more[0] == '.';
        RunStops("." + k, '.', more[1..], 1, NameChar);
        assert s == "." + k + ['.'] + more[1..];
      } else {
        assert s == "." + k;
      }
      assert s[1..|k| + 1] == k && s[|k| + 1..] == more;
      SegmentsReadBack(keys[1..]);
    }
  }

  lemma RunOfName(s: string, i: nat)
    requires i <= |s| && forall c | c in s[i..] :: NameChar(c)
    ensures RunEnd(s, i, NameChar) == |s|
  {
    forall k | i <= k < |s|
      ensures NameChar(s[k])
    {
      assert s[k] == s[i..][k - i];
    }
    RunOfAll(s, i, NameChar);
  }

  lemma CollectionReadsBack(c: Collection, x: string)
    ensures CollectionAt(Prefix(c) + x) == Some(c)
  {
    hide HasPrefix;
    var s := Prefix(c) + x;
    OnePrefix(s);
    PrefixHolds(Prefix(c), x);
    match c
    case Databases => assert Prefix(c) == ".databases" && s[1] == 'd';
    case Secrets => assert Prefix(c) == ".secrets" && s[1] == 's';
    case Applications => assert Prefix(c) == ".applications" && s[1] == 'a';
    case Inputs => assert Prefix(c) == ".inputs" && s[1] == 'i';
  }

  lemma PrefixHolds(p: string, x: string)
    ensures HasPrefix(p + x, p)
  {}

  lemma RefReadsBack(r: Ref)
    requires IsRef(r)
    ensures RefAt(Written(r)) == Some(r)
    ensures Rewrite(Written(r)) == CallText(r) && Refs(Written(r)) == [r]
  {
    hide CollectionAt, Segments, CallText;
    CollectionReadsBack(r.collection, Dotted(r.keys));
    assert Written(r)[|Prefix(r.collection)|..] == Dotted(r.keys);
    SegmentsReadBack(r.keys);
    assert Written(r)[|Written(r)|..] == "";
  }

  // ---- Seams ---------------------------------------------------------------------------

  /** No reference can run across the join of `a` and `b`. */
  predicate Seam(a: string, b: string) {
    a == "" || b == "" || !RefChar(a[|a| - 1]) || !RefChar(b[0])
  }

  lemma SplitAtSeam(a: string, b: string)
    requires Seam(a, b)
    ensures Rewrite(a + b) == Rewrite(a) + Rewrite(b)
    ensures Refs(a + b) == Refs(a) + Refs(b)
  {
    hide Rewrite, Refs, RefChar;
    EmptyRewrites();
    if a == "" {
      assert a + b == b;
    } else if b == "" {
      assert a + b == a;
    } else if !RefChar(b[0]) {
      assert a + b == a + [b[0]] + b[1..];
      RewriteSplits(a, b[0], b[1..]);
      assert b == "" + [b[0]] + b[1..];
      RewriteSplits("", b[0], b[1..]);
    } else {
      var n := |a| - 1;
      assert a + b == a[..n] + [a[n]] + b;
      RewriteSplits(a[..n], a[n], b);
      assert a == a[..n] + [a[n]] + "";
      RewriteSplits(a[..n], a[n], "");
    }
  }

  lemma EmptyRewrites()
    ensures Rewrite("") == "" && Refs("") == []
  {}

  lemma DotlessRewrites(x: string)
    requires '.' !in x
    ensures Rewrite(x) == x && Refs(x) == []
  {
    DotlessIsRefFree(x);
    RefFreeIsKept(x);
  }

  lemma NameIsDotless(n: string)
    requires IsName(n)
    ensures '.' !in n
  {}

  lemma QuotedRewrites(t: string)
    requires RefFree(t)
    ensures Rewrite("\"" + t + "\"") == "\"" + t + "\"" && Refs("\"" + t + "\"") == []
  {
    hide Rewrite, Refs;
    RefFreeIsKept(t);
    DotlessRewrites("\"");
    SplitAtSeam("\"" + t, "\"");
    SplitAtSeam("\"", t);
  }

  lemma HelperRewrites(fn: string)
    requires HelperName(fn)
    ensures Rewrite(fn) == fn && Refs(fn) == []
  {
    assert forall c | c in fn :: c != '.';
    DotlessRewrites(fn);
  }

  lemma ArgsStart(args: Args)
    ensures ShowArgs(args) == "" || ShowArgs(args)[0] == ' '
  {}

  lemma ArgJoin(x: string, more: string)
    requires more == "" || more[0] == ' '
    ensures Rewrite(" " + x + more) == " " + Rewrite(x) + Rewrite(more)
    ensures Refs(" " + x + more) == Refs(x) + Refs(more)
  {
    hide Rewrite, Refs;
    DotlessRewrites(" ");
    SplitAtSeam(" " + x, more);
    SplitAtSeam(" ", x);
  }

  lemma ParenJoin(x: string)
    ensures Rewrite("(" + x + ")") == "(" + Rewrite(x) + ")" && Refs("(" + x + ")") == Refs(x)
  {
    hide Rewrite, Refs;
    DotlessRewrites("(");
    DotlessRewrites(")");
    SplitAtSeam("(" + x, ")");
    SplitAtSeam("(", x);
  }

  lemma PipeJoin(x: string, call: string)
    ensures Rewrite(x + " | " + call) == Rewrite(x) + " | " + Rewrite(call)
    ensures Refs(x + " | " + call) == Refs(x) + Refs(call)
  {
    hide Rewrite, Refs;
    DotlessRewrites(" | ");
    SplitAtSeam(x + " | ", call);
    SplitAtSeam(x, " | ");
  }

  // ---- expandRefs on an expression ---------------------------------------------------

  lemma {:induction false} ExpandPrintsExpr(e: Expr)
    requires WellFormed(e)
    ensures Rewrite(ShowExpr(e)) == ShowExpr(ExpandExpr(e))
    ensures Refs(ShowExpr(e)) == DotRefs(e)
    decreases e, 0
  {
    hide Rewrite, Refs, CallText, PureCall, Written;
    match e {
      case Dot(r) => RefReadsBack(r);
      case Call(r) => CallTextIsPlain(r); DotlessRewrites(CallText(r));
      case SecretPointer(n) => PureCallIsSafe(PureSecret(n)); DotlessRewrites(PureCall(PureSecret(n)));
      case DatabasePointer(n, f) =>
        PureCallIsSafe(PureDatabase(n, f));
        DotlessRewrites(PureCall(PureDatabase(n, f)));
      case Quoted(t) => QuotedRewrites(t);
      case Apply(fn, args) =>
        CallRewrites(fn, args);
        ParenJoin(fn + ShowArgs(args));
        Grouped("(", fn, ShowArgs(args), ")");
        Grouped("(", fn, ShowArgs(ExpandArgs(args)), ")");
      case Pipe(from, fn, args) =>
        ExpandPrintsExpr(from);
        CallRewrites(fn, args);
        PipeJoin(ShowExpr(from), fn + ShowArgs(args));
        Grouped(ShowExpr(from) + " | ", fn, ShowArgs(args), "");
        Grouped(ShowExpr(ExpandExpr(from)) + " | ", fn, ShowArgs(ExpandArgs(args)), "");
    }
  }

  lemma Grouped(a: string, b: string, c: string, d: string)
    ensures a + b + c + d == a + (b + c) + d
    ensures a + b + c == a + (b + c)
  {}

  lemma {:induction false} CallRewrites(fn: string, args: Args)
    requires HelperName(fn) && ArgsWellFormed(args)
    ensures Rewrite(fn + ShowArgs(args)) == fn + ShowArgs(ExpandArgs(args))
    ensures Refs(fn + ShowArgs(args)) == ArgsDotRefs(args)
    decreases args, 1
  {
    hide Rewrite, Refs;
    HelperRewrites(fn);
    ArgsStart(args);
    SplitAtSeam(fn, ShowArgs(args));
    ExpandPrintsArgs(args);
  }

  lemma {:induction false} ExpandPrintsArgs(args: Args)
    requires ArgsWellFormed(args)
    ensures Rewrite(ShowArgs(args)) == ShowArgs(ExpandArgs(args))
    ensures Refs(ShowArgs(args)) == ArgsDotRefs(args)
    decreases args, 0
  {
    hide Rewrite, Refs, ShowExpr, ExpandExpr, DotRefs, WellFormed;
    match args {
      case NoArgs => EmptyRewrites();
      case Arg(e, rest) =>
        ExpandPrintsExpr(e);
        ExpandPrintsArgs(rest);
        ArgsStart(rest);
        ArgJoin(ShowExpr(e), ShowArgs(rest));
    }
  }

  // ---- The actions of a printed template --------------------------------------------

  predicate BraceFree(s: string) {
    '{' !in s && '}' !in s
  }

  lemma NameIsBraceFree(n: string)
    requires IsName(n)
    ensures BraceFree(n)
  {}

  lemma {:induction false} DottedIsBraceFree(keys: seq<string>)
    requires AreNames(keys)
    ensures BraceFree(Dotted(keys)) && BraceFree(QuotedKeys(keys))
  {
    if keys != [] {
      DottedIsBraceFree(keys[1..]);
      NameIsBraceFree(keys[0]);
    }
  }

  lemma BraceFreeJoin(a: string, b: string)
    requires BraceFree(a) && BraceFree(b)
    ensures BraceFree(a + b)
  {}

  lemma LiteralsAreBraceFree()
    ensures BraceFree("(") && BraceFree(")") && BraceFree(" | ") && BraceFree(" ")
  {}

  lemma CallIsBraceFree(r: Ref)
    requires IsRef(r)
    ensures BraceFree(Written(r)) && BraceFree(CallText(r))
  {
    DottedIsBraceFree(r.keys);
  }

  lemma HelperIsBraceFree(fn: string)
    requires HelperName(fn)
    ensures BraceFree(fn)
  {}

  lemma {:induction false} ExprIsBraceFree(e: Expr)
    requires WellFormed(e)
    ensures BraceFree(ShowExpr(e))
  {
    hide PureCall, CallText, Written, RefFree, HelperName, IsName;
    LiteralsAreBraceFree();
    match e {
      case Dot(r) => CallIsBraceFree(r);
      case Call(r) => CallIsBraceFree(r);
      case SecretPointer(n) => PureCallIsSafe(PureSecret(n));
      case DatabasePointer(n, f) => PureCallIsSafe(PureDatabase(n, f));
      case Quoted(t) => QuotedIsBraceFree(t);
      case Apply(fn, args) =>
        ArgsAreBraceFree(args);
        HelperIsBraceFree(fn);
        BraceFreeJoin("(", fn);
        BraceFreeJoin("(" + fn, ShowArgs(args));
        BraceFreeJoin("(" + fn + ShowArgs(args), ")");
      case Pipe(from, fn, args) =>
        ExprIsBraceFree(from);
        ArgsAreBraceFree(args);
        HelperIsBraceFree(fn);
        BraceFreeJoin(ShowExpr(from), " | ");
        BraceFreeJoin(ShowExpr(from) + " | ", fn);
        BraceFreeJoin(ShowExpr(from) + " | " + fn, ShowArgs(args));
    }
  }

  lemma QuotedIsBraceFree(t: string)
    requires QuotedText(t)
    ensures BraceFree("\"" + t + "\"")
  {
    hide RefFree;
  }

  lemma {:induction false} ArgsAreBraceFree(args: Args)
    requires ArgsWellFormed(args)
    ensures BraceFree(ShowArgs(args))
  {
    match args {
      case NoArgs =>
      case Arg(e, rest) => ExprIsBraceFree(e); ArgsAreBraceFree(rest);
    }
  }

  lemma EdgeIsBraceFree(s: string)
    requires LeftEdge(s) || RightEdge(s)
    ensures BraceFree(s)
  {
    if !Blanks(s) {
      if LeftEdge(s) {
        assert s == [s[0]] + s[1..];
      } else {
        assert s == s[..|s| - 1] + [s[|s| - 1]];
      }
    }
  }

  lemma BodyIsBraceFree(p: Part)
    requires !p.Literal? && PartWellFormed(p)
    ensures BraceFree(ActionBody(p))
  {
    hide WellFormed, ShowExpr, LeftEdge, RightEdge, Blanks;
    match p
    case Action(l, e, r) => EdgeIsBraceFree(l); EdgeIsBraceFree(r); ExprIsBraceFree(e);
    case Pointer(l, n, r) =>
      BlanksAreEdges(l); BlanksAreEdges(r);
      EdgeIsBraceFree(l); EdgeIsBraceFree(r); NameIsBraceFree(n);
  }

  lemma BlanksAreEdges(s: string)
    requires Blanks(s)
    ensures LeftEdge(s) && RightEdge(s)
  {}

  function Braced(b: string): string {
    "{{" + b + "}}"
  }

  lemma BracedIsAction(b: string)
    requires BraceFree(b)
    ensures IsAction(Braced(b)) && Body(Braced(b)) == b
  {
    PlainNeverCloses(b, "");
    assert b + "" == b;
    ActionShape(b);
  }

  /** A printed template with its actions replaced. */
  function ShowWith(t: Template, f: string -> string): string {
    if t == [] then ""
    else
      (match t[0]
       case Literal(x) => x
       case Action(_, _, _) => f(Braced(ActionBody(t[0])))
       case Pointer(_, _, _) => "$" + f(Braced(ActionBody(t[0]))))
      + ShowWith(t[1..], f)
  }

  function ActionTexts(t: Template): seq<string> {
    if t == [] then []
    else (if t[0].Literal? then [] else [Braced(ActionBody(t[0]))]) + ActionTexts(t[1..])
  }

  /** No action starts in `x` when `y` follows. */
  predicate Quiet(x: string, y: string) {
    && (forall i | 0 <= i < |x| - 1 :: !(x[i] == '{' && x[i + 1] == '{'))
    && (x != "" && y != "" ==> !(x[|x| - 1] == '{' && y[0] == '{'))
  }

  lemma PassesOne(s: string, f: string -> string)
    requires s != "" && ActionAt(s).None?
    ensures ReplaceActions(s, f) == [s[0]] + ReplaceActions(s[1..], f) && ActionsIn(s) == ActionsIn(s[1..])
  {}

  lemma QuietStarts(x: string, y: string)
    requires Quiet(x, y) && x != ""
    ensures ActionAt(x + y).None? && Quiet(x[1..], y)
    ensures x + y != "" && (x + y)[0] == x[0] && (x + y)[1..] == x[1..] + y
  {
    var s := x + y;
    assert |s| > 1 ==> s[1] == if |x| > 1 then x[1] else y[0];
    assert !Opens(s);
  }

  lemma {:induction false} LiteralPasses(x: string, y: string, f: string -> string)
    requires Quiet(x, y)
    ensures ReplaceActions(x + y, f) == x + ReplaceActions(y, f)
    ensures ActionsIn(x + y) == ActionsIn(y)
  {
    hide Quiet, ActionAt, ReplaceActions, ActionsIn;
    if x == "" {
      assert x + y == y;
    } else {
      QuietStarts(x, y);
      PassesOne(x + y, f);
      LiteralPasses(x[1..], y, f);
      assert x == [x[0]] + x[1..];
    }
  }

  lemma LiteralIsQuiet(t: Template)
    requires t != [] && t[0].Literal? && TemplateWellFormed(t)
    ensures Quiet(t[0].text, Show(t[1..]))
  {
    if t[1..] == [] {
      assert Show(t[1..]) == "";
    }
  }

  lemma ActionPasses(b: string, y: string, f: string -> string)
    requires BraceFree(b)
    ensures ReplaceActions(Braced(b) + y, f) == f(Braced(b)) + ReplaceActions(y, f)
    ensures ActionsIn(Braced(b) + y) == [Braced(b)] + ActionsIn(y)
  {
    hide IsAction;
    BracedIsAction(b);
    ActionAtAction(Braced(b), y);
    assert (Braced(b) + y)[|Braced(b)|..] == y;
    assert Braced(b) + y != "";
  }

  lemma DollarPasses(y: string, f: string -> string)
    ensures ReplaceActions("$" + y, f) == "$" + ReplaceActions(y, f)
    ensures ActionsIn("$" + y) == ActionsIn(y)
  {
    assert ("$" + y)[1..] == y;
  }

  lemma PointerPasses(b: string, y: string, f: string -> string)
    requires BraceFree(b)
    ensures ReplaceActions("$" + Braced(b) + y, f) == "$" + f(Braced(b)) + ReplaceActions(y, f)
    ensures ActionsIn("$" + Braced(b) + y) == [Braced(b)] + ActionsIn(y)
  {
    hide ReplaceActions, ActionsIn, Braced;
    ActionPasses(b, y, f);
    DollarPasses(Braced(b) + y, f);
    Grouped("$", Braced(b), y, "");
    Grouped("$", f(Braced(b)), ReplaceActions(y, f), "");
  }

  /** Replacing the actions of a printed template replaces the actions it has. */
  lemma {:induction false} ActionsPrint(t: Template, f: string -> string)
    requires TemplateWellFormed(t)
    ensures ReplaceActions(Show(t), f) == ShowWith(t, f)
    ensures ActionsIn(Show(t)) == ActionTexts(t)
  {
    hide PartWellFormed, ActionBody, Braced, Joins, Quiet, ReplaceActions, ActionsIn, BraceFree, ShowPart;
    if t == [] {
      NothingInNothing(f);
    } else {
      ActionsPrint(t[1..], f);
      var y := Show(t[1..]);
      match t[0] {
        case Literal(x) =>
          LiteralIsQuiet(t);
          LiteralPasses(x, y, f);
          assert ShowPart(t[0]) == x by { ShowsLiteral(t[0]); }
        case Action(_, _, _) =>
          BodyIsBraceFree(t[0]);
          ActionPasses(ActionBody(t[0]), y, f);
          ShowsBraced(t[0]);
        case Pointer(_, _, _) =>
          BodyIsBraceFree(t[0]);
          PointerPasses(ActionBody(t[0]), y, f);
          ShowsBraced(t[0]);
      }
    }
  }

  lemma NothingInNothing(f: string -> string)
    ensures ReplaceActions("", f) == "" && ActionsIn("") == []
  {}

  lemma ShowsLiteral(p: Part)
    requires p.Literal?
    ensures ShowPart(p) == p.text
  {}

  lemma ShowsBraced(p: Part)
    requires !p.Literal?
    ensures p.Action? ==> ShowPart(p) == Braced(ActionBody(p))
    ensures p.Pointer? ==> ShowPart(p) == "$" + Braced(ActionBody(p))
  {
    assert "${{" + ActionBody(p) + "}}" == "$" + ("{{" + ActionBody(p) + "}}");
  }

  // ---- expandRefs prints ----------------------------------------------------------------

  lemma EdgesAreDotless(s: string)
    requires LeftEdge(s) || RightEdge(s)
    ensures '.' !in s
  {
    if !Blanks(s) {
      if LeftEdge(s) {
        assert s == [s[0]] + s[1..];
      } else {
        assert s == s[..|s| - 1] + [s[|s| - 1]];
      }
    }
  }

  lemma EdgesAreSeams(l: string, r: string, x: string)
    requires LeftEdge(l) && RightEdge(r)
    ensures Seam(l, x) && Seam(x, r)
  {
    assert l != "" ==> Blank(l[|l| - 1]) by {
      assert !Blanks(l) ==> l[1..][|l| - 2] == l[|l| - 1];
    }
    assert r != "" ==> Blank(r[0]) by {
      assert !Blanks(r) ==> r[..|r| - 1][0] == r[0];
    }
  }

  lemma ActionRewrites(l: string, e: Expr, r: string)
    requires LeftEdge(l) && RightEdge(r) && WellFormed(e)
    ensures Rewrite(Braced(l + ShowExpr(e) + r)) == Braced(l + ShowExpr(ExpandExpr(e)) + r)
    ensures Refs(Braced(l + ShowExpr(e) + r)) == DotRefs(e)
  {
    hide Rewrite, Refs, LeftEdge, RightEdge, WellFormed, ShowExpr, ExpandExpr, DotRefs, Seam;
    var x := ShowExpr(e);
    EdgesAreDotless(l);
    EdgesAreDotless(r);
    DotlessRewrites(l);
    DotlessRewrites(r);
    EdgesAreSeams(l, r, x);
    EdgesAreSeams(l, r, l + x);
    SplitAtSeam(l, x);
    SplitAtSeam(l + x, r);
    ExpandPrintsExpr(e);
    BetweenBraces(l + x + r);
  }

  lemma PointerRewrites(l: string, n: string, r: string)
    requires Blanks(l) && Blanks(r) && SecretName(n)
    ensures Rewrite(Braced(l + SECRETS_DOT + n + r)) == Braced(l + SECRETS_DOT + n + r)
    ensures Refs(Braced(l + SECRETS_DOT + n + r)) == []
  {
    hide Rewrite, Refs, Blanks, Seam;
    var x := l + SECRETS_DOT + n;
    BlanksAreEdges(l);
    BlanksAreEdges(r);
    EdgesAreDotless(l);
    EdgesAreDotless(r);
    DotlessRewrites(l);
    DotlessRewrites(r);
    EdgesAreSeams(l, r, SECRETS_DOT + n);
    EdgesAreSeams(l, r, x);
    SplitAtSeam(l, SECRETS_DOT + n);
    assert x == l + (SECRETS_DOT + n);
    SplitAtSeam(x, r);
    NoRefInSecretName(n);
    BetweenBraces(x + r);
  }

  lemma NoRefInSecretName(n: string)
    requires IsName(n)
    ensures Rewrite(SECRETS_DOT + n) == SECRETS_DOT + n && Refs(SECRETS_DOT + n) == []
  {
    hide Rewrite, Refs;
    NameIsDotless(n);
    DotlessIsRefFree(n);
    assert RefAt("." + n).None? by {
      var c := CollectionAt("." + n);
      if c.Some? {
        var rest := ("." + n)[|Prefix(c.value)|..];
        assert rest != "" ==> rest[0] == n[|Prefix(c.value)| - 1];
        assert rest != "" ==> rest[0] != '.';
      }
    }
    assert ("." + n)[1..] == n;
    assert RefFree("." + n);
    DotlessAppend("secrets", "." + n);
    assert "secrets" + ("." + n) == SECRETS_DOT + n;
    RefFreeIsKept(SECRETS_DOT + n);
  }

  lemma {:induction false} DotlessAppend(a: string, b: string)
    requires '.' !in a && RefFree(b)
    ensures RefFree(a + b)
  {
    if a == "" {
      assert a + b == b;
    } else {
      DotlessAppend(a[1..], b);
      assert (a + b)[1..] == a[1..] + b && (a + b)[0] == a[0];
    }
  }

  lemma PartRewrites(p: Part)
    requires !p.Literal? && PartWellFormed(p)
    ensures Rewrite(Braced(ActionBody(p))) == Braced(ActionBody(ExpandPart(p)))
    ensures Refs(Braced(ActionBody(p))) == if p.Action? then DotRefs(p.body) else []
  {
    hide Rewrite, Refs, LeftEdge, RightEdge, WellFormed, ShowExpr, ExpandExpr, DotRefs, Blanks;
    match p
    case Action(l, e, r) => ActionRewrites(l, e, r);
    case Pointer(l, n, r) => PointerRewrites(l, n, r);
  }

  /** Expanding the text of a template prints the expanded template. */
  lemma {:induction false} ExpandPrints(t: Template)
    requires TemplateWellFormed(t)
    ensures ExpandRefs(Show(t)) == Show(Expand(t))
  {
    ActionsPrint(t, Rewrite);
    ShowExpanded(t);
  }

  lemma {:induction false} ShowExpanded(t: Template)
    requires TemplateWellFormed(t)
    ensures ShowWith(t, Rewrite) == Show(Expand(t))
  {
    hide PartWellFormed, ActionBody, Braced, Joins, Rewrite;
    if t != [] {
      ShowExpanded(t[1..]);
      if !t[0].Literal? {
        PartRewrites(t[0]);
        ShowsBraced(ExpandPart(t[0]));
      }
      assert Expand(t)[1..] == Expand(t[1..]);
    }
  }

  // ---- refsIn prints ------------------------------------------------------------------------

  lemma {:induction false} RefsOfFirst(a: string, actions: seq<string>)
    ensures RefsOf([a] + actions) == Refs(a) + RefsOf(actions)
  {
    hide Refs;
    if actions == [] {
      assert ([a] + actions)[..0] == [];
    } else {
      var init, last := actions[..|actions| - 1], actions[|actions| - 1];
      assert ([a] + actions)[..|actions|] == [a] + init;
      RefsOfFirst(a, init);
    }
  }

  /** The references found in the text of a template are its dotted references,
      and once they are expanded they are exactly the calls it makes. */
  lemma {:induction false} RefsPrint(t: Template)
    requires TemplateWellFormed(t)
    ensures RefsIn(Show(t)) == AllDotRefs(t)
    ensures SourceTemplate(t) ==> AllCalls(Expand(t)) == RefsIn(Show(t))
  {
    hide ReplaceActions, ShowWith;
    ActionsPrint(t, Rewrite);
    RefsOfTexts(t);
    if SourceTemplate(t) {
      ExpandedCalls(t);
    }
  }

  lemma {:induction false} RefsOfTexts(t: Template)
    requires TemplateWellFormed(t)
    ensures RefsOf(ActionTexts(t)) == AllDotRefs(t)
  {
    hide PartWellFormed, ActionBody, Braced, Joins, Refs, DotRefs;
    if t != [] {
      RefsOfTexts(t[1..]);
      if !t[0].Literal? {
        PartRewrites(t[0]);
        RefsOfFirst(Braced(ActionBody(t[0])), ActionTexts(t[1..]));
      } else {
        assert ActionTexts(t) == ActionTexts(t[1..]);
      }
    }
  }

  lemma {:induction false} ExpandedCalls(t: Template)
    requires SourceTemplate(t)
    ensures AllCalls(Expand(t)) == AllDotRefs(t)
  {
    hide Source;
    if t != [] {
      assert forall i | 0 <= i < |t[1..]| :: t[1..][i] == t[i + 1];
      ExpandedCalls(t[1..]);
      assert Expand(t)[1..] == Expand(t[1..]);
      if t[0].Action? {
        CallsOfExpanded(t[0].body);
      }
    }
  }

  lemma {:induction false} CallsOfExpanded(e: Expr)
    requires Source(e)
    ensures Calls(ExpandExpr(e)) == DotRefs(e)
  {
    match e {
      case Apply(_, args) => CallsOfExpandedArgs(args);
      case Pipe(from, _, args) => CallsOfExpanded(from); CallsOfExpandedArgs(args);
      case _ =>
    }
  }

  lemma {:induction false} CallsOfExpandedArgs(args: Args)
    requires ArgsSource(args)
    ensures ArgsCalls(ExpandArgs(args)) == ArgsDotRefs(args)
  {
    match args {
      case NoArgs =>
      case Arg(e, rest) => CallsOfExpanded(e); CallsOfExpandedArgs(rest);
    }
  }
}
