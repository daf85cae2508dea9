/** What the rewrites write and what a template's own syntax does: calls in place of
    references, helpers with their arguments in order, and trim markers. */
module RenderedTexts {
  import opened DeferPrinting
  import opened Deferral
  import opened Printing
  import opened Render
  import opened RenderedValues
  import opened Syntax
  import opened Templates
  import opened Text
  import opened Wrappers

  // ---- Calls --------------------------------------------------------------------------

  lemma CallOf(c: Collection, n: string, f: string)
    ensures CallText(Ref(c, [n])) == "(ref \"" + CollectionName(c) + "\"" + (" \"" + n + "\"") + ")"
    ensures CallText(Ref(c, [n, f])) == "(ref \"" + CollectionName(c) + "\"" + (" \"" + n + "\" \"" + f + "\"") + ")"
  {
    hide CollectionName;
    QuotedTwo(n, f);
    hide QuotedKeys;
  }

  lemma QuotedTwo(n: string, f: string)
    ensures QuotedKeys([n]) == " \"" + n + "\"" && QuotedKeys([n, f]) == " \"" + n + "\" \"" + f + "\""
  {
    assert [n][1..] == [] && [n, f][1..] == [f] && [f][1..] == [];
    assert QuotedKeys([f]) == " \"" + f + "\"" + "";
    assert QuotedKeys([n]) == " \"" + n + "\"" + "";
    assert QuotedKeys([n, f]) == " \"" + n + "\"" + (" \"" + f + "\"");
    TwoQuotes(n, f);
  }

  lemma TwoQuotes(n: string, f: string)
    ensures " \"" + n + "\"" + (" \"" + f + "\"") == " \"" + n + "\" \"" + f + "\""
  {
    assert "\"" + " \"" == "\" \"";
  }

  lemma CollectionNames()
    ensures "(ref \"" + CollectionName(Databases) + "\"" == "(ref \"databases\""
    ensures "(ref \"" + CollectionName(Secrets) + "\"" == "(ref \"secrets\""
    ensures "(ref \"" + CollectionName(Applications) + "\"" == "(ref \"applications\""
    ensures "(ref \"" + CollectionName(Inputs) + "\"" == "(ref \"inputs\""
  {}

  /** A reference becomes a call with the same words, so that a name with a dash is one. */
  lemma ReferencesBecomeCalls(n: string, f: string)
    requires IsName(n) && IsName(f)
    ensures Rewrite(".databases." + n + "." + f) == "(ref \"databases\"" + (" \"" + n + "\" \"" + f + "\"") + ")"
    ensures Rewrite(".applications." + n + "." + f) == "(ref \"applications\"" + (" \"" + n + "\" \"" + f + "\"") + ")"
    ensures Rewrite(".databases." + n) == "(ref \"databases\"" + (" \"" + n + "\"") + ")"
    ensures Rewrite(".applications." + n) == "(ref \"applications\"" + (" \"" + n + "\"") + ")"
    ensures Rewrite(".secrets." + n) == "(ref \"secrets\"" + (" \"" + n + "\"") + ")"
    ensures Rewrite(".inputs." + n) == "(ref \"inputs\"" + (" \"" + n + "\"") + ")"
  {
    hide Rewrite, Written, CallText, CollectionName, IsName;
    CollectionNames();
    WrittenRefs(n, f);
    RefReadsBack(Ref(Databases, [n, f]));
    RefReadsBack(Ref(Applications, [n, f]));
    RefReadsBack(Ref(Databases, [n]));
    RefReadsBack(Ref(Applications, [n]));
    RefReadsBack(Ref(Secrets, [n]));
    RefReadsBack(Ref(Inputs, [n]));
    CallOf(Databases, n, f);
    CallOf(Applications, n, f);
    CallOf(Secrets, n, f);
    CallOf(Inputs, n, f);
  }

  /** A database credential becomes a call that looks for its vault entry. */
  lemma DatabaseText(n: string, f: string)
    requires IsName(n) && f in ["password", "uri", "url"]
    ensures DeferSecrets("{{ " + (".databases." + n + "." + f) + " }}") ==
      "{{ " + ("databaseSecretRef \"" + n + "\" \"" + f + "\"") + " }}"
    ensures DeferSecrets("{{ " + (".databases." + n) + " }}") ==
      "{{ " + ("databaseSecretRef \"" + n + "\" \"" + "" + "\"") + " }}"
  {
    hide DeferSecrets, Written, IsName, ShowExpr, DeferExpr;
    WrittenRefs(n, f);
    var whole, part := Dot(Ref(Databases, [n])), Dot(Ref(Databases, [n, f]));
    DatabaseShows(n, f);
    NamesAreWellFormed(n, f);
    OneActionDefers(whole);
    OneActionDefers(part);
  }

  lemma NamesAreWellFormed(n: string, f: string)
    requires IsName(n) && f in ["password", "uri", "url"]
    ensures WellFormed(Dot(Ref(Databases, [n]))) && WellFormed(Dot(Ref(Databases, [n, f])))
  {
    FieldIsName(f);
    hide IsName;
    assert AreNames([n, f]) && AreNames([n]);
  }

  lemma FieldIsName(f: string)
    requires f in ["password", "uri", "url"]
    ensures IsName(f)
  {}

  lemma DatabaseShows(n: string, f: string)
    requires f in ["password", "uri", "url"]
    ensures ShowExpr(Dot(Ref(Databases, [n]))) == Written(Ref(Databases, [n]))
    ensures ShowExpr(Dot(Ref(Databases, [n, f]))) == Written(Ref(Databases, [n, f]))
    ensures ShowExpr(DeferExpr(Dot(Ref(Databases, [n])))) == "databaseSecretRef \"" + n + "\" \"" + "" + "\""
    ensures ShowExpr(DeferExpr(Dot(Ref(Databases, [n, f])))) == "databaseSecretRef \"" + n + "\" \"" + f + "\""
  {
    hide Written;
    DeferredDatabase(n, f);
    hide DeferExpr;
  }

  lemma DeferredDatabase(n: string, f: string)
    requires f in ["password", "uri", "url"]
    ensures DeferExpr(Dot(Ref(Databases, [n]))) == DatabasePointer(n, "")
    ensures DeferExpr(Dot(Ref(Databases, [n, f]))) == DatabasePointer(n, f)
  {}

  // ---- Helpers ------------------------------------------------------------------------

  /** What a call of a helper comes to. */
  function Helped(h: Helpers, fn: string, args: seq<string>): Result<Chunk, RenderError> {
    match h(fn, args)
    case Some(v) => Success(Value(v))
    case None => Failure(HelperFailed(fn))
  }

  function Words(a: string, b: string): (args: Args)
    ensures ArgsExpanded(args)
  {
    assert ArgsExpanded(NoArgs) && Expanded(Quoted(b));
    assert ArgsExpanded(Arg(Quoted(b), NoArgs)) && Expanded(Quoted(a));
    Arg(Quoted(a), Arg(Quoted(b), NoArgs))
  }

  lemma WordsAre(ctx: RenderContext, h: Helpers, a: string, b: string)
    ensures EvalArgs(ctx, h, NoArgs) == Outcome(Success([]), false)
    ensures EvalArgs(ctx, h, Words(a, b)) == Outcome(Success([a, b]), false)
  {
    var last := Arg(Quoted(b), NoArgs);
    assert ArgsExpanded(NoArgs) && Expanded(Quoted(b)) && ArgsExpanded(last);
    assert EvalArgs(ctx, h, last) == Outcome(Success([b] + []), false);
    assert [a] + ([b] + []) == [a, b];
  }

  /** Arguments are passed in the order they are written, a piped value after them. */
  lemma HelpersGet(ctx: RenderContext, h: Helpers, fn: string, a: string, b: string, c: string)
    ensures Eval(ctx, h, Apply(fn, Words(a, b))) == Outcome(Helped(h, fn, [a, b]), false)
    ensures Eval(ctx, h, Pipe(Quoted(c), fn, Words(a, b))) == Outcome(Helped(h, fn, [a, b, c]), false)
    ensures Eval(ctx, h, Pipe(Quoted(c), fn, NoArgs)) == Outcome(Helped(h, fn, [c]), false)
  {
    WordsAre(ctx, h, a, b);
    hide Words, EvalArgs;
    assert [a, b] + [c] == [a, b, c] && [] + [c] == [c];
  }

  // ---- Trim markers ---------------------------------------------------------------------

  predicate TrimText(s: string) {
    forall c | c in s :: c in " \t\r\n"
  }

  predicate StartsSolid(s: string) {
    s != "" ==> s[0] !in " \t\r\n"
  }

  predicate EndsSolid(s: string) {
    s != "" ==> s[|s| - 1] !in " \t\r\n"
  }

  lemma {:induction false} EndGoes(u: string, gap: string)
    requires EndsSolid(u) && TrimText(gap)
    ensures TrimEnd(u + gap) == u
  {
    if gap == "" {
      assert u + gap == u;
    } else {
      var last := |gap| - 1;
      assert gap[last] in gap && (u + gap)[|u| + last] == gap[last] && (u + gap)[..|u| + last] == u + gap[..last];
      assert forall c | c in gap[..last] :: c in gap;
      EndGoes(u, gap[..last]);
    }
  }

  lemma {:induction false} StartGoes(gap: string, v: string)
    requires TrimText(gap) && StartsSolid(v)
    ensures TrimStart(gap + v) == v
  {
    if gap == "" {
      assert gap + v == v;
    } else {
      assert gap[0] in gap && (gap + v)[0] == gap[0] && (gap + v)[1..] == gap[1..] + v;
      StartGoes(gap[1..], v);
    }
  }

  /** Text, an action, text. */
  function Between(x: string, left: string, e: Expr, right: string, y: string): Template {
    [Literal(x), Action(left, e, right), Literal(y)]
  }

  lemma BetweenRenders(ctx: RenderContext, h: Helpers, x: string, left: string, e: Expr, right: string, y: string,
                       k: Chunk)
    requires Expanded(e) && Eval(ctx, h, e).result == Success(k)
    ensures var t := Between(x, left, e, right, y);
      var trimLeft, trimRight := left != "" && left[0] == '-', right != "" && right[|right| - 1] == '-';
      && AllExpanded(t) && Pointerless(t)
      && Rendered(Execute(ctx, h, t, false)).result ==
           Success((if trimLeft then TrimEnd(x) else x) + (ChunkText(k) + (if trimRight then TrimStart(y) else y)))
  {
    hide Eval, Expanded, TrimStart, TrimEnd;
    var t := Between(x, left, e, right, y);
    var one, two := Action(left, e, right), Literal(y);
    assert t[1..] == [one, two] && [one, two][1..] == [two] && [two][1..] == [];
    var after := Trim(y, TrimsRight(one), false);
    assert Execute(ctx, h, [], false) == Outcome(Success([]), false);
    assert Execute(ctx, h, [two], TrimsRight(one)).result == Success([Value(after)] + []);
    var rest := [one, two];
    assert rest[0] == one && rest[1..] == [two];
    assert Execute(ctx, h, rest, false).result == Success([k] + ([Value(after)] + []));
    assert [Value(after)] + [] == [Value(after)];
    var before := Trim(x, false, TrimsLeft(one));
    assert Execute(ctx, h, t, false).result == Success([Value(before)] + ([k] + [Value(after)]));
    ThreeChunks(Value(before), k, Value(after));
  }

  lemma ThreeChunks(a: Chunk, b: Chunk, c: Chunk)
    ensures JoinChunks([a] + ([b] + [c])) == ChunkText(a) + (ChunkText(b) + ChunkText(c))
  {
    hide ChunkText;
    var all := [a] + ([b] + [c]);
    assert all[1..] == [b, c] && [b, c][1..] == [c] && [c][1..] == [];
    assert JoinChunks([c]) == ChunkText(c) + "";
  }

  /** A dash by the braces takes the blanks on its side of the action, and only those. */
  lemma DashesTrim(ctx: RenderContext, h: Helpers, u: string, gap: string, e: Expr, next: string, v: string, k: Chunk)
    requires Expanded(e) && Eval(ctx, h, e).result == Success(k)
    requires EndsSolid(u) && TrimText(gap) && TrimText(next) && StartsSolid(v)
    ensures RendersTo(ctx, h, Between(u + gap, " ", e, " ", next + v), u + gap + (ChunkText(k) + (next + v)))
    ensures RendersTo(ctx, h, Between(u + gap, "- ", e, " ", next + v), u + (ChunkText(k) + (next + v)))
    ensures RendersTo(ctx, h, Between(u + gap, " ", e, " -", next + v), u + gap + (ChunkText(k) + v))
    ensures RendersTo(ctx, h, Between(u + gap, "- ", e, " -", next + v), u + (ChunkText(k) + v))
  {
    hide Eval, Expanded, TrimStart, TrimEnd, Rendered, Execute, AllExpanded, Pointerless, Between, ChunkText;
    EndGoes(u, gap);
    StartGoes(next, v);
    BetweenRenders(ctx, h, u + gap, " ", e, " ", next + v, k);
    BetweenRenders(ctx, h, u + gap, "- ", e, " ", next + v, k);
    BetweenRenders(ctx, h, u + gap, " ", e, " -", next + v, k);
    BetweenRenders(ctx, h, u + gap, "- ", e, " -", next + v, k);
  }

  ghost predicate RendersTo(ctx: RenderContext, h: Helpers, t: Template, value: string) {
    AllExpanded(t) && Pointerless(t) && Rendered(Execute(ctx, h, t, false)).result == Success(value)
  }

  // ---- Lenient rendering ------------------------------------------------------------------

  /** A value that renders is stored; one that does not is left as its template, and
      its key is not tracked. */
  lemma LenientStores(ctx: RenderContext, h: Helpers, key: string, t: Template, value: string, tracked: bool)
    ensures Stores(ctx, h, t, value, tracked) ==>
      && LenientValue(ctx, h, t) == value
      && TrackedRendered(ctx, h, map[key := t]) == if tracked && key != "" then {key} else {}
    ensures RenderValue(ctx, h, t).result.Failure? ==>
      LenientValue(ctx, h, t) == Show(t) && TrackedRendered(ctx, h, map[key := t]) == {}
  {
    hide RenderValue, Show;
  }
}
