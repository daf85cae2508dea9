/** Template actions in a text, `{{ ... }}` up to the first closing braces, and
    what replacing them one by one keeps. */
module Actions {
  import opened Templates
  import opened Text
  import opened Wrappers

  // ---- Finding actions -------------------------------------------------------

  /** Where the first "}}" starts. */
  function CloseAt(s: string): (n: Option<nat>)
    ensures n.Some? ==> n.value + 2 <= |s|
  {
    if |s| < 2 then None
    else if s[0] == '}' && s[1] == '}' then Some(0)
    else
      match CloseAt(s[1..])
      case Some(n) => Some(n + 1)
      case None => None
  }

  predicate Opens(s: string) {
    |s| >= 2 && s[0] == '{' && s[1] == '{'
  }

  /** One whole action and nothing after it. */
  predicate IsAction(a: string) {
    |a| >= 4 && Opens(a) && CloseAt(a[2..]) == Some(|a| - 4)
  }

  function Body(a: string): string
    requires IsAction(a)
  {
    a[2..|a| - 2]
  }

  lemma {:induction false} CloseIsLocal(s: string, n: nat, x: string)
    requires CloseAt(s) == Some(n)
    ensures CloseAt(s[..n + 2] + x) == Some(n)
  {
    if n > 0 {
      CloseIsLocal(s[1..], n - 1, x);
      assert (s[..n + 2] + x)[1..] == s[1..][..n + 1] + x;
    }
  }

  /** A match of actionPattern at the front of `s`. */
  function ActionAt(s: string): (a: Option<string>)
    ensures a.Some? ==> IsAction(a.value) && a.value <= s
  {
    if !Opens(s) then None
    else
      match CloseAt(s[2..])
      case None => None
      case Some(n) =>
        CloseIsLocal(s[2..], n, "");
        assert s[..n + 4][2..] == s[2..][..n + 2] + "";
        Some(s[..n + 4])
  }

  /** ReplaceAllStringFunc of actionPattern. */
  function ReplaceActions(s: string, f: string -> string): string
    decreases |s|
  {
    if s == "" then ""
    else
      match ActionAt(s)
      case Some(a) => f(a) + ReplaceActions(s[|a|..], f)
      case None => [s[0]] + ReplaceActions(s[1..], f)
  }

  /** FindAllString of actionPattern. */
  function ActionsIn(s: string): seq<string>
    decreases |s|
  {
    if s == "" then []
    else
      match ActionAt(s)
      case Some(a) => [a] + ActionsIn(s[|a|..])
      case None => ActionsIn(s[1..])
  }

  function Erase(a: string): string {
    ""
  }

  /** The text a string has outside its actions. */
  function Outside(s: string): string {
    ReplaceActions(s, Erase)
  }

  /** A replacement that turns actions into actions. */
  ghost predicate KeepsActions(f: string -> string) {
    forall a | IsAction(a) :: IsAction(f(a))
  }

  lemma ActionAtAction(a: string, x: string)
    requires IsAction(a)
    ensures ActionAt(a + x) == Some(a)
  {
    CloseIsLocal(a[2..], |a| - 4, x);
    assert (a + x)[2..] == a[2..][..|a| - 2] + x;
    assert (a + x)[..|a|] == a;
  }

  // ---- Replacing keeps the cut between text and actions ----------------------

  lemma ReplaceKeepsFirst(s: string, f: string -> string)
    requires KeepsActions(f)
    ensures s == "" <==> ReplaceActions(s, f) == ""
    ensures s != "" ==> ReplaceActions(s, f)[0] == s[0]
  {}

  lemma {:induction false} NothingCloses(s: string, f: string -> string)
    requires CloseAt(s).None?
    ensures ReplaceActions(s, f) == s && ActionsIn(s) == []
  {
    if s != "" {
      if Opens(s) {
        assert CloseAt(s) == CloseAt(s[1..]) == CloseAt(s[1..][1..]);
        assert s[1..][1..] == s[2..];
      }
      if |s| >= 2 {
        NothingCloses(s[1..], f);
      } else {
        assert s[1..] == "";
      }
    }
  }

  lemma NoActionStays(s: string, f: string -> string)
    requires KeepsActions(f) && s != "" && ActionAt(s).None?
    ensures ActionAt([s[0]] + ReplaceActions(s[1..], f)).None?
  {
    var t := s[1..];
    if Opens(s) {
      assert s[2..] == t[1..];
      assert CloseAt(t).None?;
      NothingCloses(t, f);
      assert [s[0]] + t == s;
    } else {
      ReplaceKeepsFirst(t, f);
    }
  }

  function Then(f: string -> string, g: string -> string): string -> string {
    a => g(f(a))
  }

  /** Replacing twice is replacing once with both: the first pass neither
      merges nor splits an action, nor turns text into one. */
  lemma {:induction false} ReplaceComposes(s: string, f: string -> string, g: string -> string)
    requires KeepsActions(f)
    ensures ReplaceActions(ReplaceActions(s, f), g) == ReplaceActions(s, Then(f, g))
    decreases |s|
  {
    hide IsAction;
    var once := ReplaceActions(s, f);
    if s == "" {
    } else if ActionAt(s).Some? {
      var a := ActionAt(s).value;
      var rest := ReplaceActions(s[|a|..], f);
      ActionAtAction(f(a), rest);
      assert (f(a) + rest)[|f(a)|..] == rest;
      assert f(a) + rest != "" by { ActionIsText(f(a)); }
      ReplaceComposes(s[|a|..], f, g);
    } else {
      NoActionStays(s, f);
      assert ([s[0]] + ReplaceActions(s[1..], f))[1..] == ReplaceActions(s[1..], f);
      ReplaceComposes(s[1..], f, g);
    }
  }

  lemma ActionIsText(a: string)
    requires IsAction(a)
    ensures a != "" && a[0] == '{'
  {}

  /** The actions of the result are the replaced actions, in order. */
  lemma {:induction false} ReplacedActions(s: string, f: string -> string)
    requires KeepsActions(f)
    ensures ActionsIn(ReplaceActions(s, f)) == MapText(f, ActionsIn(s))
    decreases |s|
  {
    hide IsAction;
    if s == "" {
    } else if ActionAt(s).Some? {
      var a := ActionAt(s).value;
      var rest := ReplaceActions(s[|a|..], f);
      ActionAtAction(f(a), rest);
      assert (f(a) + rest)[|f(a)|..] == rest;
      assert f(a) + rest != "" by { ActionIsText(f(a)); }
      ReplacedActions(s[|a|..], f);
      assert ActionsIn(s)[1..] == ActionsIn(s[|a|..]);
    } else {
      NoActionStays(s, f);
      assert ([s[0]] + ReplaceActions(s[1..], f))[1..] == ReplaceActions(s[1..], f);
      ReplacedActions(s[1..], f);
    }
  }

  function MapText(f: string -> string, xs: seq<string>): seq<string> {
    if xs == [] then [] else [f(xs[0])] + MapText(f, xs[1..])
  }

  lemma {:induction false} ReplaceAgrees(s: string, f: string -> string, g: string -> string)
    requires forall a | IsAction(a) :: f(a) == g(a)
    ensures ReplaceActions(s, f) == ReplaceActions(s, g)
    decreases |s|
  {
    hide IsAction;
    if s != "" {
      match ActionAt(s)
      case Some(a) => ReplaceAgrees(s[|a|..], f, g);
      case None => ReplaceAgrees(s[1..], f, g);
    }
  }

  /** No replacement touches the text outside the actions. */
  lemma OutsideIsKept(s: string, f: string -> string)
    requires KeepsActions(f)
    ensures Outside(ReplaceActions(s, f)) == Outside(s)
  {
    hide IsAction, ReplaceActions, KeepsActions;
    ReplaceComposes(s, f, Erase);
    ReplaceAgrees(s, Then(f, Erase), Erase);
  }

  // ---- expandRefs -------------------------------------------------------------

  function ExpandRefs(s: string): string {
    ReplaceActions(s, Rewrite)
  }

  /** Every "}" in `b` is followed by another character. */
  predicate NeverCloses(b: string) {
    b == "" || ((b[0] == '}' ==> |b| > 1 && b[1] != '}') && NeverCloses(b[1..]))
  }

  lemma {:induction false} BodyCloses(b: string)
    ensures NeverCloses(b) <==> CloseAt(b + "}}") == Some(|b|)
  {
    if b != "" {
      BodyCloses(b[1..]);
      assert (b + "}}")[1..] == b[1..] + "}}";
    }
  }

  /** An action is its body between braces, and the body does not close early. */
  lemma ActionShape(b: string)
    ensures NeverCloses(b) <==> IsAction("{{" + b + "}}")
    ensures NeverCloses(b) ==> Body("{{" + b + "}}") == b
  {
    BodyCloses(b);
    var a := "{{" + b + "}}";
    assert a[2..] == b + "}}";
    assert a[2..|a| - 2] == b;
  }

  lemma ActionHasBody(a: string)
    requires IsAction(a)
    ensures a == "{{" + Body(a) + "}}" && NeverCloses(Body(a))
  {
    var n := |a| - 4;
    CloseIsLocal(a[2..], n, "");
    ClosesWith(a[2..], n);
    assert a == "{{" + Body(a) + "}}";
    ActionShape(Body(a));
  }

  lemma {:induction false} ClosesWith(s: string, n: nat)
    requires CloseAt(s) == Some(n)
    ensures s[n..n + 2] == "}}"
  {
    if n > 0 {
      ClosesWith(s[1..], n - 1);
      assert s[n..n + 2] == s[1..][n - 1..n + 1];
    }
  }

  lemma {:induction false} PlainNeverCloses(a: string, b: string)
    requires '}' !in a
    ensures NeverCloses(a + b) <==> NeverCloses(b)
  {
    if a == "" {
      assert a + b == b;
    } else {
      PlainNeverCloses(a[1..], b);
      assert (a + b)[1..] == a[1..] + b;
    }
  }

  lemma {:induction false} RewriteNeverCloses(b: string)
    requires NeverCloses(b)
    ensures NeverCloses(Rewrite(b))
    decreases |b|
  {
    hide RefAt, CallText;
    if b == "" {
    } else if RefAt(b).Some? {
      var r := RefAt(b).value;
      var n := |Written(r)|;
      CallTextIsPlain(r);
      NeverClosesAfter(b, n);
      RewriteNeverCloses(b[n..]);
      PlainNeverCloses(CallText(r), Rewrite(b[n..]));
    } else {
      RewriteNeverCloses(b[1..]);
      RewriteUpToFirst(b[1..]);
      assert ([b[0]] + Rewrite(b[1..]))[1..] == Rewrite(b[1..]);
      if b[0] == '}' {
        assert FirstRef(b[1..]) > 0 ==> b[1..][..FirstRef(b[1..])][0] == b[1];
      }
    }
  }

  lemma {:induction false} NeverClosesAfter(b: string, n: nat)
    requires NeverCloses(b) && n <= |b|
    ensures NeverCloses(b[n..])
  {
    if n > 0 {
      NeverClosesAfter(b[1..], n - 1);
      assert b[1..][n - 1..] == b[n..];
    }
  }

  lemma RewriteKeepsActions()
    ensures KeepsActions(Rewrite)
  {
    forall a | IsAction(a)
      ensures IsAction(Rewrite(a))
    {
      RewriteOfAction(a);
    }
  }

  lemma RewriteOfAction(a: string)
    requires IsAction(a)
    ensures Rewrite(a) == "{{" + Rewrite(Body(a)) + "}}" && IsAction(Rewrite(a))
  {
    hide Rewrite, IsAction;
    var b := Body(a);
    ActionHasBody(a);
    RewriteNeverCloses(b);
    BetweenBraces(b);
    ActionShape(Rewrite(b));
  }

  lemma BetweenBraces(b: string)
    ensures Rewrite("{{" + b + "}}") == "{{" + Rewrite(b) + "}}"
    ensures Refs("{{" + b + "}}") == Refs(b)
  {
    hide Rewrite, Refs, RefChar;
    BraceFirst("{" + b + "}}");
    BraceFirst(b + "}}");
    BracesLast(b);
    assert "{{" + b + "}}" == "{" + ("{" + (b + "}}"));
    assert "{{" + Rewrite(b) + "}}" == "{" + ("{" + (Rewrite(b) + "}}"));
    assert "{" + b + "}}" == "{" + (b + "}}");
  }

  lemma BraceFirst(s: string)
    ensures Rewrite("{" + s) == "{" + Rewrite(s) && Refs("{" + s) == Refs(s)
  {
    assert "{" + s == "" + ['{'] + s;
    RewriteSplits("", '{', s);
  }

  lemma BracesLast(b: string)
    ensures Rewrite(b + "}}") == Rewrite(b) + "}}" && Refs(b + "}}") == Refs(b)
  {
    assert b + "}}" == b + ['}'] + "}";
    RewriteSplits(b, '}', "}");
    DotlessIsRefFree("}");
    RefFreeIsKept("}");
  }

  /** Expanding twice expands nothing more, and no reference is left inside an
      action; outside the actions nothing changes. */
  lemma ExpandIsIdempotent(s: string)
    ensures ExpandRefs(ExpandRefs(s)) == ExpandRefs(s)
    ensures Outside(ExpandRefs(s)) == Outside(s)
    ensures ActionsIn(ExpandRefs(s)) == MapText(Rewrite, ActionsIn(s))
  {
    hide IsAction, ReplaceActions, KeepsActions, Rewrite, ActionsIn, MapText, Outside;
    RewriteKeepsActions();
    ReplaceComposes(s, Rewrite, Rewrite);
    forall a | IsAction(a)
      ensures Rewrite(Rewrite(a)) == Rewrite(a)
    {
      RewriteIsIdempotent(a);
    }
    ReplaceAgrees(s, Then(Rewrite, Rewrite), Rewrite);
    OutsideIsKept(s, Rewrite);
    ReplacedActions(s, Rewrite);
  }

  // ---- refsIn ---------------------------------------------------------------------

  function RefsOf(actions: seq<string>): seq<Ref> {
    if actions == [] then [] else RefsOf(actions[..|actions| - 1]) + Refs(actions[|actions| - 1])
  }

  /** Every reference in every action of a text. */
  function RefsIn(s: string): seq<Ref> {
    RefsOf(ActionsIn(s))
  }

  method FindRefs(s: string) returns (out: seq<Ref>)
    ensures out == RefsIn(s)
  {
    var actions := ActionsIn(s);
    out := [];
    for i := 0 to |actions|
      invariant out == RefsOf(actions[..i])
    {
      assert actions[..i + 1][..i] == actions[..i];
      out := out + Refs(actions[i]);
    }
    assert actions[..|actions|] == actions;
  }

  /** A text whose references have been expanded lists none. */
  lemma ExpandedHasNoRefs(s: string)
    ensures RefsIn(ExpandRefs(s)) == []
  {
    RewriteKeepsActions();
    ReplacedActions(s, Rewrite);
    RewrittenHaveNoRefs(ActionsIn(s));
  }

  lemma {:induction false} RewrittenHaveNoRefs(actions: seq<string>)
    ensures RefsOf(MapText(Rewrite, actions)) == []
  {
    MapTextIsPointwise(Rewrite, actions);
    RefsOfNone(MapText(Rewrite, actions), actions);
  }

  lemma {:induction false} MapTextIsPointwise(f: string -> string, xs: seq<string>)
    ensures |MapText(f, xs)| == |xs| && forall i | 0 <= i < |xs| :: MapText(f, xs)[i] == f(xs[i])
  {
    if xs != [] {
      MapTextIsPointwise(f, xs[1..]);
    }
  }

  lemma {:induction false} RefsOfNone(mapped: seq<string>, actions: seq<string>)
    requires |mapped| == |actions| && forall i | 0 <= i < |actions| :: mapped[i] == Rewrite(actions[i])
    ensures RefsOf(mapped) == []
  {
    if mapped != [] {
      RefsOfNone(mapped[..|mapped| - 1], actions[..|actions| - 1]);
      RewriteIsIdempotent(actions[|actions| - 1]);
    }
  }
}
