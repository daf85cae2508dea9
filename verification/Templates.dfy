/** Manifest text with template actions in it: how the rewrites find actions
    and references, and what they leave alone. Each scanner below stands for
    one regular expression of the renderer. */
module Templates {
  import opened Text
  import opened Wrappers

  // ---- Characters -------------------------------------------------------------

  datatype Collection = Databases | Secrets | Applications | Inputs

  function CollectionName(c: Collection): string {
    match c
    case Databases => "databases"
    case Secrets => "secrets"
    case Applications => "applications"
    case Inputs => "inputs"
  }

  /** [A-Za-z0-9_-] */
  predicate NameChar(c: char) {
    'A' <= c <= 'Z' || 'a' <= c <= 'z' || '0' <= c <= '9' || c == '_' || c == '-'
  }

  /** A character a written reference can hold. */
  predicate RefChar(c: char) {
    NameChar(c) || c == '.'
  }

  /** \s */
  predicate Blank(c: char) {
    c == ' ' || c == '\t' || c == '\n' || c == '\U{0C}' || c == '\r'
  }

  /** End of the run of characters in `p` that starts at `i`. */
  function RunEnd(s: string, i: nat, p: char -> bool): (e: nat)
    requires i <= |s|
    ensures i <= e <= |s|
    ensures forall k | i <= k < e :: p(s[k])
    ensures e < |s| ==> !p(s[e])
    decreases |s| - i
  {
    if i < |s| && p(s[i]) then RunEnd(s, i + 1, p) else i
  }

  /** A run does not look past the first character that is not in it. */
  lemma {:induction false} RunStops(a: string, c: char, b: string, i: nat, p: char -> bool)
    requires i <= |a| && !p(c)
    ensures RunEnd(a + [c] + b, i, p) == RunEnd(a, i, p)
    decreases |a| - i
  {
    if i < |a| && p(a[i]) {
      RunStops(a, c, b, i + 1, p);
    }
  }

  // ---- References: .collection.name.field ------------------------------------

  /** A reference as `ref` receives it: the collection, the name, the field and
      whatever follows. */
  datatype Ref = Ref(collection: Collection, keys: seq<string>) {
    function Name(): string { if keys == [] then "" else keys[0] }

    function Field(): string { if |keys| > 1 then keys[1] else "" }
  }

  predicate IsName(s: string) {
    s != "" && forall c | c in s :: NameChar(c)
  }

  predicate AreNames(keys: seq<string>) {
    forall k | k in keys :: IsName(k)
  }

  predicate IsRef(r: Ref) {
    r.keys != [] && AreNames(r.keys)
  }

  function Dotted(keys: seq<string>): string {
    if keys == [] then "" else "." + keys[0] + Dotted(keys[1..])
  }

  function Prefix(c: Collection): string {
    "." + CollectionName(c)
  }

  /** The reference as a template writes it. */
  function Written(r: Ref): (s: string)
    ensures s != ""
  {
    Prefix(r.collection) + Dotted(r.keys)
  }

  /** The longest run of dotted names at the front. */
  function Segments(s: string): (keys: seq<string>)
    ensures Dotted(keys) <= s && AreNames(keys)
  {
    if s == "" || s[0] != '.' then []
    else
      var e := RunEnd(s, 1, NameChar);
      if e == 1 then []
      else
        assert s == "." + s[1..e] + s[e..];
        [s[1..e]] + Segments(s[e..])
  }

  function CollectionAt(s: string): (c: Option<Collection>)
    ensures c.Some? ==> HasPrefix(s, Prefix(c.value))
  {
    if HasPrefix(s, ".databases") then Some(Databases)
    else if HasPrefix(s, ".secrets") then Some(Secrets)
    else if HasPrefix(s, ".applications") then Some(Applications)
    else if HasPrefix(s, ".inputs") then Some(Inputs)
    else None
  }

  /** A match of refPattern at the front of `s`. */
  function RefAt(s: string): (r: Option<Ref>)
    ensures r.Some? ==> IsRef(r.value) && Written(r.value) <= s
  {
    match CollectionAt(s)
    case None => None
    case Some(c) =>
      var keys := Segments(s[|Prefix(c)|..]);
      if keys == [] then None
      else
        assert s == Prefix(c) + s[|Prefix(c)|..];
        Some(Ref(c, keys))
  }

  function QuotedKeys(keys: seq<string>): string {
    if keys == [] then "" else " \"" + keys[0] + "\"" + QuotedKeys(keys[1..])
  }

  /** The call a written reference becomes. */
  function CallText(r: Ref): string {
    "(ref \"" + CollectionName(r.collection) + "\"" + QuotedKeys(r.keys) + ")"
  }

  /** Every reference in an action turned into a call. */
  function Rewrite(s: string): string
    decreases |s|
  {
    if s == "" then ""
    else
      match RefAt(s)
      case Some(r) => CallText(r) + Rewrite(s[|Written(r)|..])
      case None => [s[0]] + Rewrite(s[1..])
  }

  /** The references of an action, in order. */
  function Refs(s: string): seq<Ref>
    decreases |s|
  {
    if s == "" then []
    else
      match RefAt(s)
      case Some(r) => [r] + Refs(s[|Written(r)|..])
      case None => Refs(s[1..])
  }

  // ---- References end at the first other character ---------------------------

  lemma {:induction false} SegmentsStop(a: string, c: char, b: string)
    requires !RefChar(c)
    ensures Segments(a + [c] + b) == Segments(a)
  {
    var s := a + [c] + b;
    if a != "" && a[0] == '.' {
      RunStops(a, c, b, 1, NameChar);
      var e := RunEnd(a, 1, NameChar);
      if e != 1 {
        assert s[1..e] == a[1..e] && s[e..] == a[e..] + [c] + b;
        SegmentsStop(a[e..], c, b);
      }
    }
  }

  lemma PrefixStops(a: string, c: char, b: string, p: string)
    requires forall x | x in p :: RefChar(x)
    requires !RefChar(c)
    ensures HasPrefix(a + [c] + b, p) <==> HasPrefix(a, p)
  {
    var s := a + [c] + b;
    assert s[|a|] == c;
    if |p| <= |a| {
      assert s[..|p|] == a[..|p|];
    }
  }

  lemma CollectionStops(a: string, c: char, b: string)
    requires !RefChar(c)
    ensures CollectionAt(a + [c] + b) == CollectionAt(a)
  {
    hide HasPrefix;
    PrefixStops(a, c, b, ".databases");
    PrefixStops(a, c, b, ".secrets");
    PrefixStops(a, c, b, ".applications");
    PrefixStops(a, c, b, ".inputs");
  }

  lemma RefAtStops(a: string, c: char, b: string)
    requires !RefChar(c)
    ensures RefAt(a + [c] + b) == RefAt(a)
  {
    hide HasPrefix, CollectionAt, Segments, Prefix, RefChar;
    CollectionStops(a, c, b);
    if CollectionAt(a).Some? {
      var n := |Prefix(CollectionAt(a).value)|;
      PrefixFits(a, Prefix(CollectionAt(a).value));
      assert (a + [c] + b)[n..] == a[n..] + [c] + b;
      SegmentsStop(a[n..], c, b);
    }
  }

  lemma PrefixFits(a: string, p: string)
    requires HasPrefix(a, p)
    ensures |p| <= |a|
  {}

  lemma RewriteOne(s: string)
    requires s != ""
    ensures RefAt(s).Some? ==>
      var n := |Written(RefAt(s).value)|;
      Rewrite(s) == CallText(RefAt(s).value) + Rewrite(s[n..]) && Refs(s) == [RefAt(s).value] + Refs(s[n..])
    ensures RefAt(s).None? ==> Rewrite(s) == [s[0]] + Rewrite(s[1..]) && Refs(s) == Refs(s[1..])
  {
    hide RefAt, CallText, Written;
  }

  lemma DropJoined(a: string, c: char, b: string, n: nat)
    requires n <= |a|
    ensures (a + [c] + b)[n..] == a[n..] + [c] + b && a + [c] + b != ""
    ensures a != "" ==> (a + [c] + b)[0] == a[0]
    ensures a == "" ==> (a + [c] + b)[0] == c && (a + [c] + b)[1..] == b
  {}

  lemma Regroup4(x: string, y: string, c: char, z: string)
    ensures x + (y + [c] + z) == x + y + [c] + z
  {}

  /** A rewrite works on each side of such a character by itself. */
  lemma {:induction false} RewriteSplits(a: string, c: char, b: string)
    requires !RefChar(c)
    ensures Rewrite(a + [c] + b) == Rewrite(a) + [c] + Rewrite(b)
    ensures Refs(a + [c] + b) == Refs(a) + Refs(b)
    decreases |a|
  {
    hide RefAt, CallText, Written, Rewrite, Refs, RefChar;
    RefAtStops(a, c, b);
    DropJoined(a, c, b, 0);
    RewriteOne(a + [c] + b);
    if a == "" {
      NoRefInNothing();
    } else {
      RewriteOne(a);
      var n := if RefAt(a).Some? then |Written(RefAt(a).value)| else 1;
      DropJoined(a, c, b, n);
      RewriteSplits(a[n..], c, b);
      Regroup4(if RefAt(a).Some? then CallText(RefAt(a).value) else [a[0]], Rewrite(a[n..]), c, Rewrite(b));
    }
  }

  lemma NoRefInNothing()
    ensures RefAt("").None? && Rewrite("") == "" && Refs("") == []
  {}

  // ---- What a rewrite leaves behind ---------------------------------------------

  /** No reference starts anywhere in `s`. */
  predicate RefFree(s: string) {
    s == "" || (RefAt(s).None? && RefFree(s[1..]))
  }

  lemma {:induction false} RefFreeIsKept(s: string)
    requires RefFree(s)
    ensures Rewrite(s) == s && Refs(s) == []
  {
    if s != "" {
      RefFreeIsKept(s[1..]);
    }
  }

  lemma {:induction false} RefFreeSplits(a: string, c: char, b: string)
    requires !RefChar(c)
    ensures RefFree(a + [c] + b) <==> RefFree(a) && RefFree(b)
  {
    hide RefAt;
    var s := a + [c] + b;
    RefAtStops(a, c, b);
    if a == "" {
      NoRefInNothing();
      assert s[1..] == b;
    } else {
      assert s[1..] == a[1..] + [c] + b;
      RefFreeSplits(a[1..], c, b);
    }
  }

  lemma {:induction false} DotlessIsRefFree(s: string)
    requires '.' !in s
    ensures RefFree(s)
  {
    if s != "" {
      DotlessIsRefFree(s[1..]);
    }
  }

  /** More text never unmakes a reference. */
  lemma RefAtGrows(x: string, y: string)
    requires RefAt(x).Some?
    ensures RefAt(x + y).Some?
  {
    hide CollectionAt, Segments, Prefix, HasPrefix, RunEnd;
    var n := |Prefix(CollectionAt(x).value)|;
    CollectionGrows(x, y);
    PrefixFits(x, Prefix(CollectionAt(x).value));
    assert (x + y)[n..] == x[n..] + y;
    SegmentsGrow(x[n..], y);
  }

  lemma SegmentsGrow(x: string, y: string)
    requires Segments(x) != []
    ensures Segments(x + y) != []
  {
    assert x[0] == '.' && NameChar(x[1]);
    assert (x + y)[1] == x[1];
  }

  lemma CollectionGrows(x: string, y: string)
    requires CollectionAt(x).Some?
    ensures CollectionAt(x + y) == CollectionAt(x)
  {
    PrefixGrows(x, y, ".databases");
    PrefixGrows(x, y, ".secrets");
    PrefixGrows(x, y, ".applications");
    PrefixGrows(x, y, ".inputs");
    OnePrefix(x + y);
    hide HasPrefix;
  }

  lemma PrefixGrows(x: string, y: string, p: string)
    ensures HasPrefix(x, p) ==> HasPrefix(x + y, p)
  {
    if HasPrefix(x, p) {
      assert (x + y)[..|p|] == x[..|p|];
    }
  }

  /** The collections start with different letters. */
  lemma OnePrefix(s: string)
    ensures HasPrefix(s, ".databases") ==> s[1] == 'd'
    ensures HasPrefix(s, ".secrets") ==> s[1] == 's'
    ensures HasPrefix(s, ".applications") ==> s[1] == 'a'
    ensures HasPrefix(s, ".inputs") ==> s[1] == 'i'
  {
    assert HasPrefix(s, ".databases") ==> s[..10][1] == 'd';
    assert HasPrefix(s, ".secrets") ==> s[..8][1] == 's';
    assert HasPrefix(s, ".applications") ==> s[..13][1] == 'a';
    assert HasPrefix(s, ".inputs") ==> s[..7][1] == 'i';
  }

  /** Where the first reference starts, or the length. */
  function FirstRef(s: string): (n: nat)
    ensures n <= |s|
  {
    if s == "" || RefAt(s).Some? then 0 else 1 + FirstRef(s[1..])
  }

  lemma CallOpens(r: Ref)
    ensures CallText(r) != "" && CallText(r)[0] == '('
  {}

  lemma PrefixAfterFirst(s: string, z: string, n: nat)
    requires s != "" && n <= |s| - 1 && s[1..][..n] <= z
    ensures s[..n + 1] <= [s[0]] + z
    ensures s == [s[0]] + s[1..]
  {
    assert s[..n + 1] == [s[0]] + s[1..][..n];
  }

  lemma {:induction false} RewriteUpToFirst(s: string)
    ensures var n := FirstRef(s);
      s[..n] <= Rewrite(s)
      && (if n < |s| then |Rewrite(s)| > n && Rewrite(s)[n] == '(' else Rewrite(s) == s)
  {
    hide RefAt, CallText, Rewrite;
    if s == "" {
      NoRefInNothing();
    } else {
      RewriteOne(s);
      if RefAt(s).None? {
        RewriteUpToFirst(s[1..]);
        PrefixAfterFirst(s, Rewrite(s[1..]), FirstRef(s[1..]));
      } else {
        assert CallText(RefAt(s).value)[0] == '(' by { CallOpens(RefAt(s).value); }
      }
    }
  }

  lemma {:induction false} QuotedKeysDotless(keys: seq<string>)
    requires AreNames(keys)
    ensures '.' !in QuotedKeys(keys) && '}' !in QuotedKeys(keys) && '$' !in QuotedKeys(keys)
  {
    if keys != [] {
      QuotedKeysDotless(keys[1..]);
      assert IsName(keys[0]);
    }
  }

  /** The call without its closing parenthesis. */
  function CallHead(r: Ref): string {
    "(ref \"" + CollectionName(r.collection) + "\"" + QuotedKeys(r.keys)
  }

  lemma CallTextIsPlain(r: Ref)
    requires IsRef(r)
    ensures CallText(r) == CallHead(r) + [')']
    ensures '.' !in CallText(r) && '}' !in CallText(r)
    ensures '.' !in CallHead(r)
  {
    QuotedKeysDotless(r.keys);
  }

  /** The text before a missing reference and the rewritten rest form none. */
  lemma RewriteMakesNone(s: string)
    requires s != "" && RefAt(s).None?
    ensures RefAt([s[0]] + Rewrite(s[1..])).None?
  {
    hide RefAt, Rewrite;
    var t := s[1..];
    var n := FirstRef(t);
    RewriteUpToFirst(t);
    assert s == [s[0]] + t;
    if n < |t| {
      var x, z := [s[0]] + t[..n], Rewrite(t)[n + 1..];
      PrefixThenParen(Rewrite(t), t[..n], s[0]);
      RefAtStops(x, '(', z);
      assert s == x + t[n..];
      if RefAt(x).Some? {
        RefAtGrows(x, t[n..]);
      }
    }
  }

  lemma PrefixThenParen(z: string, p: string, c: char)
    requires p <= z && |p| < |z| && z[|p|] == '('
    ensures [c] + z == ([c] + p) + ['('] + z[|p| + 1..]
  {}

  /** A rewritten action holds no reference any more. */
  lemma {:induction false} RewriteIsComplete(s: string)
    ensures RefFree(Rewrite(s))
    decreases |s|
  {
    hide RefAt, CallText, CallHead;
    if s == "" {
    } else if RefAt(s).Some? {
      var r := RefAt(s).value;
      var rest := Rewrite(s[|Written(r)|..]);
      RewriteIsComplete(s[|Written(r)|..]);
      CallTextIsPlain(r);
      DotlessIsRefFree(CallHead(r));
      RefFreeSplits(CallHead(r), ')', rest);
    } else {
      RewriteIsComplete(s[1..]);
      RewriteMakesNone(s);
      assert ([s[0]] + Rewrite(s[1..]))[1..] == Rewrite(s[1..]);
    }
  }

  lemma RewriteIsIdempotent(s: string)
    ensures Rewrite(Rewrite(s)) == Rewrite(s) && Refs(Rewrite(s)) == []
  {
    RewriteIsComplete(s);
    RefFreeIsKept(Rewrite(s));
  }
}
