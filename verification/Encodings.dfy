/** The encodings are unambiguous: a quoted argument list decides the list, and
    the bytes a run is fingerprinted from decide the run template. */
module Encodings {
  import opened Jobs
  import opened Schema
  import opened Text
  import opened Wrappers

  // ---- Escapes ------------------------------------------------------------------

  function Power16(w: nat): nat {
    if w == 0 then 1 else 16 * Power16(w - 1)
  }

  lemma HexDigitInjective(a: int, b: int)
    requires 0 <= a < 16 && 0 <= b < 16 && HexDigit(a) == HexDigit(b)
    ensures a == b
  {}

  lemma {:induction false} HexInjective(m: nat, n: nat, width: nat)
    requires m < Power16(width) && n < Power16(width) && Hex(m, width) == Hex(n, width)
    ensures m == n
  {
    if width > 0 {
      var x, y := Hex(m, width), Hex(n, width);
      assert x[..width - 1] == Hex(m / 16, width - 1) && x[width - 1] == HexDigit(m % 16);
      assert y[..width - 1] == Hex(n / 16, width - 1) && y[width - 1] == HexDigit(n % 16);
      HexInjective(m / 16, n / 16, width - 1);
      HexDigitInjective(m % 16, n % 16);
    }
  }

  /** How an escape goes on after its backslash; a space for none. */
  function Mark(printable: char -> bool, c: char): char {
    if c == '"' then '"'
    else if c == '\\' then '\\'
    else if c == '\U{07}' then 'a'
    else if c == '\U{08}' then 'b'
    else if c == '\U{0C}' then 'f'
    else if c == '\n' then 'n'
    else if c == '\r' then 'r'
    else if c == '\t' then 't'
    else if c == '\U{0B}' then 'v'
    else if c < ' ' || c == '\U{7F}' then 'x'
    else if Printable(printable, c) then ' '
    else if c as int < 0x10000 then 'u'
    else 'U'
  }

  function HexWidth(mark: char): nat {
    if mark == 'x' then 2 else if mark == 'u' then 4 else if mark == 'U' then 8 else 0
  }

  lemma EscapeShape(printable: char -> bool, c: char)
    ensures Mark(printable, c) == ' ' ==> Escape(printable, c) == [c] && c != '\\' && c != '"'
    ensures Mark(printable, c) != ' ' ==>
      Escape(printable, c) == "\\" + [Mark(printable, c)] + Hex(c as int, HexWidth(Mark(printable, c)))
  {}

  lemma MarkFits(printable: char -> bool, c: char)
    ensures HexWidth(Mark(printable, c)) > 0 ==> c as int < Power16(HexWidth(Mark(printable, c)))
  {
    assert Power16(2) == 256;
    assert Power16(4) == 0x10000 by { assert Power16(3) == 4096; }
    assert Power16(8) == 0x1_0000_0000 by {
      assert Power16(5) == 0x10_0000 && Power16(6) == 0x100_0000 && Power16(7) == 0x1000_0000;
    }
  }

  lemma MarkDecides(printable: char -> bool, c: char, d: char)
    requires Mark(printable, c) == Mark(printable, d) != ' ' && HexWidth(Mark(printable, c)) == 0
    ensures c == d
  {}

  lemma SamePrefix(a: string, b: string, x: string, y: string)
    requires a + x == b + y && |a| == |b|
    ensures a == b && x == y
  {
    assert (a + x)[..|a|] == a && (b + y)[..|b|] == b;
    assert (a + x)[|a|..] == x && (b + y)[|b|..] == y;
  }

  lemma EscapeStarts(printable: char -> bool, c: char, x: string)
    ensures var z := Escape(printable, c) + x;
      if Mark(printable, c) == ' ' then z[0] == c && c != '\\' && c != '"'
      else |z| > 1 && z[0] == '\\' && z[1] == Mark(printable, c)
  {
    EscapeShape(printable, c);
  }

  /** Reading an escape off the front of a text is unambiguous. */
  lemma EscapeIsPrefixFree(printable: char -> bool, c: char, d: char, x: string, y: string)
    requires Escape(printable, c) + x == Escape(printable, d) + y
    ensures c == d && x == y
  {
    hide Escape, Hex, Mark;
    EscapeStarts(printable, c, x);
    EscapeStarts(printable, d, y);
    EscapeShape(printable, c);
    EscapeShape(printable, d);
    assert Mark(printable, c) == Mark(printable, d);
    SamePrefix(Escape(printable, c), Escape(printable, d), x, y);
    if Mark(printable, c) != ' ' {
      var h, k := Hex(c as int, HexWidth(Mark(printable, c))), Hex(d as int, HexWidth(Mark(printable, d)));
      assert Escape(printable, c)[2..] == h && Escape(printable, d)[2..] == k;
      if HexWidth(Mark(printable, c)) == 0 {
        MarkDecides(printable, c, d);
      } else {
        MarkFits(printable, c);
        MarkFits(printable, d);
        HexInjective(c as int, d as int, HexWidth(Mark(printable, c)));
      }
    }
  }

  lemma {:induction false} EscapedReadsBack(printable: char -> bool, s: string, t: string, x: string, y: string)
    requires Escaped(printable, s) + "\"" + x == Escaped(printable, t) + "\"" + y
    ensures s == t && x == y
    decreases |s|
  {
    hide Escape;
    if s == "" || t == "" {
      if s != "" {
        EscapedStarts(printable, s, x);
      }
      if t != "" {
        EscapedStarts(printable, t, y);
      }
      assert s == t;
      assert Escaped(printable, s) + "\"" + x == "\"" + x && Escaped(printable, t) + "\"" + y == "\"" + y;
      SamePrefix("\"", "\"", x, y);
    } else {
      var u, v := Escaped(printable, s[1..]) + "\"" + x, Escaped(printable, t[1..]) + "\"" + y;
      assert Escaped(printable, s) + "\"" + x == Escape(printable, s[0]) + u;
      assert Escaped(printable, t) + "\"" + y == Escape(printable, t[0]) + v;
      EscapeIsPrefixFree(printable, s[0], t[0], u, v);
      EscapedReadsBack(printable, s[1..], t[1..], x, y);
      assert s == [s[0]] + s[1..] && t == [t[0]] + t[1..];
    }
  }

  lemma EscapedStarts(printable: char -> bool, s: string, x: string)
    requires s != ""
    ensures (Escaped(printable, s) + "\"" + x)[0] != '"'
  {
    EscapeStarts(printable, s[0], Escaped(printable, s[1..]) + "\"" + x);
    assert Escaped(printable, s) + "\"" + x == Escape(printable, s[0]) + (Escaped(printable, s[1..]) + "\"" + x);
  }

  lemma QuoteReadsBack(printable: char -> bool, s: string, t: string, x: string, y: string)
    requires Quote(printable, s) + x == Quote(printable, t) + y
    ensures s == t && x == y
  {
    hide Escaped;
    assert Quote(printable, s) + x == "\"" + (Escaped(printable, s) + "\"" + x);
    assert Quote(printable, t) + y == "\"" + (Escaped(printable, t) + "\"" + y);
    SamePrefix("\"", "\"", Escaped(printable, s) + "\"" + x, Escaped(printable, t) + "\"" + y);
    EscapedReadsBack(printable, s, t, x, y);
  }

  lemma ArgListUnfolds(printable: char -> bool, args: seq<string>)
    requires args != []
    ensures ArgList(printable, args) ==
      Quote(printable, args[0]) + if |args| == 1 then "" else " " + ArgList(printable, args[1..])
  {
    hide Quote;
    assert QuoteAll(printable, args)[1..] == QuoteAll(printable, args[1..]);
    assert |args| == 1 ==> QuoteAll(printable, args[1..]) == [];
    assert |args| > 1 ==> |QuoteAll(printable, args)| > 1;
  }

  /** A quoted argument list decides its arguments, whatever they contain. */
  lemma {:induction false} ArgListInjective(printable: char -> bool, a: seq<string>, b: seq<string>)
    requires ArgList(printable, a) == ArgList(printable, b)
    ensures a == b
  {
    hide Quote, QuoteAll, ArgList;
    if a == [] || b == [] {
      EmptyArgList(printable);
      if a != [] {
        ArgListUnfolds(printable, a);
        QuoteIsText(printable, a[0]);
      }
      if b != [] {
        ArgListUnfolds(printable, b);
        QuoteIsText(printable, b[0]);
      }
    } else {
      ArgListUnfolds(printable, a);
      ArgListUnfolds(printable, b);
      var x := if |a| == 1 then "" else " " + ArgList(printable, a[1..]);
      var y := if |b| == 1 then "" else " " + ArgList(printable, b[1..]);
      QuoteReadsBack(printable, a[0], b[0], x, y);
      assert |a| == 1 <==> |b| == 1;
      if |a| > 1 {
        SamePrefix(" ", " ", ArgList(printable, a[1..]), ArgList(printable, b[1..]));
        ArgListInjective(printable, a[1..], b[1..]);
      }
      assert a == [a[0]] + a[1..] && b == [b[0]] + b[1..];
    }
  }

  lemma EmptyArgList(printable: char -> bool)
    ensures ArgList(printable, []) == ""
  {}

  lemma QuoteIsText(printable: char -> bool, s: string)
    ensures Quote(printable, s) != ""
  {}

  // ---- Joined lists -------------------------------------------------------------------

  /** The texts between the `c` of a text; always at least one. */
  function Split(s: string, c: char): (parts: seq<string>)
    ensures parts != []
  {
    if s == "" then [""]
    else
      var rest := Split(s[1..], c);
      if s[0] == c then [""] + rest else [[s[0]] + rest[0]] + rest[1..]
  }

  /** A list as a reader of its joined text sees it: every entry cut at each
      `c`, and an empty list as one empty entry. */
  function Pieces(list: seq<string>, c: char): seq<string> {
    if list == [] then [""]
    else if |list| == 1 then Split(list[0], c)
    else Split(list[0], c) + Pieces(list[1..], c)
  }

  lemma {:induction false} SplitAppends(s: string, t: string, c: char)
    ensures Split(s + [c] + t, c) == Split(s, c) + Split(t, c)
  {
    if s == "" {
      assert s + [c] + t == [c] + t;
      assert ([c] + t)[1..] == t;
    } else {
      assert (s + [c] + t)[1..] == s[1..] + [c] + t;
      SplitAppends(s[1..], t, c);
    }
  }

  lemma {:induction false} SplitOfJoin(list: seq<string>, c: char)
    ensures Split(Join(list, [c]), c) == Pieces(list, c)
  {
    if |list| > 1 {
      SplitAppends(list[0], Join(list[1..], [c]), c);
      SplitOfJoin(list[1..], c);
    }
  }

  lemma {:induction false} JoinOfSplit(s: string, c: char)
    ensures Join(Split(s, c), [c]) == s
  {
    if s != "" {
      JoinOfSplit(s[1..], c);
      var rest := Split(s[1..], c);
      assert s == [s[0]] + s[1..];
      if s[0] == c {
        assert ([""] + rest)[1..] == rest;
      } else {
        assert ([[s[0]] + rest[0]] + rest[1..])[1..] == rest[1..];
      }
    }
  }

  /** Joining loses exactly where an entry ends and a separator inside it begins. */
  lemma JoinShowsPieces(a: seq<string>, b: seq<string>, c: char)
    ensures Join(a, [c]) == Join(b, [c]) <==> Pieces(a, c) == Pieces(b, c)
  {
    SplitOfJoin(a, c);
    SplitOfJoin(b, c);
    JoinOfSplit(Join(a, [c]), c);
    JoinOfSplit(Join(b, [c]), c);
  }

  predicate Without(list: seq<string>, c: char) {
    forall s | s in list :: c !in s
  }

  /** Two lists that are one, with an empty list as one empty entry. */
  predicate SameArgs(a: seq<string>, b: seq<string>) {
    a == b || (a in [[], [""]] && b in [[], [""]])
  }

  lemma {:induction false} SplitWhole(s: string, c: char)
    requires c !in s
    ensures Split(s, c) == [s]
  {
    if s != "" {
      SplitWhole(s[1..], c);
      assert s == [s[0]] + s[1..];
    }
  }

  lemma {:induction false} PiecesWhole(list: seq<string>, c: char)
    requires Without(list, c)
    ensures Pieces(list, c) == if list == [] then [""] else list
  {
    if list != [] {
      SplitWhole(list[0], c);
      PiecesWhole(list[1..], c);
      assert list == [list[0]] + list[1..];
    }
  }

  /** When no entry holds the separator, the joined text decides the list. */
  lemma JoinDecides(a: seq<string>, b: seq<string>, c: char)
    requires Without(a, c) && Without(b, c)
    ensures Join(a, [c]) == Join(b, [c]) <==> SameArgs(a, b)
  {
    JoinShowsPieces(a, b, c);
    PiecesWhole(a, c);
    PiecesWhole(b, c);
  }

  // ---- Run templates ----------------------------------------------------------------

  lemma UntilMark(p: string, q: string, x: string, y: string, c: char)
    requires p + [c] + x == q + [c] + y && c !in p && c !in q
    ensures p == q && x == y
  {
    var z := p + [c] + x;
    assert z[|p|] == c && z[|q|] == (q + [c] + y)[|q|] == c;
    assert forall k | 0 <= k < |p| :: z[k] == p[k] && p[k] in p;
    assert forall k | 0 <= k < |q| :: z[k] == (q + [c] + y)[k] == q[k] && q[k] in q;
    assert |p| == |q|;
    assert p + [c] + x == p + ([c] + x) && q + [c] + y == q + ([c] + y);
    SamePrefix(p, q, [c] + x, [c] + y);
    SamePrefix([c], [c], x, y);
  }

  predicate NulFree(parts: seq<string>) {
    forall p | p in parts :: NUL !in p
  }

  lemma {:induction false} TerminatedInjective(xs: seq<string>, ys: seq<string>)
    requires NulFree(xs) && NulFree(ys) && Terminated(xs) == Terminated(ys)
    ensures xs == ys
  {
    assert xs == [] ==> Terminated(xs) == "";
    assert ys == [] ==> Terminated(ys) == "";
    if xs != [] && ys != [] {
      UntilMark(xs[0], ys[0], Terminated(xs[1..]), Terminated(ys[1..]), NUL);
      TerminatedInjective(xs[1..], ys[1..]);
      assert xs == [xs[0]] + xs[1..] && ys == [ys[0]] + ys[1..];
    }
  }

  const US := '\U{1F}'

  predicate SeparatorFree(args: seq<string>) {
    forall a | a in args :: US !in a && NUL !in a
  }

  lemma {:induction false} JoinHasNoNul(args: seq<string>)
    requires SeparatorFree(args)
    ensures NUL !in Join(args, UNIT_SEPARATOR)
  {
    if |args| > 1 {
      JoinHasNoNul(args[1..]);
    }
  }

  /** No field holds the byte that ends it, no argument the one between two. */
  predicate Encodable(j: JobSpec) {
    SeparatorFree(j.command) && SeparatorFree(j.entrypoint) && NUL !in j.image && NUL !in j.registry
  }

  /** The run template, with the normalisation a run applies. */
  predicate SameRun(j: JobSpec, k: JobSpec) {
    && SameArgs(j.command, k.command) && SameArgs(j.entrypoint, k.entrypoint)
    && TrimSpace(j.image) == TrimSpace(k.image) && j.registry == k.registry
    && RunAsAccount(j.RunAsUser()) == RunAsAccount(k.RunAsUser()) && j.timeoutSeconds == k.timeoutSeconds
  }

  lemma {:induction false} TrimKeepsOut(s: string, c: char)
    requires c !in s
    ensures c !in TrimSpace(s)
  {
    LeftKeepsOut(s, c);
    var t := TrimLeft(s);
    assert forall i | 0 <= i < |TrimRight(t)| :: TrimRight(t)[i] == t[i] && t[i] in t;
  }

  lemma {:induction false} LeftKeepsOut(s: string, c: char)
    requires c !in s
    ensures c !in TrimLeft(s)
  {
    if s != "" && IsSpace(s[0]) {
      LeftKeepsOut(s[1..], c);
    }
  }

  lemma AccountHasNoNul(v: string)
    ensures NUL !in RunAsAccount(v)
  {
    var t := TrimSpace(v);
    var colon := IndexFrom(t, ':', 0);
    var r := RunAsAccount(v);
    forall i | 0 <= i < |r|
      ensures r[i] != NUL
    {
      assert r == t;
      if i < colon {
        assert t[i] == t[..colon][i];
      } else if i > colon {
        assert t[i] == t[colon + 1..][i - colon - 1];
      }
    }
  }

  lemma NumberHasNoNul(n: int)
    ensures NUL !in Itoa(n)
  {}

  lemma PartsAreNulFree(j: JobSpec)
    requires Encodable(j)
    ensures NulFree(RunParts(j))
  {
    hide Join, TrimSpace, RunAsAccount, Itoa;
    JoinHasNoNul(j.command);
    JoinHasNoNul(j.entrypoint);
    TrimKeepsOut(j.image, NUL);
    AccountHasNoNul(j.RunAsUser());
    NumberHasNoNul(j.timeoutSeconds);
  }

  /** The bytes a fingerprint hashes decide the run template, and nothing else
      changes them. */
  lemma RunBytesDecide(j: JobSpec, k: JobSpec)
    requires Encodable(j) && Encodable(k)
    ensures RunBytes(j) == RunBytes(k) <==> SameRun(j, k)
  {
    hide Join, TrimSpace, RunAsAccount, Itoa, Terminated, SameArgs;
    PartsAreNulFree(j);
    PartsAreNulFree(k);
    JoinDecides(j.command, k.command, US);
    JoinDecides(j.entrypoint, k.entrypoint, US);
    if RunBytes(j) == RunBytes(k) {
      TerminatedInjective(RunParts(j), RunParts(k));
      SixParts(j, k);
      ItoaInjective(j.timeoutSeconds, k.timeoutSeconds);
    }
  }

  lemma SixParts(j: JobSpec, k: JobSpec)
    requires RunParts(j) == RunParts(k)
    ensures Join(j.command, UNIT_SEPARATOR) == Join(k.command, UNIT_SEPARATOR)
    ensures Join(j.entrypoint, UNIT_SEPARATOR) == Join(k.entrypoint, UNIT_SEPARATOR)
    ensures TrimSpace(j.image) == TrimSpace(k.image) && j.registry == k.registry
    ensures RunAsAccount(j.RunAsUser()) == RunAsAccount(k.RunAsUser())
      && Itoa(j.timeoutSeconds) == Itoa(k.timeoutSeconds)
  {
    hide Join, TrimSpace, RunAsAccount, Itoa;
    var x, y := RunParts(j), RunParts(k);
    assert x[0] == y[0] && x[1] == y[1] && x[2] == y[2] && x[3] == y[3] && x[4] == y[4] && x[5] == y[5];
  }

  /** Outside these conditions the encoding is ambiguous: a separator inside an
      argument reads as two arguments. */
  lemma SeparatorCollides(j: JobSpec)
    requires j.command == ["a" + UNIT_SEPARATOR + "b"]
    ensures var k := j.(command := ["a", "b"]); RunBytes(j) == RunBytes(k) && !SameRun(j, k)
  {
    var k := j.(command := ["a", "b"]);
    assert ["a", "b"][1..] == ["b"];
    assert Join(j.command, UNIT_SEPARATOR) == Join(k.command, UNIT_SEPARATOR);
    assert RunParts(j) == RunParts(k);
  }
}
