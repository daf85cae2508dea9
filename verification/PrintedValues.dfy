/** The values a plan prints, spelled out: numbers, argument lists, accounts and the
    bytes a run template is fingerprinted from. */
module PrintedValues {
  import opened Encodings
  import opened Jobs
  import opened Schema
  import opened Text
  import opened Wrappers

  // ---- Numbers ---------------------------------------------------------------------

  /** What a row of digits is worth. */
  function Worth(s: string): int {
    if s == "" then 0 else 10 * Worth(s[..|s| - 1]) + (s[|s| - 1] as int - '0' as int)
  }

  /** The decimal digits of a number are worth the number, with no zero in front. */
  lemma {:induction false} DecimalIsWorth(n: nat)
    ensures Worth(Decimal(n)) == n && (n > 0 ==> Decimal(n)[0] != '0')
    ensures |Decimal(n)| == 1 <==> n < 10
  {
    var s := Decimal(n);
    if n < 10 {
      assert s[..0] == "" && s[0] as int - '0' as int == n;
    } else {
      DecimalIsWorth(n / 10);
      assert s[..|s| - 1] == Decimal(n / 10) && s[|s| - 1] as int - '0' as int == n % 10;
      assert s[0] == Decimal(n / 10)[0];
    }
  }

  /** A negative number has its sign in front; a flag is a word. */
  lemma ScalarText(n: int, b: bool)
    ensures var s := Itoa(n);
      && s != "" && (s[0] == '-' <==> n < 0)
      && (if s[0] == '-' then -Worth(s[1..]) else Worth(s)) == n
    ensures FormatBool(b) == if b then "true" else "false"
  {
    DecimalIsWorth(if n < 0 then -n else n);
    assert n >= 0 ==> Decimal(n)[0] in Decimal(n);
    assert n < 0 ==> Itoa(n)[1..] == Decimal(-n);
  }

  // ---- Argument lists ------------------------------------------------------------------

  predicate PlainChar(c: char) {
    ' ' <= c <= '~' && c != '"' && c != '\\'
  }

  lemma PlainStays(printable: char -> bool, c: char)
    requires PlainChar(c)
    ensures Escape(printable, c) == [c]
  {}

  lemma {:induction false} PlainEscaped(printable: char -> bool, s: string)
    requires forall c | c in s :: PlainChar(c)
    ensures Escaped(printable, s) == s
  {
    hide Escape, PlainChar;
    if s != "" {
      assert s[0] in s && forall c | c in s[1..] :: c in s;
      PlainStays(printable, s[0]);
      PlainEscaped(printable, s[1..]);
      assert s == [s[0]] + s[1..];
    }
  }

  lemma Escapes(printable: char -> bool)
    ensures Escape(printable, '"') == ['\\', '"'] && Escape(printable, '\\') == ['\\', '\\']
    ensures Escape(printable, '\U{07}') == "\\a" && Escape(printable, '\U{08}') == "\\b"
    ensures Escape(printable, '\t') == "\\t" && Escape(printable, '\n') == "\\n" && Escape(printable, '\U{0B}') == "\\v"
    ensures Escape(printable, '\U{0C}') == "\\f" && Escape(printable, '\r') == "\\r"
    ensures Escape(printable, '\U{7F}') == "\\x7f" && Escape(printable, '\U{1B}') == "\\x1b"
  {
    HexByte(0x7f);
    HexByte(0x1b);
    assert HexDigit(7) == '7' && HexDigit(15) == 'f' && HexDigit(1) == '1' && HexDigit(11) == 'b';
  }

  lemma HexByte(n: nat)
    requires n < 256
    ensures Hex(n, 2) == [HexDigit(n / 16), HexDigit(n % 16)]
  {
    assert Hex(n / 16 / 16, 0) == "";
    assert Hex(n / 16, 1) == [HexDigit(n / 16)];
  }

  /** Arguments stand in quotes with one space between them. A text of printed ASCII
      without quotes and backslashes is quoted as it is; those, and control characters,
      are escaped. */
  lemma ArgumentsText(printable: char -> bool, args: seq<string>, c: char)
    requires args != []
    ensures ArgList(printable, []) == ""
    ensures ArgList(printable, args) ==
      Quote(printable, args[0]) + (if |args| == 1 then "" else " " + ArgList(printable, args[1..]))
    ensures (forall c | c in args[0] :: PlainChar(c)) ==> Quote(printable, args[0]) == "\"" + args[0] + "\""
    ensures c != '"' && c != '\\' && ' ' <= c <= '~' ==> PlainChar(c) && Escape(printable, c) == [c]
    ensures c == '"' || c == '\\' ==> Escape(printable, c) == ['\\', c]
    ensures c == '\n' ==> Escape(printable, c) == "\\n"
    ensures c == '\t' ==> Escape(printable, c) == "\\t"
    ensures c == '\U{1B}' ==> Escape(printable, c) == "\\x1b"
  {
    hide Quote, Escape, Escaped;
    Escapes(printable);
    ListOfOneMore(printable, args);
    if PlainChar(c) {
      PlainStays(printable, c);
    }
    if forall c | c in args[0] :: PlainChar(c) {
      PlainEscaped(printable, args[0]);
      QuoteIs(printable, args[0]);
    }
  }

  lemma QuoteIs(printable: char -> bool, s: string)
    ensures Quote(printable, s) == "\"" + Escaped(printable, s) + "\""
  {}

  lemma ListOfOneMore(printable: char -> bool, args: seq<string>)
    requires args != []
    ensures ArgList(printable, []) == ""
    ensures ArgList(printable, args) ==
      Quote(printable, args[0]) + (if |args| == 1 then "" else " " + ArgList(printable, args[1..]))
  {
    hide Quote;
    var quoted := QuoteAll(printable, args);
    assert quoted[1..] == QuoteAll(printable, args[1..]);
    if |args| == 1 {
      assert QuoteAll(printable, args[1..]) == [];
      assert quoted[0] + "" == quoted[0];
    } else {
      assert |QuoteAll(printable, args[1..])| > 0;
      assert quoted[0] + " " + ArgList(printable, args[1..]) == quoted[0] + (" " + ArgList(printable, args[1..]));
    }
  }

  // ---- Accounts ----------------------------------------------------------------------------

  /** A login or a group: up to 32 letters, digits and underscores, and dots and
      dashes after the first. */
  predicate LoginText(p: string) {
    && 1 <= |p| <= 32 && p[0] !in "-."
    && forall c | c in p :: 'a' <= c <= 'z' || 'A' <= c <= 'Z' || '0' <= c <= '9' || c in "_-."
  }

  /** `user` or `user:group`. */
  ghost predicate AccountText(t: string) {
    LoginText(t) || exists user, group :: t == user + ":" + group && LoginText(user) && LoginText(group)
  }

  lemma PartIsLogin(p: string)
    ensures RunAsPartValid(p) <==> LoginText(p)
  {
    if RunAsPartValid(p) {
      forall c | c in p
        ensures 'a' <= c <= 'z' || 'A' <= c <= 'Z' || '0' <= c <= '9' || c in "_-."
      {
        var i :| 0 <= i < |p| && p[i] == c;
      }
    }
    if LoginText(p) {
      assert forall i | 0 <= i < |p| :: p[i] in p;
    }
  }

  lemma LoginHasNoColon(p: string)
    requires LoginText(p)
    ensures ':' !in p
  {}

  lemma ColonAt(user: string, group: string)
    requires ':' !in user
    ensures IndexFrom(user + ":" + group, ':', 0) == |user|
  {
    var t := user + ":" + group;
    assert t[|user|] == ':' && forall i | 0 <= i < |user| :: t[i] == user[i] && user[i] in user;
  }

  /** The account a container runs as is the text stated, blanks around it aside, when
      that is an account, and otherwise none. */
  lemma AccountIs(v: string)
    ensures RunAsAccount(v) == if AccountText(TrimSpace(v)) then TrimSpace(v) else ""
  {
    hide TrimSpace, LoginText, RunAsPartValid;
    var t := TrimSpace(v);
    var colon := IndexFrom(t, ':', 0);
    PartIsLogin(t);
    PartIsLogin(t[..colon]);
    if LoginText(t) {
      LoginHasNoColon(t);
      assert colon == |t| && t[..colon] == t;
    }
    if colon < |t| {
      PartIsLogin(t[colon + 1..]);
      assert t == t[..colon] + ":" + t[colon + 1..];
    } else {
      assert t[..colon] == t;
    }
    if user, group :| t == user + ":" + group && LoginText(user) && LoginText(group) {
      LoginHasNoColon(user);
      ColonAt(user, group);
      assert t[..colon] == user && t[colon + 1..] == group;
    }
    EmptyIsNoLogin();
  }

  lemma EmptyIsNoLogin()
    ensures !LoginText("")
  {}

  // ---- Run templates -------------------------------------------------------------------------

  /** What a run is fingerprinted from: the command and the entrypoint, their arguments
      apart by U+001F, the image, the registry, the account and the time limit, each
      ended by a NUL. */
  lemma RunBytesAre(j: JobSpec)
    ensures var z := "\U{00}";
      RunBytes(j) == Join(j.command, "\U{1F}") + z + (Join(j.entrypoint, "\U{1F}") + z + (TrimSpace(j.image) + z
        + (j.registry + z + (RunAsAccount(if j.security.Some? then j.security.value.runAsUser else "") + z
        + (Itoa(j.timeoutSeconds) + z)))))
  {
    hide Join, TrimSpace, RunAsAccount, Itoa;
    SixTerminated(Join(j.command, "\U{1F}"), Join(j.entrypoint, "\U{1F}"), TrimSpace(j.image), j.registry,
                  RunAsAccount(j.RunAsUser()), Itoa(j.timeoutSeconds));
  }

  lemma SixTerminated(a: string, b: string, c: string, d: string, e: string, f: string)
    ensures var z := [NUL];
      Terminated([a, b, c, d, e, f]) == a + z + (b + z + (c + z + (d + z + (e + z + (f + z)))))
  {
    OneTerminated(f, []);
    OneTerminated(e, [f]);
    OneTerminated(d, [e, f]);
    OneTerminated(c, [d, e, f]);
    OneTerminated(b, [c, d, e, f]);
    OneTerminated(a, [b, c, d, e, f]);
    assert f + [NUL] + "" == f + [NUL];
  }

  lemma OneTerminated(a: string, rest: seq<string>)
    ensures Terminated([a] + rest) == a + [NUL] + Terminated(rest)
  {
    assert ([a] + rest)[1..] == rest;
  }
}
