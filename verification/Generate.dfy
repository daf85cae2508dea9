/** Generated secrets: a constrained random string whose minimums are placed
    first and then shuffled in. Each draw from the entropy source is an
    arbitrary choice in range. */
module Generate {
  import opened Schema
  import opened Wrappers

  const SECRET_LOWER := "abcdefghijklmnopqrstuvwxyz"
  const SECRET_UPPER := "ABCDEFGHIJKLMNOPQRSTUVWXYZ"
  const SECRET_DIGITS := "0123456789"
  const SECRET_SYMBOLS := "!#$%&()*+,-./:;<=>?@[]^_{|}~"

  const DEFAULT_SECRET_LENGTH := 32

  // ---- What a secret has to satisfy -------------------------------------------

  function Length(spec: SecretSpec): (n: nat)
    ensures n > 0
  {
    if spec.length <= 0 then DEFAULT_SECRET_LENGTH else spec.length
  }

  function Charset(spec: SecretSpec): string {
    SECRET_LOWER + SECRET_UPPER + SECRET_DIGITS + if spec.WantSymbols() then SECRET_SYMBOLS else ""
  }

  function Min(a: int, b: int): int {
    if a <= b then a else b
  }

  function ClampMin(v: int, max: nat): nat {
    if v < 0 then 0 else if v > max then max else v
  }

  /** The digits asked for, as many as fit. */
  function DigitFloor(spec: SecretSpec): nat {
    ClampMin(spec.minNumbers, Length(spec))
  }

  /** The symbols asked for, as many as fit beside the digits. */
  function SymbolFloor(spec: SecretSpec): nat {
    if spec.WantSymbols() then ClampMin(spec.minSpecial, Length(spec) - DigitFloor(spec)) else 0
  }

  predicate AllIn(s: string, chars: string) {
    forall c | c in s :: c in chars
  }

  function CountIn(s: string, chars: string): (n: nat)
    ensures n <= |s|
  {
    if s == "" then 0 else CountIn(s[..|s| - 1], chars) + if s[|s| - 1] in chars then 1 else 0
  }

  lemma {:induction false} CountJoins(a: string, b: string, chars: string)
    ensures CountIn(a + b, chars) == CountIn(a, chars) + CountIn(b, chars)
  {
    if b == "" {
      assert a + b == a;
    } else {
      CountJoins(a, b[..|b| - 1], chars);
      assert (a + b)[..|a + b| - 1] == a + b[..|b| - 1];
    }
  }

  lemma {:induction false} CountOfAll(s: string, chars: string)
    requires AllIn(s, chars)
    ensures CountIn(s, chars) == |s|
  {
    if s != "" {
      assert s == s[..|s| - 1] + [s[|s| - 1]];
      CountOfAll(s[..|s| - 1], chars);
    }
  }

  /** A count does not see the order. */
  lemma {:induction false} CountForgetsOrder(a: string, b: string, chars: string)
    requires multiset(a) == multiset(b)
    ensures CountIn(a, chars) == CountIn(b, chars)
    decreases |a|
  {
    if a == "" {
      assert |multiset(b)| == |b|;
    } else {
      var last := a[|a| - 1];
      assert a == a[..|a| - 1] + [last];
      assert last in multiset(b);
      var i :| 0 <= i < |b| && b[i] == last;
      assert b == b[..i] + [last] + b[i + 1..];
      assert multiset(b[..i] + b[i + 1..]) == multiset(b) - multiset{last};
      assert multiset(a[..|a| - 1]) == multiset(a) - multiset{last};
      CountForgetsOrder(a[..|a| - 1], b[..i] + b[i + 1..], chars);
      CountJoins(b[..i], b[i + 1..], chars);
      CountJoins(b[..i] + [last], b[i + 1..], chars);
      CountJoins(b[..i], [last], chars);
      assert [last][..0] == "";
    }
  }

  // ---- The rules by value ------------------------------------------------------------

  /** Letters of both cases and digits; symbols where they are wanted: every printed
      mark but the quotes, the backslash and the backtick. */
  predicate SecretSymbol(c: char) {
    '!' <= c <= '~' && !('0' <= c <= '9' || 'A' <= c <= 'Z' || 'a' <= c <= 'z') && c !in "\"'\\`"
  }

  /** Symbols are wanted when the manifest says so, or when it only asks for some. */
  predicate SymbolsWanted(spec: SecretSpec) {
    spec.symbols == Some(true) || (spec.symbols == None && spec.minSpecial >= 1)
  }

  lemma LowerAre(c: char)
    ensures c in SECRET_LOWER <==> 'a' <= c <= 'z'
  {}

  lemma UpperAre(c: char)
    ensures c in SECRET_UPPER <==> 'A' <= c <= 'Z'
  {}

  lemma DigitsAre(c: char)
    ensures c in SECRET_DIGITS <==> '0' <= c <= '9'
  {}

  /** The printed marks but the four left out, range by range. */
  predicate SymbolRange(c: char) {
    || c == '!' || '#' <= c <= '&' || '(' <= c <= '/' || ':' <= c <= '@' || c == '[' || ']' <= c <= '_'
    || '{' <= c <= '~'
  }

  lemma RangesAre(c: char)
    ensures SymbolRange(c) <==> SecretSymbol(c)
  {}

  lemma SymbolsInRange(c: char)
    ensures c in SECRET_SYMBOLS <==> SymbolRange(c)
  {}

  lemma SymbolsAre(c: char)
    ensures c in SECRET_SYMBOLS <==> SecretSymbol(c)
  {
    RangesAre(c);
    SymbolsInRange(c);
    hide SymbolRange, SecretSymbol;
  }

  /** A count is a number of positions. */
  lemma {:induction false} CountIsCardinality(s: string, chars: string)
    ensures CountIn(s, chars) == |set i | 0 <= i < |s| && s[i] in chars|
  {
    var at := set i | 0 <= i < |s| && s[i] in chars;
    if s == "" {
      assert at == {};
    } else {
      var last := |s| - 1;
      var before := set i | 0 <= i < last && s[..last][i] in chars;
      CountIsCardinality(s[..last], chars);
      assert at == before + if s[last] in chars then {last} else {};
    }
  }

  predicate SecretDigit(c: char) {
    '0' <= c <= '9'
  }

  lemma SameCount(s: string, chars: string, p: char -> bool)
    requires forall i | 0 <= i < |s| :: s[i] in chars <==> p(s[i])
    ensures CountIn(s, chars) == |set i | 0 <= i < |s| && p(s[i])|
  {
    CountIsCardinality(s, chars);
    hide CountIn;
    assert (set i | 0 <= i < |s| && s[i] in chars) == set i | 0 <= i < |s| && p(s[i]);
  }

  lemma DigitCount(s: string)
    ensures CountIn(s, SECRET_DIGITS) == |set i | 0 <= i < |s| && SecretDigit(s[i])|
  {
    hide CountIn;
    forall i | 0 <= i < |s|
      ensures s[i] in SECRET_DIGITS <==> SecretDigit(s[i])
    {
      DigitsAre(s[i]);
    }
    var p: char -> bool := SecretDigit;
    SameCount(s, SECRET_DIGITS, p);
    assert (set i | 0 <= i < |s| && p(s[i])) == set i | 0 <= i < |s| && SecretDigit(s[i]);
  }

  lemma SymbolCount(s: string)
    ensures CountIn(s, SECRET_SYMBOLS) == |set i | 0 <= i < |s| && SecretSymbol(s[i])|
  {
    hide CountIn, SecretSymbol;
    forall i | 0 <= i < |s|
      ensures s[i] in SECRET_SYMBOLS <==> SecretSymbol(s[i])
    {
      SymbolsAre(s[i]);
    }
    var p: char -> bool := SecretSymbol;
    SameCount(s, SECRET_SYMBOLS, p);
    assert (set i | 0 <= i < |s| && p(s[i])) == set i | 0 <= i < |s| && SecretSymbol(s[i]);
  }

  /** 32 characters unless a length is stated; the digits and the symbols asked for,
      as far as they fit, the digits first, counted by position. */
  lemma SecretRules(spec: SecretSpec, c: char, s: string)
    ensures CountIn(s, SECRET_DIGITS) == |set i | 0 <= i < |s| && SecretDigit(s[i])|
    ensures CountIn(s, SECRET_SYMBOLS) == |set i | 0 <= i < |s| && SecretSymbol(s[i])|
    ensures Length(spec) == if spec.length >= 1 then spec.length else 32
    ensures c in Charset(spec) <==>
      'a' <= c <= 'z' || 'A' <= c <= 'Z' || '0' <= c <= '9' || (SymbolsWanted(spec) && SecretSymbol(c))
    ensures 0 <= spec.minNumbers <= Length(spec) ==> DigitFloor(spec) == spec.minNumbers
    ensures spec.minNumbers < 0 ==> DigitFloor(spec) == 0
    ensures spec.minNumbers > Length(spec) ==> DigitFloor(spec) == Length(spec)
    ensures !SymbolsWanted(spec) || spec.minSpecial < 0 ==> SymbolFloor(spec) == 0
    ensures SymbolsWanted(spec) && 0 <= spec.minSpecial <= Length(spec) - DigitFloor(spec) ==>
      SymbolFloor(spec) == spec.minSpecial
    ensures SymbolsWanted(spec) && spec.minSpecial > Length(spec) - DigitFloor(spec) ==>
      SymbolFloor(spec) == Length(spec) - DigitFloor(spec)
  {
    hide SecretSymbol, CountIn;
    DigitCount(s);
    SymbolCount(s);
    LowerAre(c);
    UpperAre(c);
    DigitsAre(c);
    SymbolsAre(c);
    WantedAre(spec);
    CharsetIs(spec, c);
  }

  lemma WantedAre(spec: SecretSpec)
    ensures spec.WantSymbols() <==> SymbolsWanted(spec)
  {}

  lemma CharsetIs(spec: SecretSpec, c: char)
    ensures c in Charset(spec) <==>
      c in SECRET_LOWER || c in SECRET_UPPER || c in SECRET_DIGITS || (spec.WantSymbols() && c in SECRET_SYMBOLS)
  {}

  // ---- Draws and the shuffle ----------------------------------------------------

  method RandIndex(n: nat) returns (i: nat)
    ensures n <= 1 ==> i == 0
    ensures n > 1 ==> i < n
  {
    if n <= 1 {
      return 0;
    }
    i :| 0 <= i < n;
  }

  method RandChar(charset: string) returns (c: char)
    requires charset != ""
    ensures c in charset
  {
    var i := RandIndex(|charset|);
    c := charset[i];
  }

  function Swap<T>(b: seq<T>, i: nat, j: nat): (r: seq<T>)
    requires i < |b| && j < |b|
    ensures |r| == |b| && multiset(r) == multiset(b)
  {
    b[i := b[j]][j := b[i]]
  }

  /** One draw for every position from `i` down to 1. */
  predicate Draws(i: nat, picks: seq<nat>) {
    |picks| == i && forall k | 0 <= k < i :: picks[k] <= i - k
  }

  /** The shuffle with its draws spelled out. */
  function Shuffled<T>(b: seq<T>, i: nat, picks: seq<nat>): (r: seq<T>)
    requires (i < |b| || (i == 0 && b == [])) && Draws(i, picks)
    ensures |r| == |b| && multiset(r) == multiset(b)
    decreases i
  {
    if i == 0 then b
    else
      assert Draws(i - 1, picks[1..]);
      Shuffled(Swap(b, i, picks[0]), i - 1, picks[1..])
  }

  function Top<T>(b: seq<T>): nat {
    if b == [] then 0 else |b| - 1
  }

  /** After the draws `picks`, shuffling `now` from `i` on finishes the shuffle
      of `was`. */
  ghost predicate Finishes(was: seq<char>, picks: seq<nat>, now: seq<char>, i: nat) {
    i < |now| == |was| &&
    forall more | Draws(i, more) ::
      Draws(Top(was), picks + more) && Shuffled(was, Top(was), picks + more) == Shuffled(now, i, more)
  }

  lemma OneDraw(was: seq<char>, picks: seq<nat>, now: seq<char>, i: nat, j: nat)
    requires 0 < i < |now| && j <= i && Finishes(was, picks, now, i)
    ensures Finishes(was, picks + [j], Swap(now, i, j), i - 1)
  {
    forall more | Draws(i - 1, more)
      ensures Draws(Top(was), picks + [j] + more)
      ensures Shuffled(was, Top(was), picks + [j] + more) == Shuffled(Swap(now, i, j), i - 1, more)
    {
      assert picks + [j] + more == picks + ([j] + more);
      assert Draws(i, [j] + more) && ([j] + more)[1..] == more;
    }
  }

  method Shuffle(b: array<char>) returns (ghost picks: seq<nat>)
    modifies b
    ensures Draws(Top(old(b[..])), picks) && b[..] == Shuffled(old(b[..]), Top(old(b[..])), picks)
    ensures multiset(b[..]) == multiset(old(b[..]))
  {
    hide Finishes, Shuffled, Swap;
    picks := [];
    ghost var was := b[..];
    if b.Length == 0 {
      NothingToShuffle(was);
      return;
    }
    var i := b.Length - 1;
    NothingDrawnYet(was);
    while i > 0
      invariant 0 <= i < b.Length && Finishes(was, picks, b[..], i)
    {
      var j := RandIndex(i + 1);
      OneDraw(was, picks, b[..], i, j);
      ghost var before := b[..];
      b[i], b[j] := b[j], b[i];
      picks := picks + [j];
      IsSwap(before, b[..], i, j);
      i := i - 1;
    }
    AllDrawn(was, picks, b[..]);
  }

  lemma NothingToShuffle(was: seq<char>)
    requires was == []
    ensures Shuffled(was, Top(was), []) == was
  {}

  lemma NothingDrawnYet(was: seq<char>)
    requires was != []
    ensures Finishes(was, [], was, Top(was))
  {
    assert forall more: seq<nat> :: [] + more == more;
  }

  lemma IsSwap(before: seq<char>, after: seq<char>, i: nat, j: nat)
    requires i < |before| && j < |before| && |after| == |before|
    requires after[i] == before[j] && after[j] == before[i]
    requires forall k | 0 <= k < |before| && k != i && k != j :: after[k] == before[k]
    ensures after == Swap(before, i, j)
  {}

  lemma AllDrawn(was: seq<char>, picks: seq<nat>, now: seq<char>)
    requires Finishes(was, picks, now, 0)
    ensures Draws(Top(was), picks) && now == Shuffled(was, Top(was), picks)
  {
    assert Draws(0, []) && picks + [] == picks;
  }

  lemma {:induction false} ShuffledKeepsTail<T>(b: seq<T>, i: nat, picks: seq<nat>, k: nat)
    requires i < k < |b| && Draws(i, picks)
    ensures Shuffled(b, i, picks)[k] == b[k]
    decreases i
  {
    if i > 0 {
      assert Draws(i - 1, picks[1..]);
      ShuffledKeepsTail(Swap(b, i, picks[0]), i - 1, picks[1..], k);
    }
  }

  lemma TailDiffers<T>(b: seq<T>, target: seq<T>, i: nat)
    requires i < |b| == |target| && multiset(b) == multiset(target)
    requires forall k | i < k < |b| :: b[k] == target[k]
    ensures exists j :: 0 <= j <= i && b[j] == target[i]
  {
    var head, goal := b[..i + 1], target[..i + 1];
    assert b == head + b[i + 1..] && target == goal + target[i + 1..];
    assert b[i + 1..] == target[i + 1..];
    assert multiset(head) == multiset(b) - multiset(b[i + 1..]);
    assert multiset(goal) == multiset(target) - multiset(b[i + 1..]);
    assert goal[i] in multiset(head);
    var j :| 0 <= j < |head| && head[j] == goal[i];
    assert b[j] == target[i];
  }

  lemma SwapFixes<T>(b: seq<T>, target: seq<T>, i: nat, j: nat)
    requires j <= i < |b| == |target| && b[j] == target[i]
    requires forall k | i < k < |b| :: b[k] == target[k]
    ensures forall k | i <= k < |b| :: Swap(b, i, j)[k] == target[k]
  {}

  lemma {:induction false} ReachesFrom<T>(b: seq<T>, target: seq<T>, i: nat) returns (picks: seq<nat>)
    requires i < |b| == |target| && multiset(b) == multiset(target)
    requires forall k | i < k < |b| :: b[k] == target[k]
    ensures Draws(i, picks) && Shuffled(b, i, picks) == target
    decreases i
  {
    hide Swap;
    TailDiffers(b, target, i);
    var j: nat :| j <= i && b[j] == target[i];
    if i == 0 {
      picks := [];
      assert b == target;
    } else {
      SwapFixes(b, target, i, j);
      var rest := ReachesFrom(Swap(b, i, j), target, i - 1);
      picks := [j] + rest;
      assert picks[1..] == rest;
    }
  }

  /** No arrangement is out of reach of the shuffle. */
  lemma ShuffleReachesAll<T>(b: seq<T>, target: seq<T>)
    requires b != [] && multiset(b) == multiset(target)
    ensures exists picks :: Draws(Top(b), picks) && Shuffled(b, Top(b), picks) == target
  {
    assert |multiset(b)| == |b| && |multiset(target)| == |target|;
    var picks := ReachesFrom(b, target, Top(b));
  }

  predicate Distinct<T(==)>(b: seq<T>) {
    forall j, k | 0 <= j < k < |b| :: b[j] != b[k]
  }

  lemma SwapKeepsDistinct<T>(b: seq<T>, i: nat, j: nat)
    requires i < |b| && j < |b| && Distinct(b)
    ensures Distinct(Swap(b, i, j))
  {}

  /** Different draws never end in the same arrangement of different bytes:
      each arrangement is exactly as likely as every other. */
  lemma {:induction false} ShuffleIsUnbiased<T>(b: seq<T>, i: nat, p: seq<nat>, q: seq<nat>)
    requires i < |b| && Draws(i, p) && Draws(i, q) && Distinct(b)
    requires Shuffled(b, i, p) == Shuffled(b, i, q)
    ensures p == q
    decreases i
  {
    if i > 0 {
      FirstDrawShows(b, i, p);
      FirstDrawShows(b, i, q);
      SameElement(b, p[0], q[0]);
      SwapKeepsDistinct(b, i, p[0]);
      ShuffleIsUnbiased(Swap(b, i, p[0]), i - 1, p[1..], q[1..]);
      assert p == [p[0]] + p[1..] && q == [q[0]] + q[1..];
    }
  }

  lemma FirstDrawShows<T>(b: seq<T>, i: nat, picks: seq<nat>)
    requires 0 < i < |b| && Draws(i, picks)
    ensures Draws(i - 1, picks[1..]) && Shuffled(b, i, picks)[i] == b[picks[0]]
  {
    assert Draws(i - 1, picks[1..]);
    ShuffledKeepsTail(Swap(b, i, picks[0]), i - 1, picks[1..], i);
  }

  lemma SameElement<T>(b: seq<T>, j: nat, k: nat)
    requires j < |b| && k < |b| && Distinct(b) && b[j] == b[k]
    ensures j == k
  {}

  // ---- Generating ----------------------------------------------------------------

  /** The minimums once an overflow is taken from the symbols first. */
  method Minimums(spec: SecretSpec) returns (numbers: nat, special: nat)
    ensures numbers == DigitFloor(spec) && special == SymbolFloor(spec)
    ensures numbers + special <= Length(spec)
  {
    var length := Length(spec);
    numbers := ClampMin(spec.minNumbers, length);
    special := 0;
    if spec.WantSymbols() {
      special := ClampMin(spec.minSpecial, length);
    }
    var over := numbers + special - length;
    if over > 0 {
      var fromSymbols := Min(special, over);
      special := special - fromSymbols;
      numbers := numbers - (over - fromSymbols);
    }
  }

  /** Fills positions `from` to `to` with characters of `charset`. */
  method Fill(out: array<char>, from: nat, to: nat, charset: string)
    requires from <= to <= out.Length && charset != ""
    modifies out
    ensures out[..from] == old(out[..from])
    ensures AllIn(out[from..to], charset)
  {
    var i := from;
    while i < to
      invariant from <= i <= to
      invariant out[..from] == old(out[..from])
      invariant forall k | from <= k < i :: out[k] in charset
    {
      out[i] := RandChar(charset);
      i := i + 1;
    }
  }

  /** Places the minimums first and then the rest. */
  method Place(spec: SecretSpec, out: array<char>)
    requires out.Length == Length(spec)
    modifies out
    ensures Meets(spec, out[..])
  {
    hide CountIn, AllIn, Meets;
    var numbers, special := Minimums(spec);
    Fill(out, 0, numbers, SECRET_DIGITS);
    ghost var digits := out[0..numbers];
    assert out[..numbers] == digits;
    Fill(out, numbers, numbers + special, SECRET_SYMBOLS);
    ghost var symbols := out[numbers..numbers + special];
    assert out[..numbers + special] == digits + symbols;
    Fill(out, numbers + special, out.Length, Charset(spec));
    ghost var rest := out[numbers + special..out.Length];
    assert out[..] == digits + symbols + rest;
    MinimumsAreMet(spec, digits, symbols, rest);
  }

  /** Every generated secret has the exact length, allowed characters only, and
      both minimums: the digits always, the symbols up to the space left. */
  method GenerateSecret(spec: SecretSpec) returns (s: string)
    ensures |s| == Length(spec)
    ensures AllIn(s, Charset(spec))
    ensures CountIn(s, SECRET_DIGITS) >= DigitFloor(spec)
    ensures CountIn(s, SECRET_SYMBOLS) >= SymbolFloor(spec)
  {
    hide CountIn, AllIn, Charset, Shuffled;
    var out := new char[Length(spec)];
    Place(spec, out);
    ghost var placed := out[..];
    var _ := Shuffle(out);
    s := out[..];
    SameAfterShuffle(spec, placed, s);
  }

  ghost predicate Meets(spec: SecretSpec, s: string) {
    AllIn(s, Charset(spec)) && CountIn(s, SECRET_DIGITS) >= DigitFloor(spec)
      && CountIn(s, SECRET_SYMBOLS) >= SymbolFloor(spec)
  }

  lemma MinimumsAreMet(spec: SecretSpec, digits: string, symbols: string, rest: string)
    requires |digits| == DigitFloor(spec) && |symbols| == SymbolFloor(spec)
    requires AllIn(digits, SECRET_DIGITS) && AllIn(symbols, SECRET_SYMBOLS) && AllIn(rest, Charset(spec))
    ensures Meets(spec, digits + symbols + rest)
  {
    CountOfAll(digits, SECRET_DIGITS);
    CountOfAll(symbols, SECRET_SYMBOLS);
    CountJoins(digits + symbols, rest, SECRET_DIGITS);
    CountJoins(digits, symbols, SECRET_DIGITS);
    CountJoins(digits + symbols, rest, SECRET_SYMBOLS);
    CountJoins(digits, symbols, SECRET_SYMBOLS);
    hide CountIn;
    assert AllIn(digits, Charset(spec)) by { assert forall c | c in SECRET_DIGITS :: c in Charset(spec); }
    assert AllIn(symbols, Charset(spec)) by {
      if spec.WantSymbols() {
        assert forall c | c in SECRET_SYMBOLS :: c in Charset(spec);
      }
    }
  }

  lemma SameAfterShuffle(spec: SecretSpec, placed: string, s: string)
    requires Meets(spec, placed) && multiset(s) == multiset(placed)
    ensures Meets(spec, s)
  {
    CountForgetsOrder(s, placed, SECRET_DIGITS);
    CountForgetsOrder(s, placed, SECRET_SYMBOLS);
    forall c | c in s
      ensures c in Charset(spec)
    {
      assert c in multiset(s);
      assert c in placed;
    }
  }
}
