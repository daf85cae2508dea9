/** The encodings a CronJob and a Job are compared by: quoted argument lists
    and the bytes a run template is fingerprinted from. */
module Jobs {
  import opened Schema
  import opened Text
  import opened Wrappers

  // ---- Account names (internal/models/runas.go) --------------------------

  predicate RunAsPartValid(p: string) {
    && 1 <= |p| <= 32
    && forall i | 0 <= i < |p| ::
        || 'a' <= p[i] <= 'z' || 'A' <= p[i] <= 'Z' || '0' <= p[i] <= '9' || p[i] == '_'
        || ((p[i] == '-' || p[i] == '.') && i > 0)
  }

  /** Position of the first `c` at or after `from`, or the length. */
  function IndexFrom(s: string, c: char, from: nat): (i: nat)
    requires from <= |s|
    ensures from <= i <= |s|
    ensures i < |s| ==> s[i] == c
    ensures forall j | from <= j < i :: s[j] != c
    decreases |s| - from
  {
    if from == |s| || s[from] == c then from else IndexFrom(s, c, from + 1)
  }

  /** NormalizeRunAsUser with its error read as the empty account. */
  function RunAsAccount(v: string): string {
    var t := TrimSpace(v);
    var colon := IndexFrom(t, ':', 0);
    if t == "" then ""
    else if !RunAsPartValid(t[..colon]) then ""
    else if colon < |t| && !RunAsPartValid(t[colon + 1..]) then ""
    else t
  }

  // ---- Argument lists ------------------------------------------------------

  function HistoryOrDefault(n: int): int {
    if n <= 0 then 20 else n
  }

  function ArgList(printable: char -> bool, args: seq<string>): string {
    Join(QuoteAll(printable, args), " ")
  }

  function QuoteAll(printable: char -> bool, args: seq<string>): seq<string> {
    if args == [] then [] else [Quote(printable, args[0])] + QuoteAll(printable, args[1..])
  }

  /** strconv.Quote: one escape per character that is not printed as itself. */
  function Quote(printable: char -> bool, s: string): string {
    "\"" + Escaped(printable, s) + "\""
  }

  function Escaped(printable: char -> bool, s: string): string {
    if s == "" then "" else Escape(printable, s[0]) + Escaped(printable, s[1..])
  }

  function Escape(printable: char -> bool, c: char): string {
    if c == '"' then "\\\""
    else if c == '\\' then "\\\\"
    else if c == '\U{07}' then "\\a"
    else if c == '\U{08}' then "\\b"
    else if c == '\U{0C}' then "\\f"
    else if c == '\n' then "\\n"
    else if c == '\r' then "\\r"
    else if c == '\t' then "\\t"
    else if c == '\U{0B}' then "\\v"
    else if c < ' ' || c == '\U{7F}' then "\\x" + Hex(c as int, 2)
    else if Printable(printable, c) then [c]
    else if c as int < 0x10000 then "\\u" + Hex(c as int, 4)
    else "\\U" + Hex(c as int, 8)
  }

  /** strconv.IsPrint: fixed on ASCII, and whatever `printable` says above it. */
  predicate Printable(printable: char -> bool, c: char) {
    ' ' <= c <= '~' || (c > '\U{7F}' && printable(c))
  }

  function HexDigit(d: int): char
    requires 0 <= d < 16
  {
    if d < 10 then ('0' as int + d) as char else ('a' as int + d - 10) as char
  }

  /** The low `width` hexadecimal digits of `n`. */
  function Hex(n: int, width: nat): (s: string)
    requires n >= 0
    ensures |s| == width
  {
    if width == 0 then "" else Hex(n / 16, width - 1) + [HexDigit(n % 16)]
  }

  // ---- Fingerprints --------------------------------------------------------

  const UNIT_SEPARATOR := "\U{1F}"
  const NUL := '\U{00}'

  /** What a run executes, each part ended by a NUL. */
  function RunParts(j: JobSpec): seq<string> {
    [Join(j.command, UNIT_SEPARATOR), Join(j.entrypoint, UNIT_SEPARATOR),
     TrimSpace(j.image), j.registry, RunAsAccount(j.RunAsUser()), Itoa(j.timeoutSeconds)]
  }

  function Terminated(parts: seq<string>): string {
    if parts == [] then "" else parts[0] + [NUL] + Terminated(parts[1..])
  }

  function RunBytes(j: JobSpec): string {
    Terminated(RunParts(j))
  }
}
