/** Templates as the renderer reads them: literal text, actions that pipe
    references and quoted strings through helpers, and `${{ secrets.NAME }}`
    pointers. The two rewrites of the renderer, on this syntax. */
module Syntax {
  import opened Deferral
  import opened Templates
  import opened Text
  import opened Wrappers

  datatype Expr =
    | Dot(ref: Ref)                                   // .collection.name.field
    | Call(ref: Ref)                                  // (ref "collection" "name" "field")
    | SecretPointer(name: string)                     // secretRef "name"
    | DatabasePointer(name: string, field: string)    // databaseSecretRef "name" "field"
    | Quoted(text: string)
    | Apply(fn: string, args: Args)                   // (fn a b)
    | Pipe(from: Expr, fn: string, args: Args)        // from | fn a b

  datatype Args = NoArgs | Arg(head: Expr, tail: Args)

  /** `left` and `right` are what separates a body from its braces: blanks, and
      a dash on the far side of them when the action trims the text next to it. */
  datatype Part =
    | Literal(text: string)
    | Action(left: string, body: Expr, right: string)
    | Pointer(left: string, name: string, right: string)

  type Template = seq<Part>

  // ---- As text -----------------------------------------------------------------

  function ShowExpr(e: Expr): string {
    match e
    case Dot(r) => Written(r)
    case Call(r) => CallText(r)
    case SecretPointer(n) => PureCall(PureSecret(n))
    case DatabasePointer(n, f) => PureCall(PureDatabase(n, f))
    case Quoted(t) => "\"" + t + "\""
    case Apply(fn, args) => "(" + fn + ShowArgs(args) + ")"
    case Pipe(from, fn, args) => ShowExpr(from) + " | " + fn + ShowArgs(args)
  }

  function ShowArgs(args: Args): string {
    match args
    case NoArgs => ""
    case Arg(e, rest) => " " + ShowExpr(e) + ShowArgs(rest)
  }

  function ActionBody(p: Part): string
    requires !p.Literal?
  {
    match p
    case Action(l, e, r) => l + ShowExpr(e) + r
    case Pointer(l, n, r) => l + SECRETS_DOT + n + r
  }

  function ShowPart(p: Part): string {
    match p
    case Literal(t) => t
    case Action(_, _, _) => "{{" + ActionBody(p) + "}}"
    case Pointer(_, _, _) => "${{" + ActionBody(p) + "}}"
  }

  function Show(t: Template): string {
    if t == [] then "" else ShowPart(t[0]) + Show(t[1..])
  }

  // ---- expandRefs -----------------------------------------------------------------

  function ExpandExpr(e: Expr): Expr {
    match e
    case Dot(r) => Call(r)
    case Apply(fn, args) => Apply(fn, ExpandArgs(args))
    case Pipe(from, fn, args) => Pipe(ExpandExpr(from), fn, ExpandArgs(args))
    case _ => e
  }

  function ExpandArgs(args: Args): Args {
    match args
    case NoArgs => NoArgs
    case Arg(e, rest) => Arg(ExpandExpr(e), ExpandArgs(rest))
  }

  function ExpandPart(p: Part): Part {
    match p
    case Action(l, e, r) => Action(l, ExpandExpr(e), r)
    case _ => p
  }

  function Expand(t: Template): Template {
    if t == [] then [] else [ExpandPart(t[0])] + Expand(t[1..])
  }

  /** No dotted reference is left to expand. */
  predicate Expanded(e: Expr) {
    match e
    case Dot(_) => false
    case Apply(_, args) => ArgsExpanded(args)
    case Pipe(from, _, args) => Expanded(from) && ArgsExpanded(args)
    case _ => true
  }

  predicate ArgsExpanded(args: Args) {
    match args
    case NoArgs => true
    case Arg(e, rest) => Expanded(e) && ArgsExpanded(rest)
  }

  lemma ExpandsAll(e: Expr)
    ensures Expanded(ExpandExpr(e))
  {
    match e
    case Apply(_, args) => ExpandsAllArgs(args);
    case Pipe(from, _, args) => ExpandsAll(from); ExpandsAllArgs(args);
    case _ =>
  }

  lemma ExpandsAllArgs(args: Args)
    ensures ArgsExpanded(ExpandArgs(args))
  {
    match args
    case NoArgs =>
    case Arg(e, rest) => ExpandsAll(e); ExpandsAllArgs(rest);
  }

  predicate PartExpanded(p: Part) {
    p.Action? ==> Expanded(p.body)
  }

  predicate AllExpanded(t: Template) {
    forall i | 0 <= i < |t| :: PartExpanded(t[i])
  }

  lemma {:induction false} ExpandExpandsAll(t: Template)
    ensures |Expand(t)| == |t| && AllExpanded(Expand(t))
    ensures forall i | 0 <= i < |t| :: Expand(t)[i] == ExpandPart(t[i])
  {
    if t != [] {
      ExpandExpandsAll(t[1..]);
      if t[0].Action? {
        ExpandsAll(t[0].body);
      }
    }
  }

  // ---- deferSecrets -----------------------------------------------------------------

  /** What the worker can fill in by itself becomes a pointer call. */
  function DeferExpr(e: Expr): Expr {
    match e
    case Dot(r) =>
      if r.collection == Secrets && |r.keys| == 1 && SecretName(r.keys[0]) then SecretPointer(r.keys[0])
      else if r.collection == Databases && |r.keys| == 1 then DatabasePointer(r.keys[0], "")
      else if r.collection == Databases && |r.keys| == 2 && r.keys[1] in ["password", "uri", "url"]
      then DatabasePointer(r.keys[0], r.keys[1])
      else e
    case _ => e
  }

  function DeferPart(p: Part): Part {
    match p
    case Literal(_) => p
    case Action(l, e, r) => Action(l, DeferExpr(e), r)
    case Pointer(_, n, _) => Action(" ", SecretPointer(n), " ")
  }

  function Defer(t: Template): Template {
    if t == [] then [] else [DeferPart(t[0])] + Defer(t[1..])
  }

  // ---- References ---------------------------------------------------------------------

  function DotRefs(e: Expr): seq<Ref> {
    match e
    case Dot(r) => [r]
    case Apply(_, args) => ArgsDotRefs(args)
    case Pipe(from, _, args) => DotRefs(from) + ArgsDotRefs(args)
    case _ => []
  }

  function ArgsDotRefs(args: Args): seq<Ref> {
    match args
    case NoArgs => []
    case Arg(e, rest) => DotRefs(e) + ArgsDotRefs(rest)
  }

  /** The dotted references of a template, in order. */
  function AllDotRefs(t: Template): seq<Ref> {
    if t == [] then [] else (if t[0].Action? then DotRefs(t[0].body) else []) + AllDotRefs(t[1..])
  }

  /** The `ref` calls an expression makes, in order. */
  function Calls(e: Expr): seq<Ref> {
    match e
    case Call(r) => [r]
    case Apply(_, args) => ArgsCalls(args)
    case Pipe(from, _, args) => Calls(from) + ArgsCalls(args)
    case _ => []
  }

  function ArgsCalls(args: Args): seq<Ref> {
    match args
    case NoArgs => []
    case Arg(e, rest) => Calls(e) + ArgsCalls(rest)
  }

  function AllCalls(t: Template): seq<Ref> {
    if t == [] then [] else (if t[0].Action? then Calls(t[0].body) else []) + AllCalls(t[1..])
  }

  // ---- Source templates: what a manifest author writes ---------------------------------

  predicate HelperName(fn: string) {
    fn != "" && Letter(fn[0]) && forall c | c in fn :: NameChar(c) && c != '-'
  }

  /** A quoted string with no escapes, braces or dotted references in it. */
  predicate QuotedText(t: string) {
    '"' !in t && '\\' !in t && '\n' !in t && '{' !in t && '}' !in t && RefFree(t)
  }

  /** Well-formed: what `ShowExpr` prints reads back as the same expression. */
  predicate WellFormed(e: Expr) {
    match e
    case Dot(r) => IsRef(r)
    case Call(r) => IsRef(r)
    case SecretPointer(n) => SecretName(n)
    case DatabasePointer(n, f) => IsName(n) && f in ["", "password", "uri", "url"]
    case Quoted(t) => QuotedText(t)
    case Apply(fn, args) => HelperName(fn) && ArgsWellFormed(args)
    case Pipe(from, fn, args) => HelperName(fn) && WellFormed(from) && ArgsWellFormed(args)
  }

  predicate ArgsWellFormed(args: Args) {
    match args
    case NoArgs => true
    case Arg(e, rest) => WellFormed(e) && ArgsWellFormed(rest)
  }

  /** Only dotted references reach the data. */
  predicate Source(e: Expr) {
    match e
    case Dot(_) => true
    case Quoted(_) => true
    case Apply(_, args) => ArgsSource(args)
    case Pipe(from, _, args) => Source(from) && ArgsSource(args)
    case _ => false
  }

  predicate ArgsSource(args: Args) {
    match args
    case NoArgs => true
    case Arg(e, rest) => Source(e) && ArgsSource(rest)
  }

  predicate SourceTemplate(t: Template) {
    forall i | 0 <= i < |t| :: t[i].Action? ==> Source(t[i].body)
  }

  predicate Pointerless(t: Template) {
    forall i | 0 <= i < |t| :: !t[i].Pointer?
  }

  predicate Blanks(s: string) {
    forall c | c in s :: Blank(c)
  }

  /** Blanks, or a dash that trims and at least one blank. */
  predicate LeftEdge(s: string) {
    Blanks(s) || (|s| > 1 && s[0] == '-' && Blanks(s[1..]))
  }

  predicate RightEdge(s: string) {
    Blanks(s) || (|s| > 1 && s[|s| - 1] == '-' && Blanks(s[..|s| - 1]))
  }

  /** Text that opens no action. */
  predicate LiteralText(t: string) {
    t != "" && forall i | 0 <= i < |t| - 1 :: !(t[i] == '{' && t[i + 1] == '{')
  }

  predicate PartWellFormed(p: Part) {
    match p
    case Literal(t) => LiteralText(t)
    case Action(l, e, r) =>
      LeftEdge(l) && RightEdge(r) && WellFormed(e)
        && (r == "" ==> ShowExpr(e) != "" && ShowExpr(e)[|ShowExpr(e)| - 1] != '-')
    case Pointer(l, n, r) => Blanks(l) && SecretName(n) && Blanks(r)
  }

  /** Literals are maximal, and none ends in half an opening before an action. */
  predicate Joins(p: Part, t: Template) {
    p.Literal? && t != [] ==> !t[0].Literal? && p.text != "" && p.text[|p.text| - 1] != '{'
  }

  predicate TemplateWellFormed(t: Template) {
    t == [] || (PartWellFormed(t[0]) && Joins(t[0], t[1..]) && TemplateWellFormed(t[1..]))
  }
}
