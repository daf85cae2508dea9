/** Parsing a bundle of documents into a resource set and printing the set back.
    Documents are trees whose specs have been decoded under their kind. */
module Parsing {
  import opened Edges
  import opened Normalize
  import opened Resources
  import opened Schema
  import opened Topology
  import opened Wrappers

  // ---- Documents ------------------------------------------------------------------

  datatype Node =
    | Malformed
    | Doc(apiVersion: string, kind: Option<Kind>, meta: Meta, spec: Spec, children: seq<Node>)

  datatype ParseError =
    | Undecodable
    | WrongVersion(apiVersion: string)
    | UnknownKind
    | Invalid(id: Id)
    | Duplicate(id: Id)
    | BadReference(error: RefError)

  /** A document the head of which is accepted. */
  predicate GoodNode(n: Node) {
    n.Doc? && n.apiVersion == API_VERSION && n.kind.Some? && (n.children != [] ==> n.kind == Some(KindProject))
  }

  function HeadError(n: Node): ParseError {
    if n.Malformed? then Undecodable
    else if n.apiVersion != API_VERSION then WrongVersion(n.apiVersion)
    else if n.kind.None? then UnknownKind
    else Undecodable
  }

  function Head(n: Node): Resource
    requires GoodNode(n)
  {
    Resource(n.apiVersion, n.kind.value, n.meta, n.spec)
  }

  /** parseNode: a document and, for a Project, the documents inside it. */
  function FlattenNode(n: Node): Result<seq<Resource>, ParseError>
    decreases n, 0
  {
    if !GoodNode(n) then Failure(HeadError(n))
    else
      match FlattenAll(n.children)
      case Failure(e) => Failure(e)
      case Success(rs) => Success([Head(n)] + rs)
  }

  function FlattenAll(ns: seq<Node>): Result<seq<Resource>, ParseError>
    decreases ns, 1
  {
    if ns == [] then Success([])
    else
      match FlattenNode(ns[0])
      case Failure(e) => Failure(e)
      case Success(first) =>
        match FlattenAll(ns[1..])
        case Failure(e) => Failure(e)
        case Success(rest) => Success(first + rest)
  }

  /** The documents of a forest, each before the ones inside it. */
  function Preorder(ns: seq<Node>): seq<Node>
    decreases ns
  {
    if ns == [] then []
    else [ns[0]] + (if ns[0].Doc? then Preorder(ns[0].children) else []) + Preorder(ns[1..])
  }

  predicate AllGood(ns: seq<Node>) {
    forall n | n in ns :: GoodNode(n)
  }

  function Heads(ns: seq<Node>): (rs: seq<Resource>)
    requires AllGood(ns)
    ensures |rs| == |ns|
  {
    seq(|ns|, i requires 0 <= i < |ns| => Head(ns[i]))
  }

  lemma GoodJoin(a: seq<Node>, b: seq<Node>)
    ensures AllGood(a + b) <==> AllGood(a) && AllGood(b)
    ensures AllGood(a + b) ==> Heads(a + b) == Heads(a) + Heads(b)
  {
    assert AllGood(a + b) ==> AllGood(a) && AllGood(b) by {
      assert forall n | n in a :: n in a + b;
      assert forall n | n in b :: n in a + b;
    }
  }

  /** Flattening succeeds when every document is good, and lists their heads in
      preorder. */
  lemma {:induction false} FlattenIsPreorder(ns: seq<Node>)
    ensures FlattenAll(ns).Success? <==> AllGood(Preorder(ns))
    ensures AllGood(Preorder(ns)) ==> FlattenAll(ns).value == Heads(Preorder(ns))
    decreases ns
  {
    hide GoodNode, AllGood, Heads, Head;
    if ns == [] {
      NothingToFlatten();
    } else {
      var n := ns[0];
      var inner := if n.Doc? then Preorder(n.children) else [];
      var rest := Preorder(ns[1..]);
      GoodJoin([n] + inner, rest);
      GoodJoin([n], inner);
      OneGood(n);
      FlattenIsPreorder(ns[1..]);
      if n.Doc? {
        FlattenIsPreorder(n.children);
        InnerGood(n);
      }
    }
  }

  lemma NothingToFlatten()
    ensures AllGood([]) && Heads([]) == []
  {}

  lemma OneGood(n: Node)
    ensures AllGood([n]) <==> GoodNode(n)
    ensures GoodNode(n) ==> n.Doc? && Heads([n]) == [Head(n)]
  {
    assert n in [n];
  }

  lemma InnerGood(n: Node)
    requires n.Doc?
    ensures GoodNode(n) ==> FlattenNode(n) == match FlattenAll(n.children)
                                              case Failure(e) => Failure(e)
                                              case Success(rs) => Success([Head(n)] + rs)
  {}

  // ---- Validation ----------------------------------------------------------------------

  /** The checks the model does not spell out, as one predicate. */
  datatype Validators = Validators(rest: Resource -> bool)

  predicate ValidSpec(s: Spec) {
    match s
    case ApplicationOf(a) => a.deprecatedStrategy == "" && a.deprecatedRunAsUser == "" && OldCapabilities(a).None?
    case DatabaseOf(d) => d.placement.Some? ==> d.placement.value.legacyInstance == ""
    case RegistryOf(g) => RegistryServer(g.server)
    case _ => true
  }

  predicate Accepts(v: Validators, r: Resource) {
    r.meta.name != "" && ValidSpec(r.spec) && v.rest(r)
  }

  function AddAll(v: Validators, rs: seq<Resource>, list: seq<Resource>): Result<seq<Resource>, ParseError>
    decreases |rs|
  {
    if rs == [] then Success(list)
    else
      var r := Normalized(rs[0]);
      if !Accepts(v, r) then Failure(Invalid(r.Id()))
      else if Find(list, r.Id()).Some? then Failure(Duplicate(r.Id()))
      else AddAll(v, rs[1..], list + [r])
  }

  function ResolveReferences(list: seq<Resource>): Result<seq<Resource>, ParseError> {
    match FirstError(ViewOf(list), list)
    case Some(e) => Failure(BadReference(e))
    case None => Success(list)
  }

  /** What Parse makes of a stream of documents. */
  function ParseSpec(v: Validators, ns: seq<Node>): Result<seq<Resource>, ParseError> {
    match FlattenAll(ns)
    case Failure(e) => Failure(e)
    case Success(rs) =>
      match AddAll(v, rs, [])
      case Failure(e) => Failure(e)
      case Success(list) => ResolveReferences(list)
  }

  function AllNormalized(rs: seq<Resource>): (ns: seq<Resource>)
    ensures |ns| == |rs|
  {
    seq(|rs|, i requires 0 <= i < |rs| => Normalized(rs[i]))
  }

  predicate AllAccepted(v: Validators, rs: seq<Resource>) {
    forall i | 0 <= i < |rs| :: Accepts(v, Normalized(rs[i]))
  }

  lemma {:induction false} FindMeansPresent(list: seq<Resource>, id: Id)
    ensures Find(list, id).Some? <==> exists i | 0 <= i < |list| :: list[i].Id() == id
  {
    var p := Position(list, id);
    assert p < |list| ==> list[p].Id() == id;
  }

  lemma {:induction false} AddAllAccepts(v: Validators, rs: seq<Resource>, list: seq<Resource>)
    requires DistinctIds(list)
    ensures AddAll(v, rs, list).Success? <==> AllAccepted(v, rs) && DistinctIds(list + AllNormalized(rs))
    ensures AddAll(v, rs, list).Success? ==> AddAll(v, rs, list).value == list + AllNormalized(rs)
    decreases |rs|
  {
    hide Accepts, Normalized, Find;
    if rs == [] {
      assert list + AllNormalized(rs) == list;
    } else {
      var r := Normalized(rs[0]);
      assert AllNormalized(rs) == [r] + AllNormalized(rs[1..]);
      assert list + AllNormalized(rs) == list + [r] + AllNormalized(rs[1..]);
      assert forall i | 0 <= i < |rs[1..]| :: rs[1..][i] == rs[i + 1];
      FindMeansPresent(list, r.Id());
      DistinctSnoc(list, r, AllNormalized(rs[1..]));
      if Find(list, r.Id()).None? {
        AddAllAccepts(v, rs[1..], list + [r]);
      }
      AcceptedFirst(v, rs);
    }
  }

  lemma AcceptedFirst(v: Validators, rs: seq<Resource>)
    requires rs != []
    ensures AllAccepted(v, rs) <==> Accepts(v, Normalized(rs[0])) && AllAccepted(v, rs[1..])
  {
    hide Accepts, Normalized;
    assert forall i | 0 <= i < |rs[1..]| :: rs[1..][i] == rs[i + 1];
    if Accepts(v, Normalized(rs[0])) && AllAccepted(v, rs[1..]) {
      forall i | 0 <= i < |rs|
        ensures Accepts(v, Normalized(rs[i]))
      {
        assert i > 0 ==> rs[1..][i - 1] == rs[i];
      }
    }
  }

  lemma DistinctSnoc(list: seq<Resource>, r: Resource, more: seq<Resource>)
    requires DistinctIds(list)
    ensures (forall i | 0 <= i < |list| :: list[i].Id() != r.Id()) ==> DistinctIds(list + [r])
    ensures DistinctIds(list + [r] + more) ==> forall i | 0 <= i < |list| :: list[i].Id() != r.Id()
  {
    var all := list + [r] + more;
    assert all[|list|] == r;
    assert forall i | 0 <= i < |list| :: all[i] == list[i];
  }

  /** A bundle parses exactly when every document is good, every normalised
      resource is valid, no key repeats and the references resolve; the set then
      lists the normalised documents in preorder. */
  lemma ParseAccepts(v: Validators, ns: seq<Node>)
    ensures ParseSpec(v, ns).Success? <==>
      && AllGood(Preorder(ns))
      && var list := AllNormalized(Heads(Preorder(ns)));
         AllAccepted(v, Heads(Preorder(ns))) && DistinctIds(list) && FirstError(ViewOf(list), list).None?
    ensures ParseSpec(v, ns).Success? ==> ParseSpec(v, ns).value == AllNormalized(Heads(Preorder(ns)))
  {
    hide FlattenAll, AddAll, Preorder, Heads, AllNormalized, AllGood, FirstError, AllAccepted;
    FlattenIsPreorder(ns);
    if AllGood(Preorder(ns)) {
      var rs := Heads(Preorder(ns));
      AddAllAccepts(v, rs, []);
      assert [] + AllNormalized(rs) == AllNormalized(rs);
    }
  }

  // ---- Which error a bundle fails with ----------------------------------------------------

  lemma {:induction false} FlattenStops(pre: seq<Node>, n: Node, post: seq<Node>)
    requires AllGood(Preorder(pre)) && FlattenNode(n).Failure?
    ensures FlattenAll(pre + [n] + post) == Failure(FlattenNode(n).error)
  {
    hide GoodNode, AllGood, FlattenNode, Preorder;
    var ns := pre + [n] + post;
    if pre == [] {
      assert ns[0] == n;
    } else {
      assert ns[0] == pre[0] && ns[1..] == pre[1..] + [n] + post;
      FlattenIsPreorder(pre);
      FlattenIsPreorder(pre[1..]);
      FlattenParts(pre);
      FlattenStops(pre[1..], n, post);
    }
  }

  lemma FlattenParts(ns: seq<Node>)
    requires ns != [] && FlattenAll(ns).Success?
    ensures FlattenNode(ns[0]).Success? && FlattenAll(ns[1..]).Success?
  {}

  /** The first document that is no manifest decides, whatever follows it and however
      invalid the ones before it are: what does not decode, what is of another version,
      what has no known kind, and what holds resources without being a Project. */
  lemma FirstBadDocument(v: Validators, pre: seq<Node>, n: Node, post: seq<Node>)
    requires AllGood(Preorder(pre))
    ensures var r := ParseSpec(v, pre + [n] + post);
      && (n.Malformed? ==> r == Failure(Undecodable))
      && (n.Doc? && n.apiVersion != "miabi.io/v1" ==> r == Failure(WrongVersion(n.apiVersion)))
      && (n.Doc? && n.apiVersion == "miabi.io/v1" && n.kind == None ==> r == Failure(UnknownKind))
      && (n.Doc? && n.apiVersion == "miabi.io/v1" && n.kind.Some? && n.kind.value != KindProject && n.children != [] ==>
            r == Failure(Undecodable))
  {
    hide AllGood, Preorder, FlattenAll;
    if !GoodNode(n) {
      BadHead(n);
      FlattenStops(pre, n, post);
    }
  }

  lemma BadHead(n: Node)
    requires !GoodNode(n)
    ensures FlattenNode(n) == Failure(HeadError(n))
  {}

  lemma {:induction false} AddAllStops(v: Validators, rs: seq<Resource>, r: Resource, post: seq<Resource>,
                                       list: seq<Resource>)
    requires DistinctIds(list) && AllAccepted(v, rs) && DistinctIds(list + AllNormalized(rs))
    ensures AddAll(v, rs + [r] + post, list) == AddAll(v, [r] + post, list + AllNormalized(rs))
    decreases |rs|
  {
    hide Accepts, Normalized, Find, AddAll;
    if rs == [] {
      assert rs + [r] + post == [r] + post && list + AllNormalized(rs) == list;
    } else {
      var first := Normalized(rs[0]);
      var all := rs + [r] + post;
      assert all[0] == rs[0] && all[1..] == rs[1..] + [r] + post;
      assert AllNormalized(rs) == [first] + AllNormalized(rs[1..]);
      assert list + AllNormalized(rs) == list + [first] + AllNormalized(rs[1..]);
      AcceptedFirst(v, rs);
      FindMeansPresent(list, first.Id());
      DistinctSnoc(list, first, AllNormalized(rs[1..]));
      AddOne(v, all, list);
      AddAllStops(v, rs[1..], r, post, list + [first]);
    }
  }

  lemma AddOne(v: Validators, rs: seq<Resource>, list: seq<Resource>)
    requires rs != [] && Accepts(v, Normalized(rs[0])) && Find(list, Normalized(rs[0]).Id()).None?
    ensures AddAll(v, rs, list) == AddAll(v, rs[1..], list + [Normalized(rs[0])])
  {}

  /** When every document is a manifest, the first that is invalid or repeats a key
      decides: invalid before repeated, and both before any reference is looked up. */
  lemma FirstBadResource(v: Validators, ns: seq<Node>, rs: seq<Resource>, r: Resource, post: seq<Resource>)
    requires AllGood(Preorder(ns)) && Heads(Preorder(ns)) == rs + [r] + post
    requires AllAccepted(v, rs) && DistinctIds(AllNormalized(rs))
    ensures var x, id := Normalized(r), ResourceId(r.kind, r.meta.name);
      && (!v.rest(x) || r.meta.name == "" || !ValidSpec(x.spec) ==> ParseSpec(v, ns) == Failure(Invalid(id)))
      && (v.rest(x) && r.meta.name != "" && ValidSpec(x.spec)
          && (exists i | 0 <= i < |rs| :: rs[i].kind == r.kind && rs[i].meta.name == r.meta.name)
          ==> ParseSpec(v, ns) == Failure(Duplicate(id)))
  {
    hide FlattenAll, AddAll, Preorder, Heads, AllGood, FirstError, AllAccepted, NormalSpec, ValidSpec, Find,
      DistinctIds;
    FlattenIsPreorder(ns);
    var list := AllNormalized(rs);
    assert [] + list == list;
    NoneDistinct();
    AddAllStops(v, rs, r, post, []);
    AddBad(v, [r] + post, list);
    FindMeansPresent(list, Normalized(r).Id());
    forall i | 0 <= i < |rs| && rs[i].kind == r.kind && rs[i].meta.name == r.meta.name
      ensures list[i].Id() == Normalized(r).Id()
    {}
  }

  lemma NoneDistinct()
    ensures DistinctIds([])
  {}

  lemma AddBad(v: Validators, rs: seq<Resource>, list: seq<Resource>)
    requires rs != []
    ensures var r := Normalized(rs[0]);
      && (!Accepts(v, r) ==> AddAll(v, rs, list) == Failure(Invalid(r.Id())))
      && (Accepts(v, r) && Find(list, r.Id()).Some? ==> AddAll(v, rs, list) == Failure(Duplicate(r.Id())))
  {}

  // ---- Printing ---------------------------------------------------------------------------

  function DropEmpty<T(==)>(o: Option<seq<T>>): Option<seq<T>> {
    if o == Some([]) then None else o
  }

  function WireSecurity(s: Option<SecuritySpec>): Option<SecuritySpec> {
    match s
    case None => None
    case Some(x) =>
      Some(x.(capabilities := (if x.capabilities.Some?
                               then Some(x.capabilities.value.(add := DropEmpty(x.capabilities.value.add))) else None),
              deprecatedAddCapabilities := DropEmpty(x.deprecatedAddCapabilities)))
  }

  function WireApplication(a: ApplicationSpec): ApplicationSpec {
    a.(placement := (if a.placement.Some?
                     then Some(a.placement.value.(constraints := DropEmpty(a.placement.value.constraints))) else None),
       security := WireSecurity(a.security), configFP := "")
  }

  /** What is left of a spec once it is printed and decoded: derived fields are
      never printed, and an empty list or map that differs from none is not. */
  function Wire(s: Spec): Spec {
    match s
    case ApplicationOf(a) => ApplicationOf(WireApplication(a))
    case StackOf(t) => StackOf(if t.env == Some(map[]) then t.(env := None) else t)
    case DatabaseOf(d) =>
      DatabaseOf(if d.placement.Some? then d.(placement := Some(d.placement.value.(legacyInstance := ""))) else d)
    case SealedSecretOf(x) => SealedSecretOf(x.(sealedFP := ""))
    case RegistryOf(g) => RegistryOf(g.(passwordFP := ""))
    case ConfigOf(c) => ConfigOf(c.(digestFP := ""))
    case MiddlewareOf(w) => MiddlewareOf(w.(ruleFP := ""))
    case CronJobOf(c) => CronJobOf(c.(security := WireSecurity(c.security)))
    case JobOf(j) => JobOf(j.(security := WireSecurity(j.security), specFP := ""))
    case _ => s
  }

  function WireResource(r: Resource): Resource {
    r.(apiVersion := OrElse(r.apiVersion, API_VERSION), spec := Wire(r.spec))
  }

  function Printed(r: Resource): Node {
    var w := WireResource(r);
    Doc(w.apiVersion, Some(w.kind), w.meta, w.spec, [])
  }

  function NonProjects(list: seq<Resource>): seq<Resource> {
    if list == [] then []
    else NonProjects(list[..|list| - 1]) + if list[|list| - 1].kind == KindProject then [] else [list[|list| - 1]]
  }

  function PrintedAll(list: seq<Resource>): (ns: seq<Node>)
    ensures |ns| == |list|
  {
    seq(|list|, i requires 0 <= i < |list| => Printed(list[i]))
  }

  function WireAll(list: seq<Resource>): (rs: seq<Resource>)
    ensures |rs| == |list|
  {
    seq(|list|, i requires 0 <= i < |list| => WireResource(list[i]))
  }

  /** The documents Marshal writes, Projects left out. */
  function MarshalSpec(list: seq<Resource>): seq<Node> {
    PrintedAll(NonProjects(list))
  }

  method Marshal(set_: ResourceSet) returns (out: seq<Node>)
    requires set_.Valid()
    ensures out == MarshalSpec(set_.list)
  {
    hide Printed;
    var list := set_.list;
    out := [];
    for i := 0 to |list|
      invariant out == PrintedAll(NonProjects(list[..i]))
    {
      assert list[..i + 1][..i] == list[..i];
      if list[i].kind != KindProject {
        out := out + [Printed(list[i])];
      }
    }
    assert list[..|list|] == list;
  }

  // ---- Round trip -----------------------------------------------------------------------------

  /** Nothing the model leaves open looks past what is printed. */
  ghost predicate WireSafe(v: Validators) {
    forall r | v.rest(r) :: v.rest(WireResource(r))
  }

  lemma {:induction false} NonProjectsAre(list: seq<Resource>, r: Resource)
    ensures r in NonProjects(list) <==> r in list && r.kind != KindProject
  {
    if list != [] {
      NonProjectsAre(list[..|list| - 1], r);
      assert list == list[..|list| - 1] + [list[|list| - 1]];
    }
  }

  lemma {:induction false} NonProjectsDistinct(list: seq<Resource>)
    requires DistinctIds(list)
    ensures DistinctIds(NonProjects(list))
  {
    if list != [] {
      var init, last := list[..|list| - 1], list[|list| - 1];
      NonProjectsDistinct(init);
      forall r | r in NonProjects(init)
        ensures r.Id() != last.Id()
      {
        NonProjectsAre(init, r);
      }
    }
  }

  lemma WireSecurityKeeps(s: Option<SecuritySpec>)
    ensures s.Some? && s.value.deprecatedAddCapabilities.None? ==>
      WireSecurity(s).Some? && WireSecurity(s).value.deprecatedAddCapabilities.None?
    ensures s.None? ==> WireSecurity(s).None?
    ensures s.Some? ==> WireSecurity(s).value.runAsUser == s.value.runAsUser
  {}

  /** A normal, valid spec is still normal and valid once it is printed. */
  lemma WireStaysNormal(s: Spec)
    requires NormalSpec(s) == s && ValidSpec(s)
    ensures NormalSpec(Wire(s)) == Wire(s) && ValidSpec(Wire(s))
  {
    hide NormalApplication, NormalizeServer, NormalizeGitURL, RegistryServer, WireApplication, WireSecurity;
    match s
    case ApplicationOf(a) => WireApplicationStays(a);
    case _ =>
  }

  lemma WireApplicationStays(a: ApplicationSpec)
    requires NormalApplication(a) == a && ValidSpec(ApplicationOf(a))
    ensures NormalApplication(WireApplication(a)) == WireApplication(a) && ValidSpec(ApplicationOf(WireApplication(a)))
  {
    hide AdoptDeprecated, WireSecurity, NormalPorts, NormalMounts;
    var w := WireApplication(a);
    WireSecurityKeeps(a.security);
    NormalParts(a);
    assert w.(ports := NormalPorts(w.ports), mounts := NormalMounts(w.mounts),
      reloadPolicy := OrElse(w.reloadPolicy, RELOAD_RESTART)) == w;
    AdoptedStays(w);
  }

  lemma NormalParts(a: ApplicationSpec)
    requires NormalApplication(a) == a
    ensures NormalPorts(a.ports) == a.ports && NormalMounts(a.mounts) == a.mounts
      && OrElse(a.reloadPolicy, RELOAD_RESTART) == a.reloadPolicy
  {
    hide AdoptDeprecated;
    AdoptionKeepsRest(a.(ports := NormalPorts(a.ports), mounts := NormalMounts(a.mounts),
                         reloadPolicy := OrElse(a.reloadPolicy, RELOAD_RESTART)));
  }

  lemma WireKeepsLinks(s: Spec)
    ensures HardLinks(Wire(s)) == HardLinks(s)
  {
    hide WireSecurity;
  }

  /** What a set from Parse is known to hold. */
  ghost predicate Parsed(v: Validators, list: seq<Resource>) {
    && DistinctIds(list) && FirstError(ViewOf(list), list).None?
    && forall r | r in list :: r.apiVersion == API_VERSION && NormalSpec(r.spec) == r.spec && Accepts(v, r)
  }

  lemma NormalIsStable(v: Validators, r: Resource)
    requires Accepts(v, Normalized(r))
    ensures NormalSpec(NormalSpec(r.spec)) == NormalSpec(r.spec)
  {
    hide NormalSpec, RegistryServer, PlainServer, StableServer, NormalizeServer;
    if r.spec.RegistryOf? {
      RegistryIsNormal(r.spec);
      AcceptedServerIsPlain(NormalizeServer(r.spec.registry.server));
      ServerIsStableIff(r.spec.registry.server);
    }
    NormalizingIsIdempotent(r.spec);
  }

  lemma RegistryIsNormal(s: Spec)
    requires s.RegistryOf?
    ensures NormalSpec(s) == RegistryOf(s.registry.(server := NormalizeServer(s.registry.server)))
  {}

  lemma ParseGivesParsed(v: Validators, ns: seq<Node>)
    requires ParseSpec(v, ns).Success?
    ensures Parsed(v, ParseSpec(v, ns).value)
  {
    hide ParseSpec, Accepts, NormalSpec, FirstError, Preorder, DistinctIds;
    ParseAccepts(v, ns);
    var heads := Heads(Preorder(ns));
    var list := AllNormalized(heads);
    forall r | r in list
      ensures r.apiVersion == API_VERSION && NormalSpec(r.spec) == r.spec && Accepts(v, r)
    {
      var i :| 0 <= i < |list| && list[i] == r;
      assert Preorder(ns)[i] in Preorder(ns);
      assert r == Normalized(heads[i]) && heads[i] == Head(Preorder(ns)[i]);
      NormalIsStable(v, heads[i]);
    }
  }

  lemma {:induction false} FlattenPrinted(list: seq<Resource>)
    requires forall r | r in list :: r.apiVersion == API_VERSION
    ensures FlattenAll(PrintedAll(list)) == Success(WireAll(list))
  {
    hide WireResource;
    if list != [] {
      var ns := PrintedAll(list);
      assert ns[1..] == PrintedAll(list[1..]);
      FlattenPrinted(list[1..]);
      PrintedIsGood(list[0]);
      assert WireAll(list) == [WireResource(list[0])] + WireAll(list[1..]);
    }
  }

  lemma PrintedIsGood(r: Resource)
    requires r.apiVersion == API_VERSION
    ensures FlattenNode(Printed(r)) == Success([WireResource(r)])
  {
    hide Wire;
    var n := Printed(r);
    assert GoodNode(n) && Head(n) == WireResource(r);
    assert FlattenAll([]) == Success([]);
    assert [Head(n)] + [] == [WireResource(r)];
  }

  lemma PrintedParses(v: Validators, r: Resource)
    requires WireSafe(v) && Accepts(v, r) && NormalSpec(r.spec) == r.spec
    ensures Normalized(WireResource(r)) == WireResource(r) && Accepts(v, WireResource(r))
  {
    hide NormalSpec, Wire, ValidSpec;
    WireStaysNormal(r.spec);
  }

  lemma WireKeepsIds(list: seq<Resource>)
    requires DistinctIds(list)
    ensures DistinctIds(WireAll(list))
  {
    hide Wire;
  }

  /** References hold without the Projects and without what is not printed. */
  lemma ReferencesSurvive(list: seq<Resource>)
    requires DistinctIds(list) && FirstError(ViewOf(list), list).None?
    ensures DistinctIds(WireAll(NonProjects(list)))
    ensures var out := WireAll(NonProjects(list)); FirstError(ViewOf(out), out).None?
  {
    hide ResourceError, FirstError, HardLinks, Wire, ViewOf;
    var kept := NonProjects(list);
    var out := WireAll(kept);
    NonProjectsDistinct(list);
    WireKeepsIds(kept);
    FirstErrorSoundly(ViewOf(list), list);
    ViewMembers(list);
    ViewMembers(out);
    forall r | r in out
      ensures ResourceError(ViewOf(out), r).None?
    {
      var i :| 0 <= i < |out| && out[i] == r;
      NonProjectsAre(list, kept[i]);
      ResourceErrorSoundly(ViewOf(list), kept[i]);
      ResolvesStill(list, kept[i]);
      ResourceErrorSoundly(ViewOf(out), r);
    }
    FirstErrorSoundly(ViewOf(out), out);
  }

  lemma ResolvesStill(list: seq<Resource>, r: Resource)
    requires DistinctIds(list) && DistinctIds(WireAll(NonProjects(list))) && Resolves(ViewOf(list), r)
    ensures Resolves(ViewOf(WireAll(NonProjects(list))), WireResource(r))
  {
    hide HardLinks, Wire;
    WireKeepsLinks(r.spec);
    forall id: Id | id.kind != KindProject
      ensures id in ViewOf(list) <==> id in ViewOf(WireAll(NonProjects(list)))
    {
      StillThere(list, id);
    }
    forall l | l in HardLinks(r.spec)
      ensures l.to.kind != KindProject
    {
      HardLinkKinds(r.spec, l);
    }
  }

  lemma HardLinkKinds(s: Spec, l: Link)
    requires l in HardLinks(s)
    ensures l.to.kind != KindProject
  {}

  lemma StillThere(list: seq<Resource>, id: Id)
    requires id.kind != KindProject
    ensures id in ViewOf(list) <==> id in ViewOf(WireAll(NonProjects(list)))
  {
    hide Wire, ViewOf;
    var kept := NonProjects(list);
    var out := WireAll(kept);
    ViewMembers(list);
    ViewMembers(out);
    if id in ViewOf(list) {
      var r := ViewOf(list)[id];
      NonProjectsAre(list, r);
      var i :| 0 <= i < |kept| && kept[i] == r;
      assert out[i] in out && out[i].Id() == id;
    }
    if id in ViewOf(out) {
      var i :| 0 <= i < |out| && out[i] == ViewOf(out)[id];
      assert kept[i] in kept;
      NonProjectsAre(list, kept[i]);
      assert kept[i] in list && kept[i].Id() == id;
    }
  }

  /** Printing what Parse produced and parsing it again gives its resources
      other than Projects, in the same order, as printing leaves them. */
  lemma ParseOfMarshal(v: Validators, ns: seq<Node>)
    requires WireSafe(v) && ParseSpec(v, ns).Success?
    ensures var list := ParseSpec(v, ns).value;
      ParseSpec(v, MarshalSpec(list)) == Success(WireAll(NonProjects(list)))
  {
    hide ParseSpec, Wire;
    ParseGivesParsed(v, ns);
    MarshalParses(v, ParseSpec(v, ns).value);
  }

  lemma MarshalParses(v: Validators, list: seq<Resource>)
    requires WireSafe(v) && Parsed(v, list)
    ensures ParseSpec(v, MarshalSpec(list)) == Success(WireAll(NonProjects(list)))
  {
    hide Accepts, NormalSpec, FirstError, Wire, FlattenAll, AddAll, DistinctIds, WireSafe;
    var kept := NonProjects(list);
    var out := WireAll(kept);
    forall r | r in kept
      ensures r.apiVersion == API_VERSION && NormalSpec(r.spec) == r.spec && Accepts(v, r)
    {
      NonProjectsAre(list, r);
    }
    FlattenPrinted(kept);
    ReferencesSurvive(list);
    forall i | 0 <= i < |out|
      ensures Normalized(out[i]) == out[i] && Accepts(v, out[i])
    {
      assert kept[i] in kept;
      PrintedParses(v, kept[i]);
    }
    assert AllNormalized(out) == out;
    assert [] + AllNormalized(out) == out;
    NoIds();
    AddAllAccepts(v, out, []);
  }

  lemma NoIds()
    ensures DistinctIds([])
  {}

  // ---- What printing loses -------------------------------------------------------------------

  /** Stated, but stated as nothing. */
  predicate EmptySecurity(s: Option<SecuritySpec>) {
    && s.Some?
    && (|| (s.value.capabilities.Some? && s.value.capabilities.value.add == Some([]))
        || s.value.deprecatedAddCapabilities == Some([]))
  }

  predicate StatedEmpty(s: Spec) {
    match s
    case ApplicationOf(a) =>
      (a.placement.Some? && a.placement.value.constraints == Some([])) || EmptySecurity(a.security)
    case StackOf(t) => t.env == Some(map[])
    case CronJobOf(c) => EmptySecurity(c.security)
    case JobOf(j) => EmptySecurity(j.security)
    case _ => false
  }

  /** A derived field is filled in, which decoding never does. */
  predicate HasDerived(s: Spec) {
    match s
    case ApplicationOf(a) => a.configFP != ""
    case DatabaseOf(d) => d.placement.Some? && d.placement.value.legacyInstance != ""
    case SealedSecretOf(x) => x.sealedFP != ""
    case RegistryOf(g) => g.passwordFP != ""
    case ConfigOf(c) => c.digestFP != ""
    case MiddlewareOf(w) => w.ruleFP != ""
    case JobOf(j) => j.specFP != ""
    case _ => false
  }

  lemma WireSecurityIsExactIff(s: Option<SecuritySpec>)
    ensures WireSecurity(s) == s <==> !EmptySecurity(s)
  {}

  /** The round trip is exact except for a list or map stated empty: an empty
      placement.constraints, list of added capabilities or Stack env. */
  lemma WireIsExactIff(s: Spec)
    requires !HasDerived(s)
    ensures Wire(s) == s <==> !StatedEmpty(s)
  {
    hide WireSecurity, EmptySecurity;
    match s
    case ApplicationOf(a) => WireSecurityIsExactIff(a.security); WireApplicationIsExactIff(a);
    case CronJobOf(c) => WireSecurityIsExactIff(c.security);
    case JobOf(j) => WireSecurityIsExactIff(j.security);
    case _ =>
  }

  lemma WireApplicationIsExactIff(a: ApplicationSpec)
    requires a.configFP == ""
    ensures WireApplication(a) == a <==>
      WireSecurity(a.security) == a.security && !(a.placement.Some? && a.placement.value.constraints == Some([]))
  {
    hide WireSecurity;
  }

  /** Parsing the print gives the resources back unchanged exactly when none of
      them states something empty. */
  lemma RoundTripIsExactIff(v: Validators, ns: seq<Node>)
    requires WireSafe(v) && ParseSpec(v, ns).Success?
    requires forall r | r in NonProjects(ParseSpec(v, ns).value) :: !HasDerived(r.spec)
    ensures var kept := NonProjects(ParseSpec(v, ns).value);
      ParseSpec(v, MarshalSpec(ParseSpec(v, ns).value)) == Success(kept) <==>
        forall r | r in kept :: !StatedEmpty(r.spec)
  {
    hide ParseSpec, Wire, WireSafe, MarshalSpec, NonProjects, StatedEmpty, HasDerived, Accepts, NormalSpec, FirstError,
         DistinctIds;
    var kept := NonProjects(ParseSpec(v, ns).value);
    ParseOfMarshal(v, ns);
    ParseGivesParsed(v, ns);
    forall r | r in kept
      ensures WireResource(r) == r <==> !StatedEmpty(r.spec)
    {
      NonProjectsAre(ParseSpec(v, ns).value, r);
      WireIsExactIff(r.spec);
      assert WireResource(r) == r <==> Wire(r.spec) == r.spec;
    }
    if WireAll(kept) == kept {
      forall r | r in kept
        ensures !StatedEmpty(r.spec)
      {
        var i :| 0 <= i < |kept| && kept[i] == r;
        assert WireAll(kept)[i] == WireResource(r);
      }
    }
  }

  lemma WireSecurityTwice(s: Option<SecuritySpec>)
    ensures WireSecurity(WireSecurity(s)) == WireSecurity(s)
  {}

  lemma WireTwice(s: Spec)
    ensures Wire(Wire(s)) == Wire(s)
  {
    hide WireSecurity;
    match s
    case ApplicationOf(a) => WireSecurityTwice(a.security);
    case CronJobOf(c) => WireSecurityTwice(c.security);
    case JobOf(j) => WireSecurityTwice(j.security);
    case _ =>
  }

  lemma {:induction false} NoProjectsLeft(list: seq<Resource>)
    requires forall r | r in list :: r.kind != KindProject
    ensures NonProjects(list) == list
  {
    if list != [] {
      assert list == list[..|list| - 1] + [list[|list| - 1]];
      NoProjectsLeft(list[..|list| - 1]);
    }
  }

  /** From the second round on nothing changes any more. */
  lemma SecondRoundIsExact(v: Validators, ns: seq<Node>)
    requires WireSafe(v) && ParseSpec(v, ns).Success?
    ensures var once := WireAll(NonProjects(ParseSpec(v, ns).value));
      ParseSpec(v, MarshalSpec(once)) == Success(once)
  {
    hide ParseSpec, Wire, WireSafe;
    var list := ParseSpec(v, ns).value;
    var once := WireAll(NonProjects(list));
    ParseOfMarshal(v, ns);
    ParseOfMarshal(v, MarshalSpec(list));
    forall r | r in once
      ensures r.kind != KindProject && WireResource(r) == r
    {
      var i :| 0 <= i < |once| && once[i] == r;
      assert NonProjects(list)[i] in NonProjects(list);
      NonProjectsAre(list, NonProjects(list)[i]);
      WireTwice(NonProjects(list)[i].spec);
    }
    NoProjectsLeft(once);
    assert WireAll(once) == once;
  }

  // ---- The imperative parser --------------------------------------------------------------------

  method Flatten(ns: seq<Node>) returns (out: Result<seq<Resource>, ParseError>)
    ensures out == FlattenAll(ns)
    decreases ns, 1
  {
    hide GoodNode, Head;
    var rs: seq<Resource> := [];
    assert ns[0..] == ns;
    assert forall rest: seq<Resource> :: rs + rest == rest;
    for i := 0 to |ns|
      invariant FlattenAll(ns) == match FlattenAll(ns[i..])
                                  case Failure(e) => Failure(e)
                                  case Success(rest) => Success(rs + rest)
    {
      assert ns[i..][0] == ns[i] && ns[i..][1..] == ns[i + 1..];
      var more := ParseNode(ns[i]);
      match more {
        case Failure(e) => return Failure(e);
        case Success(first) =>
          assert forall rest: seq<Resource> :: rs + (first + rest) == rs + first + rest;
          rs := rs + first;
      }
    }
    assert ns[|ns|..] == [];
    assert rs + [] == rs;
    out := Success(rs);
  }

  method ParseNode(n: Node) returns (out: Result<seq<Resource>, ParseError>)
    ensures out == FlattenNode(n)
    decreases n, 0
  {
    if !GoodNode(n) {
      return Failure(HeadError(n));
    }
    var children := Flatten(n.children);
    match children {
      case Failure(e) => out := Failure(e);
      case Success(rs) => out := Success([Head(n)] + rs);
    }
  }

  method AddResources(v: Validators, rs: seq<Resource>, set_: ResourceSet) returns (error: Option<ParseError>)
    requires set_.Valid()
    modifies set_
    ensures set_.Valid()
    ensures match old(AddAll(v, rs, set_.list))
            case Failure(e) => error == Some(e)
            case Success(list) => error == None && set_.list == list
  {
    hide Accepts, Normalized;
    assert rs[0..] == rs;
    for i := 0 to |rs|
      invariant set_.Valid()
      invariant old(AddAll(v, rs, set_.list)) == AddAll(v, rs[i..], set_.list)
    {
      assert rs[i..][0] == rs[i] && rs[i..][1..] == rs[i + 1..];
      var r := Normalized(rs[i]);
      if !Accepts(v, r) {
        return Some(Invalid(r.Id()));
      }
      if set_.Get(r.kind, r.meta.name).Some? {
        return Some(Duplicate(r.Id()));
      }
      AddsAtEnd(set_.list, r);
      set_.Add(r);
    }
    error := None;
  }

  lemma AddsAtEnd(list: seq<Resource>, r: Resource)
    requires Find(list, r.Id()).None?
    ensures Put(list, r) == list + [r]
  {}

  /** Parse: a fresh set holding what the documents declare, or the first error. */
  method Parse(v: Validators, ns: seq<Node>) returns (set_: ResourceSet, error: Option<ParseError>)
    ensures fresh(set_) && set_.Valid()
    ensures match ParseSpec(v, ns)
            case Failure(e) => error == Some(e)
            case Success(list) => error == None && set_.list == list
  {
    hide FlattenAll, AddAll, FirstError;
    set_ := new ResourceSet();
    var rs := Flatten(ns);
    if rs.Failure? {
      return set_, Some(rs.error);
    }
    error := AddResources(v, rs.value, set_);
    if error.Some? {
      return;
    }
    ghost var list := set_.list;
    var bad := ValidateReferences(set_);
    if bad.Some? {
      error := Some(BadReference(bad.value));
    }
  }
}
