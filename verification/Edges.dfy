/** The reference graph of a bundle: who has to exist before whom. */
module Edges {
  import opened Fields
  import opened Plans
  import opened Resources
  import opened Schema
  import opened Sorting
  import opened StringSorting
  import opened Templates
  import opened Text
  import opened Wrappers

  datatype EdgeType =
    | EdgeMount | EdgeStack | EdgeRoute | EdgeDomain | EdgeDatabase | EdgeSecret | EdgeAppRef
    | EdgeRegistry | EdgeConfig | EdgeMiddleware | EdgeSchedule | EdgeRun | EdgeRepository

  /** `from` depends on `to`. */
  datatype Edge = Edge(from: Id, to: Id, via: EdgeType)

  /** A reference a resource makes, whether or not its target exists. */
  datatype Link = Link(to: Id, via: EdgeType)

  // ---- Template references: {{ .collection.name -----------------------------

  /** The regular expression class [-\s]. */
  predicate DashOrSpace(c: char) {
    c == '-' || Blank(c)
  }

  predicate At(s: string, i: nat, p: string) {
    i + |p| <= |s| && s[i..i + |p|] == p
  }

  /** A reference found in a template, and where it ends. */
  datatype Found = Found(collection: Collection, name: string, end: nat)

  function SoftRefAt(s: string, i: nat): Option<Collection> {
    if At(s, i, ".databases.") then Some(Databases)
    else if At(s, i, ".secrets.") then Some(Secrets)
    else if At(s, i, ".applications.") then Some(Applications)
    else None
  }

  /** One match of `{{[-\s]*.(databases|secrets|applications).name` at `i`. */
  function TemplateRefAt(s: string, i: nat): (f: Option<Found>)
    requires i <= |s|
    ensures f.Some? ==> i < f.value.end <= |s|
  {
    if !At(s, i, "{{") then None
    else
      var dot := RunEnd(s, i + 2, DashOrSpace);
      match SoftRefAt(s, dot)
      case None => None
      case Some(c) =>
        var start := dot + |CollectionName(c)| + 2;
        if start > |s| then None
        else
          var end := RunEnd(s, start, NameChar);
          if end == start then None else Some(Found(c, s[start..end], end))
  }

  /** All leftmost non-overlapping matches from `i` on. */
  function TemplateRefs(s: string, i: nat := 0): seq<Found>
    requires i <= |s|
    decreases |s| - i
  {
    match TemplateRefAt(s, i)
    case Some(f) => [f] + TemplateRefs(s, f.end)
    case None => if i < |s| then TemplateRefs(s, i + 1) else []
  }

  // ---- The domain a host belongs to ------------------------------------------

  function NormalHost(host: string): string {
    TrimSuffix(ToLower(TrimSpace(host)), ".")
  }

  /** `host` is `name` itself or a host under it. */
  predicate Under(host: string, name: string) {
    host == ToLower(name) || HasSuffix(host, "." + ToLower(name))
  }

  /** The longest of `names` that `host` is under, the first among equals. */
  function LongestDomain(host: string, names: seq<string>): string {
    if names == [] then ""
    else
      var n := names[|names| - 1];
      var best := LongestDomain(host, names[..|names| - 1]);
      if Under(host, n) && |n| > |best| then n else best
  }

  method MatchDomain(host: string, domains: seq<Resource>) returns (best: string)
    ensures best == LongestDomain(NormalHost(host), NamesOf(domains))
  {
    var h := NormalHost(host);
    best := "";
    ghost var names := NamesOf(domains);
    for i := 0 to |domains|
      invariant best == LongestDomain(h, names[..i])
    {
      assert names[..i + 1][..i] == names[..i];
      var dn := ToLower(domains[i].meta.name);
      if h == dn || HasSuffix(h, "." + dn) {
        if |dn| > |best| {
          best := domains[i].meta.name;
        }
      }
    }
    assert names[..|domains|] == names;
  }

  function NamesOf(rs: seq<Resource>): seq<string> {
    seq(|rs|, i requires 0 <= i < |rs| => rs[i].meta.name)
  }

  /** The chosen domain covers the host and none that covers it is longer;
      nothing is chosen only when no named domain covers it. */
  lemma {:induction false} LongestDomainIsLongest(host: string, names: seq<string>)
    ensures var best := LongestDomain(host, names);
      && (best != "" ==> best in names && Under(host, best))
      && (forall n | n in names && Under(host, n) :: |n| <= |best|)
  {
    if names != [] {
      var init := names[..|names| - 1];
      LongestDomainIsLongest(host, init);
      assert names == init + [names[|names| - 1]];
    }
  }

  /** Two domains of one length that cover a host are the same domain. */
  lemma CoveringDomainsNest(host: string, a: string, b: string)
    requires Under(host, a) && Under(host, b) && |a| == |b|
    ensures ToLower(a) == ToLower(b)
  {
    var x, y := ToLower(a), ToLower(b);
    assert HasSuffix(host, "." + x) ==> host[|host| - |x|..] == x by {
      if HasSuffix(host, "." + x) {
        assert host[|host| - |x|..] == host[|host| - |x| - 1..][1..];
      }
    }
    assert HasSuffix(host, "." + y) ==> host[|host| - |y|..] == y by {
      if HasSuffix(host, "." + y) {
        assert host[|host| - |y|..] == host[|host| - |y| - 1..][1..];
      }
    }
  }

  /** With names that differ beyond case, the choice is independent of order. */
  lemma MatchForgetsOrder(host: string, names: seq<string>, others: seq<string>)
    requires Elements(names) == Elements(others)
    requires forall a, b | a in names && b in names && ToLower(a) == ToLower(b) :: a == b
    ensures LongestDomain(host, names) == LongestDomain(host, others)
  {
    var x, y := LongestDomain(host, names), LongestDomain(host, others);
    LongestDomainIsLongest(host, names);
    LongestDomainIsLongest(host, others);
    assert forall n :: n in names <==> n in Elements(names);
    assert forall n :: n in others <==> n in Elements(others);
    if x != "" && y != "" {
      CoveringDomainsNest(host, x, y);
    }
  }

  // ---- What a resource refers to -------------------------------------------------

  function LinkTo(k: Kind, name: string, via: EdgeType): Link {
    Link(ResourceId(k, name), via)
  }

  function MountLink(mt: MountSpec): Link {
    if mt.config != "" then LinkTo(KindConfig, mt.config, EdgeConfig)
    else LinkTo(KindVolume, mt.volume, EdgeMount)
  }

  /** A vault reference may name a Secret or a SealedSecret. */
  function FoundLinks(f: Found): seq<Link> {
    match f.collection
    case Databases => [LinkTo(KindDatabase, f.name, EdgeDatabase)]
    case Secrets => [LinkTo(KindSecret, f.name, EdgeSecret), LinkTo(KindSealedSecret, f.name, EdgeSecret)]
    case Applications => [LinkTo(KindApplication, f.name, EdgeAppRef)]
    case Inputs => []
  }

  function AllFoundLinks(fs: seq<Found>): seq<Link> {
    if fs == [] then [] else AllFoundLinks(fs[..|fs| - 1]) + FoundLinks(fs[|fs| - 1])
  }

  function ValueLinks(v: string): seq<Link> {
    AllFoundLinks(TemplateRefs(v))
  }

  ghost function EnvLinks(env: map<string, string>): set<Link> {
    set k, l | k in env && l in ValueLinks(env[k]) :: l
  }

  ghost function MountLinks(mounts: seq<MountSpec>): set<Link> {
    set i | 0 <= i < |mounts| :: MountLink(mounts[i])
  }

  ghost function ApplicationLinks(a: ApplicationSpec): set<Link> {
    (if a.stack != "" then {LinkTo(KindStack, a.stack, EdgeStack)} else {})
    + MountLinks(a.mounts)
    + {LinkTo(KindRegistry, a.registry, EdgeRegistry)}
    + (if a.source.Some? then {LinkTo(KindGitRepository, a.source.value.repository, EdgeRepository)} else {})
    + EnvLinks(a.env)
  }

  ghost function RouteLinks(r: RouteSpec, domains: seq<string>): set<Link> {
    {LinkTo(KindApplication, r.app, EdgeRoute)}
    + (set i | 0 <= i < |r.middlewares| :: LinkTo(KindMiddleware, r.middlewares[i], EdgeMiddleware))
    + (set i | 0 <= i < |r.hosts| :: LinkTo(KindDomain, LongestDomain(NormalHost(r.hosts[i]), domains), EdgeDomain))
  }

  /** Everything the resource refers to, with the kind each reference needs. */
  ghost function Links(spec: Spec, domains: seq<string>): set<Link> {
    match spec
    case ApplicationOf(a) => ApplicationLinks(a)
    case GitSourceOf(g) => {LinkTo(KindGitRepository, g.repository, EdgeRepository)}
    case GitRepositoryOf(g) =>
      {LinkTo(KindSecret, g.secretRef, EdgeSecret), LinkTo(KindSealedSecret, g.secretRef, EdgeSecret)}
    case CronJobOf(c) =>
      {LinkTo(KindApplication, c.app, EdgeSchedule), LinkTo(KindRegistry, c.registry, EdgeRegistry)}
    case JobOf(j) =>
      {LinkTo(KindApplication, j.app, EdgeRun), LinkTo(KindRegistry, j.registry, EdgeRegistry)}
    case RouteOf(r) => RouteLinks(r, domains)
    case _ => {}
  }

  /** The kind an edge starts from is fixed by the spec that makes it. */
  function Origin(r: Resource): Id {
    match r.spec
    case ApplicationOf(_) => ResourceId(KindApplication, r.meta.name)
    case GitSourceOf(_) => ResourceId(KindGitSource, r.meta.name)
    case GitRepositoryOf(_) => ResourceId(KindGitRepository, r.meta.name)
    case CronJobOf(_) => ResourceId(KindCronJob, r.meta.name)
    case JobOf(_) => ResourceId(KindJob, r.meta.name)
    case RouteOf(_) => ResourceId(KindRoute, r.meta.name)
    case _ => r.Id()
  }

  /** A link is drawn when its target is named, in the bundle, and not the
      resource itself. */
  predicate Drawn(view: View, from: Id, l: Link) {
    l.to.name != "" && l.to in view && l.to != from
  }

  ghost function DrawnFrom(view: View, from: Id, links: set<Link>): set<Edge> {
    set l | l in links && Drawn(view, from, l) :: Edge(from, l.to, l.via)
  }

  ghost function EdgesFrom(view: View, r: Resource, domains: seq<string>): set<Edge> {
    DrawnFrom(view, Origin(r), Links(r.spec, domains))
  }

  /** The reference relation inside a bundle. */
  ghost function EdgeSet(view: View, domains: seq<string>): set<Edge> {
    set id, e | id in view && e in EdgesFrom(view, view[id], domains) :: e
  }

  // ---- Order ------------------------------------------------------------------------

  function IdKey(id: Id): string {
    KeyOf(id.kind, id.name)
  }

  predicate EdgeLess(a: Edge, b: Edge) {
    if IdKey(a.from) != IdKey(b.from) then Less(IdKey(a.from), IdKey(b.from))
    else Less(IdKey(a.to), IdKey(b.to))
  }

  /** The two ends decide the type of an edge. */
  function TypeBetween(from: Kind, to: Kind): EdgeType {
    match to
    case KindVolume => EdgeMount
    case KindConfig => EdgeConfig
    case KindStack => EdgeStack
    case KindRegistry => EdgeRegistry
    case KindGitRepository => EdgeRepository
    case KindDatabase => EdgeDatabase
    case KindSecret | KindSealedSecret => EdgeSecret
    case KindMiddleware => EdgeMiddleware
    case KindDomain => EdgeDomain
    case _ =>
      match from
      case KindCronJob => EdgeSchedule
      case KindJob => EdgeRun
      case KindRoute => EdgeRoute
      case _ => EdgeAppRef
  }

  lemma {:induction false} FoundLinksTyped(fs: seq<Found>, l: Link)
    requires l in AllFoundLinks(fs)
    ensures l.via == TypeBetween(KindApplication, l.to.kind)
    ensures l.to.kind in {KindDatabase, KindSecret, KindSealedSecret, KindApplication}
  {
    if l !in FoundLinks(fs[|fs| - 1]) {
      FoundLinksTyped(fs[..|fs| - 1], l);
    }
  }

  /** What each kind of resource may refer to. */
  predicate Allowed(from: Kind, to: Kind) {
    match from
    case KindApplication =>
      to in {KindStack, KindVolume, KindConfig, KindRegistry, KindGitRepository, KindDatabase, KindSecret,
             KindSealedSecret, KindApplication}
    case KindGitSource => to == KindGitRepository
    case KindGitRepository => to in {KindSecret, KindSealedSecret}
    case KindCronJob | KindJob => to in {KindApplication, KindRegistry}
    case KindRoute => to in {KindApplication, KindMiddleware, KindDomain}
    case _ => false
  }

  lemma LinksAreTyped(r: Resource, domains: seq<string>, l: Link)
    requires l in Links(r.spec, domains)
    ensures Allowed(Origin(r).kind, l.to.kind)
    ensures l.via == TypeBetween(Origin(r).kind, l.to.kind)
  {
    hide TemplateRefs, AllFoundLinks, LongestDomain, NormalHost, MountLinks, EnvLinks;
    if r.spec.ApplicationOf? && l in MountLinks(r.spec.application.mounts) {
      MountIsTyped(r.spec.application.mounts, l);
    } else if r.spec.ApplicationOf? && l in EnvLinks(r.spec.application.env) {
      EnvIsTyped(r.spec.application.env, l);
    }
  }

  lemma MountIsTyped(mounts: seq<MountSpec>, l: Link)
    requires l in MountLinks(mounts)
    ensures (l.to.kind == KindConfig && l.via == EdgeConfig) || (l.to.kind == KindVolume && l.via == EdgeMount)
  {}

  lemma EnvIsTyped(env: map<string, string>, l: Link)
    requires l in EnvLinks(env)
    ensures l.via == TypeBetween(KindApplication, l.to.kind)
    ensures l.to.kind in {KindDatabase, KindSecret, KindSealedSecret, KindApplication}
  {
    var k :| k in env && l in ValueLinks(env[k]);
    FoundLinksTyped(TemplateRefs(env[k]), l);
  }

  lemma EdgesAreTyped(view: View, domains: seq<string>, e: Edge)
    requires e in EdgeSet(view, domains)
    ensures Allowed(e.from.kind, e.to.kind) && e.via == TypeBetween(e.from.kind, e.to.kind)
    ensures e.to in view && e.to != e.from && e.to.name != ""
  {
    hide Links;
    var id :| id in view && e in EdgesFrom(view, view[id], domains);
    LinksAreTyped(view[id], domains, Link(e.to, e.via));
  }

  /** No two edges join the same two resources. */
  lemma EdgesDiffer(view: View, domains: seq<string>, a: Edge, b: Edge)
    requires a in EdgeSet(view, domains) && b in EdgeSet(view, domains)
    requires IdKey(a.from) == IdKey(b.from) && IdKey(a.to) == IdKey(b.to)
    ensures a == b
  {
    hide EdgeSet, TypeBetween, Allowed;
    EdgesAreTyped(view, domains, a);
    EdgesAreTyped(view, domains, b);
    KeyInjective(a.from.kind, a.from.name, b.from.kind, b.from.name);
    KeyInjective(a.to.kind, a.to.name, b.to.kind, b.to.name);
  }

  lemma EdgesAreOrdered(view: View, domains: seq<string>)
    ensures StrictTotalOn(EdgeLess, EdgeSet(view, domains))
  {
    hide EdgeSet, IdKey, Less;
    LessIsStrictOrder();
    forall a, b | a in EdgeSet(view, domains) && b in EdgeSet(view, domains) && a != b
      ensures EdgeLess(a, b) || EdgeLess(b, a)
    {
      if IdKey(a.from) == IdKey(b.from) && IdKey(a.to) == IdKey(b.to) {
        EdgesDiffer(view, domains, a, b);
      }
    }
  }

  // ---- The imperative derivation -------------------------------------------------------

  method CollectValue(v: string, start: seq<Link>) returns (links: seq<Link>)
    ensures Elements(links) == Elements(start) + Elements(ValueLinks(v))
  {
    hide TemplateRefs, FoundLinks;
    links := start;
    var found := TemplateRefs(v);
    for i := 0 to |found|
      invariant Elements(links) == Elements(start) + Elements(AllFoundLinks(found[..i]))
    {
      assert found[..i + 1][..i] == found[..i];
      ElementsOfConcat(links, FoundLinks(found[i]));
      ElementsOfConcat(AllFoundLinks(found[..i]), FoundLinks(found[i]));
      links := links + FoundLinks(found[i]);
    }
    assert found[..|found|] == found;
  }

  /** The links of the entries of `env` that lie outside `todo`. */
  ghost function LinksOutside(env: map<string, string>, todo: set<string>): set<Link> {
    set k, l | k in env && k !in todo && l in ValueLinks(env[k]) :: l
  }

  lemma LinksOutsideGrow(env: map<string, string>, todo: set<string>, k: string)
    requires k in env && k in todo
    ensures LinksOutside(env, todo - {k}) == LinksOutside(env, todo) + Elements(ValueLinks(env[k]))
  {
    hide ValueLinks;
    assert forall l | l in LinksOutside(env, todo - {k}) :: l in LinksOutside(env, todo) || l in ValueLinks(env[k]);
  }

  /** Collects the links of one environment, its keys in any order. */
  method CollectEnv(env: map<string, string>, start: seq<Link>) returns (links: seq<Link>)
    ensures Elements(links) == Elements(start) + EnvLinks(env)
  {
    hide ValueLinks;
    links := start;
    var todo := env.Keys;
    assert LinksOutside(env, todo) == {};
    while todo != {}
      invariant todo <= env.Keys
      invariant Elements(links) == Elements(start) + LinksOutside(env, todo)
      decreases todo
    {
      var k :| k in todo;
      LinksOutsideGrow(env, todo, k);
      links := CollectValue(env[k], links);
      todo := todo - {k};
    }
    assert LinksOutside(env, {}) == EnvLinks(env);
  }

  method CollectMounts(mounts: seq<MountSpec>, start: seq<Link>) returns (links: seq<Link>)
    ensures Elements(links) == Elements(start) + MountLinks(mounts)
  {
    links := start;
    for i := 0 to |mounts|
      invariant Elements(links) == Elements(start) + set j | 0 <= j < i :: MountLink(mounts[j])
    {
      ElementsOfConcat(links, [MountLink(mounts[i])]);
      if mounts[i].config != "" {
        links := links + [LinkTo(KindConfig, mounts[i].config, EdgeConfig)];
      } else {
        links := links + [LinkTo(KindVolume, mounts[i].volume, EdgeMount)];
      }
    }
  }

  method CollectApplication(a: ApplicationSpec) returns (links: seq<Link>)
    ensures Elements(links) == ApplicationLinks(a)
  {
    hide MountLinks, EnvLinks;
    links := [];
    if a.stack != "" {
      links := [LinkTo(KindStack, a.stack, EdgeStack)];
    }
    links := CollectMounts(a.mounts, links);
    ElementsOfConcat(links, [LinkTo(KindRegistry, a.registry, EdgeRegistry)]);
    links := links + [LinkTo(KindRegistry, a.registry, EdgeRegistry)];
    if a.source.Some? {
      ElementsOfConcat(links, [LinkTo(KindGitRepository, a.source.value.repository, EdgeRepository)]);
      links := links + [LinkTo(KindGitRepository, a.source.value.repository, EdgeRepository)];
    }
    links := CollectEnv(a.env, links);
  }

  method CollectRoute(r: RouteSpec, domains: seq<Resource>) returns (links: seq<Link>)
    ensures Elements(links) == RouteLinks(r, NamesOf(domains))
  {
    hide LongestDomain, NormalHost;
    ghost var names := NamesOf(domains);
    links := [LinkTo(KindApplication, r.app, EdgeRoute)];
    for i := 0 to |r.middlewares|
      invariant Elements(links) == {LinkTo(KindApplication, r.app, EdgeRoute)}
        + set j | 0 <= j < i :: LinkTo(KindMiddleware, r.middlewares[j], EdgeMiddleware)
    {
      links := links + [LinkTo(KindMiddleware, r.middlewares[i], EdgeMiddleware)];
    }
    ghost var before := links;
    for i := 0 to |r.hosts|
      invariant Elements(links) == Elements(before)
        + set j | 0 <= j < i :: LinkTo(KindDomain, LongestDomain(NormalHost(r.hosts[j]), names), EdgeDomain)
    {
      var d := MatchDomain(r.hosts[i], domains);
      links := links + [LinkTo(KindDomain, d, EdgeDomain)];
    }
  }

  method CollectLinks(spec: Spec, domains: seq<Resource>) returns (links: seq<Link>)
    ensures Elements(links) == Links(spec, NamesOf(domains))
  {
    hide ApplicationLinks, RouteLinks;
    match spec {
      case ApplicationOf(a) => links := CollectApplication(a);
      case GitSourceOf(g) => links := [LinkTo(KindGitRepository, g.repository, EdgeRepository)];
      case GitRepositoryOf(g) =>
        links := [LinkTo(KindSecret, g.secretRef, EdgeSecret), LinkTo(KindSealedSecret, g.secretRef, EdgeSecret)];
      case CronJobOf(c) =>
        links := [LinkTo(KindApplication, c.app, EdgeSchedule), LinkTo(KindRegistry, c.registry, EdgeRegistry)];
      case JobOf(j) =>
        links := [LinkTo(KindApplication, j.app, EdgeRun), LinkTo(KindRegistry, j.registry, EdgeRegistry)];
      case RouteOf(r) => links := CollectRoute(r, domains);
      case _ => links := [];
    }
  }

  ghost function DrawnOne(view: View, from: Id, l: Link): set<Edge> {
    if Drawn(view, from, l) then {Edge(from, l.to, l.via)} else {}
  }

  lemma DrawnGrows(view: View, from: Id, links: set<Link>, l: Link)
    ensures DrawnFrom(view, from, links + {l})
         == DrawnFrom(view, from, links) + DrawnOne(view, from, l)
  {
    hide Drawn;
    forall e
      ensures e in DrawnFrom(view, from, links + {l}) <==>
              e in DrawnFrom(view, from, links) || (Drawn(view, from, l) && e == Edge(from, l.to, l.via))
    {
      if e in DrawnFrom(view, from, links) {
        var k :| k in links && Drawn(view, from, k) && e == Edge(from, k.to, k.via);
        assert k in links + {l};
      }
    }
  }

  /** Adds one link when it is drawn and its edge has not been seen. */
  method AddLink(bundle: ResourceSet, from: Id, l: Link, start: seq<Edge>, seen: set<Edge>)
    returns (out: seq<Edge>, after: set<Edge>)
    requires bundle.Valid() && NoDuplicates(start) && seen == Elements(start)
    ensures NoDuplicates(out) && after == Elements(out)
    ensures Elements(out) == Elements(start) + DrawnOne(bundle.View(), from, l)
  {
    out, after := start, seen;
    var present := bundle.Has(l.to.kind, l.to.name);
    if l.to.name == "" || !present || l.to == from {
      return;
    }
    var e := Edge(from, l.to, l.via);
    if e !in seen {
      Append(start, e);
      out := start + [e];
      after := seen + {e};
    }
  }

  lemma LinkStep(view: View, from: Id, links: seq<Link>, i: nat)
    requires i < |links|
    ensures DrawnFrom(view, from, Elements(links[..i + 1]))
         == DrawnFrom(view, from, Elements(links[..i])) + DrawnOne(view, from, links[i])
  {
    hide DrawnFrom, DrawnOne;
    assert links[..i + 1] == links[..i] + [links[i]];
    assert Elements(links[..i + 1]) == Elements(links[..i]) + {links[i]};
    DrawnGrows(view, from, Elements(links[..i]), links[i]);
  }

  /** Adds the links of one resource that are drawn, skipping edges already seen. */
  method AddEdges(bundle: ResourceSet, from: Id, links: seq<Link>, start: seq<Edge>) returns (out: seq<Edge>)
    requires bundle.Valid() && NoDuplicates(start)
    ensures NoDuplicates(out)
    ensures Elements(out) == Elements(start) + DrawnFrom(bundle.View(), from, Elements(links))
  {
    hide DrawnFrom, DrawnOne, NoDuplicates;
    out := start;
    var seen := set e | e in start;
    ghost var view := bundle.View();
    NothingDrawn(view, from);
    assert Elements(links[..0]) == {};
    for i := 0 to |links|
      invariant NoDuplicates(out) && seen == Elements(out)
      invariant Elements(out) == Elements(start) + DrawnFrom(view, from, Elements(links[..i]))
    {
      LinkStep(view, from, links, i);
      out, seen := AddLink(bundle, from, links[i], out, seen);
    }
    assert links[..|links|] == links;
  }

  lemma NothingDrawn(view: View, from: Id)
    ensures DrawnFrom(view, from, {}) == {}
  {}

  lemma EdgeSetGrows(view: View, seen: View, r: Resource, domains: seq<string>)
    requires r.Id() !in seen
    ensures EdgesWithin(view, seen[r.Id() := r], domains)
         == EdgesWithin(view, seen, domains) + EdgesFrom(view, r, domains)
  {
    hide EdgesFrom;
    var after := seen[r.Id() := r];
    assert forall id | id in seen :: after[id] == seen[id];
    assert after[r.Id()] == r;
    forall e
      ensures e in EdgesWithin(view, after, domains) <==>
              e in EdgesWithin(view, seen, domains) || e in EdgesFrom(view, r, domains)
    {
      if e in EdgesWithin(view, seen, domains) {
        var id :| id in seen && e in EdgesFrom(view, seen[id], domains);
        assert id in after && e in EdgesFrom(view, after[id], domains);
      }
      if e in EdgesFrom(view, r, domains) {
        assert r.Id() in after && e in EdgesFrom(view, after[r.Id()], domains);
      }
    }
  }

  /** The edges the resources of `sources` start, in the bundle `view`. */
  ghost function EdgesWithin(view: View, sources: View, domains: seq<string>): set<Edge> {
    set id, e | id in sources && e in EdgesFrom(view, sources[id], domains) :: e
  }

  /** The edges of a bundle are exactly its internal references, each once, in
      one order whatever order the environments were read in. */
  method DeriveEdges(bundle: ResourceSet) returns (out: seq<Edge>)
    requires bundle.Valid()
    ensures Arranges(EdgeLess, out, EdgeSet(bundle.View(), NamesOf(OfKind(bundle.list, KindDomain))))
  {
    hide EdgesFrom, EdgeLess;
    var domains := bundle.ByKind(KindDomain);
    ghost var view, names := bundle.View(), NamesOf(domains);
    var list := bundle.list;
    bundle.ValidIsDistinct();
    out := [];
    for i := 0 to |list|
      invariant NoDuplicates(out)
      invariant Elements(out) == EdgesWithin(view, Upto(list, i), names)
    {
      ViewGrows(list, i);
      EdgeSetGrows(view, Upto(list, i), list[i], names);
      out := AddResource(bundle, list[i], domains, out);
    }
    assert list[..|list|] == list;
    EdgesAreOrdered(view, names);
    SortArranges(EdgeLess, out);
    out := Sort(EdgeLess, out);
  }

  method AddResource(bundle: ResourceSet, r: Resource, domains: seq<Resource>, start: seq<Edge>)
    returns (out: seq<Edge>)
    requires bundle.Valid() && NoDuplicates(start)
    ensures NoDuplicates(out)
    ensures Elements(out) == Elements(start) + EdgesFrom(bundle.View(), r, NamesOf(domains))
  {
    hide Links;
    var links := CollectLinks(r.spec, domains);
    out := AddEdges(bundle, Origin(r), links, start);
  }
}
