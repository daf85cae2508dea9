/** The apply order against the reference graph: the two are written apart and
    have to agree, and a validated bundle has an edge for every reference the
    apply step cannot do without. */
module Topology {
  import opened Matching
  import opened EdgeLaws
  import opened Edges
  import opened Plans
  import opened Resources
  import opened Schema
  import opened Sorting
  import opened Text
  import opened Wrappers

  // ---- Ranks are a topological measure --------------------------------------

  /** Every edge but an application reference climbs in rank; an application
      reference stays level. */
  lemma EdgesClimb(view: View, domains: seq<string>, e: Edge)
    requires e in EdgeSet(view, domains)
    ensures e.via == EdgeAppRef <==> ApplyRank(e.to.kind) == ApplyRank(e.from.kind)
    ensures e.via != EdgeAppRef <==> ApplyRank(e.to.kind) < ApplyRank(e.from.kind)
    ensures e.via == EdgeAppRef <==> e.from.kind == KindApplication && e.to.kind == KindApplication
  {
    hide EdgeSet;
    EdgesAreTyped(view, domains, e);
  }

  /** A change to a lower rank, on the same side of the plan, runs first. */
  lemma LowerRankFirst(plan: seq<Change>, i: nat, j: nat)
    requires SortedBy(ChangeLess, plan) && i < |plan| && j < |plan|
    requires Group(plan[i].action) == Group(plan[j].action) && RankIn(plan[i]) < RankIn(plan[j])
    ensures i < j
  {
    assert j < i ==> ChangeLess(plan[j], plan[i]);
  }

  /** Deletes come first. A declared dependency is created or updated strictly
      before what depends on it; a live dependency is deleted strictly after. */
  lemma PlanFollowsEdges(plan: seq<Change>, view: View, domains: seq<string>, e: Edge, d: nat, u: nat)
    requires SortedBy(ChangeLess, plan)
    requires e in EdgeSet(view, domains) && e.via != EdgeAppRef
    requires d < |plan| && u < |plan| && plan[d].Id() == e.to && plan[u].Id() == e.from
    ensures plan[d].action != ActionDelete && plan[u].action != ActionDelete ==> d < u
    ensures plan[d].action == ActionDelete && plan[u].action == ActionDelete ==> u < d
    ensures plan[d].action == ActionDelete && plan[u].action != ActionDelete ==> d < u
    ensures plan[d].action != ActionDelete && plan[u].action == ActionDelete ==> u < d
  {
    hide EdgeSet;
    EdgesClimb(view, domains, e);
    if plan[d].action != ActionDelete && plan[u].action != ActionDelete {
      LowerRankFirst(plan, d, u);
    } else if plan[d].action == ActionDelete && plan[u].action == ActionDelete {
      LowerRankFirst(plan, u, d);
    } else {
      assert u < d ==> ChangeLess(plan[u], plan[d]);
      assert d < u ==> ChangeLess(plan[d], plan[u]);
    }
  }

  lemma DeletesComeFirst(plan: seq<Change>, i: nat, j: nat)
    requires SortedBy(ChangeLess, plan) && i < |plan| && j < |plan|
    requires plan[i].action == ActionDelete && plan[j].action != ActionDelete
    ensures i < j
  {
    assert j < i ==> ChangeLess(plan[j], plan[i]);
  }

  /** What the planner emits and what the graph says, in one statement over
      the declared edges and the live edges. */
  lemma PlansAreTopological(m: Fields.Models, desired: View, actual: View, byUid: View, opts: PlanOptions,
                            plan: seq<Change>, i: nat, j: nat)
    requires Consistent(desired) && Consistent(actual)
    requires IsPlan(plan, Changes(m, desired, actual, byUid, opts))
    requires i < |plan| && j < |plan|
    ensures forall domains, e | e in EdgeSet(desired, domains) && e.via != EdgeAppRef ::
              plan[i].Id() == e.to && plan[j].Id() == e.from
              && plan[i].action in {ActionCreate, ActionUpdate} && plan[j].action in {ActionCreate, ActionUpdate}
              ==> i < j
    ensures forall domains, e | e in EdgeSet(actual, domains) && e.via != EdgeAppRef ::
              plan[i].Id() == e.to && plan[j].Id() == e.from
              && plan[i].action == ActionDelete && plan[j].action == ActionDelete
              ==> j < i
    ensures plan[i].action == ActionDelete && plan[j].action != ActionDelete ==> i < j
  {
    hide EdgeSet, Changes, ChangeLess;
    forall domains, e | e in EdgeSet(desired, domains) && e.via != EdgeAppRef && plan[i].Id() == e.to
      && plan[j].Id() == e.from
      ensures plan[i].action in {ActionCreate, ActionUpdate} && plan[j].action in {ActionCreate, ActionUpdate} ==> i < j
    {
      PlanFollowsEdges(plan, desired, domains, e, i, j);
    }
    forall domains, e | e in EdgeSet(actual, domains) && e.via != EdgeAppRef && plan[i].Id() == e.to
      && plan[j].Id() == e.from
      ensures plan[i].action == ActionDelete && plan[j].action == ActionDelete ==> j < i
    {
      PlanFollowsEdges(plan, actual, domains, e, i, j);
    }
    if plan[i].action == ActionDelete && plan[j].action != ActionDelete {
      DeletesComeFirst(plan, i, j);
    }
  }

  // ---- The graph has no cycles --------------------------------------------------

  /** An edge other than an application reference joins `a` to `b`. */
  ghost predicate Needs(view: View, domains: seq<string>, a: Id, b: Id) {
    exists e | e in EdgeSet(view, domains) :: e.from == a && e.to == b && e.via != EdgeAppRef
  }

  /** A walk from a dependent along its dependencies. */
  ghost predicate Walk(view: View, domains: seq<string>, p: seq<Id>) {
    p != [] && forall i | 0 <= i < |p| - 1 :: Needs(view, domains, p[i], p[i + 1])
  }

  /** How many edges can follow a resource of this kind. */
  function Height(k: Kind): nat {
    match k
    case KindGitRepository => 1
    case KindApplication | KindGitSource => 2
    case KindRoute | KindCronJob | KindJob => 3
    case _ => 0
  }

  lemma StepDescends(view: View, domains: seq<string>, p: seq<Id>, i: nat)
    requires Walk(view, domains, p) && i + 1 < |p|
    ensures ApplyRank(p[i + 1].kind) < ApplyRank(p[i].kind)
    ensures Height(p[i + 1].kind) < Height(p[i].kind)
  {
    hide EdgeSet;
    assert Needs(view, domains, p[i], p[i + 1]);
    var e :| e in EdgeSet(view, domains) && e.from == p[i] && e.to == p[i + 1] && e.via != EdgeAppRef;
    EdgesClimb(view, domains, e);
    EdgesAreTyped(view, domains, e);
  }

  lemma {:induction false} WalkDescends(view: View, domains: seq<string>, p: seq<Id>, i: nat, j: nat)
    requires Walk(view, domains, p) && i < j < |p|
    ensures ApplyRank(p[j].kind) < ApplyRank(p[i].kind) && Height(p[j].kind) + (j - i) <= Height(p[i].kind)
  {
    hide EdgeSet, Walk, ApplyRank, Height;
    StepDescends(view, domains, p, j - 1);
    if i < j - 1 {
      WalkDescends(view, domains, p, i, j - 1);
    }
  }

  /** No walk meets a resource twice, and none is longer than a route, its
      application, the repository it builds from and that one's secret. */
  lemma GraphIsAcyclic(view: View, domains: seq<string>, p: seq<Id>)
    requires Walk(view, domains, p)
    ensures NoDuplicates(p)
    ensures |p| <= 4
  {
    hide EdgeSet, Walk, ApplyRank;
    forall i, j | 0 <= i < j < |p|
      ensures p[i] != p[j]
    {
      WalkDescends(view, domains, p, i, j);
    }
    if |p| > 4 {
      WalkDescends(view, domains, p, 0, 4);
    }
  }

  /** A template that refers to the application `name`. */
  function AppRefText(name: string): string {
    "{{ .applications." + name + " }}"
  }

  lemma AppRefIsLink(name: string)
    requires NameText(name)
    ensures LinkTo(KindApplication, name, EdgeAppRef) in ValueLinks(AppRefText(name))
  {
    hide ValueLinks;
    AppRefMentions(name);
    ValueLinksAre(AppRefText(name), ResourceId(KindApplication, name), EdgeAppRef);
  }

  lemma AppRefMentions(name: string)
    requires NameText(name)
    ensures Mentions(AppRefText(name), "applications", name)
  {
    hide NameText;
    assert AppRefText(name) == "" + "{{" + " " + "." + "applications" + "." + name + " }}";
    assert MentionedAt(AppRefText(name), "", " ", "applications", name, " }}");
  }

  /** Application references are not ordered: two applications whose variables
      name each other depend on each other, so no order of their changes could
      satisfy both. */
  lemma AppRefsCanCycle(view: View, domains: seq<string>, a: Resource, b: Resource, k: string)
    requires a.spec.ApplicationOf? && b.spec.ApplicationOf? && a.kind == b.kind == KindApplication
    requires NameText(a.meta.name) && NameText(b.meta.name) && a.meta.name != b.meta.name
    requires view == map[a.Id() := a, b.Id() := b]
    requires a.spec.application.env == map[k := AppRefText(b.meta.name)]
    requires b.spec.application.env == map[k := AppRefText(a.meta.name)]
    ensures Edge(a.Id(), b.Id(), EdgeAppRef) in EdgeSet(view, domains)
    ensures Edge(b.Id(), a.Id(), EdgeAppRef) in EdgeSet(view, domains)
  {
    hide EdgeSet, AppRefText, ValueLinks;
    assert view[a.Id()] == a && view[b.Id()] == b;
    AppRefIsLink(a.meta.name);
    AppRefIsLink(b.meta.name);
    EnvEdge(view, domains, a, k, LinkTo(KindApplication, b.meta.name, EdgeAppRef));
    EnvEdge(view, domains, b, k, LinkTo(KindApplication, a.meta.name, EdgeAppRef));
  }

  lemma EnvEdge(view: View, domains: seq<string>, r: Resource, k: string, l: Link)
    requires r.spec.ApplicationOf? && r.kind == KindApplication && r.Id() in view && view[r.Id()] == r
    requires k in r.spec.application.env && l in ValueLinks(r.spec.application.env[k]) && Drawn(view, r.Id(), l)
    ensures Edge(r.Id(), l.to, l.via) in EdgeSet(view, domains)
  {
    hide ValueLinks, MountLinks;
    assert l in EnvLinks(r.spec.application.env);
    LinkIsEdge(view, domains, r, l);
  }

  lemma LinkIsEdge(view: View, domains: seq<string>, r: Resource, l: Link)
    requires r.Id() in view && view[r.Id()] == r && WellTyped(r)
    requires l in Links(r.spec, domains) && Drawn(view, r.Id(), l)
    ensures Edge(r.Id(), l.to, l.via) in EdgeSet(view, domains)
  {
    hide Links, Drawn;
    assert Origin(r) == r.Id();
    assert Edge(r.Id(), l.to, l.via) in EdgesFrom(view, r, domains);
  }

  // ---- References a bundle must resolve ---------------------------------------------

  datatype RefError =
    | SealedTwice(name: string)
    | UnknownConfig(app: string, config: string)
    | UnknownVolume(app: string, volume: string)
    | UnknownStack(app: string, stack: string)
    | UnknownTarget(route: string, target: string)

  /** The first mount whose target is missing. */
  function MountError(view: View, app: string, mounts: seq<MountSpec>): Option<RefError> {
    if mounts == [] then None
    else if MountLink(mounts[0]).to !in view then
      Some(if mounts[0].config != "" then UnknownConfig(app, mounts[0].config)
           else UnknownVolume(app, mounts[0].volume))
    else MountError(view, app, mounts[1..])
  }

  function ResourceError(view: View, r: Resource): Option<RefError> {
    if r.kind == KindSealedSecret && ResourceId(KindSecret, r.meta.name) in view then Some(SealedTwice(r.meta.name))
    else
      match r.spec
      case ApplicationOf(a) =>
        (match MountError(view, r.meta.name, a.mounts)
         case Some(e) => Some(e)
         case None =>
           if a.stack != "" && ResourceId(KindStack, a.stack) !in view then Some(UnknownStack(r.meta.name, a.stack))
           else None)
      case RouteOf(t) =>
        if ResourceId(KindApplication, t.app) !in view then Some(UnknownTarget(r.meta.name, t.app)) else None
      case _ => None
  }

  function FirstError(view: View, list: seq<Resource>): Option<RefError> {
    if list == [] then None
    else if ResourceError(view, list[0]).Some? then ResourceError(view, list[0])
    else FirstError(view, list[1..])
  }

  /** The references a bundle has to satisfy by itself. */
  ghost function HardLinks(spec: Spec): set<Link> {
    match spec
    case ApplicationOf(a) =>
      MountLinks(a.mounts) + (if a.stack != "" then {LinkTo(KindStack, a.stack, EdgeStack)} else {})
    case RouteOf(t) => {LinkTo(KindApplication, t.app, EdgeRoute)}
    case _ => {}
  }

  lemma {:induction false} MountErrorSoundly(view: View, app: string, mounts: seq<MountSpec>)
    ensures MountError(view, app, mounts).None? <==> forall l | l in MountLinks(mounts) :: l.to in view
  {
    if mounts != [] {
      MountErrorSoundly(view, app, mounts[1..]);
      var rest := mounts[1..];
      assert MountLink(mounts[0]) in MountLinks(mounts);
      forall l
        ensures l in MountLinks(mounts) <==> l == MountLink(mounts[0]) || l in MountLinks(rest)
      {
        if l in MountLinks(rest) {
          var i :| 0 <= i < |rest| && l == MountLink(rest[i]);
          assert l == MountLink(mounts[i + 1]);
        }
        if l in MountLinks(mounts) {
          var i :| 0 <= i < |mounts| && l == MountLink(mounts[i]);
          assert i > 0 ==> l == MountLink(rest[i - 1]);
        }
      }
    }
  }

  // ---- Which reference fails ----------------------------------------------------------

  /** The mount's config or volume is not declared. */
  predicate Dangles(view: View, mt: MountSpec) {
    if mt.config != "" then ResourceId(KindConfig, mt.config) !in view else ResourceId(KindVolume, mt.volume) !in view
  }

  /** The first mount that dangles. */
  predicate FirstDangling(view: View, mounts: seq<MountSpec>, i: nat) {
    i < |mounts| && Dangles(view, mounts[i]) && forall j | 0 <= j < i :: !Dangles(view, mounts[j])
  }

  function DanglingError(app: string, mt: MountSpec): RefError {
    if mt.config != "" then UnknownConfig(app, mt.config) else UnknownVolume(app, mt.volume)
  }

  ghost predicate MountFault(view: View, app: string, mounts: seq<MountSpec>, e: RefError) {
    exists i: nat :: FirstDangling(view, mounts, i) && e == DanglingError(app, mounts[i])
  }

  /** What is wrong with a resource: its vault name is taken by both kinds, or else a
      mount dangles, or else its stack, or its route's target is not there. */
  ghost predicate Fault(view: View, r: Resource, e: RefError) {
    if r.kind == KindSealedSecret && ResourceId(KindSecret, r.meta.name) in view then e == SealedTwice(r.meta.name)
    else if r.spec.ApplicationOf? then
      var a := r.spec.application;
      if exists mt | mt in a.mounts :: Dangles(view, mt) then MountFault(view, r.meta.name, a.mounts, e)
      else a.stack != "" && ResourceId(KindStack, a.stack) !in view && e == UnknownStack(r.meta.name, a.stack)
    else
      && r.spec.RouteOf? && ResourceId(KindApplication, r.spec.route.app) !in view
      && e == UnknownTarget(r.meta.name, r.spec.route.app)
  }

  lemma LaterDangling(view: View, mounts: seq<MountSpec>, i: nat)
    requires mounts != [] && !Dangles(view, mounts[0]) && FirstDangling(view, mounts[1..], i)
    ensures FirstDangling(view, mounts, i + 1)
  {
    hide Dangles;
    var rest := mounts[1..];
    assert forall j | 0 < j < |mounts| :: mounts[j] == rest[j - 1];
  }

  lemma {:induction false} MountErrorAt(view: View, app: string, mounts: seq<MountSpec>) returns (i: nat)
    ensures MountError(view, app, mounts).None? ==> forall mt | mt in mounts :: !Dangles(view, mt)
    ensures MountError(view, app, mounts).Some? ==>
      FirstDangling(view, mounts, i) && MountError(view, app, mounts) == Some(DanglingError(app, mounts[i]))
  {
    i := 0;
    if mounts != [] {
      assert Dangles(view, mounts[0]) <==> MountLink(mounts[0]).to !in view;
      hide Dangles;
      assert mounts == [mounts[0]] + mounts[1..];
      if !Dangles(view, mounts[0]) {
        var k := MountErrorAt(view, app, mounts[1..]);
        i := k + 1;
        if MountError(view, app, mounts).Some? {
          LaterDangling(view, mounts, k);
        }
      }
    }
  }

  lemma MountErrorIs(view: View, app: string, mounts: seq<MountSpec>, e: RefError)
    ensures MountError(view, app, mounts) == Some(e) <==> MountFault(view, app, mounts, e)
    ensures MountError(view, app, mounts).None? <==> forall mt | mt in mounts :: !Dangles(view, mt)
  {
    hide MountError, Dangles, DanglingError;
    var i := MountErrorAt(view, app, mounts);
    if k: nat :| FirstDangling(view, mounts, k) && e == DanglingError(app, mounts[k]) {
      assert mounts[k] in mounts;
      assert MountError(view, app, mounts).Some? ==> i == k;
    }
  }

  lemma ResourceErrorIs(view: View, r: Resource, e: RefError)
    ensures ResourceError(view, r) == Some(e) <==> Fault(view, r, e)
  {
    hide MountError, MountFault, Dangles;
    if r.spec.ApplicationOf? {
      MountErrorIs(view, r.meta.name, r.spec.application.mounts, e);
    }
  }

  lemma FaultIs(view: View, r: Resource)
    ensures ResourceError(view, r).Some? ==> Fault(view, r, ResourceError(view, r).value)
    ensures ResourceError(view, r).None? ==> forall e :: !Fault(view, r, e)
  {
    hide ResourceError, Fault;
    if ResourceError(view, r).Some? {
      ResourceErrorIs(view, r, ResourceError(view, r).value);
    }
    forall e | ResourceError(view, r).None?
      ensures !Fault(view, r, e)
    {
      ResourceErrorIs(view, r, e);
    }
  }

  /** The error is the one of the first resource that has any. */
  lemma {:induction false} FirstErrorIs(view: View, list: seq<Resource>, e: RefError)
    ensures FirstError(view, list) == Some(e) <==> exists k ::
      0 <= k < |list| && Fault(view, list[k], e) && forall j, x | 0 <= j < k :: !Fault(view, list[j], x)
  {
    hide ResourceError, Fault;
    if list != [] {
      var rest := list[1..];
      FirstErrorIs(view, rest, e);
      FaultIs(view, list[0]);
      ResourceErrorIs(view, list[0], e);
      if ResourceError(view, list[0]).None? {
        if k :| 0 <= k < |rest| && Fault(view, rest[k], e) && forall j, x | 0 <= j < k :: !Fault(view, rest[j], x) {
          assert list[k + 1] == rest[k];
          assert forall j | 0 <= j < k + 1 :: j > 0 ==> list[j] == rest[j - 1];
        }
        if k :| 0 <= k < |list| && Fault(view, list[k], e) && forall j, x | 0 <= j < k :: !Fault(view, list[j], x) {
          assert k > 0 && rest[k - 1] == list[k];
          assert forall j | 0 <= j < k - 1 :: rest[j] == list[j + 1];
        }
      } else {
        assert FirstError(view, list) == ResourceError(view, list[0]);
        if FirstError(view, list) == Some(e) {
          assert Fault(view, list[0], e);
        }
      }
    }
  }

  ghost predicate Resolves(view: View, r: Resource) {
    && !(r.kind == KindSealedSecret && ResourceId(KindSecret, r.meta.name) in view)
    && (forall l | l in HardLinks(r.spec) :: l.to in view)
  }

  lemma ResourceErrorSoundly(view: View, r: Resource)
    ensures ResourceError(view, r).None? <==> Resolves(view, r)
  {
    hide MountError, MountLinks;
    match r.spec
    case ApplicationOf(a) =>
      MountErrorSoundly(view, r.meta.name, a.mounts);
      assert forall l | l in MountLinks(a.mounts) :: l in HardLinks(r.spec);
      if a.stack != "" {
        assert LinkTo(KindStack, a.stack, EdgeStack) in HardLinks(r.spec);
      }
    case RouteOf(t) =>
      assert LinkTo(KindApplication, t.app, EdgeRoute) in HardLinks(r.spec);
    case _ =>
  }

  lemma {:induction false} FirstErrorSoundly(view: View, list: seq<Resource>)
    ensures FirstError(view, list).None? <==> forall r | r in list :: ResourceError(view, r).None?
  {
    hide ResourceError;
    if list != [] {
      FirstErrorSoundly(view, list[1..]);
      assert list == [list[0]] + list[1..];
    }
  }

  /** A bundle passes exactly when no vault name is declared twice and every
      mount, stack and route target is joined to its user by an edge. */
  lemma ValidatedMeansConnected(list: seq<Resource>, domains: seq<string>)
    requires DistinctIds(list)
    requires forall r | r in list :: WellTyped(r) && r.meta.name != ""
    ensures var view := ViewOf(list);
      FirstError(view, list).None? <==>
      OneSecretPerName(view)
      && forall r, l | r in list && l in HardLinks(r.spec) :: Edge(r.Id(), l.to, l.via) in EdgeSet(view, domains)
  {
    hide ResourceError, EdgeSet, HardLinks, FirstError;
    var view := ViewOf(list);
    ViewMembers(list);
    FirstErrorSoundly(view, list);
    forall r | r in list
      ensures ResourceError(view, r).None? <==> Resolves(view, r)
    {
      ResourceErrorSoundly(view, r);
    }
    SecretsDeclaredOnce(view, list);
    forall r, l | r in list && l in HardLinks(r.spec)
      ensures l.to in view <==> Edge(r.Id(), l.to, l.via) in EdgeSet(view, domains)
    {
      HardLinkIsEdge(view, list, domains, r, l);
    }
  }

  lemma SecretsDeclaredOnce(view: View, list: seq<Resource>)
    requires DistinctIds(list) && view == ViewOf(list)
    ensures OneSecretPerName(view) <==>
      forall r | r in list :: !(r.kind == KindSealedSecret && ResourceId(KindSecret, r.meta.name) in view)
  {
    ViewMembers(list);
    forall name | ResourceId(KindSecret, name) in view && ResourceId(KindSealedSecret, name) in view
      ensures exists r :: r in list && r.kind == KindSealedSecret && ResourceId(KindSecret, r.meta.name) in view
    {
      var r := view[ResourceId(KindSealedSecret, name)];
      assert r in list && r.Id() == ResourceId(KindSealedSecret, name);
    }
    forall r | r in list && r.kind == KindSealedSecret && ResourceId(KindSecret, r.meta.name) in view
      ensures !OneSecretPerName(view)
    {
      assert r.Id() in view;
    }
  }

  lemma HardLinkIsEdge(view: View, list: seq<Resource>, domains: seq<string>, r: Resource, l: Link)
    requires DistinctIds(list) && view == ViewOf(list)
    requires forall q | q in list :: WellTyped(q) && q.meta.name != ""
    requires r in list && l in HardLinks(r.spec)
    ensures l.to in view <==> Edge(r.Id(), l.to, l.via) in EdgeSet(view, domains)
  {
    hide EdgeSet, MountLinks;
    ViewMembers(list);
    if l.to in view {
      assert view[l.to].meta.name == l.to.name != "";
      assert l.to.kind != r.kind by {
        if r.spec.ApplicationOf? && l in MountLinks(r.spec.application.mounts) {
          MountIsTyped(r.spec.application.mounts, l);
        }
      }
      HardIsLink(r.spec, domains, l);
      LinkIsEdge(view, domains, r, l);
    } else if Edge(r.Id(), l.to, l.via) in EdgeSet(view, domains) {
      EdgesAreTyped(view, domains, Edge(r.Id(), l.to, l.via));
    }
  }

  lemma HardIsLink(spec: Spec, domains: seq<string>, l: Link)
    requires l in HardLinks(spec)
    ensures l in Links(spec, domains)
  {
    hide MountLinks, EnvLinks, LongestDomain, NormalHost;
  }

  /** validateReferences. */
  method ValidateReferences(bundle: ResourceSet) returns (error: Option<RefError>)
    requires bundle.Valid()
    ensures error == FirstError(bundle.View(), bundle.list)
  {
    hide ResourceError;
    var list := bundle.list;
    ghost var view := bundle.View();
    assert list[0..] == list;
    for i := 0 to |list|
      invariant FirstError(view, list) == FirstError(view, list[i..])
    {
      assert list[i..][1..] == list[i + 1..];
      error := CheckResource(bundle, list[i]);
      if error.Some? {
        return;
      }
    }
    error := None;
  }

  method CheckResource(bundle: ResourceSet, r: Resource) returns (error: Option<RefError>)
    requires bundle.Valid()
    ensures error == ResourceError(bundle.View(), r)
  {
    hide MountError;
    error := None;
    if r.kind == KindSealedSecret && bundle.Has(KindSecret, r.meta.name) {
      return Some(SealedTwice(r.meta.name));
    }
    match r.spec {
      case ApplicationOf(a) =>
        error := CheckMounts(bundle, r.meta.name, a.mounts);
        if error.None? && a.stack != "" && !bundle.Has(KindStack, a.stack) {
          error := Some(UnknownStack(r.meta.name, a.stack));
        }
      case RouteOf(t) =>
        if !bundle.Has(KindApplication, t.app) {
          error := Some(UnknownTarget(r.meta.name, t.app));
        }
      case _ =>
    }
  }

  method CheckMounts(bundle: ResourceSet, app: string, mounts: seq<MountSpec>) returns (error: Option<RefError>)
    requires bundle.Valid()
    ensures error == MountError(bundle.View(), app, mounts)
  {
    ghost var view := bundle.View();
    assert mounts[0..] == mounts;
    for i := 0 to |mounts|
      invariant MountError(view, app, mounts) == MountError(view, app, mounts[i..])
    {
      assert mounts[i..][1..] == mounts[i + 1..];
      if mounts[i].config != "" {
        if !bundle.Has(KindConfig, mounts[i].config) {
          return Some(UnknownConfig(app, mounts[i].config));
        }
      } else if !bundle.Has(KindVolume, mounts[i].volume) {
        return Some(UnknownVolume(app, mounts[i].volume));
      }
    }
    error := None;
  }

  /** Domain names that differ by more than letter case. */
  predicate TellApart(names: seq<string>) {
    forall a, b | a in names && b in names && ToLower(a) == ToLower(b) :: a == b
  }

  lemma LinksForgetOrder(spec: Spec, names: seq<string>, others: seq<string>)
    requires Elements(names) == Elements(others) && TellApart(names)
    ensures Links(spec, names) == Links(spec, others)
  {
    hide MountLinks, EnvLinks, LongestDomain, NormalHost, ToLower;
    if spec.RouteOf? {
      forall i | 0 <= i < |spec.route.hosts|
        ensures LongestDomain(NormalHost(spec.route.hosts[i]), names)
          == LongestDomain(NormalHost(spec.route.hosts[i]), others)
      {
        MatchForgetsOrder(NormalHost(spec.route.hosts[i]), names, others);
      }
    }
  }

  lemma EdgesForgetOrder(view: View, names: seq<string>, others: seq<string>)
    requires Elements(names) == Elements(others) && TellApart(names)
    ensures EdgeSet(view, names) == EdgeSet(view, others)
  {
    hide Links, DrawnFrom, TellApart;
    forall id | id in view
      ensures EdgesFrom(view, view[id], names) == EdgesFrom(view, view[id], others)
    {
      LinksForgetOrder(view[id].spec, names, others);
    }
  }

  /** The derived edge list is the same whatever order the bundle was written
      in and its environments were read in; no edge in it repeats, dangles or
      loops. */
  lemma EdgeListIsUnique(view: View, names: seq<string>, others: seq<string>, xs: seq<Edge>, ys: seq<Edge>)
    requires Elements(names) == Elements(others) && TellApart(names)
    requires Arranges(EdgeLess, xs, EdgeSet(view, names)) && Arranges(EdgeLess, ys, EdgeSet(view, others))
    ensures xs == ys
    ensures NoDuplicates(xs)
    ensures forall e | e in xs :: e.from != e.to && e.to in view
  {
    hide EdgeSet, EdgeLess, TellApart;
    EdgesForgetOrder(view, names, others);
    EdgesAreOrdered(view, names);
    ArrangementUnique(EdgeLess, xs, ys, EdgeSet(view, names));
    SortedHasNoDuplicates(EdgeLess, xs, EdgeSet(view, names));
    forall e | e in xs
      ensures e.from != e.to && e.to in view
    {
      assert e in Elements(xs);
      EdgesAreTyped(view, names, e);
    }
  }
}
