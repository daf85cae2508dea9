/** From manifests to a settled workspace: what parsing guarantees is what the
    planner and the reference graph need. */
module Bundles {
  import opened Convergence
  import opened Edges
  import opened Matching
  import opened Normalize
  import opened Parsing
  import opened PlanLaws
  import opened Plans
  import opened Resources
  import opened Schema
  import opened Sorting
  import opened Topology
  import opened Wrappers

  /** Every document's spec was decoded under the kind it names. */
  ghost predicate DecodedByKind(ns: seq<Node>) {
    forall n | n in Preorder(ns) && GoodNode(n) :: WellTyped(Head(n))
  }

  lemma NormalKeepsType(r: Resource)
    requires WellTyped(r)
    ensures WellTyped(Normalized(r)) && Normalized(r).Id() == r.Id()
  {
    hide NormalApplication, NormalizeServer, NormalizeGitURL;
  }

  /** A parsed bundle declares each resource once, under a name and with a spec
      of its kind, and a vault name under one kind only. */
  lemma ParsedIsWellFormed(v: Validators, ns: seq<Node>)
    requires DecodedByKind(ns) && ParseSpec(v, ns).Success?
    ensures var list := ParseSpec(v, ns).value;
      && DistinctIds(list) && Consistent(ViewOf(list)) && OneSecretPerName(ViewOf(list))
      && (forall r | r in list :: WellTyped(r) && r.meta.name != "")
  {
    hide ParseSpec, FirstError, NormalSpec, Preorder, DistinctIds, WellTyped, EdgeSet, HardLinks;
    var list := ParseSpec(v, ns).value;
    ParseAccepts(v, ns);
    ParseGivesParsed(v, ns);
    ViewMembers(list);
    var heads := Heads(Preorder(ns));
    forall r | r in list
      ensures WellTyped(r) && r.meta.name != ""
    {
      var i :| 0 <= i < |list| && list[i] == r;
      assert Preorder(ns)[i] in Preorder(ns);
      NormalKeepsType(heads[i]);
    }
    ValidatedMeansConnected(list, []);
  }

  /** Every mount, stack and route target of a parsed bundle has its edge. */
  lemma ParsedIsConnected(v: Validators, ns: seq<Node>, domains: seq<string>, r: Resource, l: Link)
    requires DecodedByKind(ns) && ParseSpec(v, ns).Success?
    requires r in ParseSpec(v, ns).value && l in HardLinks(r.spec)
    ensures Edge(r.Id(), l.to, l.via) in EdgeSet(ViewOf(ParseSpec(v, ns).value), domains)
  {
    hide ParseSpec, FirstError, EdgeSet, HardLinks, WellTyped, Accepts, NormalSpec;
    ParsedIsWellFormed(v, ns);
    ParseGivesParsed(v, ns);
    ValidatedMeansConnected(ParseSpec(v, ns).value, domains);
  }

  /** End to end: applying the plan of a parsed bundle settles the workspace, if
      and only if no sealing clashes, when every declared UID has one live owner
      at most, no two declared resources of a kind share one, and no declared
      name belongs to a live resource that another declared one owns. */
  lemma ParsedBundleConverges(v: Validators, ns: seq<Node>, m: Fields.Models, actual: View, opts: PlanOptions,
                              plan: seq<Change>)
    requires DecodedByKind(ns) && ParseSpec(v, ns).Success? && Consistent(actual)
    requires var desired := ViewOf(ParseSpec(v, ns).value);
      && UniqueUids(desired) && OneOwner(desired, actual) && NamesAreFree(desired, actual)
      && IsPlan(plan, Due(m, desired, actual, opts))
    ensures var desired := ViewOf(ParseSpec(v, ns).value);
      Converges(m, desired, actual, opts, plan) <==> !Clash(m, desired, actual)
  {
    hide ParseSpec, WellTyped, UniqueUids, OneOwner, NamesAreFree, OneSecretPerName, Uncontested, Due, ChangeLess, Run,
         IndexOf, Converges, Clash;
    var list := ParseSpec(v, ns).value;
    ParsedIsWellFormed(v, ns);
    ViewMembers(list);
    FreeNamesAreUncontested(ViewOf(list), actual);
    PlanConvergesIff(m, ViewOf(list), actual, opts, plan);
  }
}
