/** The edges of a bundle, reference by reference: for each kind of resource an
    edge is there exactly when the manifest names its end, and of what type. */
module EdgeLaws {
  import opened Edges
  import opened Resources
  import opened Plans
  import opened Schema
  import opened Sorting
  import opened Templates
  import opened Text
  import opened Wrappers

  // ---- Texts that mention a name -------------------------------------------------

  predicate GapText(s: string) {
    forall c | c in s :: c in "- \t\n\r\U{0C}"
  }

  predicate NameLetter(c: char) {
    'a' <= c <= 'z' || 'A' <= c <= 'Z' || '0' <= c <= '9' || c in "_-"
  }

  predicate NameText(s: string) {
    s != "" && forall c | c in s :: NameLetter(c)
  }

  /** `text` reads `{{`, a gap, `.collection.name`, and does not go on as a name. */
  ghost predicate MentionedAt(text: string, before: string, gap: string, collection: string, name: string,
                              after: string) {
    && text == before + "{{" + gap + "." + collection + "." + name + after
    && GapText(gap) && NameText(name) && (after == "" || !NameLetter(after[0]))
  }

  ghost predicate Mentions(text: string, collection: string, name: string) {
    exists before, gap, after :: MentionedAt(text, before, gap, collection, name, after)
  }

  lemma ClassesAgree(c: char)
    ensures NameLetter(c) <==> NameChar(c)
    ensures c in "- \t\n\r\U{0C}" <==> DashOrSpace(c)
    ensures DashOrSpace(c) ==> c != '.' && c != '{'
  {}

  // ---- Every mention is found ------------------------------------------------------

  /** A match starts where the braces do, so no two overlap. */
  lemma NoMatchInside(s: string, i: nat, j: nat)
    requires i <= |s| && TemplateRefAt(s, i).Some? && i < j < TemplateRefAt(s, i).value.end
    ensures TemplateRefAt(s, j).None?
  {
    hide SoftRefAt, CollectionName;
    BracesAt(s, i);
    BracesAt(s, j);
    AfterBraces(s, i);
    MatchIsLong(s, i);
  }

  lemma MatchIsLong(s: string, i: nat)
    requires i <= |s| && TemplateRefAt(s, i).Some?
    ensures TemplateRefAt(s, i).value.end > i + 3
  {}

  lemma BracesAt(s: string, i: nat)
    requires i <= |s|
    ensures At(s, i, "{{") <==> i + 1 < |s| && s[i] == '{' && s[i + 1] == '{'
  {
    if i + 1 < |s| {
      assert s[i..i + 2] == [s[i], s[i + 1]];
    }
  }

  /** Past its two braces a match holds none. */
  lemma AfterBraces(s: string, i: nat)
    requires i <= |s| && TemplateRefAt(s, i).Some?
    ensures forall k | i + 2 <= k < TemplateRefAt(s, i).value.end :: s[k] != '{'
  {
    var dot := RunEnd(s, i + 2, DashOrSpace);
    BracesAt(s, i);
    SoftRefHasNoBrace(s, dot);
  }

  lemma TextAt(s: string, i: nat, p: string)
    requires At(s, i, p)
    ensures i + |p| <= |s| && forall k | i <= k < i + |p| :: s[k] == p[k - i]
  {
    assert forall k | i <= k < i + |p| :: s[k] == s[i..i + |p|][k - i];
  }

  lemma SoftRefIs(s: string, i: nat)
    requires SoftRefAt(s, i).Some?
    ensures At(s, i, "." + CollectionName(SoftRefAt(s, i).value) + ".")
  {
    hide At;
    assert "." + CollectionName(Databases) + "." == ".databases.";
    assert "." + CollectionName(Secrets) + "." == ".secrets.";
    assert "." + CollectionName(Applications) + "." == ".applications.";
  }

  lemma NamesHaveNoBrace(c: Collection)
    ensures '{' !in CollectionName(c)
  {}

  lemma SoftRefHasNoBrace(s: string, i: nat)
    requires i <= |s| && SoftRefAt(s, i).Some?
    ensures i + |CollectionName(SoftRefAt(s, i).value)| + 2 <= |s|
    ensures forall k | i <= k < i + |CollectionName(SoftRefAt(s, i).value)| + 2 :: s[k] != '{'
  {
    var c := SoftRefAt(s, i).value;
    SoftRefIs(s, i);
    NamesHaveNoBrace(c);
    hide SoftRefAt, CollectionName;
    TextAt(s, i, "." + CollectionName(c) + ".");
  }

  lemma {:induction false} FoundSomewhere(s: string, i: nat, f: Found)
    requires i <= |s|
    ensures f in TemplateRefs(s, i) <==> exists j :: i <= j <= |s| && TemplateRefAt(s, j) == Some(f)
    decreases |s| - i
  {
    hide TemplateRefAt;
    match TemplateRefAt(s, i) {
      case Some(g) =>
        FoundSomewhere(s, g.end, f);
        forall j | i < j < g.end
          ensures TemplateRefAt(s, j).None?
        {
          NoMatchInside(s, i, j);
        }
      case None =>
        if i < |s| {
          FoundSomewhere(s, i + 1, f);
        }
    }
  }

  // ---- A match is a mention -----------------------------------------------------------

  lemma RunIsText(s: string, i: nat, p: char -> bool)
    requires i <= |s|
    ensures forall c | c in s[i..RunEnd(s, i, p)] :: p(c)
  {
    var t := s[i..RunEnd(s, i, p)];
    assert forall k | 0 <= k < |t| :: t[k] == s[i + k];
  }

  lemma FiveParts(s: string, i: nat, j: nat, k: nat, l: nat, e: nat, p: string, q: string)
    requires i <= j <= k <= l <= e <= |s| && s[i..j] == p && s[k..l] == q
    ensures s == s[..i] + p + s[j..k] + q + s[l..e] + s[e..]
  {}

  lemma MatchParts(s: string, i: nat, f: Found)
    requires i <= |s| && TemplateRefAt(s, i) == Some(f)
    ensures var dot := RunEnd(s, i + 2, DashOrSpace);
      var start := dot + |CollectionName(f.collection)| + 2;
      && At(s, i, "{{") && i + 2 <= dot <= start <= f.end <= |s| && SoftRefAt(s, dot) == Some(f.collection)
      && f.name == s[start..f.end] && f.end == RunEnd(s, start, NameChar) && f.name != ""
  {
    hide SoftRefAt, At, CollectionName;
    var dot := RunEnd(s, i + 2, DashOrSpace);
  }

  lemma MatchIsMention(s: string, i: nat, f: Found)
    requires i <= |s| && TemplateRefAt(s, i) == Some(f)
    ensures Mentions(s, CollectionName(f.collection), f.name)
  {
    hide SoftRefAt, CollectionName, At, TemplateRefAt;
    MatchParts(s, i, f);
    var dot, col := RunEnd(s, i + 2, DashOrSpace), CollectionName(f.collection);
    SoftRefIs(s, dot);
    PartsMention(s, i, dot, col, f.name, f.end);
  }

  lemma PartsMention(s: string, i: nat, dot: nat, col: string, name: string, end: nat)
    requires At(s, i, "{{") && i + 2 <= dot == RunEnd(s, i + 2, DashOrSpace) && At(s, dot, "." + col + ".")
    requires dot + |col| + 2 < end <= |s| && end == RunEnd(s, dot + |col| + 2, NameChar)
      && name == s[dot + |col| + 2..end]
    ensures Mentions(s, col, name)
  {
    hide At, NameText, GapText, DashOrSpace, NameChar, NameLetter, RunEnd;
    PartsJoin(s, i, dot, col, name, end);
    RunIsText(s, i + 2, DashOrSpace);
    RunIsText(s, dot + |col| + 2, NameChar);
    ClassesOfText(s[i + 2..dot]);
    ClassesOfText(name);
    if end < |s| {
      ClassesAgree(s[end]);
    }
    assert MentionedAt(s, s[..i], s[i + 2..dot], col, name, s[end..]);
  }

  lemma PartsJoin(s: string, i: nat, dot: nat, col: string, name: string, end: nat)
    requires At(s, i, "{{") && i + 2 <= dot && At(s, dot, "." + col + ".")
    requires dot + |col| + 2 < end <= |s| && name == s[dot + |col| + 2..end]
    ensures s == s[..i] + "{{" + s[i + 2..dot] + "." + col + "." + name + s[end..]
  {
    hide At;
    BracesText(s, i);
    DotsAround(s, dot, col);
    FiveParts(s, i, i + 2, dot, dot + |col| + 2, end, "{{", "." + col + ".");
    Regroup(s[..i] + "{{" + s[i + 2..dot], col, name, s[end..]);
  }

  lemma BracesText(s: string, i: nat)
    requires At(s, i, "{{")
    ensures i + 2 <= |s| && s[i..i + 2] == "{{"
  {}

  lemma Regroup(x: string, col: string, name: string, y: string)
    ensures x + ("." + col + ".") + name + y == x + "." + col + "." + name + y
  {}

  lemma DotsAround(s: string, i: nat, col: string)
    requires At(s, i, "." + col + ".")
    ensures i + |col| + 2 <= |s| && s[i..i + |col| + 2] == "." + col + "."
  {}

  lemma ClassesOfText(t: string)
    ensures GapText(t) <==> forall c | c in t :: DashOrSpace(c)
    ensures (forall c | c in t :: NameChar(c)) && t != "" <==> NameText(t)
  {
    hide DashOrSpace, NameChar, NameLetter;
    forall c | c in t
      ensures NameLetter(c) <==> NameChar(c)
      ensures c in "- \t\n\r\U{0C}" <==> DashOrSpace(c)
    {
      ClassesAgree(c);
    }
  }

  // ---- A mention is a match -----------------------------------------------------------

  lemma RunStopsAt(x: string, run: string, y: string, p: char -> bool)
    requires (forall c | c in run :: p(c)) && (y == "" || !p(y[0]))
    ensures RunEnd(x + run + y, |x|, p) == |x| + |run|
  {
    var s := x + run + y;
    var e := RunEnd(s, |x|, p);
    assert forall k | |x| <= k < |x| + |run| :: s[k] == run[k - |x|] && run[k - |x|] in run;
    assert |x| + |run| < |s| ==> s[|x| + |run|] == y[0];
  }

  lemma ReadsAt(x: string, p: string, y: string)
    ensures At(x + p + y, |x|, p)
  {}

  lemma NotAt(s: string, i: nat, p: string, k: nat)
    requires k < |p| && i + k < |s| && s[i + k] != p[k]
    ensures !At(s, i, p)
  {
    assert i + |p| <= |s| ==> s[i..i + |p|][k] == s[i + k];
  }

  lemma SoftRefReads(s: string, i: nat, c: Collection)
    requires c != Inputs && At(s, i, "." + CollectionName(c) + ".")
    ensures SoftRefAt(s, i) == Some(c)
  {
    hide At;
    TextAt(s, i, "." + CollectionName(c) + ".");
    match c {
      case Databases => assert "." + CollectionName(Databases) + "." == ".databases.";
      case Secrets =>
        assert "." + CollectionName(Secrets) + "." == ".secrets.";
        NotAt(s, i, ".databases.", 1);
      case Applications =>
        assert "." + CollectionName(Applications) + "." == ".applications.";
        NotAt(s, i, ".databases.", 1);
        NotAt(s, i, ".secrets.", 1);
    }
  }

  /** One text, cut in the four places a match looks at. */
  lemma Shapes(before: string, gap: string, p: string, name: string, after: string)
    ensures var s := before + "{{" + gap + p + name + after;
      && s == before + "{{" + (gap + p + name + after)
      && s == (before + "{{") + gap + (p + name + after)
      && s == (before + "{{" + gap) + p + (name + after)
      && s == (before + "{{" + gap + p) + name + after
      && s[|before + "{{" + gap + p|..|before + "{{" + gap + p| + |name|] == name
  {}

  lemma MatchReads(s: string, i: nat, dot: nat, c: Collection, end: nat)
    requires At(s, i, "{{") && dot <= |s| && RunEnd(s, i + 2, DashOrSpace) == dot && SoftRefAt(s, dot) == Some(c)
    requires dot + |CollectionName(c)| + 2 < end <= |s| && RunEnd(s, dot + |CollectionName(c)| + 2, NameChar) == end
    ensures TemplateRefAt(s, i) == Some(Found(c, s[dot + |CollectionName(c)| + 2..end], end))
  {
    hide SoftRefAt, At, CollectionName;
  }

  lemma MentionIsMatch(s: string, before: string, gap: string, c: Collection, name: string, after: string)
    requires c != Inputs && MentionedAt(s, before, gap, CollectionName(c), name, after)
    ensures exists e :: |before| <= |s| && TemplateRefAt(s, |before|) == Some(Found(c, name, e))
  {
    var p := "." + CollectionName(c) + ".";
    Regroup(before + "{{" + gap, CollectionName(c), name, after);
    MentionMatches(before, gap, c, p, name, after);
  }

  lemma MentionMatches(before: string, gap: string, c: Collection, p: string, name: string, after: string)
    requires c != Inputs && p == "." + CollectionName(c) + "." && |p| == |CollectionName(c)| + 2 && p[0] == '.'
    requires GapText(gap) && NameText(name) && (after == "" || !NameLetter(after[0]))
    ensures var s := before + "{{" + gap + p + name + after;
      exists e :: TemplateRefAt(s, |before|) == Some(Found(c, name, e))
  {
    hide SoftRefAt, CollectionName, DashOrSpace, NameChar, NameLetter, TemplateRefAt, At, RunEnd;
    var s := before + "{{" + gap + p + name + after;
    Shapes(before, gap, p, name, after);
    ReadsAt(before, "{{", gap + p + name + after);
    ReadsAt(before + "{{" + gap, p, name + after);
    SoftRefReads(s, |before + "{{" + gap|, c);
    RunsOfMention(before + "{{", gap, p, name, after);
    MatchReads(s, |before|, |before + "{{" + gap|, c, |before + "{{" + gap + p| + |name|);
  }

  lemma RunsOfMention(x: string, gap: string, p: string, name: string, after: string)
    requires p != "" && p[0] == '.' && GapText(gap) && NameText(name) && (after == "" || !NameLetter(after[0]))
    ensures RunEnd(x + gap + (p + name + after), |x|, DashOrSpace) == |x + gap|
    ensures RunEnd((x + gap + p) + name + after, |x + gap + p|, NameChar) == |x + gap + p| + |name|
  {
    hide DashOrSpace, NameChar, NameLetter, RunEnd;
    ClassesOfText(gap);
    ClassesOfText(name);
    if after != "" {
      ClassesAgree(after[0]);
    }
    ClassesAgree('.');
    RunStopsAt(x, gap, p + name + after, DashOrSpace);
    RunStopsAt(x + gap + p, name, after, NameChar);
  }

  /** A text's references are exactly its mentions. */
  lemma MentionIff(s: string, c: Collection, name: string)
    requires c != Inputs
    ensures (exists e :: Found(c, name, e) in TemplateRefs(s)) <==> Mentions(s, CollectionName(c), name)
  {
    hide TemplateRefAt, CollectionName, TemplateRefs, MentionedAt;
    if e :| Found(c, name, e) in TemplateRefs(s) {
      FoundSomewhere(s, 0, Found(c, name, e));
      var j :| 0 <= j <= |s| && TemplateRefAt(s, j) == Some(Found(c, name, e));
      MatchIsMention(s, j, Found(c, name, e));
    }
    if Mentions(s, CollectionName(c), name) {
      var before, gap, after :| MentionedAt(s, before, gap, CollectionName(c), name, after);
      MentionIsMatch(s, before, gap, c, name, after);
      var e :| |before| <= |s| && TemplateRefAt(s, |before|) == Some(Found(c, name, e));
      FoundSomewhere(s, 0, Found(c, name, e));
    }
  }

  lemma {:induction false} LinkOfFound(fs: seq<Found>, l: Link)
    ensures l in AllFoundLinks(fs) <==> exists f | f in fs :: l in FoundLinks(f)
  {
    if fs != [] {
      var init := fs[..|fs| - 1];
      LinkOfFound(init, l);
      assert fs == init + [fs[|fs| - 1]];
    }
  }

  /** What a text refers to, kind by kind. */
  lemma ValueLinksAre(s: string, to: Id, via: EdgeType)
    ensures Link(to, via) in ValueLinks(s) <==>
      || (via == EdgeDatabase && to.kind == KindDatabase && Mentions(s, "databases", to.name))
      || (via == EdgeSecret && (to.kind == KindSecret || to.kind == KindSealedSecret)
        && Mentions(s, "secrets", to.name))
      || (via == EdgeAppRef && to.kind == KindApplication && Mentions(s, "applications", to.name))
  {
    hide TemplateRefs, Mentions;
    var l, fs := Link(to, via), TemplateRefs(s);
    LinkOfFound(fs, l);
    MentionIff(s, Databases, to.name);
    MentionIff(s, Secrets, to.name);
    MentionIff(s, Applications, to.name);
    forall f | f in fs
      ensures l in FoundLinks(f) <==>
        || (via == EdgeDatabase && to.kind == KindDatabase && f == Found(Databases, to.name, f.end))
        || (via == EdgeSecret && (to.kind == KindSecret || to.kind == KindSealedSecret)
          && f == Found(Secrets, to.name, f.end))
        || (via == EdgeAppRef && to.kind == KindApplication && f == Found(Applications, to.name, f.end))
    {
      OneFound(f, l);
    }
  }

  lemma OneFound(f: Found, l: Link)
    ensures l in FoundLinks(f) <==>
      || (f.collection == Databases && l == Link(ResourceId(KindDatabase, f.name), EdgeDatabase))
      || (f.collection == Secrets && l == Link(ResourceId(KindSecret, f.name), EdgeSecret))
      || (f.collection == Secrets && l == Link(ResourceId(KindSealedSecret, f.name), EdgeSecret))
      || (f.collection == Applications && l == Link(ResourceId(KindApplication, f.name), EdgeAppRef))
  {}

  // ---- The edges of each kind ------------------------------------------------------------

  ghost predicate Bundle(view: View) {
    Consistent(view) && forall id | id in view :: WellTyped(view[id])
  }

  lemma OriginIsItself(r: Resource)
    requires WellTyped(r)
    ensures Origin(r) == r.Id()
  {}

  /** An edge leaves a declared resource exactly for a reference that it makes to
      another declared one. */
  lemma EdgeIff(view: View, domains: seq<string>, r: Resource, to: Id, via: EdgeType)
    requires Bundle(view) && r.Id() in view && view[r.Id()] == r
    ensures Edge(r.Id(), to, via) in EdgeSet(view, domains) <==>
      Link(to, via) in Links(r.spec, domains) && to in view && to.name != "" && to != r.Id()
  {
    hide Links, WellTyped, Origin;
    OriginIsItself(r);
    forall id | id in view
      ensures Origin(view[id]) == id
    {
      OriginIsItself(view[id]);
    }
    if Link(to, via) in Links(r.spec, domains) && to in view && to.name != "" && to != r.Id() {
      assert Edge(r.Id(), to, via) in EdgesFrom(view, r, domains);
    }
    if Edge(r.Id(), to, via) in EdgeSet(view, domains) {
      var id :| id in view && Edge(r.Id(), to, via) in EdgesFrom(view, view[id], domains);
      assert id == r.Id();
    }
  }

  /** Every edge leaves a declared resource. */
  lemma EdgesLeaveDeclared(view: View, domains: seq<string>, e: Edge)
    requires Bundle(view) && e in EdgeSet(view, domains)
    ensures e.from in view && e.to in view
  {
    hide Links, WellTyped, Origin;
    var id :| id in view && e in EdgesFrom(view, view[id], domains);
    OriginIsItself(view[id]);
  }

  /** Some variable of the environment mentions the name. */
  ghost predicate EnvMentions(env: map<string, string>, collection: string, name: string) {
    exists k | k in env :: Mentions(env[k], collection, name)
  }

  /** What an application depends on. */
  ghost predicate ApplicationNeeds(a: ApplicationSpec, to: Id, via: EdgeType) {
    || (via == EdgeStack && to.kind == KindStack && to.name == a.stack)
    || (via == EdgeConfig && to.kind == KindConfig && exists mt | mt in a.mounts ::
      mt.config != "" && to.name == mt.config)
    || (via == EdgeMount && to.kind == KindVolume && exists mt | mt in a.mounts ::
      mt.config == "" && to.name == mt.volume)
    || (via == EdgeRegistry && to.kind == KindRegistry && to.name == a.registry)
    || (via == EdgeRepository && to.kind == KindGitRepository && a.source.Some? && to.name == a.source.value.repository)
    || (via == EdgeDatabase && to.kind == KindDatabase && EnvMentions(a.env, "databases", to.name))
    || (via == EdgeSecret && (to.kind == KindSecret || to.kind == KindSealedSecret)
      && EnvMentions(a.env, "secrets", to.name))
    || (via == EdgeAppRef && to.kind == KindApplication && EnvMentions(a.env, "applications", to.name))
  }

  lemma EnvLinksAre(env: map<string, string>, to: Id, via: EdgeType)
    ensures Link(to, via) in EnvLinks(env) <==>
      || (via == EdgeDatabase && to.kind == KindDatabase && EnvMentions(env, "databases", to.name))
      || (via == EdgeSecret && (to.kind == KindSecret || to.kind == KindSealedSecret)
        && EnvMentions(env, "secrets", to.name))
      || (via == EdgeAppRef && to.kind == KindApplication && EnvMentions(env, "applications", to.name))
  {
    hide ValueLinks, Mentions;
    forall k | k in env
      ensures Link(to, via) in ValueLinks(env[k]) <==>
        || (via == EdgeDatabase && to.kind == KindDatabase && Mentions(env[k], "databases", to.name))
        || (via == EdgeSecret && (to.kind == KindSecret || to.kind == KindSealedSecret)
          && Mentions(env[k], "secrets", to.name))
        || (via == EdgeAppRef && to.kind == KindApplication && Mentions(env[k], "applications", to.name))
    {
      ValueLinksAre(env[k], to, via);
    }
  }

  lemma MountLinksAre(mounts: seq<MountSpec>, to: Id, via: EdgeType)
    ensures Link(to, via) in MountLinks(mounts) <==>
      || (via == EdgeConfig && to.kind == KindConfig && exists mt | mt in mounts ::
        mt.config != "" && to.name == mt.config)
      || (via == EdgeMount && to.kind == KindVolume && exists mt | mt in mounts ::
        mt.config == "" && to.name == mt.volume)
  {
    forall mt | mt in mounts
      ensures MountLink(mt) in MountLinks(mounts)
    {
      var i :| 0 <= i < |mounts| && mounts[i] == mt;
    }
  }

  lemma ApplicationLinksAre(a: ApplicationSpec, to: Id, via: EdgeType)
    requires to.name != ""
    ensures Link(to, via) in ApplicationLinks(a) <==> ApplicationNeeds(a, to, via)
  {
    hide EnvLinks, MountLinks, EnvMentions;
    EnvLinksAre(a.env, to, via);
    MountLinksAre(a.mounts, to, via);
  }

  /** The edges of an application. */
  lemma ApplicationEdges(view: View, domains: seq<string>, r: Resource, to: Id, via: EdgeType)
    requires Bundle(view) && r.Id() in view && view[r.Id()] == r && r.spec.ApplicationOf?
    ensures Edge(r.Id(), to, via) in EdgeSet(view, domains) <==>
      to in view && to.name != "" && to != r.Id() && ApplicationNeeds(r.spec.application, to, via)
  {
    hide EdgeSet, ApplicationLinks, ApplicationNeeds;
    EdgeIff(view, domains, r, to, via);
    if to.name != "" {
      ApplicationLinksAre(r.spec.application, to, via);
    }
  }

  /** What the other kinds depend on. */
  ghost predicate OtherNeeds(spec: Spec, to: Id, via: EdgeType) {
    match spec
    case GitSourceOf(g) => via == EdgeRepository && to == ResourceId(KindGitRepository, g.repository)
    case GitRepositoryOf(g) =>
      via == EdgeSecret
        && (to == ResourceId(KindSecret, g.secretRef) || to == ResourceId(KindSealedSecret, g.secretRef))
    case CronJobOf(c) =>
      || (via == EdgeSchedule && to == ResourceId(KindApplication, c.app))
      || (via == EdgeRegistry && to == ResourceId(KindRegistry, c.registry))
    case JobOf(j) =>
      || (via == EdgeRun && to == ResourceId(KindApplication, j.app))
      || (via == EdgeRegistry && to == ResourceId(KindRegistry, j.registry))
    case _ => false
  }

  /** The edges of git sources, git repositories, cron jobs and jobs; stacks,
      databases, volumes, secrets, domains, registries, configs, middlewares and
      projects have none. */
  lemma OtherEdges(view: View, domains: seq<string>, r: Resource, to: Id, via: EdgeType)
    requires Bundle(view) && r.Id() in view && view[r.Id()] == r && !r.spec.ApplicationOf? && !r.spec.RouteOf?
    ensures Edge(r.Id(), to, via) in EdgeSet(view, domains) <==>
      to in view && to.name != "" && to != r.Id() && OtherNeeds(r.spec, to, via)
  {
    hide EdgeSet, ApplicationLinks, RouteLinks;
    EdgeIff(view, domains, r, to, via);
  }

  // ---- Routes -----------------------------------------------------------------------------

  predicate AllSpace(s: string) {
    forall c | c in s :: IsSpace(c)
  }

  /** The host a text gives: without the blanks around it and one dot at its end. */
  ghost predicate HostIn(text: string, host: string) {
    exists left, dot, right ::
      && text == left + (host + dot) + right && AllSpace(left) && AllSpace(right)
      && Trimmed(host + dot) && dot in ["", "."] && (dot == "" ==> !HasSuffix(host, "."))
  }

  /** `host` is `name` or a host under it, letter case aside. */
  ghost predicate HostUnder(host: string, name: string) {
    exists sub, same :: host == sub + same && ToLower(same) == ToLower(name) && (sub == "" || sub[|sub| - 1] == '.')
  }

  ghost predicate CoversHost(text: string, name: string) {
    exists host :: HostIn(text, host) && HostUnder(host, name)
  }

  lemma {:induction false} TrimLeftDrops(left: string, t: string)
    requires AllSpace(left) && (t == "" || !IsSpace(t[0]))
    ensures TrimLeft(left + t) == t
  {
    if left == "" {
      assert left + t == t;
    } else {
      assert (left + t)[0] == left[0] && left[0] in left && (left + t)[1..] == left[1..] + t;
      TrimLeftDrops(left[1..], t);
    }
  }

  lemma {:induction false} TrimRightDrops(t: string, right: string)
    requires AllSpace(right) && (t == "" || !IsSpace(t[|t| - 1]))
    ensures TrimRight(t + right) == t
  {
    if right == "" {
      assert t + right == t;
    } else {
      var s := t + right;
      assert s[|s| - 1] == right[|right| - 1] && right[|right| - 1] in right;
      assert s[..|s| - 1] == t + right[..|right| - 1];
      TrimRightDrops(t, right[..|right| - 1]);
    }
  }

  lemma TrimSpaceDrops(left: string, t: string, right: string)
    requires AllSpace(left) && AllSpace(right) && Trimmed(t)
    ensures TrimSpace(left + t + right) == t
  {
    if t == "" {
      AllSpaceJoins(left, right);
      assert left + t + right == (left + right) + "";
      TrimLeftDrops(left + right, "");
    } else {
      assert left + t + right == left + (t + right) && (t + right)[0] == t[0];
      TrimLeftDrops(left, t + right);
      TrimRightDrops(t, right);
    }
  }

  lemma AllSpaceJoins(left: string, right: string)
    requires AllSpace(left) && AllSpace(right)
    ensures AllSpace(left + right)
  {}

  lemma {:induction false} TrimLeftParts(s: string)
    ensures |TrimLeft(s)| <= |s| && s[|s| - |TrimLeft(s)|..] == TrimLeft(s) && AllSpace(s[..|s| - |TrimLeft(s)|])
  {
    if s != "" && IsSpace(s[0]) {
      TrimLeftParts(s[1..]);
      var n := |s| - |TrimLeft(s)|;
      assert s[1..][..n - 1] == s[1..n] && s[..n] == [s[0]] + s[1..n];
      assert s[1..][n - 1..] == s[n..];
    }
  }

  lemma {:induction false} TrimRightParts(s: string)
    ensures AllSpace(s[|TrimRight(s)|..])
  {
    if s != "" && IsSpace(s[|s| - 1]) {
      var init := s[..|s| - 1];
      TrimRightParts(init);
      assert s[|TrimRight(s)|..] == init[|TrimRight(init)|..] + [s[|s| - 1]];
    }
  }

  lemma TrimSpaceParts(s: string) returns (left: string, right: string)
    ensures s == left + TrimSpace(s) + right && AllSpace(left) && AllSpace(right)
  {
    var t := TrimLeft(s);
    TrimLeftParts(s);
    TrimRightParts(t);
    left, right := s[..|s| - |t|], t[|TrimRight(t)|..];
    assert s == left + t && t == TrimRight(t) + right;
  }

  lemma LowerDot(t: string)
    ensures HasSuffix(ToLower(t), ".") <==> HasSuffix(t, ".")
  {
    if t != "" {
      assert t[|t| - 1..] == [t[|t| - 1]] && ToLower(t)[|t| - 1..] == [LowerChar(t[|t| - 1])];
    }
  }

  lemma LowerJoins(a: string, b: string)
    ensures ToLower(a + b) == ToLower(a) + ToLower(b)
  {}

  lemma DotComesOff(h: string)
    ensures TrimSuffix(h + ".", ".") == h
  {
    assert (h + ".")[|h|..] == "." && (h + ".")[..|h|] == h;
  }

  lemma LowerOfDot()
    ensures ToLower(".") == "."
  {}

  lemma LowerHost(host: string, dot: string)
    requires dot in ["", "."] && (dot == "" ==> !HasSuffix(host, "."))
    ensures TrimSuffix(ToLower(host + dot), ".") == ToLower(host)
  {
    hide ToLower;
    if dot == "" {
      assert host + dot == host;
      LowerDot(host);
    } else {
      LowerJoins(host, ".");
      LowerOfDot();
      DotComesOff(ToLower(host));
    }
  }

  /** The host in a text is the one matching looks at, in lower case. */
  lemma HostInIs(text: string, host: string)
    requires HostIn(text, host)
    ensures NormalHost(text) == ToLower(host)
  {
    hide ToLower, TrimSuffix, HasSuffix, TrimSpace, AllSpace;
    var left, dot, right :| text == left + (host + dot) + right && AllSpace(left) && AllSpace(right)
      && Trimmed(host + dot) && dot in ["", "."] && (dot == "" ==> !HasSuffix(host, "."));
    TrimSpaceDrops(left, host + dot, right);
    LowerHost(host, dot);
  }

  lemma HostOf(text: string) returns (host: string)
    ensures HostIn(text, host)
  {
    var t := TrimSpace(text);
    var left, right := TrimSpaceParts(text);
    TrimSpaceTrims(text);
    if HasSuffix(t, ".") {
      host := t[..|t| - 1];
      assert t == host + ".";
      assert HostIn(text, host) by {
        assert text == left + (host + ".") + right;
      }
    } else {
      host := t;
      assert t == host + "";
      assert text == left + (host + "") + right;
    }
  }

  lemma SubdomainSplits(host: string, name: string)
    requires HasSuffix(ToLower(host), "." + ToLower(name))
    ensures HostUnder(host, name)
  {
    hide ToLower, HasSuffix, HostUnder;
    SuffixAt(ToLower(host), ToLower(name));
    var k := |host| - |name|;
    LowerAt(host, k - 1);
    LowerEnd(host, k);
    SplitUnder(host, k, name);
  }

  lemma LowerEnd(s: string, k: nat)
    requires k <= |s|
    ensures ToLower(s)[k..] == ToLower(s[k..])
  {}

  lemma SplitUnder(host: string, k: nat, name: string)
    requires 0 < k <= |host| && host[k - 1] == '.' && ToLower(host[k..]) == ToLower(name)
    ensures HostUnder(host, name)
  {
    hide ToLower;
    assert host == host[..k] + host[k..];
  }

  lemma SuffixAt(h: string, n: string)
    requires HasSuffix(h, "." + n)
    ensures |n| < |h| && h[|h| - |n| - 1] == '.' && h[|h| - |n|..] == n
  {
    var t := h[|h| - |n| - 1..];
    assert t[0] == '.' && t[1..] == n;
  }

  lemma LowerAt(s: string, k: nat)
    requires k < |s| && ToLower(s)[k] == '.'
    ensures s[k] == '.'
  {}

  lemma SplitIsUnder(host: string, sub: string, same: string, name: string)
    requires host == sub + same && ToLower(same) == ToLower(name) && (sub == "" || sub[|sub| - 1] == '.')
    ensures Under(ToLower(host), name)
  {
    var h := ToLower(host);
    assert h[|sub|..] == ToLower(same);
    if sub == "" {
      assert host == same;
    } else {
      assert h[|sub| - 1] == '.';
      assert h[|sub| - 1..] == "." + h[|sub|..];
    }
  }

  lemma UnderIff(host: string, name: string)
    ensures Under(ToLower(host), name) <==> HostUnder(host, name)
  {
    hide ToLower, HasSuffix;
    if ToLower(host) == ToLower(name) {
      assert host == "" + host;
      assert HostUnder(host, name);
    } else if Under(ToLower(host), name) {
      SubdomainSplits(host, name);
    }
    if HostUnder(host, name) {
      var sub, same :| host == sub + same && ToLower(same) == ToLower(name) && (sub == "" || sub[|sub| - 1] == '.');
      SplitIsUnder(host, sub, same, name);
    }
  }

  lemma CoversIff(text: string, name: string)
    ensures CoversHost(text, name) <==> Under(NormalHost(text), name)
  {
    hide HostIn, HostUnder, NormalHost, Under;
    var host := HostOf(text);
    HostInIs(text, host);
    UnderIff(host, name);
    if CoversHost(text, name) {
      var h :| HostIn(text, h) && HostUnder(h, name);
      HostInIs(text, h);
      UnderIff(h, name);
    }
  }

  /** `name` is a domain that covers the host, and none that covers it is longer. */
  ghost predicate LongestCovering(text: string, name: string, domains: seq<string>) {
    name in domains && CoversHost(text, name) && forall n | n in domains && CoversHost(text, n) :: |n| <= |name|
  }

  lemma ChosenCovers(text: string, name: string, domains: seq<string>)
    requires name != ""
    ensures LongestDomain(NormalHost(text), domains) == name ==> LongestCovering(text, name, domains)
    ensures LongestCovering(text, name, domains)
      && (forall n | n in domains && CoversHost(text, n) && |n| == |name| :: n == name)
      ==> LongestDomain(NormalHost(text), domains) == name
  {
    hide CoversHost, NormalHost, Under;
    LongestDomainIsLongest(NormalHost(text), domains);
    forall n
      ensures CoversHost(text, n) <==> Under(NormalHost(text), n)
    {
      CoversIff(text, n);
    }
  }

  lemma RouteLinksAre(r: RouteSpec, domains: seq<string>, to: Id, via: EdgeType)
    ensures Link(to, via) in RouteLinks(r, domains) <==>
      || (via == EdgeRoute && to == ResourceId(KindApplication, r.app))
      || (via == EdgeMiddleware && to.kind == KindMiddleware && to.name in r.middlewares)
      || (via == EdgeDomain && to.kind == KindDomain
          && exists h | h in r.hosts :: LongestDomain(NormalHost(h), domains) == to.name)
  {
    hide LongestDomain, NormalHost;
    var l := Link(to, via);
    if to.name in r.middlewares {
      var i :| 0 <= i < |r.middlewares| && r.middlewares[i] == to.name;
    }
    if h :| h in r.hosts && LongestDomain(NormalHost(h), domains) == to.name {
      var i :| 0 <= i < |r.hosts| && r.hosts[i] == h;
    }
  }

  /** A route depends on its application and its middlewares, and on the longest
      declared domain that covers one of its hosts. */
  lemma RouteEdges(view: View, domains: seq<string>, r: Resource, to: Id, via: EdgeType)
    requires Bundle(view) && r.Id() in view && view[r.Id()] == r && r.spec.RouteOf?
    requires to in view && to.name != ""
    ensures via == EdgeRoute ==>
      (Edge(r.Id(), to, via) in EdgeSet(view, domains) <==> to == ResourceId(KindApplication, r.spec.route.app))
    ensures via == EdgeMiddleware ==>
      (Edge(r.Id(), to, via) in EdgeSet(view, domains) <==>
        to.kind == KindMiddleware && to.name in r.spec.route.middlewares)
    ensures via == EdgeDomain && Edge(r.Id(), to, via) in EdgeSet(view, domains) ==>
      to.kind == KindDomain && exists h | h in r.spec.route.hosts :: LongestCovering(h, to.name, domains)
    ensures forall h | h in r.spec.route.hosts ::
      via == EdgeDomain && to.kind == KindDomain && LongestCovering(h, to.name, domains)
      && (forall n | n in domains && CoversHost(h, n) && |n| == |to.name| :: n == to.name)
      ==> Edge(r.Id(), to, via) in EdgeSet(view, domains)
    ensures via !in {EdgeRoute, EdgeMiddleware, EdgeDomain} ==> Edge(r.Id(), to, via) !in EdgeSet(view, domains)
  {
    hide EdgeSet, RouteLinks, CoversHost, LongestCovering, LongestDomain, NormalHost;
    EdgeIff(view, domains, r, to, via);
    RouteLinksAre(r.spec.route, domains, to, via);
    forall h | h in r.spec.route.hosts
      ensures LongestDomain(NormalHost(h), domains) == to.name ==> LongestCovering(h, to.name, domains)
      ensures LongestCovering(h, to.name, domains)
        && (forall n | n in domains && CoversHost(h, n) && |n| == |to.name| :: n == to.name)
        ==> LongestDomain(NormalHost(h), domains) == to.name
    {
      ChosenCovers(h, to.name, domains);
    }
  }

  // ---- The order they are listed in --------------------------------------------------------

  /** Edges are listed by the resource they leave, then by the one they lead to. */
  lemma EdgeOrder(view: View, domains: seq<string>, out: seq<Edge>, i: nat, j: nat)
    requires Arranges(EdgeLess, out, EdgeSet(view, domains)) && i < j < |out|
    ensures var a, b := out[i], out[j];
      var from, next := KindName(a.from.kind) + "/" + a.from.name, KindName(b.from.kind) + "/" + b.from.name;
      var to, last := KindName(a.to.kind) + "/" + a.to.name, KindName(b.to.kind) + "/" + b.to.name;
      Less(from, next) || (from == next && Less(to, last))
  {
    hide EdgeSet;
  }
}
