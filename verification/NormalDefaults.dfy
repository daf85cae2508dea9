/** The defaults by value: what every kind of resource is given for what it leaves
    unsaid, what is cut off the addresses it states, and what stays as it is. */
module NormalDefaults {
  import opened Normalize
  import opened Schema
  import opened Text
  import opened Wrappers

  /** Nothing said becomes the default; anything said stays. */
  predicate Defaults(before: string, after: string, default: string) {
    if before == "" then after == default else after == before
  }

  // ---- Applications ------------------------------------------------------------------

  /** A port speaks http over tcp unless it says otherwise, and is published when it
      asks for a port of the host. */
  predicate PortDefaults(p: PortSpec, n: PortSpec) {
    && Defaults(p.scheme, n.scheme, "http") && Defaults(p.protocol, n.protocol, "tcp")
    && (n.publish <==> p.publish || p.hostPort >= 1)
    && n.container == p.container && n.externalAccess == p.externalAccess && n.hostPort == p.hostPort
  }

  /** A config is mounted read-only, and anything else as it says. */
  predicate MountDefaults(m: MountSpec, n: MountSpec) {
    && (n.readOnly <==> m.readOnly || m.config != "")
    && n.volume == m.volume && n.config == m.config && n.key == m.key && n.path == m.path && n.mode == m.mode
  }

  lemma PortsDefault(ps: seq<PortSpec>, ms: seq<MountSpec>)
    ensures forall i | 0 <= i < |ps| :: PortDefaults(ps[i], NormalPorts(ps)[i])
    ensures forall i | 0 <= i < |ms| :: MountDefaults(ms[i], NormalMounts(ms)[i])
  {}

  /** What normalising an application leaves alone. */
  predicate SameOtherwise(n: ApplicationSpec, a: ApplicationSpec) {
    && n.source == a.source && n.image == a.image && n.tag == a.tag && n.digest == a.digest && n.command == a.command
    && n.env == a.env && n.secretEnv == a.secretEnv && n.resources == a.resources && n.placement == a.placement
    && n.healthcheck == a.healthcheck && n.containerLabels == a.containerLabels && n.stack == a.stack
    && n.registry == a.registry && n.externalLabel == a.externalLabel && n.configFP == a.configFP
  }

  /** What adopting one old spelling leaves alone. */
  predicate Untouched(n: ApplicationSpec, a: ApplicationSpec) {
    SameOtherwise(n, a) && n.ports == a.ports && n.mounts == a.mounts && n.reloadPolicy == a.reloadPolicy
  }

  lemma StrategyTouches(a: ApplicationSpec)
    ensures var n := AdoptStrategy(a); Untouched(n, a) && n.security == a.security && n.Update() == a.Update()
  {}

  lemma AccountTouches(a: ApplicationSpec)
    ensures var n := AdoptRunAsUser(a); Untouched(n, a) && SameHardening(n, a) && n.deployment == a.deployment
  {}

  lemma CapabilitiesTouch(a: ApplicationSpec)
    ensures var n := AdoptCapabilities(a); Untouched(n, a) && SameHardening(n, a) && n.deployment == a.deployment
  {}

  /** The parts of the security block that have no old spelling. */
  predicate SameHardening(n: ApplicationSpec, a: ApplicationSpec) {
    && n.ReadOnlyRootFilesystem() == a.ReadOnlyRootFilesystem() && n.NoNewPrivileges() == a.NoNewPrivileges()
    && n.DropCapabilities() == a.DropCapabilities() && n.Devices() == a.Devices()
  }

  /** An application takes its defaults port by port and mount by mount, and reloads by
      restart unless it says otherwise. */
  lemma ApplicationDefaults(a: ApplicationSpec)
    ensures var n := NormalApplication(a);
      && |n.ports| == |a.ports| && (forall i | 0 <= i < |a.ports| :: PortDefaults(a.ports[i], n.ports[i]))
      && |n.mounts| == |a.mounts| && (forall i | 0 <= i < |a.mounts| :: MountDefaults(a.mounts[i], n.mounts[i]))
      && Defaults(a.reloadPolicy, n.reloadPolicy, "restart")
      && SameOtherwise(n, a) && SameHardening(n, a) && n.Update() == a.Update()
  {
    hide AdoptStrategy, AdoptRunAsUser, AdoptCapabilities, NormalPort, NormalMount, PortDefaults, MountDefaults;
    var b := a.(ports := NormalPorts(a.ports), mounts := NormalMounts(a.mounts),
                reloadPolicy := OrElse(a.reloadPolicy, RELOAD_RESTART));
    PortsDefault(a.ports, a.mounts);
    StrategyTouches(b);
    AccountTouches(AdoptStrategy(b));
    CapabilitiesTouch(AdoptRunAsUser(AdoptStrategy(b)));
  }

  /** An old spelling alone takes the place of the new one; beside the new one both stay. */
  lemma OldSpellings(a: ApplicationSpec)
    ensures var n := NormalApplication(a);
      && Defaults(a.Strategy(), n.Strategy(), a.deprecatedStrategy)
      && (n.deprecatedStrategy == "" || n.deprecatedStrategy == a.deprecatedStrategy)
      && (n.deprecatedStrategy == "" <==> a.deprecatedStrategy == "" || a.Strategy() == "")
      && Defaults(a.RunAsUser(), n.RunAsUser(), a.deprecatedRunAsUser)
      && (n.deprecatedRunAsUser == "" || n.deprecatedRunAsUser == a.deprecatedRunAsUser)
      && (n.deprecatedRunAsUser == "" <==> a.deprecatedRunAsUser == "" || a.RunAsUser() == "")
      && n.AddCapabilities() == (if a.AddCapabilities().Some? then a.AddCapabilities() else OldCapabilities(a))
      && n.Replicas() == a.Replicas() && n.Runtime() == a.Runtime()
  {
    hide AdoptStrategy, AdoptRunAsUser, AdoptCapabilities;
    var b := a.(ports := NormalPorts(a.ports), mounts := NormalMounts(a.mounts),
                reloadPolicy := OrElse(a.reloadPolicy, RELOAD_RESTART));
    AdoptionKeepsValues(b);
    OldValuesStay(b);
    OldValuesStay(AdoptStrategy(b));
    OldValuesStay(AdoptRunAsUser(AdoptStrategy(b)));
  }

  lemma OldValuesStay(a: ApplicationSpec)
    ensures AdoptStrategy(a).deprecatedStrategy in ["", a.deprecatedStrategy]
    ensures AdoptStrategy(a).deprecatedRunAsUser == a.deprecatedRunAsUser
    ensures AdoptRunAsUser(a).deprecatedRunAsUser in ["", a.deprecatedRunAsUser]
    ensures AdoptRunAsUser(a).deprecatedStrategy == a.deprecatedStrategy
    ensures AdoptCapabilities(a).deprecatedStrategy == a.deprecatedStrategy
    ensures AdoptCapabilities(a).deprecatedRunAsUser == a.deprecatedRunAsUser
  {}

  // ---- The other kinds -----------------------------------------------------------------

  predicate ConfigDefaults(c: ConfigSpec, n: ConfigSpec) {
    Defaults(c.mode, n.mode, "0644") && n == c.(mode := n.mode)
  }

  predicate RouteDefaults(r: RouteSpec, n: RouteSpec) {
    Defaults(r.tls, n.tls, "acme") && Defaults(r.path, n.path, "/") && n == r.(tls := n.tls, path := n.path)
  }

  predicate DomainDefaults(d: DomainSpec, n: DomainSpec) {
    Defaults(d.tls, n.tls, "acme") && n.wildcard == d.wildcard
  }

  predicate SyncDefaults(g: GitSourceSpec, n: GitSourceSpec) {
    Defaults(g.syncPolicy, n.syncPolicy, "manual") && Defaults(g.deletePolicy, n.deletePolicy, "orphan")
  }

  /** Each kind by its literal defaults, and the kinds that have none. */
  lemma PlainDefaults(s: Spec)
    ensures s.ConfigOf? ==> NormalSpec(s).ConfigOf? && ConfigDefaults(s.config, NormalSpec(s).config)
    ensures s.RouteOf? ==> NormalSpec(s).RouteOf? && RouteDefaults(s.route, NormalSpec(s).route)
    ensures s.DomainOf? ==> NormalSpec(s).DomainOf? && DomainDefaults(s.domain, NormalSpec(s).domain)
    ensures s.GitSourceOf? ==> NormalSpec(s).GitSourceOf? && SyncDefaults(s.gitSource, NormalSpec(s).gitSource)
    ensures s.ApplicationOf? ==> NormalSpec(s) == ApplicationOf(NormalApplication(s.application))
    ensures s.StackOf? || s.VolumeOf? || s.SecretOf? || s.SealedSecretOf? || s.MiddlewareOf? || s.ProjectOf? ==>
      NormalSpec(s) == s
    ensures s.CronJobOf? || s.JobOf? || s.NoSpec? ==> NormalSpec(s) == s
  {
    hide NormalApplication, NormalizeServer, NormalizeGitURL, TrimSpace;
  }

  /** A database runs where it says; the old one-word placement moves to the instance
      unless one is stated, and the default is "auto". */
  lemma DatabaseDefaults(d: DatabaseSpec)
    ensures NormalSpec(DatabaseOf(d)).DatabaseOf?
    ensures var n := NormalSpec(DatabaseOf(d)).database;
      var word := if d.placement.Some? then d.placement.value.legacyInstance else "";
      && n.inst == (if d.inst != "" then d.inst else if word != "" then word else "auto")
      && n.placement == (if d.inst == "" && word != "" then None else d.placement)
      && n == d.(inst := n.inst, placement := n.placement)
  {}

  // ---- Blanks ----------------------------------------------------------------------------

  predicate BlankText(s: string) {
    forall c | c in s :: IsSpace(c)
  }

  lemma {:induction false} LeftBlanksGo(pre: string, s: string)
    requires BlankText(pre) && s != "" && !IsSpace(s[0])
    ensures TrimLeft(pre + s) == s
  {
    hide IsSpace;
    if pre == "" {
      assert pre + s == s;
    } else {
      assert pre[0] in pre && (pre + s)[0] == pre[0] && (pre + s)[1..] == pre[1..] + s;
      LeftBlanksGo(pre[1..], s);
    }
  }

  lemma {:induction false} RightBlanksGo(s: string, post: string)
    requires BlankText(post) && s != "" && !IsSpace(s[|s| - 1])
    ensures TrimRight(s + post) == s
  {
    hide IsSpace;
    if post == "" {
      assert s + post == s;
    } else {
      var last := |post| - 1;
      assert post[last] in post && (s + post)[|s| + last] == post[last] && (s + post)[..|s| + last] == s + post[..last];
      RightBlanksGo(s, post[..last]);
    }
  }

  /** Trimming takes the blanks around a text and nothing else. */
  lemma TrimmedText(pre: string, s: string, post: string)
    requires BlankText(pre) && BlankText(post) && s != "" && !IsSpace(s[0]) && !IsSpace(s[|s| - 1])
    ensures TrimSpace(pre + s + post) == s
  {
    hide IsSpace;
    assert pre + s + post == pre + (s + post);
    LeftBlanksGo(pre, s + post);
    RightBlanksGo(s, post);
  }

  lemma {:induction false} BlanksTrimAway(s: string)
    requires BlankText(s)
    ensures TrimSpace(s) == ""
  {
    hide IsSpace;
    if s != "" {
      assert s[0] in s;
      BlanksTrimAway(s[1..]);
    }
  }

  // ---- Git sources and repositories ----------------------------------------------------------

  /** A git source's addresses lose the blanks around them; without a branch it
      follows "main", without a path it reads the root. */
  lemma GitSourceDefaults(g: GitSourceSpec, pre: string, ref: string, path: string, post: string)
    requires BlankText(pre) && BlankText(post) && NormalSpec(GitSourceOf(g)).GitSourceOf?
    ensures var n := NormalSpec(GitSourceOf(g)).gitSource;
      && (BlankText(g.ref) ==> n.ref == "main")
      && (g.ref == pre + ref + post && ref != "" && !IsSpace(ref[0]) && !IsSpace(ref[|ref| - 1]) ==> n.ref == ref)
      && (BlankText(g.path) ==> n.path == ".")
      && (g.path == pre + path + post && path != "" && !IsSpace(path[0]) && !IsSpace(path[|path| - 1]) ==>
        n.path == path)
      && (BlankText(g.repo) ==> n.repo == "")
      && (g.repo == pre + path + post && path != "" && !IsSpace(path[0]) && !IsSpace(path[|path| - 1]) ==>
        n.repo == path)
      && n == g.(repo := n.repo, ref := n.ref, path := n.path, syncPolicy := n.syncPolicy,
        deletePolicy := n.deletePolicy)
  {
    hide IsSpace, TrimSpace, BlankText;
    if BlankText(g.ref) { BlanksTrimAway(g.ref); }
    if BlankText(g.path) { BlanksTrimAway(g.path); }
    if BlankText(g.repo) { BlanksTrimAway(g.repo); }
    if ref != "" && !IsSpace(ref[0]) && !IsSpace(ref[|ref| - 1]) { TrimmedText(pre, ref, post); }
    if path != "" && !IsSpace(path[0]) && !IsSpace(path[|path| - 1]) { TrimmedText(pre, path, post); }
  }

  predicate Slashes(s: string) {
    forall c | c in s :: c == '/'
  }

  lemma {:induction false} SlashesGo(u: string, slashes: string)
    requires Slashes(slashes) && (u == "" || u[|u| - 1] != '/')
    ensures TrimSlashes(u + slashes) == u
  {
    if slashes == "" {
      assert u + slashes == u;
    } else {
      var last := |slashes| - 1;
      assert slashes[last] in slashes && (u + slashes)[|u| + last] == '/'
        && (u + slashes)[..|u| + last] == u + slashes[..last];
      assert forall c | c in slashes[..last] :: c in slashes;
      SlashesGo(u, slashes[..last]);
    }
  }

  /** Ends in .git, in any letter case. */
  predicate EndsInDotGit(u: string) {
    && |u| >= 4 && u[|u| - 4] == '.' && u[|u| - 3] in "gG" && u[|u| - 2] in "iI" && u[|u| - 1] in "tT"
  }

  lemma DotGit(u: string)
    ensures HasSuffix(ToLower(u), ".git") <==> EndsInDotGit(u)
  {
    if |u| >= 4 {
      var t := ToLower(u);
      assert t[|t| - 4..] == [t[|t| - 4], t[|t| - 3], t[|t| - 2], t[|t| - 1]];
      LowerOf(u[|u| - 4]);
      LowerOf(u[|u| - 3]);
      LowerOf(u[|u| - 2]);
      LowerOf(u[|u| - 1]);
    }
  }

  lemma LowerOf(c: char)
    ensures LowerChar(c) == '.' <==> c == '.'
    ensures LowerChar(c) == 'g' <==> c in "gG"
    ensures LowerChar(c) == 'i' <==> c in "iI"
    ensures LowerChar(c) == 't' <==> c in "tT"
  {}

  /** A repository's address without the blanks around it and the slashes behind it,
      and with ".git" at its end; slashes alone are no address. */
  lemma GitAddress(pre: string, u: string, slashes: string, post: string)
    requires BlankText(pre) && BlankText(post) && Slashes(slashes)
    requires u != "" ==> !IsSpace(u[0]) && u[|u| - 1] != '/' && (slashes == "" ==> !IsSpace(u[|u| - 1]))
    ensures NormalizeGitURL(pre + (u + slashes) + post) == if u == "" || EndsInDotGit(u) then u else u + ".git"
  {
    hide IsSpace, TrimSpace, BlankText, EndsInDotGit, HasSuffix, ToLower;
    var s := u + slashes;
    SlashIsNoSpace();
    if slashes != "" {
      assert s[|s| - 1] == slashes[|slashes| - 1] && slashes[|slashes| - 1] in slashes;
      assert slashes[0] in slashes;
    }
    if s == "" {
      BlanksJoin(pre, post);
      assert pre + s + post == pre + post;
      BlanksTrimAway(pre + post);
    } else {
      TrimmedText(pre, s, post);
    }
    SlashesGo(u, slashes);
    DotGit(u);
    assert u + "" == u;
  }

  lemma BlanksJoin(pre: string, post: string)
    requires BlankText(pre) && BlankText(post)
    ensures BlankText(pre + post)
  {}

  lemma SlashIsNoSpace()
    ensures !IsSpace('/')
  {}

  /** A repository signs in with its token exactly when it names a secret and no way to
      sign in; without a secret it is public. */
  lemma GitRepositoryDefaults(g: GitRepositorySpec)
    ensures NormalSpec(GitRepositoryOf(g)).GitRepositoryOf?
    ensures var n := NormalSpec(GitRepositoryOf(g)).gitRepository;
      && n.auth == (if g.auth != "" then g.auth else if g.secretRef == "" then "public" else "token")
      && n.username == g.username && n.secretRef == g.secretRef && n.url == NormalizeGitURL(g.url)
  {
    hide NormalizeGitURL;
  }

  // ---- Registries ------------------------------------------------------------------------------

  /** A host holds no blank and no slash. */
  predicate HostText(h: string) {
    h != "" && forall c | c in h :: !IsSpace(c) && c != '/'
  }

  /** Whatever schemes and slash stand around a host, the host is what remains; a
      registry that names none is Docker's. */
  lemma RegistryDefaults(g: RegistrySpec, pre: string, scheme: string, h: string, slash: string, post: string)
    requires BlankText(pre) && BlankText(post) && HostText(h)
    requires scheme in ["", "https://", "http://", "https://http://"] && slash in ["", "/"]
    ensures NormalSpec(RegistryOf(g)).RegistryOf?
    ensures var n := NormalSpec(RegistryOf(g)).registry;
      && (BlankText(g.server) ==> n.server == "registry-1.docker.io")
      && (g.server == pre + (scheme + h + slash) + post ==> n.server == h)
      && n == g.(server := n.server)
  {
    hide NormalizeServer, BlankText, HostText;
    if BlankText(g.server) {
      NoServer(g.server);
    }
    if g.server == pre + (scheme + h + slash) + post {
      HostRemains(pre, scheme, h, slash, post);
    }
  }

  lemma NoServer(s: string)
    requires BlankText(s)
    ensures NormalizeServer(s) == "registry-1.docker.io"
  {
    BlanksTrimAway(s);
  }

  lemma HostRemains(pre: string, scheme: string, h: string, slash: string, post: string)
    requires BlankText(pre) && BlankText(post) && HostText(h)
    requires scheme in ["", "https://", "http://", "https://http://"] && slash in ["", "/"]
    ensures NormalizeServer(pre + (scheme + h + slash) + post) == h
  {
    hide IsSpace, TrimSpace, BlankText, TrimPrefix, TrimSuffix;
    var s := scheme + h + slash;
    HostEndsRight(scheme, h, slash);
    TrimmedText(pre, s, post);
    SchemesComeOff(scheme, h, slash);
    SlashIsLast(h, slash);
  }

  lemma HostEndsRight(scheme: string, h: string, slash: string)
    requires HostText(h) && scheme in ["", "https://", "http://", "https://http://"] && slash in ["", "/"]
    ensures var s := scheme + h + slash; s != "" && !IsSpace(s[0]) && !IsSpace(s[|s| - 1])
  {
    hide IsSpace;
    assert h[0] in h && h[|h| - 1] in h;
    SlashIsNoSpace();
    LetterIsNoSpace();
    assert scheme != "" ==> scheme[0] == 'h';
  }

  lemma LetterIsNoSpace()
    ensures !IsSpace('h')
  {}

  lemma HostHasNoScheme(h: string, slash: string)
    requires HostText(h) && slash in ["", "/"]
    ensures !HasPrefix(h + slash, "https://") && !HasPrefix(h + slash, "http://")
  {
    NoTwoSlashes(h, slash, "https://", 6);
    NoTwoSlashes(h, slash, "http://", 5);
  }

  lemma NoTwoSlashes(h: string, slash: string, p: string, k: nat)
    requires HostText(h) && slash in ["", "/"] && |p| == k + 2 && p[k] == '/' && p[k + 1] == '/'
    ensures !HasPrefix(h + slash, p)
  {
    hide IsSpace;
    var s := h + slash;
    if k + 1 < |s| {
      assert s[k] == h[k] && h[k] in h;
      NotPrefix(s, p, k);
    }
  }

  lemma PrefixComesOff(p: string, x: string)
    ensures TrimPrefix(p + x, p) == x
  {
    assert (p + x)[..|p|] == p && (p + x)[|p|..] == x;
  }

  lemma HttpIsNotHttps(x: string)
    ensures !HasPrefix("http://" + x, "https://")
  {
    var s := "http://" + x;
    assert s[4] == ':' && "https://"[4] == 's';
    NotPrefix(s, "https://", 4);
  }

  lemma StripTwo(p: string, q: string, x: string)
    requires !HasPrefix(x, p) && !HasPrefix(x, q) && !HasPrefix(q + x, p)
    ensures TrimPrefix(TrimPrefix(x, p), q) == x
    ensures TrimPrefix(TrimPrefix(p + x, p), q) == x
    ensures TrimPrefix(TrimPrefix(q + x, p), q) == x
    ensures TrimPrefix(TrimPrefix(p + (q + x), p), q) == x
  {
    PrefixComesOff(p, x);
    PrefixComesOff(q, x);
    PrefixComesOff(p, q + x);
    hide HasPrefix;
  }

  lemma SchemesComeOff(scheme: string, h: string, slash: string)
    requires HostText(h) && scheme in ["", "https://", "http://", "https://http://"] && slash in ["", "/"]
    ensures TrimPrefix(TrimPrefix(scheme + h + slash, "https://"), "http://") == h + slash
  {
    hide HasPrefix, HostText, TrimPrefix;
    var x := h + slash;
    Grouped(scheme, h, slash);
    HostHasNoScheme(h, slash);
    HttpIsNotHttps(x);
    StripTwo("https://", "http://", x);
    TwoSchemes(x);
  }

  lemma Grouped(scheme: string, h: string, slash: string)
    ensures scheme + h + slash == scheme + (h + slash)
    ensures "" + (h + slash) == h + slash
  {}

  lemma TwoSchemes(x: string)
    ensures "https://http://" + x == "https://" + ("http://" + x)
  {
    assert "https://" + "http://" == "https://http://";
  }

  lemma SlashIsLast(h: string, slash: string)
    requires HostText(h) && slash in ["", "/"]
    ensures TrimSuffix(h + slash, "/") == h
  {
    hide IsSpace;
    assert h[|h| - 1] in h;
    if slash == "" {
      assert h + slash == h;
      NoSlashAtEnd(h);
    } else {
      assert (h + slash)[|h|..] == "/" && (h + slash)[..|h|] == h;
    }
  }
}
