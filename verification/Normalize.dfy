/** Defaults and old spellings: what a declared resource becomes before it is
    checked, and why doing it again changes nothing. */
module Normalize {
  import opened Schema
  import opened Text
  import opened Wrappers

  const RELOAD_RESTART := "restart"
  const DEFAULT_FILE_MODE := "0644"
  const DEFAULT_REGISTRY_SERVER := "registry-1.docker.io"
  const DELETE_POLICY_ORPHAN := "orphan"

  function OrElse(s: string, default: string): string {
    if s == "" then default else s
  }

  // ---- Repository addresses ------------------------------------------------------

  function TrimSlashes(s: string): (t: string)
    ensures t <= s && (t == "" || t[|t| - 1] != '/')
  {
    if s != "" && s[|s| - 1] == '/' then TrimSlashes(s[..|s| - 1]) else s
  }

  const GIT_SUFFIX := ".git"

  function NormalizeGitURL(raw: string): string {
    var u := TrimSlashes(TrimSpace(raw));
    if u != "" && !HasSuffix(ToLower(u), GIT_SUFFIX) then u + GIT_SUFFIX else u
  }

  lemma EndsInGit(u: string)
    requires HasSuffix(ToLower(u), GIT_SUFFIX)
    ensures u != "" && !IsSpace(u[|u| - 1]) && u[|u| - 1] != '/'
  {
    var t := ToLower(u);
    assert t[|t| - 1] == t[|t| - 4..][3] == 't';
    assert LowerChar(u[|u| - 1]) == 't';
  }

  lemma AddedSuffix(u: string)
    ensures HasSuffix(ToLower(u + GIT_SUFFIX), GIT_SUFFIX)
  {
    var t := ToLower(u + GIT_SUFFIX);
    assert t[|t| - 4..] == GIT_SUFFIX;
  }

  lemma NormalizeGitURLIsIdempotent(raw: string)
    ensures NormalizeGitURL(NormalizeGitURL(raw)) == NormalizeGitURL(raw)
  {
    var s := TrimSpace(raw);
    TrimSpaceTrims(raw);
    var u := TrimSlashes(s);
    var v := NormalizeGitURL(raw);
    if u != "" {
      assert u[0] == s[0] && !IsSpace(s[0]);
      if v != u {
        AddedSuffix(u);
      }
      EndsInGit(v);
      assert v[0] == u[0];
      TrimSpaceTrims(v);
    }
  }

  // ---- Registry servers ------------------------------------------------------------

  const HTTPS := "https://"
  const HTTP := "http://"

  function NormalizeServer(server: string): string {
    var s := TrimSpace(server);
    if s == "" then DEFAULT_REGISTRY_SERVER
    else TrimSuffix(TrimPrefix(TrimPrefix(s, HTTPS), HTTP), "/")
  }

  /** Nothing to trim, no scheme and no trailing slash. */
  predicate PlainServer(s: string) {
    s != "" && Trimmed(s) && !HasPrefix(s, HTTPS) && !HasPrefix(s, HTTP) && !HasSuffix(s, "/")
  }

  lemma PlainServerStays(s: string)
    requires PlainServer(s)
    ensures NormalizeServer(s) == s
  {
    TrimSpaceTrims(s);
  }

  lemma {:induction false} TrimLeftShortens(s: string)
    ensures |TrimLeft(s)| <= |s| && (|TrimLeft(s)| == |s| ==> TrimLeft(s) == s)
  {
    if s != "" && IsSpace(s[0]) {
      TrimLeftShortens(s[1..]);
    }
  }

  lemma TrimSpaceShortens(s: string)
    ensures |TrimSpace(s)| <= |s| && (|TrimSpace(s)| == |s| ==> TrimSpace(s) == s)
  {
    TrimLeftShortens(s);
    var t := TrimLeft(s);
    assert |TrimRight(t)| == |t| ==> TrimRight(t) == t[..|t|];
  }

  /** A server survives normalising only when there is nothing to strip. */
  lemma StaysOnlyIfPlain(s: string)
    requires NormalizeServer(s) == s
    ensures PlainServer(s)
  {
    var t := TrimSpace(s);
    TrimSpaceShortens(s);
    TrimSpaceTrims(s);
    if t == "" {
      assert s == DEFAULT_REGISTRY_SERVER;
      DefaultIsPlain();
    } else {
      var u := TrimPrefix(t, HTTPS);
      var v := TrimPrefix(u, HTTP);
      assert |TrimSuffix(v, "/")| <= |v| <= |u| <= |t| <= |s|;
    }
  }

  lemma DefaultIsPlain()
    ensures PlainServer(DEFAULT_REGISTRY_SERVER)
  {
    var d := DEFAULT_REGISTRY_SERVER;
    assert d[0] == 'r' && d[|d| - 1] == 'o';
    NotPrefix(d, HTTPS, 0);
    NotPrefix(d, HTTP, 0);
    NoSlashAtEnd(d);
  }

  lemma NotPrefix(s: string, p: string, k: nat)
    requires k < |s| && k < |p| && s[k] != p[k]
    ensures !HasPrefix(s, p)
  {
    assert |p| <= |s| ==> s[..|p|][k] == s[k];
  }

  lemma NoSlashAtEnd(s: string)
    requires s != "" && s[|s| - 1] != '/'
    ensures !HasSuffix(s, "/")
  {
    assert s[|s| - 1..][0] == s[|s| - 1];
  }

  lemma PrefixChar(s: string, p: string, k: nat)
    requires HasPrefix(s, p) && k < |p|
    ensures p[k] in s
  {
    assert s[k] == s[..|p|][k];
  }

  lemma StableIffPlain(server: string)
    ensures NormalizeServer(NormalizeServer(server)) == NormalizeServer(server) <==>
      PlainServer(NormalizeServer(server))
  {
    var s := NormalizeServer(server);
    if PlainServer(s) {
      PlainServerStays(s);
    } else if NormalizeServer(s) == s {
      StaysOnlyIfPlain(s);
    }
  }

  /** A server without the blanks around it and one scheme of each kind. */
  function Host(server: string): string {
    TrimPrefix(TrimPrefix(TrimSpace(server), HTTPS), HTTP)
  }

  /** No blank, scheme or second slash shows once a scheme and a slash are gone. */
  predicate StripsOnce(b: string) {
    && b != "" && b != "/" && !IsSpace(b[0])
    && !HasPrefix(b, HTTPS) && !HasPrefix(b, HTTP)
    && !(|b| > 1 && b[|b| - 1] == '/' && (b[|b| - 2] == '/' || IsSpace(b[|b| - 2])))
  }

  /** A server as written that one pass normalises for good. */
  predicate StableServer(server: string) {
    TrimSpace(server) == "" || StripsOnce(Host(server))
  }

  /** Normalising a server twice is normalising it once exactly when its host
      part has nothing more to strip than one slash. */
  lemma ServerIsStableIff(server: string)
    ensures NormalizeServer(NormalizeServer(server)) == NormalizeServer(server) <==> StableServer(server)
  {
    hide TrimSpace, StripsOnce, PlainServer;
    StableIffPlain(server);
    TrimSpaceTrims(server);
    if TrimSpace(server) == "" {
      DefaultIsPlain();
    } else {
      HostEnds(TrimSpace(server));
      SlashComesOff(Host(server));
    }
  }

  /** What precedes a host is gone from the front; its end is untouched. */
  lemma HostEnds(t: string)
    requires t != "" && Trimmed(t)
    ensures var b := TrimPrefix(TrimPrefix(t, HTTPS), HTTP); b != "" ==> !IsSpace(b[|b| - 1])
  {}

  lemma SlashComesOff(b: string)
    requires b != "" ==> !IsSpace(b[|b| - 1])
    ensures PlainServer(TrimSuffix(b, "/")) <==> StripsOnce(b)
  {
    var r := TrimSuffix(b, "/");
    if b != "" && b[|b| - 1] == '/' {
      assert b[|b| - 1..] == "/" && r == b[..|b| - 1];
      if r != "" {
        ShorterPrefix(b, HTTPS);
        ShorterPrefix(b, HTTP);
        LastSlash(r);
      }
    } else if b != "" {
      NoSlashAtEnd(b);
    }
  }

  lemma LastSlash(s: string)
    requires s != ""
    ensures HasSuffix(s, "/") <==> s[|s| - 1] == '/'
  {
    assert s[|s| - 1..] == [s[|s| - 1]];
  }

  /** A scheme at the front survives losing the last slash, unless the slash was its own. */
  lemma ShorterPrefix(b: string, p: string)
    requires |p| > 1 && p[|p| - 2] == '/' && |b| > 1
    ensures HasPrefix(b[..|b| - 1], p) ==> HasPrefix(b, p)
    ensures HasPrefix(b, p) ==> HasPrefix(b[..|b| - 1], p) || b[|b| - 2] == '/'
  {
    assert |p| < |b| ==> b[..|b| - 1][..|p|] == b[..|p|];
    assert |p| == |b| && HasPrefix(b, p) ==> b == p;
  }

  lemma PlainSchemeComesOff(b: string)
    requires b != "" && Trimmed(HTTP + b) && !HasSuffix(b, "/")
    ensures NormalizeServer(HTTP + b) == b
  {
    var a := HTTP + b;
    TrimSpaceTrims(a);
    assert a[4] == ':' && HTTPS[4] == 's';
    NotPrefix(a, HTTPS, 4);
    assert a[..|HTTP|] == HTTP && a[|HTTP|..] == b;
  }

  lemma SchemesAreTrimmed()
    ensures Trimmed(HTTP + (HTTPS + "x")) && !HasSuffix(HTTPS + "x", "/") && HTTPS + "x" != ""
    ensures !PlainServer(HTTPS + "x")
  {
    var a := HTTPS + "x";
    assert a[..|HTTPS|] == HTTPS;
    assert a[|a| - 1] == 'x';
    NoSlashAtEnd(a);
    var b := HTTP + a;
    assert b[0] == 'h' && b[|b| - 1] == a[|a| - 1];
  }

  /** One pass does not always leave nothing to strip: behind one scheme there
      may be another. */
  lemma TwoSchemesAreNotStable()
    ensures var s := HTTP + (HTTPS + "x"); NormalizeServer(NormalizeServer(s)) != NormalizeServer(s)
  {
    hide NormalizeServer, PlainServer, Trimmed, HasSuffix;
    SchemesAreTrimmed();
    PlainSchemeComesOff(HTTPS + "x");
    StableIffPlain(HTTP + (HTTPS + "x"));
  }

  // ---- What validation says about a server ------------------------------------------

  predicate LabelChar(c: char) {
    'a' <= c <= 'z' || '0' <= c <= '9' || c == '-'
  }

  predicate HostLabel(s: string) {
    s != "" && s[0] != '-' && s[|s| - 1] != '-' && forall c | c in s :: LabelChar(c)
  }

  function CutAt(s: string, c: char): (i: nat)
    ensures i <= |s| && (i < |s| ==> s[i] == c) && c !in s[..i]
  {
    if s == "" || s[0] == c then 0
    else
      var i := CutAt(s[1..], c);
      assert s[..i + 1] == [s[0]] + s[1..][..i];
      i + 1
  }

  predicate HostLabels(s: string)
    decreases |s|
  {
    var i := CutAt(s, '.');
    HostLabel(s[..i]) && (i < |s| ==> HostLabels(s[i + 1..]))
  }

  predicate PortNumber(s: string) {
    1 <= |s| <= 5 && forall c | c in s :: '0' <= c <= '9'
  }

  /** registryServerRe: a host, optionally with a port. */
  predicate RegistryServer(s: string) {
    var i := CutAt(s, ':');
    HostLabels(s[..i]) && (i < |s| ==> PortNumber(s[i + 1..]))
  }

  lemma {:induction false} LabelsAreChars(s: string)
    requires HostLabels(s)
    ensures s != "" && forall c | c in s :: LabelChar(c) || c == '.'
    decreases |s|
  {
    var i := CutAt(s, '.');
    assert s[..i][0] == s[0];
    if i < |s| {
      LabelsAreChars(s[i + 1..]);
      assert s == s[..i] + ['.'] + s[i + 1..];
    } else {
      assert s[..i] == s;
    }
  }

  lemma ServerChars(s: string)
    requires RegistryServer(s)
    ensures s != "" && forall c | c in s :: !IsSpace(c) && c != '/'
  {
    var i := CutAt(s, ':');
    LabelsAreChars(s[..i]);
    assert s[..i][0] == s[0];
    if i < |s| {
      assert s == s[..i] + [':'] + s[i + 1..];
    } else {
      assert s[..i] == s;
    }
  }

  /** Every server validation accepts is stable. */
  lemma AcceptedServerIsPlain(s: string)
    requires RegistryServer(s)
    ensures PlainServer(s) && NormalizeServer(s) == s
  {
    ServerChars(s);
    assert s[0] in s && s[|s| - 1] in s;
    NoSlashAtEnd(s);
    if HasPrefix(s, HTTPS) {
      PrefixChar(s, HTTPS, 6);
    }
    if HasPrefix(s, HTTP) {
      PrefixChar(s, HTTP, 5);
    }
    PlainServerStays(s);
  }

  // ---- Applications ---------------------------------------------------------------------

  function NormalPort(p: PortSpec): PortSpec {
    p.(scheme := OrElse(p.scheme, "http"), protocol := OrElse(p.protocol, "tcp"),
      publish := p.publish || p.hostPort > 0)
  }

  function NormalMount(m: MountSpec): MountSpec {
    if m.config != "" then m.(readOnly := true) else m
  }

  function NormalPorts(ps: seq<PortSpec>): (r: seq<PortSpec>)
    ensures |r| == |ps|
  {
    seq(|ps|, i requires 0 <= i < |ps| => NormalPort(ps[i]))
  }

  function NormalMounts(ms: seq<MountSpec>): (r: seq<MountSpec>)
    ensures |r| == |ms|
  {
    seq(|ms|, i requires 0 <= i < |ms| => NormalMount(ms[i]))
  }

  const NO_DEPLOYMENT := DeploymentSpec("", 0, "", None)
  const NO_SECURITY := SecuritySpec("", false, None, None, [], None)
  const NO_CAPABILITIES := CapabilitiesSpec(None, [])

  function AdoptStrategy(a: ApplicationSpec): ApplicationSpec {
    if a.deprecatedStrategy != "" && a.Strategy() == "" then
      a.(deployment := Some(a.deployment.GetOr(NO_DEPLOYMENT).(strategy := a.deprecatedStrategy)),
        deprecatedStrategy := "")
    else a
  }

  function AdoptRunAsUser(a: ApplicationSpec): ApplicationSpec {
    if a.deprecatedRunAsUser != "" && a.RunAsUser() == "" then
      a.(security := Some(a.security.GetOr(NO_SECURITY).(runAsUser := a.deprecatedRunAsUser)),
        deprecatedRunAsUser := "")
    else a
  }

  function AdoptCapabilities(a: ApplicationSpec): ApplicationSpec {
    if a.security.Some? && a.security.value.deprecatedAddCapabilities.Some? && a.AddCapabilities().None? then
      var s := a.security.value;
      var caps := s.capabilities.GetOr(NO_CAPABILITIES).(add := s.deprecatedAddCapabilities);
      a.(security := Some(s.(capabilities := Some(caps), deprecatedAddCapabilities := None)))
    else a
  }

  function AdoptDeprecated(a: ApplicationSpec): ApplicationSpec {
    AdoptCapabilities(AdoptRunAsUser(AdoptStrategy(a)))
  }

  function NormalApplication(a: ApplicationSpec): ApplicationSpec {
    AdoptDeprecated(a.(ports := NormalPorts(a.ports), mounts := NormalMounts(a.mounts),
                       reloadPolicy := OrElse(a.reloadPolicy, RELOAD_RESTART)))
  }

  /** The old list of added capabilities. */
  function OldCapabilities(a: ApplicationSpec): Option<seq<string>> {
    if a.security.Some? then a.security.value.deprecatedAddCapabilities else None
  }

  /** No old spelling is left, or the new one is set beside it. */
  predicate Adopted(a: ApplicationSpec) {
    && (a.deprecatedStrategy == "" || a.Strategy() != "")
    && (a.deprecatedRunAsUser == "" || a.RunAsUser() != "")
    && (OldCapabilities(a).None? || a.AddCapabilities().Some?)
  }

  lemma StrategyMoves(a: ApplicationSpec)
    ensures var n := AdoptStrategy(a);
      && n.Strategy() == OrElse(a.Strategy(), a.deprecatedStrategy)
      && (n.deprecatedStrategy != "" <==> a.deprecatedStrategy != "" && a.Strategy() != "")
      && n.Replicas() == a.Replicas() && n.Runtime() == a.Runtime()
      && n.security == a.security && n.deprecatedRunAsUser == a.deprecatedRunAsUser
  {}

  lemma AccountMoves(a: ApplicationSpec)
    ensures var n := AdoptRunAsUser(a);
      && n.RunAsUser() == OrElse(a.RunAsUser(), a.deprecatedRunAsUser)
      && (n.deprecatedRunAsUser != "" <==> a.deprecatedRunAsUser != "" && a.RunAsUser() != "")
      && n.AddCapabilities() == a.AddCapabilities() && n.DropCapabilities() == a.DropCapabilities()
      && OldCapabilities(n) == OldCapabilities(a)
      && n.deployment == a.deployment && n.deprecatedStrategy == a.deprecatedStrategy
  {}

  lemma CapabilitiesMove(a: ApplicationSpec)
    ensures var n := AdoptCapabilities(a);
      && n.AddCapabilities() == (if a.AddCapabilities().Some? then a.AddCapabilities() else OldCapabilities(a))
      && (OldCapabilities(n).Some? <==> OldCapabilities(a).Some? && a.AddCapabilities().Some?)
      && n.DropCapabilities() == a.DropCapabilities() && n.RunAsUser() == a.RunAsUser()
      && n.deprecatedRunAsUser == a.deprecatedRunAsUser
      && n.deployment == a.deployment && n.deprecatedStrategy == a.deprecatedStrategy
  {}

  /** An old spelling moves to the new field, or stays beside it for validation
      to refuse; it is never dropped and never overrides. */
  lemma AdoptionKeepsValues(a: ApplicationSpec)
    ensures var n := AdoptDeprecated(a);
      && Adopted(n)
      && n.Strategy() == OrElse(a.Strategy(), a.deprecatedStrategy)
      && n.RunAsUser() == OrElse(a.RunAsUser(), a.deprecatedRunAsUser)
      && n.AddCapabilities() == (if a.AddCapabilities().Some? then a.AddCapabilities() else OldCapabilities(a))
      && (n.deprecatedStrategy != "" <==> a.deprecatedStrategy != "" && a.Strategy() != "")
      && (n.deprecatedRunAsUser != "" <==> a.deprecatedRunAsUser != "" && a.RunAsUser() != "")
      && (OldCapabilities(n).Some? <==> OldCapabilities(a).Some? && a.AddCapabilities().Some?)
      && n.DropCapabilities() == a.DropCapabilities() && n.Replicas() == a.Replicas() && n.Runtime() == a.Runtime()
  {
    hide AdoptStrategy, AdoptRunAsUser, AdoptCapabilities;
    StrategyMoves(a);
    AccountMoves(AdoptStrategy(a));
    CapabilitiesMove(AdoptRunAsUser(AdoptStrategy(a)));
  }

  lemma AdoptedStays(a: ApplicationSpec)
    requires Adopted(a)
    ensures AdoptDeprecated(a) == a
  {}

  lemma NormalApplicationIsIdempotent(a: ApplicationSpec)
    ensures NormalApplication(NormalApplication(a)) == NormalApplication(a)
  {
    hide AdoptDeprecated, Adopted;
    var b := a.(ports := NormalPorts(a.ports), mounts := NormalMounts(a.mounts),
                reloadPolicy := OrElse(a.reloadPolicy, RELOAD_RESTART));
    AdoptionKeepsValues(b);
    AdoptionKeepsRest(b);
    var n := NormalApplication(a);
    assert n.ports == NormalPorts(a.ports) && n.mounts == NormalMounts(a.mounts);
    assert NormalPorts(n.ports) == n.ports && NormalMounts(n.mounts) == n.mounts;
    assert n.(ports := NormalPorts(n.ports), mounts := NormalMounts(n.mounts),
      reloadPolicy := OrElse(n.reloadPolicy, RELOAD_RESTART)) == n;
    AdoptedStays(n);
  }

  /** What adopting never touches. */
  predicate SameRest(n: ApplicationSpec, a: ApplicationSpec) {
    n.ports == a.ports && n.mounts == a.mounts && n.reloadPolicy == a.reloadPolicy
  }

  lemma StepsKeepRest(a: ApplicationSpec)
    ensures SameRest(AdoptStrategy(a), a) && SameRest(AdoptRunAsUser(a), a) && SameRest(AdoptCapabilities(a), a)
  {}

  lemma AdoptionKeepsRest(a: ApplicationSpec)
    ensures SameRest(AdoptDeprecated(a), a)
  {
    hide AdoptStrategy, AdoptRunAsUser, AdoptCapabilities;
    StepsKeepRest(a);
    StepsKeepRest(AdoptStrategy(a));
    StepsKeepRest(AdoptRunAsUser(AdoptStrategy(a)));
  }

  // ---- The other kinds ----------------------------------------------------------------------

  function NormalDatabase(d: DatabaseSpec): DatabaseSpec {
    var moved :=
      if d.placement.Some? && d.placement.value.legacyInstance != "" && d.inst == ""
      then d.(inst := d.placement.value.legacyInstance, placement := None) else d;
    moved.(inst := OrElse(moved.inst, "auto"))
  }

  function NormalGitRepository(g: GitRepositorySpec): GitRepositorySpec {
    g.(url := NormalizeGitURL(g.url), auth := OrElse(g.auth, if g.secretRef != "" then "token" else "public"))
  }

  function NormalGitSource(g: GitSourceSpec): GitSourceSpec {
    g.(repo := TrimSpace(g.repo), ref := OrElse(TrimSpace(g.ref), "main"), path := OrElse(TrimSpace(g.path), "."),
       syncPolicy := OrElse(g.syncPolicy, "manual"), deletePolicy := OrElse(g.deletePolicy, DELETE_POLICY_ORPHAN))
  }

  function NormalSpec(s: Spec): Spec {
    match s
    case ApplicationOf(a) => ApplicationOf(NormalApplication(a))
    case ConfigOf(c) => ConfigOf(c.(mode := OrElse(c.mode, DEFAULT_FILE_MODE)))
    case DatabaseOf(d) => DatabaseOf(NormalDatabase(d))
    case RouteOf(r) => RouteOf(r.(tls := OrElse(r.tls, "acme"), path := OrElse(r.path, "/")))
    case DomainOf(d) => DomainOf(d.(tls := OrElse(d.tls, "acme")))
    case RegistryOf(g) => RegistryOf(g.(server := NormalizeServer(g.server)))
    case GitRepositoryOf(g) => GitRepositoryOf(NormalGitRepository(g))
    case GitSourceOf(g) => GitSourceOf(NormalGitSource(g))
    case _ => s
  }

  function Normalized(r: Resource): Resource {
    r.(spec := NormalSpec(r.spec))
  }

  lemma TrimSpaceTwice(s: string)
    ensures TrimSpace(TrimSpace(s)) == TrimSpace(s)
  {
    TrimSpaceTrims(s);
    TrimSpaceTrims(TrimSpace(s));
  }

  lemma WordsAreTrimmed()
    ensures TrimSpace("main") == "main" && TrimSpace(".") == "."
  {
    assert "main"[0] == 'm' && "main"[3] == 'n' && "."[0] == '.';
    assert Trimmed("main") && Trimmed(".");
    TrimSpaceTrims("main");
    TrimSpaceTrims(".");
  }

  /** Normalising again changes nothing, except that a registry server may have
      more to strip. */
  lemma NormalizingIsIdempotent(s: Spec)
    requires s.RegistryOf? ==> StableServer(s.registry.server)
    ensures NormalSpec(NormalSpec(s)) == NormalSpec(s)
  {
    hide NormalApplication, NormalizeServer, StableServer, NormalizeGitURL, TrimSpace;
    match s
    case ApplicationOf(a) => NormalApplicationIsIdempotent(a);
    case RegistryOf(g) => ServerIsStableIff(g.server);
    case GitRepositoryOf(g) => NormalizeGitURLIsIdempotent(g.url);
    case GitSourceOf(g) =>
      TrimSpaceTwice(g.repo);
      TrimSpaceTwice(g.ref);
      TrimSpaceTwice(g.path);
      WordsAreTrimmed();
    case _ =>
  }
}
