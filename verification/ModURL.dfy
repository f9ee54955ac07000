/**
  Module URLs: how `load` and `loadFile` arguments are resolved, and what is then fetched.
  Parsing, resolving and printing URLs and editing the `ref` of a query are functions
  whose contract is `Lawful`. Names with user information, a fragment or an opaque part,
  and names with a single slash after their scheme, are not modelled.
 */
module ModURL {
  import opened Basics
  import opened Names

  datatype URL = URL(scheme: string, host: string, path: string, query: string)

  /**
    `parse(base, name)` resolves a reference as section 5.2 of RFC 3986 says, or fails;
    `text` prints; `plain` holds of URLs that parsing reads back from their text, and
    `readsHost` of hosts it accepts.
   */
  datatype Urls = Urls(
    parse: (URL, string) -> Option<URL>,
    text: URL -> string,
    removeDots: string -> string,
    getRef: string -> string,
    setRef: (string, string) -> string,
    plain: URL -> bool,
    readsHost: string -> bool)

  /** The part of a host after its first dot. */
  function Org(host: string): string {
    if host == "" then "" else if host[0] == '.' then host[1..] else Org(host[1..])
  }

  /** A repository in the organisation of another host. */
  function Joined(host: string, base: string): string {
    host + "." + Org(base)
  }

  predicate Brackets(host: string) {
    '[' in host || ']' in host
  }

  /**
    Whether a host can be given the organisation of another. A port or an address in
    brackets is then no longer at the end, unless the organisation brings a port of its own.
   */
  predicate Joinable(host: string, base: string) {
    !(host != "" && host[0] == '[') && (':' in host ==> ':' in Org(base))
  }

  ghost predicate Lawful(lib: Urls) {
    LawfulParsing(lib) && LawfulHosts(lib) && LawfulQueries(lib)
  }

  ghost predicate LawfulParsing(lib: Urls) {
    && (forall base, name :: lib.parse(base, name).Some? ==> Proper(lib, base, lib.parse(base, name).value))
    && (forall base, u :: lib.plain(u) && u.scheme != "" ==>
          lib.parse(base, lib.text(u)) == Some(u.(path := lib.removeDots(u.path))))
  }

  /** What resolving against `base` gives: no dot segments, and a scheme if the base has one. */
  ghost predicate Proper(lib: Urls, base: URL, u: URL) {
    lib.plain(u) && lib.removeDots(u.path) == u.path && (base.scheme != "" ==> u.scheme != "")
  }

  /** Joining the hosts of two plain URLs gives one that is read back, or one that does not parse. */
  ghost predicate LawfulHosts(lib: Urls) {
    && (forall u :: lib.plain(u) ==> lib.readsHost(u.host))
    && (forall u, b {:trigger lib.plain(u.(host := Joined(u.host, b.host)))} ::
          lib.plain(u) && lib.plain(b) && lib.readsHost(Joined(u.host, b.host)) ==>
            lib.plain(u.(host := Joined(u.host, b.host))))
    && (forall u, b, base {:trigger lib.parse(base, lib.text(u.(host := Joined(u.host, b.host))))} ::
          lib.plain(u) && lib.plain(b) && u.scheme != "" && !lib.readsHost(Joined(u.host, b.host)) ==>
            lib.parse(base, lib.text(u.(host := Joined(u.host, b.host)))) == None)
    && (forall u, b {:trigger lib.plain(u), lib.plain(b), Joined(u.host, b.host)} ::
          lib.plain(u) && lib.plain(b) && !Brackets(b.host) ==>
            (lib.readsHost(Joined(u.host, b.host)) <==> Joinable(u.host, b.host)))
  }

  ghost predicate LawfulQueries(lib: Urls) {
    && (forall u, b {:trigger lib.plain(u.(query := b.query))} ::
          lib.plain(u) && lib.plain(b) ==> lib.plain(u.(query := b.query)))
    && (forall u, r {:trigger lib.plain(u.(query := lib.setRef(u.query, r)))} ::
          lib.plain(u) ==> lib.plain(u.(query := lib.setRef(u.query, r))))
    && (forall q, r :: lib.getRef(lib.setRef(q, r)) == r)
    && (forall q, r {:trigger lib.setRef(lib.setRef(q, r), r)} :: lib.setRef(lib.setRef(q, r), r) == lib.setRef(q, r))
  }

  datatype Outcome = Resolved(u: URL) | Failed | Panics

  /** What `validateModURL` accepts. */
  predicate Valid(u: URL) {
    if u.scheme == "github" then |SplitDots(u.host)| == 2
    else if u.scheme == "builtin" || u.scheme == "context" then u.host == ""
    else true
  }

  method ValidateModURL(u: URL) returns (ok: bool)
    ensures ok == Valid(u)
    ensures ok <==>
      && (u.scheme == "github" ==> exists repo, org :: '.' !in repo && '.' !in org && u.host == repo + "." + org)
      && (u.scheme in {"builtin", "context"} ==> u.host == "")
  {
    TwoParts(u.host);
    if u.scheme == "github" {
      var parts := SplitDots(u.host);
      if |parts| != 2 {
        return false;
      }
    } else if u.scheme == "builtin" {
      if u.host != "" {
        return false;
      }
    } else if u.scheme == "context" {
      if u.host != "" {
        return false;
      }
    }
    return true;
  }

  /** The host and query of a resolved github URL, completed from the base. */
  function Completed(lib: Urls, base: URL, u: URL): URL {
    if u.scheme != "github" then u
    else if base.scheme != "github" then u.(query := lib.setRef(u.query, ""))
    else
      var host := if |SplitDots(u.host)| == 1 then Joined(u.host, base.host) else u.host;
      var query := if lib.getRef(u.query) != "" then u.query
                   else lib.setRef(u.query, if host == base.host then lib.getRef(base.query) else "");
      u.(host := host, query := query)
  }

  /** `parseModURL`; it takes the organisation of a github base for granted. */
  function Resolve(lib: Urls, base: URL, name: string): Outcome {
    if base.scheme == "github" && |SplitDots(base.host)| == 1 then Panics
    else
      var r := lib.parse(base, name);
      if r.None? then Failed
      else
        var u := Completed(lib, base, r.value);
        if Valid(u) then Resolved(u) else Failed
  }

  method ParseModURL(lib: Urls, base: URL, name: string) returns (r: Outcome)
    ensures r == Resolve(lib, base, name)
  {
    var defaultRef := lib.getRef(base.query);
    var defaultOrg := "";
    if base.scheme == "github" {
      if |SplitDots(base.host)| == 1 {
        return Panics;
      }
      defaultOrg := Org(base.host);
    }
    var parsed := lib.parse(base, name);
    if parsed.None? {
      return Failed;
    }
    var u := parsed.value;
    if u.scheme == "github" {
      var qs := u.query;
      if u.scheme == base.scheme {
        if |SplitDots(u.host)| == 1 {
          u := u.(host := u.host + "." + defaultOrg);
        }
        if lib.getRef(qs) == "" {
          if u.host != base.host {
            qs := lib.setRef(qs, "");
          } else {
            qs := lib.setRef(qs, defaultRef);
          }
          u := u.(query := qs);
        }
      } else {
        qs := lib.setRef(qs, "");
        u := u.(query := qs);
      }
    }
    var ok := ValidateModURL(u);
    if !ok {
      return Failed;
    }
    return Resolved(u);
  }

  /* ---------- loading ---------- */

  /** `resolveModuleName`; the URL it goes on with is nil if the name does not parse. */
  function ModuleURL(lib: Urls, cwu: URL, name: string): Option<URL> {
    var r := lib.parse(cwu, name);
    if r.None? then None else Some(if r.value.query == "" then r.value.(query := cwu.query) else r.value)
  }

  predicate Supported(scheme: string) {
    scheme == "github" || scheme == "https" || scheme == "builtin" || scheme == "context"
  }

  /** What is fetched for a module: `doLoad` makes its URL the working URL and resolves its text against that. */
  function Fetch(lib: Urls, m: URL): Outcome {
    var r := Resolve(lib, m, lib.text(m));
    if r.Resolved? && !Supported(r.u.scheme) then Failed else r
  }

  /** `Load` in a module with working URL `cwu`. */
  function Load(lib: Urls, cwu: URL, name: string): Outcome {
    var m := ModuleURL(lib, cwu, name);
    if m.None? then Panics else Fetch(lib, m.value)
  }

  /** The URLs modules are loaded under. */
  ghost predicate Working(lib: Urls, u: URL) {
    lib.plain(u) && u.scheme != "" && lib.removeDots(u.path) == u.path
  }

  /* ---------- hosts ---------- */

  lemma {:induction false} SplitOrg(host: string)
    requires |SplitDots(host)| > 1
    ensures |SplitDots(Org(host))| == |SplitDots(host)| - 1
  {
    if host[0] != '.' { SplitOrg(host[1..]); }
  }

  lemma {:induction false} SplitJoined(a: string, b: string)
    ensures |SplitDots(a + "." + b)| == |SplitDots(a)| + |SplitDots(b)|
  {
    if a == "" {
      assert ("" + "." + b)[1..] == b;
    } else {
      assert (a + "." + b)[1..] == a[1..] + "." + b;
      SplitJoined(a[1..], b);
    }
  }

  lemma {:induction false} SplitNone(s: string)
    ensures |SplitDots(s)| == 1 <==> '.' !in s
  {
    if s != "" { SplitNone(s[1..]); }
  }

  lemma {:induction false} AtFirstDot(s: string) returns (a: string, b: string)
    requires '.' in s
    ensures s == a + "." + b && '.' !in a
  {
    if s[0] == '.' {
      a, b := "", s[1..];
    } else {
      var a';
      a', b := AtFirstDot(s[1..]);
      a := [s[0]] + a';
      assert s == [s[0]] + s[1..];
    }
  }

  /** A host of two parts is a repository and an organisation with one dot between. */
  lemma {:induction false} TwoParts(host: string)
    ensures |SplitDots(host)| == 2 <==> exists repo, org :: '.' !in repo && '.' !in org && host == repo + "." + org
  {
    SplitNone(host);
    if |SplitDots(host)| == 2 {
      var repo, org := AtFirstDot(host);
      SplitJoined(repo, org);
      SplitNone(repo);
      SplitNone(org);
    }
    forall repo, org | '.' !in repo && '.' !in org && host == repo + "." + org ensures |SplitDots(host)| == 2 {
      SplitJoined(repo, org);
      SplitNone(repo);
      SplitNone(org);
    }
  }

  /* ---------- properties of resolution ---------- */

  /** URLs that are not github ones resolve as they are parsed, unless a builtin or context one has a host. */
  lemma {:induction false} OthersResolve(lib: Urls, base: URL, name: string)
    requires base.scheme == "github" ==> '.' in base.host
    requires lib.parse(base, name).Some? && lib.parse(base, name).value.scheme != "github"
    ensures var u := lib.parse(base, name).value;
      Resolve(lib, base, name) == if u.scheme in {"builtin", "context"} && u.host != "" then Failed else Resolved(u)
  {
    SplitNone(base.host);
  }

  /** The host of `u` is completed with the organisation of `base`. */
  predicate Completes(base: URL, u: URL) {
    u.scheme == "github" && base.scheme == "github" && |SplitDots(u.host)| == 1
  }

  lemma JoinedHost(lib: Urls, base: URL, r: URL, query: string)
    requires Lawful(lib) && lib.plain(base) && Proper(lib, base, r) && r.scheme != ""
    requires lib.plain(r.(query := query))
    ensures var u := r.(host := Joined(r.host, base.host), query := query);
      if lib.readsHost(u.host) then Working(lib, u) else forall b :: lib.parse(b, lib.text(u)) == None
  {
    var v := r.(query := query);
    var u := v.(host := Joined(v.host, base.host));
    assert u == r.(host := Joined(r.host, base.host), query := query);
    if lib.readsHost(u.host) {
      assert lib.plain(u);
    } else {
      forall b ensures lib.parse(b, lib.text(u)) == None {
        assert lib.parse(b, lib.text(v.(host := Joined(v.host, base.host)))) == None;
      }
    }
  }

  /** A result is a working URL, unless its completed host is one that parsing rejects. */
  lemma ResolvedHost(lib: Urls, base: URL, name: string)
    requires Lawful(lib) && lib.plain(base) && base.scheme != "" && Resolve(lib, base, name).Resolved?
    ensures var u := Resolve(lib, base, name).u;
      if lib.readsHost(u.host) then Working(lib, u) else forall b :: lib.parse(b, lib.text(u)) == None
  {
    var r, u := lib.parse(base, name).value, Resolve(lib, base, name).u;
    assert Proper(lib, base, r);
    if r.scheme == "github" {
      assert lib.plain(r.(query := lib.setRef(r.query, lib.getRef(base.query))));
      assert lib.plain(r.(query := lib.setRef(r.query, "")));
      if Completes(base, r) {
        var same := r.(query := r.query);
        assert same == r;
        JoinedHost(lib, base, r, u.query);
      } else {
        assert u == r.(query := u.query);
      }
    }
  }

  /**
    A successful resolution is stable, in that the result resolves to itself, exactly if
    the host of the result can be read back; otherwise resolving the result fails.
   */
  lemma {:induction false} ResolutionIsStable(lib: Urls, base: URL, name: string)
    requires Lawful(lib) && lib.plain(base) && base.scheme != "" && Resolve(lib, base, name).Resolved?
    ensures var u := Resolve(lib, base, name).u;
      Resolve(lib, u, lib.text(u)) == if lib.readsHost(u.host) then Resolved(u) else Failed
  {
    var u := Resolve(lib, base, name).u;
    ResolvedHost(lib, base, name);
    if lib.readsHost(u.host) { assert lib.parse(u, lib.text(u)) == Some(u); }
  }

  /**
    In terms of what is given: it is stable exactly if no organisation had to be added, or
    the given host has no port and is not in brackets, or the organisation has a port itself;
    otherwise resolving the result fails.
   */
  lemma {:induction false} StableHosts(lib: Urls, base: URL, name: string)
    requires Lawful(lib) && lib.plain(base) && base.scheme != "" && Resolve(lib, base, name).Resolved?
    requires !Brackets(base.host)
    ensures var r, u := lib.parse(base, name), Resolve(lib, base, name).u;
      && r.Some?
      && Resolve(lib, u, lib.text(u)) == if Completes(base, r.value) && !Joinable(r.value.host, base.host) then Failed else Resolved(u)
  {
    var r, u := lib.parse(base, name).value, Resolve(lib, base, name).u;
    ResolutionIsStable(lib, base, name);
    assert Proper(lib, base, r);
    if Completes(base, r) {
      assert u.host == Joined(r.host, base.host);
    } else {
      assert u.host == r.host;
    }
  }

  /** A bare repository with a port or in brackets is accepted, and what it resolves to is not. */
  lemma {:induction false} UnstableHosts(lib: Urls, base: URL, name: string, r: URL)
    requires Lawful(lib) && lib.plain(base) && base.scheme == "github" && |SplitDots(base.host)| == 2 && !Brackets(base.host)
    requires lib.parse(base, name) == Some(r) && Completes(base, r) && !Joinable(r.host, base.host)
    ensures Resolve(lib, base, name).Resolved? && Resolve(lib, base, name).u.host == Joined(r.host, base.host)
    ensures var u := Resolve(lib, base, name).u; Resolve(lib, u, lib.text(u)) == Failed
  {
    SplitOrg(base.host);
    SplitJoined(r.host, Org(base.host));
    StableHosts(lib, base, name);
  }

  /** With `github://r.o/` as base, `github://repo:80/f` resolves to `github://repo:80.o/f`, which does not parse. */
  lemma {:induction false} PortsAreNotStable(lib: Urls, base: URL, name: string)
    requires Lawful(lib) && lib.plain(base) && base == URL("github", "r.o", "/", "")
    requires lib.parse(base, name) == Some(URL("github", "repo:80", "/f", ""))
    ensures Resolve(lib, base, name).Resolved? && Resolve(lib, base, name).u.host == "repo:80.o"
    ensures var u := Resolve(lib, base, name).u; Resolve(lib, u, lib.text(u)) == Failed
  {
    PortHosts();
    UnstableHosts(lib, base, name, URL("github", "repo:80", "/f", ""));
  }

  lemma PortHosts()
    ensures Joined("repo:80", "r.o") == "repo:80.o" && !Joinable("repo:80", "r.o") && !Brackets("r.o")
    ensures |SplitDots("r.o")| == 2 && |SplitDots("repo:80")| == 1
  {
    var host, port, repo, org, base := "repo:80", "repo:80.o", "r", "o", "r.o";
    OrgOf(repo, org);
    assert repo + "." + org == base && host + "." + org == port;
    NoDot(host);
    assert host[4] == ':';
    assert ':' !in org;
  }

  lemma OrgOf(repo: string, org: string)
    requires |repo| == 1 && '.' !in repo && '.' !in org
    ensures Org(repo + "." + org) == org && |SplitDots(repo + "." + org)| == 2
  {
    var host := repo + "." + org;
    assert host[1..] == "." + org && host[1..][1..] == org;
    NoDot(repo);
    NoDot(org);
    SplitJoined(repo, org);
  }

  lemma {:induction false} NoDot(s: string)
    requires '.' !in s
    ensures |SplitDots(s)| == 1
  {
    if s != "" {
      NoDot(s[1..]);
    }
  }

  /** A github URL names a repository and an organisation, and nothing more. */
  lemma {:induction false} GithubHosts(lib: Urls, base: URL, name: string)
    requires Resolve(lib, base, name).Resolved? && Resolve(lib, base, name).u.scheme == "github"
    ensures var u := Resolve(lib, base, name).u;
      && |SplitDots(u.host)| == 2
      && lib.parse(base, name).Some?
      && var r := lib.parse(base, name).value;
        u.host == (if base.scheme == "github" && |SplitDots(r.host)| == 1 then Joined(r.host, base.host) else r.host)
  {
  }

  /**
    The ref of a github URL: from a github base the one that is given, or else that of the
    base if the host is the same; from any other base none, not even one that is given.
   */
  lemma {:induction false} RefIs(lib: Urls, base: URL, name: string)
    requires Lawful(lib) && Resolve(lib, base, name).Resolved? && Resolve(lib, base, name).u.scheme == "github"
    ensures var u := Resolve(lib, base, name).u;
      && lib.parse(base, name).Some?
      && var given := lib.getRef(lib.parse(base, name).value.query);
        lib.getRef(u.query) ==
          if base.scheme != "github" then ""
          else if given != "" then given
          else if u.host == base.host then lib.getRef(base.query)
          else ""
  {
  }

  /** Resolution panics exactly for a github base whose host has no dot, whatever the name. */
  lemma ResolutionPanics(lib: Urls, base: URL, name: string)
    ensures Resolve(lib, base, name).Panics? <==> base.scheme == "github" && |SplitDots(base.host)| == 1
  {
  }

  /* ---------- properties of loading ---------- */

  lemma ModuleURLWorks(lib: Urls, cwu: URL, name: string)
    requires Lawful(lib) && lib.plain(cwu) && cwu.scheme != "" && ModuleURL(lib, cwu, name).Some?
    ensures Working(lib, ModuleURL(lib, cwu, name).value)
  {
    var r := lib.parse(cwu, name).value;
    assert Proper(lib, cwu, r);
    assert lib.plain(r.(query := cwu.query));
  }

  /** What is fetched for a module is its own URL with, for github, an explicit ref; it fails or panics for what this cannot be. */
  lemma {:induction false} FetchIs(lib: Urls, m: URL)
    requires Lawful(lib) && Working(lib, m)
    ensures Fetch(lib, m) ==
      if m.scheme == "github" && |SplitDots(m.host)| == 1 then Panics
      else if m.scheme == "github" && |SplitDots(m.host)| != 2 then Failed
      else if m.scheme in {"builtin", "context"} && m.host != "" then Failed
      else if m.scheme !in {"github", "https", "builtin", "context"} then Failed
      else Resolved(if m.scheme == "github" && lib.getRef(m.query) == "" then m.(query := lib.setRef(m.query, "")) else m)
  {
    assert lib.parse(m, lib.text(m)) == Some(m);
  }

  /** The cache key decides what is fetched: modules with the same key, loaded from anywhere, are the same. */
  lemma {:induction false} KeyDecides(lib: Urls, cwu: URL, name: string, cwu': URL, name': string)
    requires Lawful(lib)
    requires lib.plain(cwu) && cwu.scheme != "" && ModuleURL(lib, cwu, name).Some?
    requires lib.plain(cwu') && cwu'.scheme != "" && ModuleURL(lib, cwu', name').Some?
    requires lib.text(ModuleURL(lib, cwu, name).value) == lib.text(ModuleURL(lib, cwu', name').value)
    ensures ModuleURL(lib, cwu, name) == ModuleURL(lib, cwu', name')
    ensures Load(lib, cwu, name) == Load(lib, cwu', name')
  {
    var m, m' := ModuleURL(lib, cwu, name).value, ModuleURL(lib, cwu', name').value;
    ModuleURLWorks(lib, cwu, name);
    ModuleURLWorks(lib, cwu', name');
    assert lib.parse(m, lib.text(m)) == Some(m);
    assert lib.parse(m, lib.text(m')) == Some(m');
  }

  /** A load panics exactly if its name does not parse or names a github host without a dot. */
  lemma {:induction false} LoadPanics(lib: Urls, cwu: URL, name: string)
    requires Lawful(lib) && lib.plain(cwu) && cwu.scheme != ""
    ensures Load(lib, cwu, name).Panics? <==>
      var r := lib.parse(cwu, name);
      r.None? || (r.value.scheme == "github" && |SplitDots(r.value.host)| == 1)
  {
    if ModuleURL(lib, cwu, name).Some? {
      ModuleURLWorks(lib, cwu, name);
      FetchIs(lib, ModuleURL(lib, cwu, name).value);
    }
  }

  /* ---------- chains of loads ---------- */

  /** The module reached by loading `names` one from within the other, if every one of them is fetched. */
  function Chain(lib: Urls, cwu: URL, names: seq<string>): Option<URL> {
    if names == [] then Some(cwu)
    else
      var before := Chain(lib, cwu, names[..|names| - 1]);
      if before.None? then None
      else
        var m := ModuleURL(lib, before.value, names[|names| - 1]);
        if m.Some? && Fetch(lib, m.value).Resolved? then m else None
  }

  /** Where `LoadWorkflow` starts: a URL that is not a github one, without a query. */
  ghost predicate Root(lib: Urls, cwu: URL) {
    Working(lib, cwu) && cwu.scheme != "github" && cwu.query == ""
  }

  lemma ChainStep(lib: Urls, cwu: URL, names: seq<string>)
    requires names != [] && Chain(lib, cwu, names).Some?
    ensures var before := Chain(lib, cwu, names[..|names| - 1]);
      && before.Some?
      && ModuleURL(lib, before.value, names[|names| - 1]) == Chain(lib, cwu, names)
      && Fetch(lib, Chain(lib, cwu, names).value).Resolved?
  {
  }

  /**
    However deep the loads are nested, a module is loaded under a working URL, that of a
    github module names a repository and an organisation, so that no `loadFile` in it
    panics, and a load in it only for a name that itself is no URL or has such a host.
   */
  lemma {:induction false} ChainsAreSound(lib: Urls, cwu: URL, names: seq<string>, name: string)
    requires Lawful(lib) && Root(lib, cwu) && Chain(lib, cwu, names).Some?
    ensures var m := Chain(lib, cwu, names).value;
      && Working(lib, m)
      && (m.scheme == "github" ==> |SplitDots(m.host)| == 2)
      && !Resolve(lib, m, name).Panics?
      && (Load(lib, m, name).Panics? <==>
            lib.parse(m, name).None?
            || (lib.parse(m, name).value.scheme == "github" && |SplitDots(lib.parse(m, name).value.host)| == 1))
  {
    var m := Chain(lib, cwu, names).value;
    ChainWorks(lib, cwu, names);
    if names != [] {
      ChainStep(lib, cwu, names);
      FetchIs(lib, m);
    }
    LoadPanics(lib, m, name);
  }

  lemma {:induction false} ChainWorks(lib: Urls, cwu: URL, names: seq<string>)
    requires Lawful(lib) && Working(lib, cwu) && Chain(lib, cwu, names).Some?
    ensures Working(lib, Chain(lib, cwu, names).value)
  {
    if names != [] {
      ChainStep(lib, cwu, names);
      ChainWorks(lib, cwu, names[..|names| - 1]);
      ModuleURLWorks(lib, Chain(lib, cwu, names[..|names| - 1]).value, names[|names| - 1]);
    }
  }

  /** The query of the `i`-th load of a chain, as resolved before anything is copied into it. */
  function Given(lib: Urls, cwu: URL, names: seq<string>, i: nat): string
    requires i < |names|
  {
    var before := Chain(lib, cwu, names[..i]);
    if before.None? then ""
    else
      var r := lib.parse(before.value, names[i]);
      if r.None? then "" else r.value.query
  }

  /** Load `last` is the last one of the chain that had a query, if any had one. */
  ghost predicate LastGiven(lib: Urls, cwu: URL, names: seq<string>, last: Option<nat>) {
    && (last.Some? ==> last.value < |names| && Given(lib, cwu, names, last.value) != "")
    && (forall i :: 0 <= i < |names| && (last.Some? ==> i > last.value) ==> Given(lib, cwu, names, i) == "")
  }

  function QueryOf(lib: Urls, cwu: URL, names: seq<string>, last: Option<nat>): string
    requires last.Some? ==> last.value < |names|
  {
    if last.Some? then Given(lib, cwu, names, last.value) else ""
  }

  /**
    A module is fetched with the ref given by the last load of its chain that had a query,
    across whatever hosts lie in between, and with none if no load had one.
   */
  lemma {:induction false} RefOfChain(lib: Urls, cwu: URL, names: seq<string>) returns (last: Option<nat>)
    requires Lawful(lib) && Root(lib, cwu) && names != [] && Chain(lib, cwu, names).Some?
    ensures LastGiven(lib, cwu, names, last)
    ensures var m := Chain(lib, cwu, names).value;
      && m.query == QueryOf(lib, cwu, names, last)
      && Fetch(lib, m).Resolved? && lib.getRef(Fetch(lib, m).u.query) == lib.getRef(m.query)
  {
    var m := Chain(lib, cwu, names).value;
    ChainStep(lib, cwu, names);
    ChainWorks(lib, cwu, names);
    FetchIs(lib, m);
    assert lib.getRef(lib.setRef(m.query, "")) == "";
    last := LastQuery(lib, cwu, names);
  }

  lemma QueryStep(lib: Urls, cwu: URL, names: seq<string>)
    requires names != [] && Chain(lib, cwu, names).Some?
    ensures var before, given := Chain(lib, cwu, names[..|names| - 1]), Given(lib, cwu, names, |names| - 1);
      before.Some? && Chain(lib, cwu, names).value.query == if given != "" then given else before.value.query
  {
    ChainStep(lib, cwu, names);
  }

  lemma GivenBefore(lib: Urls, cwu: URL, names: seq<string>, i: nat)
    requires i < |names| - 1
    ensures Given(lib, cwu, names[..|names| - 1], i) == Given(lib, cwu, names, i)
  {
    assert names[..|names| - 1][..i] == names[..i];
  }

  lemma {:induction false} LastQuery(lib: Urls, cwu: URL, names: seq<string>) returns (last: Option<nat>)
    requires cwu.query == "" && Chain(lib, cwu, names).Some?
    ensures LastGiven(lib, cwu, names, last)
    ensures Chain(lib, cwu, names).value.query == QueryOf(lib, cwu, names, last)
  {
    if names == [] {
      last := None;
    } else {
      var n := |names| - 1;
      QueryStep(lib, cwu, names);
      last := LastQuery(lib, cwu, names[..n]);
      forall i | 0 <= i < n { GivenBefore(lib, cwu, names, i); }
      if Given(lib, cwu, names, n) != "" { last := Some(n); }
    }
  }

  /** Inside an organisation's repository `loadFile` completes a bare repository name to a valid host. */
  lemma {:induction false} BareNamesResolve(lib: Urls, m: URL, name: string)
    requires Lawful(lib) && Working(lib, m) && Fetch(lib, m).Resolved? && m.scheme == "github"
    requires lib.parse(m, name).Some? && lib.parse(m, name).value.scheme == "github"
    requires |SplitDots(lib.parse(m, name).value.host)| == 1
    ensures Resolve(lib, m, name).Resolved?
    ensures Resolve(lib, m, name).u.host == lib.parse(m, name).value.host + "." + Org(m.host)
  {
    FetchIs(lib, m);
    SplitOrg(m.host);
    SplitJoined(lib.parse(m, name).value.host, Org(m.host));
  }
}
