/** The route guard: the redirect it issues for the current session and path. */
module Guard {
  import opened Common
  import opened Types
  import opened Text
  import opened Routes

  const PublicRoutes: seq<string> := ["/login", "/unauthorized", "/403", "/404"]

  /** `matchPublicRoute(path, patterns)`. A pattern with a `*` is turned into a
      regular expression; that test is the parameter `wildcard`. */
  function MatchPublicRoute(path: string, patterns: seq<string>, wildcard: (string, string) -> bool): bool
  {
    if patterns == [] then false
    else
      (if Contains(patterns[0], "*") then wildcard(patterns[0], path) else path == patterns[0])
      || MatchPublicRoute(path, patterns[1..], wildcard)
  }

  /** With patterns free of `*`, a path is public exactly when it is one of them. */
  lemma {:induction false} MatchPlainPatterns(path: string, patterns: seq<string>, wildcard: (string, string) -> bool)
    requires forall i :: 0 <= i < |patterns| ==> !Contains(patterns[i], "*")
    ensures MatchPublicRoute(path, patterns, wildcard) <==> path in patterns
  {
    if patterns != [] {
      MatchPlainPatterns(path, patterns[1..], wildcard);
      assert patterns == [patterns[0]] + patterns[1..];
    }
  }

  /** The public paths are exactly the four listed, whatever the regular
      expression engine does, since none of them has a wildcard. */
  lemma PublicPaths(path: string, wildcard: (string, string) -> bool)
    ensures MatchPublicRoute(path, PublicRoutes, wildcard) <==> path in PublicRoutes
  {
    forall i | 0 <= i < |PublicRoutes|
      ensures !Contains(PublicRoutes[i], "*")
    {
      NoStar(PublicRoutes[i]);
    }
    MatchPlainPatterns(path, PublicRoutes, wildcard);
  }

  /** A string made of slashes, letters and digits contains no `*`. */
  lemma {:induction false} NoStar(s: string)
    requires forall i :: 0 <= i < |s| ==> s[i] != '*'
    ensures !Contains(s, "*")
  {
    if s != [] {
      assert s[0] != "*"[0];
      NoStar(s[1..]);
    }
  }

  /** What the authentication context provides. */
  datatype Session = Session(loading: bool, signedIn: bool, profile: Option<Profile>)

  /** A `navigate(to, { state: { from }, replace: true })` call. */
  datatype Redirect = Redirect(to: string, from: Option<string>)

  /** The effect of the guard for a session on a path: no redirect while the
      session loads; a signed-out visitor of a private path goes to the login
      page, remembering where it came from; a signed-in user on the login page
      goes home; a user whose profile is loaded and whose role the route does not
      allow goes to the unauthorized page; otherwise the page stays. */
  function Decide(s: Session, path: string, wildcard: (string, string) -> bool): (r: Option<Redirect>)
    ensures s.loading ==> r.None?
    ensures r.Some? ==> r.value.to in ["/login", "/", "/unauthorized"]
    ensures r.Some? && r.value.from.Some? ==> r.value.to == "/login" && r.value.from.value == path
  {
    var isPublic := MatchPublicRoute(path, PublicRoutes, wildcard);
    if s.loading then None
    else if !s.signedIn && !isPublic then Some(Redirect("/login", Some(path)))
    else if s.signedIn && path == "/login" then Some(Redirect("/", None))
    else if s.profile.Some? && !isPublic && FindRoute(path).Some? && !Allows(FindRoute(path).value, s.profile.value.role)
    then Some(Redirect("/unauthorized", None))
    else None
  }

  /** A signed-out visitor reaches the public pages and is sent to the login page,
      with its path remembered, from every other one. */
  lemma SignedOut(s: Session, path: string, wildcard: (string, string) -> bool)
    requires !s.loading && !s.signedIn
    ensures path in PublicRoutes ==> Decide(s, path, wildcard) == None
    ensures path !in PublicRoutes ==> Decide(s, path, wildcard) == Some(Redirect("/login", Some(path)))
  {
    PublicPaths(path, wildcard);
  }

  /** A signed-in user with a loaded profile is sent home from the login page,
      kept out of exactly the routes the policy denies its role, and left alone
      on public pages and on paths no route declares. */
  lemma SignedIn(s: Session, path: string, wildcard: (string, string) -> bool)
    requires !s.loading && s.signedIn && s.profile.Some?
    ensures path == "/login" ==> Decide(s, path, wildcard) == Some(Redirect("/", None))
    ensures path != "/login" && path in PublicRoutes ==> Decide(s, path, wildcard) == None
    ensures path !in PublicRoutes && FindRoute(path).Some? ==>
      (Decide(s, path, wildcard) == None <==> MayOpen(s.profile.value.role, path))
    ensures path !in PublicRoutes && FindRoute(path).Some? && !MayOpen(s.profile.value.role, path) ==>
      Decide(s, path, wildcard) == Some(Redirect("/unauthorized", None))
    ensures FindRoute(path).None? ==> Decide(s, path, wildcard) == None
  {
    PublicPaths(path, wildcard);
    if FindRoute(path).Some? {
      TableMatchesPolicy(s.profile.value.role, path);
    }
  }

  /** Before the profile has loaded a signed-in user is only ever moved off the
      login page: no role check applies yet. */
  lemma ProfileNotLoaded(s: Session, path: string, wildcard: (string, string) -> bool)
    requires !s.loading && s.signedIn && s.profile.None?
    ensures Decide(s, path, wildcard) == if path == "/login" then Some(Redirect("/", None)) else None
  {
  }

  /** An admin is never sent to the unauthorized page. */
  lemma AdminNeverUnauthorized(s: Session, path: string, wildcard: (string, string) -> bool)
    requires s.profile.Some? && s.profile.value.role == Admin
    ensures Decide(s, path, wildcard) != Some(Redirect("/unauthorized", None))
  {
    if FindRoute(path).Some? {
      TableMatchesPolicy(Admin, path);
    }
  }

  /** Redirects do not chain: the page a redirect leads to is let through for the
      same session. */
  lemma RedirectSettles(s: Session, path: string, wildcard: (string, string) -> bool)
    requires Decide(s, path, wildcard).Some?
    ensures Decide(s, Decide(s, path, wildcard).value.to, wildcard) == None
  {
    var target := Decide(s, path, wildcard).value.to;
    PublicPaths(target, wildcard);
    if target == "/" && s.profile.Some? && FindRoute(target).Some? {
      HomeForEveryone(s.profile.value.role, FindRoute(target).value);
    }
  }

  /** The point of sale is a private route every role may open. */
  lemma HomeForEveryone(role: Role, route: RouteConfig)
    requires route in RouteTable && route.path == "/"
    ensures "/" !in PublicRoutes && Allows(route, role)
  {
    var i :| 0 <= i < |RouteTable| && RouteTable[i] == route;
    HomeEntry();
    PathsDistinct();
    assert i == 2;
    EntryShape(i);
    assert role == Everyone[0] || role == Everyone[1] || role == Everyone[2];
  }

  lemma HomeEntry()
    ensures RouteTable[2].path == "/"
  {
  }
}
