/**
 * The route guard that runs before every page: which paths it sees at all
 * (`config.matcher`), and for those, whether the request goes on or is
 * redirected, given the user the session cookie resolves to.
 */
module Middleware {
  import opened Wrappers
  import opened JsText
  import opened Types
  import Auth

  datatype Decision = Next | Redirect(target: JsString)

  const LoginPath := Str("/login")
  const RegisterPath := Str("/register")
  const DashboardPath := Str("/dashboard")

  const PublicRoutes: seq<JsString> := [LoginPath, RegisterPath]
  const DeveloperRoutes: seq<JsString> := [Str("/dashboard/developer")]

  /** `publicRoutes.includes(pathname)`: exact equality. */
  function IsPublicRoute(pathname: JsString): (r: bool)
    ensures r <==> pathname == LoginPath || pathname == RegisterPath
  {
    pathname in PublicRoutes
  }

  /** `developerRoutes.some(route => pathname.startsWith(route))`: prefix match. */
  function IsDeveloperRoute(pathname: JsString): (r: bool)
    ensures r <==> StartsWith(pathname, Str("/dashboard/developer"))
  {
    assert |DeveloperRoutes| == 1 && DeveloperRoutes[0] == Str("/dashboard/developer");
    exists i :: 0 <= i < |DeveloperRoutes| && StartsWith(pathname, DeveloperRoutes[i])
  }

  /**
   * The redirect logic of `middleware`, rules tried in order: no user off
   * a public route goes to `/login`; a user on a public route goes to
   * `/dashboard`; a developer route without a developer user goes to
   * `/dashboard`; anything else goes on.
   */
  function Decide(pathname: JsString, user: Option<User>): (d: Decision)
    ensures d == Next <==>
      || (user.None? && IsPublicRoute(pathname))
      || (user.Some? && !IsPublicRoute(pathname) && (!IsDeveloperRoute(pathname) || IsDeveloper(user.value)))
    ensures d.Redirect? ==> d.target == LoginPath || d.target == DashboardPath
    ensures d == Redirect(LoginPath) <==> user.None? && !IsPublicRoute(pathname)
  {
    var isPublicRoute := IsPublicRoute(pathname);
    var isDeveloperRoute := IsDeveloperRoute(pathname);
    if user.None? && !isPublicRoute then Redirect(LoginPath)
    else if user.Some? && isPublicRoute then Redirect(DashboardPath)
    else if isDeveloperRoute && (user.None? || !IsDeveloper(user.value)) then Redirect(DashboardPath)
    else Next
  }

  /** No developer route is a public route. */
  lemma DeveloperRoutesAreNotPublic(pathname: JsString)
    requires IsDeveloperRoute(pathname)
    ensures !IsPublicRoute(pathname)
  {
    assert |DeveloperRoutes[0]| == 20;
  }

  /** With no user, the only outcomes are `/login` off the public routes and going on along them. */
  lemma NoUserOutcomes(pathname: JsString)
    ensures Decide(pathname, None) == if IsPublicRoute(pathname) then Next else Redirect(LoginPath)
  {
    if IsPublicRoute(pathname) && IsDeveloperRoute(pathname) {
      DeveloperRoutesAreNotPublic(pathname);
    }
  }

  /** A signed-in user asking for `/login` or `/register` is sent to `/dashboard`. */
  lemma SignedInUserLeavesPublicRoutes(pathname: JsString, u: User)
    requires IsPublicRoute(pathname)
    ensures Decide(pathname, Some(u)) == Redirect(DashboardPath)
  {}

  /** A signed-in user who is not a developer is sent to `/dashboard`, not to `/login`, from a developer route. */
  lemma NonDeveloperDowngraded(pathname: JsString, u: User)
    requires IsDeveloperRoute(pathname) && !IsDeveloper(u)
    ensures Decide(pathname, Some(u)) == Redirect(DashboardPath)
  {
    DeveloperRoutesAreNotPublic(pathname);
  }

  /** A developer goes on along every route that is not public. */
  lemma DeveloperGoesOn(pathname: JsString, u: User)
    requires IsDeveloper(u) && !IsPublicRoute(pathname)
    ensures Decide(pathname, Some(u)) == Next
  {}

  /** Any signed-in user goes on along a route that is neither public nor for developers. */
  lemma SignedInUserGoesOn(pathname: JsString, u: User)
    requires !IsPublicRoute(pathname) && !IsDeveloperRoute(pathname)
    ensures Decide(pathname, Some(u)) == Next
  {}

  /** Public routes match exactly: a trailing slash or a sub-path is not public. */
  lemma PublicRoutesAreExact()
    ensures IsPublicRoute(Str("/login")) && IsPublicRoute(Str("/register"))
    ensures !IsPublicRoute(Str("/login/")) && !IsPublicRoute(Str("/login/x")) && !IsPublicRoute(Str("/register/"))
  {}

  /** Developer routes match by prefix, so anything that extends one is one too. */
  lemma {:induction false} DeveloperRoutesArePrefixes(pathname: JsString, suffix: JsString)
    requires IsDeveloperRoute(pathname)
    ensures IsDeveloperRoute(pathname + suffix)
  {
    var i :| 0 <= i < |DeveloperRoutes| && StartsWith(pathname, DeveloperRoutes[i]);
    assert (pathname + suffix)[..|DeveloperRoutes[i]|] == pathname[..|DeveloperRoutes[i]|];
  }

  /** `/dashboard/developer`, `/dashboard/developer/x` and `/dashboard/developerX` are developer routes; `/dashboard` is not. */
  lemma DeveloperRouteExamples()
    ensures IsDeveloperRoute(Str("/dashboard/developer"))
    ensures IsDeveloperRoute(Str("/dashboard/developer/x"))
    ensures IsDeveloperRoute(Str("/dashboard/developerX"))
    ensures !IsDeveloperRoute(Str("/dashboard")) && !IsDeveloperRoute(Str("/dashboard/develop"))
  {
    assert StartsWith(Str("/dashboard/developer"), DeveloperRoutes[0]);
    assert StartsWith(Str("/dashboard/developer/x"), DeveloperRoutes[0]);
    assert StartsWith(Str("/dashboard/developerX"), DeveloperRoutes[0]);
  }

  // ---- `config.matcher`: "/((?!api|_next/static|_next/image|favicon.ico|.*\.(?:svg|png|jpg|jpeg|gif|webp)$).*)"

  /** The units a regular-expression `.` does not match. */
  const LineTerminators: set<CodeUnit> := {0x0A, 0x0D, 0x2028, 0x2029}

  const Slash: CodeUnit := 0x2F
  const Dot: CodeUnit := 0x2E

  const ExcludedPrefixes: seq<JsString> := [Str("api"), Str("_next/static"), Str("_next/image")]
  const ImageExtensions: seq<JsString> := [Str("svg"), Str("png"), Str("jpg"), Str("jpeg"), Str("gif"), Str("webp")]

  predicate NoLineTerminator(s: JsString) {
    forall i :: 0 <= i < |s| ==> s[i] !in LineTerminators
  }

  /** `favicon.ico` as a pattern: the `.` in it is unescaped and stands for any unit but a line terminator. */
  predicate StartsLikeFavicon(rest: JsString) {
    |rest| >= 11 && rest[..7] == Str("favicon") && rest[7] !in LineTerminators && rest[8..11] == Str("ico")
  }

  /** `.*\.(?:svg|png|jpg|jpeg|gif|webp)$`: the text ends in one of the image extensions after a dot. */
  predicate EndsInImageExtension(rest: JsString) {
    exists i :: 0 <= i < |ImageExtensions| && EndsWith(rest, [Dot] + ImageExtensions[i])
                && NoLineTerminator(rest[..|rest| - |ImageExtensions[i]| - 1])
  }

  /** The negative lookahead: what the text after the leading `/` may not start with. */
  predicate ExcludedByLookahead(rest: JsString) {
    || (exists i :: 0 <= i < |ExcludedPrefixes| && StartsWith(rest, ExcludedPrefixes[i]))
    || StartsLikeFavicon(rest)
    || EndsInImageExtension(rest)
  }

  /**
   * After a leading `/`, the text ends in `.ext` exactly when the whole path
   * does: the suffix starts with a dot, so it cannot reach back to the slash.
   */
  lemma ImageSuffixOfRest(pathname: JsString)
    requires |pathname| >= 1 && pathname[0] == Slash
    ensures forall i :: 0 <= i < |ImageExtensions| ==>
      (EndsWith(pathname[1..], [Dot] + ImageExtensions[i]) <==> EndsWith(pathname, [Dot] + ImageExtensions[i]))
  {
    var rest := pathname[1..];
    forall i | 0 <= i < |ImageExtensions|
      ensures EndsWith(rest, [Dot] + ImageExtensions[i]) <==> EndsWith(pathname, [Dot] + ImageExtensions[i])
    {
      var suf := [Dot] + ImageExtensions[i];
      if |suf| <= |rest| {
        assert pathname[|pathname| - |suf|..] == rest[|rest| - |suf|..];
      } else if |suf| == |pathname| {
        assert pathname[|pathname| - |suf|..][0] == Slash != suf[0];
      }
    }
  }

  /**
   * The whole matcher, anchored at both ends: a leading `/`, the lookahead,
   * then `.*` to the end. A path is matched exactly when it starts with `/`,
   * holds no line terminator, and the text after the slash neither starts
   * with an excluded prefix nor looks like `favicon.ico`, and the path does
   * not end in a dot and an image extension.
   */
  function IsGuardedPath(pathname: JsString): (r: bool)
    ensures r <==>
      && |pathname| >= 1 && pathname[0] == Slash && NoLineTerminator(pathname)
      && (forall i :: 0 <= i < |ExcludedPrefixes| ==> !StartsWith(pathname[1..], ExcludedPrefixes[i]))
      && !StartsLikeFavicon(pathname[1..])
      && (forall i :: 0 <= i < |ImageExtensions| ==> !EndsWith(pathname, [Dot] + ImageExtensions[i]))
  {
    if |pathname| >= 1 && pathname[0] == Slash then
      ImageSuffixOfRest(pathname);
      assert NoLineTerminator(pathname) <==> NoLineTerminator(pathname[1..]) by {
        assert forall i :: 1 <= i < |pathname| ==> pathname[i] == pathname[1..][i - 1];
      }
      && !ExcludedByLookahead(pathname[1..])
      && NoLineTerminator(pathname[1..])
    else false
  }

  /**
   * Text after the `/` that starts with none of `a`, `_`, `f` and ends in
   * none of `g`, `f`, `p` (the last letters of the image extensions) passes
   * the lookahead.
   */
  lemma PassesLookahead(rest: JsString)
    requires |rest| >= 1 ==> rest[0] !in {0x61, 0x5F, 0x66}
    requires |rest| >= 1 ==> rest[|rest| - 1] !in {0x67, 0x66, 0x70}
    ensures !ExcludedByLookahead(rest)
  {
    assert ExcludedPrefixes[0][0] == 0x61 && ExcludedPrefixes[1][0] == 0x5F && ExcludedPrefixes[2][0] == 0x5F;
    assert forall i :: 0 <= i < |ImageExtensions| ==> ImageExtensions[i][|ImageExtensions[i]| - 1] in {0x67, 0x66, 0x70};
  }

  /** A path whose text after the `/` starts and ends as `PassesLookahead` asks, and holds no line terminator, is matched. */
  lemma GuardedByEnds(pathname: JsString)
    requires |pathname| >= 2 && pathname[0] == Slash
    requires pathname[1] !in {0x61, 0x5F, 0x66} && pathname[|pathname| - 1] !in {0x67, 0x66, 0x70}
    requires NoLineTerminator(pathname[1..])
    ensures IsGuardedPath(pathname)
  {
    PassesLookahead(pathname[1..]);
  }

  /** The root and the application's pages are guarded. */
  lemma PagesAreGuarded()
    ensures IsGuardedPath(Str("/"))
    ensures IsGuardedPath(Str("/login"))
    ensures IsGuardedPath(Str("/dashboard"))
  {
    assert IsGuardedPath(Str("/")) by { PassesLookahead(Str("/")[1..]); }
    assert IsGuardedPath(Str("/login")) by { GuardedByEnds(Str("/login")); }
    assert IsGuardedPath(Str("/dashboard")) by { GuardedByEnds(Str("/dashboard")); }
  }

  /** The developer dashboard is guarded as well, so its role check runs. */
  lemma DeveloperPageIsGuarded()
    ensures IsGuardedPath(Str("/dashboard/developer"))
  {
    GuardedByEnds(Str("/dashboard/developer"));
  }

  /** Anything whose text after the `/` starts with `api` bypasses the guard, `/apiary` included. */
  lemma ApiPrefixBypasses(rest: JsString)
    ensures !IsGuardedPath([Slash] + Str("api") + rest)
  {
    var p := [Slash] + Str("api") + rest;
    assert StartsWith(p[1..], ExcludedPrefixes[0]) by {
      assert p[1..][..3] == Str("api");
    }
  }

  /** A path ending in `.png` (or any of the other image extensions) bypasses the guard. */
  lemma ImageFilesBypass(stem: JsString)
    ensures !IsGuardedPath(stem + [Dot] + Str("png"))
  {
    var p := stem + [Dot] + Str("png");
    if |p| >= 1 && p[0] == Slash && NoLineTerminator(p[1..]) {
      var rest := p[1..];
      assert EndsWith(rest, [Dot] + ImageExtensions[1]) by {
        assert rest[|rest| - 4..] == [Dot] + Str("png");
      }
      assert rest[..|rest| - 4] == p[1..|p| - 4];
    }
  }

  /** The unescaped dot in `favicon.ico` lets any unit stand between `favicon` and `ico`, as in `/faviconXico`. */
  lemma FaviconDotMatchesAnyUnit(u: CodeUnit, rest: JsString)
    requires u !in LineTerminators
    ensures !IsGuardedPath([Slash] + Str("favicon") + [u] + Str("ico") + rest)
  {
    var favicon, ico := Str("favicon"), Str("ico");
    var text := favicon + [u] + ico + rest;
    assert ([Slash] + favicon + [u] + ico + rest)[1..] == text;
    assert text[..7] == favicon;
    assert text[7] == u;
    assert text[8..11] == ico;
    assert StartsLikeFavicon(text);
  }

  /**
   * The whole middleware on one request: paths outside the matcher go on
   * untouched; the others are decided for the user the cookie resolves to.
   */
  function HandleRequest(pathname: JsString, jar: map<JsString, Auth.Cookie>, b: Auth.Backend): (d: Decision)
    ensures !IsGuardedPath(pathname) ==> d == Next
    ensures IsGuardedPath(pathname) ==> d == Decide(pathname, Auth.GetLoggedInUser(jar, b))
  {
    if IsGuardedPath(pathname) then Decide(pathname, Auth.GetLoggedInUser(jar, b)) else Next
  }

  /** A request without a session cookie to a guarded, non-public path is sent to `/login`. */
  lemma NoCookieGoesToLogin(pathname: JsString, jar: map<JsString, Auth.Cookie>, b: Auth.Backend)
    requires IsGuardedPath(pathname) && !IsPublicRoute(pathname)
    requires Auth.SessionCookieName !in jar
    ensures HandleRequest(pathname, jar, b) == Redirect(LoginPath)
  {}

  /** A request for `/dashboard` without a session cookie is sent to `/login`. */
  lemma DashboardWithoutCookie(jar: map<JsString, Auth.Cookie>, b: Auth.Backend)
    requires Auth.SessionCookieName !in jar
    ensures HandleRequest(DashboardPath, jar, b) == Redirect(LoginPath)
  {
    PagesAreGuarded();
    NoCookieGoesToLogin(DashboardPath, jar, b);
  }

  /** A signed-in user who is not a developer asking for `/dashboard/developer` is sent to `/dashboard`. */
  lemma NonDeveloperAtDeveloperDashboard(u: User)
    requires !IsDeveloper(u)
    ensures Decide(Str("/dashboard/developer"), Some(u)) == Redirect(DashboardPath)
  {
    DeveloperRouteExamples();
    NonDeveloperDowngraded(Str("/dashboard/developer"), u);
  }
}
