/**
 * Server-side session handling: resolving the `session` cookie to a user
 * and a developer role, and writing or removing that cookie when a session
 * is created or deleted. Every call to the identity service is an oracle
 * in `Backend`, answering with a value or with the error it throws.
 */
module Auth {
  import opened Wrappers
  import opened JsText
  import opened Types

  /** `{ userId }` of one team membership; no other key is read. */
  datatype Membership = Membership(userId: JsString)

  /** The session the identity service issues: its secret and its expiry date as text. */
  datatype Session = Session(secret: JsString, expire: JsString)

  datatype SameSite = Strict | Lax | NoRestriction

  datatype CookieOptions = CookieOptions(httpOnly: bool, secure: bool, sameSite: SameSite,
                                         expires: Option<JsString>, path: Option<JsString>)

  datatype Cookie = Cookie(value: JsString, options: CookieOptions)

  /**
   * The identity service. `accountGet` and `listMemberships` run on a
   * client bound to a session secret; `deleteCurrentSession` deletes the
   * session of that secret; `createEmailPasswordSession` runs on the
   * privileged client.
   */
  datatype Backend = Backend(
    accountGet: JsString -> Result<Account>,
    listMemberships: (JsString, JsString) -> Result<seq<Membership>>,
    createEmailPasswordSession: (JsString, JsString) -> Result<Session>,
    deleteCurrentSession: JsString -> Outcome)

  const SessionCookieName := Str("session")

  /** The team whose members are developers, as configured by default. */
  const DevelopersTeamId := Str("developers-team")

  /** `cookieStore.get("session")?.value` */
  function SessionSecret(jar: map<JsString, Cookie>): (r: Option<JsString>)
    ensures r.Some? <==> SessionCookieName in jar
    ensures SessionCookieName in jar ==> r == Some(jar[SessionCookieName].value)
  {
    if SessionCookieName in jar then Some(jar[SessionCookieName].value) else None
  }

  /** `memberships.some(m => m.userId === userId)` */
  predicate HasMember(ms: seq<Membership>, userId: JsString) {
    exists i :: 0 <= i < |ms| && ms[i].userId == userId
  }

  /** The role lookup: membership in the developers team, and false when the listing fails. */
  function DeveloperRole(b: Backend, secret: JsString, userId: JsString): (isDeveloper: bool)
    ensures isDeveloper <==> b.listMemberships(secret, DevelopersTeamId).Success?
                             && HasMember(b.listMemberships(secret, DevelopersTeamId).value, userId)
  {
    match b.listMemberships(secret, DevelopersTeamId)
    case Success(list) => HasMember(list, userId)
    case Failure(_) => false
  }

  /** The part of `getLoggedInUser` after a session cookie was found. */
  function ResolveSecret(b: Backend, secret: JsString): (r: Option<User>)
    ensures r.Some? <==> b.accountGet(secret).Success?
    ensures r.Some? ==> var a := b.accountGet(secret).value;
      && r.value.id == a.id && r.value.email == a.email && r.value.name == a.name
      && r.value.isDeveloper.Some?
      && (IsDeveloper(r.value) <==> DeveloperRole(b, secret, a.id))
  {
    match b.accountGet(secret)
    case Failure(_) => None
    case Success(a) => Some(UserFromAccount(a, DeveloperRole(b, secret, a.id)))
  }

  /**
   * `getLoggedInUser()`: the user of the `session` cookie, or null. Any
   * failure yields null rather than an exception; a failed membership
   * listing yields a user who is not a developer.
   */
  function GetLoggedInUser(jar: map<JsString, Cookie>, b: Backend): (r: Option<User>)
    ensures SessionCookieName !in jar ==> r == None
    ensures SessionCookieName in jar ==> r == ResolveSecret(b, jar[SessionCookieName].value)
    ensures r.Some? ==> var a := b.accountGet(jar[SessionCookieName].value).value;
      r.value.id == a.id && r.value.email == a.email && r.value.name == a.name
    ensures r.Some? <==> SessionCookieName in jar && b.accountGet(jar[SessionCookieName].value).Success?
    ensures r.Some? ==>
      var listing := b.listMemberships(jar[SessionCookieName].value, DevelopersTeamId);
      IsDeveloper(r.value) <==> listing.Success? && HasMember(listing.value, r.value.id)
  {
    match SessionSecret(jar)
    case None => None
    case Some(secret) => ResolveSecret(b, secret)
  }

  /** Without a session cookie the answer is null whatever the identity service would say. */
  lemma NoCookieNoLookup(jar: map<JsString, Cookie>, b1: Backend, b2: Backend)
    requires SessionCookieName !in jar
    ensures GetLoggedInUser(jar, b1) == GetLoggedInUser(jar, b2) == None
  {}

  /** A failed account lookup yields null, whatever the membership listing says. */
  lemma AccountFailureYieldsNull(jar: map<JsString, Cookie>, b: Backend)
    requires SessionCookieName in jar && b.accountGet(jar[SessionCookieName].value).Failure?
    ensures GetLoggedInUser(jar, b) == None
  {}

  /** A failed membership listing still yields the user, as a non-developer. */
  lemma MembershipFailureFailsClosed(jar: map<JsString, Cookie>, b: Backend)
    requires SessionCookieName in jar
    requires b.accountGet(jar[SessionCookieName].value).Success?
    requires b.listMemberships(jar[SessionCookieName].value, DevelopersTeamId).Failure?
    ensures var r := GetLoggedInUser(jar, b);
      r.Some? && r.value.isDeveloper == Some(false)
      && r.value.id == b.accountGet(jar[SessionCookieName].value).value.id
  {}

  /** The options `createSession` sets the cookie with. */
  function SessionCookieOptions(s: Session): (o: CookieOptions)
    ensures o.httpOnly && o.secure && o.sameSite == Strict
    ensures o.path == Some(Str("/")) && o.expires == Some(s.expire)
  {
    CookieOptions(true, true, Strict, Some(s.expire), Some(Str("/")))
  }

  /** A session just stored in the jar is the one the next request resolves. */
  lemma CreatedSessionResolves(jar: map<JsString, Cookie>, s: Session, b: Backend)
    ensures GetLoggedInUser(jar[SessionCookieName := Cookie(s.secret, SessionCookieOptions(s))], b)
         == ResolveSecret(b, s.secret)
  {}

  /** Once the cookie is removed the next request resolves to no user. */
  lemma DeletedSessionSignsOut(jar: map<JsString, Cookie>, b: Backend)
    ensures GetLoggedInUser(jar - {SessionCookieName}, b) == None
  {}

  /** The cookie store of one request or response (`cookies()`). */
  class CookieStore {
    var jar: map<JsString, Cookie>

    constructor (initial: map<JsString, Cookie>)
      ensures jar == initial
    {
      jar := initial;
    }

    /** `cookieStore.set(name, value, options)` */
    method Set(name: JsString, value: JsString, options: CookieOptions)
      modifies this
      ensures jar == old(jar)[name := Cookie(value, options)]
    {
      jar := jar[name := Cookie(value, options)];
    }

    /** `cookieStore.delete(name)` */
    method Delete(name: JsString)
      modifies this
      ensures jar == old(jar) - {name}
    {
      jar := jar - {name};
    }
  }

  /**
   * `createSession(email, password)`: asks for a session and stores its
   * secret in the `session` cookie. When the service refuses, the error
   * propagates and no cookie is written.
   */
  method CreateSession(cookies: CookieStore, b: Backend, email: JsString, password: JsString)
    returns (r: Result<Session>)
    modifies cookies
    ensures r == b.createEmailPasswordSession(email, password)
    ensures r.Failure? ==> cookies.jar == old(cookies.jar)
    ensures r.Success? ==>
      cookies.jar == old(cookies.jar)[SessionCookieName := Cookie(r.value.secret, SessionCookieOptions(r.value))]
  {
    r := b.createEmailPasswordSession(email, password);
    if r.Success? {
      cookies.Set(SessionCookieName, r.value.secret, SessionCookieOptions(r.value));
    }
  }

  /**
   * `deleteSession()`: without a cookie it does nothing; otherwise it asks
   * the service to delete the current session and removes the cookie only
   * once that has succeeded, so a failed remote delete keeps the cookie.
   */
  method DeleteSession(cookies: CookieStore, b: Backend) returns (r: Outcome)
    modifies cookies
    ensures SessionCookieName !in old(cookies.jar) ==> r == Pass && cookies.jar == old(cookies.jar)
    ensures SessionCookieName in old(cookies.jar) ==>
      && r == b.deleteCurrentSession(old(cookies.jar)[SessionCookieName].value)
      && cookies.jar == (if r.Pass? then old(cookies.jar) - {SessionCookieName} else old(cookies.jar))
  {
    r := Pass;
    if SessionCookieName in cookies.jar {
      r := b.deleteCurrentSession(cookies.jar[SessionCookieName].value);
      if r.Pass? {
        cookies.Delete(SessionCookieName);
      }
    }
  }
}
