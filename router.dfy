/**
 * The router's navigation guard: every route except three public ones needs
 * a stored token, and a signed-in user is sent away from the public ones.
 */
module Router {
  import opened Js
  import opened Api

  const PUBLIC_ROUTES: seq<string> := ["/login", "/registro", "/recuperar-contrasena"]

  /** `publicRoutes.includes(path)` */
  predicate IsPublic(path: string)
  {
    path in PUBLIC_ROUTES
  }

  /** What the guard decides for one navigation. */
  datatype Decision = Proceed | ToLogin(returnUrl: string) | ToProducts

  /**
   * The `beforeEach` guard for a navigation to `path` (whose full path, with
   * query and hash, is `fullPath`), reading the token from `storage`.
   */
  function Guard(path: string, fullPath: string, storage: map<string, string>): (d: Decision)
    ensures var token := GetItem(storage, AUTH_TOKEN);
            && (d.ToLogin? <==> !IsPublic(path) && !Truthy(token))
            && (d.ToProducts? <==> IsPublic(path) && Truthy(token))
            && (d == Proceed <==> (IsPublic(path) && !Truthy(token)) || (!IsPublic(path) && Truthy(token)))
    ensures d.ToLogin? ==> d.returnUrl == fullPath
  {
    var authRequired := !IsPublic(path);
    var token := GetItem(storage, AUTH_TOKEN);
    if authRequired && !Truthy(token) then ToLogin(fullPath)
    else if !authRequired && Truthy(token) then ToProducts
    else Proceed
  }

  /** The value the guard returns to the router: nothing, a route location, or a path. */
  function Returned(d: Decision): (r: Value)
    ensures d == Proceed <==> r == JUndef
    ensures d.ToProducts? <==> r == JStr("/products")
    ensures d.ToLogin? ==>
              && ObjectIs(r, ["path", "query", "meta"], [JStr("/login"), Get(r, "query"), Get(r, "meta")])
              && ObjectIs(Get(r, "query"), ["returnUrl"], [JStr(d.returnUrl)])
              && ObjectIs(Get(r, "meta"), ["layout"], [JStr("empty")])
  {
    match d
    case Proceed => JUndef
    case ToProducts => JStr("/products")
    case ToLogin(returnUrl) =>
      var query := JObj(["returnUrl"], map["returnUrl" := JStr(returnUrl)]);
      var meta := JObj(["layout"], map["layout" := JStr("empty")]);
      assert ObjectIs(query, ["returnUrl"], [JStr(returnUrl)]);
      assert ObjectIs(meta, ["layout"], [JStr("empty")]);
      JObj(["path", "query", "meta"], map["path" := JStr("/login"), "query" := query, "meta" := meta])
  }

  /**
   * Signed out, exactly the login, registration and password-recovery pages
   * can be opened; every other page sends the user to login.
   */
  lemma PublicRoutesExactly(path: string, fullPath: string)
    ensures Guard(path, fullPath, map[]) == Proceed <==>
              path == "/login" || path == "/registro" || path == "/recuperar-contrasena"
    ensures Guard(path, fullPath, map[]) != Proceed ==> Guard(path, fullPath, map[]) == ToLogin(fullPath)
  {
  }

  /** The guard never sends `/login` to the login page: without a token it proceeds. */
  lemma LoginNeverRedirectsToItself(fullPath: string, storage: map<string, string>)
    ensures !Guard("/login", fullPath, storage).ToLogin?
    ensures !Truthy(GetItem(storage, AUTH_TOKEN)) ==> Guard("/login", fullPath, storage) == Proceed
  {
  }

  /** A stored empty token is treated as no token at all. */
  lemma EmptyTokenIsNoToken(path: string, fullPath: string, storage: map<string, string>)
    requires AUTH_TOKEN in storage && storage[AUTH_TOKEN] == ""
    ensures Guard(path, fullPath, storage) == Guard(path, fullPath, storage - {AUTH_TOKEN})
  {
  }

  /** The guard only looks at the token: other stored keys do not matter. */
  lemma GuardReadsOnlyTheToken(path: string, fullPath: string, s1: map<string, string>, s2: map<string, string>)
    requires (AUTH_TOKEN in s1 <==> AUTH_TOKEN in s2)
    requires AUTH_TOKEN in s1 ==> s1[AUTH_TOKEN] == s2[AUTH_TOKEN]
    ensures Guard(path, fullPath, s1) == Guard(path, fullPath, s2)
  {
  }

  /** After a 401 has cleared the session, every protected page sends the user to log in. */
  lemma ClearedSessionIsSentToLogin(path: string, fullPath: string, storage: map<string, string>)
    requires !IsPublic(path)
    ensures Guard(path, fullPath, WithoutSession(storage)) == ToLogin(fullPath)
  {
  }
}
