/**
 * The HTTP client wrapper and the session it keeps in the browser's
 * `localStorage`: the bearer header added to every request, the 401 handling
 * of the response interceptor, and the authentication calls (login, register,
 * logout, profile read and update) that write or remove the two session keys.
 */
module Api {
  import opened Js
  import opened Http

  const AUTH_TOKEN := "authToken"
  const USER := "user"

  const LOGIN_FAILED := "Credenciales incorrectas"
  const NO_TOKEN := "No se recibió el token de autenticación"
  const BAD_REGISTER_REPLY := "Invalid response format from server"
  const VALIDATION_FAILED := "Validation failed"
  const REGISTER_FAILED := "Registration failed. Please try again."
  const PROFILE_FAILED := "Error al obtener el perfil"
  const PROFILE_UPDATE_FAILED := "Error al actualizar el perfil"

  /** `localStorage.getItem(k)`: the stored string, or null. */
  function GetItem(storage: map<string, string>, k: string): (r: Value)
    ensures r == JNull <==> k !in storage
    ensures k in storage ==> r == JStr(storage[k])
  {
    if k in storage then JStr(storage[k]) else JNull
  }

  /** The storage once both session keys are removed; every other key is kept. */
  function WithoutSession(storage: map<string, string>): (r: map<string, string>)
    ensures AUTH_TOKEN !in r && USER !in r
    ensures forall k :: k in storage && k != AUTH_TOKEN && k != USER ==> k in r && r[k] == storage[k]
    ensures forall k :: k in r ==> k in storage
  {
    storage - {AUTH_TOKEN, USER}
  }

  /** Clearing the session twice leaves what clearing it once leaves. */
  lemma WithoutSessionIdempotent(storage: map<string, string>)
    ensures WithoutSession(WithoutSession(storage)) == WithoutSession(storage)
  {
  }

  /** `error.response && error.response.status === 401` */
  predicate Unauthorized(e: Value)
  {
    Truthy(Get(e, "response")) && Get(Get(e, "response"), "status") == JNum(401)
  }

  /**
   * What the response interceptor rejects with: the same error, except that
   * reading `error.response` of a nullish value throws a TypeError first.
   */
  function Rejected(e: Value): (r: Value)
    ensures !Nullish(r)
    ensures !Nullish(e) ==> r == e
  {
    if Nullish(e) then TYPE_ERROR else e
  }

  // ---------------------------------------------------------------------------
  // Flattening a 422 validation payload

  /** The TypeError of calling `join` on a value that is not an array. */
  const NOT_A_FUNCTION: Value := ErrorValue("TypeError", "messages.join is not a function")

  /** `${field}: ${messages.join(', ')}` */
  function FieldLine(field: string, messages: Value): (r: Completion<string>)
    ensures r.Normal? <==> messages.JArr?
    ensures r.Normal? ==> r.value == field + ": " + ArrayJoin(messages.items, ", ")
  {
    match messages
    case JArr(items) => Normal(field + ": " + ArrayJoin(items, ", "))
    case JUndef => Throw(TYPE_ERROR)
    case JNull => Throw(TYPE_ERROR)
    case _ => Throw(NOT_A_FUNCTION)
  }

  /** `entries.map(FieldLine)`: the first entry whose messages are not an array makes it throw. */
  function FieldLines(es: seq<(string, Value)>): (r: Completion<seq<string>>)
    ensures r.Normal? <==> forall i :: 0 <= i < |es| ==> es[i].1.JArr?
    ensures r.Normal? ==> |r.value| == |es|
    ensures r.Normal? ==> forall i :: 0 <= i < |es| ==> r.value[i] == FieldLine(es[i].0, es[i].1).value
  {
    if |es| == 0 then Normal([])
    else
      match FieldLine(es[0].0, es[0].1)
      case Throw(t) => Throw(t)
      case Normal(line) =>
        match FieldLines(es[1..])
        case Throw(t) => Throw(t)
        case Normal(lines) => Normal([line] + lines)
  }

  lemma {:induction false} JoinEmpty(parts: seq<string>, sep: string)
    requires forall i :: 0 <= i < |parts| ==> parts[i] != ""
    ensures Join(parts, sep) == "" <==> |parts| == 0
  {
    if |parts| >= 2 {
      assert |Join(parts, sep)| >= |parts[0]|;
    }
  }

  /** `Object.entries(errors).map(...).join('; ')` */
  function ValidationMessage(errors: Value): (r: Completion<string>)
    ensures r.Normal? <==> forall i :: 0 <= i < |Entries(errors)| ==> Entries(errors)[i].1.JArr?
    ensures r.Normal? ==> (r.value == "" <==> |Entries(errors)| == 0)
  {
    match FieldLines(Entries(errors))
    case Throw(t) => Throw(t)
    case Normal(lines) =>
      assert forall i :: 0 <= i < |lines| ==> |lines[i]| >= 2;
      JoinEmpty(lines, "; ");
      Normal(Join(lines, "; "))
  }

  /** A 422 reply with `{ f: [m] }` becomes `"f: m"`: the single message is kept verbatim. */
  lemma ValidationMessageOneField(f: string, m: string)
    ensures ValidationMessage(JObj([f], map[f := JArr([JStr(m)])])) == Normal(f + ": " + m)
  {
    var errors := JObj([f], map[f := JArr([JStr(m)])]);
    assert Entries(errors) == [(f, JArr([JStr(m)]))];
    assert ArrayJoin([JStr(m)], ", ") == m;
  }

  /** Two fields give their two lines joined by `"; "`, in key order. */
  lemma ValidationMessageTwoFields(f1: string, ms1: seq<Value>, f2: string, ms2: seq<Value>)
    requires f1 != f2
    ensures ValidationMessage(JObj([f1, f2], map[f1 := JArr(ms1), f2 := JArr(ms2)]))
            == Normal(f1 + ": " + ArrayJoin(ms1, ", ") + "; " + f2 + ": " + ArrayJoin(ms2, ", "))
  {
    var errors := JObj([f1, f2], map[f1 := JArr(ms1), f2 := JArr(ms2)]);
    assert Entries(errors) == [(f1, JArr(ms1)), (f2, JArr(ms2))];
    var lines := FieldLines(Entries(errors));
    assert lines.value == [f1 + ": " + ArrayJoin(ms1, ", "), f2 + ": " + ArrayJoin(ms2, ", ")];
    assert lines.value[1..] == [f2 + ": " + ArrayJoin(ms2, ", ")];
    var a, b := f1 + ": " + ArrayJoin(ms1, ", "), f2 + ": " + ArrayJoin(ms2, ", ");
    assert Join(lines.value, "; ") == a + "; " + b;
    assert ValidationMessage(errors) == Normal(a + "; " + b);
    assert a + "; " + b == f1 + ": " + ArrayJoin(ms1, ", ") + "; " + f2 + ": " + ArrayJoin(ms2, ", ");
  }

  /**
   * The error register's catch block throws for a caught value `error`: the
   * flattened validation message on a 422 (or `'Validation failed'` when it
   * is empty), otherwise the server's message, the error's own message or
   * the generic literal.
   */
  function RegisterError(error: Value): (r: Value)
    ensures var response := Get(error, "response");
            var errors := Or(Get(Get(response, "data"), "errors"), JObj([], map[]));
            && (Nullish(error) ==> r == TYPE_ERROR)
            && (!Nullish(error) && Get(response, "status") == JNum(422) && ValidationMessage(errors).Normal? ==>
                  r == NewError(JStr(if |Entries(errors)| == 0 then VALIDATION_FAILED else ValidationMessage(errors).value)))
            && (!Nullish(error) && Get(response, "status") == JNum(422) && ValidationMessage(errors).Throw? ==>
                  r == ValidationMessage(errors).exception)
            && (!Nullish(error) && Get(response, "status") != JNum(422) ==>
                  r == NewError(Or(Or(ServerMessage(error), Get(error, "message")), JStr(REGISTER_FAILED))))
  {
    if Nullish(error) then TYPE_ERROR
    else
      var response := Get(error, "response");
      if Get(response, "status") == JNum(422) then
        var errors := Or(Get(Get(response, "data"), "errors"), JObj([], map[]));
        match ValidationMessage(errors)
        case Throw(t) => t
        case Normal(m) => NewError(Or(JStr(m), JStr(VALIDATION_FAILED)))
      else
        NewError(Or(Or(ServerMessage(error), Get(error, "message")), JStr(REGISTER_FAILED)))
  }

  /** An error with no server reply, such as the TypeError of an unreadable body, is reported with its own message. */
  lemma ErrorWithoutReplyKeepsMessage(name: string, message: string)
    requires message != ""
    ensures RegisterError(ErrorValue(name, message)) == NewError(JStr(message))
  {
    var e := ErrorValue(name, message);
    assert Get(e, "response") == JUndef && ServerMessage(e) == JUndef;
  }

  /** A 422 with no `errors` at all is reported as `'Validation failed'`. */
  lemma RegisterValidationWithoutErrors(status422: Value)
    requires status422 == AxiosError("Request failed with status code 422",
                                     JObj(["status", "data"], map["status" := JNum(422), "data" := JObj([], map[])]))
    ensures RegisterError(status422) == NewError(JStr(VALIDATION_FAILED))
  {
    var response := Get(status422, "response");
    assert Get(response, "status") == JNum(422);
    assert Get(Get(response, "data"), "errors") == JUndef;
    var errors := JObj([], map[]);
    assert Entries(errors) == [];
    assert ValidationMessage(errors) == Normal("");
  }

  // ---------------------------------------------------------------------------
  // The client's state

  /** An outgoing request's configuration, as the request interceptor sees it. */
  class RequestConfig {
    var headers: map<string, string>

    constructor(headers: map<string, string>)
      ensures this.headers == headers
    {
      this.headers := headers;
    }
  }

  /**
   * The browser state the client reads and writes: `localStorage` and the
   * page the window was last sent to (`window.location.href`), if any.
   */
  class Session {
    var storage: map<string, string>
    var redirect: Option<string>

    constructor(storage: map<string, string>)
      ensures this.storage == storage && redirect == None
    {
      this.storage := storage;
      redirect := None;
    }

    /** getAuthToken: the stored token, or null. */
    function AuthToken(): (t: Value)
      reads this
      ensures t == JNull || t.JStr?
      ensures t.JStr? <==> AUTH_TOKEN in storage
    {
      GetItem(storage, AUTH_TOKEN)
    }

    /** isAuthenticated: a token is stored and it is not the empty string. */
    function IsAuthenticated(): (b: bool)
      reads this
      ensures b <==> AUTH_TOKEN in storage && storage[AUTH_TOKEN] != ""
      ensures b <==> Truthy(AuthToken())
    {
      Truthy(GetItem(storage, AUTH_TOKEN))
    }

    /**
     * getStoredUser: null without a (non-empty) `user` entry, else what
     * `JSON.parse` makes of it; a parse error propagates.
     */
    function StoredUser(parse: string -> Parsed): (r: Completion<Value>)
      reads this
      ensures USER !in storage || storage[USER] == "" ==> r == Normal(JNull)
      ensures USER in storage && storage[USER] != "" && parse(storage[USER]).Parsed? ==>
                r == Normal(parse(storage[USER]).value)
      ensures USER in storage && storage[USER] != "" && parse(storage[USER]).Unparsable? ==>
                r == Throw(parse(storage[USER]).error)
    {
      var user := GetItem(storage, USER);
      if Truthy(user) then
        match parse(user.s)
        case Parsed(v) => Normal(v)
        case Unparsable(err) => Throw(err)
      else Normal(JNull)
    }

    /** The request interceptor: adds `Authorization: Bearer <token>` exactly when a non-empty token is stored. */
    method Authorize(config: RequestConfig) returns (r: RequestConfig)
      modifies config
      ensures r == config
      ensures IsAuthenticated() ==> config.headers == old(config.headers)["Authorization" := "Bearer " + storage[AUTH_TOKEN]]
      ensures !IsAuthenticated() ==> config.headers == old(config.headers)
    {
      var token := GetItem(storage, AUTH_TOKEN);
      if Truthy(token) {
        config.headers := config.headers["Authorization" := "Bearer " + token.s];
      }
      return config;
    }

    /**
     * The response interceptor's error handler: a 401 clears both session keys
     * and sends the window to `/login`; whatever happens, the error is rejected.
     */
    method RejectResponse(error: Value) returns (rejected: Value)
      modifies this
      ensures rejected == Rejected(error)
      ensures Unauthorized(error) ==> storage == WithoutSession(old(storage)) && redirect == Some("/login")
      ensures !Unauthorized(error) ==> storage == old(storage) && redirect == old(redirect)
    {
      if Nullish(error) {
        return TYPE_ERROR;
      }
      if Unauthorized(error) {
        storage := storage - {AUTH_TOKEN};
        storage := storage - {USER};
        redirect := Some("/login");
      }
      return error;
    }

    /**
     * login: POST `/login` with `{ name, password }`. Only a reply carrying a
     * truthy `data.token` stores the token and the stringified user; every
     * other outcome throws an Error with the server's message or
     * `'Credenciales incorrectas'` (the "no token" error raised inside the
     * try block is caught and replaced by the latter).
     */
    method Login(credentials: Value, reply: Outcome, stringify: Value -> Value) returns (c: Call)
      modifies this
      ensures Nullish(credentials) ==> c == Call(None, Throw(TYPE_ERROR))
      ensures Nullish(credentials) || reply.Completed? ==> redirect == old(redirect)
      ensures !Nullish(credentials) ==>
                c.request == Some(Request(POST, "/login", JUndef,
                                          JObj(["name", "password"], map["name" := Get(credentials, "name"),
                                                                       "password" := Get(credentials, "password")])))
      ensures c.result.Normal? <==> !Nullish(credentials) && reply.Completed? && Truthy(Get(SessionData(reply.response), "token"))
      ensures c.result.Normal? ==>
                var data := SessionData(reply.response);
                && c.result.value == data
                && storage == old(storage)[AUTH_TOKEN := ToString(Get(data, "token"))][USER := ToString(stringify(Get(data, "user")))]
      ensures !Nullish(credentials) && reply.Completed? && c.result.Throw? ==>
                c.result == Throw(NewError(JStr(LOGIN_FAILED))) && storage == old(storage)
      ensures !Nullish(credentials) && reply.Failed? ==>
                && c.result == Throw(NewError(Or(ServerMessage(Rejected(reply.thrown)), JStr(LOGIN_FAILED))))
                && (Unauthorized(reply.thrown) ==> storage == WithoutSession(old(storage)) && redirect == Some("/login"))
                && (!Unauthorized(reply.thrown) ==> storage == old(storage) && redirect == old(redirect))
      ensures Nullish(credentials) ==> storage == old(storage)
    {
      if Nullish(credentials) {
        return Call(None, Throw(TYPE_ERROR));
      }
      var request := Request(POST, "/login", JUndef,
                             JObj(["name", "password"], map["name" := Get(credentials, "name"),
                                                          "password" := Get(credentials, "password")]));
      var caught: Value;
      match reply {
        case Completed(response) =>
          var data := SessionData(response);
          if Truthy(Get(data, "token")) {
            storage := storage[AUTH_TOKEN := ToString(Get(data, "token"))];
            storage := storage[USER := ToString(stringify(Get(data, "user")))];
            return Call(Some(request), Normal(data));
          }
          caught := if Nullish(Body(response)) then TYPE_ERROR else NewError(JStr(NO_TOKEN));
        case Failed(e) =>
          caught := RejectResponse(e);
      }
      return Call(Some(request), Throw(NewError(Or(ServerMessage(caught), JStr(LOGIN_FAILED)))));
    }

    /**
     * register: POST `/register` with the six registration fields. Storage is
     * written only when the reply has both `data.token` and `data.user`, and
     * then exactly `{ token, user }` is returned; every other outcome throws
     * what the catch block makes of the caught value (see RegisterError).
     */
    method Register(userData: Value, reply: Outcome, stringify: Value -> Value) returns (c: Call)
      modifies this
      ensures Nullish(userData) ==> c == Call(None, Throw(NewError(JStr(TYPE_ERROR_MESSAGE))))
      ensures !Nullish(userData) ==>
                c.request == Some(Request(POST, "/register", JUndef, RegistrationBody(userData)))
      ensures c.result.Normal? <==> !Nullish(userData) && reply.Completed? && Registered(reply.response)
      ensures c.result.Normal? ==>
                var data := SessionData(reply.response);
                && c.result.value == JObj(["token", "user"], map["token" := Get(data, "token"), "user" := Get(data, "user")])
                && storage == old(storage)[AUTH_TOKEN := ToString(Get(data, "token"))][USER := ToString(stringify(Get(data, "user")))]
      ensures !Nullish(userData) && reply.Completed? && c.result.Throw? ==>
                && c.result == Throw(NewError(JStr(if Nullish(Body(reply.response)) then TYPE_ERROR_MESSAGE else BAD_REGISTER_REPLY)))
                && storage == old(storage)
      ensures !Nullish(userData) && reply.Failed? ==>
                && c.result == Throw(RegisterError(Rejected(reply.thrown)))
                && (Unauthorized(reply.thrown) ==> storage == WithoutSession(old(storage)) && redirect == Some("/login"))
                && (!Unauthorized(reply.thrown) ==> storage == old(storage) && redirect == old(redirect))
      ensures Nullish(userData) || reply.Completed? ==> redirect == old(redirect)
      ensures Nullish(userData) ==> storage == old(storage)
    {
      if Nullish(userData) {
        ErrorWithoutReplyKeepsMessage("TypeError", TYPE_ERROR_MESSAGE);
        return Call(None, Throw(RegisterError(TYPE_ERROR)));
      }
      var request := Request(POST, "/register", JUndef, RegistrationBody(userData));
      match reply {
        case Completed(response) =>
          if Registered(response) {
            var data := SessionData(response);
            storage := storage[AUTH_TOKEN := ToString(Get(data, "token"))];
            storage := storage[USER := ToString(stringify(Get(data, "user")))];
            return Call(Some(request), Normal(JObj(["token", "user"], map["token" := Get(data, "token"), "user" := Get(data, "user")])));
          }
          // The try block's own throw (a TypeError, or the bad-format Error) carries no reply.
          if Nullish(Body(response)) {
            ErrorWithoutReplyKeepsMessage("TypeError", TYPE_ERROR_MESSAGE);
            return Call(Some(request), Throw(RegisterError(TYPE_ERROR)));
          }
          ErrorWithoutReplyKeepsMessage("Error", BAD_REGISTER_REPLY);
          return Call(Some(request), Throw(RegisterError(NewError(JStr(BAD_REGISTER_REPLY)))));
        case Failed(e) =>
          var caught := RejectResponse(e);
          return Call(Some(request), Throw(RegisterError(caught)));
      }
    }

    /** logout: POST `/logout`; both session keys are removed whatever the outcome, and it never throws. */
    method Logout(reply: Outcome) returns (c: Call)
      modifies this
      ensures c == Call(Some(Request(POST, "/logout", JUndef, JUndef)), Normal(JUndef))
      ensures storage == WithoutSession(old(storage))
      ensures redirect == if reply.Failed? && Unauthorized(reply.thrown) then Some("/login") else old(redirect)
    {
      if reply.Failed? {
        var _ := RejectResponse(reply.thrown);
      }
      storage := storage - {AUTH_TOKEN};
      storage := storage - {USER};
      return Call(Some(Request(POST, "/logout", JUndef, JUndef)), Normal(JUndef));
    }

    /** getUserProfile: GET `/user`, giving the body's `data`, or an Error with the server's message or the literal. */
    method GetUserProfile(reply: Outcome) returns (c: Call)
      modifies this
      ensures c == Call(Some(Request(GET, "/user", JUndef, JUndef)), UserProfile(reply))
      ensures reply.Completed? ==> storage == old(storage) && redirect == old(redirect)
      ensures reply.Failed? ==>
                && (Unauthorized(reply.thrown) ==> storage == WithoutSession(old(storage)) && redirect == Some("/login"))
                && (!Unauthorized(reply.thrown) ==> storage == old(storage) && redirect == old(redirect))
    {
      var request := Request(GET, "/user", JUndef, JUndef);
      var caught: Value;
      match reply {
        case Completed(response) =>
          if !Nullish(Body(response)) {
            return Call(Some(request), Normal(SessionData(response)));
          }
          caught := TYPE_ERROR;
        case Failed(e) =>
          caught := RejectResponse(e);
      }
      return Call(Some(request), Throw(NewError(Or(ServerMessage(caught), JStr(PROFILE_FAILED)))));
    }

    /**
     * updateUserProfile: PUT `/user/profile` with the given data. The stored
     * `user` is rewritten only when the reply carries a truthy `data.user`,
     * and no other key is touched.
     */
    method UpdateUserProfile(userData: Value, reply: Outcome, stringify: Value -> Value) returns (c: Call)
      modifies this
      ensures c.request == Some(Request(PUT, "/user/profile", JUndef, userData))
      ensures reply.Completed? && !Nullish(Body(reply.response)) ==>
                var data := SessionData(reply.response);
                && c.result == Normal(data)
                && storage == (if Truthy(Get(data, "user")) then old(storage)[USER := ToString(stringify(Get(data, "user")))]
                               else old(storage))
      ensures reply.Completed? && Nullish(Body(reply.response)) ==>
                c.result == Throw(NewError(JStr(PROFILE_UPDATE_FAILED))) && storage == old(storage)
      ensures reply.Completed? ==> redirect == old(redirect)
      ensures reply.Failed? ==>
                && c.result == Throw(NewError(Or(ServerMessage(Rejected(reply.thrown)), JStr(PROFILE_UPDATE_FAILED))))
                && (Unauthorized(reply.thrown) ==> storage == WithoutSession(old(storage)) && redirect == Some("/login"))
                && (!Unauthorized(reply.thrown) ==> storage == old(storage) && redirect == old(redirect))
    {
      var request := Request(PUT, "/user/profile", JUndef, userData);
      var caught: Value;
      match reply {
        case Completed(response) =>
          if !Nullish(Body(response)) {
            var data := SessionData(response);
            if Truthy(Get(data, "user")) {
              storage := storage[USER := ToString(stringify(Get(data, "user")))];
            }
            return Call(Some(request), Normal(data));
          }
          caught := TYPE_ERROR;
        case Failed(e) =>
          caught := RejectResponse(e);
      }
      return Call(Some(request), Throw(NewError(Or(ServerMessage(caught), JStr(PROFILE_UPDATE_FAILED)))));
    }
  }

  /** What getUserProfile resolves to or rejects with, for the outcome of its `GET /user`. */
  function UserProfile(reply: Outcome): (r: Completion<Value>)
    ensures reply.Completed? && !Nullish(Body(reply.response)) ==> r == Normal(SessionData(reply.response))
    ensures reply.Completed? && Nullish(Body(reply.response)) ==> r == Throw(NewError(JStr(PROFILE_FAILED)))
    ensures reply.Failed? ==> r == Throw(NewError(Or(ServerMessage(Rejected(reply.thrown)), JStr(PROFILE_FAILED))))
    ensures r.Throw? ==> Get(r.exception, "name") == JStr("Error") && Get(r.exception, "message").JStr?
  {
    match reply
    case Completed(response) =>
      if Nullish(Body(response)) then Throw(NewError(JStr(PROFILE_FAILED))) else Normal(SessionData(response))
    case Failed(e) => Throw(NewError(Or(ServerMessage(Rejected(e)), JStr(PROFILE_FAILED))))
  }

  /** `response.data.data`: the session payload of an authentication reply. */
  function SessionData(response: Value): Value
  {
    Get(Body(response), "data")
  }

  /** register's check on the reply: both `data.token` and `data.user` are truthy. */
  predicate Registered(response: Value)
  {
    Truthy(Get(SessionData(response), "token")) && Truthy(Get(SessionData(response), "user"))
  }

  /** The registration body: the six fields copied from the form's data. */
  function RegistrationBody(userData: Value): (b: Value)
    ensures ObjectIs(b, ["name", "lastname", "email", "phone", "password", "password_confirmation"],
                     [Get(userData, "name"), Get(userData, "lastname"), Get(userData, "email"),
                      Get(userData, "phone"), Get(userData, "password"), Get(userData, "password_confirmation")])
  {
    JObj(["name", "lastname", "email", "phone", "password", "password_confirmation"],
         map["name" := Get(userData, "name"), "lastname" := Get(userData, "lastname"), "email" := Get(userData, "email"),
             "phone" := Get(userData, "phone"), "password" := Get(userData, "password"),
             "password_confirmation" := Get(userData, "password_confirmation")])
  }
}
