/**
 * The authentication store: the signed-in user's profile (with two derived
 * display fields), a loading flag and the last error message.
 */
module AuthStore {
  import opened Js
  import opened Http
  import opened Api

  /**
   * `name && lastname ? (name.charAt(0) + lastname.charAt(0)).toUpperCase() : 'US'`;
   * a truthy name that is not a string has no `charAt`, and the call throws.
   */
  function Initials(name: Value, lastname: Value): (r: Completion<string>)
    ensures !(Truthy(name) && Truthy(lastname)) ==> r == Normal("US")
    ensures Truthy(name) && Truthy(lastname) && name.JStr? && lastname.JStr? ==>
              r == Normal(Upper([name.s[0], lastname.s[0]]))
    ensures Truthy(name) && Truthy(lastname) && !(name.JStr? && lastname.JStr?) ==> r.Throw?
  {
    if Truthy(name) && Truthy(lastname) then
      match CharAt0(name)
      case Throw(t) => Throw(t)
      case Normal(first) =>
        match CharAt0(lastname)
        case Throw(t) => Throw(t)
        case Normal(last) =>
          assert first + last == [name.s[0], lastname.s[0]];
          Normal(Upper(first + last))
    else Normal("US")
  }

  /** `${name || ''} ${lastname || ''}`.trim() */
  function FullName(name: Value, lastname: Value): string
  {
    Trim(ToString(Or(name, JStr(""))) + " " + ToString(Or(lastname, JStr(""))))
  }

  /** Two names with no white space at their ends are joined by one space. */
  lemma {:induction false} FullNameOfTwoNames(name: string, lastname: string)
    requires name != "" && lastname != ""
    requires !IsSpace(name[0]) && !IsSpace(lastname[|lastname| - 1])
    ensures FullName(JStr(name), JStr(lastname)) == name + " " + lastname
  {
    var s := name + " " + lastname;
    assert s[0] == name[0] && s[|s| - 1] == lastname[|lastname| - 1];
    TrimUnspaced(s);
  }

  /** With neither name the full name is empty and the initials are `'US'`. */
  lemma {:induction false} NamelessProfile()
    ensures FullName(JUndef, JUndef) == ""
    ensures Initials(JUndef, JUndef) == Normal("US")
  {
    assert ToString(JStr("")) + " " + ToString(JStr("")) == " ";
    assert " "[1..] == "" && Trim(" ") == "";
  }

  /** Ana Lopez: initials `AL`, full name `Ana Lopez`; lower-case names are upper-cased. */
  lemma {:induction false} AnaLopez()
    ensures Initials(JStr("Ana"), JStr("Lopez")) == Normal("AL")
    ensures Initials(JStr("ana"), JStr("lopez")) == Normal("AL")
    ensures FullName(JStr("Ana"), JStr("Lopez")) == "Ana Lopez"
  {
    assert Upper("AL") == "AL";
    assert Upper("al") == "AL";
    FullNameOfTwoNames("Ana", "Lopez");
  }

  /** A name alone gives that name, without a trailing space. */
  lemma {:induction false} FirstNameOnly(name: string)
    requires name != "" && !IsSpace(name[0]) && !IsSpace(name[|name| - 1])
    ensures FullName(JStr(name), JNull) == name
    ensures Initials(JStr(name), JNull) == Normal("US")
  {
    var s := name + " " + "";
    assert s == name + " ";
    assert TrimStart(s) == s;
    assert s[..|s| - 1] == name;
    assert TrimEnd(s) == TrimEnd(name);
    assert TrimEnd(name) == name;
  }

  /**
   * `{ ...response, initials, fullname }`: the profile's own fields, then the
   * two derived ones (a profile never read as an object makes `response.name`
   * throw).
   */
  function WithDisplayNames(profile: Value): (r: Completion<Value>)
    ensures Nullish(profile) ==> r == Throw(TYPE_ERROR)
    ensures r.Normal? ==>
              var name := Get(profile, "name");
              var lastname := Get(profile, "lastname");
              && Initials(name, lastname).Normal?
              && Get(r.value, "initials") == JStr(Initials(name, lastname).value)
              && Get(r.value, "fullname") == JStr(FullName(name, lastname))
    ensures !Nullish(profile) && Initials(Get(profile, "name"), Get(profile, "lastname")).Normal? ==> r.Normal?
  {
    if Nullish(profile) then Throw(TYPE_ERROR)
    else
      var name := Get(profile, "name");
      var lastname := Get(profile, "lastname");
      match Initials(name, lastname)
      case Throw(t) => Throw(t)
      case Normal(initials) =>
        Normal(SetProp(SetProp(Spread(profile), "initials", JStr(initials)), "fullname", JStr(FullName(name, lastname))))
  }

  /** The display profile keeps every enumerable field of the profile other than the two it adds. */
  lemma WithDisplayNamesKeepsProfile(profile: Value, k: string)
    requires profile.JObj? && WithDisplayNames(profile).Normal?
    requires k in profile.keys && k != "initials" && k != "fullname"
    ensures Get(WithDisplayNames(profile).value, k) == Get(profile, k)
  {
  }

  class Store {
    var user: Value
    var loading: bool
    var error: Value

    constructor()
      ensures user == JNull && !loading && error == JNull
    {
      user := JNull;
      loading := false;
      error := JNull;
    }

    /**
     * loadUser: fetch the profile and keep it with its display names. On
     * failure the error's message is kept, the user is left as it was, and
     * the failure is thrown on; `loading` ends false on both paths.
     */
    method LoadUser(session: Session, reply: Outcome) returns (r: Completion<Value>)
      modifies this, session
      ensures !loading
      ensures var p := UserProfile(reply);
              && (p.Normal? && WithDisplayNames(p.value).Normal? ==>
                    r == WithDisplayNames(p.value) && user == r.value && error == JNull)
              && (p.Throw? ==> r == p && user == old(user) && error == Get(p.exception, "message"))
              && (p.Normal? && WithDisplayNames(p.value).Throw? ==>
                    r == WithDisplayNames(p.value) && user == old(user) && error == Get(r.exception, "message"))
      ensures reply.Completed? ==> session.storage == old(session.storage) && session.redirect == old(session.redirect)
      ensures reply.Failed? && Unauthorized(reply.thrown) ==>
                session.storage == WithoutSession(old(session.storage)) && session.redirect == Some("/login")
      ensures reply.Failed? && !Unauthorized(reply.thrown) ==>
                session.storage == old(session.storage) && session.redirect == old(session.redirect)
    {
      loading := true;
      error := JNull;
      var c := session.GetUserProfile(reply);
      match c.result {
        case Throw(err) =>
          error := Get(err, "message");
          r := Throw(err);
        case Normal(profile) =>
          r := WithDisplayNames(profile);
          match r {
            case Normal(u) => user := u;
            case Throw(err) => error := Get(err, "message");
          }
      }
      loading := false;
    }

    /** clearUser: forget the user and nothing else. */
    method ClearUser()
      modifies this
      ensures user == JNull && loading == old(loading) && error == old(error)
    {
      user := JNull;
    }

    /**
     * checkAuth: load the profile only when a token is stored and no user is
     * held; then report whether a token is (still) stored. A failed load is
     * thrown on.
     */
    method CheckAuth(session: Session, reply: Outcome) returns (r: Completion<bool>)
      modifies this, session
      ensures !(old(session.IsAuthenticated()) && !Truthy(old(user))) ==>
                && r == Normal(session.IsAuthenticated())
                && user == old(user) && loading == old(loading) && error == old(error)
                && session.storage == old(session.storage) && session.redirect == old(session.redirect)
      ensures old(session.IsAuthenticated()) && !Truthy(old(user)) ==>
                var p := UserProfile(reply);
                var loaded := if p.Normal? then WithDisplayNames(p.value) else p;
                && !loading
                && (loaded.Throw? ==> r == Throw(loaded.exception) && user == old(user) && error == Get(loaded.exception, "message"))
                && (loaded.Normal? ==> r == Normal(session.IsAuthenticated()) && user == loaded.value && error == JNull)
      ensures old(session.IsAuthenticated()) && !Truthy(old(user)) && reply.Completed? ==>
                session.storage == old(session.storage) && session.redirect == old(session.redirect)
      ensures old(session.IsAuthenticated()) && !Truthy(old(user)) && reply.Failed? && Unauthorized(reply.thrown) ==>
                session.storage == WithoutSession(old(session.storage)) && session.redirect == Some("/login")
      ensures old(session.IsAuthenticated()) && !Truthy(old(user)) && reply.Failed? && !Unauthorized(reply.thrown) ==>
                session.storage == old(session.storage) && session.redirect == old(session.redirect)
      ensures old(session.IsAuthenticated()) && !Truthy(old(user)) && reply.Completed? && r.Normal? ==> r == Normal(true)
    {
      if session.IsAuthenticated() && !Truthy(user) {
        var loaded := LoadUser(session, reply);
        if loaded.Throw? {
          return Throw(loaded.exception);
        }
      }
      return Normal(session.IsAuthenticated());
    }
  }
}
