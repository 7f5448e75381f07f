/**
 * The users router: signup, login and logout, and the `authenticate`
 * middleware that picks a token from the cookie or the header, verifies it
 * and calls the continuation.
 *
 * `User.signUp` and `User.login` are awaited calls into code outside the
 * model: their settlement is a parameter. `createToken` and `verifyToken`
 * sign and check tokens with a key and a clock: they are function-typed
 * parameters, total by their type, so neither is modelled as throwing; a
 * failed verification is a falsy (`None`) result.
 */
module UsersRouter {
  import opened Http
  import App

  /** A user document as the handlers answer it; login sets `token`. */
  datatype User = User(email: string, token: Option<string>)

  /** The token lifetime in seconds: three days. */
  const TokenMaxAge: int := 60 * 60 * 24 * 3

  /** The name of the cookie that carries the token. */
  const AuthCookie := "authToken"

  /** The header name `authenticate` reads (spelled as in the router). */
  const HeaderKey := "authroization"

  /** The header name Node.js gives the standard `Authorization` header. */
  const IntendedHeaderKey := "authorization"

  /** The error `authenticate` builds when verification fails. */
  const AuthFailed := HttpError("Authroization Failed", Some(403))

  // ---------------------------------------------------------------------------
  // signup, login, logout
  // ---------------------------------------------------------------------------

  /** The catch blocks: `res.status(400); next(err)`. */
  function ForwardFailure(err: HttpError): (o: Outcome<User>)
    ensures o.Forwarded? && o.statusSet == 400 && o.error == err
  {
    Forwarded(400, err)
  }

  /** POST /users/signup: 201 with the new user, or 400 and the error forwarded. */
  function Signup(signedUp: Result<User>): (o: Outcome<User>)
    ensures signedUp.Ok? ==> o == Sent(Reply(201, Json(signedUp.value), []))
    ensures signedUp.Err? ==> o == Forwarded(400, signedUp.error)
  {
    match signedUp
    case Ok(user) => Sent(Reply(201, Json(user), []))
    case Err(err) => ForwardFailure(err)
  }

  /**
   * POST /users/login: on success sign a token for three days, put it on the
   * user and in an http-only `authToken` cookie whose max-age is the same
   * lifetime in milliseconds, and answer 201.
   */
  function Login(loggedIn: Result<User>, createToken: (User, int) -> string): (o: Outcome<User>)
    ensures loggedIn.Err? ==> o == Forwarded(400, loggedIn.error)
    ensures loggedIn.Ok? ==>
      var token := createToken(loggedIn.value, 259200);
      o.Sent? && o.reply.status == 201 &&
      o.reply.body == Json(loggedIn.value.(token := Some(token))) &&
      o.reply.cookies == [SetCookie(AuthCookie, token, true, Some(259200000), None)]
  {
    match loggedIn
    case Ok(user) =>
      var token := createToken(user, TokenMaxAge);
      var cookie := SetCookie(AuthCookie, token, true, Some(TokenMaxAge * 1000), None);
      Sent(Reply(201, Json(user.(token := Some(token))), [cookie]))
    case Err(err) => ForwardFailure(err)
  }

  /** ALL /users/logout: overwrite `authToken` with "" expiring at `now`; always 204, no body. */
  function Logout(now: int): (o: Outcome<User>)
    ensures o.Sent? && o.reply.status == 204 && o.reply.body == NoContent
    ensures o.reply.cookies == [SetCookie(AuthCookie, "", true, None, Some(now))]
  {
    Sent(Reply(204, NoContent, [SetCookie(AuthCookie, "", true, None, Some(now))]))
  }

  /** The login cookie lives exactly as long as the token, converted to milliseconds. */
  lemma LoginCookieMatchesToken(user: User, createToken: (User, int) -> string)
    ensures var c := Login(Ok(user), createToken).reply.cookies[0];
      c.maxAge == Some(TokenMaxAge * 1000) && TokenMaxAge == 259200 &&
      c.value == createToken(user, TokenMaxAge) &&
      Login(Ok(user), createToken).reply.body.value.token == Some(c.value)
  {
  }

  // ---------------------------------------------------------------------------
  // Splitting the header value: `headerToken.split(" ")[1]`
  // ---------------------------------------------------------------------------

  /** The parts joined back with `sep` between them. */
  function Join(parts: seq<string>, sep: char): string
    decreases |parts|
  {
    if |parts| == 0 then ""
    else if |parts| == 1 then parts[0]
    else parts[0] + [sep] + Join(parts[1..], sep)
  }

  /** `s.split(sep)` for a one-character separator. */
  function Split(s: string, sep: char): (parts: seq<string>)
    ensures |parts| >= 1
    ensures forall i :: 0 <= i < |parts| ==> sep !in parts[i]
    ensures Join(parts, sep) == s
    decreases |s|
  {
    if |s| == 0 then [""]
    else if s[0] == sep then [""] + Split(s[1..], sep)
    else
      var rest := Split(s[1..], sep);
      [[s[0]] + rest[0]] + rest[1..]
  }

  /** Splitting undoes joining parts that do not contain the separator. */
  lemma {:induction false} SplitJoin(parts: seq<string>, sep: char)
    requires |parts| >= 1
    requires forall i :: 0 <= i < |parts| ==> sep !in parts[i]
    ensures Split(Join(parts, sep), sep) == parts
    decreases |parts|, |parts[0]|
  {
    if |parts| == 1 {
      SplitWithoutSep(parts[0], sep);
    } else if parts[0] == "" {
      var tail := parts[1..];
      assert Join(parts, sep) == [sep] + Join(tail, sep);
      assert ([sep] + Join(tail, sep))[1..] == Join(tail, sep);
      SplitJoin(tail, sep);
      assert parts == [""] + tail;
    } else {
      var head := parts[0];
      var shorter := [head[1..]] + parts[1..];
      assert shorter[1..] == parts[1..];
      assert forall i :: 1 <= i < |shorter| ==> shorter[i] == parts[i];
      assert sep !in head[1..] by {
        forall k | 0 <= k < |head[1..]| ensures head[1..][k] != sep { assert head[1..][k] == head[k + 1]; }
      }
      assert Join(parts, sep) == [head[0]] + Join(shorter, sep);
      assert ([head[0]] + Join(shorter, sep))[1..] == Join(shorter, sep);
      SplitJoin(shorter, sep);
      assert [head[0]] + head[1..] == head;
    }
  }

  /** A string without the separator splits into itself alone. */
  lemma {:induction false} SplitWithoutSep(s: string, sep: char)
    requires sep !in s
    ensures Split(s, sep) == [s]
    decreases |s|
  {
    if |s| > 0 {
      assert sep !in s[1..] by {
        forall k | 0 <= k < |s[1..]| ensures s[1..][k] != sep { assert s[1..][k] == s[k + 1]; }
      }
      SplitWithoutSep(s[1..], sep);
      assert [s[0]] + s[1..] == s;
    }
  }

  /** `value.split(" ")[1]`: the second space-separated field, undefined if there is none. */
  function SecondField(value: string): (r: Option<string>)
    ensures r.Some? ==> ' ' !in r.value
  {
    var parts := Split(value, ' ');
    if |parts| > 1 then Some(parts[1]) else None
  }

  /** The second field of `scheme + " " + token` is the token, when neither holds a space. */
  lemma BearerField(scheme: string, token: string)
    requires ' ' !in scheme && ' ' !in token
    ensures SecondField(scheme + " " + token) == Some(token)
  {
    var parts := [scheme, token];
    assert Join(parts, ' ') == scheme + " " + token by {
      assert Join(parts[1..], ' ') == token;
    }
    SplitJoin(parts, ' ');
  }

  // ---------------------------------------------------------------------------
  // authenticate
  // ---------------------------------------------------------------------------

  /**
   * The token `authenticate` verifies: the `authToken` cookie when it is
   * truthy; otherwise, when the header under `headerKey` is truthy, its
   * second space-separated field; otherwise the (falsy) cookie value.
   */
  function SelectToken(cookies: map<string, string>, headers: map<string, string>, headerKey: string)
    : (token: Option<string>)
    ensures Truthy(Lookup(cookies, AuthCookie)) ==> token == Lookup(cookies, AuthCookie)
    ensures !Truthy(Lookup(cookies, AuthCookie)) && Truthy(Lookup(headers, headerKey)) ==>
      token == SecondField(headers[headerKey])
    ensures !Truthy(Lookup(cookies, AuthCookie)) && !Truthy(Lookup(headers, headerKey)) ==>
      token == Lookup(cookies, AuthCookie)
  {
    var cookie := Lookup(cookies, AuthCookie);
    var header := Lookup(headers, headerKey);
    if !Truthy(cookie) && Truthy(header) then SecondField(header.value) else cookie
  }

  /** A truthy cookie wins: the header is never consulted. */
  lemma {:induction false} CookieTokenWins(cookies: map<string, string>, headers: map<string, string>,
                                           headers': map<string, string>, key: string)
    requires Truthy(Lookup(cookies, AuthCookie))
    ensures SelectToken(cookies, headers, key) == SelectToken(cookies, headers', key) == Some(cookies[AuthCookie])
  {
  }

  /** Without a cookie, a `Bearer <token>` header under the key read yields the token. */
  lemma BearerHeaderYieldsToken(headers: map<string, string>, key: string, token: string)
    requires key in headers && headers[key] == "Bearer " + token && ' ' !in token
    ensures SelectToken(map[], headers, key) == Some(token)
  {
    assert ' ' !in "Bearer";
    BearerField("Bearer", token);
    assert "Bearer" + " " + token == "Bearer " + token;
    assert Lookup<string, string>(map[], AuthCookie) == None;
    assert Truthy(Lookup(headers, key)) by { assert |headers[key]| > 0; }
  }

  /** The incoming request as `authenticate` sees it. */
  class AuthRequest {
    const cookies: map<string, string>
    const headers: map<string, string>
    var user: Option<User>

    constructor (cookies: map<string, string>, headers: map<string, string>)
      ensures this.cookies == cookies && this.headers == headers && user == None
    {
      this.cookies := cookies;
      this.headers := headers;
      user := None;
    }

    /**
     * The middleware as written: set `req.user` to whatever verification
     * gives; on failure call `next(error)` with a 403 error and then fall
     * through to `next()` as well.
     */
    method Authenticate(verifyToken: Option<string> -> Option<User>) returns (calls: seq<NextCall>)
      modifies this
      ensures user == verifyToken(SelectToken(cookies, headers, HeaderKey))
      ensures user.Some? ==> calls == [NextCall(None)]
      ensures user.None? ==> calls == [NextCall(Some(AuthFailed)), NextCall(None)]
      ensures calls[|calls| - 1] == NextCall(None)
    {
      var token := Lookup(cookies, AuthCookie);
      var headerToken := Lookup(headers, HeaderKey);
      if !Truthy(token) && Truthy(headerToken) {
        token := SecondField(headerToken.value);
      }
      var verified := verifyToken(token);
      user := verified;
      calls := [];
      if verified.None? {
        calls := calls + [NextCall(Some(AuthFailed))];
      }
      calls := calls + [NextCall(None)];
    }

    /**
     * The middleware as evidently intended: read the standard header and
     * stop after forwarding the 403 error, so the continuation runs once.
     */
    method AuthenticateIntended(verifyToken: Option<string> -> Option<User>) returns (calls: seq<NextCall>)
      modifies this
      ensures user == verifyToken(SelectToken(cookies, headers, IntendedHeaderKey))
      ensures |calls| == 1
      ensures calls[0].error.Some? <==> user.None?
      ensures user.None? ==> calls[0] == NextCall(Some(AuthFailed))
    {
      var token := Lookup(cookies, AuthCookie);
      var headerToken := Lookup(headers, IntendedHeaderKey);
      if !Truthy(token) && Truthy(headerToken) {
        token := SecondField(headerToken.value);
      }
      var verified := verifyToken(token);
      user := verified;
      if verified.None? {
        return [NextCall(Some(AuthFailed))];
      }
      calls := [NextCall(None)];
    }
  }

  // ---------------------------------------------------------------------------
  // Findings
  // ---------------------------------------------------------------------------

  /** As written: a standard `Authorization: Bearer <token>` header is never read. */
  lemma StandardHeaderIgnored(token: string)
    ensures SelectToken(map[], map[IntendedHeaderKey := "Bearer " + token], HeaderKey) == None
  {
  }

  /** As intended: the standard header's bearer token is the token verified. */
  lemma StandardHeaderAccepted(token: string)
    requires ' ' !in token
    ensures SelectToken(map[], map[IntendedHeaderKey := "Bearer " + token], IntendedHeaderKey) == Some(token)
  {
    BearerHeaderYieldsToken(map[IntendedHeaderKey := "Bearer " + token], IntendedHeaderKey, token);
  }

  /** As written: a signup or login failure without its own status answers 500, not 400. */
  lemma RejectedSignupAnswers500(err: HttpError, env: string)
    requires err.status.None?
    ensures App.FinalStatus(Signup(Err(err)), env) == Some(500)
    ensures Signup(Err(err)).statusSet == 400
  {
  }

  /** As intended: the failure carries status 400 itself, so the error handler keeps it. */
  function ForwardFailureIntended(err: HttpError): (o: Outcome<User>)
    ensures o.Forwarded? && o.statusSet == 400
    ensures o.error == err.(status := Some(400))
  {
    Forwarded(400, err.(status := Some(400)))
  }

  lemma IntendedRejectionAnswers400(err: HttpError, env: string)
    ensures App.FinalStatus(ForwardFailureIntended(err), env) == Some(400)
  {
  }
}
