/** The server's authentication middleware: picks a token from the cookie or
    the Authorization header, verifies it, derives the user id and checks that
    the user still exists. */
module AuthMiddleware {

  import opened Wrappers
  import opened Text

  /** A decoded token payload: claim name to value; an absent claim is
      `undefined`, the empty string is falsy. */
  type Payload = map<string, string>

  datatype AuthOutcome = Rejected | Accepted(user: Payload)

  predicate Truthy(v: Option<string>) {
    v.Some? && v.value != ""
  }

  /** The claim `name`, if present. */
  function Claim(p: Payload, name: string): (v: Option<string>)
    ensures v.Some? <==> name in p
    ensures v.Some? ==> v.value == p[name]
  {
    if name in p then Some(p[name]) else None
  }

  /** `header.toLowerCase().startsWith("bearer ")`. Only ASCII letters and the
      space lower-case to the characters of "bearer ", so lowering ASCII is enough. */
  predicate HasBearerPrefix(h: string) {
    |h| >= 7 && forall i :: 0 <= i < 7 ==> LowerAscii(h[i]) == "bearer "[i]
  }

  /** The bearer token: the header from index 7 on, when it starts with
      "bearer " in any letter case. */
  function BearerToken(authorization: Option<string>): (t: Option<string>)
    ensures t.Some? <==> authorization.Some? && HasBearerPrefix(authorization.value)
    ensures t.Some? ==> authorization.value == authorization.value[..7] + t.value
  {
    if authorization.Some? && HasBearerPrefix(authorization.value) then Some(authorization.value[7..]) else None
  }

  /** `cookieToken || bearerToken`. */
  function Token(cookie: Option<string>, authorization: Option<string>): (t: Option<string>)
    ensures Truthy(cookie) ==> t == cookie
    ensures !Truthy(cookie) ==> t == BearerToken(authorization)
  {
    if Truthy(cookie) then cookie else BearerToken(authorization)
  }

  /** `decoded.id || decoded._id`. */
  function UserId(p: Payload): (id: Option<string>)
    ensures Truthy(Claim(p, "id")) ==> id == Claim(p, "id")
    ensures !Truthy(Claim(p, "id")) ==> id == Claim(p, "_id")
  {
    if Truthy(Claim(p, "id")) then Claim(p, "id") else Claim(p, "_id")
  }

  /** The middleware. `verify` stands for checking the signature with the
      server's secret: `None` when it throws. `users` are the ids of existing
      accounts. Every rejection is a 401 "Unauthorized". */
  function Authenticate(cookie: Option<string>, authorization: Option<string>,
                        verify: string -> Option<Payload>, users: set<string>): (o: AuthOutcome)
    ensures o.Accepted? <==>
      && Truthy(Token(cookie, authorization))
      && verify(Token(cookie, authorization).value).Some?
      && Truthy(UserId(verify(Token(cookie, authorization).value).value))
      && UserId(verify(Token(cookie, authorization).value).value).value in users
    ensures o.Accepted? ==>
      var decoded := verify(Token(cookie, authorization).value).value;
      && o.user.Keys == decoded.Keys + {"id"}
      && o.user["id"] == UserId(decoded).value
      && o.user["id"] in users
      && (forall k :: k in decoded && k != "id" ==> o.user[k] == decoded[k])
  {
    var token := Token(cookie, authorization);
    if !Truthy(token) then Rejected
    else
      match verify(token.value)
      case None => Rejected
      case Some(decoded) =>
        var userId := UserId(decoded);
        if !Truthy(userId) then Rejected
        else if userId.value !in users then Rejected
        else Accepted(decoded["id" := userId.value])
  }
}

/** What the middleware accepts and what it hands on. */
module AuthMiddlewareProperties {

  import opened Wrappers
  import opened AuthMiddleware
  import opened Text

  /** A non-empty cookie token is used whatever the header says. */
  lemma CookieTakesPrecedence(c: string, h1: Option<string>, h2: Option<string>,
                              verify: string -> Option<Payload>, users: set<string>)
    requires c != ""
    ensures Authenticate(Some(c), h1, verify, users) == Authenticate(Some(c), h2, verify, users)
    ensures Token(Some(c), h1) == Some(c)
  {
  }

  /** Only the ASCII case of the first seven characters is ignored: two headers
      that agree there after lower-casing, and agree from index 7 on, carry the
      same bearer token, present in both or absent from both. */
  lemma BearerIgnoresCase(a: string, b: string)
    requires |a| >= 7 && |b| >= 7
    requires forall i :: 0 <= i < 7 ==> LowerAscii(a[i]) == LowerAscii(b[i])
    requires a[7..] == b[7..]
    ensures BearerToken(Some(a)) == BearerToken(Some(b))
    ensures HasBearerPrefix(a) <==> HasBearerPrefix(b)
  {
  }

  /** Examples: the prefix in mixed case, an empty token, another scheme and a
      header without the space. */
  lemma BearerExamples()
    ensures BearerToken(Some("BeArEr abc")) == Some("abc")
    ensures BearerToken(Some("Bearer ")) == Some("")
    ensures BearerToken(Some("Token abc")) == None
    ensures BearerToken(Some("Bearer")) == None
  {
    assert HasBearerPrefix("BeArEr abc");
    assert "BeArEr abc"[7..] == "abc";
    assert HasBearerPrefix("Bearer ");
    assert !HasBearerPrefix("Token abc") by { assert LowerAscii("Token abc"[0]) != "bearer "[0]; }
  }

  /** Without a usable token the request is refused and verify is never consulted. */
  lemma NoTokenRejectedWithoutVerify(cookie: Option<string>, authorization: Option<string>,
                                     v1: string -> Option<Payload>, v2: string -> Option<Payload>,
                                     u1: set<string>, u2: set<string>)
    requires !Truthy(Token(cookie, authorization))
    ensures Authenticate(cookie, authorization, v1, u1) == Rejected
    ensures Authenticate(cookie, authorization, v1, u1) == Authenticate(cookie, authorization, v2, u2)
  {
  }
}

