/** The auth middlewares (src/middlewares/auth.middleware.js): reading a bearer
    token from the Authorization header, or a refresh token from the body or the
    header, checking it with `jwt.verify` and recording the caller on the request. */
module AuthMiddleware {
  import opened Wrappers
  import opened Js

  /** `s.split(sep)` for a one-character separator. */
  function Split(s: string, sep: char): (parts: seq<string>)
    ensures |parts| >= 1
  {
    if s == [] then [""]
    else
      var rest := Split(s[1..], sep);
      if s[0] == sep then [""] + rest else [[s[0]] + rest[0]] + rest[1..]
  }

  /** `parts.join(sep)` */
  function Join(parts: seq<string>, sep: char): string
    requires |parts| >= 1
  {
    if |parts| == 1 then parts[0] else parts[0] + [sep] + Join(parts[1..], sep)
  }

  /** No piece of a split holds the separator. */
  lemma {:induction false} SplitPiecesFree(s: string, sep: char)
    ensures forall k :: 0 <= k < |Split(s, sep)| ==> sep !in Split(s, sep)[k]
  {
    if s != [] {
      SplitPiecesFree(s[1..], sep);
    }
  }

  /** Joining the pieces gives the text back. */
  lemma {:induction false} JoinSplit(s: string, sep: char)
    ensures Join(Split(s, sep), sep) == s
  {
    if s != [] {
      var rest := Split(s[1..], sep);
      JoinSplit(s[1..], sep);
      if s[0] == sep {
        assert Split(s, sep)[1..] == rest;
      } else if |rest| == 1 {
        assert Split(s, sep) == [[s[0]] + rest[0]];
      } else {
        assert Split(s, sep)[1..] == rest[1..];
        assert Join(rest, sep) == rest[0] + [sep] + Join(rest[1..], sep);
      }
    }
  }

  /** A prefix without the separator joins the first piece of what follows it. */
  lemma {:induction false} SplitAfterPlain(a: string, b: string, sep: char)
    requires sep !in a
    ensures Split(a + b, sep) == [a + Split(b, sep)[0]] + Split(b, sep)[1..]
  {
    var sb := Split(b, sep);
    if a == [] {
      assert a + b == b;
      assert a + sb[0] == sb[0];
      assert sb == [sb[0]] + sb[1..];
    } else {
      SplitAfterPlain(a[1..], b, sep);
      assert (a + b)[1..] == a[1..] + b;
      assert (a + b)[0] == a[0] != sep;
      var rest := Split(a[1..] + b, sep);
      assert rest == [a[1..] + sb[0]] + sb[1..];
      assert Split(a + b, sep) == [[a[0]] + rest[0]] + rest[1..];
      assert [a[0]] + (a[1..] + sb[0]) == a + sb[0];
    }
  }

  /** Splitting joined pieces that hold no separator gives the pieces back. */
  lemma {:induction false} SplitJoin(parts: seq<string>, sep: char)
    requires |parts| >= 1 && forall k :: 0 <= k < |parts| ==> sep !in parts[k]
    ensures Split(Join(parts, sep), sep) == parts
  {
    if |parts| == 1 {
      SplitAfterPlain(parts[0], "", sep);
      assert parts[0] + "" == parts[0];
    } else {
      var tail := Join(parts[1..], sep);
      SplitJoin(parts[1..], sep);
      assert Split([sep] + tail, sep) == [""] + parts[1..];
      SplitAfterPlain(parts[0], [sep] + tail, sep);
      assert parts[0] + [sep] + tail == parts[0] + ([sep] + tail);
      assert parts[0] + "" == parts[0];
      assert [parts[0]] + parts[1..] == parts;
    }
  }

  /** `const [scheme, token] = (authorization || '').split(' ')`: the first two
      pieces, the second `undefined` when there is none. */
  function Header(authorization: Option<string>): string
  {
    if authorization.Some? then authorization.value else ""
  }

  function Scheme(authorization: Option<string>): string
  {
    Split(Header(authorization), ' ')[0]
  }

  function SecondPiece(authorization: Option<string>): Value
  {
    var parts := Split(Header(authorization), ' ');
    if |parts| > 1 then Str(parts[1]) else Undefined
  }

  /** Lines 5-10: the token, when the scheme is exactly `Bearer` and a non-empty
      token follows its single space. */
  function BearerToken(authorization: Option<string>): Option<string>
  {
    var token := SecondPiece(authorization);
    if Scheme(authorization) == "Bearer" && Truthy(token) then Some(token.s) else None
  }

  /** A header that gives a bearer token reads `Bearer`, one space, the token,
      then nothing or a space and anything. */
  lemma BearerTokenShape(header: string)
    requires BearerToken(Some(header)).Some?
    ensures var t := BearerToken(Some(header)).value;
      t != "" && ' ' !in t &&
      exists rest :: header == "Bearer " + t + rest && (rest == "" || rest[0] == ' ')
  {
    var parts := Split(header, ' ');
    var t := parts[1];
    SplitPiecesFree(header, ' ');
    JoinSplit(header, ' ');
    var rest := if |parts| > 2 then [' '] + Join(parts[2..], ' ') else "";
    assert Join(parts, ' ') == "Bearer" + [' '] + Join(parts[1..], ' ');
    if |parts| > 2 {
      assert parts[1..][1..] == parts[2..];
      assert Join(parts[1..], ' ') == t + [' '] + Join(parts[2..], ' ');
    }
    assert header == "Bearer " + t + rest;
  }

  /** A piece free of the separator, cut off by the separator or the end, is the
      first piece of the split. */
  lemma FirstPiece(t: string, rest: string, sep: char)
    requires sep !in t && (rest == "" || rest[0] == sep)
    ensures Split(t + rest, sep)[0] == t
  {
    SplitAfterPlain(t, rest, sep);
    assert Split(rest, sep)[0] == "" by {
      if rest != "" {
        assert Split(rest, sep) == [""] + Split(rest[1..], sep);
      }
    }
    assert t + "" == t;
  }

  /** Two separator-free pieces joined by one separator open the split. */
  lemma FirstTwoPieces(a: string, t: string, rest: string, sep: char)
    requires sep !in a && sep !in t && (rest == "" || rest[0] == sep)
    ensures var parts := Split(a + [sep] + t + rest, sep); |parts| > 1 && parts[0] == a && parts[1] == t
  {
    var tail := [sep] + (t + rest);
    FirstPiece(t, rest, sep);
    assert Split(tail, sep) == [""] + Split(t + rest, sep);
    SplitAfterPlain(a, tail, sep);
    assert a + [sep] + t + rest == a + tail;
    assert a + "" == a;
  }

  /** Conversely, such a header gives exactly that token. */
  lemma BearerTokenOfShape(t: string, rest: string)
    requires t != "" && ' ' !in t && (rest == "" || rest[0] == ' ')
    ensures BearerToken(Some("Bearer " + t + rest)) == Some(t)
  {
    var bearer := "Bearer";
    assert ' ' !in bearer;
    FirstTwoPieces(bearer, t, rest, ' ');
    assert "Bearer " + t + rest == bearer + [' '] + t + rest;
  }

  /** The header yields token `t` exactly when it reads `Bearer`, one space, then
      `t` free of spaces, then nothing or a space and anything: a doubled space
      leaves the token empty, and anything after the token is ignored. */
  lemma BearerTokenIff(header: string, t: string)
    ensures BearerToken(Some(header)) == Some(t) <==>
      t != "" && ' ' !in t &&
      exists rest :: header == "Bearer " + t + rest && (rest == "" || rest[0] == ' ')
  {
    if BearerToken(Some(header)) == Some(t) {
      BearerTokenShape(header);
    }
    if t != "" && ' ' !in t && exists rest :: header == "Bearer " + t + rest && (rest == "" || rest[0] == ' ') {
      var rest :| header == "Bearer " + t + rest && (rest == "" || rest[0] == ' ');
      BearerTokenOfShape(t, rest);
    }
  }

  /** What `jwt.verify(token, secret)` does: return the decoded payload, or throw a
      TokenExpiredError or another error. */
  datatype Verified = Decoded(payload: Value) | Expired | Rejected

  /** What a middleware does with the request: pass it on, or answer it. */
  datatype Reply = Next | Respond(status: int, body: Value)

  function ErrorReply(message: string): Reply
  {
    Respond(401, Obj(map["status" := Str("error"), "message" := Str(message)]))
  }

  /** `{ id: decoded.userId, role: decoded.role }` */
  function Caller(payload: Value): (c: Value)
    ensures c.Obj? && c.fields.Keys == {"id", "role"}
    ensures c.fields["id"] == Get(payload, "userId") && c.fields["role"] == Get(payload, "role")
  {
    Obj(map["id" := Get(payload, "userId"), "role" := Get(payload, "role")])
  }

  /** `req.body?.refreshToken || (scheme === 'Bearer' ? bearerToken : null)` */
  function RefreshToken(body: Value, authorization: Option<string>): (t: Value)
    ensures var fromBody := if body.Undefined? || body.Null? then Undefined else Get(body, "refreshToken");
      && (Truthy(fromBody) ==> t == fromBody)
      && (!Truthy(fromBody) && Scheme(authorization) != "Bearer" ==> t == Null)
      && (!Truthy(fromBody) && Scheme(authorization) == "Bearer" ==> t == SecondPiece(authorization))
  {
    var fromBody := if body.Undefined? || body.Null? then Undefined else Get(body, "refreshToken");
    OrElse(fromBody, if Scheme(authorization) == "Bearer" then SecondPiece(authorization) else Null)
  }

  /** A refresh token in the body wins whatever the header says. */
  lemma BodyTokenWins(body: Value, a1: Option<string>, a2: Option<string>)
    requires body.Obj? && Truthy(Get(body, "refreshToken"))
    ensures RefreshToken(body, a1) == RefreshToken(body, a2) == Get(body, "refreshToken")
  {
  }

  /** The header supplies a refresh token only as a bearer token: without one in
      the body, the token found is the header's bearer token or nothing. */
  lemma HeaderTokenIsBearer(body: Value, authorization: Option<string>)
    requires !(body.Obj? && Truthy(Get(body, "refreshToken")))
    ensures Truthy(RefreshToken(body, authorization)) <==> BearerToken(authorization).Some?
    ensures BearerToken(authorization).Some? ==> RefreshToken(body, authorization) == Str(BearerToken(authorization).value)
  {
  }

  /** The process environment the middlewares read. */
  datatype Env = Env(jwtSecret: Value, jwtRefreshSecret: Value)

  /** `process.env.JWT_REFRESH_SECRET || process.env.JWT_SECRET` */
  function RefreshSecret(env: Env): (s: Value)
    ensures Truthy(env.jwtRefreshSecret) ==> s == env.jwtRefreshSecret
    ensures !Truthy(env.jwtRefreshSecret) ==> s == env.jwtSecret
  {
    OrElse(env.jwtRefreshSecret, env.jwtSecret)
  }

  /** The parts of an Express request the middlewares read and write. */
  class Request {
    var authorization: Option<string>
    var body: Value
    var user: Value
    var refreshUser: Value
    var refreshToken: Value

    constructor (authorization: Option<string>, body: Value)
      ensures this.authorization == authorization && this.body == body
      ensures user == Undefined && refreshUser == Undefined && refreshToken == Undefined
    {
      this.authorization := authorization;
      this.body := body;
      user := Undefined;
      refreshUser := Undefined;
      refreshToken := Undefined;
    }
  }

  /** Lines 3-18. `verify` is `jwt.verify`. */
  method Authenticate(req: Request, env: Env, verify: (Value, Value) -> Verified) returns (reply: Reply)
    modifies req
    ensures req.authorization == old(req.authorization) && req.body == old(req.body)
    ensures req.refreshUser == old(req.refreshUser) && req.refreshToken == old(req.refreshToken)
    ensures match BearerToken(req.authorization)
            case None => reply == ErrorReply("Unauthorized") && req.user == old(req.user)
            case Some(t) =>
              match verify(Str(t), env.jwtSecret)
              case Decoded(p) => reply == Next && req.user == Caller(p)
              case _ => reply == ErrorReply("Invalid or expired token") && req.user == old(req.user)
  {
    var token := BearerToken(req.authorization);
    if token.None? {
      return ErrorReply("Unauthorized");
    }
    var decoded := verify(Str(token.value), env.jwtSecret);
    if !decoded.Decoded? {
      return ErrorReply("Invalid or expired token");
    }
    req.user := Caller(decoded.payload);
    reply := Next;
  }

  /** Lines 19-42. */
  method RefreshTokenMiddleware(req: Request, env: Env, verify: (Value, Value) -> Verified) returns (reply: Reply)
    modifies req
    ensures req.authorization == old(req.authorization) && req.body == old(req.body) && req.user == old(req.user)
    ensures var t := RefreshToken(req.body, req.authorization);
      if !Truthy(t) then
        reply == ErrorReply("Refresh token is required") && unchanged(req)
      else
        match verify(t, RefreshSecret(env))
        case Decoded(p) => reply == Next && req.refreshUser == Caller(p) && req.refreshToken == t
        case Expired => reply == ErrorReply("Refresh token expired") && unchanged(req)
        case Rejected => reply == ErrorReply("Invalid refresh token") && unchanged(req)
  {
    var token := RefreshToken(req.body, req.authorization);
    if !Truthy(token) {
      return ErrorReply("Refresh token is required");
    }
    var decoded := verify(token, RefreshSecret(env));
    match decoded
    case Decoded(p) =>
      req.refreshUser := Caller(p);
      req.refreshToken := token;
      reply := Next;
    case Expired =>
      reply := ErrorReply("Refresh token expired");
    case Rejected =>
      reply := ErrorReply("Invalid refresh token");
  }
}
