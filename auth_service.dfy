/** The auth service (src/services/auth.service.js): sign-up, log-in, token refresh
    and log-out over the user collection. bcrypt and jsonwebtoken are parameters:
    `hash` and `compare` stand for bcrypt, `sign` for `jwt.sign`. */
module AuthService {
  import opened Wrappers
  import opened Js
  import opened Store

  const AllFieldsRequired := "All fields are required"
  const EmailTaken := "Email already registered"
  const ShortPassword := "Password must be at least 6 characters"
  const SecretsMissing := "JWT secrets are not configured"
  const BadCredentials := "Invalid email or password"
  const BadRefreshToken := "Invalid refresh token"
  const UserNotFound := "User not found"
  const LoggedOut := "Logged out successfully"

  /** A thrown JavaScript error: its `name`, `message`, `code` and, for a mongoose
      ValidationError, the messages of `error.errors` in order. */
  datatype JsError = JsError(name: string, message: string, code: Value, errors: seq<string>)

  /** `new Error(message)` */
  function NewError(message: string): JsError
  {
    JsError("Error", message, Undefined, [])
  }

  function TypeError(message: string): JsError
  {
    JsError("TypeError", message, Undefined, [])
  }

  /** A call that returns a value or throws. */
  datatype Outcome<+T> = Returned(value: T) | Threw(error: JsError)

  /** `config.jwt` */
  datatype JwtConfig = JwtConfig(secret: Value, refreshSecret: Value, expiresIn: Value, refreshExpiresIn: Value)

  datatype Secrets = Secrets(accessTokenSecret: Value, refreshTokenSecret: Value)

  /** Lines 6-12. */
  function GetTokenSecrets(c: JwtConfig): (r: Outcome<Secrets>)
    ensures r.Returned? <==> Truthy(c.secret) && Truthy(c.refreshSecret)
    ensures r.Threw? ==> r.error == NewError(SecretsMissing)
    ensures r.Returned? ==> r.value.accessTokenSecret == c.secret && r.value.refreshTokenSecret == c.refreshSecret
  {
    if !Truthy(c.secret) || !Truthy(c.refreshSecret) then Threw(NewError(SecretsMissing))
    else Returned(Secrets(c.secret, c.refreshSecret))
  }

  /** `{ userId: user._id.toString(), role: user.role }` */
  datatype TokenPayload = TokenPayload(userId: string, role: string)

  datatype Tokens = Tokens(accessToken: string, refreshToken: string)

  /** A user document (src/models/User.js); `password` holds the bcrypt hash. */
  datatype UserDoc = UserDoc(id: string, name: string, email: string, password: string, role: string,
                             phone: Option<string>, addresses: seq<Value>, isVerified: bool)

  /** Lines 14-20: both tokens carry the same payload; the access token is signed
      with the access secret and its lifetime, the refresh token with the refresh
      secret and its lifetime. */
  function CreateTokens(c: JwtConfig, sign: (TokenPayload, Value, Value) -> string, u: UserDoc): (r: Outcome<Tokens>)
    ensures r.Returned? <==> Truthy(c.secret) && Truthy(c.refreshSecret)
    ensures r.Threw? ==> r.error == NewError(SecretsMissing)
    ensures r.Returned? ==>
      && r.value.accessToken == sign(TokenPayload(u.id, u.role), c.secret, c.expiresIn)
      && r.value.refreshToken == sign(TokenPayload(u.id, u.role), c.refreshSecret, c.refreshExpiresIn)
  {
    match GetTokenSecrets(c)
    case Threw(e) => Threw(e)
    case Returned(s) =>
      var payload := TokenPayload(u.id, u.role);
      Returned(Tokens(sign(payload, s.accessTokenSecret, c.expiresIn),
                      sign(payload, s.refreshTokenSecret, c.refreshExpiresIn)))
  }

  /** `email.trim().toLowerCase()` */
  function NormalizeEmail(email: string): string
  {
    Lower(Trim(email))
  }

  /** Lower-casing a lower-cased text changes nothing. */
  lemma LowerIdempotent(s: string)
    ensures Lower(Lower(s)) == Lower(s)
  {
    var l := Lower(s);
    assert forall k :: 0 <= k < |l| ==> Lower(l)[k] == LowerChar(l[k]) == l[k];
  }

  /** Lower-casing a trimmed text leaves it trimmed: no letter becomes white space. */
  lemma LowerKeepsTrimmed(t: string)
    requires Trim(t) == t
    ensures Trim(Lower(t)) == Lower(t)
  {
    var l := Lower(t);
    if t != [] {
      TrimIsSlice(t);
      assert l[0] == LowerChar(t[0]) && l[|l| - 1] == LowerChar(t[|t| - 1]);
      TrimUnpadded(l);
    } else {
      assert TrimStart(l) == l;
    }
  }

  /** Normalising a normalised address changes nothing, so the stored address and
      every later lookup of it agree. */
  lemma NormalizeIdempotent(email: string)
    ensures NormalizeEmail(NormalizeEmail(email)) == NormalizeEmail(email)
  {
    var t := Trim(email);
    TrimIdempotent(email);
    LowerKeepsTrimmed(t);
    LowerIdempotent(t);
  }

  /** `password.length`: a string's or an array's length, an object's own
      `length` property, and `undefined` for a number or a boolean. */
  function LengthOf(password: Value): Value
  {
    match password
    case Str(s) => Num(|s|)
    case Arr(es) => Num(|es|)
    case Obj(fields) => Lookup(fields, "length")
    case _ => Undefined
  }

  predicate IsDecimal(t: string)
  {
    t != [] && forall k :: 0 <= k < |t| ==> IsDigit(t[k])
  }

  /** `Number(s)` for a string: white space around it is ignored, the empty text
      is 0, an optionally signed run of decimal digits is its value, and anything
      else is `NaN` (`None`). */
  function StringToNumber(s: string): Option<int>
  {
    var t := Trim(s);
    if t == "" then Some(0)
    else if IsDecimal(t) then Some(DigitsValue(t))
    else if |t| > 1 && t[0] == '-' && IsDecimal(t[1..]) then Some(-(DigitsValue(t[1..]) as int))
    else if |t| > 1 && t[0] == '+' && IsDecimal(t[1..]) then Some(DigitsValue(t[1..]))
    else None
  }

  /** A printed count reads back as that count. */
  lemma StringToNumberOfNatToStr(n: nat)
    ensures StringToNumber(NatToStr(n)) == Some(n)
  {
    var d := NatToStr(n);
    assert !IsSpace(d[0]) && !IsSpace(d[|d| - 1]);
    TrimUnpadded(d);
    DigitsValueOfNatToStr(n);
  }

  /** `Number(v)`, which `<` applies to a non-string operand compared with a
      number: `None` is `NaN`, which is never below anything. An array converts
      through its joined text, a plain object to `NaN`. */
  function ToNumber(v: Value): Option<int>
  {
    match v
    case Undefined => None
    case Null => Some(0)
    case Bool(b) => Some(if b then 1 else 0)
    case Num(n) => Some(n)
    case Str(s) => StringToNumber(s)
    case Arr(_) => StringToNumber(ToStr(v))
    case Obj(_) => None
  }

  /** `password.length < 6` */
  predicate TooShort(password: Value)
  {
    var n := ToNumber(LengthOf(password));
    n.Some? && n.value < 6
  }

  /** A string or an array is short exactly when it has fewer than six elements. */
  lemma ShortIsFewerThanSix(password: Value)
    requires password.Str? || password.Arr?
    ensures TooShort(password) <==> (if password.Str? then |password.s| else |password.elems|) < 6
  {
  }

  /** Objects whose `length` is `null` or `true` are short, since these convert
      to 0 and 1. */
  lemma ObjectLengthCoerced()
    ensures TooShort(Obj(map["length" := Null]))
    ensures TooShort(Obj(map["length" := Bool(true)]))
  {
  }

  /** An object whose `length` is an empty array is short: the array's text is
      empty, which converts to 0. */
  lemma ObjectLengthEmptyArray()
    ensures TooShort(Obj(map["length" := Arr([])]))
  {
    var e: seq<Value> := [];
    assert LengthOf(Obj(map["length" := Arr(e)])) == Arr(e);
    EmptyArrayIsZero();
  }

  lemma EmptyArrayIsZero()
    ensures ToNumber(Arr([])) == Some(0)
  {
    var e: seq<Value> := [];
    assert ToStr(Arr(e)) == "" by { assert ToStr(Arr(e)) == JoinComma([]); }
    assert StringToNumber("") == Some(0) by { assert Trim("") == ""; }
  }

  /** An object whose `length` is a count written as text compares as that
      count. */
  lemma ObjectLengthText(n: nat)
    ensures TooShort(Obj(map["length" := Str(NatToStr(n))])) <==> n < 6
  {
    StringToNumberOfNatToStr(n);
    assert LengthOf(Obj(map["length" := Str(NatToStr(n))])) == Str(NatToStr(n));
  }

  /** An object with no `length`, or one whose `length` is text that is not a
      number, is never too short: `NaN < 6` is false. */
  lemma ObjectLengthNaN()
    ensures !TooShort(Obj(map[]))
    ensures !TooShort(Obj(map["length" := Str("six")]))
  {
    assert StringToNumber("six").None? by {
      assert Trim("six") == "six" by { TrimUnpadded("six"); }
      assert !IsDigit("six"[0]) && "six"[0] != '-' && "six"[0] != '+';
    }
  }

  /** What the sign-up checks pass on: the raw name, the normalised email and the
      raw password. */
  datatype Credentials = Credentials(name: Value, email: string, password: Value)

  /** Lines 24-40: the checks before anything is written, in the source's order.
      `registered` is the set of stored email addresses. */
  function CheckSignup(body: Value, registered: set<string>): (r: Outcome<Credentials>)
    ensures (body.Undefined? || body.Null?) ==> r.Threw? && r.error.name == "TypeError"
    ensures !(body.Undefined? || body.Null?) ==>
      var name, email, password := Get(body, "name"), Get(body, "email"), Get(body, "password");
      && (!(Truthy(name) && Truthy(email) && Truthy(password)) ==> r == Threw(NewError(AllFieldsRequired)))
      && (Truthy(name) && Truthy(email) && Truthy(password) && email.Str? ==>
            && (NormalizeEmail(email.s) in registered ==> r == Threw(NewError(EmailTaken)))
            && (NormalizeEmail(email.s) !in registered && TooShort(password) ==> r == Threw(NewError(ShortPassword)))
            && (NormalizeEmail(email.s) !in registered && !TooShort(password) ==>
                  r == Returned(Credentials(name, NormalizeEmail(email.s), password))))
      && (Truthy(name) && Truthy(email) && Truthy(password) && !email.Str? ==> r.Threw? && r.error.name == "TypeError")
    ensures r.Returned? ==>
      && Get(body, "email").Str? && r.value.email == NormalizeEmail(Get(body, "email").s)
      && r.value.email !in registered && r.value.name == Get(body, "name") && r.value.password == Get(body, "password")
  {
    if body.Undefined? || body.Null? then
      Threw(TypeError("Cannot destructure property 'name' of 'body' as it is " + ToStr(body) + "."))
    else
      var name, email, password := Get(body, "name"), Get(body, "email"), Get(body, "password");
      if !Truthy(name) || !Truthy(email) || !Truthy(password) then Threw(NewError(AllFieldsRequired))
      else if !email.Str? then Threw(TypeError("email.trim is not a function"))
      else
        var normalized := NormalizeEmail(email.s);
        if normalized in registered then Threw(NewError(EmailTaken))
        else if TooShort(password) then Threw(NewError(ShortPassword))
        else Returned(Credentials(name, normalized, password))
  }

  /** A registered address is refused before the password is looked at. */
  lemma EmailCheckedBeforePassword(body: Value, registered: set<string>)
    requires body.Obj? && Truthy(Get(body, "name")) && Truthy(Get(body, "password"))
    requires Get(body, "email").Str? && Get(body, "email").s != ""
    requires NormalizeEmail(Get(body, "email").s) in registered
    ensures CheckSignup(body, registered) == Threw(NewError(EmailTaken))
  {
  }

  const SignupKnown: seq<string> := [AllFieldsRequired, EmailTaken, ShortPassword, SecretsMissing]

  /** `arr.join(sep)` */
  function JoinWith(parts: seq<string>, sep: string): string
  {
    if parts == [] then "" else if |parts| == 1 then parts[0] else parts[0] + sep + JoinWith(parts[1..], sep)
  }

  /** Lines 55-67: the sign-up catch block. */
  function CatchSignup(e: JsError): (r: JsError)
    ensures e.message in SignupKnown ==> r == e
    ensures e.message !in SignupKnown && e.name == "ValidationError" ==> r == NewError(JoinWith(e.errors, ", "))
    ensures e.message !in SignupKnown && e.name != "ValidationError" && e.code == Num(11000) ==> r == NewError(EmailTaken)
    ensures e.message !in SignupKnown && e.name != "ValidationError" && e.code != Num(11000) ==> r == e
  {
    if e.message != "" && e.message in SignupKnown then e
    else if e.name == "ValidationError" then NewError(JoinWith(e.errors, ", "))
    else if e.code == Num(11000) then NewError(EmailTaken)
    else e
  }

  /** Every error the checks raise reaches the caller as it was thrown. */
  lemma CatchKeepsCheckErrors(body: Value, registered: set<string>)
    requires CheckSignup(body, registered).Threw?
    ensures CatchSignup(CheckSignup(body, registered).error) == CheckSignup(body, registered).error
  {
  }

  /** Mapping an error a second time changes nothing: whatever the catch rethrows
      is already in its final form. */
  lemma CatchSignupIdempotent(e: JsError)
    ensures CatchSignup(CatchSignup(e)) == CatchSignup(e)
  {
  }

  /** `User.create({ name: name.trim(), email, password })` with the schema's defaults. */
  function NewUser(id: string, name: string, email: string, password: string): UserDoc
  {
    UserDoc(id, name, email, password, "USER", None, [], false)
  }

  /** Lines 24-48: the user sign-up creates, or the error that stops it. `hash` is
      `bcrypt.hash(password, 10)`, `create` the outcome of `User.create` (a
      validation or duplicate-key error, or none). */
  function SignupUser(registered: set<string>, body: Value, hash: Value -> Outcome<string>,
                      create: UserDoc -> Option<JsError>, newId: string): (r: Outcome<UserDoc>)
    ensures r.Returned? ==>
      var c := CheckSignup(body, registered);
      && c.Returned? && c.value.name.Str?
      && r.value.email == c.value.email && r.value.email !in registered
      && r.value.name == Trim(c.value.name.s)
      && hash(c.value.password) == Returned(r.value.password)
      && r.value.id == newId && r.value.role == "USER"
      && create(r.value).None?
    ensures CheckSignup(body, registered).Threw? ==> r == Threw(CheckSignup(body, registered).error)
  {
    match CheckSignup(body, registered)
    case Threw(e) => Threw(e)
    case Returned(c) =>
      match hash(c.password)
      case Threw(e) => Threw(e)
      case Returned(hashed) =>
        if !c.name.Str? then Threw(TypeError("name.trim is not a function"))
        else
          var user := NewUser(newId, Trim(c.name.s), c.email, hashed);
          match create(user)
          case Some(e) => Threw(e)
          case None => Returned(user)
  }

  /** `user.toObject()` without the timestamps and version key. */
  function ToObject(u: UserDoc): Value
  {
    var fields := map["_id" := Str(u.id), "name" := Str(u.name), "email" := Str(u.email),
                      "password" := Str(u.password), "role" := Str(u.role),
                      "addresses" := Arr(u.addresses), "isVerified" := Bool(u.isVerified)];
    Obj(if u.phone.Some? then fields["phone" := Str(u.phone.value)] else fields)
  }

  /** Lines 50-51: the user object with its `password` deleted. */
  function PublicUser(u: UserDoc): (r: Value)
    ensures r.Obj? && "password" !in r.fields
    ensures r.fields.Keys == ToObject(u).fields.Keys - {"password"}
    ensures forall k :: k in r.fields ==> r.fields[k] == ToObject(u).fields[k]
  {
    Obj(ToObject(u).fields - {"password"})
  }

  datatype Session = Session(user: Value, accessToken: string, refreshToken: string)

  /** The user collection. */
  class Users {
    var docs: seq<UserDoc>

    /** The unique indexes: one document per id and per email address; every
        address is stored normalised (the schema's trim and lowercase setters). */
    ghost predicate Valid()
      reads this
    {
      && (forall i, j :: 0 <= i < j < |docs| ==> docs[i].email != docs[j].email && docs[i].id != docs[j].id)
      && (forall i :: 0 <= i < |docs| ==> NormalizeEmail(docs[i].email) == docs[i].email)
    }

    constructor ()
      ensures docs == [] && Valid()
    {
      docs := [];
    }

    function Emails(): (s: set<string>)
      reads this
      ensures forall e :: e in s <==> exists i :: 0 <= i < |docs| && docs[i].email == e
    {
      set i | 0 <= i < |docs| :: docs[i].email
    }

    function UserIds(): set<string>
      reads this
    {
      set i | 0 <= i < |docs| :: docs[i].id
    }

    /** `User.findOne({ email })` */
    function FindByEmail(email: string): (r: Option<UserDoc>)
      reads this
      ensures r.Some? <==> email in Emails()
      ensures r.Some? ==> r.value.email == email && r.value in docs
    {
      FindIn(docs, ByEmail, email)
    }

    /** `User.findById(id)` for an id as its ObjectId prints. */
    function FindById(id: string): (r: Option<UserDoc>)
      reads this
      ensures r.Some? <==> id in UserIds()
      ensures r.Some? ==> r.value.id == id && r.value in docs
    {
      FindIn(docs, ById, id)
    }

    /** `User.create`'s write: the unique indexes hold for a new address and id. */
    method Register(u: UserDoc)
      requires Valid() && u.email !in Emails() && u.id !in UserIds() && NormalizeEmail(u.email) == u.email
      modifies this
      ensures docs == old(docs) + [u] && Valid()
    {
      forall i | 0 <= i < |docs| ensures docs[i].email != u.email && docs[i].id != u.id {
        assert docs[i].email in Emails();
        assert docs[i].id in UserIds();
      }
      docs := docs + [u];
    }

    /** Lines 22-68. The user is written before the tokens are made, so a missing
        JWT secret fails the call after the account exists. */
    method Signup(body: Value, hash: Value -> Outcome<string>, create: UserDoc -> Option<JsError>,
                  newId: string, jwt: JwtConfig, sign: (TokenPayload, Value, Value) -> string)
      returns (r: Outcome<Session>)
      requires Valid() && newId !in UserIds()
      modifies this
      ensures Valid()
      ensures match SignupUser(old(Emails()), body, hash, create, newId)
              case Threw(e) => r == Threw(CatchSignup(e)) && docs == old(docs)
              case Returned(u) =>
                && docs == old(docs) + [u]
                && match CreateTokens(jwt, sign, u)
                   case Threw(e) => r == Threw(CatchSignup(e))
                   case Returned(t) => r == Returned(Session(PublicUser(u), t.accessToken, t.refreshToken))
    {
      var made := SignupUser(Emails(), body, hash, create, newId);
      if made.Threw? {
        return Threw(CatchSignup(made.error));
      }
      var user := made.value;
      NormalizeIdempotent(Get(body, "email").s);
      Register(user);
      var tokens := CreateTokens(jwt, sign, user);
      if tokens.Threw? {
        return Threw(CatchSignup(tokens.error));
      }
      r := Returned(Session(PublicUser(user), tokens.value.accessToken, tokens.value.refreshToken));
    }

    /** Lines 70-98; the catch block rethrows every error unchanged. */
    function Login(body: Value, compare: (Value, string) -> bool, jwt: JwtConfig,
                   sign: (TokenPayload, Value, Value) -> string): (r: Outcome<Session>)
      reads this
      ensures (body.Undefined? || body.Null?) ==> r.Threw? && r.error.name == "TypeError"
      ensures !(body.Undefined? || body.Null?) && !(Truthy(Get(body, "email")) && Truthy(Get(body, "password")))
              ==> r == Threw(NewError(AllFieldsRequired))
      ensures !(body.Undefined? || body.Null?) && Truthy(Get(body, "password")) && Get(body, "email").Str?
              && Get(body, "email").s != "" ==>
        var found := FindByEmail(NormalizeEmail(Get(body, "email").s));
        && ((found.None? || !compare(Get(body, "password"), found.value.password))
              <==> r == Threw(NewError(BadCredentials)))
        && (found.Some? && compare(Get(body, "password"), found.value.password) ==>
              match CreateTokens(jwt, sign, found.value)
              case Threw(e) => r == Threw(e)
              case Returned(t) =>
                r == Returned(Session(Obj(map["name" := Str(found.value.name), "role" := Str(found.value.role),
                                              "email" := Str(found.value.email)]),
                                      t.accessToken, t.refreshToken)))
    {
      if body.Undefined? || body.Null? then
        Threw(TypeError("Cannot destructure property 'email' of 'body' as it is " + ToStr(body) + "."))
      else
        var email, password := Get(body, "email"), Get(body, "password");
        if !Truthy(email) || !Truthy(password) then Threw(NewError(AllFieldsRequired))
        else if !email.Str? then Threw(TypeError("email.trim is not a function"))
        else
          match FindByEmail(NormalizeEmail(email.s))
          case None => Threw(NewError(BadCredentials))
          case Some(u) =>
            if !compare(password, u.password) then Threw(NewError(BadCredentials))
            else
              match CreateTokens(jwt, sign, u)
              case Threw(e) => Threw(e)
              case Returned(t) =>
                Returned(Session(Obj(map["name" := Str(u.name), "role" := Str(u.role), "email" := Str(u.email)]),
                                 t.accessToken, t.refreshToken))
    }

    /** Lines 99-117: `refreshUser?.id`, then `User.findById`; an id that is not
        an ObjectId makes the lookup throw a CastError. */
    function RefreshAccessToken(ids: Ids, refreshUser: Value, jwt: JwtConfig,
                                sign: (TokenPayload, Value, Value) -> string): (r: Outcome<Tokens>)
      reads this
      ensures var userId := if refreshUser.Undefined? || refreshUser.Null? then Undefined else Get(refreshUser, "id");
        && (!Truthy(userId) ==> r == Threw(NewError(BadRefreshToken)))
        && (Truthy(userId) && ids.isValid(userId) ==>
              match FindById(ids.canon(userId))
              case None => r == Threw(NewError(BadRefreshToken))
              case Some(u) => r == CreateTokens(jwt, sign, u))
        && (Truthy(userId) && !ids.isValid(userId) ==> r.Threw? && r.error.name == "CastError")
    {
      var userId := if refreshUser.Undefined? || refreshUser.Null? then Undefined else Get(refreshUser, "id");
      if !Truthy(userId) then Threw(NewError(BadRefreshToken))
      else if !ids.isValid(userId) then
        Threw(JsError("CastError", "Cast to ObjectId failed for value \"" + ToStr(userId) + "\" at path \"_id\" for model \"User\"",
                      Undefined, []))
      else
        match FindById(ids.canon(userId))
        case None => Threw(NewError(BadRefreshToken))
        case Some(u) => CreateTokens(jwt, sign, u)
    }
  }

  /** The two unique keys a user is looked up by. */
  datatype UserKey = ByEmail | ById

  function KeyOf(u: UserDoc, field: UserKey): string
  {
    match field
    case ByEmail => u.email
    case ById => u.id
  }

  /** The first stored user whose `field` is `key`. */
  function FindIn(docs: seq<UserDoc>, field: UserKey, key: string): (r: Option<UserDoc>)
    ensures r.Some? <==> exists i :: 0 <= i < |docs| && KeyOf(docs[i], field) == key
    ensures r.Some? ==> KeyOf(r.value, field) == key && r.value in docs
  {
    if docs == [] then None
    else if KeyOf(docs[0], field) == key then Some(docs[0])
    else
      var r := FindIn(docs[1..], field, key);
      assert forall i :: 1 <= i < |docs| ==> docs[i] == docs[1..][i - 1];
      r
  }

  /** An address differing only in case or surrounding white space from a stored
      one is refused as already registered. */
  lemma SignupEmailCaseInsensitive(users: Users, body: Value, stored: string)
    requires users.Valid() && stored in users.Emails()
    requires body.Obj? && Truthy(Get(body, "name")) && Truthy(Get(body, "password"))
    requires Get(body, "email").Str? && Get(body, "email").s != ""
    requires NormalizeEmail(Get(body, "email").s) == NormalizeEmail(stored)
    ensures CheckSignup(body, users.Emails()) == Threw(NewError(EmailTaken))
  {
    var i :| 0 <= i < |users.docs| && users.docs[i].email == stored;
    assert NormalizeEmail(stored) == stored;
    assert NormalizeEmail(Get(body, "email").s) in users.Emails();
    EmailCheckedBeforePassword(body, users.Emails());
  }

  /** Lines 119-124. */
  function Logout(userId: Value): (r: Outcome<Value>)
    ensures r.Threw? <==> !Truthy(userId)
    ensures r.Threw? ==> r.error == NewError(UserNotFound)
    ensures r.Returned? ==> r.value == Obj(map["message" := Str(LoggedOut)])
  {
    if !Truthy(userId) then Threw(NewError(UserNotFound))
    else Returned(Obj(map["message" := Str(LoggedOut)]))
  }
}
