/** The profile service (src/services/profile.service.js): reading a user's profile
    and updating the whitelisted fields of it. The database calls are parameters. */
module ProfileService {
  import opened Wrappers
  import opened Js

  const AllowedFields: seq<string> := ["name", "phone", "addresses"]
  const UserNotFound := "User not found"

  /** `.select('name email role phone addresses isVerified')`, with the `_id` the
      projection keeps by default. */
  const ProfileFields: seq<string> := ["_id", "name", "email", "role", "phone", "addresses", "isVerified"]

  /** The keys `Object.keys(body)` lists for a body that is not null or undefined:
      an object's own keys, the indices of an array or a string, none otherwise. */
  function OwnKeys(body: Value): set<string>
  {
    match body
    case Obj(fields) => fields.Keys
    case Arr(es) => set i | 0 <= i < |es| :: NatToStr(i)
    case Str(s) => set i | 0 <= i < |s| :: NatToStr(i)
    case _ => {}
  }

  /** `.filter(key => allowedFields.includes(key))` */
  function Allowed(keys: seq<string>): (r: seq<string>)
    ensures forall k :: k in r <==> k in keys && k in AllowedFields
  {
    if keys == [] then []
    else if keys[0] in AllowedFields then [keys[0]] + Allowed(keys[1..])
    else Allowed(keys[1..])
  }

  /** `.reduce((obj, key) => { obj[key] = body[key]; return obj; }, acc)` */
  function Copy(body: Value, keys: seq<string>, acc: map<string, Value>): map<string, Value>
  {
    if keys == [] then acc else Copy(body, keys[1..], acc[keys[0] := Get(body, keys[0])])
  }

  /** Lines 40-45: `keys` is `Object.keys(body)`. */
  function UpdateData(body: Value, keys: seq<string>): map<string, Value>
  {
    Copy(body, Allowed(keys), map[])
  }

  /** The fold adds every key it visits, with the body's value, to what it started from. */
  lemma {:induction false} CopyAdds(body: Value, keys: seq<string>, acc: map<string, Value>)
    ensures Copy(body, keys, acc).Keys == acc.Keys + set k | k in keys
    ensures forall k :: k in Copy(body, keys, acc) ==>
      Copy(body, keys, acc)[k] == if k in keys then Get(body, k) else acc[k]
  {
    if keys != [] {
      CopyAdds(body, keys[1..], acc[keys[0] := Get(body, keys[0])]);
    }
  }

  /** A decimal index is never one of the allowed field names. */
  lemma IndexNotAllowed(i: nat)
    ensures NatToStr(i) !in AllowedFields
  {
    var s := NatToStr(i);
    assert IsDigit(s[0]);
  }

  /** The update holds exactly the body's own keys among name, phone and addresses,
      each with the body's value, whatever order `Object.keys` lists them in:
      email, role, password and any other key never reach the database. */
  lemma UpdateDataIsWhitelist(body: Value, keys: seq<string>)
    requires forall k :: k in keys <==> k in OwnKeys(body)
    ensures UpdateData(body, keys).Keys == set k | k in OwnKeys(body) && k in AllowedFields
    ensures forall k :: k in UpdateData(body, keys) ==> UpdateData(body, keys)[k] == Get(body, k)
    ensures !body.Obj? ==> UpdateData(body, keys) == map[]
  {
    CopyAdds(body, Allowed(keys), map[]);
    if body.Arr? || body.Str? {
      forall k | k in OwnKeys(body) ensures k !in AllowedFields {
        var i :| 0 <= i && k == NatToStr(i);
        IndexNotAllowed(i);
      }
    }
  }

  /** `.select(...)` on the stored document: only the profile fields are kept, so
      the password hash never leaves the service. */
  function Select(doc: map<string, Value>): (r: map<string, Value>)
    ensures r.Keys == doc.Keys * set k | k in ProfileFields
    ensures "password" !in r
    ensures forall k :: k in r ==> r[k] == doc[k]
  {
    map k | k in doc && k in ProfileFields :: doc[k]
  }

  /** Lines 7-15: `findById` answers with the stored document or `null`. */
  function GetProfile(userId: Value, findById: Value -> Result<Option<map<string, Value>>>): (r: Result<map<string, Value>>)
    ensures findById(userId).Err? ==> r == Err(findById(userId).error)
    ensures findById(userId).Ok? ==>
      (r.Err? <==> findById(userId).value.None?)
      && (r.Err? ==> r == Err(Plain(UserNotFound)))
      && (r.Ok? ==> r.value == Select(findById(userId).value.value))
  {
    match findById(userId)
    case Err(e) => Err(e)
    case Ok(None) => Err(Plain(UserNotFound))
    case Ok(Some(doc)) => Ok(Select(doc))
  }

  /** Lines 37-56. `keys` is `Object.keys(body)`; `findByIdAndUpdate` applies an
      update (running the schema's validators) and answers with the updated
      document, `null` for an unknown user, or a validation error. */
  function UpdateProfile(userId: Value, body: Value, keys: seq<string>,
                         findByIdAndUpdate: (Value, map<string, Value>) -> Result<Option<map<string, Value>>>)
    : (r: Result<map<string, Value>>)
    requires body.Undefined? || body.Null? || forall k :: k in keys <==> k in OwnKeys(body)
    ensures body.Undefined? || body.Null? ==> r == Err(Plain("Cannot convert undefined or null to object"))
    ensures !(body.Undefined? || body.Null?) ==>
      var saved := findByIdAndUpdate(userId, UpdateData(body, keys));
      && (saved.Err? ==> r == Err(saved.error))
      && (saved == Ok(None) ==> r == Err(Plain(UserNotFound)))
      && (saved.Ok? && saved.value.Some? ==> r == Ok(Select(saved.value.value)))
  {
    if body.Undefined? || body.Null? then Err(Plain("Cannot convert undefined or null to object"))
    else
      match findByIdAndUpdate(userId, UpdateData(body, keys))
      case Err(e) => Err(e)
      case Ok(None) => Err(Plain(UserNotFound))
      case Ok(Some(doc)) => Ok(Select(doc))
  }
}
