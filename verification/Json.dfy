/**
 JSON documents as trees, and the codec for cached values
 (src/common/json_utils.h, and the list payload of ListUsers).
 */
module Json {
  import opened Prelude
  import opened Users
  import Decimal

  datatype Field = Field(key: string, value: Json)

  /** Object fields are kept in key order, as nlohmann::json keeps them. */
  datatype Json =
    | JNull
    | JBool(b: bool)
    | JInt(n: Decimal.int64)
    | JString(s: string)
    | JArray(items: seq<Json>)
    | JObject(fields: seq<Field>)

  function Get(fields: seq<Field>, key: string): Option<Json> {
    if fields == [] then None
    else if fields[0].key == key then Some(fields[0].value)
    else Get(fields[1..], key)
  }

  /** j.value(key, "..."): the default when missing, a throw on a wrong type or a non-object. */
  function StringAt(j: Json, key: string, default: string): Result<string> {
    if !j.JObject? then Thrown
    else match Get(j.fields, key)
      case None => Ok(default)
      case Some(v) => if v.JString? then Ok(v.s) else Thrown
  }

  /** j.value(key, int64). */
  function IntAt(j: Json, key: string, default: Decimal.int64): Result<Decimal.int64> {
    if !j.JObject? then Thrown
    else match Get(j.fields, key)
      case None => Ok(default)
      case Some(v) => if v.JInt? then Ok(v.n) else Thrown
  }

  function UserToJson(u: User): Json {
    JObject([Field("created_at", JInt(u.createdAt)), Field("email", JString(u.email)),
             Field("id", JString(u.id)), Field("name", JString(u.name))])
  }

  /** The user JsonToUser leaves behind when none of its four reads throws. */
  function DecodeUser(j: Json): Result<User> {
    match (StringAt(j, "id", ""), StringAt(j, "name", ""), StringAt(j, "email", ""), IntAt(j, "created_at", 0))
    case (Ok(id), Ok(name), Ok(email), Ok(createdAt)) => Ok(User(id, name, email, createdAt))
    case _ => Thrown
  }

  /** The `User*` that JsonToUser fills in. */
  class UserBuffer {
    var id: string
    var name: string
    var email: string
    var createdAt: Decimal.int64

    constructor ()
      ensures Contents() == User("", "", "", 0)
    {
      id, name, email, createdAt := "", "", "", 0;
    }

    function Contents(): User
      reads this
    {
      User(id, name, email, createdAt)
    }
  }

  /** Sets the fields one by one; a throw leaves the remaining fields as they were. */
  method JsonToUser(j: Json, u: UserBuffer) returns (thrown: bool)
    modifies u
    ensures thrown <==> DecodeUser(j).Thrown?
    ensures !thrown ==> Ok(u.Contents()) == DecodeUser(j)
    ensures var id, name := StringAt(j, "id", ""), StringAt(j, "name", "");
            var email, at := StringAt(j, "email", ""), IntAt(j, "created_at", 0);
            && u.id == (if id.Ok? then id.value else old(u.id))
            && u.name == (if id.Ok? && name.Ok? then name.value else old(u.name))
            && u.email == (if id.Ok? && name.Ok? && email.Ok? then email.value else old(u.email))
            && u.createdAt == (if id.Ok? && name.Ok? && email.Ok? && at.Ok? then at.value else old(u.createdAt))
  {
    thrown := true;
    var id := StringAt(j, "id", "");
    if id.Thrown? { return; }
    u.id := id.value;
    var name := StringAt(j, "name", "");
    if name.Thrown? { return; }
    u.name := name.value;
    var email := StringAt(j, "email", "");
    if email.Thrown? { return; }
    u.email := email.value;
    var createdAt := IntAt(j, "created_at", 0);
    if createdAt.Thrown? { return; }
    u.createdAt := createdAt.value;
    thrown := false;
  }

  lemma UserRoundTrip(u: User)
    ensures DecodeUser(UserToJson(u)) == Ok(u)
  {
    var f := UserToJson(u).fields;
    assert Get(f, "created_at") == Some(f[0].value);
    assert Get(f[1..], "email") == Some(f[1].value);
    assert Get(f[1..], "id") == Get(f[2..], "id") == Some(f[2].value) by { assert f[1..][1..] == f[2..]; }
    assert Get(f[2..], "name") == Get(f[3..], "name") == Some(f[3].value) by { assert f[2..][1..] == f[3..]; }
    assert Get(f[1..], "name") == Get(f[2..], "name") by { assert f[1..][1..] == f[2..]; }
    assert f[0].key == "created_at" && f[1].key == "email" && f[2].key == "id" && f[3].key == "name";
  }

  /** The fields of a cached user. */
  lemma UserPayload(u: User)
    ensures var f := UserToJson(u).fields;
            && |f| == 4
            && Get(f, "id") == Some(JString(u.id)) && Get(f, "name") == Some(JString(u.name))
            && Get(f, "email") == Some(JString(u.email)) && Get(f, "created_at") == Some(JInt(u.createdAt))
  {
    var f := UserToJson(u).fields;
    assert f[1..][1..] == f[2..] && f[2..][1..] == f[3..];
    assert Get(f, "email") == Get(f[1..], "email");
    assert Get(f, "id") == Get(f[1..], "id") == Get(f[2..], "id");
    assert Get(f, "name") == Get(f[1..], "name") == Get(f[2..], "name") == Get(f[3..], "name");
  }

  /** A missing field reads as empty or 0, and a document that is no object does not decode. */
  lemma MissingFields(j: Json)
    ensures DecodeUser(JObject([])) == Ok(User("", "", "", 0))
    ensures !j.JObject? ==> DecodeUser(j).Thrown?
  {
  }

  // ---------- The list payload ----------

  /** What a range-for over a document visits: a scalar is visited as its own single element. */
  function Elements(j: Json): seq<Json> {
    match j
    case JNull => []
    case JArray(items) => items
    case JObject(fields) => seq(|fields|, i requires 0 <= i < |fields| => fields[i].value)
    case _ => [j]
  }

  /** j["users"] on a mutable document: null becomes an empty object, a missing key reads as null. */
  function UsersField(j: Json): Result<Json> {
    match j
    case JNull => Ok(JNull)
    case JObject(fields) =>
      (match Get(fields, "users") case Some(v) => Ok(v) case None => Ok(JNull))
    case _ => Thrown
  }

  function DecodeUsers(items: seq<Json>): Result<seq<User>> {
    if items == [] then Ok([])
    else
      var last := |items| - 1;
      match (DecodeUsers(items[..last]), DecodeUser(items[last]))
      case (Ok(us), Ok(u)) => Ok(us + [u])
      case _ => Thrown
  }

  datatype Listing = Listing(users: seq<User>, total: Decimal.int64)

  /** The whole cache-hit decoding of ListUsers. */
  function DecodeListing(j: Json): Result<Listing> {
    match UsersField(j)
    case Thrown => Thrown
    case Ok(field) =>
      match DecodeUsers(Elements(field))
      case Thrown => Thrown
      case Ok(us) =>
        // a null document has become an object with only "users"
        match (if j.JNull? then Ok(0) else IntAt(j, "total", 0))
        case Thrown => Thrown
        case Ok(total) => Ok(Listing(us, total))
  }

  function EncodeUsers(us: seq<User>): seq<Json> {
    seq(|us|, i requires 0 <= i < |us| => UserToJson(us[i]))
  }

  /** What ListUsers stores. */
  function EncodeListing(l: Listing): Json {
    JObject([Field("total", JInt(l.total)), Field("users", JArray(EncodeUsers(l.users)))])
  }

  lemma {:induction false} UsersRoundTrip(us: seq<User>)
    ensures DecodeUsers(EncodeUsers(us)) == Ok(us)
  {
    if us != [] {
      var init, last := us[..|us| - 1], us[|us| - 1];
      assert EncodeUsers(us)[..|us| - 1] == EncodeUsers(init);
      UsersRoundTrip(init);
      UserRoundTrip(last);
      assert us == init + [last];
    }
  }

  /** Decoding what ListUsers stores gives the same users, in order, and the same total. */
  lemma ListingRoundTrip(l: Listing)
    ensures DecodeListing(EncodeListing(l)) == Ok(l)
  {
    UsersRoundTrip(l.users);
    var f := EncodeListing(l).fields;
    assert f[0].key == "total" && f[1].key == "users";
    assert Get(f, "total") == Some(f[0].value);
    assert Get(f, "users") == Get(f[1..], "users") == Some(f[1].value);
  }

  /** Payloads that ListUsers never stores: which of them count as an empty list, and which do not decode. */
  lemma OddPayloads(n: Decimal.int64)
    ensures DecodeListing(JNull) == DecodeListing(JObject([])) == Ok(Listing([], 0))
    ensures DecodeListing(JObject([Field("total", JInt(n))])) == Ok(Listing([], n))
    ensures DecodeListing(JArray([])).Thrown? && DecodeListing(JInt(n)).Thrown?
    ensures DecodeListing(JObject([Field("users", JInt(n))])).Thrown?
  {
    var f := [Field("total", JInt(n))];
    assert f[1..] == [];
    var g := [Field("users", JInt(n))];
    assert Elements(JInt(n))[..0] == [];
    assert DecodeUser(JInt(n)).Thrown?;
  }
}
