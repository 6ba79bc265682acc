/** The table from fingerprint ids to users: names and relay channels. */
module Users {
  import opened Values
  import opened Text

  /** `users`: user id text to the user's record. */
  type Table = map<string, Payload>

  /** Python's `str()` of a value. A float is shown by the token it was read
      from. */
  function PyStr(v: Val): string
  {
    match v
    case Null => "None"
    case Int(i) => IntToString(i)
    case Str(s) => s
    case Num(t) => t
  }

  /** The name given to a user the table does not name: "使用者{id}號". */
  function FallbackName(id: Val): (r: string)
    ensures |r| == |PyStr(id)| + 4
    ensures r[..3] == "\U{4F7F}\U{7528}\U{8005}" && r[|r| - 1] == '\U{865F}'
    ensures r[3..|r| - 1] == PyStr(id)
  {
    "\U{4F7F}\U{7528}\U{8005}" + PyStr(id) + "\U{865F}"
  }

  /** Distinct numeric ids have distinct fallback names. */
  lemma FallbackNameInjective(a: int, b: int)
    ensures FallbackName(Int(a)) == FallbackName(Int(b)) <==> a == b
  {
    if FallbackName(Int(a)) == FallbackName(Int(b)) {
      var ra, rb := FallbackName(Int(a)), FallbackName(Int(b));
      assert ra[3..|ra| - 1] == rb[3..|rb| - 1];
      IntToStringInjective(a, b);
    }
  }

  /** `get_user_name`: the record's name when the user is listed and has
      one, the fallback name otherwise. */
  function UserName(users: Table, id: Val): (r: Val)
    ensures PyStr(id) in users && "name" in users[PyStr(id)] ==> r == users[PyStr(id)]["name"]
    ensures !(PyStr(id) in users && "name" in users[PyStr(id)]) ==> r == Str(FallbackName(id))
  {
    var key := PyStr(id);
    if key in users then
      if "name" in users[key] then users[key]["name"] else Str(FallbackName(id))
    else Str(FallbackName(id))
  }

  /** `get_user_relay`: `Null` for an unlisted user or a record without a
      relay, the stored value otherwise. */
  function UserRelay(users: Table, id: Val): (r: Val)
    ensures PyStr(id) !in users ==> r == Null
    ensures PyStr(id) in users ==> r == Get(users[PyStr(id)], "relay")
  {
    var key := PyStr(id);
    if key in users then Get(users[key], "relay") else Null
  }

  /** `get_user_info`: a shallow copy of the record with the id added. */
  function UserInfo(users: Table, id: Val): (r: Option<Payload>)
    ensures r.Some? <==> PyStr(id) in users
    ensures r.Some? ==>
      && r.value.Keys == users[PyStr(id)].Keys + {"fingerprint_id"}
      && r.value["fingerprint_id"] == id
      && forall k :: k in r.value && k != "fingerprint_id" ==> r.value[k] == users[PyStr(id)][k]
  {
    var key := PyStr(id);
    if key in users then Some(users[key]["fingerprint_id" := id]) else None
  }

  /** Removing the added id from the info of a user gives back the record,
      unless the record had its own `fingerprint_id`. */
  lemma UserInfoRecord(users: Table, id: Val)
    requires PyStr(id) in users && "fingerprint_id" !in users[PyStr(id)]
    ensures UserInfo(users, id).value - {"fingerprint_id"} == users[PyStr(id)]
  {
    var r := UserInfo(users, id).value;
    var e := users[PyStr(id)];
    assert (r - {"fingerprint_id"}).Keys == e.Keys;
  }

  function DefaultRecord(name: string, relay: int): Payload
  {
    map["name" := Str(name), "relay" := Int(relay)]
  }

  /** `_create_default_config`: four users on relays 1 to 4. */
  function DefaultUsers(): Table
  {
    map[
      "1" := DefaultRecord("\U{4F7F}\U{7528}\U{8005}1\U{865F}", 1),
      "2" := DefaultRecord("\U{4F7F}\U{7528}\U{8005}2\U{865F}", 2),
      "3" := DefaultRecord("\U{4F7F}\U{7528}\U{8005}3\U{865F}", 3),
      "4" := DefaultRecord("\U{4F7F}\U{7528}\U{8005}4\U{865F}", 4)]
  }

  /** In the default table user i is on relay i, which `control_relay`
      accepts, and the user's name is the one the fallback would give. */
  lemma DefaultUser(i: int)
    requires 1 <= i <= 4
    ensures PyStr(Int(i)) in DefaultUsers()
    ensures UserRelay(DefaultUsers(), Int(i)) == Int(i)
    ensures UserName(DefaultUsers(), Int(i)) == Str(FallbackName(Int(i)))
  {
    assert IntToString(i) == [DigitChar(i)];
  }

  /** Every default record holds an integer relay in 1..4, and no two users
      share a relay. */
  lemma DefaultRelays()
    ensures forall k :: k in DefaultUsers() ==>
      && "relay" in DefaultUsers()[k] && DefaultUsers()[k]["relay"].Int?
      && 1 <= DefaultUsers()[k]["relay"].i <= 4
    ensures forall k, k' :: k in DefaultUsers() && k' in DefaultUsers() && k != k' ==>
      DefaultUsers()[k]["relay"] != DefaultUsers()[k']["relay"]
  {
  }

  /** What reading the configuration file came to. */
  datatype ConfigFile =
    | Missing
    | Malformed
    | Failed
    /** The file parsed; `users` is the value under "users" if present. */
    | Parsed(users: Option<Table>)

  /** `_load_config`: the "users" entry of a parsed file (empty when absent);
      the default table when the file is missing, malformed or unreadable. */
  function LoadedUsers(c: ConfigFile): (r: Table)
    ensures c.Parsed? && c.users.Some? ==> r == c.users.value
    ensures c.Parsed? && c.users.None? ==> r == map[]
    ensures !c.Parsed? ==> r == DefaultUsers()
  {
    match c
    case Parsed(u) => if u.Some? then u.value else map[]
    case _ => DefaultUsers()
  }

  class UserMapper {
    var users: Table

    constructor(config: ConfigFile)
      ensures users == LoadedUsers(config)
    {
      users := LoadedUsers(config);
    }

    /** `_create_default_config` */
    method CreateDefaultConfig()
      modifies this
      ensures users == DefaultUsers()
    {
      users := DefaultUsers();
    }

    method GetUserName(id: Val) returns (r: Val)
      ensures r == UserName(users, id)
    {
      var key := PyStr(id);
      if key in users && "name" in users[key] {
        r := users[key]["name"];
      } else {
        r := Str(FallbackName(id));
      }
    }

    method GetUserRelay(id: Val) returns (r: Val)
      ensures r == UserRelay(users, id)
    {
      var key := PyStr(id);
      if key in users {
        r := Get(users[key], "relay");
      } else {
        r := Null;
      }
    }

    method GetUserInfo(id: Val) returns (r: Option<Payload>)
      ensures r == UserInfo(users, id)
    {
      var key := PyStr(id);
      if key in users {
        r := Some(users[key]["fingerprint_id" := id]);
      } else {
        r := None;
      }
    }

    /** `get_all_users`: the table. The source returns a shallow copy whose
        records are shared with the mapper; values here do not alias, so that
        sharing is not modelled. */
    method GetAllUsers() returns (r: Table)
      ensures r == users
    {
      r := users;
    }
  }
}
