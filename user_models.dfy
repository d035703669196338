/**
 * The user store of User/models.py. `BaseUser` rows carry a role; hosts and
 * guests share one id space (multi-table inheritance), so the store is one
 * table whose row at position `i` is the user with id `i`. Host names are
 * unique case-insensitively; guest names are unique per host.
 */
module UserModels {
  import opened Values
  import opened Errors
  import opened Seqs
  import Function
  import UserValidators
  import Jsonify

  // UserRoleChoice
  const HOST: int := 0
  const GUEST: int := 1

  /** The concrete model classes a role maps to. */
  datatype UserClass = HostUserClass | GuestUserClass

  /** The class a lookup is made through: `BaseUser`, `HostUser` or `GuestUser`. */
  datatype UserModel = BaseModel | HostModel | GuestModel

  /** `BaseUser.get_class`: `HostUser` for the host role, `GuestUser` for every other role. */
  function GetClass(role: int): (c: UserClass)
    ensures c == HostUserClass <==> role == HOST
    ensures c == GuestUserClass <==> role != HOST
  {
    if role == HOST then HostUserClass else GuestUserClass
  }

  function ModelOf(c: UserClass): UserModel
  {
    match c
    case HostUserClass => HostModel
    case GuestUserClass => GuestModel
  }

  /**
   * A user row. `password` is `None` for a guest who never set one; `host`
   * is the id of a guest's host and `None` for a host.
   */
  datatype User = User(id: nat, role: int, name: string, lowerName: string,
                       password: Option<string>, salt: string, host: Option<nat>)

  /** The `guest` property. */
  predicate IsGuest(u: User)
  {
    u.role == GUEST
  }

  /** For the two roles the store holds, `guest` and `get_class` agree. */
  lemma GuestMeansGuestClass(u: User)
    requires u.role == HOST || u.role == GUEST
    ensures IsGuest(u) <==> GetClass(u.role) == GuestUserClass
    ensures !IsGuest(u) <==> GetClass(u.role) == HostUserClass
  {
  }

  function LowerChar(c: char): char
  {
    if 'A' <= c <= 'Z' then (c as int + 32) as char else c
  }

  /** `str.lower()` on ASCII letters. */
  function Lower(s: string): (r: string)
    ensures |r| == |s|
    ensures forall i :: 0 <= i < |s| ==> r[i] == LowerChar(s[i])
  {
    seq(|s|, i requires 0 <= i < |s| => LowerChar(s[i]))
  }

  /** Lower-casing twice changes nothing more. */
  lemma LowerIdempotent(s: string)
    ensures Lower(Lower(s)) == Lower(s)
  {
  }

  /** Names differing only in the case of their letters have the same lower-cased form. */
  lemma LowerIgnoresCase(s: string, t: string)
    requires |s| == |t|
    requires forall i :: 0 <= i < |s| ==> LowerChar(s[i]) == LowerChar(t[i])
    ensures Lower(s) == Lower(t)
  {
  }

  /** The class of the instance `index` hands out for a row: the class its role maps to (`specify`). */
  function Specified(u: User): (m: UserModel)
    ensures m == HostModel <==> u.role == HOST
    ensures m == GuestModel <==> u.role != HOST
  {
    ModelOf(GetClass(u.role))
  }

  /**
   * Django's model equality between the specified user `u` and an instance
   * of class `model` with primary key `id`: the concrete classes must be the
   * same, and so must the keys.
   */
  predicate SameInstance(u: User, model: UserModel, id: nat)
  {
    Specified(u) == model && u.id == id
  }

  /** Whether a row is in the table of the given model class. */
  predicate InTable(model: UserModel, u: User)
  {
    match model
    case BaseModel => true
    case HostModel => u.role == HOST
    case GuestModel => u.role == GUEST
  }

  /** The projection fields of a user: its attributes plus the `_jsonify_user_id` projector. */
  function UserEntity(u: User, alive: bool): Jsonify.Entity
  {
    Jsonify.Entity(
      map["id" := VInt(u.id), "role" := VInt(u.role), "name" := VStr(u.name), "lower_name" := VStr(u.lowerName),
          "salt" := VStr(u.salt), "guest" := VBool(IsGuest(u)), "is_alive" := VBool(alive)],
      map["user_id" := (_: seq<Value>) => VInt(u.id)])
  }

  const TinyFields: seq<Jsonify.Request> :=
    [Jsonify.Plain("name"), Jsonify.Plain("user_id"), Jsonify.Plain("is_alive"), Jsonify.Plain("guest")]

  /** `tiny_json` (and `jwt_json`); `alive` stands for the clock-dependent `is_alive`. */
  function TinyJson(u: User, alive: bool): Dict
  {
    Jsonify.Project(UserEntity(u, alive), TinyFields)
  }

  const TinyNames: seq<string> := ["name", "user_id", "is_alive", "guest"]

  lemma TinyKeys()
    ensures |TinyFields| == |TinyNames|
    ensures forall i :: 0 <= i < |TinyFields| ==> Jsonify.OutName(TinyFields[i]) == TinyNames[i]
  {
    forall i | 0 <= i < |TinyFields| ensures Jsonify.OutName(TinyFields[i]) == TinyNames[i] {
      if i == 0 { assert TinyFields[i] == Jsonify.Plain("name") && TinyNames[i] == "name"; Jsonify.PlainKey("name"); }
      else if i == 1 { assert TinyFields[i] == Jsonify.Plain("user_id") && TinyNames[i] == "user_id"; Jsonify.PlainKey("user_id"); }
      else if i == 2 { assert TinyFields[i] == Jsonify.Plain("is_alive") && TinyNames[i] == "is_alive"; Jsonify.PlainKey("is_alive"); }
      else { assert TinyFields[i] == Jsonify.Plain("guest") && TinyNames[i] == "guest"; Jsonify.PlainKey("guest"); }
    }
  }

  lemma TinyNamesUnique()
    ensures Jsonify.Unique(TinyNames)
  {
  }

  // One lemma per field keeps each proof about literal keys small.

  lemma TinyName(u: User, alive: bool)
    ensures Jsonify.FieldValue(UserEntity(u, alive), TinyFields[0]) == VStr(u.name)
  {
    assert TinyFields[0] == Jsonify.Plain("name");
    Jsonify.PlainKey("name");
  }

  lemma TinyUserId(u: User, alive: bool)
    ensures Jsonify.FieldValue(UserEntity(u, alive), TinyFields[1]) == VInt(u.id)
  {
    assert TinyFields[1] == Jsonify.Plain("user_id");
    Jsonify.PlainKey("user_id");
  }

  lemma TinyIsAlive(u: User, alive: bool)
    ensures Jsonify.FieldValue(UserEntity(u, alive), TinyFields[2]) == VBool(alive)
  {
    assert TinyFields[2] == Jsonify.Plain("is_alive");
    Jsonify.PlainKey("is_alive");
  }

  lemma TinyGuest(u: User, alive: bool)
    ensures Jsonify.FieldValue(UserEntity(u, alive), TinyFields[3]) == VBool(IsGuest(u))
  {
    assert TinyFields[3] == Jsonify.Plain("guest");
    Jsonify.PlainKey("guest");
  }

  /** `tiny_json` holds exactly name, user_id, is_alive and guest, with the user's own values. */
  lemma TinyJsonShape(u: User, alive: bool)
    ensures KeyList(TinyJson(u, alive)) == ["name", "user_id", "is_alive", "guest"]
    ensures Get(TinyJson(u, alive), "name") == Some(VStr(u.name))
    ensures Get(TinyJson(u, alive), "user_id") == Some(VInt(u.id))
    ensures Get(TinyJson(u, alive), "is_alive") == Some(VBool(alive))
    ensures Get(TinyJson(u, alive), "guest") == Some(VBool(IsGuest(u)))
  {
    TinyKeys();
    TinyNamesUnique();
    Jsonify.ProjectNamed(UserEntity(u, alive), TinyFields, TinyNames);
    TinyName(u, alive);
    TinyUserId(u, alive);
    TinyIsAlive(u, alive);
    TinyGuest(u, alive);
  }

  /** The `user_id` entry of `tiny_json`, which `jwt_login` reads back. */
  lemma TinyJsonUserId(u: User, alive: bool)
    ensures Get(TinyJson(u, alive), "user_id") == Some(VInt(u.id))
  {
    TinyKeys();
    TinyNamesUnique();
    Jsonify.ProjectNamed(UserEntity(u, alive), TinyFields, TinyNames);
    TinyUserId(u, alive);
    assert TinyNames[1] == "user_id";
  }

  predicate IsHostNamed(u: User, lower: string)
  {
    u.role == HOST && u.lowerName == lower
  }

  predicate IsGuestNamed(u: User, lower: string, host: nat)
  {
    u.role == GUEST && u.lowerName == lower && u.host == Some(host)
  }

  /** A row as `create` stores it: lower-cased name kept beside the name, role and host consistent. */
  predicate WellFormed(u: User)
  {
    u.lowerName == Lower(u.name)
    && ((u.role == HOST && u.host.None? && u.password.Some?) || (u.role == GUEST && u.host.Some?))
  }

  /**
   * The store as the create methods leave it: ids are positions, rows are
   * well formed, a guest's host is a host row, host names are distinct after
   * lower-casing and so are the names of the guests of one host.
   */
  ghost predicate ValidRows(rows: seq<User>)
  {
    (forall i :: 0 <= i < |rows| ==> rows[i].id == i && WellFormed(rows[i]))
    && (forall i :: 0 <= i < |rows| && rows[i].host.Some? ==>
          rows[i].host.value < |rows| && rows[rows[i].host.value].role == HOST)
    && (forall i, j :: 0 <= i < j < |rows| && rows[i].role == HOST && rows[j].role == HOST ==>
          rows[i].lowerName != rows[j].lowerName)
    && (forall i, j :: (0 <= i < j < |rows| && rows[i].role == GUEST && rows[j].role == GUEST
          && rows[i].host == rows[j].host) ==> rows[i].lowerName != rows[j].lowerName)
  }

  /** Appending a host whose lower-cased name no host has keeps the store valid. */
  lemma AppendHost(rows: seq<User>, u: User)
    requires ValidRows(rows)
    requires u.id == |rows| && WellFormed(u) && u.role == HOST
    requires forall i :: 0 <= i < |rows| ==> !IsHostNamed(rows[i], u.lowerName)
    ensures ValidRows(rows + [u])
  {
    var rs := rows + [u];
    assert forall i :: 0 <= i < |rows| ==> rs[i] == rows[i];
  }

  /** Appending a guest of an existing host, named unlike that host's other guests, keeps the store valid. */
  lemma AppendGuest(rows: seq<User>, u: User)
    requires ValidRows(rows)
    requires u.id == |rows| && WellFormed(u) && u.role == GUEST
    requires u.host.value < |rows| && rows[u.host.value].role == HOST
    requires forall i :: 0 <= i < |rows| ==> !IsGuestNamed(rows[i], u.lowerName, u.host.value)
    ensures ValidRows(rows + [u])
  {
    var rs := rows + [u];
    assert forall i :: 0 <= i < |rows| ==> rs[i] == rows[i];
  }

  /** After appending a host, the host lookup by its lower-cased name finds it. */
  lemma FindAppendedHost(rows: seq<User>, u: User)
    requires u.role == HOST
    requires forall i :: 0 <= i < |rows| ==> !IsHostNamed(rows[i], u.lowerName)
    ensures FirstIndex(rows + [u], v => IsHostNamed(v, u.lowerName)) == Some(|rows|)
  {
    var rs := rows + [u];
    var p := v => IsHostNamed(v, u.lowerName);
    assert forall i :: 0 <= i < |rows| ==> !p(rs[i]) by {
      assert forall i :: 0 <= i < |rows| ==> rs[i] == rows[i];
    }
    assert p(rs[|rows|]);
    var r := FirstIndex(rs, p);
    assert r.Some?;
    assert r.value >= |rows|;
  }

  class UserTable {
    /** The digest `hash_password` applies (sha256 in the source). */
    const digest: string -> string
    var rows: seq<User>

    ghost predicate Valid()
      reads this
    {
      ValidRows(rows)
    }

    constructor(digest: string -> string)
      ensures this.digest == digest && rows == [] && Valid()
    {
      this.digest := digest;
      rows := [];
    }

    /**
     * `index(user_id)` called on a model class: an id not in that class's
     * table fails `NOT_EXISTS(attr='user id', value=user_id)`. A lookup
     * through `BaseUser` is specified: it repeats the lookup through the
     * class the row's role maps to.
     */
    function Index(model: UserModel, id: int): (r: Result<User>)
      reads this
      decreases if model.BaseModel? then 1 else 0
      ensures r.Ok? <==> 0 <= id < |rows| && InTable(model, rows[id])
                         && (model.BaseModel? ==> InTable(ModelOf(GetClass(rows[id].role)), rows[id]))
      ensures r.Ok? ==> r.value == rows[id]
      ensures !r.Ok? ==> r == Err(Raise(UserNotExists("user id", VInt(id))))
    {
      if !(0 <= id < |rows|) || !InTable(model, rows[id]) then Err(Raise(UserNotExists("user id", VInt(id))))
      else if model.BaseModel? then Index(ModelOf(GetClass(rows[id].role)), id)
      else Ok(rows[id])
    }

    /** In a valid store a `BaseUser` lookup finds every id, and the class lookups find their own role. */
    lemma IndexFinds(model: UserModel, id: int)
      requires Valid()
      ensures Index(model, id).Ok? <==> (0 <= id < |rows| && InTable(model, rows[id]))
    {
    }

    /** `BaseUser.jwt_login(data)`: `index(data['user_id'])`; a missing key raises `KeyError`. */
    function JwtLogin(data: Dict): (r: Result<User>)
      reads this
      ensures Get(data, "user_id").None? ==> r == Uncaught("KeyError")
      ensures forall id :: Get(data, "user_id") == Some(VInt(id)) ==> r == Index(BaseModel, id)
      ensures Get(data, "user_id").Some? && !Get(data, "user_id").value.VInt? ==> r == Uncaught("ValueError")
    {
      match Get(data, "user_id")
      case None => Uncaught("KeyError")
      case Some(VInt(i)) => Index(BaseModel, i)
      case Some(_) => Uncaught("ValueError")
    }

    /** `HostUser.objects.filter(lower_name=lower).first()`. */
    function FindHost(lower: string): (r: Option<nat>)
      reads this
      ensures r.None? <==> forall i :: 0 <= i < |rows| ==> !IsHostNamed(rows[i], lower)
      ensures r.Some? ==> r.value < |rows| && IsHostNamed(rows[r.value], lower)
      ensures r.Some? ==> forall j :: 0 <= j < r.value ==> !IsHostNamed(rows[j], lower)
    {
      FirstIndex(rows, u => IsHostNamed(u, lower))
    }

    /** `GuestUser.objects.filter(lower_name=lower, host=host).first()`. */
    function FindGuest(lower: string, host: nat): (r: Option<nat>)
      reads this
      ensures r.None? <==> forall i :: 0 <= i < |rows| ==> !IsGuestNamed(rows[i], lower, host)
      ensures r.Some? ==> r.value < |rows| && IsGuestNamed(rows[r.value], lower, host)
      ensures r.Some? ==> forall j :: 0 <= j < r.value ==> !IsGuestNamed(rows[j], lower, host)
    {
      FirstIndex(rows, u => IsGuestNamed(u, lower, host))
    }

    /** `HostUser.get(name)`: the host with that name in any case, or `NOT_EXISTS(attr='name', value=name)`. */
    function GetHost(name: string): (r: Result<User>)
      reads this
      ensures r.Ok? <==> exists i :: 0 <= i < |rows| && IsHostNamed(rows[i], Lower(name))
      ensures r.Ok? ==> r.value in rows && r.value.role == HOST && r.value.lowerName == Lower(name)
      ensures !r.Ok? ==> r == Err(Raise(UserNotExists("name", VStr(name))))
    {
      match FindHost(Lower(name))
      case None => Err(Raise(UserNotExists("name", VStr(name))))
      case Some(i) => Ok(rows[i])
    }

    /** The row `HostUser.create` inserts. */
    function NewHost(id: nat, name: string, password: string, salt: string): User
    {
      User(id, HOST, name, Lower(name), Some(Function.HashPassword(digest, password, salt)), salt, None)
    }

    /** The row `GuestUser.create` inserts: no password yet. */
    static function NewGuest(id: nat, name: string, host: nat, salt: string): User
    {
      User(id, GUEST, name, Lower(name), None, salt, Some(host))
    }

    /** The salt `create` draws: `get_salt(length=SALT_MAX_LENGTH)`. */
    static function FreshSalt(randomString: int -> string): string
    {
      Function.GetSalt(randomString, Some(UserValidators.SaltMaxLength))
    }

    /**
     * `HostUser.create`: `EXISTS` when a host has the same lower-cased name,
     * otherwise a new host with the hashed password and a fresh salt.
     */
    method CreateHost(name: string, password: string, randomString: int -> string) returns (r: Result<User>)
      requires Valid()
      modifies this
      ensures Valid()
      ensures old(FindHost(Lower(name))).Some? ==> r == Err(Raise(UserExists)) && rows == old(rows)
      ensures old(FindHost(Lower(name))).None? ==>
                r == Ok(NewHost(|old(rows)|, name, password, FreshSalt(randomString)))
                && rows == old(rows) + [r.value]
      ensures r.Ok? ==> FindHost(Lower(name)) == Some(r.value.id)
    {
      if FindHost(Lower(name)).Some? {
        return Err(Raise(UserExists));
      }
      var salt := FreshSalt(randomString);
      var user := NewHost(|rows|, name, password, salt);
      AppendHost(rows, user);
      FindAppendedHost(rows, user);
      rows := rows + [user];
      r := Ok(user);
    }

    /**
     * `HostUser.login`: an unknown name creates the host; a known one is
     * returned when `verify_password` holds and fails `PASSWORD_ERROR` otherwise.
     */
    method LoginHost(name: string, password: string, randomString: int -> string) returns (r: Result<User>)
      requires Valid()
      modifies this
      ensures Valid()
      ensures old(FindHost(Lower(name))).None? ==>
                r == Ok(NewHost(|old(rows)|, name, password, FreshSalt(randomString)))
                && rows == old(rows) + [r.value]
      ensures old(FindHost(Lower(name))).Some? ==>
                var u := old(rows)[old(FindHost(Lower(name))).value];
                rows == old(rows)
                && r == if Function.VerifyPassword(digest, password, u.salt, u.password) then Ok(u)
                        else Err(Raise(PasswordError))
    {
      var found := FindHost(Lower(name));
      if found.None? {
        r := CreateHost(name, password, randomString);
        return;
      }
      var user := rows[found.value];
      if !Function.VerifyPassword(digest, password, user.salt, user.password) {
        return Err(Raise(PasswordError));
      }
      r := Ok(user);
    }

    /**
     * `GuestUser.create`: `EXISTS` only when a guest of the SAME host has the
     * lower-cased name; otherwise a new guest with no password.
     */
    method CreateGuest(name: string, host: nat, randomString: int -> string) returns (r: Result<User>)
      requires Valid()
      requires host < |rows| && rows[host].role == HOST
      modifies this
      ensures Valid()
      ensures old(FindGuest(Lower(name), host)).Some? ==> r == Err(Raise(UserExists)) && rows == old(rows)
      ensures old(FindGuest(Lower(name), host)).None? ==>
                r == Ok(NewGuest(|old(rows)|, name, host, FreshSalt(randomString)))
                && rows == old(rows) + [r.value]
    {
      if FindGuest(Lower(name), host).Some? {
        return Err(Raise(UserExists));
      }
      var user := NewGuest(|rows|, name, host, FreshSalt(randomString));
      AppendGuest(rows, user);
      rows := rows + [user];
      r := Ok(user);
    }

    /**
     * `GuestUser.set_password`: an empty password changes nothing; otherwise
     * the hash under the guest's own salt replaces the stored password.
     */
    method SetPassword(id: nat, password: string) returns (u: User)
      requires Valid()
      requires id < |rows| && rows[id].role == GUEST
      modifies this
      ensures Valid()
      ensures password == "" ==> rows == old(rows)
      ensures password != "" ==>
                rows == old(rows)[id := old(rows)[id].(password := Some(Function.HashPassword(digest, password, old(rows)[id].salt)))]
      ensures u == rows[id]
    {
      if password == "" {
        return rows[id];
      }
      u := rows[id].(password := Some(Function.HashPassword(digest, password, rows[id].salt)));
      rows := rows[id := u];
    }

    /**
     * `GuestUser.login`: an unknown name creates the guest under that host and
     * sets its password; a known guest is returned when `verify_password`
     * holds and fails `PASSWORD_ERROR` otherwise.
     */
    method LoginGuest(name: string, password: string, host: nat, randomString: int -> string)
      returns (r: Result<User>)
      requires Valid()
      requires host < |rows| && rows[host].role == HOST
      modifies this
      ensures Valid()
      ensures old(FindGuest(Lower(name), host)).None? ==>
                var salt := FreshSalt(randomString);
                var stored := if password == "" then None else Some(Function.HashPassword(digest, password, salt));
                r == Ok(NewGuest(|old(rows)|, name, host, salt).(password := stored))
                && rows == old(rows) + [r.value]
      ensures old(FindGuest(Lower(name), host)).Some? ==>
                var u := old(rows)[old(FindGuest(Lower(name), host)).value];
                rows == old(rows)
                && r == if Function.VerifyPassword(digest, password, u.salt, u.password) then Ok(u)
                        else Err(Raise(PasswordError))
    {
      var found := FindGuest(Lower(name), host);
      if found.None? {
        var created := CreateGuest(name, host, randomString);
        var user := SetPassword(created.value.id, password);
        return Ok(user);
      }
      var user := rows[found.value];
      if !Function.VerifyPassword(digest, password, user.salt, user.password) {
        return Err(Raise(PasswordError));
      }
      r := Ok(user);
    }

    /** An existing host accepts the empty password, whatever was stored (the `verify_password` bypass). */
    lemma HostEmptyPasswordAccepted(name: string)
      requires FindHost(Lower(name)).Some?
      ensures var u := rows[FindHost(Lower(name)).value];
              Function.VerifyPassword(digest, "", u.salt, u.password)
    {
      Function.EmptyPasswordVerifies(digest, rows[FindHost(Lower(name)).value].salt,
                                     rows[FindHost(Lower(name)).value].password);
    }

    /** A host logs back in with the password it was created with. */
    lemma HostCreatedPasswordAccepted(id: nat, name: string, password: string, salt: string)
      requires id < |rows| && rows[id] == NewHost(id, name, password, salt)
      ensures Function.VerifyPassword(digest, password, rows[id].salt, rows[id].password)
    {
      Function.VerifyHashed(digest, password, salt);
    }

    /** A guest without a password rejects every non-empty password. */
    lemma PasswordlessGuestRejects(id: nat, password: string)
      requires id < |rows| && rows[id].password.None? && password != ""
      ensures !Function.VerifyPassword(digest, password, rows[id].salt, rows[id].password)
    {
    }
  }
}
