/**
 * Authentication and access guards of User/auth.py: the token payload is
 * stamped with its issue time and lifetime, checked for shape and expiry
 * after decoding, and resolved to a user whose role may be required; the
 * guard predicates decide chat ownership, membership and message ownership.
 * Signing and decoding the token are foreign and enter as parameters.
 */
module Auth {
  import opened Values
  import opened Errors
  import opened UserModels
  import opened ChatModels
  import MessageModels

  /** The default token lifetime of `encrypt`: seven days, in seconds. */
  const DefaultExpire: int := 7 * 60 * 60 * 24

  // ----- encrypt -----

  /** The payload after `encrypt` has written `time` and then `expire` into it. */
  function Stamp(d: Dict, now: real, expire: int): Dict
  {
    Put(Put(d, "time", VFloat(now)), "expire", VInt(expire))
  }

  /** The stamp sets exactly `time` and `expire`; every other entry keeps its value. */
  lemma StampFields(d: Dict, now: real, expire: int)
    ensures Get(Stamp(d, now, expire), "time") == Some(VFloat(now))
    ensures Get(Stamp(d, now, expire), "expire") == Some(VInt(expire))
    ensures forall k :: k != "time" && k != "expire" ==> Get(Stamp(d, now, expire), k) == Get(d, k)
  {
    PutOther(Put(d, "time", VFloat(now)), "expire", VInt(expire), "time");
    forall k | k != "time" && k != "expire" ensures Get(Stamp(d, now, expire), k) == Get(d, k) {
      PutOther(Put(d, "time", VFloat(now)), "expire", VInt(expire), k);
      PutOther(d, "time", VFloat(now), k);
    }
  }

  /** The caller's payload dict, which `encrypt` updates in place. */
  class Payload {
    var entries: Dict

    constructor(entries: Dict)
      ensures this.entries == entries
    {
      this.entries := entries;
    }
  }

  /**
   * `encrypt(data, expire_second)`: stamps the caller's payload and returns
   * the signed token together with that same payload. `now` is the clock
   * reading and `sign` the JWT encoder.
   */
  method Encrypt(p: Payload, now: real, expire: int, sign: Dict -> string) returns (r: Dict)
    modifies p
    ensures p.entries == Stamp(old(p.entries), now, expire)
    ensures r == [("auth", VStr(sign(p.entries))), ("data", VDict(p.entries))]
  {
    p.entries := Put(p.entries, "time", VFloat(now));
    p.entries := Put(p.entries, "expire", VInt(expire));
    r := [("auth", VStr(sign(p.entries))), ("data", VDict(p.entries))];
  }

  /** `get_login_token(user)`: the user's `jwt_json` stamped with the default lifetime. */
  method LoginToken(u: User, alive: bool, now: real, sign: Dict -> string) returns (r: Dict)
    ensures r == [("auth", VStr(sign(Stamp(TinyJson(u, alive), now, DefaultExpire)))),
                  ("data", VDict(Stamp(TinyJson(u, alive), now, DefaultExpire)))]
  {
    var p := new Payload(TinyJson(u, alive));
    r := Encrypt(p, now, DefaultExpire, sign);
  }

  /** Stamping keeps the `user_id` entry that `jwt_login` reads. */
  lemma StampKeepsUserId(users: UserTable, d: Dict, id: nat, now: real, expire: int)
    requires Get(d, "user_id") == Some(VInt(id))
    ensures users.JwtLogin(Stamp(d, now, expire)) == users.Index(BaseModel, id)
  {
    PutOther(d, "time", VFloat(now), "user_id");
    PutOther(Put(d, "time", VFloat(now)), "expire", VInt(expire), "user_id");
  }

  /** The login payload names its user: `jwt_login` on it resolves the user's own id. */
  lemma LoginPayloadNamesUser(users: UserTable, u: User, alive: bool, now: real)
    ensures users.JwtLogin(Stamp(TinyJson(u, alive), now, DefaultExpire)) == users.Index(BaseModel, u.id)
  {
    TinyJsonUserId(u, alive);
    StampKeepsUserId(users, TinyJson(u, alive), u.id, now, DefaultExpire);
  }

  // ----- decrypt -----

  /** What the JWT decoder yields: the payload, a `DecodeError` with its text, or another exception. */
  datatype Decoded = Decoded(payload: Dict) | DecodeError(details: string) | OtherError(exception: string)

  /** `isinstance(x, int)`, which Python's `bool` also satisfies. */
  predicate IsIntValue(v: Value)
  {
    v.VInt? || v.VBool?
  }

  function IntOf(v: Value): int
    requires IsIntValue(v)
  {
    if v.VInt? then v.i else if v.b then 1 else 0
  }

  /** The payload carries an int `expire` and a float `time`. */
  predicate WellShaped(d: Dict)
  {
    Get(d, "expire").Some? && IsIntValue(Get(d, "expire").value)
    && Get(d, "time").Some? && Get(d, "time").value.VFloat?
  }

  /** `time + expire` of a well-shaped payload: the last instant it is accepted. */
  function ExpiresAt(d: Dict): real
    requires WellShaped(d)
  {
    Get(d, "time").value.r + IntOf(Get(d, "expire").value) as real
  }

  /**
   * `decrypt(token)` after decoding: a decode failure is `FORMAT`, a payload
   * without an int `expire` or a float `time` is rejected (expire first),
   * and a well-shaped payload fails `EXPIRED` exactly when `now` is past
   * `time + expire`; otherwise the payload is returned unchanged.
   */
  function Decrypt(decoded: Decoded, now: real): (r: Result<Dict>)
    ensures decoded.DecodeError? ==> r == Err(Raise(Format(decoded.details)))
    ensures decoded.OtherError? ==> r == Uncaught(decoded.exception)
    ensures decoded.Decoded? && !WellShaped(decoded.payload) ==>
              r.Err? && r.error.code == BadRequest && r.error.template != Expired
    ensures decoded.Decoded? && WellShaped(decoded.payload) ==>
              (r == Err(Raise(Expired)) <==> now > ExpiresAt(decoded.payload))
              && (r.Ok? <==> now <= ExpiresAt(decoded.payload))
    ensures r.Ok? ==> decoded.Decoded? && r.value == decoded.payload
  {
    match decoded
    case DecodeError(details) => Err(Raise(Format(details)))
    case OtherError(e) => Uncaught(e)
    case Decoded(data) =>
      var expire := Get(data, "expire");
      var time := Get(data, "time");
      if expire.None? then Err(Raise(MalformedField("expire")))
      else if !IsIntValue(expire.value) then Err(Raise(Rejected("Invalid JWT expire")))
      else if time.None? then Err(Raise(MalformedField("time")))
      else if !time.value.VFloat? then Err(Raise(Rejected("Invalid JWT time")))
      else if now > time.value.r + IntOf(expire.value) as real then Err(Raise(Expired))
      else Ok(data)
  }

  /** The shape is checked before the clock: a malformed `expire` is reported even if the token is long past. */
  lemma ShapeBeforeExpiry(d: Dict, now: real)
    requires Get(d, "expire").Some? && !IsIntValue(Get(d, "expire").value)
    ensures Decrypt(Decoded(d), now) == Err(Raise(Rejected("Invalid JWT expire")))
  {
  }

  /**
   * A freshly stamped payload is accepted, unchanged, up to and including
   * `time + expire`, and fails `EXPIRED` from then on.
   */
  lemma StampedLifetime(d: Dict, issued: real, expire: int, now: real)
    ensures now <= issued + expire as real ==> Decrypt(Decoded(Stamp(d, issued, expire)), now) == Ok(Stamp(d, issued, expire))
    ensures now > issued + expire as real ==> Decrypt(Decoded(Stamp(d, issued, expire)), now) == Err(Raise(Expired))
  {
    StampFields(d, issued, expire);
    assert WellShaped(Stamp(d, issued, expire));
    assert ExpiresAt(Stamp(d, issued, expire)) == issued + expire as real;
  }

  // ----- _require_user -----

  /** The request attributes this model reads, and `request.user`, which authentication sets. */
  class HttpRequest {
    /** The `Authorization` header. */
    const token: Option<string>
    /** The query parameters and the body, as sent. */
    const query: Dict
    const body: Dict
    var user: Option<User>

    constructor(token: Option<string>, query: Dict, body: Dict)
      ensures this.token == token && this.query == query && this.body == body && user.None?
    {
      this.token := token;
      this.query := query;
      this.body := body;
      user := None;
    }
  }

  const MissingHeader: string := "Missing authorization header"
  const InvalidRole: string := "Invalid user role"

  /** The first three steps of `_require_user`: the header is present, decrypts, and names a user. */
  function Login(users: UserTable, token: Option<string>, decode: string -> Decoded, now: real): (r: Result<User>)
    reads users
    ensures token.None? || token == Some("") ==> r == Err(Raise(Format(MissingHeader)))
    ensures r.Ok? ==> token.Some? && token.value != "" && Decrypt(decode(token.value), now).Ok?
                      && r == users.JwtLogin(Decrypt(decode(token.value), now).value)
  {
    if token.None? || token.value == "" then Err(Raise(Format(MissingHeader)))
    else
      var data :- Decrypt(decode(token.value), now);
      users.JwtLogin(data)
  }

  /**
   * `_require_user(func, user_role)`: the logged-in user, refused with
   * `FORMAT` when a role is required and the user's role differs.
   */
  function Authenticate(users: UserTable, token: Option<string>, decode: string -> Decoded, now: real,
                        role: Option<int>): (r: Result<User>)
    reads users
    ensures r.Ok? <==> Login(users, token, decode, now).Ok?
                       && (role.None? || Login(users, token, decode, now).value.role == role.value)
    ensures r.Ok? ==> r == Login(users, token, decode, now)
    ensures Login(users, token, decode, now).Ok? && role.Some? && Login(users, token, decode, now).value.role != role.value
            ==> r == Err(Raise(Format(InvalidRole)))
    ensures !Login(users, token, decode, now).Ok? ==> r == Login(users, token, decode, now)
  {
    var user :- Login(users, token, decode, now);
    if role.Some? && user.role != role.value then Err(Raise(Format(InvalidRole))) else Ok(user)
  }

  /** `require_user` accepts any role that `require_host_user` or `require_guest_user` accepts. */
  lemma AnyRoleSuffices(users: UserTable, token: Option<string>, decode: string -> Decoded, now: real, role: int)
    ensures Authenticate(users, token, decode, now, Some(role)).Ok? ==>
              Authenticate(users, token, decode, now, Some(role)) == Authenticate(users, token, decode, now, None)
  {
  }

  /**
   * The wrapper itself: `request.user` is assigned as soon as the token
   * names a user, before the role is checked.
   */
  method RequireUser(request: HttpRequest, users: UserTable, decode: string -> Decoded, now: real, role: Option<int>)
    returns (r: Result<User>)
    modifies request
    ensures r == Authenticate(users, request.token, decode, now, role)
    ensures request.user == if Login(users, request.token, decode, now).Ok?
                            then Some(Login(users, request.token, decode, now).value) else old(request.user)
  {
    var login := Login(users, request.token, decode, now);
    if !login.Ok? {
      return login;
    }
    request.user := Some(login.value);
    if role.Some? && login.value.role != role.value {
      return Err(Raise(Format(InvalidRole)));
    }
    r := login;
  }

  // ----- guard predicates -----

  /** `_is_chat_host`: the user is the chat's host instance. */
  predicate IsChatHost(user: User, chat: Chat)
  {
    SameInstance(user, HostModel, chat.host)
  }

  /** Python's `a or b()` for guards whose second operand may raise. */
  function OrElse(a: bool, b: Result<bool>): (r: Result<bool>)
    ensures a ==> r == Ok(true)
    ensures !a ==> r == b
  {
    if a then Ok(true) else b
  }

  /** `_is_singlechat_guest`: a group chat has no `guest` attribute. */
  function IsSingleChatGuest(user: User, chat: Chat): (r: Result<bool>)
    ensures chat.members.Group? ==> r == Uncaught("AttributeError")
    ensures chat.members.Single? ==> r == Ok(user.role != HOST && user.id == chat.members.guest)
  {
    match chat.members
    case Single(guest) => Ok(SameInstance(user, GuestModel, guest))
    case Group(_, _) => Uncaught("AttributeError")
  }

  /** `_is_groupchat_guest`: a single chat has no `guests` attribute. */
  function IsGroupChatGuest(user: User, chat: Chat): (r: Result<bool>)
    ensures chat.members.Single? ==> r == Uncaught("AttributeError")
    ensures chat.members.Group? ==> r == Ok(user.role != HOST && user.id in chat.members.guests)
  {
    match chat.members
    case Single(_) => Uncaught("AttributeError")
    case Group(guests, _) => Ok(exists g :: g in guests && SameInstance(user, GuestModel, g))
  }

  /** `_is_singlechat_member`: the host, or the single chat's guest; raises for a non-host on a group chat. */
  function IsSingleChatMember(user: User, chat: Chat): (r: Result<bool>)
    ensures r.Uncaught? <==> !IsChatHost(user, chat) && chat.members.Group?
    ensures r == Ok(true) <==> (IsChatHost(user, chat)
                              || (chat.members.Single? && user.role != HOST && user.id == chat.members.guest))
  {
    OrElse(IsChatHost(user, chat), IsSingleChatGuest(user, chat))
  }

  /**
   * `_is_groupchat_member` as written: the host, or one of the group's
   * guests; for a non-host on a single chat it raises instead of refusing.
   */
  function IsGroupChatMemberAsWritten(user: User, chat: Chat): (r: Result<bool>)
    ensures r.Uncaught? <==> !IsChatHost(user, chat) && chat.members.Single?
    ensures r == Ok(true) <==> (IsChatHost(user, chat)
                              || (chat.members.Group? && user.role != HOST && user.id in chat.members.guests))
  {
    OrElse(IsChatHost(user, chat), IsGroupChatGuest(user, chat))
  }

  /** The guest of a single chat who posts to it gets a server error rather than a refusal. */
  lemma SingleChatGuestCrashesGroupGuard(user: User, chat: Chat)
    requires chat.members.Single? && user.role == GUEST && user.id == chat.members.guest
    ensures IsGroupChatMemberAsWritten(user, chat) == Uncaught("AttributeError")
  {
  }

  /**
   * The group-member guard as evidently intended: the host of any chat, or
   * a guest of a group chat; a single chat's guest is simply refused. It is
   * the posting right `Message.create` checks.
   */
  predicate IsGroupChatMember(user: User, chat: Chat)
  {
    IsChatHost(user, chat) || (chat.members.Group? && user.role != HOST && user.id in chat.members.guests)
  }

  /** The corrected guard agrees with the posting right, and with the written guard wherever that answers. */
  lemma GroupChatMemberIsPostingRight(user: User, chat: Chat)
    ensures IsGroupChatMember(user, chat) <==> MessageModels.MayPost(chat, user)
    ensures !IsGroupChatMemberAsWritten(user, chat).Uncaught? ==>
              IsGroupChatMemberAsWritten(user, chat) == Ok(IsGroupChatMember(user, chat))
  {
    if chat.members.Group? && user.role != HOST && user.id in chat.members.guests {
      assert SameInstance(user, GuestModel, user.id);
    }
  }

  /**
   * `_is_chat_member`: the host, a single chat's guest or a group chat's
   * guest. The class tests come first, so it never raises.
   */
  function IsChatMember(user: User, chat: Chat): (r: bool)
    ensures r <==> IsChatHost(user, chat)
                   || (chat.members.Single? && user.role != HOST && user.id == chat.members.guest)
                   || (chat.members.Group? && user.role != HOST && user.id in chat.members.guests)
  {
    var single := chat.members.Single? && IsSingleChatGuest(user, chat) == Ok(true);
    var group := chat.members.Group? && IsGroupChatGuest(user, chat) == Ok(true);
    IsChatHost(user, chat) || single || group
  }

  /** The general member guard answers as the kind-specific guard of the chat's own kind. */
  lemma ChatMemberByKind(user: User, chat: Chat)
    ensures chat.members.Single? ==> Ok(IsChatMember(user, chat)) == IsSingleChatMember(user, chat)
    ensures chat.members.Group? ==> IsChatMember(user, chat) == IsGroupChatMember(user, chat)
    ensures MessageModels.MayPost(chat, user) ==> IsChatMember(user, chat)
  {
    GroupChatMemberIsPostingRight(user, chat);
  }

  /**
   * `_is_message_owner` as written: `request.user == message.user` compares a
   * host or guest instance with the `BaseUser` instance the foreign key
   * yields, which never holds, so only the host of the message's chat passes.
   */
  predicate IsMessageOwnerAsWritten(user: User, m: MessageModels.Message, chatHost: nat)
  {
    SameInstance(user, BaseModel, m.user) || SameInstance(user, HostModel, chatHost)
  }

  /** The author test never holds: the written guard is the chat-host test alone. */
  lemma MessageOwnerAsWrittenIgnoresAuthor(user: User, m: MessageModels.Message, chatHost: nat)
    ensures IsMessageOwnerAsWritten(user, m, chatHost) <==> user.role == HOST && user.id == chatHost
  {
  }

  /** A guest may not delete a message of their own. */
  lemma GuestAuthorRefused(user: User, m: MessageModels.Message, chatHost: nat)
    requires user.role == GUEST && user.id == m.user
    ensures !IsMessageOwnerAsWritten(user, m, chatHost)
  {
  }

  /** The message-owner guard as evidently intended: the author, or the host of the message's chat. */
  predicate IsMessageOwner(user: User, m: MessageModels.Message, chatHost: nat)
  {
    user.id == m.user || SameInstance(user, HostModel, chatHost)
  }

  /** The corrected guard admits the author whatever the role, and otherwise exactly whom the written one admits. */
  lemma MessageOwnerCorrected(user: User, m: MessageModels.Message, chatHost: nat)
    ensures user.id == m.user ==> IsMessageOwner(user, m, chatHost)
    ensures user.id != m.user ==> (IsMessageOwner(user, m, chatHost) <==> IsMessageOwnerAsWritten(user, m, chatHost))
    ensures IsMessageOwnerAsWritten(user, m, chatHost) ==> IsMessageOwner(user, m, chatHost)
  {
  }

  const NotChatOwner: string := "You are not the owner of this chat"
  const NotChatMember: string := "You are not a member of this chat"
  const NotMessageOwner: string := "You are not the owner of this message"

  /**
   * A guard decorator (`require_chat_owner()` and the others): the request
   * goes on when the predicate holds, is refused with the guard's message
   * when it does not, and an exception the predicate raises passes through.
   */
  function Guard(holds: Result<bool>, message: string): (r: Result<()>)
    ensures r.Ok? <==> holds == Ok(true)
    ensures holds == Ok(false) ==> r == Err(Raise(Denied(message)))
    ensures r.Err? ==> r.error.code == Forbidden || holds.Err?
    ensures holds.Uncaught? ==> r == Uncaught(holds.exception)
  {
    match holds
    case Ok(b) => if b then Ok(()) else Err(Raise(Denied(message)))
    case Err(e) => Err(e)
    case Uncaught(e) => Uncaught(e)
  }
}
