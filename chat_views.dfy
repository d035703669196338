/**
 * The chat endpoints of Chat/views.py: the chat listing, group creation and
 * deletion, and renaming a group. Each endpoint first authenticates, then
 * validates its query and body, then runs its guard, and only then touches
 * the store; the checks up to the guard are the endpoint's plan.
 */
module ChatViews {
  import opened Values
  import opened Errors
  import opened UserModels
  import opened ChatModels
  import opened Auth
  import opened ChatParams
  import opened ApiPacker
  import Processor

  // ----- ChatListView -----

  /** The projections of a listing, in its order. */
  function JsonItems(cs: seq<Chat>, tiny: nat -> Dict): (r: seq<Value>)
    ensures |r| == |cs|
    ensures forall i :: 0 <= i < |cs| ==> r[i] == VDict(ChatJson(cs[i], tiny))
  {
    seq(|cs|, i requires 0 <= i < |cs| => VDict(ChatJson(cs[i], tiny)))
  }

  /** The chat classes in the order the listing visits them. */
  const Kinds: seq<ChatClass> := [SingleChatClass, GroupChatClass]

  /** `chat.get_host_chats(user)` or `chat.get_guest_chats(user)` for one chat class. */
  function Listing(chats: ChatTable, kind: ChatClass, user: nat, asHost: bool): seq<Chat>
    reads chats
  {
    match kind
    case SingleChatClass => if asHost then chats.HostSingleChats(user) else chats.GuestSingleChats(user)
    case GroupChatClass => if asHost then chats.HostGroupChats(user) else chats.GuestGroupChats(user)
  }

  /** The list after `extend`ing it with the listings of `kinds`, in order. */
  function Extended(chats: ChatTable, kinds: seq<ChatClass>, user: nat, asHost: bool, tiny: nat -> Dict): seq<Value>
    reads chats
  {
    if kinds == [] then []
    else Extended(chats, kinds[..|kinds| - 1], user, asHost, tiny) + JsonItems(Listing(chats, kinds[|kinds| - 1], user, asHost), tiny)
  }

  /** Both visits together: all single chats first, then all group chats. */
  lemma ExtendedKinds(chats: ChatTable, user: nat, asHost: bool, tiny: nat -> Dict)
    ensures Extended(chats, Kinds, user, asHost, tiny) ==
              JsonItems(Listing(chats, SingleChatClass, user, asHost), tiny)
              + JsonItems(Listing(chats, GroupChatClass, user, asHost), tiny)
  {
    assert Kinds[..1] == [SingleChatClass] && Kinds[..1][..0] == [];
    assert Extended(chats, Kinds[..1], user, asHost, tiny) == JsonItems(Listing(chats, SingleChatClass, user, asHost), tiny);
  }

  /** The loop of `get_host_chats` / `get_guest_chats`. */
  method Collect(chats: ChatTable, user: nat, asHost: bool, tiny: nat -> Dict) returns (r: seq<Value>)
    ensures r == JsonItems(Listing(chats, SingleChatClass, user, asHost), tiny)
                 + JsonItems(Listing(chats, GroupChatClass, user, asHost), tiny)
  {
    r := [];
    var i := 0;
    while i < |Kinds|
      invariant 0 <= i <= |Kinds|
      invariant r == Extended(chats, Kinds[..i], user, asHost, tiny)
    {
      assert Kinds[..i + 1][..i] == Kinds[..i];
      r := r + JsonItems(Listing(chats, Kinds[i], user, asHost), tiny);
      i := i + 1;
    }
    assert Kinds[..i] == Kinds;
    ExtendedKinds(chats, user, asHost, tiny);
  }

  /** `ChatListView.get_host_chats`: the host's live single chats, then the host's live group chats. */
  method HostChats(chats: ChatTable, host: nat, tiny: nat -> Dict) returns (r: seq<Value>)
    ensures r == JsonItems(chats.HostSingleChats(host), tiny) + JsonItems(chats.HostGroupChats(host), tiny)
  {
    r := Collect(chats, host, true, tiny);
  }

  /** `ChatListView.get_guest_chats`: the guest's live single chats, then the live group chats the guest is in. */
  method GuestChats(chats: ChatTable, guest: nat, tiny: nat -> Dict) returns (r: seq<Value>)
    ensures r == JsonItems(chats.GuestSingleChats(guest), tiny) + JsonItems(chats.GuestGroupChats(guest), tiny)
  {
    r := Collect(chats, guest, false, tiny);
  }

  /** A host's listings hold exactly the live chats the host owns. */
  lemma HostListingIsOwnership(chats: ChatTable, user: User)
    requires user.role == HOST
    ensures forall c :: c in chats.HostSingleChats(user.id) + chats.HostGroupChats(user.id) <==>
                          c in chats.chats && !c.isDeleted && IsChatHost(user, c)
  {
  }

  /** A guest's listings hold exactly the live chats the guest is a member of. */
  lemma GuestListingIsMembership(chats: ChatTable, user: User)
    requires user.role != HOST
    ensures forall c :: c in chats.GuestSingleChats(user.id) + chats.GuestGroupChats(user.id) <==>
                          c in chats.chats && !c.isDeleted && IsChatMember(user, c)
  {
  }

  /** `ChatListView.get`: any authenticated user; a host gets the host listing, anyone else the guest listing. */
  method List(request: HttpRequest, users: UserTable, chats: ChatTable, decode: string -> Decoded, now: real,
              tiny: nat -> Dict) returns (r: Result<Reply>)
    modifies request
    ensures request.user == if Login(users, request.token, decode, now).Ok?
                            then Some(Login(users, request.token, decode, now).value) else old(request.user)
    ensures var auth := Authenticate(users, request.token, decode, now, None);
            (!auth.Ok? ==> r == auth.PropagateFailure())
            && (auth.Ok? && auth.value.role == HOST ==>
                  r == Ok(Body(VList(JsonItems(chats.HostSingleChats(auth.value.id), tiny)
                                     + JsonItems(chats.HostGroupChats(auth.value.id), tiny)))))
            && (auth.Ok? && auth.value.role != HOST ==>
                  r == Ok(Body(VList(JsonItems(chats.GuestSingleChats(auth.value.id), tiny)
                                     + JsonItems(chats.GuestGroupChats(auth.value.id), tiny)))))
  {
    var auth := RequireUser(request, users, decode, now, None);
    if !auth.Ok? {
      return auth.PropagateFailure();
    }
    var user := auth.value;
    var items;
    if Specified(user) == HostModel {
      items := HostChats(chats, user.id, tiny);
    } else {
      items := GuestChats(chats, user.id, tiny);
    }
    r := Ok(Body(VList(items)));
  }

  // ----- GroupChatView -----

  /** The checks of `GroupChatView.post` before the store is touched: a host, and the validated guests. */
  function PostGroupPlan(users: UserTable, token: Option<string>, body: Dict, decode: string -> Decoded, now: real)
    : (r: Result<(User, seq<User>)>)
    reads users
    ensures r.Ok? ==> Authenticate(users, token, decode, now, Some(HOST)) == Ok(r.value.0) && r.value.0.role == HOST
    ensures r.Ok? ==> Guests(users, body) == Ok(r.value.1)
    ensures !Authenticate(users, token, decode, now, Some(HOST)).Ok? ==>
              r == Authenticate(users, token, decode, now, Some(HOST)).PropagateFailure()
  {
    var host :- Authenticate(users, token, decode, now, Some(HOST));
    var guests :- Guests(users, body);
    Ok((host, guests))
  }

  /** `GroupChatView.post`: creates the group of the authenticated host and the given guests, and returns its projection. */
  method PostGroup(request: HttpRequest, users: UserTable, chats: ChatTable, decode: string -> Decoded, now: real,
                   tiny: nat -> Dict) returns (r: Result<Reply>)
    requires chats.Valid()
    modifies request, chats
    ensures request.user == if Login(users, request.token, decode, now).Ok?
                            then Some(Login(users, request.token, decode, now).value) else old(request.user)
    ensures chats.Valid()
    ensures var plan := PostGroupPlan(users, request.token, request.body, decode, now);
            (!plan.Ok? ==> r == plan.PropagateFailure() && chats.chats == old(chats.chats))
            && (plan.Ok? && |plan.value.1| == 0 ==> r == Err(Raise(GroupChatEmpty)) && chats.chats == old(chats.chats))
            && (plan.Ok? && |plan.value.1| == 1 ==> r == Err(Raise(GroupChatTooSmall)) && chats.chats == old(chats.chats))
            && (plan.Ok? && |plan.value.1| >= 2 && !Aligned(plan.value.0.id, plan.value.1) ==>
                  r == Err(Raise(UnalignedHost)) && chats.chats == old(chats.chats))
            && (plan.Ok? && |plan.value.1| >= 2 && Aligned(plan.value.0.id, plan.value.1) ==>
                  var chat := NewGroup(|old(chats.chats)|, plan.value.0.id, plan.value.1, now);
                  r == Ok(Body(VDict(ChatJson(chat, tiny)))) && chats.chats == old(chats.chats) + [chat])
  {
    var auth := RequireUser(request, users, decode, now, Some(HOST));
    if !auth.Ok? {
      return auth.PropagateFailure();
    }
    var guests := Guests(users, request.body);
    if !guests.Ok? {
      return guests.PropagateFailure();
    }
    var created := chats.CreateGroup(auth.value.id, guests.value, now);
    if !created.Ok? {
      return created.PropagateFailure();
    }
    r := Ok(Body(VDict(ChatJson(created.value, tiny))));
  }

  /** The checks of `GroupChatView.delete`: a host, a live group chat, and that host owning it. */
  function DeletePlan(users: UserTable, chats: ChatTable, token: Option<string>, query: Dict,
                      decode: string -> Decoded, now: real): (r: Result<Chat>)
    reads users, chats
    ensures r.Ok? ==> GroupChatId(chats, query) == Ok(r.value)
    ensures r.Ok? ==> Authenticate(users, token, decode, now, Some(HOST)).Ok?
                      && IsChatHost(Authenticate(users, token, decode, now, Some(HOST)).value, r.value)
    ensures Authenticate(users, token, decode, now, Some(HOST)).Ok? && GroupChatId(chats, query).Ok?
            && !IsChatHost(Authenticate(users, token, decode, now, Some(HOST)).value, GroupChatId(chats, query).value)
            ==> r == Err(Raise(Denied(NotChatOwner)))
  {
    var user :- Authenticate(users, token, decode, now, Some(HOST));
    var chat :- GroupChatId(chats, query);
    var _ :- Guard(Ok(IsChatHost(user, chat)), NotChatOwner);
    Ok(chat)
  }

  /** What passes the delete plan is a live group chat of the store, hosted by the authenticated host. */
  lemma DeletePlanAdmits(users: UserTable, chats: ChatTable, token: Option<string>, query: Dict,
                         decode: string -> Decoded, now: real)
    requires chats.Valid()
    requires DeletePlan(users, chats, token, query, decode, now).Ok?
    ensures var chat := DeletePlan(users, chats, token, query, decode, now).value;
            chat.id < |chats.chats| && chats.chats[chat.id] == chat && chat.members.Group? && !chat.isDeleted
            && chat.host == Authenticate(users, token, decode, now, Some(HOST)).value.id
  {
  }

  /** `GroupChatView.delete`: soft-deletes the group and returns `OK`. */
  method DeleteGroup(request: HttpRequest, users: UserTable, chats: ChatTable, decode: string -> Decoded, now: real)
    returns (r: Result<Reply>)
    requires chats.Valid()
    modifies request, chats
    ensures request.user == if Login(users, request.token, decode, now).Ok?
                            then Some(Login(users, request.token, decode, now).value) else old(request.user)
    ensures chats.Valid()
    ensures var plan := old(DeletePlan(users, chats, request.token, request.query, decode, now));
            (!plan.Ok? ==> r == plan.PropagateFailure() && chats.chats == old(chats.chats))
            && (plan.Ok? ==> r == Ok(Marker(OkError))
                             && chats.chats == old(chats.chats)[plan.value.id := plan.value.(isDeleted := true, lastChatAt := now)])
  {
    var plan := DeletePlan(users, chats, request.token, request.query, decode, now);
    if plan.Ok? {
      DeletePlanAdmits(users, chats, request.token, request.query, decode, now);
    }
    var auth := RequireUser(request, users, decode, now, Some(HOST));
    if !plan.Ok? {
      return plan.PropagateFailure();
    }
    chats.Remove(plan.value.id, now);
    r := Ok(Marker(OkError));
  }

  // ----- GroupChatNameView -----

  /** The body's `name`: present and a string. */
  function NewName(body: Dict): (r: Result<string>)
    ensures r.Ok? <==> Get(body, "name").Some? && Get(body, "name").value.VStr?
    ensures r.Ok? ==> r.value == Get(body, "name").value.s
    ensures !r.Ok? ==> r == Err(Raise(MalformedField("name")))
  {
    var v :- Processor.Field(body, "name");
    if v.VStr? then Ok(v.s) else Err(Raise(MalformedField("name")))
  }

  /**
   * The checks of `GroupChatNameView.post` as written: a host, a live chat
   * of either kind through `BaseChatParams.chat_id`, a name, and the owner
   * guard.
   */
  function RenamePlanAsWritten(users: UserTable, chats: ChatTable, token: Option<string>, query: Dict, body: Dict,
                               decode: string -> Decoded, now: real): (r: Result<(Chat, string)>)
    reads users, chats
    ensures r.Ok? ==> ChatId(chats, query) == Ok(r.value.0) && NewName(body) == Ok(r.value.1)
    ensures r.Ok? ==> Authenticate(users, token, decode, now, Some(HOST)).Ok?
                      && IsChatHost(Authenticate(users, token, decode, now, Some(HOST)).value, r.value.0)
  {
    var user :- Authenticate(users, token, decode, now, Some(HOST));
    var chat :- ChatId(chats, query);
    var name :- NewName(body);
    var _ :- Guard(Ok(IsChatHost(user, chat)), NotChatOwner);
    Ok((chat, name))
  }

  /** The same checks with the group-only `GroupChatParams.chat_id`, as the view evidently intends. */
  function RenamePlan(users: UserTable, chats: ChatTable, token: Option<string>, query: Dict, body: Dict,
                      decode: string -> Decoded, now: real): (r: Result<(Chat, string)>)
    reads users, chats
    ensures r.Ok? ==> GroupChatId(chats, query) == Ok(r.value.0) && r.value.0.members.Group? && NewName(body) == Ok(r.value.1)
    ensures r.Ok? ==> Authenticate(users, token, decode, now, Some(HOST)).Ok?
                      && IsChatHost(Authenticate(users, token, decode, now, Some(HOST)).value, r.value.0)
  {
    var user :- Authenticate(users, token, decode, now, Some(HOST));
    var chat :- GroupChatId(chats, query);
    var name :- NewName(body);
    var _ :- Guard(Ok(IsChatHost(user, chat)), NotChatOwner);
    Ok((chat, name))
  }

  /** The two plans agree wherever the query names a group chat, and on every request the corrected plan admits. */
  lemma RenamePlansAgree(users: UserTable, chats: ChatTable, token: Option<string>, query: Dict, body: Dict,
                         decode: string -> Decoded, now: real)
    ensures ChatId(chats, query).Ok? && ChatId(chats, query).value.members.Group? ==>
              RenamePlan(users, chats, token, query, body, decode, now)
              == RenamePlanAsWritten(users, chats, token, query, body, decode, now)
    ensures RenamePlan(users, chats, token, query, body, decode, now).Ok? ==>
              RenamePlan(users, chats, token, query, body, decode, now)
              == RenamePlanAsWritten(users, chats, token, query, body, decode, now)
  {
  }

  /**
   * A host renaming their own single chat: the written plan admits it (and
   * the view then fails calling `rename`, which a single chat lacks), while
   * the corrected plan rejects it as not a group chat.
   */
  lemma RenameSingleChat(users: UserTable, chats: ChatTable, token: Option<string>, query: Dict, body: Dict,
                         decode: string -> Decoded, now: real)
    requires Authenticate(users, token, decode, now, Some(HOST)).Ok?
    requires ChatId(chats, query).Ok? && ChatId(chats, query).value.members.Single?
    requires ChatId(chats, query).value.host == Authenticate(users, token, decode, now, Some(HOST)).value.id
    requires NewName(body).Ok?
    ensures RenamePlanAsWritten(users, chats, token, query, body, decode, now)
            == Ok((ChatId(chats, query).value, NewName(body).value))
    ensures RenamePlan(users, chats, token, query, body, decode, now) == Err(Raise(Rejected(NotAGroupChat)))
  {
  }

  /** The chat after `rename(name)` and its save. */
  function Renamed(c: Chat, name: string, now: real): Chat
    requires c.members.Group?
  {
    c.(members := c.members.(name := name), lastChatAt := now)
  }

  /**
   * `GroupChatNameView.post` as written: a single chat passes the checks and
   * then has no `rename`, so the request ends in `AttributeError`.
   */
  method RenameAsWritten(request: HttpRequest, users: UserTable, chats: ChatTable, decode: string -> Decoded,
                         now: real, tiny: nat -> Dict) returns (r: Result<Reply>)
    requires chats.Valid()
    modifies request, chats
    ensures request.user == if Login(users, request.token, decode, now).Ok?
                            then Some(Login(users, request.token, decode, now).value) else old(request.user)
    ensures chats.Valid()
    ensures var plan := old(RenamePlanAsWritten(users, chats, request.token, request.query, request.body, decode, now));
            (!plan.Ok? ==> r == plan.PropagateFailure() && chats.chats == old(chats.chats))
            && (plan.Ok? && plan.value.0.members.Single? ==> r == Uncaught("AttributeError") && chats.chats == old(chats.chats))
            && (plan.Ok? && plan.value.0.members.Group? ==>
                  var chat := Renamed(plan.value.0, plan.value.1, now);
                  r == Ok(Body(VDict(ChatJson(chat, tiny)))) && chats.chats == old(chats.chats)[chat.id := chat])
  {
    var plan := RenamePlanAsWritten(users, chats, request.token, request.query, request.body, decode, now);
    var auth := RequireUser(request, users, decode, now, Some(HOST));
    if !plan.Ok? {
      return plan.PropagateFailure();
    }
    var (chat, name) := plan.value;
    if chat.members.Single? {
      return Uncaught("AttributeError");
    }
    chats.Rename(chat.id, name, now);
    r := Ok(Body(VDict(ChatJson(Renamed(chat, name, now), tiny))));
  }

  /** `GroupChatNameView.post` with the group-only chat id: renames the host's group and returns its projection. */
  method Rename(request: HttpRequest, users: UserTable, chats: ChatTable, decode: string -> Decoded,
                now: real, tiny: nat -> Dict) returns (r: Result<Reply>)
    requires chats.Valid()
    modifies request, chats
    ensures request.user == if Login(users, request.token, decode, now).Ok?
                            then Some(Login(users, request.token, decode, now).value) else old(request.user)
    ensures chats.Valid()
    ensures var plan := old(RenamePlan(users, chats, request.token, request.query, request.body, decode, now));
            (!plan.Ok? ==> r == plan.PropagateFailure() && chats.chats == old(chats.chats))
            && (plan.Ok? ==>
                  var chat := Renamed(plan.value.0, plan.value.1, now);
                  r == Ok(Body(VDict(ChatJson(chat, tiny)))) && chats.chats == old(chats.chats)[chat.id := chat])
  {
    var plan := RenamePlan(users, chats, request.token, request.query, request.body, decode, now);
    var auth := RequireUser(request, users, decode, now, Some(HOST));
    if !plan.Ok? {
      return plan.PropagateFailure();
    }
    var (chat, name) := plan.value;
    chats.Rename(chat.id, name, now);
    r := Ok(Body(VDict(ChatJson(Renamed(chat, name, now), tiny))));
  }
}
