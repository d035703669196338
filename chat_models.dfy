/**
 * The chat store of Chat/models.py. A chat is either single (one host and
 * one guest) or a group (one host, a set of guests and a name); both kinds
 * share one id space, so the store is one table whose row at position `i` is
 * the chat with id `i`. Chats are deleted softly, by a flag.
 */
module ChatModels {
  import opened Values
  import opened Errors
  import opened Seqs
  import Jsonify
  import UserModels

  // ChatSchemeChoice
  const SINGLE: int := 0
  const GROUP: int := 1

  datatype ChatClass = SingleChatClass | GroupChatClass

  /** The class a lookup is made through: `BaseChat`, `SingleChat` or `GroupChat`. */
  datatype ChatModel = BaseChatModel | SingleChatModel | GroupChatModel

  /** `BaseChat.get_class`: `SingleChat` for the single scheme, `GroupChat` for every other. */
  function GetClass(scheme: int): (c: ChatClass)
    ensures c == SingleChatClass <==> scheme == SINGLE
    ensures c == GroupChatClass <==> scheme != SINGLE
  {
    if scheme == SINGLE then SingleChatClass else GroupChatClass
  }

  function ModelOf(c: ChatClass): ChatModel
  {
    match c
    case SingleChatClass => SingleChatModel
    case GroupChatClass => GroupChatModel
  }

  /** The members besides the host: a single chat's guest, or a group's guests and name. */
  datatype Members = Single(guest: nat) | Group(guests: seq<nat>, name: string)

  /** A chat row; `host` and the guests are user ids, the times are timestamps. */
  datatype Chat = Chat(id: nat, host: nat, createdAt: real, lastChatAt: real, isDeleted: bool, members: Members)

  /** The `scheme` column, as the kind of the members determines it. */
  function Scheme(c: Chat): int
  {
    if c.members.Single? then SINGLE else GROUP
  }

  /** The `group` property. */
  predicate IsGroup(c: Chat)
  {
    Scheme(c) == GROUP
  }

  /** `group` holds exactly for group chats, and `get_class` of a chat's scheme is the chat's own class. */
  lemma GroupMeansGroupClass(c: Chat)
    ensures IsGroup(c) <==> c.members.Group?
    ensures GetClass(Scheme(c)) == if c.members.Single? then SingleChatClass else GroupChatClass
  {
  }

  predicate InTable(model: ChatModel, c: Chat)
  {
    match model
    case BaseChatModel => true
    case SingleChatModel => c.members.Single?
    case GroupChatModel => c.members.Group?
  }

  predicate Distinct(s: seq<nat>)
  {
    forall i, j :: 0 <= i < j < |s| ==> s[i] != s[j]
  }

  /** `guests.add(*ids)`: each id not yet a member joins, in order; duplicates are ignored. */
  function AddAll(members: seq<nat>, ids: seq<nat>): (r: seq<nat>)
    requires Distinct(members)
    ensures Distinct(r)
    ensures forall g :: g in r <==> g in members || g in ids
    ensures |r| >= |members| && r[..|members|] == members
    decreases |ids|
  {
    if ids == [] then members
    else if ids[0] in members then AddAll(members, ids[1..])
    else
      var r := AddAll(members + [ids[0]], ids[1..]);
      assert (members + [ids[0]])[..|members|] == members;
      r
  }

  /** `guests.remove(id)`. */
  function Without(members: seq<nat>, id: nat): (r: seq<nat>)
    ensures forall g :: g in r <==> g in members && g != id
  {
    Filter(members, g => g != id)
  }

  lemma {:induction false} WithoutDistinct(members: seq<nat>, id: nat)
    requires Distinct(members)
    ensures Distinct(Without(members, id))
  {
    if members != [] {
      assert Distinct(members[1..]) by {
        forall i, j | 0 <= i < j < |members[1..]| ensures members[1..][i] != members[1..][j] {
          assert members[1..][i] == members[i + 1] && members[1..][j] == members[j + 1];
        }
      }
      WithoutDistinct(members[1..], id);
      assert members[0] !in members[1..];
      assert Without(members, id) == (if members[0] != id then [members[0]] else []) + Without(members[1..], id);
    }
  }

  /** `'Group Chat ({num})'.format(num=num)`. */
  function GroupName(num: nat): string
  {
    "Group Chat (" + NatToString(num) + ")"
  }

  function GuestIds(guests: seq<UserModels.User>): (ids: seq<nat>)
    ensures |ids| == |guests|
    ensures forall i :: 0 <= i < |guests| ==> ids[i] == guests[i].id
  {
    seq(|guests|, i requires 0 <= i < |guests| => guests[i].id)
  }

  /** Whether every guest belongs to the host (`guest.host == host`). */
  predicate Aligned(host: nat, guests: seq<UserModels.User>)
  {
    forall i :: 0 <= i < |guests| ==> guests[i].host == Some(host)
  }

  /** The row `GroupChat.create` inserts: scheme GROUP, the host, the guests, and a name counting the host. */
  function NewGroup(id: nat, host: nat, guests: seq<UserModels.User>, now: real): (c: Chat)
    ensures c.host == host && IsGroup(c) && !c.isDeleted
    ensures forall g :: g in c.members.guests <==> exists i :: 0 <= i < |guests| && guests[i].id == g
    ensures Distinct(c.members.guests)
    ensures c.members.name == "Group Chat (" + NatToString(|guests| + 1) + ")"
  {
    var ids := GuestIds(guests);
    var members := AddAll([], ids);
    assert forall g :: g in members <==> g in ids;
    Chat(id, host, now, now, false, Group(members, GroupName(|guests| + 1)))
  }

  /** The row `SingleChat.get_or_create` inserts: the guest's own host, scheme SINGLE. */
  function NewSingle(id: nat, guest: UserModels.User, now: real): Chat
    requires guest.host.Some?
  {
    Chat(id, guest.host.value, now, now, false, Single(guest.id))
  }

  predicate IsLiveSingleOf(c: Chat, guest: nat)
  {
    c.members == Single(guest) && !c.isDeleted
  }

  predicate IsHostSingle(c: Chat, host: nat)
  {
    c.members.Single? && c.host == host && !c.isDeleted
  }

  predicate IsGuestSingle(c: Chat, guest: nat)
  {
    c.members.Single? && c.members.guest == guest && !c.isDeleted
  }

  predicate IsHostGroup(c: Chat, host: nat)
  {
    c.members.Group? && c.host == host && !c.isDeleted
  }

  predicate IsGuestGroup(c: Chat, guest: nat)
  {
    c.members.Group? && guest in c.members.guests && !c.isDeleted
  }

  function Id(c: Chat): int
  {
    c.id
  }

  /**
   * The store as the methods leave it: ids are positions, group guests are
   * distinct, and a guest has at most one live single chat (the check
   * `get_or_create` makes before it creates one).
   */
  ghost predicate ValidChats(chats: seq<Chat>)
  {
    (forall i :: 0 <= i < |chats| ==> chats[i].id == i && (chats[i].members.Group? ==> Distinct(chats[i].members.guests)))
    && (forall i, j ::
          0 <= i < j < |chats| && chats[i].members.Single? && !chats[i].isDeleted && chats[j].members.Single? && !chats[j].isDeleted
          ==> chats[i].members.guest != chats[j].members.guest)
  }

  /** Rows held in id order. */
  lemma IdOrder(chats: seq<Chat>)
    requires ValidChats(chats)
    ensures Increasing(chats, Id)
  {
  }

  class ChatTable {
    var chats: seq<Chat>

    ghost predicate Valid()
      reads this
    {
      ValidChats(chats)
    }

    constructor()
      ensures chats == [] && Valid()
    {
      chats := [];
    }

    /**
     * `index(chat_id)` called on a model class: an id that is unknown, soft
     * deleted or of the other kind fails `NOT_EXISTS(chat=chat_id)`; a
     * `BaseChat` lookup is specified to the chat's own class.
     */
    function Index(model: ChatModel, id: int): (r: Result<Chat>)
      reads this
      decreases if model.BaseChatModel? then 1 else 0
      ensures r.Ok? <==> 0 <= id < |chats| && !chats[id].isDeleted && InTable(model, chats[id])
      ensures r.Ok? ==> r.value == chats[id]
      ensures !r.Ok? ==> r == Err(Raise(ChatNotExists(id)))
    {
      if !(0 <= id < |chats|) || chats[id].isDeleted || !InTable(model, chats[id]) then Err(Raise(ChatNotExists(id)))
      else if model.BaseChatModel? then Index(ModelOf(GetClass(Scheme(chats[id]))), id)
      else Ok(chats[id])
    }

    /** `SingleChat.objects.filter(guest=guest, is_deleted=False).first()`. */
    function FindSingle(guest: nat): (r: Option<nat>)
      reads this
      ensures r.None? <==> forall i :: 0 <= i < |chats| ==> !IsLiveSingleOf(chats[i], guest)
      ensures r.Some? ==> r.value < |chats| && IsLiveSingleOf(chats[r.value], guest)
    {
      FirstIndex(chats, c => IsLiveSingleOf(c, guest))
    }

    /** In a valid store the chat `FindSingle` returns is the guest's only live single chat. */
    lemma FindSingleUnique(guest: nat)
      requires Valid()
      ensures FindSingle(guest).Some? ==>
                forall i :: 0 <= i < |chats| && IsLiveSingleOf(chats[i], guest) ==> i == FindSingle(guest).value
    {
    }

    /** `SingleChat.get_host_chats`: the host's live single chats, in id order. */
    function HostSingleChats(host: nat): (r: seq<Chat>)
      reads this
      ensures forall c :: c in r <==> c in chats && IsHostSingle(c, host)
    {
      Filter(chats, c => IsHostSingle(c, host))
    }

    /** `SingleChat.get_guest_chats`: the guest's live single chats, in id order. */
    function GuestSingleChats(guest: nat): (r: seq<Chat>)
      reads this
      ensures forall c :: c in r <==> c in chats && IsGuestSingle(c, guest)
    {
      Filter(chats, c => IsGuestSingle(c, guest))
    }

    /** `GroupChat.get_host_chats`: the host's live group chats, in id order. */
    function HostGroupChats(host: nat): (r: seq<Chat>)
      reads this
      ensures forall c :: c in r <==> c in chats && IsHostGroup(c, host)
    {
      Filter(chats, c => IsHostGroup(c, host))
    }

    /** `GroupChat.get_guest_chats`: the live group chats the guest belongs to, in id order. */
    function GuestGroupChats(guest: nat): (r: seq<Chat>)
      reads this
      ensures forall c :: c in r <==> c in chats && IsGuestGroup(c, guest)
    {
      Filter(chats, c => IsGuestGroup(c, guest))
    }

    /** Every listing keeps the store's id order. */
    lemma ListingsInIdOrder(user: nat)
      requires Valid()
      ensures Increasing(HostSingleChats(user), Id) && Increasing(GuestSingleChats(user), Id)
      ensures Increasing(HostGroupChats(user), Id) && Increasing(GuestGroupChats(user), Id)
    {
      IdOrder(chats);
      FilterIncreasing(chats, c => IsHostSingle(c, user), Id);
      FilterIncreasing(chats, c => IsGuestSingle(c, user), Id);
      FilterIncreasing(chats, c => IsHostGroup(c, user), Id);
      FilterIncreasing(chats, c => IsGuestGroup(c, user), Id);
    }

    /** `remove`: the chat is flagged deleted (and saved, which stamps `last_chat_at`). */
    method Remove(id: nat, now: real)
      requires Valid() && id < |chats|
      modifies this
      ensures Valid()
      ensures chats == old(chats)[id := old(chats)[id].(isDeleted := true, lastChatAt := now)]
      ensures forall model :: Index(model, id).Err?
      ensures forall u :: chats[id] !in HostSingleChats(u) && chats[id] !in GuestSingleChats(u)
                          && chats[id] !in HostGroupChats(u) && chats[id] !in GuestGroupChats(u)
    {
      chats := chats[id := chats[id].(isDeleted := true, lastChatAt := now)];
    }

    /**
     * `GroupChat.create`: no guests fails `GROUP_CHAT_EMPTY`, one guest fails
     * `GROUP_CHAT_TOO_SMALL`, a guest of another host fails `UNALIGNED_HOST`;
     * only then is the chat inserted.
     */
    method CreateGroup(host: nat, guests: seq<UserModels.User>, now: real) returns (r: Result<Chat>)
      requires Valid()
      modifies this
      ensures Valid()
      ensures |guests| == 0 ==> r == Err(Raise(GroupChatEmpty)) && chats == old(chats)
      ensures |guests| == 1 ==> r == Err(Raise(GroupChatTooSmall)) && chats == old(chats)
      ensures |guests| >= 2 && !Aligned(host, guests) ==> r == Err(Raise(UnalignedHost)) && chats == old(chats)
      ensures |guests| >= 2 && Aligned(host, guests) ==>
                r == Ok(NewGroup(|old(chats)|, host, guests, now)) && chats == old(chats) + [r.value]
    {
      if |guests| == 0 {
        return Err(Raise(GroupChatEmpty));
      }
      if |guests| == 1 {
        return Err(Raise(GroupChatTooSmall));
      }
      var i := 0;
      while i < |guests|
        invariant 0 <= i <= |guests|
        invariant forall j :: 0 <= j < i ==> guests[j].host == Some(host)
      {
        if guests[i].host != Some(host) {
          return Err(Raise(UnalignedHost));
        }
        i := i + 1;
      }
      var chat := NewGroup(|chats|, host, guests, now);
      chats := chats + [chat];
      r := Ok(chat);
    }

    /** `add_guest`: a guest of another host fails `UNALIGNED_HOST`; otherwise the guest is a member. */
    method AddGuest(id: nat, guest: UserModels.User) returns (r: Result<()>)
      requires Valid() && id < |chats| && chats[id].members.Group?
      modifies this
      ensures Valid()
      ensures guest.host != Some(old(chats)[id].host) ==> r == Err(Raise(UnalignedHost)) && chats == old(chats)
      ensures guest.host == Some(old(chats)[id].host) ==>
                r == Ok(()) && chats == old(chats)[id := old(chats)[id].(members :=
                  old(chats)[id].members.(guests := AddAll(old(chats)[id].members.guests, [guest.id])))]
      ensures r.Ok? ==> forall g :: g in chats[id].members.guests <==> g in old(chats)[id].members.guests || g == guest.id
    {
      var chat := chats[id];
      if guest.host != Some(chat.host) {
        return Err(Raise(UnalignedHost));
      }
      chats := chats[id := chat.(members := chat.members.(guests := AddAll(chat.members.guests, [guest.id])))];
      r := Ok(());
    }

    /** `remove_guest`: a non-member fails `NOT_MEMBER(guest, chat)`; otherwise only that guest leaves. */
    method RemoveGuest(id: nat, guest: UserModels.User) returns (r: Result<()>)
      requires Valid() && id < |chats| && chats[id].members.Group?
      modifies this
      ensures Valid()
      ensures guest.id !in old(chats)[id].members.guests ==>
                r == Err(Raise(NotMember(guest.name, old(chats)[id].members.name))) && chats == old(chats)
      ensures guest.id in old(chats)[id].members.guests ==>
                r == Ok(()) && chats == old(chats)[id := old(chats)[id].(members :=
                  old(chats)[id].members.(guests := Without(old(chats)[id].members.guests, guest.id)))]
      ensures r.Ok? ==> forall g :: g in chats[id].members.guests <==> g in old(chats)[id].members.guests && g != guest.id
    {
      var chat := chats[id];
      if guest.id !in chat.members.guests {
        return Err(Raise(NotMember(guest.name, chat.members.name)));
      }
      WithoutDistinct(chat.members.guests, guest.id);
      chats := chats[id := chat.(members := chat.members.(guests := Without(chat.members.guests, guest.id)))];
      r := Ok(());
    }

    /** `rename`: the group's name is replaced (and the save stamps `last_chat_at`). */
    method Rename(id: nat, name: string, now: real)
      requires Valid() && id < |chats| && chats[id].members.Group?
      modifies this
      ensures Valid()
      ensures chats == old(chats)[id := old(chats)[id].(members := old(chats)[id].members.(name := name), lastChatAt := now)]
    {
      var chat := chats[id];
      chats := chats[id := chat.(members := chat.members.(name := name), lastChatAt := now)];
    }

    /**
     * `SingleChat.get_or_create`: the guest's live single chat if there is
     * one, otherwise a new one with the guest's host; either way the guest's
     * live single chat is then the one returned.
     */
    method GetOrCreateSingle(guest: UserModels.User, now: real) returns (c: Chat)
      requires Valid() && guest.host.Some?
      modifies this
      ensures Valid()
      ensures old(FindSingle(guest.id)).Some? ==> c == old(chats)[old(FindSingle(guest.id)).value] && chats == old(chats)
      ensures old(FindSingle(guest.id)).None? ==> c == NewSingle(|old(chats)|, guest, now) && chats == old(chats) + [c]
      ensures FindSingle(guest.id).Some? && chats[FindSingle(guest.id).value] == c
    {
      var found := FindSingle(guest.id);
      if found.Some? {
        return chats[found.value];
      }
      c := NewSingle(|chats|, guest, now);
      ghost var before := chats;
      chats := chats + [c];
      assert forall i :: 0 <= i < |before| ==> chats[i] == before[i];
      assert IsLiveSingleOf(chats[|before|], guest.id);
    }
  }

  // ----- projections -----

  /**
   * The projection fields of a chat. `tiny` gives a user's `tiny_json`; the
   * projectors `_jsonify_host`, `_jsonify_guest(s)`, `_jsonify_group` and the
   * timestamp projectors override the raw attributes.
   */
  function ChatEntity(c: Chat, tiny: nat -> Dict): Jsonify.Entity
  {
    var attrs := map["id" := VInt(c.id), "host" := VInt(c.host), "scheme" := VInt(Scheme(c)),
                     "is_deleted" := VBool(c.isDeleted), "group" := VBool(IsGroup(c))];
    var common := map["created_at" := (_: seq<Value>) => VFloat(c.createdAt),
                      "last_chat_at" := (_: seq<Value>) => VFloat(c.lastChatAt),
                      "host" := (_: seq<Value>) => VDict(tiny(c.host))];
    match c.members
    case Single(g) =>
      Jsonify.Entity(attrs, common["guest" := (_: seq<Value>) => VDict(tiny(g))]["group" := (_: seq<Value>) => VBool(false)])
    case Group(gs, name) =>
      Jsonify.Entity(attrs["name" := VStr(name)],
                     common["guests" := (_: seq<Value>) => VList(seq(|gs|, i requires 0 <= i < |gs| => VDict(tiny(gs[i]))))]
                           ["group" := (_: seq<Value>) => VBool(true)])
  }

  const SingleFields: seq<Jsonify.Request> :=
    [Jsonify.Plain("host"), Jsonify.Plain("guest"), Jsonify.Plain("created_at"), Jsonify.Plain("last_chat_at"),
     Jsonify.Plain("group"), Jsonify.Plain("id->chat_id")]

  const GroupFields: seq<Jsonify.Request> :=
    [Jsonify.Plain("host"), Jsonify.Plain("guests"), Jsonify.Plain("name"), Jsonify.Plain("created_at"),
     Jsonify.Plain("last_chat_at"), Jsonify.Plain("group"), Jsonify.Plain("id->chat_id")]

  /** `json()` (and `jsonl()`) of a single or a group chat. */
  function ChatJson(c: Chat, tiny: nat -> Dict): Dict
  {
    Jsonify.Project(ChatEntity(c, tiny), if c.members.Single? then SingleFields else GroupFields)
  }

  lemma ChatIdKey()
    ensures Jsonify.Source(Jsonify.Plain("id->chat_id")) == "id"
    ensures Jsonify.OutName(Jsonify.Plain("id->chat_id")) == "chat_id"
  {
    assert Jsonify.NoArrow("id");
    Jsonify.ParseAtFirstArrow("id", "chat_id");
    assert "id" + "->" + "chat_id" == "id->chat_id";
  }

  const SingleNames: seq<string> := ["host", "guest", "created_at", "last_chat_at", "group", "chat_id"]

  const GroupNames: seq<string> := ["host", "guests", "name", "created_at", "last_chat_at", "group", "chat_id"]

  lemma SingleKeys()
    ensures |SingleFields| == |SingleNames|
    ensures forall i :: 0 <= i < |SingleFields| ==> Jsonify.OutName(SingleFields[i]) == SingleNames[i]
  {
    forall i | 0 <= i < |SingleFields| ensures Jsonify.OutName(SingleFields[i]) == SingleNames[i] {
      if i == 0 { assert SingleFields[i] == Jsonify.Plain("host") && SingleNames[i] == "host"; Jsonify.PlainKey("host"); }
      else if i == 1 { assert SingleFields[i] == Jsonify.Plain("guest") && SingleNames[i] == "guest"; Jsonify.PlainKey("guest"); }
      else if i == 2 { assert SingleFields[i] == Jsonify.Plain("created_at") && SingleNames[i] == "created_at"; Jsonify.PlainKey("created_at"); }
      else if i == 3 { assert SingleFields[i] == Jsonify.Plain("last_chat_at") && SingleNames[i] == "last_chat_at"; Jsonify.PlainKey("last_chat_at"); }
      else if i == 4 { assert SingleFields[i] == Jsonify.Plain("group") && SingleNames[i] == "group"; Jsonify.PlainKey("group"); }
      else { assert SingleFields[i] == Jsonify.Plain("id->chat_id") && SingleNames[i] == "chat_id"; ChatIdKey(); }
    }
  }

  lemma GroupKeys()
    ensures |GroupFields| == |GroupNames|
    ensures forall i :: 0 <= i < |GroupFields| ==> Jsonify.OutName(GroupFields[i]) == GroupNames[i]
  {
    forall i | 0 <= i < |GroupFields| ensures Jsonify.OutName(GroupFields[i]) == GroupNames[i] {
      if i == 0 { assert GroupFields[i] == Jsonify.Plain("host") && GroupNames[i] == "host"; Jsonify.PlainKey("host"); }
      else if i == 1 { assert GroupFields[i] == Jsonify.Plain("guests") && GroupNames[i] == "guests"; Jsonify.PlainKey("guests"); }
      else if i == 2 { assert GroupFields[i] == Jsonify.Plain("name") && GroupNames[i] == "name"; Jsonify.PlainKey("name"); }
      else if i == 3 { assert GroupFields[i] == Jsonify.Plain("created_at") && GroupNames[i] == "created_at"; Jsonify.PlainKey("created_at"); }
      else if i == 4 { assert GroupFields[i] == Jsonify.Plain("last_chat_at") && GroupNames[i] == "last_chat_at"; Jsonify.PlainKey("last_chat_at"); }
      else if i == 5 { assert GroupFields[i] == Jsonify.Plain("group") && GroupNames[i] == "group"; Jsonify.PlainKey("group"); }
      else { assert GroupFields[i] == Jsonify.Plain("id->chat_id") && GroupNames[i] == "chat_id"; ChatIdKey(); }
    }
  }

  lemma NamesUnique()
    ensures Jsonify.Unique(SingleNames) && Jsonify.Unique(GroupNames)
    ensures "id" !in SingleNames && "id" !in GroupNames
  {
  }

  // One lemma per field keeps each proof about literal keys small.

  lemma HostField(c: Chat, tiny: nat -> Dict)
    ensures Jsonify.FieldValue(ChatEntity(c, tiny), Jsonify.Plain("host")) == VDict(tiny(c.host))
  {
    Jsonify.PlainKey("host");
  }

  lemma ChatIdField(c: Chat, tiny: nat -> Dict)
    ensures Jsonify.FieldValue(ChatEntity(c, tiny), Jsonify.Plain("id->chat_id")) == VInt(c.id)
  {
    ChatIdKey();
  }

  lemma GroupFlagField(c: Chat, tiny: nat -> Dict)
    ensures Jsonify.FieldValue(ChatEntity(c, tiny), Jsonify.Plain("group")) == VBool(c.members.Group?)
  {
    Jsonify.PlainKey("group");
  }

  lemma GuestField(c: Chat, tiny: nat -> Dict)
    requires c.members.Single?
    ensures Jsonify.FieldValue(ChatEntity(c, tiny), Jsonify.Plain("guest")) == VDict(tiny(c.members.guest))
  {
    Jsonify.PlainKey("guest");
  }

  lemma NameField(c: Chat, tiny: nat -> Dict)
    requires c.members.Group?
    ensures Jsonify.FieldValue(ChatEntity(c, tiny), Jsonify.Plain("name")) == VStr(c.members.name)
  {
    Jsonify.PlainKey("name");
  }

  lemma GuestsField(c: Chat, tiny: nat -> Dict)
    requires c.members.Group?
    ensures Jsonify.FieldValue(ChatEntity(c, tiny), Jsonify.Plain("guests")).VList?
    ensures |Jsonify.FieldValue(ChatEntity(c, tiny), Jsonify.Plain("guests")).items| == |c.members.guests|
    ensures forall i :: 0 <= i < |c.members.guests| ==>
              Jsonify.FieldValue(ChatEntity(c, tiny), Jsonify.Plain("guests")).items[i] == VDict(tiny(c.members.guests[i]))
  {
    Jsonify.PlainKey("guests");
  }

  /**
   * A single chat's projection: host, guest, the two timestamps, `group`
   * false and the id renamed to `chat_id` (so no `id` key).
   */
  lemma SingleChatJsonShape(c: Chat, tiny: nat -> Dict)
    requires c.members.Single?
    ensures KeyList(ChatJson(c, tiny)) == ["host", "guest", "created_at", "last_chat_at", "group", "chat_id"]
    ensures Get(ChatJson(c, tiny), "id").None?
    ensures Get(ChatJson(c, tiny), "chat_id") == Some(VInt(c.id))
    ensures Get(ChatJson(c, tiny), "group") == Some(VBool(false))
    ensures Get(ChatJson(c, tiny), "host") == Some(VDict(tiny(c.host)))
    ensures Get(ChatJson(c, tiny), "guest") == Some(VDict(tiny(c.members.guest)))
  {
    SingleKeys();
    NamesUnique();
    Jsonify.ProjectNamed(ChatEntity(c, tiny), SingleFields, SingleNames);
    assert SingleFields[0] == Jsonify.Plain("host") && SingleFields[1] == Jsonify.Plain("guest");
    assert SingleFields[4] == Jsonify.Plain("group") && SingleFields[5] == Jsonify.Plain("id->chat_id");
    HostField(c, tiny);
    GuestField(c, tiny);
    GroupFlagField(c, tiny);
    ChatIdField(c, tiny);
  }

  /**
   * A group chat's projection: host, guests, name, the two timestamps,
   * `group` true and the id renamed to `chat_id` (so no `id` key).
   */
  lemma GroupChatJsonShape(c: Chat, tiny: nat -> Dict)
    requires c.members.Group?
    ensures KeyList(ChatJson(c, tiny)) == ["host", "guests", "name", "created_at", "last_chat_at", "group", "chat_id"]
    ensures Get(ChatJson(c, tiny), "id").None?
    ensures Get(ChatJson(c, tiny), "chat_id") == Some(VInt(c.id))
    ensures Get(ChatJson(c, tiny), "group") == Some(VBool(true))
    ensures Get(ChatJson(c, tiny), "name") == Some(VStr(c.members.name))
    ensures Get(ChatJson(c, tiny), "host") == Some(VDict(tiny(c.host)))
    ensures Get(ChatJson(c, tiny), "guests").Some? && Get(ChatJson(c, tiny), "guests").value.VList?
    ensures |Get(ChatJson(c, tiny), "guests").value.items| == |c.members.guests|
    ensures forall i :: 0 <= i < |c.members.guests| ==>
              Get(ChatJson(c, tiny), "guests").value.items[i] == VDict(tiny(c.members.guests[i]))
  {
    GroupKeys();
    NamesUnique();
    Jsonify.ProjectNamed(ChatEntity(c, tiny), GroupFields, GroupNames);
    assert GroupFields[0] == Jsonify.Plain("host") && GroupFields[1] == Jsonify.Plain("guests");
    assert GroupFields[2] == Jsonify.Plain("name");
    assert GroupFields[5] == Jsonify.Plain("group") && GroupFields[6] == Jsonify.Plain("id->chat_id");
    HostField(c, tiny);
    GuestsField(c, tiny);
    NameField(c, tiny);
    GroupFlagField(c, tiny);
    ChatIdField(c, tiny);
  }
}
