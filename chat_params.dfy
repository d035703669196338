/**
 * The parameter chains of Chat/params.py: `chat_id` turns the query's id
 * into a live chat, the group variant additionally demands a group chat,
 * and `guests` turns the body's id list into distinct guest users.
 */
module ChatParams {
  import opened Values
  import opened Errors
  import opened UserModels
  import opened ChatModels
  import Processor

  /** The query's `chat_id` after `processor.int`. */
  function RawId(params: Dict, field: string): (r: Result<int>)
    ensures r.Ok? <==> Processor.Field(params, field).Ok? && Processor.ToInt(field, Processor.Field(params, field).value).Ok?
    ensures r.Ok? ==> r == Processor.ToInt(field, Get(params, field).value)
  {
    var v :- Processor.Field(params, field);
    Processor.ToInt(field, v)
  }

  /**
   * `BaseChatParams.chat_id` (inherited unchanged by `SingleChatParams`): the
   * converted id resolved through `BaseChat.index`, so the chat is live and
   * of either kind.
   */
  function ChatId(chats: ChatTable, query: Dict): (r: Result<Chat>)
    reads chats
    ensures !RawId(query, "chat_id").Ok? ==> r == RawId(query, "chat_id").PropagateFailure()
    ensures RawId(query, "chat_id").Ok? ==> r == chats.Index(BaseChatModel, RawId(query, "chat_id").value)
    ensures r.Ok? ==> RawId(query, "chat_id").Ok? && 0 <= RawId(query, "chat_id").value < |chats.chats|
                      && r.value == chats.chats[RawId(query, "chat_id").value] && !r.value.isDeleted
  {
    var id :- RawId(query, "chat_id");
    chats.Index(BaseChatModel, id)
  }

  const NotAGroupChat: string := "not a group chat"

  /**
   * `GroupChatParams.chat_id`: a copy of the base chain with one more check,
   * which rejects a chat that is not a group chat.
   */
  function GroupChatId(chats: ChatTable, query: Dict): (r: Result<Chat>)
    reads chats
    ensures r.Ok? <==> ChatId(chats, query).Ok? && ChatId(chats, query).value.members.Group?
    ensures r.Ok? ==> r == ChatId(chats, query)
    ensures ChatId(chats, query).Ok? && !ChatId(chats, query).value.members.Group? ==>
              r == Err(Raise(Rejected(NotAGroupChat)))
    ensures !ChatId(chats, query).Ok? ==> r == ChatId(chats, query)
  {
    var chat :- ChatId(chats, query);
    if chat.members.Group? then Ok(chat) else Err(Raise(Rejected(NotAGroupChat)))
  }

  /** The copy leaves the base chain alone: a live single chat still resolves through it. */
  lemma SingleChatOnlyThroughBase(chats: ChatTable, query: Dict)
    requires ChatId(chats, query).Ok? && ChatId(chats, query).value.members.Single?
    ensures GroupChatId(chats, query) == Err(Raise(Rejected(NotAGroupChat)))
  {
  }

  /** One list element through `GuestUser.index`; an element that is not an id makes the lookup raise. */
  function ResolveGuest(users: UserTable, v: Value): (r: Result<User>)
    reads users
    ensures v.VInt? ==> r == users.Index(GuestModel, v.i)
    ensures !v.VInt? ==> r == Uncaught("ValueError")
  {
    if v.VInt? then users.Index(GuestModel, v.i) else Uncaught("ValueError")
  }

  /** `.element(...)`: every element resolved in order; the first failure is the result. */
  function ResolveAll(users: UserTable, vs: seq<Value>): (r: Result<seq<User>>)
    reads users
    ensures r.Ok? <==> forall i :: 0 <= i < |vs| ==> ResolveGuest(users, vs[i]).Ok?
    ensures r.Ok? ==> |r.value| == |vs| && forall i :: 0 <= i < |vs| ==> ResolveGuest(users, vs[i]) == Ok(r.value[i])
    ensures !r.Ok? ==> exists i :: 0 <= i < |vs| && !ResolveGuest(users, vs[i]).Ok? && r == ResolveGuest(users, vs[i]).PropagateFailure()
                                     && forall j :: 0 <= j < i ==> ResolveGuest(users, vs[j]).Ok?
  {
    if vs == [] then Ok([])
    else
      var first :- ResolveGuest(users, vs[0]);
      var rest := ResolveAll(users, vs[1..]);
      if !rest.Ok? then
        assert forall i :: 0 <= i < |vs[1..]| ==> vs[1..][i] == vs[i + 1];
        rest.PropagateFailure()
      else
        assert forall i :: 0 <= i < |vs[1..]| ==> vs[1..][i] == vs[i + 1];
        Ok([first] + rest.value)
  }

  const DuplicatedGuests: string := "duplicated guests"

  /**
   * `GroupChatParams.guests`: the body's `guests` list, each element resolved
   * to a guest, and the whole rejected when two elements name the same guest.
   */
  function Guests(users: UserTable, body: Dict): (r: Result<seq<User>>)
    reads users
    ensures r.Ok? <==> Get(body, "guests").Some? && Get(body, "guests").value.VList?
                       && ResolveAll(users, Get(body, "guests").value.items).Ok?
                       && Distinct(GuestIds(ResolveAll(users, Get(body, "guests").value.items).value))
    ensures r.Ok? ==> r == ResolveAll(users, Get(body, "guests").value.items)
    ensures !(Get(body, "guests").Some? && Get(body, "guests").value.VList?) ==> r == Err(Raise(MalformedField("guests")))
  {
    var v :- Processor.Field(body, "guests");
    if !v.VList? then Err(Raise(MalformedField("guests")))
    else
      var guests :- ResolveAll(users, v.items);
      if Distinct(GuestIds(guests)) then Ok(guests) else Err(Raise(Rejected(DuplicatedGuests)))
  }

  /** The same guest twice is rejected; two different guests pass, in the order given. */
  lemma GuestsDuplicates(users: UserTable, body: Dict, a: int, b: int)
    requires users.Valid()
    requires users.Index(GuestModel, a).Ok? && users.Index(GuestModel, b).Ok?
    requires Get(body, "guests") == Some(VList([VInt(a), VInt(b)]))
    ensures a == b ==> Guests(users, body) == Err(Raise(Rejected(DuplicatedGuests)))
    ensures a != b ==> Guests(users, body) == Ok([users.Index(GuestModel, a).value, users.Index(GuestModel, b).value])
  {
    var vs, tail := [VInt(a), VInt(b)], [VInt(b)];
    var ua, ub := users.Index(GuestModel, a).value, users.Index(GuestModel, b).value;
    assert ResolveGuest(users, vs[0]) == Ok(ua) && ResolveGuest(users, tail[0]) == Ok(ub);
    assert vs[1..] == tail && tail[1..] == [];
    assert ResolveAll(users, tail[1..]) == Ok([]);
    assert [ub] + [] == [ub] && [ua] + [ub] == [ua, ub];
    assert ResolveAll(users, tail) == Ok([ub]);
    assert ResolveAll(users, vs) == Ok([ua, ub]);
    var ids := GuestIds([ua, ub]);
    assert ids[0] == a && ids[1] == b;
  }
}
