/**
 * The message endpoints of Message/views.py: reading a page of a chat's
 * messages, posting one, and deleting one. As in the chat endpoints, the
 * checks before the store is touched form each endpoint's plan.
 */
module MessageViews {
  import opened Values
  import opened Errors
  import opened UserModels
  import opened ChatModels
  import opened MessageModels
  import opened Auth
  import opened ApiPacker
  import ChatParams
  import MessageParams
  import Processor

  // ----- get -----

  /** The page `get` picks: `older` when `before` is given, else `newer` when `after` is, else `latest`. */
  function Selected(messages: MessageTable, chat: nat, limit: nat, before: Option<int>, after: Option<int>)
    : (r: seq<Message>)
    reads messages
    ensures forall m :: m in r ==> m in messages.messages && IsLiveOf(m, chat)
    ensures before.Some? ==> forall m :: m in r ==> m.id < before.value
    ensures before.None? && after.Some? ==> forall m :: m in r ==> m.id > after.value
    ensures |r| <= limit
  {
    if before.Some? then messages.Older(chat, before.value, limit)
    else if after.Some? then messages.Newer(chat, after.value, limit)
    else messages.Latest(chat, limit)
  }

  /** `before` wins when both cursors are given. */
  lemma BeforeWins(messages: MessageTable, chat: nat, limit: nat, before: int, after: int)
    ensures Selected(messages, chat, limit, Some(before), Some(after)) == messages.Older(chat, before, limit)
  {
  }

  /** Every page is ordered: newest first unless only `after` is given, which reads forward. */
  lemma SelectedOrder(messages: MessageTable, chat: nat, limit: nat, before: Option<int>, after: Option<int>)
    requires messages.Valid()
    ensures before.Some? || after.None? ==> Seqs.Decreasing(Selected(messages, chat, limit, before, after), MessageId)
    ensures before.None? && after.Some? ==> Seqs.Increasing(Selected(messages, chat, limit, before, after), MessageId)
  {
    if before.Some? {
      messages.OlderNewestFirst(chat, before.value, limit);
    } else if after.Some? {
      messages.NewerOldestFirst(chat, after.value, limit);
    } else {
      messages.LatestNewestFirst(chat, limit);
    }
  }

  /** The validated query of `get`, in the order it is declared. */
  datatype PageQuery = PageQuery(chat: Chat, limit: nat, before: Option<int>, after: Option<int>)

  function PageParams(chats: ChatTable, query: Dict): (r: Result<PageQuery>)
    reads chats
    ensures r.Ok? <==> ChatParams.ChatId(chats, query).Ok? && MessageParams.Limit(query).Ok?
                       && MessageParams.Before(query).Ok? && MessageParams.After(query).Ok?
    ensures r.Ok? ==> r.value == PageQuery(ChatParams.ChatId(chats, query).value, MessageParams.Limit(query).value,
                                           MessageParams.Before(query).value, MessageParams.After(query).value)
    ensures !ChatParams.ChatId(chats, query).Ok? ==> r == ChatParams.ChatId(chats, query).PropagateFailure()
  {
    var chat :- ChatParams.ChatId(chats, query);
    var limit :- MessageParams.Limit(query);
    var before :- MessageParams.Before(query);
    var after :- MessageParams.After(query);
    Ok(PageQuery(chat, limit, before, after))
  }

  /**
   * `MessageView.get`: any authenticated user, the query validated, then the
   * member guard on the resolved chat; the reply is the selected page's
   * projections.
   */
  function GetOutcome(users: UserTable, chats: ChatTable, messages: MessageTable, token: Option<string>, query: Dict,
                      decode: string -> Decoded, now: real, tiny: nat -> Dict): (r: Result<Reply>)
    reads users, chats, messages
    ensures r.Ok? ==> Authenticate(users, token, decode, now, None).Ok? && PageParams(chats, query).Ok?
                      && IsChatMember(Authenticate(users, token, decode, now, None).value, PageParams(chats, query).value.chat)
    ensures r.Ok? ==> var q := PageParams(chats, query).value;
                      r == Ok(Body(VList(JsonList(Selected(messages, q.chat.id, q.limit, q.before, q.after), tiny))))
    ensures Authenticate(users, token, decode, now, None).Ok? && PageParams(chats, query).Ok?
            && !IsChatMember(Authenticate(users, token, decode, now, None).value, PageParams(chats, query).value.chat)
            ==> r == Err(Raise(Denied(NotChatMember)))
  {
    var user :- Authenticate(users, token, decode, now, None);
    var q :- PageParams(chats, query);
    var _ :- Guard(Ok(IsChatMember(user, q.chat)), NotChatMember);
    Ok(Body(VList(JsonList(Selected(messages, q.chat.id, q.limit, q.before, q.after), tiny))))
  }

  /** A page only ever shows live messages of the chat whose membership was checked. */
  lemma GetShowsOnlyThatChat(users: UserTable, chats: ChatTable, messages: MessageTable, token: Option<string>,
                             query: Dict, decode: string -> Decoded, now: real, tiny: nat -> Dict)
    requires GetOutcome(users, chats, messages, token, query, decode, now, tiny).Ok?
    ensures var q := PageParams(chats, query).value;
            var page := Selected(messages, q.chat.id, q.limit, q.before, q.after);
            IsChatMember(Authenticate(users, token, decode, now, None).value, q.chat)
            && forall m :: m in page ==> m.chat == q.chat.id && !m.isDeleted
  {
  }

  /** `MessageView.get` itself: authentication also records `request.user`. */
  method GetMessages(request: HttpRequest, users: UserTable, chats: ChatTable, messages: MessageTable,
                     decode: string -> Decoded, now: real, tiny: nat -> Dict) returns (r: Result<Reply>)
    modifies request
    ensures request.user == if Login(users, request.token, decode, now).Ok?
                            then Some(Login(users, request.token, decode, now).value) else old(request.user)
    ensures r == GetOutcome(users, chats, messages, request.token, request.query, decode, now, tiny)
  {
    var auth := RequireUser(request, users, decode, now, None);
    r := GetOutcome(users, chats, messages, request.token, request.query, decode, now, tiny);
  }

  // ----- post -----

  /** The body's `type` and `content`, both required and kept as given. */
  function PostBody(body: Dict): (r: Result<(Value, Value)>)
    ensures r.Ok? <==> "content" in KeyList(body) && "type" in KeyList(body)
    ensures r.Ok? ==> Get(body, "content") == Some(r.value.1) && Get(body, "type") == Some(r.value.0)
  {
    var content :- Processor.Field(body, "content");
    var msgType :- Processor.Field(body, "type");
    Ok((msgType, content))
  }

  /** The checks of `post`: a user, the query's chat, the body, and the (corrected) group-member guard. */
  function PostPlan(users: UserTable, chats: ChatTable, token: Option<string>, query: Dict, body: Dict,
                    decode: string -> Decoded, now: real): (r: Result<(User, Chat, (Value, Value))>)
    reads users, chats
    ensures r.Ok? ==> Authenticate(users, token, decode, now, None) == Ok(r.value.0)
                      && ChatParams.ChatId(chats, query) == Ok(r.value.1) && PostBody(body) == Ok(r.value.2)
                      && IsGroupChatMember(r.value.0, r.value.1)
    ensures Authenticate(users, token, decode, now, None).Ok? && ChatParams.ChatId(chats, query).Ok? && PostBody(body).Ok?
            && !IsGroupChatMember(Authenticate(users, token, decode, now, None).value, ChatParams.ChatId(chats, query).value)
            ==> r == Err(Raise(Denied(NotChatMember)))
  {
    var user :- Authenticate(users, token, decode, now, None);
    var chat :- ChatParams.ChatId(chats, query);
    var content :- PostBody(body);
    var _ :- Guard(Ok(IsGroupChatMember(user, chat)), NotChatMember);
    Ok((user, chat, content))
  }

  /**
   * `MessageView.post`: whoever passes the guard may post, so `create` never
   * refuses here; the new message is appended and its projection returned.
   */
  method Post(request: HttpRequest, users: UserTable, chats: ChatTable, messages: MessageTable,
              decode: string -> Decoded, now: real, tiny: nat -> Dict) returns (r: Result<Reply>)
    requires messages.Valid()
    modifies request, messages
    ensures request.user == if Login(users, request.token, decode, now).Ok?
                            then Some(Login(users, request.token, decode, now).value) else old(request.user)
    ensures messages.Valid()
    ensures var plan := PostPlan(users, chats, request.token, request.query, request.body, decode, now);
            (!plan.Ok? ==> r == plan.PropagateFailure() && messages.messages == old(messages.messages))
            && (plan.Ok? ==>
                  var m := Message(|old(messages.messages)|, plan.value.1.id, plan.value.0.id, plan.value.2.0, plan.value.2.1,
                                   now, false);
                  r == Ok(Body(VDict(MessageJson(m, tiny)))) && messages.messages == old(messages.messages) + [m])
  {
    var plan := PostPlan(users, chats, request.token, request.query, request.body, decode, now);
    var auth := RequireUser(request, users, decode, now, None);
    if !plan.Ok? {
      return plan.PropagateFailure();
    }
    var (user, chat, content) := plan.value;
    GroupChatMemberIsPostingRight(user, chat);
    var created := messages.Create(chat, user, content.0, content.1, now);
    r := Ok(Body(VDict(MessageJson(created.value, tiny))));
  }

  /**
   * The checks of `post` as written: `_is_groupchat_member` reads `chat.guests`
   * on whatever chat `chat_id` resolved, so a non-host on a single chat
   * raises instead of being refused.
   */
  function PostPlanAsWritten(users: UserTable, chats: ChatTable, token: Option<string>, query: Dict, body: Dict,
                             decode: string -> Decoded, now: real): (r: Result<(User, Chat, (Value, Value))>)
    reads users, chats
    ensures r.Ok? ==> Authenticate(users, token, decode, now, None) == Ok(r.value.0)
                      && ChatParams.ChatId(chats, query) == Ok(r.value.1) && PostBody(body) == Ok(r.value.2)
                      && IsGroupChatMemberAsWritten(r.value.0, r.value.1) == Ok(true)
    ensures Authenticate(users, token, decode, now, None).Ok? && ChatParams.ChatId(chats, query).Ok? && PostBody(body).Ok?
            && ChatParams.ChatId(chats, query).value.members.Single?
            && !IsChatHost(Authenticate(users, token, decode, now, None).value, ChatParams.ChatId(chats, query).value)
            ==> r == Uncaught("AttributeError")
  {
    var user :- Authenticate(users, token, decode, now, None);
    var chat :- ChatParams.ChatId(chats, query);
    var content :- PostBody(body);
    var _ :- Guard(IsGroupChatMemberAsWritten(user, chat), NotChatMember);
    Ok((user, chat, content))
  }

  /**
   * The written and the corrected `post` checks differ only for a non-host
   * posting to a single chat: the written one raises, the corrected one
   * refuses with a 403. Everywhere else they give the same answer.
   */
  lemma PostPlansAgree(users: UserTable, chats: ChatTable, token: Option<string>, query: Dict, body: Dict,
                       decode: string -> Decoded, now: real)
    ensures var auth := Authenticate(users, token, decode, now, None);
            var chat := ChatParams.ChatId(chats, query);
            var crash := auth.Ok? && chat.Ok? && PostBody(body).Ok? && chat.value.members.Single? && !IsChatHost(auth.value, chat.value);
            (crash ==> PostPlanAsWritten(users, chats, token, query, body, decode, now) == Uncaught("AttributeError")
                       && PostPlan(users, chats, token, query, body, decode, now) == Err(Raise(Denied(NotChatMember))))
            && (!crash ==> PostPlanAsWritten(users, chats, token, query, body, decode, now)
                           == PostPlan(users, chats, token, query, body, decode, now))
  {
    var auth := Authenticate(users, token, decode, now, None);
    var chat := ChatParams.ChatId(chats, query);
    if auth.Ok? && chat.Ok? {
      GroupChatMemberIsPostingRight(auth.value, chat.value);
    }
  }

  /** `MessageView.post` as written: a single chat's guest ends in AttributeError, and no message is stored. */
  method PostAsWritten(request: HttpRequest, users: UserTable, chats: ChatTable, messages: MessageTable,
                       decode: string -> Decoded, now: real, tiny: nat -> Dict) returns (r: Result<Reply>)
    requires messages.Valid()
    modifies request, messages
    ensures request.user == if Login(users, request.token, decode, now).Ok?
                            then Some(Login(users, request.token, decode, now).value) else old(request.user)
    ensures messages.Valid()
    ensures var plan := PostPlanAsWritten(users, chats, request.token, request.query, request.body, decode, now);
            (!plan.Ok? ==> r == plan.PropagateFailure() && messages.messages == old(messages.messages))
            && (plan.Ok? ==>
                  var m := Message(|old(messages.messages)|, plan.value.1.id, plan.value.0.id, plan.value.2.0, plan.value.2.1,
                                   now, false);
                  r == Ok(Body(VDict(MessageJson(m, tiny)))) && messages.messages == old(messages.messages) + [m])
  {
    var plan := PostPlanAsWritten(users, chats, request.token, request.query, request.body, decode, now);
    var auth := RequireUser(request, users, decode, now, None);
    if !plan.Ok? {
      return plan.PropagateFailure();
    }
    var (user, chat, content) := plan.value;
    GroupChatMemberIsPostingRight(user, chat);
    var created := messages.Create(chat, user, content.0, content.1, now);
    r := Ok(Body(VDict(MessageJson(created.value, tiny))));
  }

  // ----- delete -----

  /** `message.chat.host`: the message's chat row is read even when that chat is deleted. */
  function ChatHost(chats: ChatTable, m: Message): (r: Result<nat>)
    reads chats
    ensures r.Ok? <==> m.chat < |chats.chats|
    ensures r.Ok? ==> r.value == chats.chats[m.chat].host
  {
    if m.chat < |chats.chats| then Ok(chats.chats[m.chat].host) else Uncaught("DoesNotExist")
  }

  /** The checks of `delete`: a user, a live message, and the (corrected) message-owner guard. */
  function DeletePlan(users: UserTable, chats: ChatTable, messages: MessageTable, token: Option<string>, query: Dict,
                      decode: string -> Decoded, now: real): (r: Result<Message>)
    reads users, chats, messages
    ensures r.Ok? ==> MessageParams.MessageId(messages, query) == Ok(r.value)
    ensures r.Ok? ==> Authenticate(users, token, decode, now, None).Ok? && ChatHost(chats, r.value).Ok?
                      && IsMessageOwner(Authenticate(users, token, decode, now, None).value, r.value, ChatHost(chats, r.value).value)
  {
    var user :- Authenticate(users, token, decode, now, None);
    var m :- MessageParams.MessageId(messages, query);
    var host :- ChatHost(chats, m);
    var _ :- Guard(Ok(IsMessageOwner(user, m, host)), NotMessageOwner);
    Ok(m)
  }

  /** The author and the chat's host may delete; anyone else is refused. */
  lemma DeleteAdmitsAuthor(users: UserTable, chats: ChatTable, messages: MessageTable, token: Option<string>,
                           query: Dict, decode: string -> Decoded, now: real)
    requires Authenticate(users, token, decode, now, None).Ok?
    requires MessageParams.MessageId(messages, query).Ok?
    requires MessageParams.MessageId(messages, query).value.chat < |chats.chats|
    ensures var user := Authenticate(users, token, decode, now, None).value;
            var m := MessageParams.MessageId(messages, query).value;
            (user.id == m.user || (user.role == HOST && user.id == chats.chats[m.chat].host) ==>
               DeletePlan(users, chats, messages, token, query, decode, now) == Ok(m))
            && (user.id != m.user && !(user.role == HOST && user.id == chats.chats[m.chat].host) ==>
               DeletePlan(users, chats, messages, token, query, decode, now) == Err(Raise(Denied(NotMessageOwner))))
  {
  }

  /** `MessageView.delete`: soft-deletes the message and returns `OK`. */
  method Delete(request: HttpRequest, users: UserTable, chats: ChatTable, messages: MessageTable,
                decode: string -> Decoded, now: real) returns (r: Result<Reply>)
    requires messages.Valid()
    modifies request, messages
    ensures request.user == if Login(users, request.token, decode, now).Ok?
                            then Some(Login(users, request.token, decode, now).value) else old(request.user)
    ensures messages.Valid()
    ensures var plan := old(DeletePlan(users, chats, messages, request.token, request.query, decode, now));
            (!plan.Ok? ==> r == plan.PropagateFailure() && messages.messages == old(messages.messages))
            && (plan.Ok? ==> r == Ok(Marker(OkError))
                             && messages.messages == old(messages.messages)[plan.value.id := plan.value.(isDeleted := true)])
  {
    var plan := DeletePlan(users, chats, messages, request.token, request.query, decode, now);
    var auth := RequireUser(request, users, decode, now, None);
    if !plan.Ok? {
      return plan.PropagateFailure();
    }
    messages.Remove(plan.value.id);
    r := Ok(Marker(OkError));
  }

  /** The checks of `delete` as written: the author test never holds, so only the chat's host passes. */
  function DeletePlanAsWritten(users: UserTable, chats: ChatTable, messages: MessageTable, token: Option<string>,
                               query: Dict, decode: string -> Decoded, now: real): (r: Result<Message>)
    reads users, chats, messages
    ensures r.Ok? ==> MessageParams.MessageId(messages, query) == Ok(r.value)
    ensures r.Ok? ==> Authenticate(users, token, decode, now, None).Ok? && ChatHost(chats, r.value).Ok?
                      && IsMessageOwnerAsWritten(Authenticate(users, token, decode, now, None).value, r.value,
                                                 ChatHost(chats, r.value).value)
  {
    var user :- Authenticate(users, token, decode, now, None);
    var m :- MessageParams.MessageId(messages, query);
    var host :- ChatHost(chats, m);
    var _ :- Guard(Ok(IsMessageOwnerAsWritten(user, m, host)), NotMessageOwner);
    Ok(m)
  }

  /**
   * The written and the corrected `delete` checks differ only for an author
   * who is not the host of the message's chat: the written one refuses them
   * with a 403, the corrected one lets them delete. Everywhere else they agree.
   */
  lemma DeletePlansAgree(users: UserTable, chats: ChatTable, messages: MessageTable, token: Option<string>,
                         query: Dict, decode: string -> Decoded, now: real)
    ensures var auth := Authenticate(users, token, decode, now, None);
            var m := MessageParams.MessageId(messages, query);
            var author := auth.Ok? && m.Ok? && ChatHost(chats, m.value).Ok? && auth.value.id == m.value.user
                          && !(auth.value.role == HOST && auth.value.id == ChatHost(chats, m.value).value);
            (author ==> DeletePlanAsWritten(users, chats, messages, token, query, decode, now) == Err(Raise(Denied(NotMessageOwner)))
                        && DeletePlan(users, chats, messages, token, query, decode, now) == Ok(m.value))
            && (!author ==> DeletePlanAsWritten(users, chats, messages, token, query, decode, now)
                            == DeletePlan(users, chats, messages, token, query, decode, now))
  {
    var auth := Authenticate(users, token, decode, now, None);
    var m := MessageParams.MessageId(messages, query);
    if auth.Ok? && m.Ok? && ChatHost(chats, m.value).Ok? {
      MessageOwnerAsWrittenIgnoresAuthor(auth.value, m.value, ChatHost(chats, m.value).value);
    }
  }

  /** `MessageView.delete` as written: soft-deletes the message when the chat's host asks, and returns `OK`. */
  method DeleteAsWritten(request: HttpRequest, users: UserTable, chats: ChatTable, messages: MessageTable,
                         decode: string -> Decoded, now: real) returns (r: Result<Reply>)
    requires messages.Valid()
    modifies request, messages
    ensures request.user == if Login(users, request.token, decode, now).Ok?
                            then Some(Login(users, request.token, decode, now).value) else old(request.user)
    ensures messages.Valid()
    ensures var plan := old(DeletePlanAsWritten(users, chats, messages, request.token, request.query, decode, now));
            (!plan.Ok? ==> r == plan.PropagateFailure() && messages.messages == old(messages.messages))
            && (plan.Ok? ==> r == Ok(Marker(OkError))
                             && messages.messages == old(messages.messages)[plan.value.id := plan.value.(isDeleted := true)])
  {
    var plan := DeletePlanAsWritten(users, chats, messages, request.token, request.query, decode, now);
    var auth := RequireUser(request, users, decode, now, None);
    if !plan.Ok? {
      return plan.PropagateFailure();
    }
    messages.Remove(plan.value.id);
    r := Ok(Marker(OkError));
  }
}
