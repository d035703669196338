/**
 * The message store of Message/models.py. Messages belong to a chat and an
 * author, are kept in insertion (id) order, and are deleted softly, by a
 * flag. The three paginated queries are filters over that order.
 */
module MessageModels {
  import opened Values
  import opened Errors
  import opened Seqs
  import Jsonify
  import UserModels
  import ChatModels

  // MessageTypeChoice
  const TEXT: int := 0
  const IMAGE: int := 1
  const FILE: int := 2
  const SYSTEM: int := 3

  /**
   * A message row. `chat` and `user` are ids; `msgType` and `content` are
   * the values the request supplied, as the instance holds them after
   * `objects.create`.
   */
  datatype Message = Message(id: nat, chat: nat, user: nat, msgType: Value, content: Value,
                             createdAt: real, isDeleted: bool)

  function MessageId(m: Message): int
  {
    m.id
  }

  predicate IsLiveOf(m: Message, chat: nat)
  {
    m.chat == chat && !m.isDeleted
  }

  predicate IsOlderLiveOf(m: Message, chat: nat, before: int)
  {
    IsLiveOf(m, chat) && m.id < before
  }

  predicate IsNewerLiveOf(m: Message, chat: nat, after: int)
  {
    IsLiveOf(m, chat) && m.id > after
  }

  /**
   * The posting right `create` checks: the user is the chat's host, or the
   * chat is a group chat and the user is one of its guests (a single chat's
   * guest has no such right). Users are compared as Django compares model
   * instances.
   */
  predicate MayPost(chat: ChatModels.Chat, user: UserModels.User)
  {
    UserModels.SameInstance(user, UserModels.HostModel, chat.host)
    || (chat.members.Group? && exists g :: g in chat.members.guests && UserModels.SameInstance(user, UserModels.GuestModel, g))
  }

  /** A single chat's guest may not post to it. */
  lemma SingleGuestMayNotPost(chat: ChatModels.Chat, user: UserModels.User)
    requires chat.members.Single? && user.role != UserModels.HOST
    ensures !MayPost(chat, user)
  {
  }

  /** In a group chat, the host and every guest may post. */
  lemma GroupMembersMayPost(chat: ChatModels.Chat, user: UserModels.User)
    requires chat.members.Group?
    requires (user.role == UserModels.HOST && user.id == chat.host)
             || (user.role != UserModels.HOST && user.id in chat.members.guests)
    ensures MayPost(chat, user)
  {
    if user.role != UserModels.HOST {
      assert UserModels.SameInstance(user, UserModels.GuestModel, user.id);
    }
  }

  /** The store as the methods leave it: ids are positions. */
  ghost predicate ValidMessages(messages: seq<Message>)
  {
    forall i :: 0 <= i < |messages| ==> messages[i].id == i
  }

  lemma IdOrder(messages: seq<Message>)
    requires ValidMessages(messages)
    ensures Increasing(messages, MessageId)
  {
  }

  class MessageTable {
    var messages: seq<Message>

    ghost predicate Valid()
      reads this
    {
      ValidMessages(messages)
    }

    constructor()
      ensures messages == [] && Valid()
    {
      messages := [];
    }

    /** `Message.create`: the message is inserted when the user may post, otherwise `NOT_A_MEMBER`. */
    method Create(chat: ChatModels.Chat, user: UserModels.User, msgType: Value, content: Value, now: real)
      returns (r: Result<Message>)
      requires Valid()
      modifies this
      ensures Valid()
      ensures MayPost(chat, user) ==>
                r == Ok(Message(|old(messages)|, chat.id, user.id, msgType, content, now, false))
                && messages == old(messages) + [r.value]
      ensures !MayPost(chat, user) ==> r == Err(Raise(NotAMember)) && messages == old(messages)
    {
      if !MayPost(chat, user) {
        return Err(Raise(NotAMember));
      }
      var message := Message(|messages|, chat.id, user.id, msgType, content, now, false);
      messages := messages + [message];
      r := Ok(message);
    }

    /** `Message.index`: an unknown or soft-deleted id fails `NOT_EXISTS`. */
    function Index(id: int): (r: Result<Message>)
      reads this
      ensures r.Ok? <==> 0 <= id < |messages| && !messages[id].isDeleted
      ensures r.Ok? ==> r.value == messages[id]
      ensures !r.Ok? ==> r == Err(Raise(MessageNotExists))
    {
      if 0 <= id < |messages| && !messages[id].isDeleted then Ok(messages[id]) else Err(Raise(MessageNotExists))
    }

    /** `remove`: only the deletion flag changes. */
    method Remove(id: nat)
      requires Valid() && id < |messages|
      modifies this
      ensures Valid()
      ensures messages == old(messages)[id := old(messages)[id].(isDeleted := true)]
      ensures Index(id) == Err(Raise(MessageNotExists))
      ensures forall chat, limit, mid :: messages[id] !in Latest(chat, limit) && messages[id] !in Older(chat, mid, limit)
                                          && messages[id] !in Newer(chat, mid, limit)
    {
      messages := messages[id := messages[id].(isDeleted := true)];
    }

    /** `latest`: the chat's live messages, newest first, at most `limit` of them. */
    function Latest(chat: nat, limit: nat): (r: seq<Message>)
      reads this
      ensures forall m :: m in r ==> m in messages && IsLiveOf(m, chat)
    {
      var live := Filter(messages, m => IsLiveOf(m, chat));
      assert forall m :: m in Reverse(live) ==> m in live by {
        forall m | m in Reverse(live) ensures m in live {
          var i :| 0 <= i < |Reverse(live)| && Reverse(live)[i] == m;
          assert live[|live| - 1 - i] == m;
        }
      }
      Take(Reverse(live), limit)
    }

    /** `older`: the chat's live messages with a smaller id, newest first, at most `limit` of them. */
    function Older(chat: nat, before: int, limit: nat): (r: seq<Message>)
      reads this
      ensures forall m :: m in r ==> m in messages && IsOlderLiveOf(m, chat, before)
    {
      var live := Filter(messages, m => IsOlderLiveOf(m, chat, before));
      assert forall m :: m in Reverse(live) ==> m in live by {
        forall m | m in Reverse(live) ensures m in live {
          var i :| 0 <= i < |Reverse(live)| && Reverse(live)[i] == m;
          assert live[|live| - 1 - i] == m;
        }
      }
      Take(Reverse(live), limit)
    }

    /** `newer`: the chat's live messages with a larger id, oldest first, at most `limit` of them. */
    function Newer(chat: nat, after: int, limit: nat): (r: seq<Message>)
      reads this
      ensures forall m :: m in r ==> m in messages && IsNewerLiveOf(m, chat, after)
    {
      var live := Filter(messages, m => IsNewerLiveOf(m, chat, after));
      Take(live, limit)
    }

    /**
     * `latest` in full: `min(limit, n)` of the chat's `n` live messages,
     * strictly newest first, and every live message left out is older than
     * every one returned.
     */
    lemma LatestNewestFirst(chat: nat, limit: nat)
      requires Valid()
      ensures var live := Filter(messages, m => IsLiveOf(m, chat));
              |Latest(chat, limit)| == Min(limit, |live|)
              && Decreasing(Latest(chat, limit), MessageId)
              && forall m :: m in live && m !in Latest(chat, limit) ==>
                   forall i :: 0 <= i < |Latest(chat, limit)| ==> m.id < Latest(chat, limit)[i].id
    {
      var live := Filter(messages, m => IsLiveOf(m, chat));
      IdOrder(messages);
      FilterIncreasing(messages, m => IsLiveOf(m, chat), MessageId);
      NewestFirst(live, MessageId, limit);
    }

    /** `older` in full: like `latest`, over the live messages below `before`. */
    lemma OlderNewestFirst(chat: nat, before: int, limit: nat)
      requires Valid()
      ensures var live := Filter(messages, m => IsOlderLiveOf(m, chat, before));
              |Older(chat, before, limit)| == Min(limit, |live|)
              && Decreasing(Older(chat, before, limit), MessageId)
              && forall m :: m in live && m !in Older(chat, before, limit) ==>
                   forall i :: 0 <= i < |Older(chat, before, limit)| ==> m.id < Older(chat, before, limit)[i].id
    {
      var live := Filter(messages, m => IsOlderLiveOf(m, chat, before));
      IdOrder(messages);
      FilterIncreasing(messages, m => IsOlderLiveOf(m, chat, before), MessageId);
      NewestFirst(live, MessageId, limit);
    }

    /**
     * `newer` in full: `min(limit, n)` of the `n` live messages above
     * `after`, strictly oldest first, and every one left out is newer than
     * every one returned.
     */
    lemma NewerOldestFirst(chat: nat, after: int, limit: nat)
      requires Valid()
      ensures var live := Filter(messages, m => IsNewerLiveOf(m, chat, after));
              |Newer(chat, after, limit)| == Min(limit, |live|)
              && Increasing(Newer(chat, after, limit), MessageId)
              && forall m :: m in live && m !in Newer(chat, after, limit) ==>
                   forall i :: 0 <= i < |Newer(chat, after, limit)| ==> Newer(chat, after, limit)[i].id < m.id
    {
      var live := Filter(messages, m => IsNewerLiveOf(m, chat, after));
      IdOrder(messages);
      FilterIncreasing(messages, m => IsNewerLiveOf(m, chat, after), MessageId);
      OldestFirst(live, MessageId, limit);
    }
  }

  // ----- projection -----

  /** The projection fields of a message: its attributes plus the `user` and `created_at` projectors. */
  function MessageEntity(m: Message, tiny: nat -> Dict): Jsonify.Entity
  {
    Jsonify.Entity(
      map["id" := VInt(m.id), "chat" := VInt(m.chat), "user" := VInt(m.user), "type" := m.msgType,
          "content" := m.content, "is_deleted" := VBool(m.isDeleted)],
      map["user" := (_: seq<Value>) => VDict(tiny(m.user)), "created_at" := (_: seq<Value>) => VFloat(m.createdAt)])
  }

  const MessageFields: seq<Jsonify.Request> :=
    [Jsonify.Plain("id->message_id"), Jsonify.Plain("user"), Jsonify.Plain("type"), Jsonify.Plain("content"),
     Jsonify.Plain("created_at")]

  const MessageNames: seq<string> := ["message_id", "user", "type", "content", "created_at"]

  /** `jsonl()`. */
  function MessageJson(m: Message, tiny: nat -> Dict): Dict
  {
    Jsonify.Project(MessageEntity(m, tiny), MessageFields)
  }

  /** The list `latest`, `older` and `newer` return. */
  function JsonList(ms: seq<Message>, tiny: nat -> Dict): (r: seq<Value>)
    ensures |r| == |ms|
    ensures forall i :: 0 <= i < |ms| ==> r[i] == VDict(MessageJson(ms[i], tiny))
  {
    seq(|ms|, i requires 0 <= i < |ms| => VDict(MessageJson(ms[i], tiny)))
  }

  lemma MessageIdKey()
    ensures Jsonify.Source(Jsonify.Plain("id->message_id")) == "id"
    ensures Jsonify.OutName(Jsonify.Plain("id->message_id")) == "message_id"
  {
    assert Jsonify.NoArrow("id");
    Jsonify.ParseAtFirstArrow("id", "message_id");
    assert "id" + "->" + "message_id" == "id->message_id";
  }

  lemma MessageKeys()
    ensures |MessageFields| == |MessageNames|
    ensures forall i :: 0 <= i < |MessageFields| ==> Jsonify.OutName(MessageFields[i]) == MessageNames[i]
  {
    forall i | 0 <= i < |MessageFields| ensures Jsonify.OutName(MessageFields[i]) == MessageNames[i] {
      if i == 0 { assert MessageFields[i] == Jsonify.Plain("id->message_id") && MessageNames[i] == "message_id"; MessageIdKey(); }
      else if i == 1 { assert MessageFields[i] == Jsonify.Plain("user") && MessageNames[i] == "user"; Jsonify.PlainKey("user"); }
      else if i == 2 { assert MessageFields[i] == Jsonify.Plain("type") && MessageNames[i] == "type"; Jsonify.PlainKey("type"); }
      else if i == 3 { assert MessageFields[i] == Jsonify.Plain("content") && MessageNames[i] == "content"; Jsonify.PlainKey("content"); }
      else { assert MessageFields[i] == Jsonify.Plain("created_at") && MessageNames[i] == "created_at"; Jsonify.PlainKey("created_at"); }
    }
  }

  lemma MessageNamesUnique()
    ensures Jsonify.Unique(MessageNames)
    ensures "id" !in MessageNames
  {
  }

  // One lemma per field keeps each proof about literal keys small.

  lemma MessageIdField(m: Message, tiny: nat -> Dict)
    ensures Jsonify.FieldValue(MessageEntity(m, tiny), MessageFields[0]) == VInt(m.id)
  {
    assert MessageFields[0] == Jsonify.Plain("id->message_id");
    MessageIdKey();
  }

  lemma UserField(m: Message, tiny: nat -> Dict)
    ensures Jsonify.FieldValue(MessageEntity(m, tiny), MessageFields[1]) == VDict(tiny(m.user))
  {
    assert MessageFields[1] == Jsonify.Plain("user");
    Jsonify.PlainKey("user");
  }

  lemma TypeField(m: Message, tiny: nat -> Dict)
    ensures Jsonify.FieldValue(MessageEntity(m, tiny), MessageFields[2]) == m.msgType
  {
    assert MessageFields[2] == Jsonify.Plain("type");
    Jsonify.PlainKey("type");
  }

  lemma ContentField(m: Message, tiny: nat -> Dict)
    ensures Jsonify.FieldValue(MessageEntity(m, tiny), MessageFields[3]) == m.content
  {
    assert MessageFields[3] == Jsonify.Plain("content");
    Jsonify.PlainKey("content");
  }

  /**
   * `jsonl()` holds message_id, user, type, content and created_at: the id
   * under `message_id` (and no `id` key), the author's own projection, and
   * the type and content as stored.
   */
  lemma MessageJsonShape(m: Message, tiny: nat -> Dict)
    ensures KeyList(MessageJson(m, tiny)) == ["message_id", "user", "type", "content", "created_at"]
    ensures Get(MessageJson(m, tiny), "id").None?
    ensures Get(MessageJson(m, tiny), "message_id") == Some(VInt(m.id))
    ensures Get(MessageJson(m, tiny), "user") == Some(VDict(tiny(m.user)))
    ensures Get(MessageJson(m, tiny), "type") == Some(m.msgType)
    ensures Get(MessageJson(m, tiny), "content") == Some(m.content)
  {
    MessageKeys();
    MessageNamesUnique();
    Jsonify.ProjectNamed(MessageEntity(m, tiny), MessageFields, MessageNames);
    MessageIdField(m, tiny);
    UserField(m, tiny);
    TypeField(m, tiny);
    ContentField(m, tiny);
  }
}
