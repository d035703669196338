/**
 * The parameter chains of Message/params.py: ids resolved to messages and
 * users, the page size with its bounds, and the optional cursors `before`
 * and `after`. Its `chat_id` chain is the same as `BaseChatParams.chat_id`
 * and is modelled once, as `ChatParams.ChatId`.
 */
module MessageParams {
  import opened Values
  import opened Errors
  import UserModels
  import MessageModels
  import Processor
  import ChatParams

  /** `message_id`: the converted id resolved through `Message.index`. */
  function MessageId(messages: MessageModels.MessageTable, query: Dict): (r: Result<MessageModels.Message>)
    reads messages
    ensures !ChatParams.RawId(query, "message_id").Ok? ==> r == ChatParams.RawId(query, "message_id").PropagateFailure()
    ensures ChatParams.RawId(query, "message_id").Ok? ==> r == messages.Index(ChatParams.RawId(query, "message_id").value)
    ensures r.Ok? ==> !r.value.isDeleted && r.value in messages.messages
  {
    var id :- ChatParams.RawId(query, "message_id");
    messages.Index(id)
  }

  /** `user_id`: the converted id resolved through `BaseUser.index`, so the user comes back specified. */
  function UserId(users: UserModels.UserTable, query: Dict): (r: Result<UserModels.User>)
    reads users
    ensures !ChatParams.RawId(query, "user_id").Ok? ==> r == ChatParams.RawId(query, "user_id").PropagateFailure()
    ensures ChatParams.RawId(query, "user_id").Ok? ==> r == users.Index(UserModels.BaseModel, ChatParams.RawId(query, "user_id").value)
  {
    var id :- ChatParams.RawId(query, "user_id");
    users.Index(UserModels.BaseModel, id)
  }

  const MinLimit: int := 5
  const MaxLimit: int := 100
  const LimitTooSmall: string := "limit should be greater than 5"
  const LimitTooLarge: string := "limit should be less than 100"

  /**
   * `limit`: the built-in `int` of the value, then the lower bound, then the
   * upper bound; both 5 and 100 themselves are accepted.
   */
  function Limit(query: Dict): (r: Result<nat>)
    ensures r.Ok? <==> Processor.Field(query, "limit").Ok? && Processor.BuiltinInt("limit", Get(query, "limit").value).Ok?
                       && 5 <= Processor.BuiltinInt("limit", Get(query, "limit").value).value <= 100
    ensures r.Ok? ==> r.value == Processor.BuiltinInt("limit", Get(query, "limit").value).value
    ensures Processor.Field(query, "limit").Ok? && Processor.BuiltinInt("limit", Get(query, "limit").value).Ok? ==>
              var n := Processor.BuiltinInt("limit", Get(query, "limit").value).value;
              (n < 5 ==> r == Err(Raise(Rejected(LimitTooSmall))))
              && (n > 100 ==> r == Err(Raise(Rejected(LimitTooLarge))))
  {
    var v :- Processor.Field(query, "limit");
    var n :- Processor.BuiltinInt("limit", v);
    if n < MinLimit then Err(Raise(Rejected(LimitTooSmall)))
    else if n > MaxLimit then Err(Raise(Rejected(LimitTooLarge)))
    else Ok(n)
  }

  /** The bounds at work on an int-valued limit. */
  lemma LimitBounds(query: Dict, n: int)
    requires Get(query, "limit") == Some(VInt(n))
    ensures Limit(query).Ok? <==> 5 <= n <= 100
    ensures Limit(query).Ok? ==> Limit(query).value == n
    ensures n < 5 ==> Limit(query) == Err(Raise(Rejected(LimitTooSmall)))
    ensures n > 100 ==> Limit(query) == Err(Raise(Rejected(LimitTooLarge)))
  {
  }

  /**
   * `before` and `after`: nullable and defaulting to None, so an absent or
   * null value is no cursor; any other value must pass `processor.int`.
   */
  function Cursor(query: Dict, field: string): (r: Result<Option<int>>)
    ensures Get(query, field).None? || Get(query, field) == Some(VNone) ==> r == Ok(None)
    ensures Get(query, field).Some? && Get(query, field) != Some(VNone) ==>
              match Processor.ToInt(field, Get(query, field).value)
              case Ok(n) => r == Ok(Some(n))
              case Err(e) => r == Err(e)
              case Uncaught(x) => r == Uncaught(x)
  {
    match Get(query, field)
    case None => Ok(None)
    case Some(v) =>
      if v == VNone then Ok(None)
      else
        var n :- Processor.ToInt(field, v);
        Ok(Some(n))
  }

  function Before(query: Dict): Result<Option<int>>
  {
    Cursor(query, "before")
  }

  function After(query: Dict): Result<Option<int>>
  {
    Cursor(query, "after")
  }
}
