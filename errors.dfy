/**
 * The single failure channel: status codes, the error catalogues of every
 * domain (users, chats, messages, authentication) sharing one `Error` shape,
 * and the `Result` that every operation of the model returns.
 */
module Errors {
  import opened Values

  /** The status classes an `Error` (and the success marker `OK`) carries. */
  datatype Code = OK | BadRequest | Unauthorized | Forbidden | NotFound

  /**
   * The code of a catalogue entry declared without one (all of `ChatErrors`):
   * the base `Error` class is not part of this model, and such entries are
   * taken to be bad requests; the one exception is the chat lookup failure,
   * which answers 404 like the user and message lookups.
   */
  const DefaultCode: Code := BadRequest

  /** A message template together with the placeholder values bound at raise time. */
  datatype Template =
    /** `utils.error.OK`, the success marker views return. */
    | Success
    // UserErrors, User/validators.py
    | UserNotExists(attr: string, value: Value)
    | UserExists
    | EmptyName
    | IntervalTooSmall(offlineInterval: int)
    | PasswordTooShort(passwordLength: int)
    | PasswordError
    | SpaceInName
    // ChatErrors, Chat/validators.py (declared without a code)
    | GroupChatEmpty
    | GroupChatTooSmall
    | UnalignedHost
    | NotMember(guestName: string, chatName: string)
    | ChatNotExists(chatId: int)
    // MessageErrors, Message/validators.py
    | NotAMember
    | MessageNotExists
    // AuthErrors, User/auth.py
    | Expired
    | Format(details: string)
    /** A predicate declared on a validator (`.bool(p, message=...)`) rejected the value. */
    | Rejected(message: string)
    /** A guard (`analyse.request(p, message=...)`) refused the request. */
    | Denied(message: string)
    /** The value of a field is absent or of the wrong shape for its declared steps. */
    | MalformedField(field: string)

  function CodeOf(t: Template): Code
  {
    match t
    case Success => OK
    case UserNotExists(_, _) => NotFound
    case UserExists | EmptyName | IntervalTooSmall(_) | PasswordTooShort(_) | PasswordError | SpaceInName => BadRequest
    case GroupChatEmpty | GroupChatTooSmall | UnalignedHost | NotMember(_, _) => DefaultCode
    case ChatNotExists(_) => NotFound
    case NotAMember => Forbidden
    case MessageNotExists => NotFound
    case Expired => Unauthorized
    case Format(_) => BadRequest
    case Rejected(_) => BadRequest
    case Denied(_) => Forbidden
    case MalformedField(_) => BadRequest
  }

  /** Every failed lookup by id or name (user, chat, message) answers 404. */
  lemma LookupFailuresAreNotFound(attr: string, value: Value, id: int)
    ensures Raise(UserNotExists(attr, value)).code == NotFound
    ensures Raise(ChatNotExists(id)).code == NotFound
    ensures Raise(MessageNotExists).code == NotFound
  {
  }

  /** An error as raised: its template with the values bound, and its code. */
  datatype Error = Error(code: Code, template: Template)

  /** Raising a catalogue entry: the code is always the one its catalogue declares. */
  function Raise(t: Template): Error
  {
    Error(CodeOf(t), t)
  }

  /** `utils.error.OK`. */
  const OkError: Error := Raise(Success)

  /**
   * The outcome of an operation: a value, a raised `Error`, or a Python
   * exception that is not an `Error` (which the response layer does not turn
   * into an envelope, so the client sees a server error).
   */
  datatype Result<+T> = Ok(value: T) | Err(error: Error) | Uncaught(exception: string)
  {
    predicate IsFailure()
    {
      !Ok?
    }

    function PropagateFailure<U>(): Result<U>
      requires IsFailure()
    {
      if Err? then Err(error) else Uncaught(exception)
    }

    function Extract(): T
      requires Ok?
    {
      value
    }
  }
}
