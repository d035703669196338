# Sermo core, modelled in Dafny

Sermo is a Django chat backend. A host user owns single chats, one per guest, and group chats. Guests belong to one host and log in under that host. Every request goes through the same pipeline:

1. JWT authentication (`User/auth.py`).
2. Declarative parameter chains that turn raw ids into live model objects (`Chat/params.py`, `Message/params.py`).
3. Guard predicates on the resolved objects (ownership, membership).
4. The view itself.
5. One response envelope (`utils/api_packer.py`) whose status is the code of the chosen `Error`.

The model follows that structure, one module per source file:

- `Values` is the JSON value and the insertion-ordered dictionary (`Dict`) that Python returns.
- `Seqs` holds sequence helpers.
- `Errors` holds the error catalogue, the status codes and the `Result` type. `Err` is an `Error` the middleware packs. `Uncaught` is any other Python exception (`KeyError`, `AttributeError`, `ValueError`), which the middleware does not turn into an envelope.
- `Jsonify` models `utils/jsonify.py`: `_parse_name` and the projection `jsonify`. The projection is a loop writing into a dict, so it is a method proved against the function `Project`.
- `Function` models `utils/function.py`: salt, hash and verify, and `indent`. `indent` is a pure function with `Unindent` as its inverse.
- `UserValidators`, `UserModels`, `ChatModels` and `MessageModels` model the model files. The database tables are classes (`UserTable`, `ChatTable`, `MessageTable`) whose row sequence the creating and updating methods change in place. Row `i` has id `i`, so "first" means smallest id.
- `Auth` models `User/auth.py`: `encrypt` on a mutable payload, `decrypt`, the `require_*` decorators as `RequireUser` setting `request.user`, and the guard predicates.
- `Processor`, `ChatParams` and `MessageParams` model the parameter chains.
- `ApiPacker` models `pack`.
- `ChatViews` and `MessageViews` model the views. Each view has a pure plan (authentication, then parameters, then guard, in the decorators' order). A method then changes the table, and its `ensures` are stated against `old(plan)`. Each view method also states what `request.user` becomes: the logged-in user whenever the token logs in, even when the role check then fails, as `require_*` sets it.

Django's equality of model instances is modelled as it behaves. Two instances are equal only when they have the same concrete class and the same primary key (`UserModels.SameInstance`). `HostUser` and `GuestUser` are multi-table subclasses of `BaseUser`, so a `BaseUser` row never equals a `HostUser` or `GuestUser` with the same id. This matters for Findings 2 and 3.

## Model

| member | source | states |
|---|---|---|
| Jsonify.FindArrow | utils/jsonify.py:7 | the result is -1 exactly when the key has no `->`; otherwise it is the first `->` |
| Jsonify.ParseStr | utils/jsonify.py:7-13 | without an arrow both names are the key; with one, the key is source + `->` + output and the source has no arrow |
| Jsonify.ParseName | utils/jsonify.py:3-13 | a non-string key gives (None, None); a string key gives the pair from `ParseStr` |
| Jsonify.ParseAtFirstArrow | utils/jsonify.py:7-13 | splitting `source->output` gives back exactly source and output when the source has no arrow |
| Jsonify.Project | utils/jsonify.py:15-31 | the specification of `jsonify`: the requests' output names written one after another into a dict, each holding its projector's result, else its attribute, else None; `Jsonify.Jsonify`, `ProjectKeys`, `ProjectLastWins` and `ProjectDistinct` state its properties |
| Jsonify.Jsonify | utils/jsonify.py:15-31 | the loop builds exactly `Project` of the requested fields |
| Jsonify.ProjectKeysUnique | utils/jsonify.py:30 | the projected dict never holds a key twice |
| Jsonify.ProjectKeys | utils/jsonify.py:24-30 | a key is in the projection iff some request yields that output name |
| Jsonify.ProjectLastWins | utils/jsonify.py:30 | when an output name repeats, the value of the last request with that name is kept |
| Jsonify.RenamedField | utils/jsonify.py:11-30 | `attr->alias` on a plain attribute yields only the alias, holding the attribute's value |
| Jsonify.ProjectorArguments | utils/jsonify.py:18-29 | a declared `_jsonify_` projector is called with the tuple's extra arguments, or with none |
| Jsonify.ProjectDistinct | utils/jsonify.py:15-31 | with distinct output names the projection is the requests' fields in request order |
| Jsonify.ProjectNamed | utils/jsonify.py:15-31 | with distinct expected names, the keys are those names and each maps to its request's value |
| Function.GetSalt | utils/function.py:6-7 | the random string of `length or 32`: the given length's string, or the 32-character one when the length is None or 0 |
| Function.HashPassword | utils/function.py:10-11 | the digest of password + salt, with the digest a parameter; `HashOfConcatenation` states that nothing else enters |
| Function.VerifyPassword | utils/function.py:14-15 | true for an empty password, otherwise whether the key is the salted hash; `EmptyPasswordVerifies`, `VerifyNonEmpty` and `VerifyHashed` state both branches |
| Function.Indent | utils/function.py:18-20 | split on newlines, prefix every line, join with newlines; `IndentLines`, `IndentSingleLine` and `UnindentIndent` state its properties |
| Function.GetSaltLength | utils/function.py:6-7 | the salt has the requested length, and 32 when the length is missing or 0 |
| Function.HashOfConcatenation | utils/function.py:10-11 | the hash depends only on password + salt |
| Function.EmptyPasswordVerifies | utils/function.py:14-15 | an empty password verifies against any stored key, even none |
| Function.VerifyNonEmpty | utils/function.py:14-15 | a non-empty password verifies iff the key is its salted hash |
| Function.VerifyHashed | utils/function.py:10-15 | a password verifies against its own salted hash |
| Function.SplitJoin | utils/function.py:19-20 | joining newline-free lines and splitting again gives the lines back |
| Function.JoinSplit | utils/function.py:19-20 | splitting on newlines and joining gives the string back |
| Function.IndentLines | utils/function.py:18-20 | `indent` keeps the line count and prefixes every line |
| Function.IndentSingleLine | utils/function.py:18-20 | a one-line string just gets the prefix |
| Function.IndentDefault | utils/function.py:18 | the default prefix is a tab |
| Function.UnindentIndent | utils/function.py:18-20 | stripping the prefix from every line undoes `indent` |
| UserValidators.StripUnchanged | User/validators.py:26 | `strip()` leaves a string unchanged iff it is empty or starts and ends with non-space |
| UserValidators.Strip | User/validators.py:26 | `str.strip()` over Python's whitespace set; `StripUnchanged` states when it changes nothing |
| UserValidators.ValidateName | User/validators.py:25-29 | SPACE_IN_NAME iff there is leading or trailing whitespace, EMPTY_NAME iff empty; otherwise passes |
| UserValidators.WhitespaceOnlyName | User/validators.py:26-29 | a whitespace-only name reports SPACE_IN_NAME, not EMPTY_NAME, because the strip test runs first |
| UserValidators.ValidateInterval | User/validators.py:18-34 | passes iff the interval is at least 5; otherwise INTERVAL_TOO_SMALL(5) |
| UserValidators.ValidatePassword | User/validators.py:19-39 | passes iff the length is at least 6; otherwise PASSWORD_TOO_SHORT(6) |
| Errors.LookupFailuresAreNotFound | Chat/validators.py:12 | a failed user, chat or message lookup answers 404 |
| UserValidators.UserErrorCodes | User/validators.py:6-14 | NOT_EXISTS is the only user error with status 404; the rest are 400 |
| UserModels.GetClass | User/models.py:48-50 | HostUser for role HOST, GuestUser for every other role |
| UserModels.GuestMeansGuestClass | User/models.py:82-84 | the `guest` property holds iff `get_class` picks GuestUser |
| UserModels.Lower | User/models.py:111-117 | lower-casing works character by character and keeps the length |
| UserModels.LowerIdempotent | User/models.py:111-125 | lower-casing twice is lower-casing once |
| UserModels.LowerIgnoresCase | User/models.py:111-125 | names that differ only in letter case lower to the same key |
| UserModels.Specified | User/models.py:60-63 | `specify` gives the HostUser model iff the role is HOST, otherwise GuestUser |
| UserModels.SameInstance | User/auth.py:93 | Django's instance equality: the specified class of the user is the given model and the ids match |
| UserModels.TinyJson | User/models.py:86-87 | the projection of name, user_id, is_alive and guest, with `user_id` from `_jsonify_user_id`; `TinyJsonShape` states its keys and values |
| UserModels.TinyJsonShape | User/models.py:65-87 | `tiny_json` has the keys name, user_id, is_alive, guest in that order, holding name, id, liveness and `guest` |
| UserModels.TinyJsonUserId | User/models.py:65-87 | the `user_id` entry of `tiny_json` is the user's id |
| UserModels.AppendHost | User/models.py:109-121 | appending a new host whose lower name is unused keeps the table invariant |
| UserModels.AppendGuest | User/models.py:163-174 | appending a new guest whose (lower name, host) pair is unused keeps the table invariant |
| UserModels.FindAppendedHost | User/models.py:111-121 | after creation, the lookup by lower name finds the new host |
| UserModels.UserTable.constructor | User/models.py:23 | an empty table |
| UserModels.UserTable.Index | User/models.py:52-58 | a row exists for the model iff the id is in range and the row belongs to that model; otherwise NOT_EXISTS("user id", id) |
| UserModels.UserTable.IndexFinds | User/models.py:52-58 | the condition under which `index` finds a user, stated as a lemma |
| UserModels.UserTable.JwtLogin | User/models.py:71-73 | a missing `user_id` raises KeyError; an int id is looked up through `BaseUser.index`; any other value raises ValueError |
| UserModels.UserTable.FindHost | User/models.py:111-135 | the first host whose lower name matches, or None when there is none |
| UserModels.UserTable.FindGuest | User/models.py:165-186 | the first guest of that host whose lower name matches, or None when there is none |
| UserModels.UserTable.GetHost | User/models.py:133-138 | found iff some host has that lower name; otherwise NOT_EXISTS("name", name) |
| UserModels.UserTable.CreateHost | User/models.py:109-121 | EXISTS and no change on a taken lower name; otherwise appends a host with the salted hash of the password |
| UserModels.UserTable.LoginHost | User/models.py:123-131 | an unknown name creates the host; a known one is returned iff the password verifies, otherwise PASSWORD_ERROR |
| UserModels.UserTable.CreateGuest | User/models.py:163-174 | EXISTS and no change on a taken (lower name, host); otherwise appends a passwordless guest |
| UserModels.UserTable.SetPassword | User/models.py:176-182 | an empty password changes nothing; otherwise stores the salted hash |
| UserModels.UserTable.LoginGuest | User/models.py:184-193 | an unknown guest is created, then given the password; a known one is returned iff the password verifies |
| UserModels.UserTable.HostEmptyPasswordAccepted | User/models.py:128-131 | an existing host logs in with an empty password |
| UserModels.UserTable.HostCreatedPasswordAccepted | User/models.py:113-131 | a host logs in again with the password it was created with |
| UserModels.UserTable.PasswordlessGuestRejects | User/models.py:186-193 | a guest created without a password rejects every non-empty password |
| ChatModels.GetClass | Chat/models.py:25-27 | SingleChat for scheme SINGLE, GroupChat for every other scheme |
| ChatModels.GroupMeansGroupClass | Chat/models.py:62-64 | the `group` property holds iff the chat is a group chat |
| ChatModels.IsGroup | Chat/models.py:62-64 | the `group` property: the scheme is GROUP; `GroupMeansGroupClass` states it holds exactly for group chats |
| ChatModels.AddAll | Chat/models.py:130-133 | adding guests keeps them distinct, keeps the old ones first and holds exactly the old and the added ones |
| ChatModels.Without | Chat/models.py:139 | removal keeps every guest except the removed one |
| ChatModels.GuestIds | Chat/models.py:122 | the ids of the guests, in order |
| ChatModels.Aligned | Chat/models.py:115-117 | every guest's host is the given host, the test `create` makes before UNALIGNED_HOST |
| ChatModels.NewGroup | Chat/models.py:119-123 | a live group chat of that host, holding exactly the given guests, named "Group Chat (n)" with n = guests + 1 |
| ChatModels.NewSingle | Chat/models.py:79 | the live single chat for the guest, owned by the guest's own host |
| ChatModels.IdOrder | Chat/models.py:93-96 | the rows are in increasing id order |
| ChatModels.ChatTable.constructor | Chat/models.py:17 | an empty table |
| ChatModels.ChatTable.Index | Chat/models.py:29-37 | found iff the id is in range, the chat is live and of the model; otherwise CHAT_NOT_EXISTS(id), a 404 |
| ChatModels.ChatTable.FindSingle | Chat/models.py:76 | the live single chat of a guest, if any |
| ChatModels.ChatTable.FindSingleUnique | Chat/models.py:76-79 | in a valid store the chat found is the guest's only live single chat |
| ChatModels.ChatTable.HostSingleChats | Chat/models.py:93-96 | exactly the live single chats of that host |
| ChatModels.ChatTable.GuestSingleChats | Chat/models.py:98-101 | exactly the live single chats of that guest |
| ChatModels.ChatTable.HostGroupChats | Chat/models.py:153-156 | exactly the live group chats of that host |
| ChatModels.ChatTable.GuestGroupChats | Chat/models.py:158-161 | exactly the live group chats that list that guest |
| ChatModels.ChatTable.ListingsInIdOrder | Chat/models.py:153-161 | each listing comes in increasing id order |
| ChatModels.ChatTable.Remove | Chat/models.py:66-68 | only the chat's deleted flag changes (and its last-chat time), and afterwards no lookup or listing finds it |
| ChatModels.ChatTable.CreateGroup | Chat/models.py:108-123 | GROUP_CHAT_EMPTY for 0 guests, GROUP_CHAT_TOO_SMALL for 1, UNALIGNED_HOST for a foreign guest, all with no change; otherwise appends `NewGroup` |
| ChatModels.ChatTable.AddGuest | Chat/models.py:130-133 | UNALIGNED_HOST and no change for a foreign guest; otherwise the guest set gains exactly that guest |
| ChatModels.ChatTable.RemoveGuest | Chat/models.py:135-139 | NOT_MEMBER and no change for a non-member; otherwise the guest set loses exactly that guest |
| ChatModels.ChatTable.Rename | Chat/models.py:125-128 | only the name (and the last-chat time) of that chat changes |
| ChatModels.ChatTable.GetOrCreateSingle | Chat/models.py:74-79 | returns the live single chat of the guest when it exists, with no change; otherwise appends a new one for the guest's host |
| ChatModels.SingleChatJsonShape | Chat/models.py:81-88 | keys host, guest, created_at, last_chat_at, group, chat_id in that order, with `group` false and no `id` |
| ChatModels.GroupChatJsonShape | Chat/models.py:141-148 | keys host, guests, name, created_at, last_chat_at, group, chat_id in that order, with `host` the host's tiny JSON, `guests` the guests' tiny JSON in stored order, `name` the chat's name, `group` true, `chat_id` the id and no `id` |
| ChatModels.ChatJson | Chat/models.py:87-88 | the projection of a chat by its kind's field list (a group chat's list is at Chat/models.py:147-148); `SingleChatJsonShape` and `GroupChatJsonShape` state its keys and values |
| MessageModels.SingleGuestMayNotPost | Message/models.py:32 | the guest of a single chat may not post to it |
| MessageModels.GroupMembersMayPost | Message/models.py:32 | the host, and every listed guest of a group chat, may post |
| MessageModels.MayPost | Message/models.py:32 | `create`'s posting right: the user is the chat's host instance, or the chat is a group and the user one of its guest instances |
| MessageModels.IdOrder | Message/models.py:24-54 | the rows are in increasing id order, standing in for creation time |
| MessageModels.MessageTable.constructor | Message/models.py:17 | an empty table |
| MessageModels.MessageTable.Create | Message/models.py:30-34 | a permitted poster appends the message to the chat; anyone else gets NOT_A_MEMBER with no change |
| MessageModels.MessageTable.Index | Message/models.py:45-50 | found iff the id is in range and the message is live; otherwise NOT_EXISTS |
| MessageModels.MessageTable.Remove | Message/models.py:67-69 | only the deleted flag changes, and afterwards no lookup or page contains the message |
| MessageModels.MessageTable.Latest | Message/models.py:52-55 | only live messages of that chat |
| MessageModels.MessageTable.Older | Message/models.py:57-60 | only live messages of that chat with a smaller id |
| MessageModels.MessageTable.Newer | Message/models.py:62-65 | only live messages of that chat with a larger id |
| MessageModels.MessageTable.LatestNewestFirst | Message/models.py:52-55 | at most `limit` messages, newest first, and every live message left out is older than all returned |
| MessageModels.MessageTable.OlderNewestFirst | Message/models.py:57-60 | at most `limit` messages before the cursor, newest first, and every one left out is older than all returned |
| MessageModels.MessageTable.NewerOldestFirst | Message/models.py:62-65 | at most `limit` messages after the cursor, oldest first, and every one left out is newer than all returned |
| MessageModels.JsonList | Message/models.py:55 | one `jsonl` per message, in order |
| MessageModels.MessageJsonShape | Message/models.py:36-43 | keys message_id, user, type, content, created_at in that order; `user` is the author's tiny JSON; no `id` |
| MessageModels.MessageJson | Message/models.py:42-43 | the projection of message_id, user, type, content and created_at; `MessageJsonShape` states its keys and values |
| Seqs.NewestFirst | Message/models.py:54-59 | taking `limit` from the reversed rows keeps the newest ones, in decreasing order |
| Seqs.OldestFirst | Message/models.py:64 | taking `limit` from the rows keeps the oldest ones, in increasing order |
| Auth.StampFields | User/auth.py:32-33 | the payload gets `time` = now and `expire`; every other entry is unchanged |
| Auth.Stamp | User/auth.py:32-33 | the payload with `time` written and then `expire`; `StampFields` states what changes |
| Auth.Payload.constructor | User/auth.py:31 | the payload dict handed to `encrypt` |
| Auth.Encrypt | User/auth.py:31-40 | the caller's dict is stamped in place, and the result is `auth` (the signature) and `data` (that same stamped dict) |
| Auth.LoginToken | User/auth.py:87-89 | the login token encrypts the user's `tiny_json` with the default week-long expiry |
| Auth.StampKeepsUserId | User/auth.py:32-33 | stamping keeps `user_id`, so `jwt_login` finds the same user |
| Auth.LoginPayloadNamesUser | User/auth.py:87-89 | the data of a login token leads `jwt_login` back to that user |
| Auth.Decrypt | User/auth.py:43-54 | a decode error gives FORMAT; then expire must be an int and time a float, checked in that order; an expired token gives EXPIRED; otherwise the decoded data |
| Auth.ShapeBeforeExpiry | User/auth.py:48-52 | a non-int expire is rejected before the expiry test |
| Auth.StampedLifetime | User/auth.py:31-54 | a stamped payload is accepted up to time + expire and gives EXPIRED after |
| Auth.HttpRequest.constructor | User/auth.py:59-60 | a request with no user set yet |
| Auth.Login | User/auth.py:57-66 | a missing or empty header gives FORMAT; success requires a decodable, valid token |
| Auth.Authenticate | User/auth.py:68-84 | succeeds iff login succeeds and the role matches when one is required; a wrong role gives FORMAT |
| Auth.AnyRoleSuffices | User/auth.py:75-84 | a token accepted for a specific role is accepted by `require_user` |
| Auth.RequireUser | User/auth.py:57-72 | sets `request.user` whenever login succeeds, even when the role then fails |
| Auth.OrElse | User/auth.py:105-115 | Python's short-circuit `or`: true when the left side holds, otherwise the right side, error included |
| Auth.IsSingleChatGuest | User/auth.py:96-97 | on a group chat, reading `chat.guest` raises AttributeError; on a single chat, true iff the user is that guest |
| Auth.IsGroupChatGuest | User/auth.py:100-101 | on a single chat, reading `chat.guests` raises AttributeError; on a group chat, true iff the user is a listed guest |
| Auth.IsSingleChatMember | User/auth.py:104-105 | raises iff the user is not the host and the chat is a group chat; true iff host or the single chat's guest |
| Auth.IsGroupChatMemberAsWritten | User/auth.py:108-109 | raises iff the user is not the host and the chat is a single chat; true iff host or a listed guest |
| Auth.SingleChatGuestCrashesGroupGuard | User/auth.py:108-109 | the guest of a single chat who posts makes the guard raise AttributeError |
| Auth.GroupChatMemberIsPostingRight | User/auth.py:108-109 | the corrected guard equals `create`'s own permission test and agrees with the source wherever the source does not raise |
| Auth.IsChatMember | User/auth.py:112-115 | true iff the user is the host, the single chat's guest, or a listed group guest |
| Auth.ChatMemberByKind | User/auth.py:104-115 | the membership test agrees with the per-kind guards and admits everyone who may post |
| Auth.MessageOwnerAsWrittenIgnoresAuthor | User/auth.py:118-119 | the guard as written holds iff the user is the chat's host; the author does not count |
| Auth.GuestAuthorRefused | User/auth.py:118-119 | a guest author cannot pass the guard on their own message |
| Auth.MessageOwnerCorrected | User/auth.py:118-119 | the corrected guard admits the author, and otherwise agrees with the source |
| Auth.Guard | User/auth.py:122-139 | passes iff the predicate is true; false gives a 403 with the guard's message; a raised exception propagates |
| Auth.IsChatHost | User/auth.py:92-93 | the user is the host instance of the chat |
| Auth.IsGroupChatMember | User/auth.py:108-109 | the corrected group-member guard: the chat's host, or a guest listed by a group chat; `GroupChatMemberIsPostingRight` relates it to the written guard and to `create` |
| Auth.IsMessageOwnerAsWritten | User/auth.py:118-119 | the written owner guard: the user equals the author's BaseUser instance or the chat's host instance; `MessageOwnerAsWrittenIgnoresAuthor` states that only the host passes |
| Auth.IsMessageOwner | User/auth.py:118-119 | the corrected owner guard: the author or the chat's host; `MessageOwnerCorrected` relates it to the written one |
| Processor.Field | Chat/params.py:14 | present fields are read; an absent one gives a malformed-field error |
| Processor.ParseInt | Chat/params.py:15 | accepts digits with an optional leading minus, and gives their value |
| Processor.ParseIntToString | Chat/params.py:15 | the decimal text of any integer parses back to it |
| Processor.ToInt | Message/params.py:14-16 | an int passes, a decimal string is parsed, anything else is a malformed field |
| Processor.ToIntOfText | Chat/params.py:15 | the decimal text of n converts to n |
| Processor.Truncate | Message/params.py:21 | rounds toward zero, like `int()` on a float |
| Processor.BuiltinInt | Message/params.py:21 | bools give 0 or 1, floats are truncated, everything else goes through `ToInt` |
| ChatParams.RawId | Chat/params.py:14-15 | succeeds iff the field is present and converts, giving the converted id |
| ChatParams.ChatId | Chat/params.py:14-16 | a live chat of either kind at the converted id, or the first error on the way |
| ChatParams.GroupChatId | Chat/params.py:32 | the base chain's chat when it is a group chat, "not a group chat" for a single chat, the base error otherwise |
| ChatParams.SingleChatOnlyThroughBase | Chat/params.py:14-32 | a single chat passes the base chain and is rejected only by the group copy |
| ChatParams.ResolveGuest | Chat/params.py:29 | an int element is looked up as a guest; any other element raises |
| ChatParams.ResolveAll | Chat/params.py:28-29 | succeeds iff every element resolves, giving them in order; otherwise the first failure |
| ChatParams.Guests | Chat/params.py:28-30 | a list of resolvable, pairwise distinct guests; a missing or non-list field is malformed |
| ChatParams.GuestsDuplicates | Chat/params.py:30 | the same guest twice is rejected as "duplicated guests"; two different guests pass in order |
| MessageParams.MessageId | Message/params.py:14 | the converted id resolved to a live message |
| MessageParams.UserId | Message/params.py:16 | the converted id resolved through `BaseUser.index` |
| MessageParams.Limit | Message/params.py:21-23 | passes iff `int()` succeeds and 5 <= limit <= 100; below gives "greater than 5", above "less than 100" |
| MessageParams.LimitBounds | Message/params.py:21-23 | for an int limit, both bounds are inclusive |
| MessageParams.Cursor | Message/params.py:25-26 | an absent or null cursor is None; any other value must convert |
| MessageParams.Before | Message/params.py:25 | the `before` cursor through `Cursor` |
| MessageParams.After | Message/params.py:26 | the `after` cursor through `Cursor` |
| ApiPacker.Chosen | utils/api_packer.py:10 | an `Error` reply is its own envelope; any other reply uses `OK` |
| ApiPacker.Pack | utils/api_packer.py:9-22 | status is the chosen code; `body` is the value, or null for an error; every other entry is the error's own |
| ApiPacker.OkMarkerHasNoBody | utils/api_packer.py:10-13 | returning `OK` gives the same envelope as an empty body |
| ChatViews.JsonItems | Chat/models.py:153-161 | one `jsonl` per chat, in order |
| ChatViews.ExtendedKinds | Chat/views.py:14-23 | the loop over [SingleChat, GroupChat] gives the single-chat listing followed by the group listing |
| ChatViews.Collect | Chat/views.py:13-24 | the loop's result is the single-chat listing followed by the group listing |
| ChatViews.HostChats | Chat/views.py:19-24 | the host's single chats, then the host's group chats |
| ChatViews.GuestChats | Chat/views.py:12-17 | the guest's single chat, then the groups that list the guest |
| ChatViews.HostListingIsOwnership | Chat/views.py:19-24 | a chat is listed for a host iff it is live and owned by that host |
| ChatViews.GuestListingIsMembership | Chat/views.py:12-17 | a chat is listed for a guest iff it is live and has the guest as member |
| ChatViews.List | Chat/views.py:26-32 | authentication failure or the listing chosen by the user's class |
| ChatViews.PostGroupPlan | Chat/views.py:36-40 | host authentication first, then the guests chain |
| ChatViews.PostGroup | Chat/views.py:36-43 | the plan's error with no change, else `create`'s errors with no change, else the new group's JSON |
| ChatViews.DeletePlan | Chat/views.py:45-47 | host authentication, the group `chat_id`, then the owner guard |
| ChatViews.DeletePlanAdmits | Chat/views.py:45-47 | the plan succeeds for the owner of a live group chat |
| ChatViews.DeleteGroup | Chat/views.py:45-51 | the plan's error with no change, otherwise soft-deletes the chat and returns `OK` |
| ChatViews.NewName | Chat/views.py:57 | the body's `name` when it is a present string; an absent field, and (admitted under Left out) a non-string one, gives the malformed-field error |
| ChatViews.RenamePlanAsWritten | Chat/views.py:55-58 | host authentication, the base `chat_id`, the name, then the owner guard |
| ChatViews.RenamePlan | Chat/views.py:55-58 | as written, but with the group `chat_id` |
| ChatViews.RenamePlansAgree | Chat/views.py:56 | on a group chat both plans agree; the corrected plan succeeds only where the written one does |
| ChatViews.RenameSingleChat | Chat/views.py:54-62 | for the owner of a single chat the written plan succeeds and the corrected one rejects the chat |
| ChatViews.RenameAsWritten | Chat/views.py:54-62 | a single chat reaches `rename` and raises AttributeError; a group chat is renamed and its JSON returned |
| ChatViews.Rename | Chat/views.py:59-62 | the corrected view: the plan's error with no change, otherwise the group is renamed and its JSON returned |
| MessageViews.Selected | Message/views.py:20-27 | only that chat's live messages, at most `limit`; `before` bounds the ids from above, otherwise `after` from below |
| MessageViews.BeforeWins | Message/views.py:23-24 | when both cursors are given, `before` is used |
| MessageViews.SelectedOrder | Message/views.py:20-27 | newest first, except that an `after` page is oldest first |
| MessageViews.PageParams | Message/views.py:12-17 | `chat_id`, `limit`, `before`, `after`, in declaration order, with the first error winning |
| MessageViews.GetOutcome | Message/views.py:11-27 | authentication, then the parameters, then the member guard, then the chosen page |
| MessageViews.GetShowsOnlyThatChat | Message/views.py:11-27 | a member gets only live messages of that very chat |
| MessageViews.GetMessages | Message/views.py:11-27 | the outcome of the request, serialised message by message |
| MessageViews.PostBody | Message/views.py:31-34 | both `content` and `type` must be present |
| MessageViews.PostPlanAsWritten | Message/views.py:29-35 | authentication, `chat_id`, the body, then the group-member guard as written; a non-host on a single chat raises AttributeError |
| MessageViews.PostPlansAgree | Message/views.py:29-35 | the written and corrected checks agree except for a non-host on a single chat, where the written one raises and the corrected one gives a 403 |
| MessageViews.PostAsWritten | Message/views.py:29-42 | the endpoint as written: the written plan's error with no change; otherwise the message is appended and its JSON returned |
| MessageViews.PostPlan | Message/views.py:29-35 | the corrected checks: authentication, `chat_id`, the body, then the corrected group-member guard |
| MessageViews.Post | Message/views.py:29-42 | the corrected endpoint: the corrected plan's error with no change; otherwise the message is appended and its JSON returned |
| MessageViews.ChatHost | User/auth.py:119 | the host of the message's chat, or DoesNotExist when the chat row is missing |
| MessageViews.DeletePlanAsWritten | Message/views.py:44-46 | authentication, `message_id`, then the owner guard as written, which only the chat's host passes |
| MessageViews.DeletePlansAgree | Message/views.py:44-46 | the written and corrected checks agree except for an author who is not the chat's host, whom the written one refuses with a 403 and the corrected one admits |
| MessageViews.DeleteAsWritten | Message/views.py:44-50 | the endpoint as written: the written plan's error with no change; otherwise soft-deletes the message and returns `OK` |
| MessageViews.DeletePlan | Message/views.py:44-46 | the corrected checks: authentication, `message_id`, then the corrected owner guard |
| MessageViews.DeleteAdmitsAuthor | Message/views.py:44-46 | the author of a live message may delete it |
| MessageViews.Delete | Message/views.py:44-50 | the corrected endpoint: the corrected plan's error with no change; otherwise soft-deletes the message and returns `OK` |

## Left out

- The framework is not modelled: the ORM, migrations, `full_clean`, and the unique and `unique_together` constraints as database errors. The tables' `Valid` invariants state the uniqueness the code keeps itself: distinct lower names among hosts and among the guests of one host, distinct guests per group, and at most one live single chat per guest. The `unique=True` on `SingleChat.guest`, which would also reject a new single chat beside a deleted one, is one of those database constraints.
- `MessageModels.MessageTable.Create`: a message's `type` and `content` are stored exactly as the request gave them. Django's IntegerField and TextField conversions are not modelled. So a non-numeric `type`, on which `objects.create` raises and the source answers with a server error, is accepted by `MessageViews.Post` and `MessageViews.PostAsWritten`.
- Chat listings (`get_host_chats`, `get_guest_chats`) are querysets with no `order_by`, and `BaseChat` declares no ordering, so the database may return them in any order. The model takes them in increasing id order (`ChatModels.ChatTable.ListingsInIdOrder`).
- Creation time is modelled as id order. Rows get increasing ids, and `created_at` is set at creation. `guests.all()` is taken to be in insertion order.
- `utils.processor` and the validation library (`Validator`, `ListValidator`, `DictValidator`, `analyse`) are not part of this model. Their failures are modelled with one template each:
  - an absent or ill-typed field gives a malformed-field error;
  - a failed `.bool` gives a rejection with its message;
  - a failed guard gives a 403 with its message.
- `Processor.ToInt` / `Processor.BuiltinInt`: `processor.int` is modelled as accepting ints and decimal strings with an optional minus. Python's whitespace, `+` and underscore forms of `int()` are not modelled.
- `ChatParams.ResolveGuest`: a `guests` element that is not an int is modelled as raising, although a digit string or a bool would be converted by `GuestUser.index`.
- Errors.DefaultCode: the `ChatErrors` entries declare no status code, and the default of the base `Error` class is not part of this model. They are taken to be 400, except `NOT_EXISTS`, which is taken to be 404 like `UserErrors.NOT_EXISTS` (User/validators.py:8) and `MessageErrors.NOT_EXISTS` (Message/validators.py:10), which declare `Code.NotFound`.
- `ChatViews.NewName`: `GroupChatParams.name` (Chat/params.py:26) declares no steps, so the source hands any present `name` value to `rename`. The model takes group names as strings and refuses a present non-string `name` with the malformed-field error, where the source would store it.
- `Function.VerifyPassword` / `UserModels.UserTable.SetPassword`: the password is typed as a string, so only `""` skips the check. The source's `if password` and `if not password` (utils/function.py:15, User/models.py:177) also skip it for every other falsy value (`False`, `0`, `None`, `[]`), and `password: Validator` declares no step that would refuse those. A truthy non-string password, on which `hash_password` raises TypeError, is not modelled either.
- `UserModels.UserTable.JwtLogin`: a `user_id` that is present but not an int is modelled as raising ValueError.
- A non-string key given to `jsonify` is modelled as (None, None) from `_parse_name`. The `getattr` that would then raise TypeError is not modelled.
- `Lower` folds ASCII letters only. Python's Unicode lower-casing is not modelled.
- The model-field validators (length limits of names, content, type) are not modelled. The Chat and Message validator files only supply error entries, which `Errors` models.
- `is_alive` and `heartbeat` depend on the clock, so liveness is the parameter `tiny`/`alive`. Every clock reading is a parameter `now`, and floats are reals.
- JWT signing and decoding, `sha256` and `get_random_string` are not modelled. They are function parameters (`sign`, `decode`, `digest`, `randomString`).
- `json.dumps` and `HttpResponse` are left out. `Pack` produces the dict and the status.
- The middleware is modelled only through the `Result` cases: `Err` is what `process_exception` packs, and `Uncaught` becomes a server error.
- `request.data` is taken to be the resolved query or body of the view being guarded.
- The `data=data` in `encrypt` returns the caller's own dict. The model stamps a `Payload` object in place. Later mutation through that alias is not modelled.
- User/views.py, User/params.py and the urls files are not part of this model.
- `require_guest_user` and `require_singlechat_member`, which no view uses, are modelled only through `Authenticate` and `Auth.IsSingleChatMember`.
- The `print('wow')` in `rename` is not modelled.
- `GroupChat.create`'s guest list is taken as given. A guest listed twice is kept once, as the many-to-many `add` does.

## Findings

| source | as written | input that shows it | evidently intended | confidence | as-written member | corrected member |
|---|---|---|---|---|---|---|
| Chat/views.py:54-62 | the rename view resolves `chat_id` with `BaseChatParams.chat_id`, so a single chat reaches `chat.rename`, which only `GroupChat` has | the owner posts a new name for one of their single chats: AttributeError, a server error with no envelope | resolve with `GroupChatParams.chat_id`, so a single chat gets "not a group chat" | not executed | ChatViews.RenamePlanAsWritten, ChatViews.RenameSingleChat, ChatViews.RenameAsWritten | ChatViews.RenamePlan, ChatViews.RenamePlansAgree, ChatViews.Rename |
| User/auth.py:100-101,108-109; Message/views.py:29-42 | the posting guard reads `chat.guests` on whatever chat `MessageParams.chat_id` resolved | the guest of a single chat posts a message to it: AttributeError, a server error instead of a 403 | a non-member is refused with "You are not a member of this chat", as `Message.create` would refuse them | not executed | Auth.IsGroupChatMemberAsWritten, Auth.SingleChatGuestCrashesGroupGuard, MessageViews.PostPlanAsWritten, MessageViews.PostAsWritten | Auth.IsGroupChatMember, Auth.GroupChatMemberIsPostingRight, MessageViews.PostPlan, MessageViews.PostPlansAgree, MessageViews.Post |
| User/auth.py:118-119 | `request.user == message.user` compares a HostUser or GuestUser with the BaseUser row of the author, so it never holds | a guest deletes a message they wrote in a group chat: 403 "You are not the owner of this message" | the author, as well as the chat's host, may delete the message | not executed | Auth.IsMessageOwnerAsWritten, Auth.MessageOwnerAsWrittenIgnoresAuthor, Auth.GuestAuthorRefused, MessageViews.DeletePlanAsWritten, MessageViews.DeleteAsWritten | Auth.IsMessageOwner, Auth.MessageOwnerCorrected, MessageViews.DeletePlan, MessageViews.DeletePlansAgree, MessageViews.Delete |
