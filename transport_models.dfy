/** The records exchanged with the Telegram Bot API: chats, users, messages,
    updates, chat members and chat permissions. Field names follow the API;
    decoding from JSON is not part of this module. */
module TransportModels {
  import opened Wrappers

  /** The kinds of chat the bot accepts; each is a string enumeration member. */
  datatype ChatType = Group | Supergroup | Private

  /** The string each `ChatType` member stands for. */
  function ChatTypeValue(t: ChatType): string
  {
    match t
    case Group => "group"
    case Supergroup => "supergroup"
    case Private => "private"
  }

  /** Looking a chat type up by its string; `None` for a string that is not a member. */
  function ParseChatType(s: string): (r: Option<ChatType>)
    ensures r.Some? ==> ChatTypeValue(r.value) == s
  {
    if s == "group" then Some(Group)
    else if s == "supergroup" then Some(Supergroup)
    else if s == "private" then Some(Private)
    else None
  }

  /** The enumeration admits exactly the strings "group", "supergroup" and
      "private", and each member's string looks that member up again. */
  lemma ChatTypeAdmits(s: string, t: ChatType)
    ensures ParseChatType(s).Some? <==> s in {"group", "supergroup", "private"}
    ensures ParseChatType(ChatTypeValue(t)) == Some(t)
  {
  }

  /** The chat member statuses the bot distinguishes. */
  datatype ChatMemberStatus = Creator | Administrator

  function ChatMemberStatusValue(s: ChatMemberStatus): string
  {
    match s
    case Creator => "creator"
    case Administrator => "administrator"
  }

  /** Looking a status up by its string; `None` for every other string. */
  function ParseChatMemberStatus(s: string): (r: Option<ChatMemberStatus>)
    ensures r.Some? ==> ChatMemberStatusValue(r.value) == s
  {
    if s == "creator" then Some(Creator)
    else if s == "administrator" then Some(Administrator)
    else None
  }

  /** The enumeration admits exactly "creator" and "administrator". */
  lemma ChatMemberStatusAdmits(s: string, st: ChatMemberStatus)
    ensures ParseChatMemberStatus(s).Some? <==> s in {"creator", "administrator"}
    ensures ParseChatMemberStatus(ChatMemberStatusValue(st)) == Some(st)
  {
  }

  datatype User = User(
    id: int,
    isBot: bool,
    firstName: Option<string>,
    lastName: Option<string>,
    canJoinGroups: Option<bool>,
    canReadAllGroupMessages: Option<bool>)

  /** How an f-string renders an optional string: `None` prints as "None". */
  function RenderOptional(s: Option<string>): string
  {
    match s
    case Some(v) => v
    case None => "None"
  }

  /** `User.readable_name`: the first name, followed by a space and the last
      name when there is a non-empty last name. */
  function ReadableName(u: User): (r: string)
  {
    RenderOptional(u.firstName) + (if u.lastName.Some? && u.lastName.value != "" then " " + u.lastName.value else "")
  }

  /** The readable name is the first name alone exactly when the last name is
      missing or empty, and is first name, space, last name otherwise; it
      always begins with the rendering of the first name. */
  lemma ReadableNameShape(u: User)
    ensures (u.lastName == None || u.lastName == Some("")) ==> ReadableName(u) == RenderOptional(u.firstName)
    ensures u.lastName.Some? && u.lastName.value != "" ==>
              ReadableName(u) == RenderOptional(u.firstName) + " " + u.lastName.value
    ensures RenderOptional(u.firstName) <= ReadableName(u)
    ensures u.lastName.Some? && u.lastName.value != "" ==> |ReadableName(u)| > |RenderOptional(u.firstName)|
  {
  }

  datatype Chat = Chat(id: int, chatType: ChatType, title: Option<string>)

  /** A message. `user` is the API's field "from"; `replyToMessage` is an
      optional link to an earlier message, absent unless given, so replies
      form a finite chain. */
  datatype Message = Message(
    messageId: int,
    user: User,
    chat: Chat,
    text: string,
    replyToMessage: Option<Message> := None)

  /** The key under which the API sends a message's sender. */
  const MessageUserKey: string := "from"

  /** One inbound update; each carries exactly one message. */
  datatype Update = Update(updateId: int, message: Message)

  datatype ChatMember = ChatMember(
    status: ChatMemberStatus,
    user: User,
    isAnonymous: bool,
    customTitle: Option<string>)

  datatype ChatPermissions = ChatPermissions(
    canSendMessages: bool,
    canSendMediaMessages: bool,
    canSendPolls: bool,
    canSendOtherMessages: bool)
}
