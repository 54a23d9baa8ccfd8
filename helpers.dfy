/** The helper commands of the bot: `id` answers with the sender's id (and the
    chat's id when the sender administers the chat), `ping` answers "pong".
    Each handler is modelled by the outbound calls it makes, in order. */
module Helpers {
  import opened Wrappers
  import opened Strings
  import opened TransportModels
  import opened TelegramApi

  /** `"{id_type}: <pre>{id_value}</pre>"`. */
  const LineTemplate: Template := [Field("id_type"), Lit(": <pre>"), Field("id_value"), Lit("</pre>")]

  /** The arguments one reply line is formatted with. */
  function LineArgs(idType: string, idValue: int): map<string, string>
  {
    map["id_type" := idType, "id_value" := IntToString(idValue)]
  }

  /** The line template formats to the id kind, ": <pre>", the id and "</pre>". */
  lemma LineTemplateText(idType: string, idValue: int)
    ensures Format(LineTemplate, LineArgs(idType, idValue)) == Ok(idType + ": <pre>" + IntToString(idValue) + "</pre>")
  {
    var args := LineArgs(idType, idValue);
    var value := IntToString(idValue);
    var t3: Template := [Lit("</pre>")];
    assert t3[1..] == [];
    assert Format(t3, args) == Ok("</pre>") by { assert "</pre>" + "" == "</pre>"; }
    var t2: Template := [Field("id_value")] + t3;
    assert t2[1..] == t3;
    assert Format(t2, args) == Ok(value + "</pre>");
    var t1: Template := [Lit(": <pre>")] + t2;
    assert t1[1..] == t2;
    assert Format(t1, args) == Ok(": <pre>" + (value + "</pre>"));
    assert LineTemplate == [Field("id_type")] + t1 && LineTemplate[1..] == t1;
    assert idType + (": <pre>" + (value + "</pre>")) == idType + ": <pre>" + value + "</pre>";
  }

  /** One reply line: the formatted line template. */
  function Line(idType: string, idValue: int): (r: string)
    ensures r == idType + ": <pre>" + IntToString(idValue) + "</pre>"
  {
    LineTemplateText(idType, idValue);
    Format(LineTemplate, LineArgs(idType, idValue)).value
  }

  /** An ordered `dict` from id kinds to ids, as its `(key, value)` items. */
  type IdEntries = seq<(string, int)>

  predicate HasKey(es: IdEntries, key: string)
  {
    exists k :: 0 <= k < |es| && es[k].0 == key
  }

  /** Every item under `key` takes the value `value`; the others stay. */
  function ReplaceValue(es: IdEntries, key: string, value: int): (r: IdEntries)
    ensures |r| == |es|
    ensures forall k :: 0 <= k < |es| ==> r[k] == if es[k].0 == key then (key, value) else es[k]
  {
    if es == [] then []
    else [if es[0].0 == key then (key, value) else es[0]] + ReplaceValue(es[1..], key, value)
  }

  /** `es | {key: value}`: a key already present keeps its place and takes the
      new value; a new key is added last. */
  function SetEntry(es: IdEntries, key: string, value: int): IdEntries
  {
    if HasKey(es, key) then ReplaceValue(es, key, value) else es + [(key, value)]
  }

  /** The sender is one of the chat's administrators. */
  predicate SenderIsAdmin(message: Message, admins: seq<ChatMember>)
  {
    exists k :: 0 <= k < |admins| && admins[k].user.id == message.user.id
  }

  /** The ids the reply reports: always the sender's, first; then the chat's
      when the sender is an administrator. */
  function ReportedIds(message: Message, admins: seq<ChatMember>): IdEntries
  {
    [("user_id", message.user.id)] + (if SenderIsAdmin(message, admins) then [("chat_id", message.chat.id)] else [])
  }

  /** The loop of `id_handler` over the administrators: the chat id entry is
      set for every administrator who is the sender, so it appears once. */
  method CollectIds(message: Message, admins: seq<ChatMember>) returns (ids: IdEntries)
    ensures ids == ReportedIds(message, admins)
  {
    ids := [("user_id", message.user.id)];
    var i := 0;
    while i < |admins|
      invariant 0 <= i <= |admins|
      invariant ids == ReportedIds(message, admins[..i])
    {
      assert forall k :: 0 <= k < i ==> admins[..i + 1][k] == admins[..i][k];
      if admins[i].user.id == message.user.id {
        assert admins[..i + 1][i].user.id == message.user.id;
        var both := [("user_id", message.user.id), ("chat_id", message.chat.id)];
        if HasKey(ids, "chat_id") {
          assert ids == both;
          assert ReplaceValue(ids, "chat_id", message.chat.id) == both;
        } else {
          assert ids == [("user_id", message.user.id)];
        }
        ids := SetEntry(ids, "chat_id", message.chat.id);
        assert SenderIsAdmin(message, admins[..i + 1]);
      } else {
        assert SenderIsAdmin(message, admins[..i + 1]) == SenderIsAdmin(message, admins[..i]);
      }
      i := i + 1;
    }
    assert admins[..i] == admins;
  }

  /** The reply text: one line per entry, joined by newlines. */
  function ReplyText(ids: IdEntries): string
  {
    Join("\n", seq(|ids|, k requires 0 <= k < |ids| => Line(ids[k].0, ids[k].1)))
  }

  /** The reply has the sender's line and, exactly for an administrator, a
      second line with the chat's id. */
  lemma ReplyTextLines(message: Message, admins: seq<ChatMember>)
    ensures SenderIsAdmin(message, admins) ==>
              ReplyText(ReportedIds(message, admins))
              == Line("user_id", message.user.id) + "\n" + Line("chat_id", message.chat.id)
    ensures !SenderIsAdmin(message, admins) ==>
              ReplyText(ReportedIds(message, admins)) == Line("user_id", message.user.id)
  {
    var ids := ReportedIds(message, admins);
    var lines := seq(|ids|, k requires 0 <= k < |ids| => Line(ids[k].0, ids[k].1));
    assert lines[0] == Line("user_id", message.user.id);
    if SenderIsAdmin(message, admins) {
      assert |lines| == 2 && lines[1..] == [Line("chat_id", message.chat.id)];
      assert Join("\n", lines[1..]) == Line("chat_id", message.chat.id);
    }
  }

  /** `id_handler`: it asks for the chat's administrators and then replies in
      the chat to the message with the reported ids. A failed request for the
      administrators raises and sends nothing. */
  method IdHandler(message: Message, fetched: Result<seq<ChatMember>, ApiError>)
    returns (calls: seq<ApiCall>, raised: Option<ApiError>)
    ensures fetched.Err? ==> calls == [GetChatAdministratorsCall(message.chat.id)] && raised == Some(fetched.error)
    ensures fetched.Ok? ==>
              raised == None &&
              calls == [GetChatAdministratorsCall(message.chat.id),
                        SendMessageCall(message.chat.id, ReplyText(ReportedIds(message, fetched.value)), Some(message.messageId))]
  {
    calls := [GetChatAdministratorsCall(message.chat.id)];
    if fetched.Err? {
      return calls, Some(fetched.error);
    }
    var ids := CollectIds(message, fetched.value);
    var text := ReplyText(ids);
    calls := calls + [SendMessageCall(message.chat.id, text, Some(message.messageId))];
    raised := None;
  }

  /** The answer of `ping_handler`: "pong" exactly when the text contains
      "ping", and the Russian "понг" otherwise. */
  function PingAnswer(text: string): (answer: string)
    ensures answer == "pong" <==> exists i :: OccursAt("ping", text, i)
    ensures answer == "pong" || answer == "понг"
  {
    if Contains(text, "ping") then "pong" else "понг"
  }

  /** `ping_handler`: one reply in the chat to the message. */
  function PingHandler(message: Message): (calls: seq<ApiCall>)
    ensures |calls| == 1 && calls[0].SendMessage?
    ensures calls[0].chatId == message.chat.id && calls[0].replyToMessageId == Some(message.messageId)
    ensures calls[0].text == "pong" <==> exists i :: OccursAt("ping", message.text, i)
  {
    [SendMessageCall(message.chat.id, PingAnswer(message.text), Some(message.messageId))]
  }

  /** The two helper handlers. */
  datatype HelperHandler = IdReply | PingReply

  /** The commands each handler is registered under, in registration order. */
  const Registrations: seq<(seq<string>, HelperHandler)> := [(["id"], IdReply), (["ping", "пинг"], PingReply)]

  /** The handlers registered under `command`, in registration order: the
      commands matcher runs every handler listed under a command. */
  function HandlersFor(regs: seq<(seq<string>, HelperHandler)>, command: string): (r: seq<HelperHandler>)
    ensures |r| <= |regs|
    ensures r == [] <==> forall k :: 0 <= k < |regs| ==> command !in regs[k].0
    ensures forall h :: h in r <==> exists k :: 0 <= k < |regs| && command in regs[k].0 && regs[k].1 == h
  {
    if regs == [] then []
    else
      var rest := HandlersFor(regs[1..], command);
      assert forall k :: 1 <= k < |regs| ==> regs[k] == regs[1..][k - 1];
      if command in regs[0].0 then [regs[0].1] + rest else rest
  }

  /** "id" runs the id handler, and "ping" and "пинг" the ping handler, each
      alone; no other command runs anything. */
  lemma RegisteredCommands(command: string)
    ensures HandlersFor(Registrations, command) == [IdReply] <==> command == "id"
    ensures HandlersFor(Registrations, command) == [PingReply] <==> command == "ping" || command == "пинг"
    ensures HandlersFor(Registrations, command) == [] <==> command !in {"id", "ping", "пинг"}
  {
    var pingRegs := Registrations[1..];
    assert pingRegs == [(["ping", "пинг"], PingReply)] && pingRegs[1..] == [];
    var pings := HandlersFor(pingRegs, command);
    assert pings == if command in ["ping", "пинг"] then [PingReply] else [];
    assert HandlersFor(Registrations, command) == if command in ["id"] then [IdReply] + pings else pings;
  }
}
